/** The test client (`run-mcp-tests.py`): `main` picks a plan from the
    command line, and each plan is a session that prints a few header
    lines, asks the server for tools in a fixed order and prints the first
    text of each answer. The server is a peer that either fails to start or
    answers each call with a list of texts or with an exception. */
module Client {
  import opened Wrappers
  import opened PyText
  import opened Server

  // ---------------------------------------------------------------------
  // Routing
  // ---------------------------------------------------------------------

  /** What `main` decides to do. */
  datatype Plan =
    | FullSuite
    | SingleTest(file: string)
    | BuildImage(force: bool)
    | Help
    | UnknownCommand(command: string)

  const ForceFlag: string := "--force"

  /** The arguments after the program name (`sys.argv[1:]`). */
  function CommandArgs(argv: seq<string>): (args: seq<string>)
    ensures |argv| > 0 ==> argv == [argv[0]] + args
    ensures |argv| == 0 ==> args == []
  {
    if |argv| > 0 then argv[1..] else []
  }

  predicate IsHelpWord(w: string) {
    w == "help" || w == "--help" || w == "-h"
  }

  /** `main`'s if/elif chain on `sys.argv`. `force` looks at the whole
      argv, the program name included, as `"--force" in sys.argv` does. */
  function Route(argv: seq<string>): (p: Plan)
    ensures p.SingleTest? ==> |argv| > 2 && p.file == argv[2]
    ensures p.UnknownCommand? ==> |argv| > 1 && p.command == argv[1]
    ensures p.BuildImage? ==> (p.force <==> ForceFlag in argv)
  {
    var args := CommandArgs(argv);
    if args == [] || args[0] == "test" then
      if |args| > 1 then SingleTest(args[1]) else FullSuite
    else if args[0] == "build" then BuildImage(ForceFlag in argv)
    else if IsHelpWord(args[0]) then Help
    else UnknownCommand(args[0])
  }

  // ---------------------------------------------------------------------
  // Sessions
  // ---------------------------------------------------------------------

  /** A `session.call_tool(name, arguments)` request. */
  datatype ToolCall = ToolCall(name: string, args: Args)

  /** What the client does that can be observed: a printed line, a tool
      call sent to the server, or the usage text. */
  datatype Effect = Print(line: string) | Call(call: ToolCall) | ShowHelp

  /** The server as the client sees it: starting the server and
      initialising the session either works (`None`) or raises (`Some`
      with the exception text); each call is answered with the texts of
      the result's content, or raises. */
  datatype Peer = Peer(startup: Option<string>, reply: ToolCall -> Result<seq<string>>)

  /** One step of a session body. */
  datatype Step = Say(line: string) | Ask(call: ToolCall)

  /** The observable effects of a run and the process exit status. */
  datatype Run = Run(log: seq<Effect>, status: int)

  /** The text of the `IndexError` raised by `content[0]` on an empty
      content list. */
  const IndexErrorText: string := "list index out of range"

  /** The line `print("=" * 50)` writes. */
  const Rule: string := Repeat('=', 50)

  const ConnectedLine: string := "🚀 MCP Test Server Connected"
  const CheckingLine: string := "📋 Checking Docker environment..."
  const ListingLine: string := "📂 Available test files..."
  const RunningLine: string := "🧪 Running all tests..."
  const SingleTestLine: string := "🚀 Running single test: "
  const BuildingLine: string := "🔨 Building Docker test image..."

  const SuiteErrorPrefix: string := "❌ Error running MCP tests: "
  const SingleErrorPrefix: string := "❌ Error running single test: "
  const BuildErrorPrefix: string := "❌ Error building image: "

  const UnknownCommandPrefix: string := "❌ Unknown command: "
  const UsageHint: string := "Run 'python3 run-mcp-tests.py help' for usage information"

  const StatusCall: ToolCall := ToolCall("check_docker_status", map[])
  const ListCall: ToolCall := ToolCall("list_test_files", map[])
  const SuiteCall: ToolCall := ToolCall("run_tests", map["verbose" := Bool(true), "rebuild" := Bool(false)])

  function SingleTestCall(file: string): ToolCall {
    ToolCall("run_single_test", map["test_file" := Str(file), "verbose" := Bool(true)])
  }

  function BuildCall(force: bool): ToolCall {
    ToolCall("build_test_image", map["force" := Bool(force)])
  }

  /** The body of `run_tests()` in the client, block by block: the
      connection banner, the status check, the listing and the run. */
  function SuiteScript(): seq<Step> {
    [Say(ConnectedLine), Say(Rule)]
    + [Say(CheckingLine), Ask(StatusCall), Say("")]
    + [Say(ListingLine), Ask(ListCall), Say("")]
    + [Say(RunningLine), Say(Rule), Ask(SuiteCall)]
  }

  /** The body of `run_single_test(test_file)`. */
  function SingleTestScript(file: string): seq<Step> {
    [Say(SingleTestLine + file), Say(Rule), Ask(SingleTestCall(file))]
  }

  /** The body of `build_image()`. */
  function BuildScript(force: bool): seq<Step> {
    [Say(BuildingLine), Say(Rule), Ask(BuildCall(force))]
  }

  /** The tool calls a script sends when every call is answered. */
  function ScriptCalls(steps: seq<Step>): (calls: seq<ToolCall>)
    ensures |calls| <= |steps|
  {
    if steps == [] then []
    else (if steps[0].Ask? then [steps[0].call] else []) + ScriptCalls(steps[1..])
  }

  /** The tool calls of a logged run, in order. */
  function CallsOf(log: seq<Effect>): (calls: seq<ToolCall>)
    ensures |calls| <= |log|
  {
    if log == [] then []
    else (if log[0].Call? then [log[0].call] else []) + CallsOf(log[1..])
  }

  /** Running the steps of a session body: a `Say` prints its line; an
      `Ask` sends its call and prints the first text of the answer. The
      first exception, from the call or from `content[0]` on an empty
      answer, is printed after the prefix and ends the run with status 1. */
  function Steps(reply: ToolCall -> Result<seq<string>>, steps: seq<Step>, prefix: string): (r: Run)
    ensures r.status == 0 || r.status == 1
  {
    if steps == [] then Run([], 0)
    else
      match steps[0]
      case Say(line) =>
        var rest := Steps(reply, steps[1..], prefix);
        Run([Print(line)] + rest.log, rest.status)
      case Ask(call) =>
        match reply(call)
        case Failure(e) => Run([Call(call), Print(prefix + e)], 1)
        case Success(content) =>
          if content == [] then Run([Call(call), Print(prefix + IndexErrorText)], 1)
          else
            var rest := Steps(reply, steps[1..], prefix);
            Run([Call(call), Print(content[0])] + rest.log, rest.status)
  }

  /** A whole session: start the server, then run the body; a failed
      start is printed after the prefix and ends with status 1 before any
      line of the body. */
  function Session(peer: Peer, steps: seq<Step>, prefix: string): (r: Run)
    ensures r.status == 0 || r.status == 1
    ensures peer.startup.Some? ==> r == Run([Print(prefix + peer.startup.value)], 1)
  {
    match peer.startup
    case Some(e) => Run([Print(prefix + e)], 1)
    case None => Steps(peer.reply, steps, prefix)
  }

  /** The whole program: the plan `main` picks, carried out. */
  function Invocation(argv: seq<string>, peer: Peer): (r: Run)
    ensures r.status == 0 || r.status == 1
  {
    match Route(argv)
    case FullSuite => Session(peer, SuiteScript(), SuiteErrorPrefix)
    case SingleTest(file) => Session(peer, SingleTestScript(file), SingleErrorPrefix)
    case BuildImage(force) => Session(peer, BuildScript(force), BuildErrorPrefix)
    case Help => Run([ShowHelp], 0)
    case UnknownCommand(c) => Run([Print(UnknownCommandPrefix + c), Print(UsageHint)], 1)
  }

  /** The calls a plan makes when the server answers every one. */
  function PlanCalls(p: Plan): (calls: seq<ToolCall>)
    ensures p.Help? || p.UnknownCommand? ==> calls == []
  {
    match p
    case FullSuite => [StatusCall, ListCall, SuiteCall]
    case SingleTest(file) => [SingleTestCall(file)]
    case BuildImage(force) => [BuildCall(force)]
    case Help => []
    case UnknownCommand(_) => []
  }

  // ---------------------------------------------------------------------
  // The console: the effects of the process as they happen
  // ---------------------------------------------------------------------

  class Console {
    /** Everything printed and sent so far. */
    var log: seq<Effect>

    constructor ()
      ensures log == []
    {
      log := [];
    }

    method Emit(e: Effect)
      modifies this
      ensures log == old(log) + [e]
    {
      log := log + [e];
    }

    /** Runs a session body step by step, stopping at the first exception;
        the effects and the status are those of `Steps`. */
    method RunSteps(reply: ToolCall -> Result<seq<string>>, steps: seq<Step>, prefix: string)
      returns (status: int)
      modifies this
      ensures log == old(log) + Steps(reply, steps, prefix).log
      ensures status == Steps(reply, steps, prefix).status
    {
      var i := 0;
      var stopped := false;
      status := 0;
      while i < |steps| && !stopped
        invariant 0 <= i <= |steps|
        invariant !stopped ==> status == 0
        invariant !stopped ==>
          old(log) + Steps(reply, steps, prefix).log == log + Steps(reply, steps[i..], prefix).log &&
          Steps(reply, steps, prefix).status == Steps(reply, steps[i..], prefix).status
        invariant stopped ==>
          log == old(log) + Steps(reply, steps, prefix).log && status == Steps(reply, steps, prefix).status
        decreases |steps| - i, if stopped then 0 else 1
      {
        assert steps[i..][1..] == steps[i + 1..];
        match steps[i]
        case Say(line) =>
          Emit(Print(line));
          i := i + 1;
        case Ask(call) =>
          Emit(Call(call));
          match reply(call)
          case Failure(e) =>
            Emit(Print(prefix + e));
            status := 1;
            stopped := true;
          case Success(content) =>
            if content == [] {
              Emit(Print(prefix + IndexErrorText));
              status := 1;
              stopped := true;
            } else {
              Emit(Print(content[0]));
              i := i + 1;
            }
      }
      if !stopped {
        assert steps[i..] == [];
        assert log + [] == log;
      }
    }

    /** Starts the server and, if that works, runs the body. */
    method RunSession(peer: Peer, steps: seq<Step>, prefix: string) returns (status: int)
      modifies this
      ensures log == old(log) + Session(peer, steps, prefix).log
      ensures status == Session(peer, steps, prefix).status
    {
      match peer.startup
      case Some(e) =>
        Emit(Print(prefix + e));
        status := 1;
      case None =>
        status := RunSteps(peer.reply, steps, prefix);
    }

    /** `main`: routes the command line and carries out the plan; the
        result is the process exit status. */
    method Start(argv: seq<string>, peer: Peer) returns (status: int)
      modifies this
      ensures log == old(log) + Invocation(argv, peer).log
      ensures status == Invocation(argv, peer).status
    {
      var args := CommandArgs(argv);
      if args == [] || args[0] == "test" {
        if |args| > 1 {
          status := RunSession(peer, SingleTestScript(args[1]), SingleErrorPrefix);
        } else {
          status := RunSession(peer, SuiteScript(), SuiteErrorPrefix);
        }
      } else if args[0] == "build" {
        status := RunSession(peer, BuildScript(ForceFlag in argv), BuildErrorPrefix);
      } else if IsHelpWord(args[0]) {
        Emit(ShowHelp);
        status := 0;
      } else {
        Emit(Print(UnknownCommandPrefix + args[0]));
        Emit(Print(UsageHint));
        status := 1;
      }
    }
  }
}
