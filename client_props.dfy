/** What the test client promises, stated over the model in `Client` and
    proved: which plan each command line selects, which tool calls each
    plan sends and in which order, what is printed for each answer, and
    the exit status; last, the client run against the server model. */
module ClientProps {
  import opened Wrappers
  import opened PyText
  import opened Server
  import opened Client
  import ServerProps

  // ---------------------------------------------------------------------
  // Routing
  // ---------------------------------------------------------------------

  /** The five outcomes of `main`, each exactly characterised by the first
      one or two arguments after the program name. */
  lemma RouteCases(argv: seq<string>)
    ensures Route(argv) == FullSuite <==> |argv| <= 1 || (|argv| == 2 && argv[1] == "test")
    ensures Route(argv).SingleTest? <==> |argv| > 2 && argv[1] == "test"
    ensures Route(argv).BuildImage? <==> |argv| > 1 && argv[1] == "build"
    ensures Route(argv) == Help <==> |argv| > 1 && IsHelpWord(argv[1])
    ensures Route(argv).UnknownCommand? <==>
      |argv| > 1 && argv[1] != "test" && argv[1] != "build" && !IsHelpWord(argv[1])
  {
  }

  /** `test <f>` names the file in the second argument; arguments after it
      change nothing. */
  lemma SingleTestIgnoresExtraArguments(argv: seq<string>, extra: seq<string>)
    requires |argv| > 2 && argv[1] == "test"
    ensures Route(argv) == SingleTest(argv[2])
    ensures Route(argv + extra) == Route(argv)
  {
    assert (argv + extra)[1] == argv[1] && (argv + extra)[2] == argv[2];
  }

  /** `build` forces a rebuild exactly when the literal `--force` is one
      of the words of the command line, at any position. */
  lemma BuildForceAnywhere(argv: seq<string>)
    requires |argv| > 1 && argv[1] == "build"
    ensures Route(argv) == BuildImage(exists i :: 0 <= i < |argv| && argv[i] == ForceFlag)
  {
  }

  // ---------------------------------------------------------------------
  // Calls and effects of a session body
  // ---------------------------------------------------------------------

  lemma {:induction false} CallsOfConcat(a: seq<Effect>, b: seq<Effect>)
    ensures CallsOf(a + b) == CallsOf(a) + CallsOf(b)
    decreases |a|
  {
    if a == [] {
      assert a + b == b;
    } else {
      assert (a + b)[0] == a[0];
      assert (a + b)[1..] == a[1..] + b;
      CallsOfConcat(a[1..], b);
    }
  }

  /** `p` is an initial part of `s`. */
  predicate Leads<T(==)>(p: seq<T>, s: seq<T>) {
    |p| <= |s| && s[..|p|] == p
  }

  /** Every `Ask` of the body is answered with at least one text. */
  predicate Answers(reply: ToolCall -> Result<seq<string>>, steps: seq<Step>) {
    forall i :: 0 <= i < |steps| && steps[i].Ask? ==>
      reply(steps[i].call).Success? && reply(steps[i].call).value != []
  }

  lemma AnswersByHead(reply: ToolCall -> Result<seq<string>>, steps: seq<Step>)
    requires steps != []
    ensures Answers(reply, steps) <==>
      (steps[0].Ask? ==> reply(steps[0].call).Success? && reply(steps[0].call).value != []) &&
      Answers(reply, steps[1..])
  {
    if (steps[0].Ask? ==> reply(steps[0].call).Success? && reply(steps[0].call).value != []) &&
       Answers(reply, steps[1..]) {
      forall i | 0 <= i < |steps| && steps[i].Ask?
        ensures reply(steps[i].call).Success? && reply(steps[i].call).value != []
      {
        if i > 0 { assert steps[i] == steps[1..][i - 1]; }
      }
    }
  }

  /** Whatever the server answers, the calls sent are an initial part of
      the body's calls, in the body's order; a run that ends with status 0
      sent all of them. */
  lemma {:induction false} StepsCallsLead(reply: ToolCall -> Result<seq<string>>, steps: seq<Step>, prefix: string)
    ensures Leads(CallsOf(Steps(reply, steps, prefix).log), ScriptCalls(steps))
    ensures Steps(reply, steps, prefix).status == 0 ==>
      CallsOf(Steps(reply, steps, prefix).log) == ScriptCalls(steps)
    decreases |steps|
  {
    if steps != [] {
      var rest := Steps(reply, steps[1..], prefix);
      StepsCallsLead(reply, steps[1..], prefix);
      ScriptCallsAt(steps, 0);
      assert steps[0..] == steps;
      assert ScriptCalls(steps) ==
        (if steps[0].Ask? then [steps[0].call] else []) + ScriptCalls(steps[1..]);
      match steps[0]
      case Say(line) =>
        SayCalls(line, rest.log);
      case Ask(call) =>
        match reply(call)
        case Failure(e) =>
          AskCalls(call, prefix + e, []);
          LeadsCons(call, [], ScriptCalls(steps[1..]));
        case Success(content) =>
          if content == [] {
            AskCalls(call, prefix + IndexErrorText, []);
            LeadsCons(call, [], ScriptCalls(steps[1..]));
          } else {
            AskCalls(call, content[0], rest.log);
            LeadsCons(call, CallsOf(rest.log), ScriptCalls(steps[1..]));
          }
    }
  }

  lemma SayCalls(line: string, rest: seq<Effect>)
    ensures CallsOf([Print(line)] + rest) == CallsOf(rest)
  {
    CallsOfConcat([Print(line)], rest);
    assert CallsOf([Print(line)]) == [] by { assert [Print(line)][1..] == []; }
  }

  lemma AskCalls(call: ToolCall, line: string, rest: seq<Effect>)
    ensures CallsOf([Call(call), Print(line)] + rest) == [call] + CallsOf(rest)
    ensures CallsOf([Call(call), Print(line)]) == [call]
  {
    var two := [Call(call), Print(line)];
    assert two[1..] == [Print(line)] && two[1..][1..] == [];
    assert CallsOf(two) == [call];
    CallsOfConcat(two, rest);
  }

  lemma LeadsCons(x: ToolCall, p: seq<ToolCall>, s: seq<ToolCall>)
    requires Leads(p, s)
    ensures Leads([x] + p, [x] + s)
  {
    assert ([x] + s)[..|[x] + p|] == [x] + s[..|p|];
  }

  /** A run ends with status 0 exactly when every call of the body was
      answered with some text. */
  lemma {:induction false} StepsSucceedIffAnswered(reply: ToolCall -> Result<seq<string>>, steps: seq<Step>, prefix: string)
    ensures Steps(reply, steps, prefix).status == 0 <==> Answers(reply, steps)
    decreases |steps|
  {
    if steps != [] {
      AnswersByHead(reply, steps);
      StepsSucceedIffAnswered(reply, steps[1..], prefix);
    }
  }

  /** The text after the error prefix when an answer cannot be printed. */
  function FailureText(answer: Result<seq<string>>): string {
    if answer.Failure? then answer.error else IndexErrorText
  }

  /** A run that ends with status 1 ends with the call that failed,
      followed by the error prefix and the exception text. */
  lemma {:induction false} StepsFailureLast(reply: ToolCall -> Result<seq<string>>, steps: seq<Step>, prefix: string)
    ensures var r := Steps(reply, steps, prefix);
      r.status == 1 ==>
        |r.log| >= 2 && r.log[|r.log| - 2].Call? &&
        r.log[|r.log| - 1] == Print(prefix + FailureText(reply(r.log[|r.log| - 2].call)))
    decreases |steps|
  {
    if steps != [] {
      StepsFailureLast(reply, steps[1..], prefix);
    }
  }

  /** Every answered call is followed at once by the first text of its
      answer, so the answers are printed in the order of the calls. */
  predicate EchoesAnswers(reply: ToolCall -> Result<seq<string>>, log: seq<Effect>) {
    forall k :: 0 <= k < |log| && log[k].Call? ==>
      k + 1 < |log| &&
      (reply(log[k].call).Success? && reply(log[k].call).value != [] ==>
         log[k + 1] == Print(reply(log[k].call).value[0]))
  }

  lemma EchoesCons(reply: ToolCall -> Result<seq<string>>, head: seq<Effect>, rest: seq<Effect>)
    requires EchoesAnswers(reply, head) && EchoesAnswers(reply, rest)
    requires forall k :: 0 <= k < |head| ==> !head[k].Call? || k + 1 < |head|
    ensures EchoesAnswers(reply, head + rest)
  {
    var log := head + rest;
    forall k | 0 <= k < |log| && log[k].Call?
      ensures k + 1 < |log| &&
        (reply(log[k].call).Success? && reply(log[k].call).value != [] ==>
           log[k + 1] == Print(reply(log[k].call).value[0]))
    {
      if k < |head| {
        assert log[k] == head[k] && log[k + 1] == head[k + 1];
      } else {
        assert log[k] == rest[k - |head|] && k + 1 - |head| < |rest|;
        assert log[k + 1] == rest[k + 1 - |head|];
      }
    }
  }

  lemma {:induction false} StepsEchoAnswers(reply: ToolCall -> Result<seq<string>>, steps: seq<Step>, prefix: string)
    ensures EchoesAnswers(reply, Steps(reply, steps, prefix).log)
    decreases |steps|
  {
    if steps != [] {
      var rest := Steps(reply, steps[1..], prefix);
      StepsEchoAnswers(reply, steps[1..], prefix);
      match steps[0]
      case Say(line) =>
        EchoesCons(reply, [Print(line)], rest.log);
      case Ask(call) =>
        if reply(call).Success? && reply(call).value != [] {
          EchoesCons(reply, [Call(call), Print(reply(call).value[0])], rest.log);
        }
    }
  }

  // ---------------------------------------------------------------------
  // Plans
  // ---------------------------------------------------------------------

  /** One step of `ScriptCalls` at position `k`. */
  lemma ScriptCallsAt(steps: seq<Step>, k: nat)
    requires k < |steps|
    ensures ScriptCalls(steps[k..]) ==
      (if steps[k].Ask? then [steps[k].call] else []) + ScriptCalls(steps[k + 1..])
  {
    assert steps[k..][1..] == steps[k + 1..];
  }

  /** The calls of each session body are the calls of its plan. */
  lemma ScriptsMatchPlans(file: string, force: bool)
    ensures ScriptCalls(SuiteScript()) == PlanCalls(FullSuite)
    ensures ScriptCalls(SingleTestScript(file)) == PlanCalls(SingleTest(file))
    ensures ScriptCalls(BuildScript(force)) == PlanCalls(BuildImage(force))
  {
    SuiteScriptCalls();
    ShortScriptCalls(SingleTestLine + file, SingleTestCall(file));
    ShortScriptCalls(BuildingLine, BuildCall(force));
  }

  /** A heading, the rule and one call send that one call. */
  lemma ShortScriptCalls(heading: string, call: ToolCall)
    ensures ScriptCalls([Say(heading), Say(Rule), Ask(call)]) == [call]
  {
    var t := [Say(heading), Say(Rule), Ask(call)];
    assert t[3..] == [];
    ScriptCallsAt(t, 2); ScriptCallsAt(t, 1); ScriptCallsAt(t, 0);
    assert t[0..] == t;
  }

  lemma {:induction false} ScriptCallsConcat(a: seq<Step>, b: seq<Step>)
    ensures ScriptCalls(a + b) == ScriptCalls(a) + ScriptCalls(b)
    decreases |a|
  {
    if a == [] {
      assert a + b == b;
    } else {
      assert (a + b)[0] == a[0];
      assert (a + b)[1..] == a[1..] + b;
      ScriptCallsConcat(a[1..], b);
    }
  }

  /** A block of a line, a call and a line sends that call. */
  lemma BlockCalls(before: string, call: ToolCall, after: string)
    ensures ScriptCalls([Say(before), Ask(call), Say(after)]) == [call]
  {
    var t := [Say(before), Ask(call), Say(after)];
    assert t[3..] == [];
    ScriptCallsAt(t, 2); ScriptCallsAt(t, 1); ScriptCallsAt(t, 0);
    assert t[0..] == t;
  }

  lemma SuiteScriptCalls()
    ensures ScriptCalls(SuiteScript()) == [StatusCall, ListCall, SuiteCall]
  {
    SuiteShapeCalls(ConnectedLine, CheckingLine, ListingLine, RunningLine, Rule, StatusCall, ListCall, SuiteCall);
  }

  /** Two lines send no call. */
  lemma LinesCalls(x: string, y: string)
    ensures ScriptCalls([Say(x), Say(y)]) == []
  {
    var a := [Say(x), Say(y)];
    assert a[2..] == [];
    ScriptCallsAt(a, 1); ScriptCallsAt(a, 0);
    assert a[0..] == a;
  }

  /** The calls of a script shaped like the full suite's body. */
  lemma SuiteShapeCalls(connected: string, checking: string, listing: string, running: string, rule: string,
                        status: ToolCall, list: ToolCall, suite: ToolCall)
    ensures ScriptCalls([Say(connected), Say(rule)]
                        + [Say(checking), Ask(status), Say("")]
                        + [Say(listing), Ask(list), Say("")]
                        + [Say(running), Say(rule), Ask(suite)]) == [status, list, suite]
  {
    var a := [Say(connected), Say(rule)];
    var b := [Say(checking), Ask(status), Say("")];
    var c := [Say(listing), Ask(list), Say("")];
    var d := [Say(running), Say(rule), Ask(suite)];
    LinesCalls(connected, rule);
    BlockCalls(checking, status, "");
    BlockCalls(listing, list, "");
    ShortScriptCalls(running, suite);
    ScriptCallsConcat(a, b);
    ScriptCallsConcat(a + b, c);
    ScriptCallsConcat(a + b + c, d);
  }

  /** The plan's session body, or none for help and unknown commands. */
  function PlanScript(p: Plan): Option<(seq<Step>, string)> {
    match p
    case FullSuite => Some((SuiteScript(), SuiteErrorPrefix))
    case SingleTest(file) => Some((SingleTestScript(file), SingleErrorPrefix))
    case BuildImage(force) => Some((BuildScript(force), BuildErrorPrefix))
    case Help => None
    case UnknownCommand(_) => None
  }

  /** `Invocation` by plan: a session for the first three, fixed effects
      for the last two. */
  lemma InvocationByPlan(argv: seq<string>, peer: Peer)
    ensures var ps := PlanScript(Route(argv));
      ps.Some? ==> Invocation(argv, peer) == Session(peer, ps.value.0, ps.value.1)
    ensures Route(argv) == Help ==> Invocation(argv, peer) == Run([ShowHelp], 0)
    ensures Route(argv).UnknownCommand? ==>
      Invocation(argv, peer) == Run([Print(UnknownCommandPrefix + Route(argv).command), Print(UsageHint)], 1)
  {
  }

  /** Each plan's session body sends the plan's calls. */
  lemma PlanScriptCalls(p: Plan)
    ensures PlanScript(p).Some? ==> ScriptCalls(PlanScript(p).value.0) == PlanCalls(p)
    ensures PlanScript(p).None? <==> p == Help || p.UnknownCommand?
  {
    ScriptsMatchPlans(if p.SingleTest? then p.file else "", p.BuildImage? && p.force);
  }

  /** Whatever the server does, the client sends an initial part of its
      plan's calls in the plan's order and never anything else; it exits
      with status 0 exactly when it sent all of them and got a text for
      each, or printed the usage text. */
  lemma CallsFollowPlan(argv: seq<string>, peer: Peer)
    ensures var r := Invocation(argv, peer);
      Leads(CallsOf(r.log), PlanCalls(Route(argv))) &&
      (r.status == 0 ==> CallsOf(r.log) == PlanCalls(Route(argv)))
    ensures var r := Invocation(argv, peer);
      var ps := PlanScript(Route(argv));
      r.status == 0 <==>
        Route(argv) == Help ||
        (ps.Some? && peer.startup.None? && Answers(peer.reply, ps.value.0))
  {
    var p := Route(argv);
    InvocationByPlan(argv, peer);
    PlanScriptCalls(p);
    match PlanScript(p)
    case Some(sp) =>
      SessionFacts(peer, sp.0, sp.1);
    case None =>
      if p == Help {
        assert CallsOf([ShowHelp]) == [] by { assert [ShowHelp][1..] == []; }
      } else {
        var log := [Print(UnknownCommandPrefix + p.command), Print(UsageHint)];
        assert CallsOf(log) == [] by { assert log[1..] == [log[1]] && log[1..][1..] == []; }
      }
  }

  /** A session sends an initial part of its body's calls; it ends with
      status 0 exactly when the server started and answered every call,
      and then it sent all of them. */
  lemma SessionFacts(peer: Peer, steps: seq<Step>, prefix: string)
    ensures var r := Session(peer, steps, prefix);
      Leads(CallsOf(r.log), ScriptCalls(steps)) &&
      (r.status == 0 ==> CallsOf(r.log) == ScriptCalls(steps)) &&
      (r.status == 0 <==> peer.startup.None? && Answers(peer.reply, steps))
  {
    if peer.startup.Some? {
      var log := [Print(prefix + peer.startup.value)];
      assert CallsOf(log) == [] by { assert log[1..] == []; }
    } else {
      StepsCallsLead(peer.reply, steps, prefix);
      StepsSucceedIffAnswered(peer.reply, steps, prefix);
    }
  }

  /** A server that cannot be started, or a call that raises, is reported
      after the plan's error prefix as the last line, and the exit status
      is 1. */
  lemma FailuresExitOne(argv: seq<string>, peer: Peer)
    requires PlanScript(Route(argv)).Some?
    ensures var r := Invocation(argv, peer);
      var prefix := PlanScript(Route(argv)).value.1;
      r.status == 1 ==>
        |r.log| > 0 &&
        ((peer.startup.Some? && r.log[|r.log| - 1] == Print(prefix + peer.startup.value)) ||
         (|r.log| >= 2 && r.log[|r.log| - 2].Call? &&
          r.log[|r.log| - 1] == Print(prefix + FailureText(peer.reply(r.log[|r.log| - 2].call)))))
    ensures peer.startup.Some? ==> Invocation(argv, peer).status == 1
  {
    var ps := PlanScript(Route(argv));
    InvocationByPlan(argv, peer);
    SessionFailureLast(peer, ps.value.0, ps.value.1);
  }

  /** A session that ends with status 1 ends with the printed exception. */
  lemma SessionFailureLast(peer: Peer, steps: seq<Step>, prefix: string)
    ensures var r := Session(peer, steps, prefix);
      r.status == 1 ==>
        |r.log| > 0 &&
        ((peer.startup.Some? && r.log[|r.log| - 1] == Print(prefix + peer.startup.value)) ||
         (|r.log| >= 2 && r.log[|r.log| - 2].Call? &&
          r.log[|r.log| - 1] == Print(prefix + FailureText(peer.reply(r.log[|r.log| - 2].call)))))
  {
    if peer.startup.None? {
      StepsFailureLast(peer.reply, steps, prefix);
    }
  }

  /** Help and unknown commands never start the server: no call is sent.
      Help prints the usage and exits 0; an unknown command prints its
      name and the usage hint and exits 1. */
  lemma HelpAndUnknownMakeNoCalls(argv: seq<string>, peer: Peer)
    ensures Route(argv) == Help ==> Invocation(argv, peer) == Run([ShowHelp], 0)
    ensures Route(argv).UnknownCommand? ==>
      Invocation(argv, peer) == Run([Print(UnknownCommandPrefix + argv[1]), Print(UsageHint)], 1)
    ensures Route(argv) == Help || Route(argv).UnknownCommand? ==> CallsOf(Invocation(argv, peer).log) == []
  {
    CallsFollowPlan(argv, peer);
  }

  /** Every answer the client gets is printed right after its call. */
  lemma AnswersPrintedInOrder(argv: seq<string>, peer: Peer)
    ensures EchoesAnswers(peer.reply, Invocation(argv, peer).log)
  {
    var r := Invocation(argv, peer);
    match PlanScript(Route(argv))
    case Some(sp) =>
      if peer.startup.None? {
        StepsEchoAnswers(peer.reply, sp.0, sp.1);
      }
    case None =>
  }

  // ---------------------------------------------------------------------
  // The client against the server
  // ---------------------------------------------------------------------

  /** The server model as the client sees it: it starts, and each call is
      answered by the dispatcher. */
  function ServerPeer(env: Env): Peer {
    Peer(None, (c: ToolCall) =>
      match CallTool(env, c.name, c.args)
      case Success(h) => Success(h.result.content)
      case Failure(e) => Failure(e))
  }

  /** Every registered tool answers with exactly one text. */
  lemma ServerAnswersRegistered(env: Env, c: ToolCall)
    requires c.name in ToolNames()
    ensures ServerPeer(env).reply(c) == Success(CallTool(env, c.name, c.args).value.result.content)
    ensures |ServerPeer(env).reply(c).value| == 1
  {
  }

  /** Each `Ask` of a body is one of the body's calls. */
  lemma {:induction false} AskIsScriptCall(steps: seq<Step>, i: nat)
    requires i < |steps| && steps[i].Ask?
    ensures steps[i].call in ScriptCalls(steps)
    decreases i
  {
    if i == 0 {
      assert ScriptCalls(steps) == [steps[0].call] + ScriptCalls(steps[1..]);
    } else {
      assert steps[1..][i - 1] == steps[i];
      AskIsScriptCall(steps[1..], i - 1);
    }
  }

  /** A body is answered when each of its calls is. */
  lemma AnsweredByCalls(reply: ToolCall -> Result<seq<string>>, steps: seq<Step>)
    requires forall c :: c in ScriptCalls(steps) ==> reply(c).Success? && reply(c).value != []
    ensures Answers(reply, steps)
  {
    forall i | 0 <= i < |steps| && steps[i].Ask?
      ensures reply(steps[i].call).Success? && reply(steps[i].call).value != []
    {
      AskIsScriptCall(steps, i);
    }
  }

  /** The client only calls registered tools. */
  lemma PlanCallsRegistered(p: Plan)
    ensures forall c :: c in PlanCalls(p) ==> c.name in ToolNames()
  {
    ServerProps.RegistryWellFormed();
  }

  /** Against the server, every plan that starts a session is answered in
      full: the client sends exactly its plan's calls and exits with status
      0, even when the tests or the build fail. */
  lemma ServerAnswersEveryPlan(argv: seq<string>, env: Env)
    requires PlanScript(Route(argv)).Some?
    ensures var r := Invocation(argv, ServerPeer(env));
      r.status == 0 && CallsOf(r.log) == PlanCalls(Route(argv))
  {
    var peer := ServerPeer(env);
    var p := Route(argv);
    var steps := PlanScript(p).value.0;
    PlanScriptCalls(p);
    PlanCallsRegistered(p);
    forall c | c in ScriptCalls(steps)
      ensures peer.reply(c).Success? && peer.reply(c).value != []
    {
      ServerAnswersRegistered(env, c);
    }
    AnsweredByCalls(peer.reply, steps);
    CallsFollowPlan(argv, peer);
  }

  lemma {:induction false} StepsConcat(reply: ToolCall -> Result<seq<string>>, a: seq<Step>, b: seq<Step>, prefix: string)
    requires Steps(reply, a, prefix).status == 0
    ensures Steps(reply, a + b, prefix) ==
      Run(Steps(reply, a, prefix).log + Steps(reply, b, prefix).log, Steps(reply, b, prefix).status)
    decreases |a|
  {
    if a == [] {
      assert a + b == b;
    } else {
      assert (a + b)[0] == a[0];
      assert (a + b)[1..] == a[1..] + b;
      StepsConcat(reply, a[1..], b, prefix);
    }
  }

  /** Two lines print those lines. */
  lemma StepsLines(reply: ToolCall -> Result<seq<string>>, x: string, y: string, prefix: string)
    ensures Steps(reply, [Say(x), Say(y)], prefix) == Run([Print(x), Print(y)], 0)
  {
    var t := [Say(x), Say(y)];
    assert t[1..] == [Say(y)] && t[1..][1..] == [];
    assert Steps(reply, [Say(y)], prefix) == Run([Print(y)], 0);
    assert [Print(x)] + [Print(y)] == [Print(x), Print(y)];
  }

  /** A line, an answered call and a line print the answer between the
      lines. */
  lemma StepsBlock(reply: ToolCall -> Result<seq<string>>, before: string, call: ToolCall, after: string,
                   prefix: string)
    requires reply(call).Success? && reply(call).value != []
    ensures Steps(reply, [Say(before), Ask(call), Say(after)], prefix) ==
      Run([Print(before), Call(call), Print(reply(call).value[0]), Print(after)], 0)
  {
    var t := [Say(before), Ask(call), Say(after)];
    var text := reply(call).value[0];
    assert t[1..] == [Ask(call), Say(after)] && t[1..][1..] == [Say(after)] && t[1..][1..][1..] == [];
    assert Steps(reply, [Say(after)], prefix) == Run([Print(after)], 0);
    assert Steps(reply, [Ask(call), Say(after)], prefix) == Run([Call(call), Print(text), Print(after)], 0) by {
      assert [Call(call), Print(text)] + [Print(after)] == [Call(call), Print(text), Print(after)];
    }
    assert [Print(before)] + [Call(call), Print(text), Print(after)]
        == [Print(before), Call(call), Print(text), Print(after)];
  }

  /** Two lines and an answered call print the answer after the lines. */
  lemma StepsTail(reply: ToolCall -> Result<seq<string>>, x: string, y: string, call: ToolCall, prefix: string)
    requires reply(call).Success? && reply(call).value != []
    ensures Steps(reply, [Say(x), Say(y), Ask(call)], prefix) ==
      Run([Print(x), Print(y), Call(call), Print(reply(call).value[0])], 0)
  {
    var t := [Say(x), Say(y), Ask(call)];
    var text := reply(call).value[0];
    assert t[1..] == [Say(y), Ask(call)] && t[1..][1..] == [Ask(call)] && t[1..][1..][1..] == [];
    assert Steps(reply, [Ask(call)], prefix) == Run([Call(call), Print(text)], 0) by {
      assert [Ask(call)][1..] == [];
      assert [Call(call), Print(text)] + [] == [Call(call), Print(text)];
    }
    assert [Print(y)] + [Call(call), Print(text)] == [Print(y), Call(call), Print(text)];
    assert [Print(x)] + [Print(y), Call(call), Print(text)] == [Print(x), Print(y), Call(call), Print(text)];
  }

  /** The full suite against the server: the status report, the listing
      and the run report are printed in that order below their headings,
      and the exit status is 0 whether or not the tests passed. */
  lemma SuiteAgainstServer(argv: seq<string>, env: Env)
    requires Route(argv) == FullSuite
    ensures Invocation(argv, ServerPeer(env)) ==
      Run([Print(ConnectedLine), Print(Rule)]
          + [Print(CheckingLine), Call(StatusCall), Print(TextOf(CheckDockerStatus(env))), Print("")]
          + [Print(ListingLine), Call(ListCall), Print(TextOf(ListTestFiles(env.fs))), Print("")]
          + [Print(RunningLine), Print(Rule), Call(SuiteCall), Print(TextOf(RunTests(env, SuiteCall.args)))], 0)
  {
    var peer := ServerPeer(env);
    var reply := peer.reply;
    InvocationByPlan(argv, peer);
    ServerAnswersRegistered(env, StatusCall);
    ServerAnswersRegistered(env, ListCall);
    ServerAnswersRegistered(env, SuiteCall);
    var a := [Say(ConnectedLine), Say(Rule)];
    var b := [Say(CheckingLine), Ask(StatusCall), Say("")];
    var c := [Say(ListingLine), Ask(ListCall), Say("")];
    var d := [Say(RunningLine), Say(Rule), Ask(SuiteCall)];
    assert SuiteScript() == a + b + c + d;
    StepsLines(reply, ConnectedLine, Rule, SuiteErrorPrefix);
    StepsBlock(reply, CheckingLine, StatusCall, "", SuiteErrorPrefix);
    StepsBlock(reply, ListingLine, ListCall, "", SuiteErrorPrefix);
    StepsTail(reply, RunningLine, Rule, SuiteCall, SuiteErrorPrefix);
    StepsConcat(reply, a, b, SuiteErrorPrefix);
    StepsConcat(reply, a + b, c, SuiteErrorPrefix);
    StepsConcat(reply, a + b + c, d, SuiteErrorPrefix);
  }

  /** A single test or a build against the server: the heading, the rule,
      the one call and the handler's text, with exit status 0. */
  lemma ShortPlansAgainstServer(argv: seq<string>, env: Env)
    ensures Route(argv).SingleTest? ==>
      var f := Route(argv).file;
      Invocation(argv, ServerPeer(env)) ==
        Run([Print(SingleTestLine + f), Print(Rule), Call(SingleTestCall(f)),
             Print(TextOf(RunSingleTest(env, SingleTestCall(f).args)))], 0)
    ensures Route(argv).BuildImage? ==>
      var force := Route(argv).force;
      Invocation(argv, ServerPeer(env)) ==
        Run([Print(BuildingLine), Print(Rule), Call(BuildCall(force)),
             Print(TextOf(BuildTestImage(env, BuildCall(force).args)))], 0)
  {
    InvocationByPlan(argv, ServerPeer(env));
    match Route(argv)
    case SingleTest(f) => SingleTestSession(env, f);
    case BuildImage(force) => BuildSession(env, force);
    case _ =>
  }

  lemma SingleTestSession(env: Env, f: string)
    ensures Session(ServerPeer(env), SingleTestScript(f), SingleErrorPrefix) ==
      Run([Print(SingleTestLine + f), Print(Rule), Call(SingleTestCall(f)),
           Print(TextOf(RunSingleTest(env, SingleTestCall(f).args)))], 0)
  {
    var peer := ServerPeer(env);
    ServerAnswersRegistered(env, SingleTestCall(f));
    StepsTail(peer.reply, SingleTestLine + f, Rule, SingleTestCall(f), SingleErrorPrefix);
  }

  lemma BuildSession(env: Env, force: bool)
    ensures Session(ServerPeer(env), BuildScript(force), BuildErrorPrefix) ==
      Run([Print(BuildingLine), Print(Rule), Call(BuildCall(force)),
           Print(TextOf(BuildTestImage(env, BuildCall(force).args)))], 0)
  {
    var peer := ServerPeer(env);
    ServerAnswersRegistered(env, BuildCall(force));
    StepsTail(peer.reply, BuildingLine, Rule, BuildCall(force), BuildErrorPrefix);
  }

  lemma MissingFileReported(env: Env, f: string)
    requires !TestPathExists(env.fs, f)
    ensures TextOf(RunSingleTest(env, SingleTestCall(f).args)) == NotFoundPrefix + f
  {
    var args := SingleTestCall(f).args;
    assert "test_file" in args && args["test_file"] == Str(f);
    ServerProps.MissingTestFileRunsNothing(env, args, f);
  }

  /** `test <f>` for a file that is not under `test/`: the server reports
      it without running anything, and the client prints that and still
      exits with status 0. */
  lemma MissingFileStillExitsZero(argv: seq<string>, env: Env)
    requires Route(argv).SingleTest? && !TestPathExists(env.fs, Route(argv).file)
    ensures Invocation(argv, ServerPeer(env)).status == 0
    ensures var log := Invocation(argv, ServerPeer(env)).log;
      |log| == 4 && log[3] == Print(NotFoundPrefix + Route(argv).file)
  {
    var f := Route(argv).file;
    var args := SingleTestCall(f).args;
    var r := Invocation(argv, ServerPeer(env));
    assert r.status == 0 && |r.log| == 4 && r.log[3] == Print(TextOf(RunSingleTest(env, args))) by {
      ShortPlansAgainstServer(argv, env);
    }
    MissingFileReported(env, f);
  }
}
