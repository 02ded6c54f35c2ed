/** The tool server (`mcp-test-server.py`): a fixed registry of five tools, a
    dispatcher from tool name to handler, and the handlers, each of which
    decides which commands to hand to the executor, in what order, when to
    stop early, and how to turn what came back into the text of a response.
    Every handler returns its response together with the trace of the argv
    lists it ran, in order. */
module Server {
  import opened Wrappers
  import opened PyText
  import opened Sorting
  import opened Executor

  // ---------------------------------------------------------------------
  // Tool arguments: a loosely typed bag, read with Python's rules
  // ---------------------------------------------------------------------

  /** A value in the JSON argument object: the schema declares only booleans
      and strings; `null` is what a client sends for an unset string. */
  datatype Value = Bool(b: bool) | Str(s: string) | Null

  type Args = map<string, Value>

  /** `arguments.get(key, default)`. */
  function Get(args: Args, key: string, default: Value): Value {
    if key in args then args[key] else default
  }

  /** Python truthiness, as `if v:` tests it. */
  predicate Truthy(v: Value) {
    match v
    case Bool(b) => b
    case Str(s) => s != ""
    case Null => false
  }

  /** What an f-string renders for the value. */
  function Render(v: Value): string {
    match v
    case Bool(b) => if b then "True" else "False"
    case Str(s) => s
    case Null => "None"
  }

  /** Python's type name of the value, as a `TypeError` message quotes it. */
  function TypeName(v: Value): string {
    match v
    case Bool(_) => "bool"
    case Str(_) => "str"
    case Null => "NoneType"
  }

  // ---------------------------------------------------------------------
  // The environment the handlers run in
  // ---------------------------------------------------------------------

  /** What the handlers can observe of the filesystem: whether `test/`
      exists, the names it lists (in the order the operating system returns
      them), and which `test/<name>` paths exist. */
  datatype FileSystem = FileSystem(testDirExists: bool, testDirEntries: seq<string>, present: set<string>)

  /** Whether `REPO_ROOT / "test" / file` exists: nothing under a missing
      `test/`, and the empty name is `test/` itself. */
  predicate TestPathExists(fs: FileSystem, file: string) {
    fs.testDirExists && (file == "" || file in fs.present)
  }

  /** The rendered `REPO_ROOT`, `TEST_SCRIPT` and `DOCKER_COMPOSE_FILE`. */
  datatype Paths = Paths(repoRoot: string, testScript: string, composeFile: string)

  datatype Env = Env(os: Oracle, fs: FileSystem, paths: Paths)

  // ---------------------------------------------------------------------
  // Responses
  // ---------------------------------------------------------------------

  /** A `CallToolResult`: its content is a list of text blocks. */
  datatype ToolResult = ToolResult(content: seq<string>)

  /** A handler's response and the argv lists it ran, in order. */
  datatype Handled = Handled(result: ToolResult, trace: seq<Argv>)

  function TextResult(text: string): ToolResult {
    ToolResult([text])
  }

  /** The text of the single block a handler answers with. */
  function TextOf(h: Handled): string {
    if |h.result.content| > 0 then h.result.content[0] else ""
  }

  // ---------------------------------------------------------------------
  // Commands
  // ---------------------------------------------------------------------

  const DockerVersionArgv: Argv := ["docker", "--version"]
  const ComposeVersionArgv: Argv := ["docker", "compose", "version"]
  const BuildBaseArgv: Argv := ["docker", "compose", "build"]
  const NoCacheFlag: string := "--no-cache"
  const SuiteArgv: Argv := ["./test/run-tests.sh"]

  /** The image build command of `build_test_image` and `build_image`. */
  function BuildArgv(force: bool): (cmd: Argv)
    ensures |cmd| >= 3 && cmd[..3] == BuildBaseArgv
    ensures NoCacheFlag in cmd <==> force
  {
    if force then BuildBaseArgv + [NoCacheFlag] else BuildBaseArgv
  }

  /** The build command as the source assembles it, by appending to a list. */
  method BuildCommand(force: bool) returns (cmd: Argv)
    ensures cmd == BuildArgv(force)
  {
    cmd := ["docker", "compose", "build"];
    if force {
      cmd := cmd + [NoCacheFlag];
    }
  }

  /** The one-off command that runs a single test file inside the container. */
  function SingleTestArgv(file: string): Argv {
    ["docker", "compose", "run", "--rm", "lua-test",
     "sh", "-c", "echo '=== Running " + file + " ===' && lua test/" + file]
  }

  /** The test command of `run_tests`: a named test if `specific_test` is
      truthy, the suite script otherwise. */
  function TestArgv(specific: Value): Argv {
    if Truthy(specific) then SingleTestArgv(Render(specific)) else SuiteArgv
  }

  /** True of the argv lists that build the image, with or without cache. */
  predicate IsBuildArgv(cmd: Argv) {
    cmd == BuildArgv(false) || cmd == BuildArgv(true)
  }

  /** The test command and the checks are no build command, so a trace of
      them holds a build only when the rebuild put one there. */
  lemma TraceAvoidsBuild(checks: seq<Argv>, rebuild: bool, cmd: Argv)
    requires checks == [DockerVersionArgv, ComposeVersionArgv]
    requires cmd == SuiteArgv || |cmd| == 8
    ensures var t := checks + (if rebuild then [BuildArgv(true)] else []) + [cmd];
      BuildArgv(false) !in t && (!rebuild ==> BuildArgv(true) !in t)
  {
    assert |BuildArgv(false)| == 3 && BuildArgv(false)[2] != ComposeVersionArgv[2];
    assert |BuildArgv(true)| == 4;
  }


  // ---------------------------------------------------------------------
  // Helpers: check_docker_availability and build_image
  // ---------------------------------------------------------------------

  const DockerNotFound: string := "Docker not found"
  const ComposeNotFound: string := "Docker Compose not found"

  datatype Availability = Available | Unavailable(error: string)

  datatype Checked = Checked(availability: Availability, trace: seq<Argv>)

  /** `check_docker_availability()`: `docker --version`, then, only if that
      exited 0, `docker compose version`. */
  function CheckDockerAvailability(os: Oracle): (c: Checked)
    ensures c.availability.Available? <==>
      RunCommand(os, DockerVersionArgv).returncode == 0 &&
      RunCommand(os, ComposeVersionArgv).returncode == 0
    ensures RunCommand(os, DockerVersionArgv).returncode != 0 ==>
      c == Checked(Unavailable(DockerNotFound), [DockerVersionArgv])
    ensures RunCommand(os, DockerVersionArgv).returncode == 0 ==>
      c.trace == [DockerVersionArgv, ComposeVersionArgv] &&
      (c.availability.Unavailable? ==> c.availability.error == ComposeNotFound)
  {
    if RunCommand(os, DockerVersionArgv).returncode != 0 then
      Checked(Unavailable(DockerNotFound), [DockerVersionArgv])
    else if RunCommand(os, ComposeVersionArgv).returncode != 0 then
      Checked(Unavailable(ComposeNotFound), [DockerVersionArgv, ComposeVersionArgv])
    else
      Checked(Available, [DockerVersionArgv, ComposeVersionArgv])
  }

  const BuildFailedError: string := "Build failed"

  datatype Built = Built(success: bool, output: string, error: Option<string>, trace: seq<Argv>)

  /** `build_image(force)`: one build command; success is exit code 0. */
  function BuildImage(os: Oracle, force: bool): (b: Built)
    ensures b.trace == [BuildArgv(force)]
    ensures b.success <==> RunCommand(os, BuildArgv(force)).returncode == 0
    ensures b.error == if b.success then None else Some(BuildFailedError)
  {
    var r := RunCommand(os, BuildArgv(force));
    Built(r.returncode == 0, r.stdout + r.stderr,
          if r.returncode == 0 then None else Some(BuildFailedError),
          [BuildArgv(force)])
  }

  // ---------------------------------------------------------------------
  // Report texts
  // ---------------------------------------------------------------------

  const PassedBanner: string := "✅ PASSED"
  const FailedBanner: string := "❌ FAILED"
  const ReportTitle: string := " - UCI Config Tool Tests\n\nReturn Code: "
  const OutputHeading: string := "\n\n=== TEST OUTPUT ===\n"
  const SummaryHeading: string := "\n\n=== SUMMARY ===\nTests "
  const PassedSummary: string := "completed successfully"
  const FailedSummary: string := "failed"

  /** A triple-quoted template that opens with a line break and closes on a
      line indented by `indent` spaces: `body` is the text in between. */
  function Template(body: string, indent: nat): string {
    "\n" + body + "\n" + Repeat(' ', indent)
  }

  /** The text between the quotes of the `run_tests` report template. */
  function TestReportBody(code: int, output: string): string {
    (if code == 0 then PassedBanner else FailedBanner) + ReportTitle + IntToString(code)
    + OutputHeading + output + SummaryHeading + (if code == 0 then PassedSummary else FailedSummary)
  }

  /** The stripped report `run_tests` answers with. */
  function TestReport(r: ExecResult): string {
    Strip(Template(TestReportBody(r.returncode, r.stdout + r.stderr), 8))
  }

  const BuildSucceededBanner: string := "✅ Build successful"
  const BuildFailedBanner: string := "❌ Build failed"
  const BuildOutputHeading: string := "\n\n=== BUILD OUTPUT ===\n"

  /** The text between the quotes of the `build_test_image` report template. */
  function BuildReportBody(r: ExecResult): string {
    (if r.returncode == 0 then BuildSucceededBanner else BuildFailedBanner)
    + BuildOutputHeading + r.stdout + "\n" + r.stderr
  }

  /** The stripped report `build_test_image` answers with. */
  function BuildReport(r: ExecResult): string {
    Strip(Template(BuildReportBody(r), 8))
  }

  const ReadyBanner: string := "✅ Docker Environment Ready"
  const NotReadyBanner: string := "❌ Docker Environment Not Available"
  const InstallHint: string := "Please ensure Docker and Docker Compose are installed and running."

  /** The text between the quotes of the `check_docker_status` template when
      both checks passed. */
  function ReadyReportBody(docker: ExecResult, compose: ExecResult, paths: Paths): string {
    ReadyBanner + "\n\nDocker: " + Strip(docker.stdout)
    + "\nDocker Compose: " + Strip(compose.stdout)
    + "\n\nRepository: " + paths.repoRoot
    + "\nTest Script: " + paths.testScript
    + "\nDocker Compose File: " + paths.composeFile
  }

  function ReadyReport(docker: ExecResult, compose: ExecResult, paths: Paths): string {
    Strip(Template(ReadyReportBody(docker, compose, paths), 12))
  }

  /** The text between the quotes of the `check_docker_status` template when
      a check failed. */
  function NotReadyReportBody(error: string): string {
    NotReadyBanner + "\n\nError: " + error + "\n\n" + InstallHint
  }

  function NotReadyReport(error: string): string {
    Strip(Template(NotReadyReportBody(error), 12))
  }

  const DockerUnavailablePrefix: string := "Docker not available: "
  const BuildAbortPrefix: string := "Failed to build Docker image: "
  const NotFoundPrefix: string := "Test file not found: "
  const SingleTestErrorPrefix: string := "Error running single test: "
  const ListingHeader: string := "Available test files:\n"
  const NoTestFilesMessage: string := "No test files found in test/ directory"

  // ---------------------------------------------------------------------
  // Listing test files
  // ---------------------------------------------------------------------

  const GlobPrefix: string := "test_"
  const GlobSuffix: string := ".lua"

  /** The meaning of the glob `test_*.lua`: `*` stands for any string. */
  ghost predicate GlobMatches(name: string) {
    exists middle: string :: name == GlobPrefix + middle + GlobSuffix
  }

  /** The test the filter applies to a name. */
  predicate MatchesTestGlob(name: string) {
    |name| >= |GlobPrefix| + |GlobSuffix| && IsPrefix(GlobPrefix, name) && IsSuffix(GlobSuffix, name)
  }

  /** The names of `test/` that `test_dir.glob("test_*.lua")` yields. */
  function GlobTestFiles(entries: seq<string>): (names: seq<string>)
    ensures forall x :: multiset(names)[x] == if MatchesTestGlob(x) then multiset(entries)[x] else 0
  {
    if entries == [] then []
    else
      var n := |entries| - 1;
      assert entries == entries[..n] + [entries[n]];
      GlobTestFiles(entries[..n]) + (if MatchesTestGlob(entries[n]) then [entries[n]] else [])
  }

  /** The list `list_test_files` collects: none when `test/` is missing. */
  function TestFileNames(fs: FileSystem): seq<string> {
    if fs.testDirExists then GlobTestFiles(fs.testDirEntries) else []
  }

  /** The collecting loop of `list_test_files`, appending one name at a time. */
  method CollectTestFiles(fs: FileSystem) returns (names: seq<string>)
    ensures names == TestFileNames(fs)
  {
    names := [];
    if fs.testDirExists {
      var entries := fs.testDirEntries;
      for i := 0 to |entries|
        invariant names == GlobTestFiles(entries[..i])
      {
        assert entries[..i + 1][..i] == entries[..i];
        if MatchesTestGlob(entries[i]) {
          names := names + [entries[i]];
        }
      }
      assert entries[..|entries|] == entries;
    }
  }

  /** One line of the listing per name. */
  function Bullets(names: seq<string>): (lines: seq<string>)
    ensures |lines| == |names|
    ensures forall i :: 0 <= i < |names| ==> lines[i] == "  - " + names[i]
  {
    seq(|names|, i requires 0 <= i < |names| => "  - " + names[i])
  }

  // ---------------------------------------------------------------------
  // The handlers
  // ---------------------------------------------------------------------

  /** `run_tests(arguments)`. */
  function RunTests(env: Env, args: Args): (h: Handled)
    ensures |h.result.content| == 1
    ensures |h.trace| > 0 && h.trace[0] == DockerVersionArgv
    ensures BuildArgv(false) !in h.trace
    ensures !Truthy(Get(args, "rebuild", Bool(false))) ==> BuildArgv(true) !in h.trace
  {
    var specific := Get(args, "specific_test", Null);
    var rebuild := Truthy(Get(args, "rebuild", Bool(false)));
    var check := CheckDockerAvailability(env.os);
    if check.availability.Unavailable? then
      Handled(TextResult(DockerUnavailablePrefix + check.availability.error), check.trace)
    else if rebuild && !BuildImage(env.os, rebuild).success then
      var built := BuildImage(env.os, rebuild);
      Handled(TextResult(BuildAbortPrefix + built.error.value), check.trace + built.trace)
    else
      var pre := check.trace + (if rebuild then BuildImage(env.os, rebuild).trace else []);
      var cmd := TestArgv(specific);
      TraceAvoidsBuild(check.trace, rebuild, cmd);
      Handled(TextResult(TestReport(RunCommand(env.os, cmd))), pre + [cmd])
  }

  /** `run_single_test(arguments)`. */
  function RunSingleTest(env: Env, args: Args): (h: Handled)
    ensures |h.result.content| == 1
    ensures forall cmd :: cmd in h.trace ==> !IsBuildArgv(cmd)
  {
    if "test_file" !in args then
      Handled(TextResult(SingleTestErrorPrefix + "'test_file'"), [])
    else
      match args["test_file"]
      case Str(file) =>
        if !TestPathExists(env.fs, file) then
          Handled(TextResult(NotFoundPrefix + file), [])
        else
          var delegated := map["verbose" := Get(args, "verbose", Bool(false)),
                               "specific_test" := Str(file),
                               "rebuild" := Bool(false)];
          assert Get(delegated, "rebuild", Bool(false)) == Bool(false);
          RunTests(env, delegated)
      case other =>
        Handled(TextResult(SingleTestErrorPrefix + "unsupported operand type(s) for /: 'PosixPath' and '"
                           + TypeName(other) + "'"), [])
  }

  /** `build_test_image(arguments)`. */
  function BuildTestImage(env: Env, args: Args): (h: Handled)
    ensures |h.result.content| == 1
    ensures |h.trace| > 0 && h.trace[0] == DockerVersionArgv
  {
    var force := Truthy(Get(args, "force", Bool(false)));
    var check := CheckDockerAvailability(env.os);
    if check.availability.Unavailable? then
      Handled(TextResult(DockerUnavailablePrefix + check.availability.error), check.trace)
    else
      var cmd := BuildArgv(force);
      Handled(TextResult(BuildReport(RunCommand(env.os, cmd))), check.trace + [cmd])
  }

  /** `list_test_files(arguments)`. */
  function ListTestFiles(fs: FileSystem): (h: Handled)
    ensures h.trace == [] && |h.result.content| == 1
    ensures TextOf(h) == NoTestFilesMessage <==> TestFileNames(fs) == []
  {
    var names := TestFileNames(fs);
    if names != [] then
      var text := ListingHeader + Join("\n", Bullets(Sort(names)));
      assert text[0] != NoTestFilesMessage[0];
      Handled(TextResult(text), [])
    else
      Handled(TextResult(NoTestFilesMessage), [])
  }

  /** `check_docker_status(arguments)`: the availability check, then, if it
      passed, both version commands once more for their output. */
  function CheckDockerStatus(env: Env): (h: Handled)
    ensures |h.result.content| == 1
  {
    var check := CheckDockerAvailability(env.os);
    match check.availability
    case Available =>
      Handled(TextResult(ReadyReport(RunCommand(env.os, DockerVersionArgv),
                                     RunCommand(env.os, ComposeVersionArgv), env.paths)),
              check.trace + [DockerVersionArgv, ComposeVersionArgv])
    case Unavailable(error) =>
      Handled(TextResult(NotReadyReport(error)), check.trace)
  }

  // ---------------------------------------------------------------------
  // Registry and dispatcher
  // ---------------------------------------------------------------------

  datatype ParamType = BooleanParam | StringParam

  /** A property of a tool's input schema; `default` is absent for a
      property declared without one. */
  datatype Param = Param(name: string, kind: ParamType, description: string, default: Option<Value>)

  datatype Tool = Tool(name: string, description: string, params: seq<Param>, required: seq<string>)

  /** `list_tools()`: the registry, in declaration order. */
  function ListTools(): seq<Tool> {
    [ Tool("run_tests", "Run all UCI config tool tests in dockerized OpenWRT environment",
           [ Param("verbose", BooleanParam, "Enable verbose test output", Some(Bool(false))),
             Param("specific_test", StringParam, "Run a specific test file (e.g., 'test_uci_config.lua')", Some(Null)),
             Param("rebuild", BooleanParam, "Force rebuild of Docker image", Some(Bool(false))) ],
           []),
      Tool("run_single_test", "Run a single test file in the dockerized environment",
           [ Param("test_file", StringParam, "Test file to run (e.g., 'test_uci_config.lua')", None),
             Param("verbose", BooleanParam, "Enable verbose output", Some(Bool(false))) ],
           ["test_file"]),
      Tool("build_test_image", "Build or rebuild the Docker test image",
           [ Param("force", BooleanParam, "Force rebuild without using cache", Some(Bool(false))) ],
           []),
      Tool("list_test_files", "List available test files", [], []),
      Tool("check_docker_status", "Check Docker and Docker Compose availability", [], []) ]
  }

  function ToolNames(): seq<string> {
    seq(|ListTools()|, i requires 0 <= i < |ListTools()| => ListTools()[i].name)
  }

  /** `call_tool(name, arguments)`: a registered name yields its handler's
      response; any other name raises "Unknown tool: <name>". */
  function CallTool(env: Env, name: string, args: Args): (r: Result<Handled>)
    ensures r.Success? <==> name in ToolNames()
    ensures r.Failure? ==> r.error == "Unknown tool: " + name
    ensures r.Success? ==> |r.value.result.content| == 1
  {
    assert ToolNames() == ["run_tests", "run_single_test", "build_test_image",
                           "list_test_files", "check_docker_status"];
    if name == "run_tests" then Success(RunTests(env, args))
    else if name == "run_single_test" then Success(RunSingleTest(env, args))
    else if name == "build_test_image" then Success(BuildTestImage(env, args))
    else if name == "list_test_files" then Success(ListTestFiles(env.fs))
    else if name == "check_docker_status" then Success(CheckDockerStatus(env))
    else Failure("Unknown tool: " + name)
  }
}
