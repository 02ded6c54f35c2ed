# MCP test server and client: a Dafny model

This project models the test-automation adapter of the repository in two parts.

**The tool server** (`mcp-test-server.py`) has three layers:

- a fixed registry of five tools;
- a dispatcher from a tool name to its handler;
- the handlers themselves.

Each handler except `list_test_files` calls `docker --version`, `docker compose version`, `docker compose build [--no-cache]`, `docker compose run ... lua test/<file>` or `./test/run-tests.sh` through one command executor. It then turns the exit code and the captured streams into the text of a single response block.

**The test client** (`run-mcp-tests.py`) does two things:

- it routes its command line to a plan: full suite, single test, image build, help or unknown command;
- it runs each plan as a session. A session prints header lines, calls tools in a fixed order and prints the first text block of each answer. It stops at the first exception, which it prints and turns into exit status 1.

The files under `mcp.legacy/backup/` are byte-for-byte copies of those under `mcp/backup/`, so one model covers both. The source column below cites the `mcp/backup/` copies.

How the model is built:

- **The operating system** is an oracle `Argv -> Spawn`. For each argv, the process either exits with a code and two decoded streams, or cannot be started and yields the text of the exception.
- **The handlers** are pure functions of an environment and return a `Handled` value. It holds the response content and the `trace`: the argv lists the handler ran, in order. Which commands run, in what order and when a handler stops early can therefore be stated and proved.
- **Python text behaviour** is modelled exactly where the response texts depend on it:
  - `str.strip()`, with the full `str.isspace()` character set;
  - `str(int)`;
  - `"\n".join`;
  - `"=" * 50`;
  - `sorted()` on strings, which orders by code point.
- **The imperative parts** stay imperative:
  - `BuildCommand` appends `--no-cache` to a list;
  - `CollectTestFiles` collects the glob matches in a loop;
  - the client's `Console` object keeps a log of printed lines and tool calls, and its `RunSteps` loop stops at the first exception.

  Each of these methods is proved equal to a specification function. `BuildCommand` and `CollectTestFiles` are reference implementations of `BuildArgv` and `GlobTestFiles`: the handlers `BuildImage` and `ListTestFiles` use the functions, not the methods.
- **The properties** are proved about those functions:
  - the test report round-trips the exit code and the output;
  - the banners say PASSED or FAILED exactly when the exit code is 0;
  - the image is rebuilt only on request;
  - a missing test file runs nothing;
  - the listing is the sorted set of matching names and ignores directory order;
  - the client's calls follow its plan;
  - a session succeeds exactly when every call is answered;
  - against the modelled server, every plan reaches the end of its script.

Modules:

- `Wrappers`: `Option` and `Result`.
- `PyText`: the Python string operations listed above.
- `Sorting`: `sorted()`, an insertion sort with a uniqueness lemma.
- `Executor`: `run_command`.
- `Server`: the handlers, the registry and the dispatcher.
- `ServerProps`: properties of the server.
- `Client`: routing, sessions and the `Console` class.
- `ClientProps`: properties of the client, alone and against `Server`.

### Points worth knowing about the code

- **Exit status.** The client exits with 1 only on an exception or an unknown command. A failed test run, a failed build, a missing test file and an unavailable Docker are all reported as ordinary response text, so the client exits with 0. `ClientProps.SuiteAgainstServer`, `ClientProps.ShortPlansAgainstServer` and `ClientProps.MissingFileStillExitsZero` prove exit status 0 in these cases.
- **Unknown tool name.** `call_tool` raises `ValueError("Unknown tool: <name>")` for a name it does not know. `Server.CallTool` models that as `Failure("Unknown tool: " + name)`.
- **Repeated version commands.** `check_docker_status` runs `docker --version` and `docker compose version` twice: once inside the availability check and once more for the version strings. All four commands are in the trace (`ServerProps.StatusReady`).
- **Empty `test_file`.** `run_single_test` with `test_file` set to the empty string checks `test/` itself, which exists whenever `test/` does. It then runs the whole suite, because `run_tests` treats an empty `specific_test` as absent. `ServerProps.EmptyTestFileRunsSuite` states this.

## Model

| member | source | states |
|---|---|---|
| Executor.RunCommand | mcp/backup/mcp-test-server.py:404-426 | Exit code 0 exactly when the process ran and exited 0. A process that ran passes its code and both streams through unchanged. A process that could not be started reads as -1, empty stdout, and "Command execution failed: " plus the reason on stderr. |
| Server.BuildArgv | mcp/backup/mcp-test-server.py:259-261 | The build command starts with `docker compose build` and contains `--no-cache` exactly when force is set. |
| Server.BuildCommand | mcp/backup/mcp-test-server.py:391-393 | The list-appending construction of the build command yields `BuildArgv(force)`. |
| Server.CheckDockerAvailability | mcp/backup/mcp-test-server.py:370-386 | Available exactly when both version commands exit 0. If `docker --version` fails, only that command runs and the error is "Docker not found". Otherwise both run, and an unavailable result says "Docker Compose not found". |
| Server.BuildImage | mcp/backup/mcp-test-server.py:388-402 | Runs exactly one build command, with `--no-cache` iff force. Success iff that command exits 0. The error is absent on success and "Build failed" otherwise. |
| Server.GlobTestFiles | mcp/backup/mcp-test-server.py:299-301 | Every name occurs in the result as often as in the directory listing if it matches `test_*.lua`, and not at all otherwise. |
| Server.CollectTestFiles | mcp/backup/mcp-test-server.py:297-301 | The collecting loop yields the glob matches of `test/`, or nothing when `test/` does not exist. |
| Server.RunTests | mcp/backup/mcp-test-server.py:132-208 | Answers with exactly one text block. The first command run is `docker --version`. The cached build command is never run. Without a truthy `rebuild`, the no-cache build is not run either. |
| Server.RunSingleTest | mcp/backup/mcp-test-server.py:210-239 | Answers with exactly one text block and never runs a build command. |
| Server.BuildTestImage | mcp/backup/mcp-test-server.py:241-291 | Answers with exactly one text block. The first command run is `docker --version`. |
| Server.ListTestFiles | mcp/backup/mcp-test-server.py:293-322 | Runs no command and answers with one block. The block is "No test files found in test/ directory" exactly when no name matches. |
| Server.CheckDockerStatus | mcp/backup/mcp-test-server.py:324-366 | Answers with exactly one text block. |
| Server.CallTool | mcp/backup/mcp-test-server.py:115-130 | Succeeds exactly for the five registered names, with a one-block answer. Any other name fails with "Unknown tool: " and the name. |
| Sorting.Insert | mcp/backup/mcp-test-server.py:304 | Inserting into a sorted list keeps it sorted and adds exactly that one element. |
| Sorting.Sort | mcp/backup/mcp-test-server.py:304 | `sorted()`: the result is in ascending code-point order and is a permutation of the input. |
| Sorting.SortedUnique | mcp/backup/mcp-test-server.py:304 | Two sorted lists with the same elements are equal, so `sorted()` has only one possible result. |
| Sorting.SortIgnoresOrder | mcp/backup/mcp-test-server.py:304 | Two arrangements of the same names sort to the same list. |
| PyText.StripLeft | mcp/backup/mcp-test-server.py:193 | Removes the longest all-whitespace prefix, and what remains does not start with whitespace. |
| PyText.StripRight | mcp/backup/mcp-test-server.py:193 | Removes the longest all-whitespace suffix, and what remains does not end with whitespace. |
| PyText.StripFramed | mcp/backup/mcp-test-server.py:183-193 | A text that starts and ends with non-whitespace, padded with whitespace on both sides, strips to itself. |
| PyText.IntToStringRoundTrip | mcp/backup/mcp-test-server.py:186 | The decimal rendering of an int reads back as that int. |
| PyText.LexLeTotal | mcp/backup/mcp-test-server.py:304 | The string order `sorted()` uses is total. |
| PyText.LexLeAntisymmetric | mcp/backup/mcp-test-server.py:304 | The string order `sorted()` uses is antisymmetric. |
| PyText.LexLeTransitive | mcp/backup/mcp-test-server.py:304 | The string order `sorted()` uses is transitive. |
| ServerProps.RegistryWellFormed | mcp/backup/mcp-test-server.py:36-113 | The registry lists the five tools in declaration order with distinct names. A boolean property's default is a boolean, and a string property's default is not a boolean (for `specific_test` it is `None`). Each required property is declared and has no default. |
| ServerProps.CallToolRoutes | mcp/backup/mcp-test-server.py:119-128 | Each registered name is dispatched to its own handler with the arguments unchanged. |
| ServerProps.StripTemplate | mcp/backup/mcp-test-server.py:183-193 | Stripping a template that opens with a line break and closes on an indented line gives its body, minus trailing whitespace. |
| ServerProps.TestReportUnpadded | mcp/backup/mcp-test-server.py:178-193 | The stripped test report is the template body itself, with the output being stdout followed by stderr. |
| ServerProps.TestReportBanner | mcp/backup/mcp-test-server.py:179-182 | The report starts with "✅ PASSED" iff the exit code is 0, and with "❌ FAILED" iff it is not. |
| ServerProps.TestReportRoundTrip | mcp/backup/mcp-test-server.py:178-193 | The report can be parsed back into the exit code and the output (stdout followed by stderr) it was made from. |
| ServerProps.RunTestsUnavailable | mcp/backup/mcp-test-server.py:143-150 | If Docker is unavailable, the answer is "Docker not available: " plus the error, and only the availability checks ran. |
| ServerProps.RebuildBehaviour | mcp/backup/mcp-test-server.py:153-161 | A truthy `rebuild` runs the no-cache build right after the checks. If that build fails, the answer is "Failed to build Docker image: Build failed" and nothing else runs. |
| ServerProps.TestsRunTrace | mcp/backup/mcp-test-server.py:143-175 | Once the checks and any requested rebuild pass, the commands run are exactly `docker --version`, `docker compose version`, the no-cache build if `rebuild` is truthy, then the test command. |
| ServerProps.TestsRunReport | mcp/backup/mcp-test-server.py:163-193 | Once the checks and any rebuild pass, the last command is the test command, and the answer is the report of that command's result. |
| ServerProps.TestArgvChoice | mcp/backup/mcp-test-server.py:164-172 | A non-empty `specific_test` string runs exactly that file in the container. An absent or empty one runs the suite script. A truthy value never runs the suite. |
| ServerProps.RunTestsIgnoresVerbose | mcp/backup/mcp-test-server.py:135 | The `verbose` argument changes neither the commands nor the answer. |
| ServerProps.PassedOnlyOnZeroExit | mcp/backup/mcp-test-server.py:178-193 | An answer that starts with "✅ PASSED" means the checks and any rebuild passed and the test command exited 0. |
| ServerProps.PassedImpliesRun | mcp/backup/mcp-test-server.py:143-161 | Only a run that got past the checks and the rebuild can answer "✅ PASSED". |
| ServerProps.SpecificTestEndToEnd | mcp/backup/mcp-test-server.py:164-193 | With Docker available, a named `specific_test` runs the two checks and then that file. The "Return Code" of the answer is the command's real exit code, and the output section is its output. |
| ServerProps.NamedTestRuns | mcp/backup/mcp-test-server.py:164-193 | With Docker available, a named `specific_test` runs the two checks and that file, and answers with its report. |
| ServerProps.MissingTestFileRunsNothing | mcp/backup/mcp-test-server.py:217-224 | A `test_file` that does not exist is answered with "Test file not found: " and the name, and no command runs. |
| ServerProps.MissingArgumentRunsNothing | mcp/backup/mcp-test-server.py:213-239 | A missing `test_file` is answered with the KeyError text "Error running single test: 'test_file'", and no command runs. |
| ServerProps.SingleTestDelegates | mcp/backup/mcp-test-server.py:226-231 | An existing test file is handled exactly as `run_tests` with `specific_test` set to it and no rebuild. |
| ServerProps.EmptyTestFileRunsSuite | mcp/backup/mcp-test-server.py:164-231 | When `test/` exists and Docker is available, an empty `test_file` passes the existence check (it names `test/` itself) and runs the whole suite script. |
| ServerProps.BuildTestImageCommand | mcp/backup/mcp-test-server.py:258-283 | With Docker available, the handler runs the two checks and one build. The build has `--no-cache` iff `force` is truthy, and the answer is the build report of its result. |
| ServerProps.BuildTestImageUnavailable | mcp/backup/mcp-test-server.py:249-256 | If Docker is unavailable, the answer is "Docker not available: " plus the error, and only the checks ran. |
| ServerProps.BuildReportContents | mcp/backup/mcp-test-server.py:265-276 | The build report is its body with trailing whitespace removed. It starts with "✅ Build successful" iff the build exited 0, and with "❌ Build failed" iff it did not. |
| ServerProps.BuildBodyBanner | mcp/backup/mcp-test-server.py:265-268 | Removing trailing whitespace from the build report body keeps the banner that matches the exit code. |
| ServerProps.StatusReady | mcp/backup/mcp-test-server.py:327-343 | With Docker available, four commands run (the checks, then both versions again). The answer is the stripped ready report and starts with "✅ Docker Environment Ready". |
| ServerProps.ReadyReportStripped | mcp/backup/mcp-test-server.py:334-343 | The ready report is its body with trailing whitespace removed, and it keeps its banner. |
| ServerProps.StatusNotReady | mcp/backup/mcp-test-server.py:344-351 | If Docker is unavailable, only the checks ran. The answer names the failing check, starts with "❌ Docker Environment Not Available" and ends with the install hint. |
| ServerProps.NotReadyReportStripped | mcp/backup/mcp-test-server.py:345-351 | The not-ready report is exactly its template body, with banner and hint intact. |
| ServerProps.GlobFilterIsGlob | mcp/backup/mcp-test-server.py:300 | The filter accepts exactly the names of the form `test_` + anything + `.lua`. |
| ServerProps.ListingShowsSortedMatches | mcp/backup/mcp-test-server.py:297-305 | When some names match, the listing is the header and the bullet lines of the matching names in ascending order, counted with multiplicity. |
| ServerProps.ListingEmptyIff | mcp/backup/mcp-test-server.py:299-307 | The listing says "No test files found" iff `test/` is missing or no entry matches. |
| ServerProps.ListingIgnoresOrder | mcp/backup/mcp-test-server.py:300-304 | The order in which the directory yields its entries does not change the listing. |
| ServerProps.ListingExample | mcp/backup/mcp-test-server.py:297-305 | A directory listing `test_b.lua`, `other.txt`, `test_a.lua` answers with `test_a.lua` then `test_b.lua`. |
| Client.Route | mcp/backup/run-mcp-tests.py:145-163 | A single-test plan names `argv[2]`. An unknown command names `argv[1]`. A build is forced iff "--force" occurs anywhere in argv. |
| Client.Steps | mcp/backup/run-mcp-tests.py:33-59 | A session body's exit status is 0 or 1. |
| Client.Session | mcp/backup/run-mcp-tests.py:21-59 | A failed server start prints the prefix and the exception, ends with status 1 and runs nothing of the body. |
| Client.Invocation | mcp/backup/run-mcp-tests.py:145-163 | The process exits with 0 or 1. |
| Client.Console.constructor | mcp/backup/run-mcp-tests.py:145 | The process starts with nothing printed or sent. |
| Client.Console.Emit | mcp/backup/run-mcp-tests.py:33 | One effect is appended to the log. |
| Client.Console.RunSteps | mcp/backup/run-mcp-tests.py:33-59 | The step-by-step loop, stopping at the first exception, appends exactly the effects of `Steps` and returns its status. |
| Client.Console.RunSession | mcp/backup/run-mcp-tests.py:21-59 | Starting the server and running the body appends exactly the effects of `Session` and returns its status. |
| Client.Console.Start | mcp/backup/run-mcp-tests.py:145-163 | `main` appends exactly the effects of `Invocation` and returns its exit status. |
| ClientProps.RouteCases | mcp/backup/run-mcp-tests.py:147-163 | Each plan is chosen exactly when its condition on `argv[1]` and the argument count holds: none or "test" alone gives the suite; "test" with a file gives a single test; "build", a help word and anything else give build, help and unknown. |
| ClientProps.SingleTestIgnoresExtraArguments | mcp/backup/run-mcp-tests.py:149-152 | `test <file>` runs that file whatever follows it. |
| ClientProps.BuildForceAnywhere | mcp/backup/run-mcp-tests.py:108 | `build` forces the rebuild iff some position of argv, the program name included, is "--force". |
| ClientProps.CallsOfConcat | mcp/backup/run-mcp-tests.py:33-55 | The calls of a concatenated log are the calls of its parts, in order. |
| ClientProps.StepsCallsLead | mcp/backup/run-mcp-tests.py:36-55 | The calls a session body sends are a prefix of its script's calls, and all of them when the body succeeds. |
| ClientProps.StepsSucceedIffAnswered | mcp/backup/run-mcp-tests.py:36-59 | A session body exits 0 iff every call it makes is answered with at least one text block. |
| ClientProps.StepsFailureLast | mcp/backup/run-mcp-tests.py:57-59 | A body that exits 1 ends with the failing call, then the prefix and that call's exception text (or "list index out of range" for an empty answer). |
| ClientProps.StepsEchoAnswers | mcp/backup/run-mcp-tests.py:38-55 | Every call in the log is followed by a line, and that line is the first text of the answer whenever the answer has one. |
| ClientProps.SuiteScriptCalls | mcp/backup/run-mcp-tests.py:36-55 | The full suite calls check_docker_status, list_test_files, then run_tests with verbose true and rebuild false. |
| ClientProps.ScriptsMatchPlans | mcp/backup/run-mcp-tests.py:36-109 | Each plan's script sends exactly that plan's calls. |
| ClientProps.ScriptCallsConcat | mcp/backup/run-mcp-tests.py:36-55 | The calls of a concatenated script are the calls of its parts. |
| ClientProps.StepsConcat | mcp/backup/run-mcp-tests.py:33-55 | Running two script parts after a successful first part gives the two logs one after the other. |
| ClientProps.InvocationByPlan | mcp/backup/run-mcp-tests.py:145-163 | Suite, single test and build are sessions with their own script and error prefix. Help only shows the usage text, with status 0. An unknown command prints two lines and exits 1. |
| ClientProps.CallsFollowPlan | mcp/backup/run-mcp-tests.py:145-163 | The calls the client sends are a prefix of its plan's calls, and all of them on exit 0. It exits 0 iff the plan is help, or the server started and answered every call. |
| ClientProps.SessionFacts | mcp/backup/run-mcp-tests.py:21-59 | A session's calls lead its script's calls. It exits 0 iff the server started and every call was answered. |
| ClientProps.FailuresExitOne | mcp/backup/run-mcp-tests.py:57-114 | A session that exits 1 ends with the printed exception: from the start, or from the failing call. A failed start always exits 1. |
| ClientProps.HelpAndUnknownMakeNoCalls | mcp/backup/run-mcp-tests.py:158-163 | Help shows the usage text and exits 0. An unknown command prints "❌ Unknown command: ", the word and the usage hint, and exits 1. Neither contacts the server. |
| ClientProps.AnswersPrintedInOrder | mcp/backup/run-mcp-tests.py:38-110 | In every invocation, each answered call is immediately followed by the first text of its answer. |
| ClientProps.ServerAnswersRegistered | mcp/backup/mcp-test-server.py:115-128 | The modelled server answers every registered tool with exactly one text block. |
| ClientProps.AskIsScriptCall | mcp/backup/run-mcp-tests.py:36-55 | Every call step of a script is among the script's calls. |
| ClientProps.PlanCallsRegistered | mcp/backup/run-mcp-tests.py:38-109 | Every tool the client calls is registered by the server. |
| ClientProps.ServerAnswersEveryPlan | mcp/backup/run-mcp-tests.py:15-114 | Against the modelled server, every session plan exits 0 and sends exactly its plan's calls. |
| ClientProps.SuiteAgainstServer | mcp/backup/run-mcp-tests.py:33-55 | Against the modelled server, the full suite prints exactly the header lines and the server's status, listing and test-run texts in order, and exits 0, whatever the tests did. |
| ClientProps.ShortPlansAgainstServer | mcp/backup/run-mcp-tests.py:76-110 | Against the modelled server, a single test or a build prints its heading, the rule and the handler's text, and exits 0. |
| ClientProps.MissingFileReported | mcp/backup/mcp-test-server.py:217-224 | The client's single-test call for a missing file is answered with "Test file not found: " and the name. |
| ClientProps.MissingFileStillExitsZero | mcp/backup/run-mcp-tests.py:61-87 | Against the modelled server, a missing test file is printed as "Test file not found: ..." and the client still exits 0. |

## Left out

- The stdio transport, the MCP session handshake and `asyncio` scheduling are not modelled. They belong to the MCP library. The client's view of them is one `startup` outcome and one reply function.
- `os.chdir(REPO_ROOT)` and the `cwd=` of the subprocess are not modelled. A successful `os.chdir` has no observable effect in the model. A failing one raises `OSError`, which is not modelled (see the `except Exception` line below). Paths are the rendered strings of `REPO_ROOT`, `TEST_SCRIPT` and `DOCKER_COMPOSE_FILE`, given as parameters.
- `pathlib` joining of `test/<file>`, `..` components and absolute paths are not modelled.
- UTF-8 decoding of the streams is part of the oracle. An undecodable stream is one of the ways a `SpawnFailed` outcome arises, because the source catches the resulting exception in the same handler.
- Executor.RunCommand: the oracle is a function, so running the same argv twice gives the same outcome. This matters for `check_docker_status`, which runs the version commands twice.
- The `verbose` argument of `run_command` is accepted and ignored by the source. The model drops it (`ServerProps.RunTestsIgnoresVerbose`).
- Docker, Docker Compose, the container image and the Lua tests are external. The model sees them only as argv, exit code and streams.
- The body of the client's help text is not modelled. `show_help` is a single `ShowHelp` effect.
- Tool argument values other than booleans, strings and `null` are not modelled. The declared schemas use only these.
- The `except Exception` branches of `run_tests`, `build_test_image` and `list_test_files` are reached only when `os.chdir` or `Path.exists` fails, for example with `OSError` or `PermissionError`. Those operating-system errors are not modelled, so the model never produces "Error running tests: ...", "Error building image: ..." or "Error listing test files: ...". The branch of `check_docker_status` cannot be reached, because `run_command` and `check_docker_availability` never raise. The branch of `run_single_test` is modelled for a missing key and a non-string name; a failing `test_path.exists()` is not modelled.
- Server.ListTestFiles: the listing is stated for the names as `Path.name` returns them. They are assumed not to contain a path separator.
- ClientProps.StepsFailureLast and Client.Steps: the line printed for a failed session is taken to be the prefix followed by the exception's own text. The model does not capture how the MCP library's context managers and task groups (`stdio_client`, `ClientSession`) may wrap or replace an exception on its way to the `except` clause. It also does not model exceptions raised while those contexts close.
- ClientProps.ServerPeer assumes the client sees an unknown-tool `ValueError` as a failed call carrying the exception text. How the MCP server library reports a handler's exception is not part of this model.
- A test file is taken to exist only inside an existing `test/` directory (`Server.TestPathExists`). Beyond that, which `test/<name>` paths exist is a set of names given as a parameter, not derived from the directory's entries.
