/** What the tool server promises, stated over the model in `Server` and
    proved: the dispatch table, the commands each handler runs and when it
    stops, and what the report texts say about the exit codes. */
module ServerProps {
  import opened Wrappers
  import opened PyText
  import opened Sorting
  import opened Executor
  import opened Server

  // ---------------------------------------------------------------------
  // Dispatcher and registry
  // ---------------------------------------------------------------------

  /** The registry lists the five tools in declaration order, under
      distinct names; each schema default has the declared type, and each
      required property is declared without a default. */
  lemma RegistryWellFormed()
    ensures ToolNames() == ["run_tests", "run_single_test", "build_test_image",
                            "list_test_files", "check_docker_status"]
    ensures forall i, j :: 0 <= i < j < |ListTools()| ==> ListTools()[i].name != ListTools()[j].name
    ensures forall t, p :: t in ListTools() && p in t.params && p.default.Some? ==>
      (p.kind == BooleanParam ==> p.default.value.Bool?) &&
      (p.kind == StringParam ==> !p.default.value.Bool?)
    ensures forall t, n :: t in ListTools() && n in t.required ==>
      exists p :: p in t.params && p.name == n && p.default.None?
  {
    var tools := ListTools();
    assert tools[1].params[0] in tools[1].params;
  }

  /** Each registered name is routed to its own handler. */
  lemma CallToolRoutes(env: Env, args: Args)
    ensures CallTool(env, "run_tests", args) == Success(RunTests(env, args))
    ensures CallTool(env, "run_single_test", args) == Success(RunSingleTest(env, args))
    ensures CallTool(env, "build_test_image", args) == Success(BuildTestImage(env, args))
    ensures CallTool(env, "list_test_files", args) == Success(ListTestFiles(env.fs))
    ensures CallTool(env, "check_docker_status", args) == Success(CheckDockerStatus(env))
  {
  }

  // ---------------------------------------------------------------------
  // The run_tests report
  // ---------------------------------------------------------------------

  /** `.strip()` of a template removes the padding the template adds; if
      the body starts with a non-space character, only trailing whitespace
      of the body goes with it. */
  lemma StripTemplate(body: string, indent: nat)
    requires |body| > 0 && !IsSpace(body[0])
    ensures Strip(Template(body, indent)) == StripRight(body)
    ensures !IsSpace(body[|body| - 1]) ==> Strip(Template(body, indent)) == body
  {
    var pad := "\n" + Repeat(' ', indent);
    assert AllSpace(pad) by { TemplatePadSpace(indent); }
    assert AllSpace("\n");
    assert Template(body, indent) == "\n" + body + pad;
    StripFramedLeft("\n", body, pad);
    if !IsSpace(body[|body| - 1]) {
      StripFramed("\n", body, pad);
    }
  }

  /** The line break and indentation that close a template are whitespace. */
  lemma TemplatePadSpace(indent: nat)
    ensures AllSpace("\n" + Repeat(' ', indent))
  {
    var pad := "\n" + Repeat(' ', indent);
    forall i | 0 <= i < |pad|
      ensures IsSpace(pad[i])
    {
      if i > 0 {
        assert pad[i] == Repeat(' ', indent)[i - 1];
      }
    }
  }

  /** `.strip()` only removes the template's own padding: the report starts
      with its banner and ends with its summary word. */
  lemma TestReportUnpadded(r: ExecResult)
    ensures TestReport(r) == TestReportBody(r.returncode, r.stdout + r.stderr)
  {
    var body := TestReportBody(r.returncode, r.stdout + r.stderr);
    var banner := if r.returncode == 0 then PassedBanner else FailedBanner;
    var summary := if r.returncode == 0 then PassedSummary else FailedSummary;
    var front := banner + ReportTitle + IntToString(r.returncode) + OutputHeading + (r.stdout + r.stderr) + SummaryHeading;
    assert body == front + summary;
    assert body[|body| - 1] == summary[|summary| - 1];
    assert body[0] == banner[0];
    StripTemplate(body, 8);
  }

  /** Regrouping of the seven parts of a test report. */
  lemma Regroup7(a: string, b: string, c: string, d: string, e: string, f: string, g: string)
    ensures a + b + c + d + e + f + g == a + (b + c + d + e + f + g)
    ensures a + b + c + d + e + f + g == (a + b) + (c + d + e) + (f + g)
  {
  }

  lemma TestReportBodyBanner(code: int, output: string)
    ensures IsPrefix(PassedBanner, TestReportBody(code, output)) <==> code == 0
    ensures IsPrefix(FailedBanner, TestReportBody(code, output)) <==> code != 0
  {
    var banner := if code == 0 then PassedBanner else FailedBanner;
    var other := if code == 0 then FailedBanner else PassedBanner;
    var summary := if code == 0 then PassedSummary else FailedSummary;
    var digits := IntToString(code);
    var body := TestReportBody(code, output);
    assert body == banner + ReportTitle + digits + OutputHeading + output + SummaryHeading + summary;
    Regroup7(banner, ReportTitle, digits, OutputHeading, output, SummaryHeading, summary);
    var rest := ReportTitle + digits + OutputHeading + output + SummaryHeading + summary;
    assert body == banner + rest;
    PrefixOfConcat(banner, rest);
    NotPrefixByFirst(other, banner + rest);
  }

  /** The report shows the pass banner exactly when the exit code is 0, and
      the fail banner exactly when it is not. */
  lemma TestReportBanner(r: ExecResult)
    ensures IsPrefix(PassedBanner, TestReport(r)) <==> r.returncode == 0
    ensures IsPrefix(FailedBanner, TestReport(r)) <==> r.returncode != 0
  {
    TestReportUnpadded(r);
    TestReportBodyBanner(r.returncode, r.stdout + r.stderr);
  }

  /** Reads a run_tests report back into its exit code and its output
      section; `None` for a text that is not such a report. */
  function ParseTestReport(text: string): Option<(int, string)> {
    var passedHead := PassedBanner + ReportTitle;
    var failedHead := FailedBanner + ReportTitle;
    if !IsPrefix(passedHead, text) && !IsPrefix(failedHead, text) then None
    else
      var passed := IsPrefix(passedHead, text);
      var head := if passed then passedHead else failedHead;
      var tail := SummaryHeading + (if passed then PassedSummary else FailedSummary);
      var rest := text[|head|..];
      if !IsSuffix(tail, rest) then None
      else ParseReportBody(rest[..|rest| - |tail|], passed)
  }

  /** Reads the part between the title and the summary: the return code,
      up to the first line break, then the output heading and the output.
      The code must agree with the banner. */
  function ParseReportBody(body: string, passed: bool): Option<(int, string)> {
    var k := IndexOf(body, '\n');
    if !IsPrefix(OutputHeading, body[k..]) then None
    else
      match ParseInt(body[..k])
      case None => None
      case Some(code) =>
        if (code == 0) != passed then None
        else Some((code, body[k + |OutputHeading|..]))
  }

  /** The report determines the exit code and the output it was made from:
      "Return Code:" carries the executor's exit code unchanged, and the
      output section is stdout followed by stderr. */
  lemma TestReportRoundTrip(r: ExecResult)
    ensures ParseTestReport(TestReport(r)) == Some((r.returncode, r.stdout + r.stderr))
  {
    TestReportUnpadded(r);
    var code, output := r.returncode, r.stdout + r.stderr;
    var passed := code == 0;
    var banner := if passed then PassedBanner else FailedBanner;
    var summary := if passed then PassedSummary else FailedSummary;
    var digits := IntToString(code);
    var text := TestReportBody(code, output);
    assert text == banner + ReportTitle + digits + OutputHeading + output + SummaryHeading + summary;
    Regroup7(banner, ReportTitle, digits, OutputHeading, output, SummaryHeading, summary);
    var head := banner + ReportTitle;
    var body := digits + OutputHeading + output;
    var tail := SummaryHeading + summary;
    assert text == head + body + tail;
    ParsesAs(head, body, tail, digits, output, code, passed);
  }

  /** The parsing steps on a text assembled from its three parts. */
  lemma ParsesAs(head: string, body: string, tail: string, digits: string, output: string,
                 code: int, passed: bool)
    requires passed <==> code == 0
    requires head == (if passed then PassedBanner else FailedBanner) + ReportTitle
    requires tail == SummaryHeading + (if passed then PassedSummary else FailedSummary)
    requires digits == IntToString(code)
    requires body == digits + OutputHeading + output
    ensures ParseTestReport(head + body + tail) == Some((code, output))
  {
    var text := head + body + tail;
    var other := (if passed then FailedBanner else PassedBanner) + ReportTitle;
    assert text == head + (body + tail);
    PrefixOfConcat(head, body + tail);
    NotPrefixByFirst(other, text);
    var rest := text[|head|..];
    assert rest == body + tail;
    assert IsSuffix(tail, rest);
    assert rest[..|rest| - |tail|] == body;
    ParsesBody(body, digits, output, code, passed);
  }

  /** The parsing steps on the part between title and summary. */
  lemma ParsesBody(body: string, digits: string, output: string, code: int, passed: bool)
    requires passed <==> code == 0
    requires digits == IntToString(code)
    requires body == digits + OutputHeading + output
    ensures ParseReportBody(body, passed) == Some((code, output))
  {
    IndexOfJoint(digits, OutputHeading + output, '\n');
    assert body == digits + (OutputHeading + output);
    assert body[|digits|..] == OutputHeading + output;
    PrefixOfConcat(OutputHeading, output);
    assert body[..|digits|] == digits;
    IntToStringRoundTrip(code);
    assert body[|digits| + |OutputHeading|..] == output;
  }

  // ---------------------------------------------------------------------
  // run_tests
  // ---------------------------------------------------------------------

  /** True when `run_tests` got past the availability check and, if a
      rebuild was asked for, past the build. */
  predicate TestsRun(env: Env, args: Args) {
    var rebuild := Truthy(Get(args, "rebuild", Bool(false)));
    CheckDockerAvailability(env.os).availability.Available? &&
    (rebuild ==> BuildImage(env.os, true).success)
  }

  /** Docker unavailable: the error is reported and nothing but the checks
      ran. */
  lemma RunTestsUnavailable(env: Env, args: Args)
    requires CheckDockerAvailability(env.os).availability.Unavailable?
    ensures var c := CheckDockerAvailability(env.os);
      TextOf(RunTests(env, args)) == DockerUnavailablePrefix + c.availability.error &&
      RunTests(env, args).trace == c.trace
  {
  }

  /** A requested rebuild always bypasses the cache; if it fails, the run
      aborts with the build error and no test command follows it. */
  lemma RebuildBehaviour(env: Env, args: Args)
    requires CheckDockerAvailability(env.os).availability.Available?
    requires Truthy(Get(args, "rebuild", Bool(false)))
    ensures var h := RunTests(env, args);
      |h.trace| >= 3 && h.trace[2] == BuildArgv(true) && NoCacheFlag in h.trace[2]
    ensures RunCommand(env.os, BuildArgv(true)).returncode != 0 ==>
      TextOf(RunTests(env, args)) == BuildAbortPrefix + BuildFailedError &&
      RunTests(env, args).trace == [DockerVersionArgv, ComposeVersionArgv, BuildArgv(true)]
  {
  }

  /** Once the checks and any requested rebuild pass, the commands run are
      the two checks, the no-cache build if requested, then the test command. */
  lemma TestsRunTrace(env: Env, args: Args)
    requires TestsRun(env, args)
    ensures RunTests(env, args).trace ==
      [DockerVersionArgv, ComposeVersionArgv]
      + (if Truthy(Get(args, "rebuild", Bool(false))) then [BuildArgv(true)] else [])
      + [TestArgv(Get(args, "specific_test", Null))]
  {
  }

  /** Once the tests run, the last command is the test command and the
      response is its report. */
  lemma TestsRunReport(env: Env, args: Args)
    requires TestsRun(env, args)
    ensures var h := RunTests(env, args);
      var cmd := TestArgv(Get(args, "specific_test", Null));
      h.trace[|h.trace| - 1] == cmd && TextOf(h) == TestReport(RunCommand(env.os, cmd))
  {
  }

  /** The test command is the named test when `specific_test` is a
      non-empty string, and the suite script when it is absent, null or
      empty. */
  lemma TestArgvChoice(v: Value)
    ensures v.Str? && v.s != "" ==> TestArgv(v) == SingleTestArgv(v.s)
    ensures v == Null || v == Str("") ==> TestArgv(v) == SuiteArgv
    ensures Truthy(v) ==> TestArgv(v) != SuiteArgv
  {
  }

  /** `verbose` changes neither the commands nor the response. */
  lemma RunTestsIgnoresVerbose(env: Env, args: Args, v: Value)
    ensures RunTests(env, args["verbose" := v]) == RunTests(env, args)
  {
    var args' := args["verbose" := v];
    assert Get(args', "rebuild", Bool(false)) == Get(args, "rebuild", Bool(false));
    assert Get(args', "specific_test", Null) == Get(args, "specific_test", Null);
  }

  /** The pass banner cannot appear unless the availability checks passed
      and the test command exited 0. */
  lemma PassedOnlyOnZeroExit(env: Env, args: Args)
    requires IsPrefix(PassedBanner, TextOf(RunTests(env, args)))
    ensures TestsRun(env, args)
    ensures RunCommand(env.os, TestArgv(Get(args, "specific_test", Null))).returncode == 0
  {
    PassedImpliesRun(env, args);
    TestsRunReport(env, args);
    TestReportBanner(RunCommand(env.os, TestArgv(Get(args, "specific_test", Null))));
  }

  lemma PassedImpliesRun(env: Env, args: Args)
    ensures IsPrefix(PassedBanner, TextOf(RunTests(env, args))) ==> TestsRun(env, args)
  {
    if !TestsRun(env, args) {
      var t := TextOf(RunTests(env, args));
      assert t[0] != PassedBanner[0];
    }
  }

  /** A named test (`specific_test = "test_uci_config.lua"`, say) runs
      exactly that file in the container after the two checks, and its
      report carries the executor's exit code and output. */
  lemma SpecificTestEndToEnd(env: Env, file: string)
    requires file != ""
    requires CheckDockerAvailability(env.os).availability.Available?
    ensures var h := RunTests(env, map["specific_test" := Str(file)]);
      var r := RunCommand(env.os, SingleTestArgv(file));
      h.trace == [DockerVersionArgv, ComposeVersionArgv, SingleTestArgv(file)] &&
      ParseTestReport(TextOf(h)) == Some((r.returncode, r.stdout + r.stderr))
  {
    var r := RunCommand(env.os, SingleTestArgv(file));
    NamedTestRuns(env, file);
    TestReportRoundTrip(r);
  }

  lemma NamedTestRuns(env: Env, file: string)
    requires file != ""
    requires CheckDockerAvailability(env.os).availability.Available?
    ensures var h := RunTests(env, map["specific_test" := Str(file)]);
      h.trace == [DockerVersionArgv, ComposeVersionArgv, SingleTestArgv(file)] &&
      TextOf(h) == TestReport(RunCommand(env.os, SingleTestArgv(file)))
  {
    var args := map["specific_test" := Str(file)];
    assert Get(args, "specific_test", Null) == Str(file);
    assert Get(args, "rebuild", Bool(false)) == Bool(false);
  }


  // ---------------------------------------------------------------------
  // run_single_test
  // ---------------------------------------------------------------------

  /** A file that does not exist under `test/` is reported and no command
      runs. */
  lemma MissingTestFileRunsNothing(env: Env, args: Args, file: string)
    requires "test_file" in args && args["test_file"] == Str(file)
    requires !TestPathExists(env.fs, file)
    ensures TextOf(RunSingleTest(env, args)) == NotFoundPrefix + file
    ensures RunSingleTest(env, args).trace == []
  {
  }

  /** Without a `test_file` argument the KeyError is reported and no command
      runs. */
  lemma MissingArgumentRunsNothing(env: Env, args: Args)
    requires "test_file" !in args
    ensures TextOf(RunSingleTest(env, args)) == SingleTestErrorPrefix + "'test_file'"
    ensures RunSingleTest(env, args).trace == []
  {
  }

  /** An existing file behaves exactly as `run_tests` given only that file:
      `verbose` is irrelevant and `rebuild` is off. */
  lemma SingleTestDelegates(env: Env, args: Args, file: string)
    requires "test_file" in args && args["test_file"] == Str(file)
    requires TestPathExists(env.fs, file)
    ensures RunSingleTest(env, args) == RunTests(env, map["specific_test" := Str(file)])
  {
    var m := map["specific_test" := Str(file)];
    var v := Get(args, "verbose", Bool(false));
    var full := map["verbose" := v, "specific_test" := Str(file), "rebuild" := Bool(false)];
    assert full == m["verbose" := v]["rebuild" := Bool(false)];
    RunTestsIgnoresVerbose(env, m["rebuild" := Bool(false)], v);
    assert m["rebuild" := Bool(false)]["verbose" := v] == full;
    assert RunTests(env, m["rebuild" := Bool(false)]) == RunTests(env, m) by {
      assert Get(m["rebuild" := Bool(false)], "specific_test", Null) == Get(m, "specific_test", Null);
    }
  }

  /** An empty name whose path exists (it names `test/` itself) reaches
      `run_tests` with a falsy `specific_test`, which runs the whole suite. */
  lemma EmptyTestFileRunsSuite(env: Env, args: Args)
    requires "test_file" in args && args["test_file"] == Str("")
    requires env.fs.testDirExists
    requires CheckDockerAvailability(env.os).availability.Available?
    ensures RunSingleTest(env, args).trace == [DockerVersionArgv, ComposeVersionArgv, SuiteArgv]
  {
    SingleTestDelegates(env, args, "");
  }

  // ---------------------------------------------------------------------
  // build_test_image
  // ---------------------------------------------------------------------

  /** After the checks, exactly one build command runs, with `--no-cache`
      exactly when `force` is truthy; the response is its build report. */
  lemma BuildTestImageCommand(env: Env, args: Args)
    requires CheckDockerAvailability(env.os).availability.Available?
    ensures var h := BuildTestImage(env, args);
      var force := Truthy(Get(args, "force", Bool(false)));
      h.trace == [DockerVersionArgv, ComposeVersionArgv, BuildArgv(force)] &&
      (NoCacheFlag in h.trace[2] <==> force) &&
      TextOf(h) == BuildReport(RunCommand(env.os, BuildArgv(force)))
  {
  }

  /** Docker unavailable: the build is not attempted. */
  lemma BuildTestImageUnavailable(env: Env, args: Args)
    requires CheckDockerAvailability(env.os).availability.Unavailable?
    ensures var c := CheckDockerAvailability(env.os);
      TextOf(BuildTestImage(env, args)) == DockerUnavailablePrefix + c.availability.error &&
      BuildTestImage(env, args).trace == c.trace
  {
  }

  /** The build report is the template text with its trailing whitespace
      removed (stdout and stderr are kept as they are, leading whitespace
      included); it shows the success banner exactly when the exit code is
      0. */
  lemma BuildReportContents(r: ExecResult)
    ensures BuildReport(r) == StripRight(BuildReportBody(r))
    ensures IsPrefix(BuildSucceededBanner, BuildReport(r)) <==> r.returncode == 0
    ensures IsPrefix(BuildFailedBanner, BuildReport(r)) <==> r.returncode != 0
  {
    var body := BuildReportBody(r);
    BuildBodySplit(r);
    StripTemplate(body, 8);
    BuildBodyBanner(r);
  }

  lemma BuildBodySplit(r: ExecResult)
    ensures var banner := if r.returncode == 0 then BuildSucceededBanner else BuildFailedBanner;
      BuildReportBody(r) == banner + (BuildOutputHeading + r.stdout + "\n" + r.stderr) &&
      BuildReportBody(r)[0] == banner[0]
  {
    var banner := if r.returncode == 0 then BuildSucceededBanner else BuildFailedBanner;
    var heading, out, nl, err := BuildOutputHeading, r.stdout, "\n", r.stderr;
    assert BuildReportBody(r) == banner + heading + out + nl + err;
    Regroup5(banner, heading, out, nl, err);
  }

  lemma BuildBodyBanner(r: ExecResult)
    ensures IsPrefix(BuildSucceededBanner, StripRight(BuildReportBody(r))) <==> r.returncode == 0
    ensures IsPrefix(BuildFailedBanner, StripRight(BuildReportBody(r))) <==> r.returncode != 0
  {
    var banner := if r.returncode == 0 then BuildSucceededBanner else BuildFailedBanner;
    var other := if r.returncode == 0 then BuildFailedBanner else BuildSucceededBanner;
    BuildBodySplit(r);
    StripRightKeeps(banner, BuildOutputHeading + r.stdout + "\n" + r.stderr);
    var t := StripRight(BuildReportBody(r));
    assert t[0] == banner[0];
    NotPrefixByFirst(other, t);
  }

  /** Regrouping of five parts. */
  lemma Regroup5(a: string, b: string, c: string, d: string, e: string)
    ensures a + b + c + d + e == a + (b + c + d + e)
  {
  }

  // ---------------------------------------------------------------------
  // check_docker_status
  // ---------------------------------------------------------------------

  /** Both checks pass: the versions are queried once more and the report
      is the template text (both version strings stripped, then the three
      paths) with only its trailing whitespace removed, under the ready
      banner. */
  lemma StatusReady(env: Env)
    requires CheckDockerAvailability(env.os).availability.Available?
    ensures var h := CheckDockerStatus(env);
      var d := RunCommand(env.os, DockerVersionArgv);
      var c := RunCommand(env.os, ComposeVersionArgv);
      h.trace == [DockerVersionArgv, ComposeVersionArgv, DockerVersionArgv, ComposeVersionArgv] &&
      TextOf(h) == StripRight(ReadyReportBody(d, c, env.paths)) &&
      IsPrefix(ReadyBanner, TextOf(h))
  {
    var d := RunCommand(env.os, DockerVersionArgv);
    var c := RunCommand(env.os, ComposeVersionArgv);
    var h := CheckDockerStatus(env);
    assert h == Handled(TextResult(ReadyReport(d, c, env.paths)),
                        [DockerVersionArgv, ComposeVersionArgv, DockerVersionArgv, ComposeVersionArgv]);
    assert TextOf(h) == ReadyReport(d, c, env.paths);
    ReadyReportStripped(d, c, env.paths);
  }

  lemma ReadyReportStripped(d: ExecResult, c: ExecResult, paths: Paths)
    ensures ReadyReport(d, c, paths) == StripRight(ReadyReportBody(d, c, paths))
    ensures IsPrefix(ReadyBanner, ReadyReport(d, c, paths))
  {
    var rest := "\n\nDocker: " + Strip(d.stdout)
                + "\nDocker Compose: " + Strip(c.stdout)
                + "\n\nRepository: " + paths.repoRoot
                + "\nTest Script: " + paths.testScript
                + "\nDocker Compose File: " + paths.composeFile;
    var body := ReadyReportBody(d, c, paths);
    assert body == ReadyBanner + rest by { ReadyBodySplit(d, c, paths); }
    StripBannerTemplate(ReadyBanner, rest, 12);
  }

  /** A template whose text opens with a banner that starts and ends with a
      non-space character keeps that banner in front when stripped. */
  lemma StripBannerTemplate(banner: string, rest: string, indent: nat)
    requires |banner| > 0 && !IsSpace(banner[0]) && !IsSpace(banner[|banner| - 1])
    ensures Strip(Template(banner + rest, indent)) == StripRight(banner + rest)
    ensures IsPrefix(banner, Strip(Template(banner + rest, indent)))
  {
    StripTemplate(banner + rest, indent);
    StripRightKeeps(banner, rest);
  }

  lemma ReadyBodySplit(d: ExecResult, c: ExecResult, paths: Paths)
    ensures ReadyReportBody(d, c, paths) ==
      ReadyBanner + ("\n\nDocker: " + Strip(d.stdout)
                    + "\nDocker Compose: " + Strip(c.stdout)
                    + "\n\nRepository: " + paths.repoRoot
                    + "\nTest Script: " + paths.testScript
                    + "\nDocker Compose File: " + paths.composeFile)
  {
    Regroup11(ReadyBanner, "\n\nDocker: ", Strip(d.stdout), "\nDocker Compose: ", Strip(c.stdout),
              "\n\nRepository: ", paths.repoRoot, "\nTest Script: ", paths.testScript,
              "\nDocker Compose File: ", paths.composeFile);
  }

  /** Regrouping of eleven parts. */
  lemma Regroup11(a: string, b1: string, b2: string, b3: string, b4: string, b5: string,
                  b6: string, b7: string, b8: string, b9: string, b10: string)
    ensures a + b1 + b2 + b3 + b4 + b5 + b6 + b7 + b8 + b9 + b10
         == a + (b1 + b2 + b3 + b4 + b5 + b6 + b7 + b8 + b9 + b10)
  {
  }

  /** A check failed: the report names the failing check, with nothing
      removed from the template text but the padding, and nothing more
      runs. */
  lemma StatusNotReady(env: Env)
    requires CheckDockerAvailability(env.os).availability.Unavailable?
    ensures var h := CheckDockerStatus(env);
      var error := if RunCommand(env.os, DockerVersionArgv).returncode != 0
                   then DockerNotFound else ComposeNotFound;
      h.trace == CheckDockerAvailability(env.os).trace &&
      TextOf(h) == NotReadyReportBody(error) &&
      IsPrefix(NotReadyBanner, TextOf(h)) && IsSuffix(InstallHint, TextOf(h))
  {
    NotReadyReportStripped(CheckDockerAvailability(env.os).availability.error);
  }

  lemma NotReadyReportStripped(error: string)
    ensures NotReadyReport(error) == NotReadyReportBody(error)
    ensures IsPrefix(NotReadyBanner, NotReadyReport(error)) && IsSuffix(InstallHint, NotReadyReport(error))
  {
    var body := NotReadyReportBody(error);
    NotReadyBodySplit(error);
    StripTemplate(body, 12);
  }

  lemma NotReadyBodySplit(error: string)
    ensures var body := NotReadyReportBody(error);
      IsPrefix(NotReadyBanner, body) && IsSuffix(InstallHint, body) &&
      body[0] == NotReadyBanner[0] && body[|body| - 1] == InstallHint[|InstallHint| - 1]
  {
    var banner, e1, e2, hint := NotReadyBanner, "\n\nError: ", "\n\n", InstallHint;
    var body := NotReadyReportBody(error);
    assert body == banner + e1 + error + e2 + hint;
    Regroup5(banner, e1, error, e2, hint);
    PrefixOfConcat(banner, e1 + error + e2 + hint);
    LastOfConcat(banner + e1 + error + e2, hint);
    assert body[|body| - |hint|..] == hint;
  }

  // ---------------------------------------------------------------------
  // list_test_files
  // ---------------------------------------------------------------------

  /** The filter is the glob: a name passes exactly when it is `test_`,
      then anything, then `.lua`; such a name has at least nine
      characters. */
  lemma GlobFilterIsGlob(name: string)
    ensures MatchesTestGlob(name) <==> GlobMatches(name)
    ensures MatchesTestGlob(name) ==> |name| >= 9
  {
    if MatchesTestGlob(name) {
      var middle := name[|GlobPrefix|..|name| - |GlobSuffix|];
      assert name == GlobPrefix + middle + GlobSuffix;
    }
    if GlobMatches(name) {
      var middle :| name == GlobPrefix + middle + GlobSuffix;
      assert name[..|GlobPrefix|] == GlobPrefix;
      assert name[|name| - |GlobSuffix|..] == GlobSuffix;
    }
  }

  /** A listing of names: the header, then one bullet per name. */
  function ListingOf(names: seq<string>): string {
    ListingHeader + Join("\n", Bullets(names))
  }

  /** The matching names, counted with their multiplicity in the listing of
      `test/` (none if it does not exist). */
  ghost predicate ListsMatches(fs: FileSystem, s: seq<string>) {
    forall x :: multiset(s)[x] == if fs.testDirExists && MatchesTestGlob(x) then multiset(fs.testDirEntries)[x] else 0
  }

  /** When some name matches, the listing is the header and the bullets of
      the matching names in ascending order; any ordered arrangement of
      those names gives the same text. */
  lemma ListingShowsSortedMatches(fs: FileSystem, s: seq<string>)
    requires Sorted(s) && ListsMatches(fs, s) && s != []
    ensures TextOf(ListTestFiles(fs)) == ListingOf(s)
  {
    var names := TestFileNames(fs);
    assert multiset(names) == multiset(s);
    assert names != [] by { assert s[0] in multiset(s); }
    SortedUnique(Sort(names), s);
  }

  /** The empty message appears exactly when `test/` is missing or none of
      its names matches. */
  lemma ListingEmptyIff(fs: FileSystem)
    ensures TextOf(ListTestFiles(fs)) == NoTestFilesMessage <==>
      !fs.testDirExists || forall e :: e in fs.testDirEntries ==> !MatchesTestGlob(e)
  {
    var names := TestFileNames(fs);
    if fs.testDirExists {
      if names == [] {
        forall e | e in fs.testDirEntries ensures !MatchesTestGlob(e) {
          assert multiset(names)[e] == 0;
        }
      } else {
        assert names[0] in multiset(names);
      }
    }
  }

  /** The listing does not depend on the order the directory returns its
      names in. */
  lemma ListingIgnoresOrder(fs: FileSystem, fs': FileSystem)
    requires fs.testDirExists == fs'.testDirExists
    requires multiset(fs.testDirEntries) == multiset(fs'.testDirEntries)
    ensures ListTestFiles(fs) == ListTestFiles(fs')
  {
    var a, b := TestFileNames(fs), TestFileNames(fs');
    assert multiset(a) == multiset(b);
    SortIgnoresOrder(a, b);
    if a == [] {
      assert |b| == |multiset(b)| == 0;
    }
  }

  /** The example of a mixed directory: only the two `test_*.lua` names are
      listed, in ascending order. */
  lemma ListingExample()
    ensures TextOf(ListTestFiles(FileSystem(true, ["test_b.lua", "other.txt", "test_a.lua"], {})))
         == ListingOf(["test_a.lua", "test_b.lua"])
  {
    var fs := FileSystem(true, ["test_b.lua", "other.txt", "test_a.lua"], {});
    ExampleNames();
    ExampleSort();
    assert TestFileNames(fs) == ["test_b.lua", "test_a.lua"];
  }

  lemma ExampleSort()
    ensures Sort(["test_b.lua", "test_a.lua"]) == ["test_a.lua", "test_b.lua"]
  {
    var a, b := "test_a.lua", "test_b.lua";
    ExampleOrder();
    assert [b, a][1..] == [a] && [a][1..] == [];
    assert Sort([a]) == [a];
    assert Insert(b, [a]) == [a] + Insert(b, []);
  }

  lemma ExampleNames()
    ensures GlobTestFiles(["test_b.lua", "other.txt", "test_a.lua"]) == ["test_b.lua", "test_a.lua"]
  {
    ExampleMatches();
    GlobOfThree("test_b.lua", "other.txt", "test_a.lua");
  }

  lemma ExampleMatches()
    ensures MatchesTestGlob("test_b.lua") && MatchesTestGlob("test_a.lua")
    ensures !MatchesTestGlob("other.txt")
  {
    FramedMatches("b");
    FramedMatches("a");
    assert GlobPrefix + "b" + GlobSuffix == "test_b.lua";
    assert GlobPrefix + "a" + GlobSuffix == "test_a.lua";
    NotPrefixByFirst(GlobPrefix, "other.txt");
  }

  /** Every name made of the glob's fixed parts around a middle matches. */
  lemma FramedMatches(middle: string)
    ensures MatchesTestGlob(GlobPrefix + middle + GlobSuffix)
  {
    var n := GlobPrefix + middle + GlobSuffix;
    assert n[..|GlobPrefix|] == GlobPrefix;
    assert n[|n| - |GlobSuffix|..] == GlobSuffix;
  }

  /** Filtering three entries whose middle one does not match. */
  lemma GlobOfThree(b: string, o: string, a: string)
    requires MatchesTestGlob(b) && !MatchesTestGlob(o) && MatchesTestGlob(a)
    ensures GlobTestFiles([b, o, a]) == [b, a]
  {
    var entries := [b, o, a];
    assert entries[..2] == [b, o] && [b, o][..1] == [b] && [b][..0] == [];
    assert GlobTestFiles([b]) == [b];
    assert GlobTestFiles([b, o]) == [b];
    assert GlobTestFiles(entries) == GlobTestFiles([b, o]) + [a];
  }

  lemma ExampleOrder()
    ensures LexLe("test_a.lua", "test_b.lua") && !LexLe("test_b.lua", "test_a.lua")
  {
    var a, b := "test_a.lua", "test_b.lua";
    assert a[..5] == b[..5] && a[5] < b[5];
    LexLeCommonPrefix(a, b, 5);
    LexLeCommonPrefix(b, a, 5);
  }

  /** Two names that agree on their first `k` characters compare as their
      characters at `k` do. */
  lemma {:induction false} LexLeCommonPrefix(x: string, y: string, k: nat)
    requires k < |x| && k < |y| && x[..k] == y[..k] && x[k] != y[k]
    ensures LexLe(x, y) <==> x[k] < y[k]
    decreases k
  {
    if k > 0 {
      assert x[1..][..k - 1] == x[..k][1..] && y[1..][..k - 1] == y[..k][1..];
      assert x[0] == x[..k][0] && y[0] == y[..k][0];
      LexLeCommonPrefix(x[1..], y[1..], k - 1);
    }
  }
}
