/** The request orchestrator `execute_code`: resolve the handler, create the
    scratch workspace, compile, then either stop with no case results or run
    every case in submission order, fold the results into the aggregate flag,
    and remove the workspace on every path. */
module Pipeline {
  import opened Types
  import opened Text
  import opened Process
  import opened Judging
  import opened Languages
  import opened Registry
  import opened CaseLoop
  import Cpp

  /** The status the HTTP layer answers an unsupported language with. */
  const BadRequest: int := 400

  /** How a request ends.
      `Rejected`: the language did not resolve (`HTTPException(400, ...)`).
      `Judged`: a response was returned.
      `Crashed`: an exception escaped a handler and leaves the endpoint. */
  datatype Reply =
    | Rejected(status: int, detail: string)
    | Judged(response: CodeExecutionResponse)
    | Crashed(reason: string)

  /** The reply together with the filesystem after the request. */
  datatype Run = Run(reply: Reply, fs: FileSystem)

  /** The artifact path inside the workspace: `program`, with a `.py` suffix
      for the interpreted language. */
  function CodePath(dir: Path, h: Handler): Path
  {
    dir + "/" + "program" + (if h.LanguageId() == "python" then ".py" else "")
  }

  predicate EndsWith(s: string, suffix: string)
  {
    |suffix| <= |s| && s[|s| - |suffix|..] == suffix
  }

  /** The artifact lies inside the workspace, and ends in ".py" exactly when
      the handler is the Python one. */
  lemma CodePathShape(dir: Path, h: Handler)
    ensures Under(CodePath(dir, h), dir)
    ensures EndsWith(CodePath(dir, h), ".py") <==> h.LanguageId() == "python"
  {
    var p := CodePath(dir, h);
    assert p[..|dir| + 1] == dir + "/";
    if h.LanguageId() != "python" {
      assert p[|p| - 3..] == "ram";
    }
  }

  /** Python's `all(...)` over the `passed` flags. */
  function AllPassed(outs: seq<Output>): bool
  {
    if |outs| == 0 then true else outs[0].passed && AllPassed(outs[1..])
  }

  /** The fold holds exactly when every output passed; in particular it holds
      of no outputs at all. */
  lemma {:induction false} AllPassedIff(outs: seq<Output>)
    ensures AllPassed(outs) <==> forall i :: 0 <= i < |outs| ==> outs[i].passed
  {
    if |outs| > 0 {
      AllPassedIff(outs[1..]);
      assert forall i :: 1 <= i < |outs| ==> outs[i] == outs[1..][i - 1];
    }
  }

  /** The aggregator: a failed compile yields no case outputs and a failed
      verdict; otherwise the case outputs are kept, and the verdict passes
      exactly when the compile and every case passed. */
  function Respond(compileOutput: Output, execOutputs: seq<Output>): (r: CodeExecutionResponse)
    ensures r.compileOutput == compileOutput
    ensures !compileOutput.passed ==> r.execOutputs == []
    ensures compileOutput.passed ==> r.execOutputs == execOutputs
    ensures r.allPassed <==> compileOutput.passed && forall i :: 0 <= i < |r.execOutputs| ==> r.execOutputs[i].passed
  {
    if !compileOutput.passed then
      CodeExecutionResponse(compileOutput, [], false)
    else
      AllPassedIff(execOutputs);
      CodeExecutionResponse(compileOutput, execOutputs, AllPassed(execOutputs))
  }

  /** How the resolved handler runs one case: the artifact at `path`,
      launched by `machine`. */
  function Runner(h: Handler, path: Path, machine: Machine): CaseRunner
  {
    (test, f) => h.Execute(path, test, f, machine)
  }

  /** Running a case is executing the artifact on it. */
  lemma RunnerRuns(h: Handler, path: Path, machine: Machine, test: StdinStdout, f: FileSystem)
    ensures Runner(h, path, machine)(test, f) == h.Execute(path, test, f, machine)
  {
  }

  /** The compile step of a request: the resolved handler builds the artifact
      inside the freshly created workspace `dir`. */
  function CompileIn(h: Handler, req: CodeExecutionRequest, fs: FileSystem, dir: Path, scratch: Path, machine: Machine)
    : Step
  {
    h.Compile(req.code, CodePath(dir, h), scratch, MakeDir(fs, dir), machine)
  }

  /** The `try` block of `execute_code`, once the handler `h` is resolved:
      compile inside the fresh workspace, stop if the compile failed, and
      otherwise run the cases in order. Its reply is what the block returns
      or raises, and its files are those the `finally` clause finds. A
      returned response passes exactly when the compile and every case
      output passed, and carries no case outputs when the compile failed and
      one per case otherwise. */
  function TryBlock(h: Handler, req: CodeExecutionRequest, fs: FileSystem, dir: Path, scratch: Path, machine: Machine)
    : (run: Run)
    ensures !run.reply.Rejected?
    ensures run.reply.Judged? ==>
              (run.reply.response.allPassed <==>
                 run.reply.response.compileOutput.passed
                 && forall i :: 0 <= i < |run.reply.response.execOutputs| ==> run.reply.response.execOutputs[i].passed)
    ensures run.reply.Judged? && !run.reply.response.compileOutput.passed ==> run.reply.response.execOutputs == []
    ensures run.reply.Judged? && run.reply.response.compileOutput.passed ==>
              |run.reply.response.execOutputs| == |req.stdinStdout|
  {
    var step := CompileIn(h, req, fs, dir, scratch, machine);
    match step.result
    case Err(e) => Run(Crashed(e), step.fs)
    case Ok(c) =>
      if !c.passed then Run(Judged(Respond(c, [])), step.fs)
      else
        var cases := RunCases(Runner(h, CodePath(dir, h), machine), req.stdinStdout, step.fs, |req.stdinStdout|);
        match cases.result
        case Err(e) => Run(Crashed(e), cases.fs)
        case Ok(outs) => Run(Judged(Respond(c, outs)), cases.fs)
  }

  /** The `finally` clause: `shutil.rmtree` removes the workspace after
      whatever the `try` block returned or raised; when the removal raises,
      its exception replaces that outcome. */
  function Finally(outcome: Run, dir: Path): Run
  {
    match RemoveTreeChecked(outcome.fs, dir)
    case Ok(after) => Run(outcome.reply, after)
    case Err(e) => Run(Crashed(e), outcome.fs)
  }

  /** `execute_code(request)`, as a function of the filesystem, the fresh
      workspace name `dir` that `mkdtemp` returns, the fresh temporary file
      name `scratch`, and the process oracle. An unsupported language is
      rejected with status 400 and the filesystem untouched. On every other
      path the workspace is gone afterwards, and so is everything in it
      unless the removal itself raised; a returned response passes exactly
      when the compile and every case output passed, and carries no case
      outputs when the compile failed. */
  function Judge(req: CodeExecutionRequest, fs: FileSystem, dir: Path, scratch: Path, machine: Machine): (run: Run)
    ensures run.reply.Rejected? <==> GetLanguageHandler(req.language).Err?
    ensures run.reply.Rejected? ==>
              run.reply == Rejected(BadRequest, GetLanguageHandler(req.language).error) && run.fs == fs
    ensures !run.reply.Rejected? ==> dir !in run.fs.dirs
    ensures GetLanguageHandler(req.language).Ok?
            && dir in TryBlock(GetLanguageHandler(req.language).value, req, fs, dir, scratch, machine).fs.dirs ==>
              forall p :: p in run.fs.files ==> !Under(p, dir)
    ensures run.reply.Judged? ==>
              (run.reply.response.allPassed <==>
                 run.reply.response.compileOutput.passed
                 && forall i :: 0 <= i < |run.reply.response.execOutputs| ==> run.reply.response.execOutputs[i].passed)
    ensures run.reply.Judged? && !run.reply.response.compileOutput.passed ==> run.reply.response.execOutputs == []
    ensures run.reply.Judged? && run.reply.response.compileOutput.passed ==>
              |run.reply.response.execOutputs| == |req.stdinStdout|
  {
    match GetLanguageHandler(req.language)
    case Err(e) => Run(Rejected(BadRequest, e), fs)
    case Ok(h) => Finally(TryBlock(h, req, fs, dir, scratch, machine), dir)
  }

  /** The `for` loop of `execute_code` as written: each case runs against
      the files the previous one left and its output is appended; an
      exception ends the loop. It computes exactly the loop `RunCases`
      describes. */
  method RunEachCase(h: Handler, path: Path, cases: seq<StdinStdout>, fs: FileSystem, machine: Machine)
    returns (results: Result<seq<Output>, string>, fs': FileSystem)
    ensures Cases(results, fs') == RunCases(Runner(h, path, machine), cases, fs, |cases|)
  {
    var outs: seq<Output> := [];
    fs' := fs;
    var i := 0;
    while i < |cases|
      invariant 0 <= i <= |cases|
      invariant RunCases(Runner(h, path, machine), cases, fs, i) == Cases(Ok(outs), fs')
    {
      var r := h.Execute(path, cases[i], fs', machine);
      if r.result.Err? {
        RaisedStaysRaised(Runner(h, path, machine), cases, fs, i + 1, |cases|);
        return Err(r.result.error), r.fs;
      }
      outs := outs + [r.result.value];
      fs' := r.fs;
      i := i + 1;
    }
    results := Ok(outs);
  }

  /** `execute_code` as written: the compile, the case loop, and a `finally`
      clause on every way out of the `try` block. It computes exactly the
      run `Judge` describes. */
  method ExecuteCode(req: CodeExecutionRequest, fs: FileSystem, dir: Path, scratch: Path, machine: Machine)
    returns (reply: Reply, fs': FileSystem)
    ensures Run(reply, fs') == Judge(req, fs, dir, scratch, machine)
  {
    var resolved := GetLanguageHandler(req.language);
    if resolved.Err? {
      return Rejected(BadRequest, resolved.error), fs;
    }
    var h := resolved.value;
    var workspace := MakeDir(fs, dir);
    var path := CodePath(dir, h);
    var step := h.Compile(req.code, path, scratch, workspace, machine);
    var outcome: Run;
    if step.result.Err? {
      outcome := Run(Crashed(step.result.error), step.fs);
    } else if !step.result.value.passed {
      outcome := Run(Judged(CodeExecutionResponse(step.result.value, [], false)), step.fs);
    } else {
      var results, current := RunEachCase(h, path, req.stdinStdout, step.fs, machine);
      if results.Err? {
        outcome := Run(Crashed(results.error), current);
      } else {
        AllPassedIff(results.value);
        var response := CodeExecutionResponse(step.result.value, results.value, AllPassed(results.value));
        outcome := Run(Judged(response), current);
      }
    }
    assert outcome == TryBlock(h, req, fs, dir, scratch, machine);
    var removed := RemoveTreeChecked(outcome.fs, dir);
    if removed.Err? {
      return Crashed(removed.error), outcome.fs;
    }
    return outcome.reply, removed.value;
  }

  /** A failed compile ends the `try` block with the compile output, no
      case outputs and a failed verdict, leaving the files as the compile
      left them: no case is run. The request returns that response unless
      the workspace is gone by then. */
  lemma CompileFailureShortCircuits(
    req: CodeExecutionRequest, fs: FileSystem, dir: Path, scratch: Path, machine: Machine)
    requires GetLanguageHandler(req.language).Ok?
    requires CompileIn(GetLanguageHandler(req.language).value, req, fs, dir, scratch, machine).result.Ok?
    requires !CompileIn(GetLanguageHandler(req.language).value, req, fs, dir, scratch, machine).result.value.passed
    ensures var h := GetLanguageHandler(req.language).value;
            var step := CompileIn(h, req, fs, dir, scratch, machine);
            TryBlock(h, req, fs, dir, scratch, machine)
              == Run(Judged(CodeExecutionResponse(step.result.value, [], false)), step.fs)
    ensures var step := CompileIn(GetLanguageHandler(req.language).value, req, fs, dir, scratch, machine);
            dir in step.fs.dirs ==>
              Judge(req, fs, dir, scratch, machine).reply == Judged(CodeExecutionResponse(step.result.value, [], false))
  {
  }

  /** After a passing compile, the request is judged exactly when no case
      raises and the workspace is still there for the cleanup to remove; the
      response then carries the compile output unchanged and, at each
      position i, the output of running case i against the artifact the
      compile left behind and the files the earlier cases left, whatever
      those cases gave. */
  lemma CasesRunInOrder(req: CodeExecutionRequest, fs: FileSystem, dir: Path, scratch: Path, machine: Machine)
    requires GetLanguageHandler(req.language).Ok?
    ensures var h := GetLanguageHandler(req.language).value;
            var step := CompileIn(h, req, fs, dir, scratch, machine);
            var run := Runner(h, CodePath(dir, h), machine);
            var reply := Judge(req, fs, dir, scratch, machine).reply;
            step.result.Ok? && step.result.value.passed ==>
              (reply.Judged? <==>
                 && (forall i :: 0 <= i < |req.stdinStdout| ==> CaseRun(run, req.stdinStdout, step.fs, i).result.Ok?)
                 && dir in RunCases(run, req.stdinStdout, step.fs, |req.stdinStdout|).fs.dirs)
    ensures var h := GetLanguageHandler(req.language).value;
            var step := CompileIn(h, req, fs, dir, scratch, machine);
            var reply := Judge(req, fs, dir, scratch, machine).reply;
            reply.Judged? && reply.response.compileOutput.passed ==>
            var response := reply.response;
            && step.result == Ok(response.compileOutput)
            && |response.execOutputs| == |req.stdinStdout|
            && forall i :: 0 <= i < |req.stdinStdout| ==>
                 CaseRun(Runner(h, CodePath(dir, h), machine), req.stdinStdout, step.fs, i).result
                   == Ok(response.execOutputs[i])
  {
    var h := GetLanguageHandler(req.language).value;
    var step := CompileIn(h, req, fs, dir, scratch, machine);
    RunCasesOutputs(Runner(h, CodePath(dir, h), machine), req.stdinStdout, step.fs, |req.stdinStdout|);
    RunCasesCompletes(Runner(h, CodePath(dir, h), machine), req.stdinStdout, step.fs, |req.stdinStdout|);
  }

  /** With no cases, a passing compile gives a passing verdict. */
  lemma NoCasesAfterPassingCompilePasses(
    req: CodeExecutionRequest, fs: FileSystem, dir: Path, scratch: Path, machine: Machine)
    requires |req.stdinStdout| == 0
    requires Judge(req, fs, dir, scratch, machine).reply.Judged?
    requires Judge(req, fs, dir, scratch, machine).reply.response.compileOutput.passed
    ensures Judge(req, fs, dir, scratch, machine).reply.response.allPassed
  {
  }

  /** An exception escapes the request exactly when the compile step
      raised, or the compile passed and some case raised, or the workspace
      is no longer a directory when the `finally` clause removes it. */
  lemma CrashIffSomeStepRaised(req: CodeExecutionRequest, fs: FileSystem, dir: Path, scratch: Path, machine: Machine)
    requires GetLanguageHandler(req.language).Ok?
    ensures var h := GetLanguageHandler(req.language).value;
            var step := CompileIn(h, req, fs, dir, scratch, machine);
            Judge(req, fs, dir, scratch, machine).reply.Crashed?
            <==> || step.result.Err?
                 || (step.result.value.passed
                     && exists i :: 0 <= i < |req.stdinStdout|
                          && CaseRun(Runner(h, CodePath(dir, h), machine), req.stdinStdout, step.fs, i).result.Err?)
                 || dir !in TryBlock(h, req, fs, dir, scratch, machine).fs.dirs
  {
    var h := GetLanguageHandler(req.language).value;
    var step := CompileIn(h, req, fs, dir, scratch, machine);
    if step.result.Ok? && step.result.value.passed {
      RunCasesCompletes(Runner(h, CodePath(dir, h), machine), req.stdinStdout, step.fs, |req.stdinStdout|);
    }
  }

  /** When the workspace is gone by the time the `finally` clause runs, the
      removal's exception escapes instead of whatever the `try` block
      returned or raised, and the files stay as the `try` block left them. */
  lemma WorkspaceGoneCrashes(req: CodeExecutionRequest, fs: FileSystem, dir: Path, scratch: Path, machine: Machine)
    requires GetLanguageHandler(req.language).Ok?
    ensures var outcome := TryBlock(GetLanguageHandler(req.language).value, req, fs, dir, scratch, machine);
            dir !in outcome.fs.dirs ==>
              Judge(req, fs, dir, scratch, machine) == Run(Crashed(RemoveTreeError(outcome.fs, dir)), outcome.fs)
    ensures var outcome := TryBlock(GetLanguageHandler(req.language).value, req, fs, dir, scratch, machine);
            dir in outcome.fs.dirs ==>
              Judge(req, fs, dir, scratch, machine) == Run(outcome.reply, RemoveTree(outcome.fs, dir))
  {
  }

  /** The workspace name is new, nothing lies inside it yet, and the
      temporary source file name is new and lies outside it: what `mkdtemp`
      and `NamedTemporaryFile` guarantee. */
  predicate Fresh(fs: FileSystem, dir: Path, scratch: Path)
  {
    && dir !in fs.dirs
    && (forall p :: p in fs.dirs ==> !Under(p, dir))
    && (forall p :: p in fs.files ==> !Under(p, dir))
    && scratch !in fs.files
    && !Under(scratch, dir)
  }

  /** A child process confined to the workspace makes every case run
      confined to it. */
  lemma RunnerConfined(h: Handler, path: Path, machine: Machine, dir: Path)
    requires Confined(machine, dir)
    ensures RunsConfined(Runner(h, path, machine), dir)
  {
    forall test, f ensures SameOutside(Runner(h, path, machine)(test, f).fs, f, dir) {
      assert SameOutside(machine(h.RunInvocation(path, test.stdin), f).fs, f, dir);
    }
  }

  /** With fresh names and a confined toolchain, the compile step changes
      nothing outside the new workspace: the temporary source file, created
      outside it, is gone again. */
  lemma CompileStaysInside(
    h: Handler, req: CodeExecutionRequest, fs: FileSystem, dir: Path, scratch: Path, machine: Machine)
    requires Fresh(fs, dir, scratch)
    requires Confined(machine, dir)
    ensures SameOutside(CompileIn(h, req, fs, dir, scratch, machine).fs, MakeDir(fs, dir), dir)
  {
    var out := CodePath(dir, h);
    CodePathShape(dir, h);
    var step := CompileIn(h, req, fs, dir, scratch, machine);
    var before := MakeDir(fs, dir);
    if h.CppHandler? {
      var staged := WriteFile(before, scratch, Source(req.code));
      var base := Cpp.CompilerRun(req.code, out, scratch, before, machine).fs;
      assert SameOutside(base, staged, dir);
    }
    forall p | !Under(p, dir) ensures p in step.fs.files <==> p in before.files {
      assert p != out;
    }
  }

  /** Given fresh names, and child processes that write only inside the
      workspace, every request leaves the filesystem exactly as it found it:
      the workspace, the artifact and the temporary source file are all gone
      on every path, including an escaping exception, and the cleanup itself
      cannot raise, so the reply is what the `try` block gave. Without the
      second condition files a case writes elsewhere stay (see
      `Scenarios.StrayWriteSurvives`), and a case that deletes its workspace
      makes the cleanup raise (see `Scenarios.SelfDeletingScriptCrashes`):
      the service is no sandbox. */
  lemma FilesystemRestored(req: CodeExecutionRequest, fs: FileSystem, dir: Path, scratch: Path, machine: Machine)
    requires Fresh(fs, dir, scratch)
    requires Confined(machine, dir)
    ensures Judge(req, fs, dir, scratch, machine).fs == fs
    ensures GetLanguageHandler(req.language).Ok? ==>
              Judge(req, fs, dir, scratch, machine).reply
                == TryBlock(GetLanguageHandler(req.language).value, req, fs, dir, scratch, machine).reply
  {
    if GetLanguageHandler(req.language).Ok? {
      var h := GetLanguageHandler(req.language).value;
      var out := CodePath(dir, h);
      var step := CompileIn(h, req, fs, dir, scratch, machine);
      CompileStaysInside(h, req, fs, dir, scratch, machine);
      var last := step.fs;
      if step.result.Ok? && step.result.value.passed {
        last := RunCases(Runner(h, out, machine), req.stdinStdout, step.fs, |req.stdinStdout|).fs;
        RunnerConfined(h, out, machine, dir);
        CasesStayInside(Runner(h, out, machine), req.stdinStdout, step.fs, |req.stdinStdout|, dir);
        SameOutsideChains(last, step.fs, MakeDir(fs, dir), dir);
      }
      assert TryBlock(h, req, fs, dir, scratch, machine).fs == last;
      assert !Under(dir, dir);
      assert dir in last.dirs;
      RemoveTreeUndoesMakeDir(fs, last, dir);
    }
  }

  /** Oracles that differ only in timing give case runs that differ only
      in timing. */
  lemma RunnersAgree(h: Handler, path: Path, m1: Machine, m2: Machine)
    requires SameBehaviour(m1, m2)
    ensures SameRuns(Runner(h, path, m1), Runner(h, path, m2))
  {
    forall test, f
      ensures Runner(h, path, m1)(test, f).fs == Runner(h, path, m2)(test, f).fs
      ensures SameStepResult(Runner(h, path, m1)(test, f).result, Runner(h, path, m2)(test, f).result)
    {
      ExecuteIgnoresTiming(h, path, test, f, m1, m2);
    }
  }

  /** The `try` block under oracles that differ only in timing leaves the
      same files, and gives the same reply up to the measured times. */
  lemma TryBlocksAgree(
    h: Handler, req: CodeExecutionRequest, fs: FileSystem, dir: Path, scratch: Path, m1: Machine, m2: Machine)
    requires SameBehaviour(m1, m2)
    ensures var t1, t2 := TryBlock(h, req, fs, dir, scratch, m1), TryBlock(h, req, fs, dir, scratch, m2);
            && t1.fs == t2.fs
            && (t1.reply.Judged? <==> t2.reply.Judged?)
            && (!t1.reply.Judged? ==> t1.reply == t2.reply)
            && (t1.reply.Judged? ==> t1.reply.response.SameExceptTime(t2.reply.response))
  {
    CompileIgnoresTiming(h, req.code, CodePath(dir, h), scratch, MakeDir(fs, dir), m1, m2);
    var step1 := CompileIn(h, req, fs, dir, scratch, m1);
    RunnersAgree(h, CodePath(dir, h), m1, m2);
    RunCasesIgnoresTiming(
      Runner(h, CodePath(dir, h), m1), Runner(h, CodePath(dir, h), m2), req.stdinStdout, step1.fs, |req.stdinStdout|);
  }

  /** Two runs of one request from the same filesystem, with the same
      workspace and temporary-file names, whose child processes behave alike,
      however long they take, leave the same filesystem and give the same
      reply up to the measured times. A second request made after the first
      starts from the filesystem the first left, so a program that leaves
      state behind can be judged differently (`Scenarios.RememberingAgain`). */
  lemma RepeatedRunsAgree(req: CodeExecutionRequest, fs: FileSystem, dir: Path, scratch: Path, m1: Machine, m2: Machine)
    requires SameBehaviour(m1, m2)
    ensures Judge(req, fs, dir, scratch, m1).fs == Judge(req, fs, dir, scratch, m2).fs
    ensures Judge(req, fs, dir, scratch, m1).reply.Judged? <==> Judge(req, fs, dir, scratch, m2).reply.Judged?
    ensures !Judge(req, fs, dir, scratch, m1).reply.Judged? ==>
              Judge(req, fs, dir, scratch, m1).reply == Judge(req, fs, dir, scratch, m2).reply
    ensures Judge(req, fs, dir, scratch, m1).reply.Judged? ==>
              Judge(req, fs, dir, scratch, m1).reply.response
                .SameExceptTime(Judge(req, fs, dir, scratch, m2).reply.response)
  {
    if GetLanguageHandler(req.language).Ok? {
      TryBlocksAgree(GetLanguageHandler(req.language).value, req, fs, dir, scratch, m1, m2);
    }
  }
}
