/** Whole requests run against concrete process oracles: the scenarios the
    repository's tests describe, worked out on the model. */
module Scenarios {
  import opened Types
  import opened Text
  import opened Process
  import opened Judging
  import opened Languages
  import opened Registry
  import opened Pipeline
  import opened CaseLoop

  const Empty: FileSystem := FileSystem({}, map[])
  const Dir: Path := "/tmp/ws"
  const Scratch: Path := "/tmp/src.cpp"

  /** The freshness the scenarios assume can be met: in an empty
      filesystem, "/tmp/ws" is a fresh workspace name and "/tmp/src.cpp" a
      fresh temporary file name outside it. */
  lemma EmptyIsFresh()
    ensures Fresh(Empty, Dir, Scratch)
  {
    assert Scratch[5] == 's' && (Dir + "/")[5] == 'w';
    assert Scratch[..|Dir| + 1] != Dir + "/";
  }

  /** The greeting program a C++ client submits: it reads a name and greets
      it. */
  const GreetingSource: string :=
    "\n    #include <iostream>\n    \n    int main() {\n        std::string name;\n"
    + "        std::getline(std::cin, name);\n"
    + "        std::cout << \"Hello, \" << name << \"!\" << std::endl;\n        return 0;\n    }\n    "

  /** In a request with one case whose compile passes and whose case
      completes, the `try` block returns a response built from that case's
      output alone, with the files the case left; when the case left the
      workspace in place, the request returns that response and the
      workspace is removed from those files. */
  lemma OneCaseJudged(h: Handler, req: CodeExecutionRequest, fs: FileSystem, dir: Path, scratch: Path, machine: Machine)
    requires GetLanguageHandler(req.language) == Ok(h)
    requires |req.stdinStdout| == 1
    requires CompileIn(h, req, fs, dir, scratch, machine).result.Ok?
    requires CompileIn(h, req, fs, dir, scratch, machine).result.value.passed
    requires var step := CompileIn(h, req, fs, dir, scratch, machine);
             h.Execute(CodePath(dir, h), req.stdinStdout[0], step.fs, machine).result.Ok?
    ensures var step := CompileIn(h, req, fs, dir, scratch, machine);
            var last := h.Execute(CodePath(dir, h), req.stdinStdout[0], step.fs, machine);
            TryBlock(h, req, fs, dir, scratch, machine)
              == Run(Judged(Respond(step.result.value, [last.result.value])), last.fs)
    ensures var step := CompileIn(h, req, fs, dir, scratch, machine);
            var last := h.Execute(CodePath(dir, h), req.stdinStdout[0], step.fs, machine);
            dir in last.fs.dirs ==>
            && Judge(req, fs, dir, scratch, machine).reply == Judged(Respond(step.result.value, [last.result.value]))
            && Judge(req, fs, dir, scratch, machine).fs == RemoveTree(last.fs, dir)
  {
    var step := CompileIn(h, req, fs, dir, scratch, machine);
    var run := Runner(h, CodePath(dir, h), machine);
    var last := h.Execute(CodePath(dir, h), req.stdinStdout[0], step.fs, machine);
    RunnerRuns(h, CodePath(dir, h), machine, req.stdinStdout[0], step.fs);
    assert RunCases(run, req.stdinStdout, step.fs, 0) == Cases(Ok([]), step.fs);
    assert req.stdinStdout[1 - 1] == req.stdinStdout[0];
    assert [] + [last.result.value] == [last.result.value];
    assert RunCases(run, req.stdinStdout, step.fs, 1) == Cases(Ok([last.result.value]), last.fs);
  }

  /** In a request with two cases whose compile passes and whose cases
      both complete, the second case runs against the files the first one
      left, and the `try` block returns a response built from the two
      outputs; when the workspace is still in place, the request returns
      it. */
  lemma TwoCasesJudged(
    h: Handler, req: CodeExecutionRequest, fs: FileSystem, dir: Path, scratch: Path, machine: Machine)
    requires GetLanguageHandler(req.language) == Ok(h)
    requires |req.stdinStdout| == 2
    requires CompileIn(h, req, fs, dir, scratch, machine).result.Ok?
    requires CompileIn(h, req, fs, dir, scratch, machine).result.value.passed
    requires var step := CompileIn(h, req, fs, dir, scratch, machine);
             h.Execute(CodePath(dir, h), req.stdinStdout[0], step.fs, machine).result.Ok?
    requires var step := CompileIn(h, req, fs, dir, scratch, machine);
             var first := h.Execute(CodePath(dir, h), req.stdinStdout[0], step.fs, machine);
             h.Execute(CodePath(dir, h), req.stdinStdout[1], first.fs, machine).result.Ok?
    ensures var step := CompileIn(h, req, fs, dir, scratch, machine);
            var first := h.Execute(CodePath(dir, h), req.stdinStdout[0], step.fs, machine);
            var second := h.Execute(CodePath(dir, h), req.stdinStdout[1], first.fs, machine);
            TryBlock(h, req, fs, dir, scratch, machine)
              == Run(Judged(Respond(step.result.value, [first.result.value, second.result.value])), second.fs)
    ensures var step := CompileIn(h, req, fs, dir, scratch, machine);
            var first := h.Execute(CodePath(dir, h), req.stdinStdout[0], step.fs, machine);
            var second := h.Execute(CodePath(dir, h), req.stdinStdout[1], first.fs, machine);
            dir in second.fs.dirs ==>
              Judge(req, fs, dir, scratch, machine).reply
                == Judged(Respond(step.result.value, [first.result.value, second.result.value]))
  {
    var step := CompileIn(h, req, fs, dir, scratch, machine);
    var path := CodePath(dir, h);
    var run := Runner(h, path, machine);
    var first := h.Execute(path, req.stdinStdout[0], step.fs, machine);
    var second := h.Execute(path, req.stdinStdout[1], first.fs, machine);
    RunnerRuns(h, path, machine, req.stdinStdout[0], step.fs);
    RunnerRuns(h, path, machine, req.stdinStdout[1], first.fs);
    assert RunCases(run, req.stdinStdout, step.fs, 0) == Cases(Ok([]), step.fs);
    assert [] + [first.result.value] == [first.result.value];
    assert RunCases(run, req.stdinStdout, step.fs, 1) == Cases(Ok([first.result.value]), first.fs);
    assert [first.result.value] + [second.result.value] == [first.result.value, second.result.value];
    assert RunCases(run, req.stdinStdout, step.fs, 2)
        == Cases(Ok([first.result.value, second.result.value]), second.fs);
  }

  /** After a passing compile, a single case output is the whole verdict. */
  lemma RespondToOne(c: Output, o: Output)
    requires c.passed
    ensures Respond(c, [o]) == CodeExecutionResponse(c, [o], o.passed)
  {
  }

  /** After a passing compile, two case outputs pass together or not at all. */
  lemma RespondToTwo(c: Output, o0: Output, o1: Output)
    requires c.passed
    ensures Respond(c, [o0, o1]) == CodeExecutionResponse(c, [o0, o1], o0.passed && o1.passed)
  {
    var r := Respond(c, [o0, o1]);
    assert r.execOutputs[0] == o0 && r.execOutputs[1] == o1;
  }

  /** The toolchain builds any source and the built program greets "World". */
  function Greeter(inv: Invocation, f: FileSystem): ChildRun
  {
    ChildRun(Exited(0, "Hello, World!\n", "", 0.5), f)
  }

  /** The greeting program compiles, and its run on input "World" prints
      "Hello, World!" and a newline; it passes whether or not the expected
      output has the newline. */
  lemma CompiledGreetingPasses(expected: string, fs: FileSystem, dir: Path, scratch: Path)
    requires expected == "Hello, World!\n" || expected == "Hello, World!"
    ensures var req := CodeExecutionRequest(GreetingSource, [StdinStdout("World", expected)], "cpp");
            var run := Judge(req, fs, dir, scratch, Greeter);
            && run.reply.Judged?
            && run.reply.response.allPassed
            && |run.reply.response.execOutputs| == 1
  {
    var test := StdinStdout("World", expected);
    var req := CodeExecutionRequest(GreetingSource, [test], "cpp");
    ResolvesAnyCase();
    var step := CompileIn(CppHandler, req, fs, dir, scratch, Greeter);
    var c := Output(true, "", "", 0.5, false);
    assert step.result == Ok(c);
    GreetingRunPasses(expected);
    var last := CppHandler.Execute(CodePath(dir, CppHandler), test, step.fs, Greeter);
    var o := Output(true, "Hello, World!\n", "", 0.5, false);
    assert last.result == Ok(o);
    OneCaseJudged(CppHandler, req, fs, dir, scratch, Greeter);
    RespondToOne(c, o);
  }

  /** Judging the greeting, with fresh names, leaves the filesystem as it
      found it: the greeter writes nothing outside its workspace. */
  lemma GreetingLeavesNoTrace(expected: string, fs: FileSystem, dir: Path, scratch: Path)
    requires Fresh(fs, dir, scratch)
    ensures var req := CodeExecutionRequest(GreetingSource, [StdinStdout("World", expected)], "cpp");
            Judge(req, fs, dir, scratch, Greeter).fs == fs
  {
    assert Confined(Greeter, dir) by {
      forall inv, f ensures SameOutside(Greeter(inv, f).fs, f, dir) {
        assert Greeter(inv, f).fs == f;
      }
    }
    var req := CodeExecutionRequest(GreetingSource, [StdinStdout("World", expected)], "cpp");
    FilesystemRestored(req, fs, dir, scratch, Greeter);
  }

  /** The greeting run passes against either expected output. */
  lemma GreetingRunPasses(expected: string)
    requires expected == "Hello, World!\n" || expected == "Hello, World!"
    ensures JudgeRun(Exited(0, "Hello, World!\n", "", 0.5), StdinStdout("World", expected))
         == Ok(Output(true, "Hello, World!\n", "", 0.5, false))
  {
    if |expected| == 14 {
      assert expected == "Hello, World!\n";
      assert Strip(expected) == "Hello, World!" by { GreetingStrips(); }
    } else {
      assert expected == "Hello, World!";
      assert Strip(expected) == "Hello, World!" by { GreetingStrips(); }
    }
    GreetingPassesAgainst(expected);
  }

  /** The greeting run passes against any expected output that strips to
      the greeting. */
  lemma GreetingPassesAgainst(expected: string)
    requires Strip(expected) == "Hello, World!"
    ensures JudgeRun(Exited(0, "Hello, World!\n", "", 0.5), StdinStdout("World", expected))
         == Ok(Output(true, "Hello, World!\n", "", 0.5, false))
  {
    GreetingStrips();
  }

  lemma GreetingStrips()
    ensures Strip("Hello, World!\n") == "Hello, World!"
    ensures Strip("Hello, World!") == "Hello, World!"
  {
    var m := "Hello, World!";
    assert Trimmed(m);
    assert AllSpace("\n");
    StripOfPadded("", m, "\n");
    assert "" + m + "\n" == "Hello, World!\n";
    StripTrimmed(m);
  }

  /** The toolchain rejects the source with a diagnostic. */
  function MissingSemicolon(inv: Invocation, f: FileSystem): ChildRun
  {
    ChildRun(Exited(1, "", "error: expected ';'", 0.3), f)
  }

  /** A C++ program the toolchain rejects: the diagnostics come back in the
      compile output, no case runs, and the verdict fails. */
  lemma CompileErrorStopsRequest(fs: FileSystem, dir: Path, scratch: Path)
    ensures var req := CodeExecutionRequest("int main() { return 0 }", [StdinStdout("", "")], "CPP");
            Judge(req, fs, dir, scratch, MissingSemicolon).reply
              == Judged(CodeExecutionResponse(Output(false, "", "error: expected ';'", 0.3, false), [], false))
  {
    var req := CodeExecutionRequest("int main() { return 0 }", [StdinStdout("", "")], "CPP");
    ResolvesAnyCase();
    var step := CompileIn(CppHandler, req, fs, dir, scratch, MissingSemicolon);
    assert step.result == Ok(Output(false, "", "error: expected ';'", 0.3, false));
    CompileFailureShortCircuits(req, fs, dir, scratch, MissingSemicolon);
  }

  /** The script never finishes: every run is killed after its budget. */
  function Endless(inv: Invocation, f: FileSystem): ChildRun
  {
    ChildRun(TimedOut(30.0), f)
  }

  /** A Python script that loops forever: the compile passes, the single
      case times out with the sentinel texts, and the verdict fails. */
  lemma InterpretedTimeout(fs: FileSystem, dir: Path, scratch: Path)
    ensures var req := CodeExecutionRequest("while True:\n    pass\n", [StdinStdout("", "")], "python");
            var run := Judge(req, fs, dir, scratch, Endless);
            && run.reply.Judged?
            && run.reply.response.compileOutput.passed
            && run.reply.response.execOutputs == [Output(false, "Error: Timed out", "Error: Timed out", 30.0, true)]
            && !run.reply.response.allPassed
  {
    var req := CodeExecutionRequest("while True:\n    pass\n", [StdinStdout("", "")], "python");
    ResolvesAnyCase();
    var step := CompileIn(PythonHandler, req, fs, dir, scratch, Endless);
    var last := PythonHandler.Execute(CodePath(dir, PythonHandler), req.stdinStdout[0], step.fs, Endless);
    var o := Output(false, "Error: Timed out", "Error: Timed out", 30.0, true);
    assert last.result == Ok(o);
    OneCaseJudged(PythonHandler, req, fs, dir, scratch, Endless);
    RespondToOne(step.result.value, o);
  }

  /** The interpreter reports the unclosed parenthesis on standard error,
      prints nothing and exits with status 1. */
  function UnclosedParenthesis(inv: Invocation, f: FileSystem): ChildRun
  {
    ChildRun(Exited(1, "", "SyntaxError: '(' was never closed", 0.1), f)
  }

  /** A Python script with a syntax error, whose case expects empty output:
      the compile passes (the script is only written out), and the run,
      which prints nothing and exits with status 1, PASSES, because only the
      stripped standard output is compared. */
  lemma SyntaxErrorWithEmptyExpectedOutputPasses(fs: FileSystem, dir: Path, scratch: Path)
    ensures var req := CodeExecutionRequest("print(\"Missing closing parenthesis\"\n", [StdinStdout("", "")], "python");
            var run := Judge(req, fs, dir, scratch, UnclosedParenthesis);
            && run.reply.Judged?
            && run.reply.response.compileOutput.passed
            && run.reply.response.execOutputs[0].stderr == "SyntaxError: '(' was never closed"
            && run.reply.response.allPassed
  {
    var req := CodeExecutionRequest("print(\"Missing closing parenthesis\"\n", [StdinStdout("", "")], "python");
    ResolvesAnyCase();
    var step := CompileIn(PythonHandler, req, fs, dir, scratch, UnclosedParenthesis);
    var last := PythonHandler.Execute(CodePath(dir, PythonHandler), req.stdinStdout[0], step.fs, UnclosedParenthesis);
    var o := Output(true, "", "SyntaxError: '(' was never closed", 0.1, false);
    assert last.result == Ok(o);
    OneCaseJudged(PythonHandler, req, fs, dir, scratch, UnclosedParenthesis);
    RespondToOne(step.result.value, o);
  }

  /** An unregistered language is rejected with status 400, with the
      message naming it lower-cased (whose full text `RejectsRuby` gives),
      and the filesystem untouched: no workspace is created. */
  lemma UnknownLanguageRejected(fs: FileSystem, dir: Path, scratch: Path, machine: Machine)
    ensures var req := CodeExecutionRequest("puts 1", [], "Ruby");
            Judge(req, fs, dir, scratch, machine)
              == Run(Rejected(400, UnsupportedMessage("ruby")), fs)
  {
    RejectsRuby();
  }

  /** A script that writes `/tmp/x` outside its workspace and prints nothing. */
  function StrayWriter(inv: Invocation, f: FileSystem): ChildRun
  {
    ChildRun(Exited(0, "", "", 0.1), WriteFile(f, "/tmp/x", Source("1")))
  }

  /** The service is no sandbox: a Python case that writes a file outside the
      workspace is judged as usual, and the file is still there after the
      workspace is removed. */
  lemma StrayWriteSurvives(fs: FileSystem, dir: Path, scratch: Path)
    requires !Under("/tmp/x", dir)
    ensures var req := CodeExecutionRequest("open('/tmp/x', 'w').write('1')\n", [StdinStdout("", "")], "python");
            var run := Judge(req, fs, dir, scratch, StrayWriter);
            && run.reply.Judged?
            && run.reply.response.allPassed
            && "/tmp/x" in run.fs.files
  {
    var req := CodeExecutionRequest("open('/tmp/x', 'w').write('1')\n", [StdinStdout("", "")], "python");
    ResolvesAnyCase();
    var step := CompileIn(PythonHandler, req, fs, dir, scratch, StrayWriter);
    var last := PythonHandler.Execute(CodePath(dir, PythonHandler), req.stdinStdout[0], step.fs, StrayWriter);
    var o := Output(true, "", "", 0.1, false);
    assert last.result == Ok(o);
    assert "/tmp/x" in last.fs.files;
    OneCaseJudged(PythonHandler, req, fs, dir, scratch, StrayWriter);
    RespondToOne(step.result.value, o);
  }

  /** The script `Remembering` stands for. */
  const RememberingSource: string :=
    "import os\nprint('again' if os.path.exists('/tmp/seen') else 'first')\nopen('/tmp/seen', 'w').close()\n"

  /** A script that prints "first" the first time it runs and "again" once
      the marker file `/tmp/seen` it creates exists. */
  function Remembering(inv: Invocation, f: FileSystem): ChildRun
  {
    if "/tmp/seen" in f.files then ChildRun(Exited(0, "again", "", 0.1), f)
    else ChildRun(Exited(0, "first", "", 0.1), WriteFile(f, "/tmp/seen", Source("")))
  }

  /** The marker script's first run prints "first", which is what the case
      expects, and leaves the marker. */
  lemma RememberingFirst(path: Path, test: StdinStdout, f: FileSystem)
    requires "/tmp/seen" !in f.files
    requires test.stdout == "first"
    ensures PythonHandler.Execute(path, test, f, Remembering).result == Ok(Output(true, "first", "", 0.1, false))
    ensures "/tmp/seen" in PythonHandler.Execute(path, test, f, Remembering).fs.files
  {
    var c := Remembering(PythonHandler.RunInvocation(path, test.stdin), f);
    assert c.result == Exited(0, "first", "", 0.1);
    StripTrimmed("first");
  }

  /** Run again once the marker exists, the script prints "again", which
      the case does not expect. */
  lemma RememberingAgain(path: Path, test: StdinStdout, f: FileSystem)
    requires "/tmp/seen" in f.files
    requires test.stdout == "first"
    ensures PythonHandler.Execute(path, test, f, Remembering).result == Ok(Output(false, "again", "", 0.1, false))
  {
    var c := Remembering(PythonHandler.RunInvocation(path, test.stdin), f);
    assert c.result == Exited(0, "again", "", 0.1);
    MarkerWordsDiffer();
  }

  /** The two words the marker script prints strip to different texts. */
  lemma MarkerWordsDiffer()
    ensures Strip("again") != Strip("first")
  {
    StripTrimmed("first");
    StripTrimmed("again");
    assert "again"[0] != "first"[0];
  }

  /** Cases share the filesystem and run in order: two identical cases of a
      script that leaves a marker file get different outputs, so the first
      passes, the second fails, and the verdict fails. */
  lemma LaterCaseSeesEarlierWrites(fs: FileSystem, dir: Path, scratch: Path)
    requires "/tmp/seen" !in fs.files
    requires !Under("/tmp/seen", dir)
    ensures var test := StdinStdout("", "first");
            var req := CodeExecutionRequest(RememberingSource, [test, test], "python");
            var run := Judge(req, fs, dir, scratch, Remembering);
            && run.reply.Judged?
            && |run.reply.response.execOutputs| == 2
            && run.reply.response.execOutputs[0].passed
            && !run.reply.response.execOutputs[1].passed
            && !run.reply.response.allPassed
  {
    var test := StdinStdout("", "first");
    var req := CodeExecutionRequest(RememberingSource, [test, test], "python");
    ResolvesAnyCase();
    var step := CompileIn(PythonHandler, req, fs, dir, scratch, Remembering);
    var path := CodePath(dir, PythonHandler);
    assert "/tmp/seen" !in step.fs.files by {
      CodePathShape(dir, PythonHandler);
      assert path != "/tmp/seen";
    }
    var first := PythonHandler.Execute(path, test, step.fs, Remembering);
    RememberingFirst(path, test, step.fs);
    RememberingAgain(path, test, first.fs);
    TwoCasesJudged(PythonHandler, req, fs, dir, scratch, Remembering);
    var o0, o1 := Output(true, "first", "", 0.1, false), Output(false, "again", "", 0.1, false);
    RespondToTwo(step.result.value, o0, o1);
  }

  /** A script that deletes the workspace it runs from and prints nothing. */
  function WorkspaceRemover(inv: Invocation, f: FileSystem): ChildRun
  {
    ChildRun(Exited(0, "", "", 0.1), RemoveTree(f, Dir))
  }

  /** A Python case that deletes its own workspace passes, but the request
      does not return its response: the cleanup then finds no workspace, and
      its `FileNotFoundError` escapes instead. */
  lemma SelfDeletingScriptCrashes(fs: FileSystem, scratch: Path)
    requires Dir !in fs.files
    ensures var req := CodeExecutionRequest(
              "import os, shutil\nshutil.rmtree(os.path.dirname(os.path.abspath(__file__)))\n",
              [StdinStdout("", "")], "python");
            var outcome := TryBlock(PythonHandler, req, fs, Dir, scratch, WorkspaceRemover);
            var run := Judge(req, fs, Dir, scratch, WorkspaceRemover);
            && outcome.reply.Judged?
            && |outcome.reply.response.execOutputs| == 1
            && outcome.reply.response.execOutputs[0].passed
            && outcome.reply.response.allPassed
            && run.reply == Crashed("[Errno 2] No such file or directory: '" + Dir + "'")
            && Dir !in run.fs.dirs
  {
    var req := CodeExecutionRequest(
      "import os, shutil\nshutil.rmtree(os.path.dirname(os.path.abspath(__file__)))\n",
      [StdinStdout("", "")], "python");
    ResolvesAnyCase();
    var step := CompileIn(PythonHandler, req, fs, Dir, scratch, WorkspaceRemover);
    var path := CodePath(Dir, PythonHandler);
    assert Dir !in step.fs.files by {
      CodePathShape(Dir, PythonHandler);
      assert path != Dir;
    }
    var last := PythonHandler.Execute(path, req.stdinStdout[0], step.fs, WorkspaceRemover);
    assert last.fs == RemoveTree(step.fs, Dir);
    assert Dir !in last.fs.files;
    assert last.result.Ok? && last.result.value.passed;
    OneCaseJudged(PythonHandler, req, fs, Dir, scratch, WorkspaceRemover);
    RespondToOne(step.result.value, last.result.value);
    WorkspaceGoneCrashes(req, fs, Dir, scratch, WorkspaceRemover);
  }
}
