/** The language-handler interface: a language identifier, `compile` and
    `execute`. The two behavioural shapes, compiled and interpreted, are the
    two variants of one datatype; every member dispatches on the variant. */
module Languages {
  import opened Types
  import opened Process
  import opened Judging
  import Cpp
  import Python

  datatype Handler = CppHandler | PythonHandler
  {
    function LanguageId(): string
    {
      match this
      case CppHandler => Cpp.LanguageId
      case PythonHandler => Python.LanguageId
    }

    /** How the artifact at `path` is launched for one case. */
    function RunInvocation(path: Path, stdin: string): Invocation
    {
      match this
      case CppHandler => Cpp.RunInvocation(path, stdin)
      case PythonHandler => Python.RunInvocation(path, stdin)
    }

    /** Builds the runnable artifact at `out` from `code`. The compiled
        variant's toolchain may change files as it runs; apart from that, both
        variants keep every directory and every file other than `out` and the
        compiled variant's temporary file `scratch`. The compiled variant
        always removes `scratch`; file writes are taken to succeed, so only
        the compiled variant's toolchain call can raise; the interpreted
        variant always passes; on success `out` holds the runnable artifact
        made from `code`. */
    function Compile(code: string, out: Path, scratch: Path, fs: FileSystem, machine: Machine): (s: Step)
      ensures var before := if CppHandler? then Cpp.CompilerRun(code, out, scratch, fs, machine).fs else fs;
              && s.fs.dirs == before.dirs
              && (forall q :: q != scratch && q != out ==> (q in s.fs.files <==> q in before.files))
              && (forall q :: q != scratch && q != out && q in before.files ==> s.fs.files[q] == before.files[q])
      ensures CppHandler? ==> scratch !in s.fs.files
      ensures PythonHandler? && scratch !in fs.files && scratch != out ==> scratch !in s.fs.files
      ensures PythonHandler? ==> s.result.Ok? && s.result.value.passed
      ensures s.result.Err? ==> CppHandler?
      ensures out != scratch && s.result.Ok? && s.result.value.passed ==>
                out in s.fs.files && s.fs.files[out] == (if CppHandler? then Executable(code) else Source(code))
    {
      match this
      case CppHandler => Cpp.Compile(code, out, scratch, fs, machine)
      case PythonHandler => Python.Compile(code, out, fs)
    }

    /** Runs the artifact at `path` on one case, against the files `fs`, and
        judges it by the rule shared by both variants; the filesystem
        afterwards is whatever the case's process left. */
    function Execute(path: Path, test: StdinStdout, fs: FileSystem, machine: Machine): Step
    {
      var c := machine(RunInvocation(path, test.stdin), fs);
      Step(JudgeRun(c.result, test), c.fs)
    }
  }

  /** Both variants feed the case's input to the artifact, and differ only in
      the launcher and the time budget: 120 s for the compiled variant, 30 s
      for the interpreted one. */
  lemma RunInvocationShape(h: Handler, path: Path, stdin: string)
    ensures h.RunInvocation(path, stdin).input == Some(stdin)
    ensures h.RunInvocation(path, stdin).argv[|h.RunInvocation(path, stdin).argv| - 1] == path
    ensures h.RunInvocation(path, stdin).timeoutSeconds == (if h.CppHandler? then 120 else 30)
  {
  }

  /** The two variants judge by the same rule: when the child process behaves
      the same under both launchers, both report the same output. */
  lemma VariantsJudgeAlike(path: Path, test: StdinStdout, fs: FileSystem, machine: Machine)
    requires machine(CppHandler.RunInvocation(path, test.stdin), fs)
          == machine(PythonHandler.RunInvocation(path, test.stdin), fs)
    ensures CppHandler.Execute(path, test, fs, machine) == PythonHandler.Execute(path, test, fs, machine)
  {
  }

  /** Compiling under two oracles that differ only in timing leaves the same
      files and gives outputs that differ at most in the measured time. */
  lemma CompileIgnoresTiming(
    h: Handler, code: string, out: Path, scratch: Path, fs: FileSystem, m1: Machine, m2: Machine)
    requires SameBehaviour(m1, m2)
    ensures h.Compile(code, out, scratch, fs, m1).fs == h.Compile(code, out, scratch, fs, m2).fs
    ensures h.Compile(code, out, scratch, fs, m1).result.Ok? <==> h.Compile(code, out, scratch, fs, m2).result.Ok?
    ensures h.Compile(code, out, scratch, fs, m1).result.Ok? ==>
              h.Compile(code, out, scratch, fs, m1).result.value
                .SameExceptTime(h.Compile(code, out, scratch, fs, m2).result.value)
    ensures h.Compile(code, out, scratch, fs, m1).result.Err? ==>
              h.Compile(code, out, scratch, fs, m1).result == h.Compile(code, out, scratch, fs, m2).result
  {
    if h.CppHandler? {
      var staged := WriteFile(fs, scratch, Source(code));
      var inv := Cpp.CompilerInvocation(out, scratch);
      assert m1(inv, staged).result.SameExceptTime(m2(inv, staged).result) && m1(inv, staged).fs == m2(inv, staged).fs;
    }
  }

  /** Running a case under two oracles that differ only in timing leaves the
      same files and gives outputs that differ at most in the measured time. */
  lemma ExecuteIgnoresTiming(h: Handler, path: Path, test: StdinStdout, fs: FileSystem, m1: Machine, m2: Machine)
    requires SameBehaviour(m1, m2)
    ensures h.Execute(path, test, fs, m1).fs == h.Execute(path, test, fs, m2).fs
    ensures h.Execute(path, test, fs, m1).result.Ok? <==> h.Execute(path, test, fs, m2).result.Ok?
    ensures h.Execute(path, test, fs, m1).result.Ok? ==>
              h.Execute(path, test, fs, m1).result.value.SameExceptTime(h.Execute(path, test, fs, m2).result.value)
    ensures h.Execute(path, test, fs, m1).result.Err? ==>
              h.Execute(path, test, fs, m1).result == h.Execute(path, test, fs, m2).result
  {
    var inv := h.RunInvocation(path, test.stdin);
    assert m1(inv, fs).result.SameExceptTime(m2(inv, fs).result) && m1(inv, fs).fs == m2(inv, fs).fs;
    JudgeIgnoresTiming(m1(inv, fs).result, m2(inv, fs).result, test);
  }
}
