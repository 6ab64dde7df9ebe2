/** The compiled variant (C++): `compile` writes the source to a temporary
    file, runs the toolchain on it and always removes the temporary file;
    `execute` runs the built executable directly. */
module Cpp {
  import opened Types
  import opened Process

  const LanguageId: string := "cpp"
  const CompileTimeoutSeconds: nat := 60
  const RunTimeoutSeconds: nat := 120
  const CompileTimeoutMessage: string := "Compilation timed out"

  /** `g++ -std=c++20 -o <out> <src>`, with no input, under the compile budget. */
  function CompilerInvocation(out: Path, src: Path): Invocation
  {
    Invocation(["g++", "-std=c++20", "-o", out, src], None, CompileTimeoutSeconds)
  }

  /** `<path>` alone, fed the case's input, under the run budget. */
  function RunInvocation(path: Path, stdin: string): Invocation
  {
    Invocation([path], Some(stdin), RunTimeoutSeconds)
  }

  /** The toolchain's argument vector and both time budgets. */
  lemma InvocationsFixed(out: Path, src: Path, path: Path, stdin: string)
    ensures CompilerInvocation(out, src).argv == ["g++", "-std=c++20", "-o", out, src]
    ensures CompilerInvocation(out, src).timeoutSeconds == 60
    ensures RunInvocation(path, stdin).argv == [path]
    ensures RunInvocation(path, stdin).input == Some(stdin)
    ensures RunInvocation(path, stdin).timeoutSeconds == 120
  {
  }

  /** Classifies what the toolchain did. Compilation passes exactly when the
      toolchain exited with code 0; its diagnostics are kept verbatim on a
      non-zero exit, a timeout is reported with a fixed message, and any other
      exception propagates. The compile output never carries standard output. */
  function CompileVerdict(p: ProcessResult): (r: Result<Output, string>)
    ensures r.Err? <==> p.Raised?
    ensures p.Raised? ==> r.error == p.reason
    ensures r.Ok? ==> r.value.stdout == ""
    ensures r.Ok? ==> (r.value.passed <==> p.Exited? && p.returnCode == 0)
    ensures r.Ok? ==> (r.value.timedOut <==> p.TimedOut?)
    ensures r.Ok? ==> r.value.timeSeconds == p.elapsed
    ensures p.Exited? && p.returnCode != 0 ==> r.value.stderr == p.stderr
    ensures p.Exited? && p.returnCode == 0 ==> r.value.stderr == ""
    ensures p.TimedOut? ==> r.value.stderr == CompileTimeoutMessage
  {
    match p
    case Exited(code, _, err, t) =>
      if code != 0 then Ok(Output(false, "", err, t, false))
      else Ok(Output(true, "", "", t, false))
    case TimedOut(t) => Ok(Output(false, "", CompileTimeoutMessage, t, true))
    case Raised(reason) => Err(reason)
  }

  /** The toolchain run of a compile: `g++` on the temporary file `scratch`,
      which holds the code. */
  function CompilerRun(code: string, out: Path, scratch: Path, fs: FileSystem, machine: Machine): ChildRun
  {
    machine(CompilerInvocation(out, scratch), WriteFile(fs, scratch, Source(code)))
  }

  /** `CppHandler.compile(code, out)`, with the fresh temporary file name
      `scratch` and the toolchain's behaviour `machine` as parameters. The
      toolchain sees the code in the temporary file; its verdict decides the
      output; on success the executable built from the code sits at `out`;
      once staged, the temporary file is removed on every path the toolchain
      call can take (exit, timeout, escaping exception); every other file and
      every directory is as the toolchain left it. Staging the source is
      taken to succeed. */
  function Compile(code: string, out: Path, scratch: Path, fs: FileSystem, machine: Machine): (s: Step)
    ensures s.result == CompileVerdict(CompilerRun(code, out, scratch, fs, machine).result)
    ensures scratch !in s.fs.files
    ensures s.fs.dirs == CompilerRun(code, out, scratch, fs, machine).fs.dirs
    ensures var after := CompilerRun(code, out, scratch, fs, machine).fs;
            forall q :: q != scratch && q != out ==> (q in s.fs.files <==> q in after.files)
    ensures var after := CompilerRun(code, out, scratch, fs, machine).fs;
            forall q :: q != scratch && q != out && q in after.files ==> s.fs.files[q] == after.files[q]
    ensures out != scratch && s.result.Ok? && s.result.value.passed ==>
              out in s.fs.files && s.fs.files[out] == Executable(code)
    ensures var after := CompilerRun(code, out, scratch, fs, machine).fs;
            out != scratch && !(s.result.Ok? && s.result.value.passed) ==>
              && (out in s.fs.files <==> out in after.files)
              && (out in after.files ==> s.fs.files[out] == after.files[out])
  {
    var c := CompilerRun(code, out, scratch, fs, machine);
    var built := if c.result.Exited? && c.result.returnCode == 0 then WriteFile(c.fs, out, Executable(code)) else c.fs;
    Step(CompileVerdict(c.result), Unlink(built, scratch))
  }
}
