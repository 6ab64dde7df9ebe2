/** The interpreted variant (Python): `compile` only materialises the script
    at the artifact path and always succeeds; `execute` hands the script to the
    interpreter. Syntax errors therefore surface only when a case runs. */
module Python {
  import opened Types
  import opened Process

  const LanguageId: string := "python"
  const RunTimeoutSeconds: nat := 30

  /** `python3 <path>`, fed the case's input, under the run budget. */
  function RunInvocation(path: Path, stdin: string): Invocation
  {
    Invocation(["python3", path], Some(stdin), RunTimeoutSeconds)
  }

  /** The interpreter's argument vector and the run budget. */
  lemma InvocationFixed(path: Path, stdin: string)
    ensures RunInvocation(path, stdin).argv == ["python3", path]
    ensures RunInvocation(path, stdin).input == Some(stdin)
    ensures RunInvocation(path, stdin).timeoutSeconds == 30
  {
  }

  /** `PythonHandler.compile(code, out)`: afterwards `out` holds exactly the
      submitted code, nothing else changes, and the step passes with empty
      streams, zero time and no timeout, whatever the code is. Writing the
      script is taken to succeed. */
  function Compile(code: string, out: Path, fs: FileSystem): (s: Step)
    ensures s.result.Ok?
    ensures s.result.value.passed && !s.result.value.timedOut
    ensures s.result.value.stdout == "" && s.result.value.stderr == ""
    ensures s.result.value.timeSeconds == 0.0
    ensures out in s.fs.files && s.fs.files[out] == Source(code)
    ensures s.fs.dirs == fs.dirs
    ensures forall q :: q != out ==> (q in s.fs.files <==> q in fs.files)
    ensures forall q :: q != out && q in fs.files ==> s.fs.files[q] == fs.files[q]
  {
    Step(Ok(Output(true, "", "", 0.0, false)), WriteFile(fs, out, Source(code)))
  }

  /** The compile verdict does not depend on the code: a script with a syntax
      error compiles exactly as a correct one does. */
  lemma CompileIgnoresCode(code1: string, code2: string, out: Path, fs: FileSystem)
    ensures Compile(code1, out, fs).result == Compile(code2, out, fs).result
  {
  }
}
