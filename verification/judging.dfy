/** The rule both handlers use to judge one test-case run: the run passes
    exactly when its standard output, stripped of surrounding whitespace,
    equals the expected output stripped the same way. The exit code plays no
    part, and a timeout yields fixed sentinel texts. */
module Judging {
  import opened Types
  import opened Text
  import opened Process

  /** The text reported on both streams when a run is killed by the timeout. */
  const TimeoutSentinel: string := "Error: Timed out"

  /** Turns what the child process did into the run's `Output`; an exception
      other than the timeout propagates. */
  function JudgeRun(p: ProcessResult, test: StdinStdout): (r: Result<Output, string>)
    ensures r.Err? <==> p.Raised?
    ensures p.Raised? ==> r.error == p.reason
    ensures r.Ok? ==> (r.value.timedOut <==> p.TimedOut?)
    ensures p.Exited? ==> r.value.passed == (Strip(p.stdout) == Strip(test.stdout))
    ensures p.Exited? ==> r.value.stdout == p.stdout && r.value.stderr == p.stderr
    ensures p.TimedOut? ==> !r.value.passed && r.value.stdout == TimeoutSentinel && r.value.stderr == TimeoutSentinel
    ensures r.Ok? && !p.Raised? ==> r.value.timeSeconds == p.elapsed
  {
    match p
    case Exited(_, out, err, t) => Ok(Output(Strip(out) == Strip(test.stdout), out, err, t, false))
    case TimedOut(t) => Ok(Output(false, TimeoutSentinel, TimeoutSentinel, t, true))
    case Raised(reason) => Err(reason)
  }

  /** A completed run passes exactly when its output is the expected text's
      stripped core with only whitespace around it. */
  lemma PassedIffOutputIsPaddedExpected(p: ProcessResult, test: StdinStdout)
    requires p.Exited?
    ensures JudgeRun(p, test).value.passed <==> IsStripOf(p.stdout, Strip(test.stdout))
  {
    StripCharacterization(p.stdout, Strip(test.stdout));
  }

  /** The exit code never decides a verdict: two completed runs that printed
      the same texts are judged alike, whatever their return codes. */
  lemma ExitCodeIgnored(code1: int, code2: int, out: string, err: string, t: real, test: StdinStdout)
    ensures JudgeRun(Exited(code1, out, err, t), test) == JudgeRun(Exited(code2, out, err, t), test)
  {
  }

  /** Whitespace around either the actual or the expected output never
      changes whether a completed run passes. */
  lemma PaddingTolerated(code: int, out: string, err: string, t: real, test: StdinStdout,
                         a: string, b: string, c: string, d: string)
    requires AllSpace(a) && AllSpace(b) && AllSpace(c) && AllSpace(d)
    ensures JudgeRun(Exited(code, a + out + b, err, t), StdinStdout(test.stdin, c + test.stdout + d)).value.passed
        == JudgeRun(Exited(code, out, err, t), test).value.passed
  {
    StripIgnoresPadding(a, out, b);
    StripIgnoresPadding(c, test.stdout, d);
  }

  /** A passing run never timed out, and a timed-out run never passes. */
  lemma PassedExcludesTimeout(p: ProcessResult, test: StdinStdout)
    requires JudgeRun(p, test).Ok?
    ensures !(JudgeRun(p, test).value.passed && JudgeRun(p, test).value.timedOut)
  {
  }

  /** Runs that behaved alike give outputs that differ at most in the
      measured time. */
  lemma JudgeIgnoresTiming(p1: ProcessResult, p2: ProcessResult, test: StdinStdout)
    requires p1.SameExceptTime(p2)
    ensures JudgeRun(p1, test).Ok? <==> JudgeRun(p2, test).Ok?
    ensures JudgeRun(p1, test).Ok? ==> JudgeRun(p1, test).value.SameExceptTime(JudgeRun(p2, test).value)
    ensures JudgeRun(p1, test).Err? ==> JudgeRun(p1, test) == JudgeRun(p2, test)
  {
  }
}
