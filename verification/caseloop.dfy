/** The loop of `execute_code` that runs the test cases, for any way of
    running one case: each case is run in submission order against the files
    the previous cases left, a failed case does not stop the loop, and the
    first exception ends it and escapes. */
module CaseLoop {
  import opened Types
  import opened Process

  /** How one case is run against the current files: its output (or the
      exception that escaped) and the files afterwards. */
  type CaseRunner = (StdinStdout, FileSystem) -> Step

  /** The filesystem case `k` (counting from 0) runs against: `fs`, as each
      earlier case left it in turn. */
  function FsBefore(run: CaseRunner, cases: seq<StdinStdout>, fs: FileSystem, k: nat): FileSystem
    requires k <= |cases|
  {
    if k == 0 then fs else run(cases[k - 1], FsBefore(run, cases, fs, k - 1)).fs
  }

  /** Case `k` run against the files the earlier cases left. */
  function CaseRun(run: CaseRunner, cases: seq<StdinStdout>, fs: FileSystem, k: nat): Step
    requires k < |cases|
  {
    run(cases[k], FsBefore(run, cases, fs, k))
  }

  /** What the loop yields: the outputs, or the exception that escaped it,
      and the filesystem when it stops. */
  datatype Cases = Cases(result: Result<seq<Output>, string>, fs: FileSystem)

  /** The loop after its first `n` iterations: one output per iteration, or
      the first exception. */
  function RunCases(run: CaseRunner, cases: seq<StdinStdout>, fs: FileSystem, n: nat): (r: Cases)
    requires n <= |cases|
    ensures r.result.Ok? ==> |r.result.value| == n
  {
    if n == 0 then Cases(Ok([]), fs)
    else
      var before := RunCases(run, cases, fs, n - 1);
      match before.result
      case Err(_) => before
      case Ok(outs) =>
        var step := run(cases[n - 1], before.fs);
        match step.result
        case Err(e) => Cases(Err(e), step.fs)
        case Ok(o) => Cases(Ok(outs + [o]), step.fs)
  }

  /** When the loop finishes, output i is case i's run, every case having
      been run in order against the files the previous cases left, whatever
      those cases gave; the files are those the last case left. */
  lemma {:induction false} RunCasesOutputs(run: CaseRunner, cases: seq<StdinStdout>, fs: FileSystem, n: nat)
    requires n <= |cases|
    ensures var r := RunCases(run, cases, fs, n);
            r.result.Ok? ==>
              && (forall i :: 0 <= i < n ==> CaseRun(run, cases, fs, i).result == Ok(r.result.value[i]))
              && r.fs == FsBefore(run, cases, fs, n)
    decreases n
  {
    var r := RunCases(run, cases, fs, n);
    if n > 0 && r.result.Ok? {
      var before := RunCases(run, cases, fs, n - 1);
      RunCasesOutputs(run, cases, fs, n - 1);
      var step := run(cases[n - 1], before.fs);
      assert r.result.value == before.result.value + [step.result.value];
      forall i | 0 <= i < n - 1
        ensures CaseRun(run, cases, fs, i).result == Ok(r.result.value[i])
      {
        assert r.result.value[i] == before.result.value[i];
      }
    }
  }

  /** When the loop raises, it is with the exception of the first case that
      raised, every earlier case having completed, and with the files as the
      raising case left them. */
  lemma {:induction false} RunCasesRaised(run: CaseRunner, cases: seq<StdinStdout>, fs: FileSystem, n: nat)
    returns (k: nat)
    requires n <= |cases|
    requires RunCases(run, cases, fs, n).result.Err?
    ensures k < n
    ensures CaseRun(run, cases, fs, k).result == Err(RunCases(run, cases, fs, n).result.error)
    ensures RunCases(run, cases, fs, n).fs == FsBefore(run, cases, fs, k + 1)
    ensures forall j :: 0 <= j < k ==> CaseRun(run, cases, fs, j).result.Ok?
    decreases n
  {
    var before := RunCases(run, cases, fs, n - 1);
    if before.result.Err? {
      k := RunCasesRaised(run, cases, fs, n - 1);
    } else {
      RunCasesOutputs(run, cases, fs, n - 1);
      k := n - 1;
      forall j | 0 <= j < k
        ensures CaseRun(run, cases, fs, j).result.Ok?
      {
        assert CaseRun(run, cases, fs, j).result == Ok(before.result.value[j]);
      }
    }
  }

  /** The loop completes exactly when no case raises. */
  lemma RunCasesCompletes(run: CaseRunner, cases: seq<StdinStdout>, fs: FileSystem, n: nat)
    requires n <= |cases|
    ensures RunCases(run, cases, fs, n).result.Ok? <==>
              forall i :: 0 <= i < n ==> CaseRun(run, cases, fs, i).result.Ok?
  {
    RunCasesOutputs(run, cases, fs, n);
    if RunCases(run, cases, fs, n).result.Err? {
      var k := RunCasesRaised(run, cases, fs, n);
    }
  }

  /** Once a case has raised, the loop is over: further iterations change
      neither the exception nor the files. */
  lemma {:induction false} RaisedStaysRaised(run: CaseRunner, cases: seq<StdinStdout>, fs: FileSystem, k: nat, n: nat)
    requires k <= n <= |cases|
    requires RunCases(run, cases, fs, k).result.Err?
    ensures RunCases(run, cases, fs, n) == RunCases(run, cases, fs, k)
    decreases n
  {
    if n > k {
      RaisedStaysRaised(run, cases, fs, k, n - 1);
    }
  }

  /** Every case run keeps its writes inside `dir`. */
  ghost predicate RunsConfined(run: CaseRunner, dir: Path)
  {
    forall test, f :: SameOutside(run(test, f).fs, f, dir)
  }

  /** The loop changes nothing outside `dir` when no case run does. */
  lemma {:induction false} CasesStayInside(run: CaseRunner, cases: seq<StdinStdout>, fs: FileSystem, n: nat, dir: Path)
    requires n <= |cases|
    requires RunsConfined(run, dir)
    ensures SameOutside(RunCases(run, cases, fs, n).fs, fs, dir)
    decreases n
  {
    if n > 0 {
      var before := RunCases(run, cases, fs, n - 1);
      CasesStayInside(run, cases, fs, n - 1, dir);
      if before.result.Ok? {
        var step := run(cases[n - 1], before.fs);
        assert SameOutside(step.fs, before.fs, dir);
        SameOutsideChains(step.fs, before.fs, fs, dir);
      }
    }
  }

  /** Two ways of running a case that agree on everything but the clock. */
  ghost predicate SameRuns(run1: CaseRunner, run2: CaseRunner)
  {
    forall test, f ::
      run1(test, f).fs == run2(test, f).fs && SameStepResult(run1(test, f).result, run2(test, f).result)
  }

  /** Both steps raised the same exception, or both gave outputs that differ
      at most in the measured time. */
  predicate SameStepResult(a: Result<Output, string>, b: Result<Output, string>)
  {
    match a
    case Err(_) => a == b
    case Ok(o) => b.Ok? && o.SameExceptTime(b.value)
  }

  /** The loop under two case runners that differ only in timing leaves the
      same files, raises the same exception if any, and otherwise gives
      outputs that differ at most in the measured times. */
  lemma {:induction false} RunCasesIgnoresTiming(
    run1: CaseRunner, run2: CaseRunner, cases: seq<StdinStdout>, fs: FileSystem, n: nat)
    requires n <= |cases|
    requires SameRuns(run1, run2)
    ensures var r1, r2 := RunCases(run1, cases, fs, n), RunCases(run2, cases, fs, n);
            && r1.fs == r2.fs
            && (r1.result.Ok? <==> r2.result.Ok?)
            && (r1.result.Err? ==> r1.result == r2.result)
            && (r1.result.Ok? ==> forall i :: 0 <= i < n ==> r1.result.value[i].SameExceptTime(r2.result.value[i]))
    decreases n
  {
    if n > 0 {
      var b1, b2 := RunCases(run1, cases, fs, n - 1), RunCases(run2, cases, fs, n - 1);
      RunCasesIgnoresTiming(run1, run2, cases, fs, n - 1);
      if b1.result.Ok? {
        var s1, s2 := run1(cases[n - 1], b1.fs), run2(cases[n - 1], b2.fs);
        assert SameStepResult(s1.result, s2.result) && s1.fs == s2.fs;
        if s1.result.Ok? {
          var r1, r2 := RunCases(run1, cases, fs, n), RunCases(run2, cases, fs, n);
          assert r1.result.value == b1.result.value + [s1.result.value];
          assert r2.result.value == b2.result.value + [s2.result.value];
        }
      }
    }
  }
}
