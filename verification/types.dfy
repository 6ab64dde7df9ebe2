/** The request, outcome and response records shared by every stage of the
    judging pipeline, plus the small failure-carrying wrappers the model uses
    for values that may be missing and for exceptions that propagate. */
module Types {

  /** A filesystem path, as the text the program passes around. */
  type Path = string

  datatype Option<+T> = None | Some(value: T)

  /** Either a value or the reason an exception escaped the step. */
  datatype Result<+T, +E> = Ok(value: T) | Err(error: E)

  /** One test case: the text fed to the program's standard input and the
      text it is expected to print on standard output. */
  datatype StdinStdout = StdinStdout(stdin: string, stdout: string)

  /** One judging request: source code, its test cases in submission order,
      and the declared language name. */
  datatype CodeExecutionRequest = CodeExecutionRequest(code: string, stdinStdout: seq<StdinStdout>, language: string)

  /** The five-field record every compile step and every test-case run yields.
      `timeSeconds` is the wall-clock reading the step reports; the model takes
      it from the process oracle instead of a clock. */
  datatype Output = Output(passed: bool, stdout: string, stderr: string, timeSeconds: real, timedOut: bool)
  {
    /** Equal in every field except the measured time. */
    predicate SameExceptTime(other: Output)
    {
      && passed == other.passed
      && stdout == other.stdout
      && stderr == other.stderr
      && timedOut == other.timedOut
    }
  }

  /** The verdict for a whole request: the compile output, one output per
      executed case in submission order, and the aggregate flag. */
  datatype CodeExecutionResponse =
    CodeExecutionResponse(compileOutput: Output, execOutputs: seq<Output>, allPassed: bool)
  {
    /** Equal in every output field except the measured times. */
    predicate SameExceptTime(other: CodeExecutionResponse)
    {
      && compileOutput.SameExceptTime(other.compileOutput)
      && |execOutputs| == |other.execOutputs|
      && (forall i :: 0 <= i < |execOutputs| ==> execOutputs[i].SameExceptTime(other.execOutputs[i]))
      && allPassed == other.allPassed
    }
  }
}
