/**
 * ProcessExecutionException: what a failed external process raises. Other
 * operations in this model throw it as a `Failure` value; the class is the
 * exception object itself, whose output, host and abort flag may be set
 * after construction.
 */
module ProcessFailure {
  import opened Wrappers
  import opened Faults

  const NO_OUTPUT: seq<string> := ["No output captured"]
  const UNKNOWN_HOST: string := "unknown"

  /** The state of one exception object. */
  datatype Failure = Failure(
    exitValue: int,
    message: Option<string>,
    errorMessage: Option<string>,
    processOutput: seq<string>,
    host: string,
    causesAbort: bool)

  /**
   * A freshly constructed exception: the exit value and message given, no
   * captured output, an unknown host, no error message and no abort request.
   */
  function Raised(exitValue: int, message: Option<string>): (f: Failure)
    ensures f.exitValue == exitValue && f.message == message
    ensures f.processOutput == NO_OUTPUT && f.host == UNKNOWN_HOST
    ensures f.errorMessage.None? && !f.causesAbort
  {
    Failure(exitValue, message, None, NO_OUTPUT, UNKNOWN_HOST, false)
  }

  /** The only constructor that also records an error message. */
  function RaisedWithError(exitValue: int, message: string, errorMessage: string): (f: Failure)
    ensures f.exitValue == exitValue && f.message == Some(message) && f.errorMessage == Some(errorMessage)
    ensures f.processOutput == NO_OUTPUT && f.host == UNKNOWN_HOST && !f.causesAbort
  {
    Failure(exitValue, Some(message), Some(errorMessage), NO_OUTPUT, UNKNOWN_HOST, false)
  }

  /**
   * What an operation that declares `throws ProcessExecutionException,
   * InterruptedException` can end with instead of a value: an unchecked
   * exception, a ProcessExecutionException in the given state, an
   * InterruptedException, or a ConanParameterException.
   */
  datatype Thrown =
    | Runtime(fault: Fault)
    | ProcessError(failure: Failure)
    | Interrupted
    | BadParameter

  class ProcessExecutionException {
    const exitValue: int
    const message: Option<string>
    const errorMessage: Option<string>
    var processOutput: seq<string>
    var host: string
    var causesAbort: bool

    function Value(): Failure
      reads this
    {
      Failure(exitValue, message, errorMessage, processOutput, host, causesAbort)
    }

    /** `ProcessExecutionException(int)` */
    constructor (exitValue: int)
      ensures Value() == Raised(exitValue, None)
    {
      this.exitValue := exitValue;
      this.message := None;
      this.errorMessage := None;
      this.processOutput := NO_OUTPUT;
      this.host := UNKNOWN_HOST;
      this.causesAbort := false;
    }

    /** `ProcessExecutionException(int, String)`; the constructors that take a cause behave alike. */
    constructor WithMessage(exitValue: int, message: string)
      ensures Value() == Raised(exitValue, Some(message))
    {
      this.exitValue := exitValue;
      this.message := Some(message);
      this.errorMessage := None;
      this.processOutput := NO_OUTPUT;
      this.host := UNKNOWN_HOST;
      this.causesAbort := false;
    }

    /** `ProcessExecutionException(int, String, String)` */
    constructor WithErrorMessage(exitValue: int, message: string, errorMessage: string)
      ensures Value() == RaisedWithError(exitValue, message, errorMessage)
    {
      this.exitValue := exitValue;
      this.message := Some(message);
      this.errorMessage := Some(errorMessage);
      this.processOutput := NO_OUTPUT;
      this.host := UNKNOWN_HOST;
      this.causesAbort := false;
    }

    method SetProcessOutput(output: seq<string>)
      modifies this
      ensures Value() == old(Value()).(processOutput := output)
    {
      processOutput := output;
    }

    method SetProcessExecutionHost(h: string)
      modifies this
      ensures Value() == old(Value()).(host := h)
    {
      host := h;
    }

    /** Marks the exception as one that aborts the task; nothing clears the flag again. */
    method SetExceptionCausesAbort()
      modifies this
      ensures Value() == old(Value()).(causesAbort := true)
    {
      causesAbort := true;
    }
  }
}
