/**
 * Local: the locality that runs commands on this machine's shell. It keeps
 * no state. Running a command, watching a monitor file and waiting for a
 * scheduled job are done by collaborators outside this model; what they
 * answer is given as a `Host`.
 */
module LocalLocality {
  import opened Wrappers
  import opened Faults
  import opened JavaText
  import opened Usage
  import opened SchedulerArguments
  import opened SchedulerCommon
  import opened Schedulers
  import opened ProcessFailure
  import opened ExecutionResults

  const DESCRIPTION: string := "localhost"

  /** `establishConnection()`: there is nothing to connect to. */
  const CONNECTS: bool := true

  /** `disconnect()`: there is nothing to disconnect from. */
  const DISCONNECTS: bool := true

  /** What `ProcessRunner.runCommmand` does with one command line. */
  datatype RunOutcome =
    | Output(lines: seq<string>)                              // the command's output lines
    | CommandFailed(exitCode: int, errorOutput: seq<string>)  // a CommandExecutionException
    | ReadFailed                                              // an IOException reading its output

  /** What the listener of one job-array member reports. */
  datatype SubJob =
    | Finished(exitCode: int)  // the member's exit value
    | Failed                   // its future threw an ExecutionException
    | Lost                     // its callable was interrupted and returned null

  /** The process adapter of a job that is not an array. */
  datatype Adapter = Adapter(
    exit: Option<int>,          // the listener's exit value; None when the wait is interrupted
    output: seq<string>,
    file: Option<string>,
    host: string)

  /** What monitoring a scheduled job answers. */
  datatype Monitor = Monitor(
    created: bool,                          // every adapter's `createMonitor` succeeded (false: an IOException)
    subJobs: int -> SubJob,                 // how the member with each array index ends
    single: Adapter,
    usage: Option<Option<ResourceUsage>>)   // `getResourceUsageFromMonitorFile`; None for an IOException

  /** The machine a Local locality runs on. */
  datatype Host = Host(
    shell: string -> RunOutcome,
    hostName: Option<string>,   // `InetAddress.getLocalHost().getHostName()`; None for UnknownHostException
    monitor: Monitor)

  const READ_FAILED: string := "Failed to read output stream of native system proc"

  function ExecuteFailed(exitCode: int): string
  {
    "Failed to execute job (exited with exit code: " + IntToString(exitCode) + ")"
  }

  function NonZeroExit(exitCode: int): string
  {
    "Process returned non-zero exit code: " + IntToString(exitCode)
  }

  /** `copy()`: a new Local, which is indistinguishable from this one. */
  function Copy(): (l: string)
    ensures l == DESCRIPTION
  {
    "localhost"
  }

  // ---------------------------------------------------------------------------
  // execute / dispatch

  /** The job id: -1 unless the scheduler reads one from the first output line. */
  function JobIdOf(s: Option<SchedulerView>, lines: seq<string>): Result<int, Fault>
  {
    if s.None? || !s.value.behaviour.generatesJobIdFromOutput then Ok(-1)
    else if |lines| == 0 then Err(IndexOutOfBounds)
    else s.value.behaviour.extractJobIdFromOutput(lines[0])
  }

  /** The output file: the scheduler args' monitor file, when there are args and they name one. */
  function OutputFileOf(s: Option<SchedulerView>): Option<string>
  {
    if s.Some? && s.value.settings.Some? && s.value.settings.value.monitorFile.Some?
    then s.value.settings.value.monitorFile
    else None
  }

  /**
   * `execute(processName, command, scheduler)`: runs the command in the
   * foreground. A failed command is a ProcessExecutionException with its
   * exit code, error output and this machine's name; a failed read is one
   * with exit value 1. Otherwise the result has exit code 0, the output
   * lines, the job id the scheduler reads from them and its monitor file.
   */
  function Execute(processName: Option<string>, command: string, s: Option<SchedulerView>, h: Host): (r: Result<Execution, Thrown>)
    ensures r.Ok? <==> h.shell(command).Output? && JobIdOf(s, h.shell(command).lines).Ok?
    ensures r.Ok? ==> r.value.exitCode == 0 && r.value.name == processName && r.value.usage.None?
    ensures r.Ok? ==> r.value.output == h.shell(command).lines
    ensures r.Ok? && s.Some? && s.value.behaviour.generatesJobIdFromOutput ==>
              |h.shell(command).lines| > 0
              && s.value.behaviour.extractJobIdFromOutput(h.shell(command).lines[0]) == Ok(r.value.jobId)
    ensures r.Ok? && !(s.Some? && s.value.behaviour.generatesJobIdFromOutput) ==> r.value.jobId == -1
    ensures h.shell(command).Output? && JobIdOf(s, h.shell(command).lines).Err? ==>
              r == Err(Runtime(JobIdOf(s, h.shell(command).lines).error))
    ensures r.Ok? ==> (r.value.outputFile.Some? <==>
                         s.Some? && s.value.settings.Some? && s.value.settings.value.monitorFile.Some?)
    ensures r.Ok? && r.value.outputFile.Some? ==> r.value.outputFile == s.value.settings.value.monitorFile
    ensures h.shell(command).CommandFailed? ==>
              var f := h.shell(command);
              r == Err(ProcessError(Raised(f.exitCode, Some(ExecuteFailed(f.exitCode)))
                                      .(processOutput := f.errorOutput, host := h.hostName.UnwrapOr(UNKNOWN_HOST))))
    ensures h.shell(command).ReadFailed? ==> r == Err(ProcessError(Raised(1, Some(READ_FAILED))))
  {
    match h.shell(command)
    case CommandFailed(code, errorOutput) =>
      Err(ProcessError(Raised(code, Some(ExecuteFailed(code)))
                         .(processOutput := errorOutput, host := h.hostName.UnwrapOr(UNKNOWN_HOST))))
    case ReadFailed =>
      Err(ProcessError(Raised(1, Some(READ_FAILED))))
    case Output(lines) =>
      match JobIdOf(s, lines)
      case Err(f) => Err(Runtime(f))
      case Ok(jobId) => Ok(Execution(processName, 0, lines, OutputFileOf(s), jobId, None))
  }

  /** `dispatch`: for now the same as a foreground `execute`. */
  function Dispatch(processName: Option<string>, command: string, s: Option<SchedulerView>, h: Host): (r: Result<Execution, Thrown>)
    ensures r == Execute(processName, command, s, h)
  {
    Execute(processName, command, s, h)
  }

  // ---------------------------------------------------------------------------
  // waitFor

  /**
   * `waitFor(processName, adapter, listener)`: a job whose listener reports
   * exit value 0 gives a result with the adapter's output and file; any
   * other exit value is a ProcessExecutionException carrying that value, the
   * adapter's output and the host it ran on.
   */
  function WaitFor(processName: Option<string>, a: Adapter): (r: Result<Execution, Thrown>)
    ensures r.Ok? <==> a.exit == Some(0)
    ensures r.Ok? ==> r.value == Execution(processName, 0, a.output, a.file, -1, None)
    ensures a.exit.None? ==> r == Err(Interrupted)
    ensures a.exit.Some? && a.exit.value != 0 ==>
              r.Err? && r.error.ProcessError? && r.error.failure.exitValue == a.exit.value
              && r.error.failure.processOutput == a.output && r.error.failure.host == a.host
  {
    match a.exit
    case None => Err(Interrupted)
    case Some(v) =>
      if v == 0 then Ok(Execution(processName, v, a.output, a.file, -1, None))
      else Err(ProcessError(Raised(v, None).(processOutput := a.output, host := a.host)))
  }

  // ---------------------------------------------------------------------------
  // The indices of a job array

  /**
   * The stepped loop over a job array ends without the index overflowing an
   * int: either it does not start, or the step is positive and one step past
   * the maximum still fits.
   */
  predicate Enumerable(a: JobArrayArgs)
  {
    a.minIndex > a.maxIndex || (a.stepIndex > 0 && a.maxIndex + a.stepIndex <= INT_MAX)
  }

  /** `min, min + step, ...` while at most `max`. */
  function ArrayIndices(min: int, max: int, step: int): seq<int>
    requires min > max || step > 0
    decreases if min > max then 0 else max - min + 1
  {
    if min > max then [] else [min] + ArrayIndices(min + step, max, step)
  }

  /** The `i`-th index is `min + i * step`, and none passes `max`. */
  lemma {:induction false} ArrayIndicesAt(min: int, max: int, step: int, i: int)
    requires step > 0 && 0 <= i < |ArrayIndices(min, max, step)|
    ensures ArrayIndices(min, max, step)[i] == min + i * step <= max
    decreases i
  {
    if i > 0 {
      ArrayIndicesAt(min + step, max, step, i - 1);
      assert (i - 1) * step + step == i * step;
    }
  }

  /** The indices increase strictly. */
  lemma ArrayIndicesIncreasing(min: int, max: int, step: int, i: int, j: int)
    requires step > 0 && 0 <= i < j < |ArrayIndices(min, max, step)|
    ensures ArrayIndices(min, max, step)[i] < ArrayIndices(min, max, step)[j]
  {
    ArrayIndicesAt(min, max, step, i);
    ArrayIndicesAt(min, max, step, j);
    StepsApart(i, j, step);
  }

  lemma StepsApart(i: int, j: int, step: int)
    requires i < j && step > 0
    ensures i * step < j * step
  {
    var k := j - i;
    assert j * step == i * step + k * step;
    assert k * step == (k - 1) * step + step;
    assert (k - 1) * step >= 0;
  }

  /** Every number from `min` to `max` that is a whole number of steps above `min` is an index. */
  lemma {:induction false} ArrayIndicesComplete(min: int, max: int, step: int, k: int)
    requires step > 0 && min <= k <= max && (k - min) % step == 0
    ensures k in ArrayIndices(min, max, step)
    decreases k - min
  {
    var rest := ArrayIndices(min + step, max, step);
    assert ArrayIndices(min, max, step) == [min] + rest;
    if k != min {
      DivisibleAtLeast(k - min, step);
      assert (k - (min + step)) % step == 0 by {
        assert k - (min + step) == (k - min) - step;
        DivMinusOne(k - min, step);
      }
      ArrayIndicesComplete(min + step, max, step, k);
    }
  }

  lemma DivisibleAtLeast(n: int, d: int)
    requires n > 0 && d > 0 && n % d == 0
    ensures n >= d
  {
    var q := n / d;
    assert n == q * d;
    assert q >= 1;
    assert q * d >= 1 * d;
  }

  /** The number of indices: one more than the whole steps that fit between `min` and `max`. */
  lemma {:induction false} ArrayIndicesCount(min: int, max: int, step: int)
    requires step > 0
    ensures |ArrayIndices(min, max, step)| == if min > max then 0 else (max - min) / step + 1
    decreases if min > max then 0 else max - min + 1
  {
    if min <= max {
      ArrayIndicesCount(min + step, max, step);
      if min + step <= max {
        assert (max - (min + step)) / step == (max - min) / step - 1 by {
          assert max - (min + step) == (max - min) - step;
          DivMinusOne(max - min, step);
        }
      } else {
        assert (max - min) / step == 0;
      }
    }
  }

  lemma DivMinusOne(n: int, d: int)
    requires d > 0 && n >= d
    ensures (n - d) / d == n / d - 1 && (n - d) % d == n % d
  {
    var q, r := n / d, n % d;
    assert n == q * d + r && 0 <= r < d;
    assert n - d == (q - 1) * d + r;
    DivUnique(n - d, d, q - 1, r);
  }

  /** The quotient is the one multiple that leaves a remainder below the divisor. */
  lemma DivUnique(a: int, d: int, x: int, r: int)
    requires d > 0 && a == x * d + r && 0 <= r < d
    ensures a / d == x && a % d == r
  {
    var q, s := a / d, a % d;
    assert a == q * d + s && 0 <= s < d;
    assert (q - x) * d == r - s;
    if q - x >= 1 {
      assert false;
    } else if q - x <= -1 {
      assert false;
    }
  }

  /**
   * The index of the adapter loop after `n` turns as Java's `int`
   * arithmetic computes it: each turn adds the step and wraps around.
   */
  function LoopIndex(min: int, step: int, n: nat): (i: int)
    ensures n > 0 ==> INT_MIN <= i <= INT_MAX
  {
    if n == 0 then min else Wrap32(LoopIndex(min, step, n - 1) + step)
  }

  /**
   * As written, the loop that creates the adapters of a job array never
   * ends when the step is 0 or the maximum is `Integer.MAX_VALUE`: its test
   * `i <= max` holds after every turn.
   */
  lemma {:induction false} AdapterLoopEndless(min: int, max: int, step: int, n: nat)
    requires INT_MIN <= min <= max <= INT_MAX
    requires step == 0 || max == INT_MAX
    ensures LoopIndex(min, step, n) <= max
  {
    if n > 0 {
      AdapterLoopEndless(min, max, step, n - 1);
    }
  }

  /** As written, a step past `Integer.MAX_VALUE` wraps the index round to a negative one, which passes the test again. */
  lemma AdapterLoopWraps()
    ensures LoopIndex(INT_MAX - 1, 2, 1) == INT_MIN <= INT_MAX - 1
  {
  }

  /** The adapter loop: one index for each `i = min; i <= max; i += step`, in order. */
  method AdapterIndices(a: JobArrayArgs) returns (indices: seq<int>)
    requires Enumerable(a)
    ensures indices == ArrayIndices(a.minIndex, a.maxIndex, a.stepIndex)
  {
    indices := [];
    var i := a.minIndex;
    while i <= a.maxIndex
      invariant a.minIndex <= i || a.minIndex > a.maxIndex
      invariant i > a.maxIndex ==> i <= a.maxIndex + a.stepIndex || i == a.minIndex
      invariant a.minIndex <= a.maxIndex ==> a.stepIndex > 0
      invariant indices + ArrayIndices(i, a.maxIndex, a.stepIndex) == ArrayIndices(a.minIndex, a.maxIndex, a.stepIndex)
      decreases a.maxIndex - i
    {
      assert ArrayIndices(i, a.maxIndex, a.stepIndex) == [i] + ArrayIndices(i + a.stepIndex, a.maxIndex, a.stepIndex);
      indices := indices + [i];
      i := i + a.stepIndex;
    }
  }

  // ---------------------------------------------------------------------------
  // The exit code of a job array

  /** The running `exitCode` and `errorCount` of the aggregation loop. */
  datatype Tally = Tally(exitCode: int, errorCount: nat)

  /**
   * The aggregation loop from `acc` on: a member that exits non-zero sets
   * the code to 1, one that threw sets it to 2, and both count as errors; a
   * member whose result is null is a NullPointerException.
   */
  function Aggregate(acc: Tally, outcomes: seq<SubJob>): Result<Tally, Fault>
    decreases |outcomes|
  {
    if |outcomes| == 0 then Ok(acc)
    else match outcomes[0]
      case Lost => Err(NullPointer)
      case Failed => Aggregate(Tally(2, acc.errorCount + 1), outcomes[1..])
      case Finished(c) =>
        if c != 0 then Aggregate(Tally(1, acc.errorCount + 1), outcomes[1..])
        else Aggregate(acc, outcomes[1..])
  }

  /** A member that did not finish with exit value 0. */
  predicate Unsuccessful(o: SubJob) { o != Finished(0) }

  /** How many members did not finish with exit value 0. */
  function Failures(outcomes: seq<SubJob>): (n: nat)
    ensures n <= |outcomes|
  {
    if |outcomes| == 0 then 0
    else (if Unsuccessful(outcomes[0]) then 1 else 0) + Failures(outcomes[1..])
  }

  /**
   * The aggregation succeeds iff no member was lost; it then counts every
   * unsuccessful member, and its exit code is 0 iff there was none (and it
   * started at 0). The code is always 0, 1 or 2.
   */
  lemma {:induction false} AggregateCounts(acc: Tally, outcomes: seq<SubJob>)
    requires acc.exitCode in {0, 1, 2}
    ensures var r := Aggregate(acc, outcomes);
      (r.Ok? <==> Lost !in outcomes)
      && (r.Err? ==> r.error == NullPointer)
      && (r.Ok? ==> r.value.errorCount == acc.errorCount + Failures(outcomes)
                    && (r.value.exitCode == 0 <==> acc.exitCode == 0 && Failures(outcomes) == 0)
                    && r.value.exitCode in {0, 1, 2})
    decreases |outcomes|
  {
    if |outcomes| > 0 {
      assert outcomes == [outcomes[0]] + outcomes[1..];
      match outcomes[0]
      case Lost =>
      case Failed =>
        AggregateCounts(Tally(2, acc.errorCount + 1), outcomes[1..]);
      case Finished(c) =>
        if c != 0 {
          AggregateCounts(Tally(1, acc.errorCount + 1), outcomes[1..]);
        } else {
          AggregateCounts(acc, outcomes[1..]);
        }
    }
  }

  /** The failures are the members other than the ones that finished with 0. */
  lemma {:induction false} FailuresByMultiset(outcomes: seq<SubJob>)
    ensures Failures(outcomes) == |outcomes| - multiset(outcomes)[Finished(0)]
    decreases |outcomes|
  {
    if |outcomes| > 0 {
      FailuresByMultiset(outcomes[1..]);
      assert outcomes == [outcomes[0]] + outcomes[1..];
      assert multiset(outcomes) == multiset([outcomes[0]]) + multiset(outcomes[1..]);
    }
  }

  /**
   * The members are really visited in the order of a HashSet of futures.
   * Whatever that order is, whether the aggregation throws, the error count
   * and whether the exit code is 0 stay the same.
   */
  lemma AggregateAnyOrder(xs: seq<SubJob>, ys: seq<SubJob>)
    requires multiset(xs) == multiset(ys)
    ensures Aggregate(Tally(0, 0), xs).Ok? <==> Aggregate(Tally(0, 0), ys).Ok?
    ensures Aggregate(Tally(0, 0), xs).Ok? ==>
              Aggregate(Tally(0, 0), xs).value.errorCount == Aggregate(Tally(0, 0), ys).value.errorCount
              && (Aggregate(Tally(0, 0), xs).value.exitCode == 0 <==> Aggregate(Tally(0, 0), ys).value.exitCode == 0)
  {
    AggregateCounts(Tally(0, 0), xs);
    AggregateCounts(Tally(0, 0), ys);
    FailuresByMultiset(xs);
    FailuresByMultiset(ys);
    assert |xs| == |multiset(xs)| == |multiset(ys)| == |ys|;
    assert Lost in xs <==> Lost in multiset(xs);
    assert Lost in ys <==> Lost in multiset(ys);
  }

  /** The aggregation loop itself; it stops at the first lost member. */
  method AggregateArray(outcomes: seq<SubJob>) returns (r: Result<Tally, Fault>)
    ensures r == Aggregate(Tally(0, 0), outcomes)
  {
    var exitCode := 0;
    var errorCount: nat := 0;
    for i := 0 to |outcomes|
      invariant Aggregate(Tally(exitCode, errorCount), outcomes[i..]) == Aggregate(Tally(0, 0), outcomes)
    {
      assert outcomes[i..][1..] == outcomes[i + 1..];
      match outcomes[i]
      case Lost =>
        return Err(NullPointer);
      case Failed =>
        exitCode := 2;
        errorCount := errorCount + 1;
      case Finished(c) =>
        if c != 0 {
          exitCode := 1;
          errorCount := errorCount + 1;
        }
    }
    r := Ok(Tally(exitCode, errorCount));
  }

  const ARRAY_SUCCESS: string := "All jobs in array completed successfully."

  /** The one-line output of a job array's result. */
  function ArrayMessage(t: Tally, size: nat): (m: seq<string>)
    ensures |m| == 1
    ensures t.exitCode == 0 ==> m == [ARRAY_SUCCESS]
  {
    if t.exitCode != 0 then
      ["Job Array Error: " + IntToString(t.errorCount) + " out of " + IntToString(size) + " jobs failed in the array."]
    else [ARRAY_SUCCESS]
  }

  // ---------------------------------------------------------------------------
  // monitoredExecute

  /** The job-array args a monitored execution enumerates, if any. */
  function ArrayArgsOf(s: SchedulerView): Option<JobArrayArgs>
  {
    if s.settings.Some? then s.settings.value.jobArrayArgs else None
  }

  /** Every job array a monitored execution would enumerate can be enumerated. */
  predicate MonitorReady(s: Option<SchedulerView>)
  {
    s.None? || !s.value.behaviour.usesFileMonitor || s.value.settings.None?
    || s.value.settings.value.jobArrayArgs.None? || Enumerable(s.value.settings.value.jobArrayArgs.value)
  }

  /** The IOException the monitored execution turns into a ProcessExecutionException. */
  const IO_FAILURE: Thrown := ProcessError(Raised(-1, None))

  /** The outcomes of the array members, in index order. */
  function SubJobs(indices: seq<int>, m: Monitor): (r: seq<SubJob>)
    ensures |r| == |indices|
    ensures forall i :: 0 <= i < |indices| ==> r[i] == m.subJobs(indices[i])
  {
    seq(|indices|, i requires 0 <= i < |indices| => m.subJobs(indices[i]))
  }

  /** What is left of a monitored execution once the submission has returned `submitted`. */
  function AfterSubmit(processName: Option<string>, s: SchedulerView, submitted: Execution, m: Monitor): Result<Execution, Thrown>
    requires s.behaviour.usesFileMonitor && s.settings.Some?
    requires MonitorReady(Some(s))
  {
    match s.settings.value.jobArrayArgs
    case Some(a) =>
      var indices := ArrayIndices(a.minIndex, a.maxIndex, a.stepIndex);
      if |indices| == 0 then Err(Runtime(IllegalArgument))
      else
        var tally := Aggregate(Tally(0, 0), SubJobs(indices, m));
        if tally.Err? then Err(Runtime(tally.error))
        else Ok(Execution(processName, tally.value.exitCode, ArrayMessage(tally.value, |indices|),
                          s.settings.value.monitorFile, -1, None))
    case None =>
      var waited := WaitFor(processName, m.single);
      if waited.Err? then Err(waited.error)
      else if m.usage.None? then Err(IO_FAILURE)
      else Ok(Execution(processName, waited.value.exitCode, m.single.output, m.single.file,
                        submitted.jobId, m.usage.value))
  }

  /**
   * `monitoredExecute(processName, command, scheduler)`: with a file-monitor
   * scheduler, set up a monitor (one per array index, or a single one), run
   * the submit command with `Execute`, then wait on the monitors; without
   * one, just `Execute`. A null scheduler, or null args of a file-monitor
   * scheduler, is a NullPointerException; an IOException from the monitors
   * becomes a ProcessExecutionException with exit value -1; an empty job
   * array cannot get its thread pool (IllegalArgumentException).
   */
  function Monitored(processName: Option<string>, command: string, s: Option<SchedulerView>, h: Host): (r: Result<Execution, Thrown>)
    requires MonitorReady(s)
  {
    if s.None? then Err(Runtime(NullPointer))
    else if s.value.behaviour.usesFileMonitor && s.value.settings.None? then Err(Runtime(NullPointer))
    else if s.value.behaviour.usesFileMonitor && !h.monitor.created then Err(IO_FAILURE)
    else
      match Execute(processName, command, s, h)
      case Err(e) => Err(e)
      case Ok(submitted) =>
        if submitted.exitCode != 0 then
          Err(ProcessError(Raised(submitted.exitCode, Some(NonZeroExit(submitted.exitCode)))))
        else if !s.value.behaviour.usesFileMonitor then Ok(submitted)
        else AfterSubmit(processName, s.value, submitted, h.monitor)
  }

  /** A scheduler without a file monitor makes a monitored execution a plain one. */
  lemma MonitoredWithoutMonitor(processName: Option<string>, command: string, s: SchedulerView, h: Host)
    requires !s.behaviour.usesFileMonitor
    ensures Monitored(processName, command, Some(s), h) == Execute(processName, command, Some(s), h)
  {
  }

  /** A submission that fails ends the monitored execution before anything is waited for. */
  lemma MonitoredSubmitFails(processName: Option<string>, command: string, s: SchedulerView, h: Host)
    requires MonitorReady(Some(s)) && s.settings.Some? && h.monitor.created
    requires Execute(processName, command, Some(s), h).Err?
    ensures Monitored(processName, command, Some(s), h) == Execute(processName, command, Some(s), h)
  {
  }

  /**
   * A job array's result: exit code 0 iff no member failed, with the success
   * line; otherwise the error line counting the failed members out of all of
   * them. Its output file is the monitor file and it has no job id.
   */
  lemma MonitoredArray(processName: Option<string>, command: string, s: SchedulerView, h: Host)
    requires s.behaviour.usesFileMonitor && s.settings.Some? && s.settings.value.jobArrayArgs.Some?
    requires Enumerable(s.settings.value.jobArrayArgs.value)
    ensures var r := Monitored(processName, command, Some(s), h);
      var a := s.settings.value.jobArrayArgs.value;
      var outcomes := SubJobs(ArrayIndices(a.minIndex, a.maxIndex, a.stepIndex), h.monitor);
      r.Ok? ==>
        |outcomes| > 0 && Lost !in outcomes
        && (r.value.exitCode == 0 <==> Failures(outcomes) == 0)
        && r.value.output == ArrayMessage(Tally(r.value.exitCode, Failures(outcomes)), |outcomes|)
        && r.value.outputFile == s.settings.value.monitorFile && r.value.jobId == -1
  {
    var a := s.settings.value.jobArrayArgs.value;
    var outcomes := SubJobs(ArrayIndices(a.minIndex, a.maxIndex, a.stepIndex), h.monitor);
    AggregateCounts(Tally(0, 0), outcomes);
  }

  /**
   * A single monitored job succeeds only when the listener reports 0; the
   * result keeps the submission's job id and carries the adapter's output
   * and file and the usage read from the monitor file.
   */
  lemma MonitoredSingle(processName: Option<string>, command: string, s: SchedulerView, h: Host)
    requires s.behaviour.usesFileMonitor && s.settings.Some? && s.settings.value.jobArrayArgs.None?
    ensures var r := Monitored(processName, command, Some(s), h);
      r.Ok? ==>
        h.monitor.single.exit == Some(0) && h.monitor.usage.Some?
        && Execute(processName, command, Some(s), h).Ok?
        && r.value == Execution(processName, 0, h.monitor.single.output, h.monitor.single.file,
                                Execute(processName, command, Some(s), h).value.jobId, h.monitor.usage.value)
  {
  }

  /** The imperative `monitoredExecute`, with its two loops. */
  method MonitoredExecute(processName: Option<string>, command: string, s: Option<SchedulerView>, h: Host)
    returns (r: Result<Execution, Thrown>)
    requires MonitorReady(s)
    ensures r == Monitored(processName, command, s, h)
  {
    if s.None? {
      return Err(Runtime(NullPointer));
    }
    var sched := s.value;
    var indices: seq<int> := [];
    if sched.behaviour.usesFileMonitor {
      if sched.settings.None? {
        return Err(Runtime(NullPointer));
      }
      var jaa := sched.settings.value.jobArrayArgs;
      if jaa.Some? {
        indices := AdapterIndices(jaa.value);
      }
      if !h.monitor.created {
        return Err(IO_FAILURE);
      }
    }
    var submitted: Execution;
    match Execute(processName, command, s, h)
    case Err(e) =>
      return Err(e);
    case Ok(e) =>
      submitted := e;
    if submitted.exitCode != 0 {
      return Err(ProcessError(Raised(submitted.exitCode, Some(NonZeroExit(submitted.exitCode)))));
    }
    if sched.behaviour.usesFileMonitor {
      if sched.settings.value.jobArrayArgs.Some? {
        if |indices| == 0 {
          return Err(Runtime(IllegalArgument));
        }
        var tally := AggregateArray(SubJobs(indices, h.monitor));
        if tally.Err? {
          return Err(Runtime(tally.error));
        }
        return Ok(Execution(processName, tally.value.exitCode, ArrayMessage(tally.value, |indices|),
                            sched.settings.value.monitorFile, -1, None));
      } else {
        var waited := WaitFor(processName, h.monitor.single);
        if waited.Err? {
          return Err(waited.error);
        }
        if h.monitor.usage.None? {
          return Err(IO_FAILURE);
        }
        return Ok(Execution(processName, waited.value.exitCode, h.monitor.single.output, h.monitor.single.file,
                            submitted.jobId, h.monitor.usage.value));
      }
    }
    return Ok(submitted);
  }
}
