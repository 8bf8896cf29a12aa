/**
 * AbstractConanTask: a pipeline of processes run one after another. The
 * task keeps the index of the stage it is at, a pause flag, a state, the
 * runs it has started, and the listeners it notifies on every change.
 *
 * The state changes are first given as functions on a `Snapshot` of the
 * task's fields (one function per `fire*Event` method and per part of
 * `execute`); the class `ConanTask` then makes the same changes in place,
 * and each of its methods is proved to leave the fields as the matching
 * function says.
 */
module ConanTasks {
  import opened Wrappers
  import opened Faults
  import opened JavaText
  import opened SchedulerArguments
  import opened Schedulers
  import opened Contexts
  import opened ProcessFailure
  import opened Parameters
  import opened ExecutionResults
  import opened TaskResults

  /**
   * `ConanTask.State`. Only the position of CREATED matters here: it is the
   * one state ordered before SUBMITTED.
   */
  datatype State = CREATED | SUBMITTED | RUNNING | RECOVERED | PAUSED | COMPLETED | FAILED | ABORTED

  /** `state.compareTo(SUBMITTED) < 0` */
  predicate BeforeSubmitted(st: State)
  {
    st == CREATED
  }

  /** The first stage a task starts from: the constructor always sets it to 0. */
  const FIRST_TASK_INDEX := 0

  const TASK_CREATED := "Task created"
  const ABORTED_REFUSAL := "This task has been aborted, so will not execute."
  const NOT_SUBMITTED_REFUSAL := "Task does not appear to have ever been submitted"

  /** One stage of the pipeline: its name and the parameters it takes. */
  datatype Process = Process(name: string, parameters: seq<Parameter>)

  /**
   * What a concrete task supplies: its name (`getName`), the processes of its
   * pipeline in order (`getPipeline().getProcesses()`) and the parameter
   * values it was given (`getParameterValues`).
   */
  datatype Definition = Definition(name: string, processes: seq<Process>, parameterValues: map<Parameter, string>)

  /** A started run of one process; the exit value and error message are recorded when it ends. */
  datatype ProcessRun = ProcessRun(processName: string, exitValue: Option<int>, errorMessage: Option<string>, ended: bool)

  datatype Listener = Listener(id: nat)

  /** Which listener callback an event goes to. */
  datatype EventKind = StateChanged | ProcessStarted | ProcessEnded | ProcessFailed

  /** One notification: its kind, the task's state and the process it names, and the listeners it went to. */
  datatype Event = Event(kind: EventKind, state: State, process: Option<Process>, to: set<Listener>)

  /**
   * The fields `execute` and the event methods change. `listenersFrozen`
   * records that the listener set was replaced by the immutable empty set.
   */
  datatype Snapshot = Snapshot(
    index: int,
    runs: seq<ProcessRun>,
    state: State,
    message: string,
    paused: bool,
    listeners: set<Listener>,
    listenersFrozen: bool,
    events: seq<Event>)

  // ---------------------------------------------------------------------------
  // The process getters

  /** `list.get(i)` for an index known to be below the size: negative indexes throw. */
  function Element(ps: seq<Process>, i: int): (r: Result<Option<Process>, Fault>)
    requires i < |ps|
    ensures r.Ok? <==> 0 <= i
    ensures r.Ok? ==> r.value == Some(ps[i])
    ensures r.Err? ==> r.error == IndexOutOfBounds
  {
    if 0 <= i then Ok(Some(ps[i])) else Err(IndexOutOfBounds)
  }

  /** `getFirstProcess` */
  function FirstProcess(d: Definition): (r: Option<Process>)
    ensures r.Some? <==> FIRST_TASK_INDEX < |d.processes|
    ensures r.Some? ==> r.value == d.processes[FIRST_TASK_INDEX]
  {
    if FIRST_TASK_INDEX < |d.processes| then Some(d.processes[FIRST_TASK_INDEX]) else None
  }

  /** `getLastProcess`: the stage before the current index, when there is one. */
  function LastProcess(d: Definition, s: Snapshot): (r: Option<Process>)
    ensures r.Some? <==> FIRST_TASK_INDEX < s.index <= |d.processes|
    ensures r.Some? ==> r.value == d.processes[s.index - 1]
  {
    if FIRST_TASK_INDEX < s.index <= |d.processes| then Some(d.processes[s.index - 1]) else None
  }

  /**
   * `getCurrentProcess`: the stage at the index, but only while RUNNING; a
   * negative index while RUNNING makes the list lookup throw.
   */
  function CurrentProcess(d: Definition, s: Snapshot): (r: Result<Option<Process>, Fault>)
    ensures r.Err? <==> s.state == RUNNING && s.index < 0
    ensures r.Err? ==> r.error == IndexOutOfBounds
    ensures r.Ok? && r.value.Some? <==> s.state == RUNNING && 0 <= s.index < |d.processes|
    ensures r.Ok? && r.value.Some? ==> r.value.value == d.processes[s.index]
  {
    if s.state == RUNNING && s.index < |d.processes| then Element(d.processes, s.index) else Ok(None)
  }

  /**
   * `getNextProcess`: while RUNNING the stage after the current one,
   * otherwise the current one; none past the end.
   */
  function NextProcess(d: Definition, s: Snapshot): (r: Result<Option<Process>, Fault>)
    ensures var next := if s.state == RUNNING then s.index + 1 else s.index;
      && (r.Err? <==> next < 0)
      && (r.Ok? && r.value.Some? <==> 0 <= next < |d.processes|)
      && (r.Ok? && r.value.Some? ==> r.value.value == d.processes[next])
  {
    if s.state == RUNNING then
      if s.index + 1 < |d.processes| then Element(d.processes, s.index + 1) else Ok(None)
    else
      if s.index < |d.processes| then Element(d.processes, s.index) else Ok(None)
  }

  // ---------------------------------------------------------------------------
  // The event methods, as changes to a snapshot

  /** Every listener registered at the moment is told of the task's current state. */
  function Notify(s: Snapshot, kind: EventKind, p: Option<Process>): (r: Snapshot)
    ensures r == s.(events := s.events + [Event(kind, s.state, p, s.listeners)])
  {
    s.(events := s.events + [Event(kind, s.state, p, s.listeners)])
  }

  /**
   * The result of an event method that may throw part-way: the fields as
   * they were left, and the exception, if one was thrown.
   */
  datatype Fired = Fired(after: Snapshot, thrown: Option<Fault>)

  /** `fireTaskSubmittedEvent` */
  function TaskSubmitted(d: Definition, s: Snapshot): (r: Snapshot)
    ensures r.state == SUBMITTED && r.message == "Submitted"
    ensures r.index == s.index && r.runs == s.runs && r.paused == s.paused && r.listeners == s.listeners
    ensures r.events == s.events + [Event(StateChanged, SUBMITTED, FirstProcess(d), s.listeners)]
  {
    Notify(s.(state := SUBMITTED, message := "Submitted"), StateChanged, FirstProcess(d))
  }

  /** `fireTaskStartedEvent`: "Started" the first time, "Restarted" after that. */
  function TaskStarted(d: Definition, s: Snapshot): (r: Snapshot)
    ensures r.state == RUNNING
    ensures r.message == if s.state == SUBMITTED then "Started" else "Restarted"
    ensures r.index == s.index && r.runs == s.runs && r.paused == s.paused && r.listeners == s.listeners
  {
    var s1 := s.(message := if s.state == SUBMITTED then "Started" else "Restarted");
    Notify(s1.(state := RUNNING), StateChanged, FirstProcess(d))
  }

  /**
   * `fireTaskRecoveryEvent`: the state becomes RECOVERED; the event names the
   * next process and the last run, so a task without runs throws.
   */
  function TaskRecovered(d: Definition, s: Snapshot): (r: Fired)
    ensures r.after.state == RECOVERED && r.after.message == "Recovered"
    ensures r.after.index == s.index && r.after.runs == s.runs && r.after.paused == s.paused
    ensures r.after.listeners == s.listeners
    ensures r.thrown.None? <==> 0 <= s.index && |s.runs| > 0
  {
    var s1 := s.(state := RECOVERED, message := "Recovered");
    match NextProcess(d, s1)
    case Err(f) => Fired(s1, Some(f))
    case Ok(p) =>
      if |s1.runs| == 0 then Fired(s1, Some(IndexOutOfBounds))
      else Fired(Notify(s1, StateChanged, p), None)
  }

  /**
   * `fireTaskPausedEvent`: the state becomes PAUSED and the message names the
   * next process; the event carries the last run, so a task without runs
   * throws after the state and message are set.
   */
  function TaskPaused(d: Definition, s: Snapshot): (r: Fired)
    ensures r.after.state == PAUSED
    ensures r.after.index == s.index && r.after.runs == s.runs && r.after.paused == s.paused
    ensures r.after.listeners == s.listeners
    ensures r.thrown.None? <==> 0 <= s.index && |s.runs| > 0
  {
    var s1 := s.(state := PAUSED);
    match NextProcess(d, s1)
    case Err(f) => Fired(s1, Some(f))
    case Ok(next) =>
      var s2 := s1.(message := if next.None? then "Paused during the last process"
                                else "Paused before '" + next.value.name + "'");
      if |s2.runs| == 0 then Fired(s2, Some(IndexOutOfBounds))
      else Fired(Notify(s2, StateChanged, None), None)
  }

  /** `fireTaskCompletedEvent`: COMPLETED, and the listeners are notified and then removed. */
  function TaskCompleted(s: Snapshot): (r: Snapshot)
    ensures r.state == COMPLETED && r.message == "Complete" && r.listeners == {}
    ensures r.index == s.index && r.runs == s.runs && r.paused == s.paused
    ensures r.events == s.events + [Event(StateChanged, COMPLETED, None, s.listeners)]
  {
    Notify(s.(state := COMPLETED, message := "Complete"), StateChanged, None).(listeners := {})
  }

  /** `fireTaskAbortedEvent`: ABORTED, with a message naming the last process if there is one. */
  function TaskAborted(d: Definition, s: Snapshot): (r: Snapshot)
    ensures r.state == ABORTED
    ensures r.message == if LastProcess(d, s).None? then "Aborted before the first process started"
                         else "Aborted after '" + LastProcess(d, s).value.name + "'"
    ensures r.index == s.index && r.runs == s.runs && r.paused == s.paused && r.listeners == s.listeners
  {
    var last := LastProcess(d, s);
    var s1 := s.(state := ABORTED,
                 message := if last.None? then "Aborted before the first process started"
                            else "Aborted after '" + last.value.name + "'");
    Notify(s1, StateChanged, None)
  }

  /** A run created for a process that is about to start. */
  function NewRun(name: string): ProcessRun
  {
    ProcessRun(name, None, None, false)
  }

  /** The run of a stage that went through: ended with exit value 0 and no error message. */
  function CompletedRun(p: Process): ProcessRun
  {
    ProcessRun(p.name, Some(0), None, true)
  }

  /** The last run, ended with the exit value and error message given. */
  function EndLast(runs: seq<ProcessRun>, exitValue: int, errorMessage: Option<string>): (r: seq<ProcessRun>)
    requires |runs| > 0
    ensures |r| == |runs| && r[..|r| - 1] == runs[..|runs| - 1]
    ensures r[|r| - 1] == runs[|runs| - 1].(exitValue := Some(exitValue), errorMessage := errorMessage, ended := true)
  {
    runs[..|runs| - 1] + [runs[|runs| - 1].(exitValue := Some(exitValue), errorMessage := errorMessage, ended := true)]
  }

  /** `fireProcessStartedEvent` once the current process `p` is known: RUNNING, and a new run for `p`. */
  function StartStage(s: Snapshot, p: Process): (r: Snapshot)
    ensures r.state == RUNNING && r.runs == s.runs + [NewRun(p.name)] && r.message == "Doing '" + p.name + "'"
    ensures r.index == s.index && r.paused == s.paused && r.listeners == s.listeners
  {
    var s1 := s.(state := RUNNING, runs := s.runs + [NewRun(p.name)], message := "Doing '" + p.name + "'");
    Notify(s1, ProcessStarted, Some(p))
  }

  /**
   * `fireProcessEndedEvent` once the current process `p` is known: the index
   * moves past it and the last run ends with exit value 0.
   */
  function EndStage(d: Definition, s: Snapshot, p: Process): (r: Snapshot)
    requires |s.runs| > 0
    ensures r.index == s.index + 1 && r.runs == EndLast(s.runs, 0, None)
    ensures r.state == s.state && r.paused == s.paused && r.listeners == s.listeners
  {
    var s1 := s.(message := "Finished '" + p.name + "'", index := s.index + 1);
    var s2 := s1.(runs := EndLast(s1.runs, 0, None));
    Notify(s2, ProcessEnded, LastProcess(d, s2))
  }

  /**
   * The common part of `fireProcessFailedEvent` and
   * `fireProcessInterruptedEvent` once the current process `p` is known:
   * FAILED, the index moves past the stage, and the last run ends with the
   * exit value given. Without a run the lookup of the last run throws after
   * the state and index have changed.
   */
  function StopStage(d: Definition, s: Snapshot, p: Process, verb: string, exitValue: int, errorMessage: Option<string>)
    : (r: Fired)
    ensures r.after.state == FAILED && r.after.index == s.index + 1
    ensures r.after.message == verb + " at '" + p.name + "'"
    ensures r.after.paused == s.paused && r.after.listeners == s.listeners
    ensures r.thrown.None? <==> |s.runs| > 0
    ensures r.thrown.Some? ==> r.thrown.value == IndexOutOfBounds && r.after.runs == s.runs
    ensures r.thrown.None? ==> r.after.runs == EndLast(s.runs, exitValue, errorMessage)
  {
    var s1 := s.(message := verb + " at '" + p.name + "'", state := FAILED, index := s.index + 1);
    if |s1.runs| == 0 then Fired(s1, Some(IndexOutOfBounds))
    else
      var s2 := s1.(runs := EndLast(s1.runs, exitValue, errorMessage));
      Fired(Notify(s2, ProcessFailed, LastProcess(d, s2)), None)
  }

  /**
   * `fireProcessStartedEvent`. Like every event method that reads the
   * current process's name first, it throws before changing anything when
   * the lookup throws, or when there is no current process (a
   * NullPointerException).
   */
  function ProcessStartedEvent(d: Definition, s: Snapshot): Fired
  {
    match CurrentProcess(d, s)
    case Err(e) => Fired(s, Some(e))
    case Ok(None) => Fired(s, Some(NullPointer))
    case Ok(Some(p)) => Fired(StartStage(s, p), None)
  }

  /** `fireProcessEndedEvent` */
  function ProcessEndedEvent(d: Definition, s: Snapshot): Fired
  {
    match CurrentProcess(d, s)
    case Err(e) => Fired(s, Some(e))
    case Ok(None) => Fired(s, Some(NullPointer))
    case Ok(Some(p)) =>
      if |s.runs| == 0 then Fired(s.(message := "Finished '" + p.name + "'", index := s.index + 1), Some(IndexOutOfBounds))
      else Fired(EndStage(d, s, p), None)
  }

  /** `fireProcessFailedEvent(exitValue)` and `fireProcessFailedEvent(pex)`, with the exception's exit value and error message. */
  function ProcessFailedEvent(d: Definition, s: Snapshot, exitValue: int, errorMessage: Option<string>): Fired
  {
    match CurrentProcess(d, s)
    case Err(e) => Fired(s, Some(e))
    case Ok(None) => Fired(s, Some(NullPointer))
    case Ok(Some(p)) => StopStage(d, s, p, "Failed", exitValue, errorMessage)
  }

  /** `fireProcessInterruptedEvent`: like a failure with exit value 1, reported as killed. */
  function ProcessInterruptedEvent(d: Definition, s: Snapshot): Fired
  {
    match CurrentProcess(d, s)
    case Err(e) => Fired(s, Some(e))
    case Ok(None) => Fired(s, Some(NullPointer))
    case Ok(Some(p)) => StopStage(d, s, p, "Killed", 1, None)
  }

  // ---------------------------------------------------------------------------
  // execute

  /**
   * What the code `execute` calls but this model cannot see, as inputs:
   * what each started stage's `execute` ends with (by attempt number,
   * process and parameters), whether `Thread.interrupted()` reports an
   * interrupt at the top of each attempt, whether the thread is still
   * interrupted when the exit status is checked, and the milliseconds the
   * stop watch measures.
   */
  datatype Environment = Environment(
    perform: (nat, Process, map<Parameter, Option<string>>) -> Result<DefaultExecutionResult, Thrown>,
    interrupted: nat -> bool,
    interruptedAtEnd: bool,
    elapsedMillis: nat)

  /** How `execute` ends: a TaskExecutionException (refused, or wrapping a stage's exception), an InterruptedException, or an unchecked exception. */
  datatype TaskError =
    | Refused(message: string)
    | Wrapped(cause: Thrown)
    | InterruptedTask
    | Unchecked(fault: Fault)

  /**
   * The monitor-file naming `execute` does before each stage: only when the
   * context uses a scheduler and has no monitor file; the job name is set
   * too when the context has none; args missing from the scheduler make it
   * throw.
   */
  datatype Naming = NoNaming | Naming(setJobName: bool, argsPresent: bool)

  /** The job name given to a stage: task name, index and process name joined by `_`. */
  function JobName(d: Definition, index: int, p: Process): string
  {
    d.name + "_" + IntToString(index) + "_" + p.name
  }

  /** The parameters a process is given: each of its parameters with the task's value for it, or null. */
  function Params(p: Process, values: map<Parameter, string>): (r: map<Parameter, Option<string>>)
    ensures forall q :: q in r <==> q in p.parameters
    ensures forall q :: q in r ==> r[q] == if q in values then Some(values[q]) else None
  {
    map q | q in p.parameters :: if q in values then Some(values[q]) else None
  }

  /** How `execute` ended after entering its `try` block: with a task result's success flag, or an exception. */
  datatype Ending = Returned(success: bool) | Threw(error: TaskError)

  /**
   * The state when `execute` ends: the task's fields, the stage results
   * collected, the last job name given to the scheduler's args (none if
   * the naming never happened) and how it ended.
   */
  datatype Final = Final(task: Snapshot, results: seq<DefaultExecutionResult>, named: Option<string>, ending: Ending)

  /** The `finally` block: a COMPLETED or ABORTED task drops its listeners for the immutable empty set. */
  function Finally(s: Snapshot): (r: Snapshot)
    ensures r.state == s.state && r.index == s.index && r.runs == s.runs && r.paused == s.paused
    ensures r.state == COMPLETED || r.state == ABORTED ==> r.listeners == {} && r.listenersFrozen
    ensures !(r.state == COMPLETED || r.state == ABORTED) ==> r == s
  {
    if s.state == COMPLETED || s.state == ABORTED then s.(listeners := {}, listenersFrozen := true) else s
  }

  /** What a `catch` block leaves: the fields and the exception `execute` throws. */
  datatype Handled = Handled(after: Snapshot, error: TaskError)

  /** The exit value a stage's run is ended with when the stage throws `t`. */
  function ExitValueOf(t: Thrown): int
  {
    match t
    case BadParameter => 2
    case ProcessError(f) => f.exitValue
    case Interrupted => 1
    case Runtime(_) => 1
  }

  /** The error message a stage's run is ended with when the stage throws `t`. */
  function ErrorMessageOf(t: Thrown): Option<string>
  {
    if t.ProcessError? then t.failure.errorMessage else None
  }

  /** The exception `execute` passes on for a stage's exception `t` once the stage is marked as failed. */
  function Passed(t: Thrown): TaskError
  {
    if t.Interrupted? then InterruptedTask else Wrapped(t)
  }

  /** A stage that throws a process exception asking for it aborts the whole task. */
  predicate Aborts(t: Thrown)
  {
    t.ProcessError? && t.failure.causesAbort
  }

  /** The task is at a stage whose failure can be recorded: running, at a process, with a run to end. */
  predicate AtStage(d: Definition, s: Snapshot)
  {
    s.state == RUNNING && 0 <= s.index < |d.processes| && |s.runs| > 0
  }

  /**
   * The `catch` blocks of `execute`. Each first reads the current process's
   * name, which throws when there is none. A parameter exception fails the
   * stage with exit value 2; a process exception with its own exit value and
   * error message, and aborts the task when it asks to; an interrupt kills
   * the stage; any other exception fails it with exit value 1. Only at a
   * stage with a run to end is the exception passed on; otherwise the
   * `catch` block itself throws.
   */
  function Handle(d: Definition, s: Snapshot, t: Thrown): (r: Handled)
    ensures r.error.Unchecked? <==> !AtStage(d, s)
    ensures AtStage(d, s) ==>
      && r.error == Passed(t)
      && r.after.state == (if Aborts(t) then ABORTED else FAILED)
      && r.after.index == s.index + 1
      && r.after.runs == EndLast(s.runs, ExitValueOf(t), ErrorMessageOf(t))
      && r.after.paused == s.paused
  {
    match CurrentProcess(d, s)
    case Err(f) => Handled(s, Unchecked(f))
    case Ok(None) => Handled(s, Unchecked(NullPointer))
    case Ok(Some(p)) =>
      var fired := StopStage(d, s, p, if t.Interrupted? then "Killed" else "Failed", ExitValueOf(t), ErrorMessageOf(t));
      if fired.thrown.Some? then Handled(fired.after, Unchecked(fired.thrown.value))
      else if Aborts(t) then Handled(TaskAborted(d, fired.after), Passed(t))
      else Handled(fired.after, Passed(t))
  }

  /** An exception thrown inside the `try` block: handled, then the `finally` block. */
  function Caught(d: Definition, s: Snapshot, results: seq<DefaultExecutionResult>, named: Option<string>, t: Thrown)
    : (r: Final)
    ensures r.ending.Threw? && r.results == results && r.named == named
  {
    var h := Handle(d, s, t);
    Final(Finally(h.after), results, named, Threw(h.error))
  }

  /** What `checkExitStatus` leaves: the fields, and its result or the exception it throws. */
  datatype Exit = Exit(after: Snapshot, status: Result<bool, Fault>)

  /**
   * `checkExitStatus`: a paused task becomes PAUSED and is not successful;
   * one whose thread is still interrupted is left as it is and is not
   * successful; any other is COMPLETED and successful.
   */
  function ExitStatus(d: Definition, s: Snapshot, interruptedAtEnd: bool): (r: Exit)
    ensures r.status == Ok(true) <==> !s.paused && !interruptedAtEnd
    ensures r.status == Ok(true) ==> r.after == TaskCompleted(s)
    ensures s.paused ==> r.after.state == PAUSED && (r.status.Err? <==> s.index < 0 || |s.runs| == 0)
    ensures !s.paused && interruptedAtEnd ==> r == Exit(s, Ok(false))
    ensures r.after.index == s.index && r.after.runs == s.runs && r.after.paused == s.paused
  {
    if s.paused then
      var fired := TaskPaused(d, s);
      Exit(fired.after, if fired.thrown.Some? then Err(fired.thrown.value) else Ok(false))
    else if interruptedAtEnd then Exit(s, Ok(false))
    else Exit(TaskCompleted(s), Ok(true))
  }

  /** After the loop: the exit status, with any exception it throws handled, then the `finally` block. */
  function AfterLoop(d: Definition, env: Environment, s: Snapshot, results: seq<DefaultExecutionResult>, named: Option<string>)
    : (r: Final)
    ensures r.results == results && r.named == named
    ensures r.ending.Returned? ==> r.task.index == s.index && r.task.runs == s.runs
    ensures r.ending == Returned(true) ==> r.task.state == COMPLETED && r.task.listeners == {} && r.task.listenersFrozen
  {
    var e := ExitStatus(d, s, env.interruptedAtEnd);
    if e.status.Err? then Caught(d, e.after, results, named, Runtime(e.status.error))
    else Final(Finally(e.after), results, named, Returned(e.status.value))
  }

  /** Where one pass of the loop leaves `execute`: back at the loop test, or finished. */
  datatype Progress = Continue(task: Snapshot, results: seq<DefaultExecutionResult>, named: Option<string>) | Done(final: Final)

  /**
   * One pass of the loop for the current process `p` (attempt `k`): stop on
   * an interrupt; start the stage; name the monitor file; run the process;
   * keep its result and end the stage.
   */
  function Iterate(d: Definition, env: Environment, naming: Naming, s: Snapshot, p: Process,
                   results: seq<DefaultExecutionResult>, named: Option<string>, k: nat): (r: Progress)
    ensures r.Continue? <==> !env.interrupted(k) && (naming.Naming? ==> naming.argsPresent)
                             && env.perform(k, p, Params(p, d.parameterValues)).Ok?
    ensures r.Continue? ==> r.results == results + [env.perform(k, p, Params(p, d.parameterValues)).value]
    ensures r.Continue? ==> r.task.runs == s.runs + [CompletedRun(p)] && r.task.index == s.index + 1
    ensures r.Continue? ==> r.task.state == RUNNING && r.task.paused == s.paused
    ensures r.Continue? && naming.Naming? ==> r.named == Some(JobName(d, s.index, p))
    ensures r.Continue? && naming.NoNaming? ==> r.named == named
    ensures r.Done? ==> r.final.ending.Threw?
  {
    if env.interrupted(k) then Done(Caught(d, s, results, named, Interrupted))
    else
      var s1 := StartStage(s, p);
      if naming.Naming? && !naming.argsPresent then Done(Caught(d, s1, results, named, Runtime(NullPointer)))
      else
        var named1 := if naming.Naming? then Some(JobName(d, s1.index, p)) else named;
        match env.perform(k, p, Params(p, d.parameterValues))
        case Err(t) => Done(Caught(d, s1, results, named1, t))
        case Ok(x) => Continue(EndStage(d, s1, p), results + [x], named1)
  }

  /** A pass that is not interrupted is the one of the stage once it has started. */
  lemma IterateStarted(d: Definition, env: Environment, naming: Naming, s: Snapshot, p: Process,
                       results: seq<DefaultExecutionResult>, named: Option<string>, k: nat)
    requires !env.interrupted(k)
    ensures Iterate(d, env, naming, s, p, results, named, k) == Staged(d, env, naming, StartStage(s, p), p, results, named, k)
  {
  }

  /** A pass once the stage of `p` has started in `s`: the naming of the monitor file, then the process. */
  function Staged(d: Definition, env: Environment, naming: Naming, s: Snapshot, p: Process,
                  results: seq<DefaultExecutionResult>, named: Option<string>, k: nat): Progress
    requires |s.runs| > 0
  {
    if naming.Naming? && !naming.argsPresent then Done(Caught(d, s, results, named, Runtime(NullPointer)))
    else Attempted(d, env, s, p, results, if naming.Naming? then Some(JobName(d, s.index, p)) else named, k)
  }

  /** The process `p` itself in a started stage: its result kept and the stage ended, or its exception caught. */
  function Attempted(d: Definition, env: Environment, s: Snapshot, p: Process,
                     results: seq<DefaultExecutionResult>, named: Option<string>, k: nat): Progress
    requires |s.runs| > 0
  {
    match env.perform(k, p, Params(p, d.parameterValues))
    case Err(t) => Done(Caught(d, s, results, named, t))
    case Ok(x) => Continue(EndStage(d, s, p), results + [x], named)
  }

  /**
   * The loop of `execute` from attempt `k` on: while not paused and there is
   * a current process, one more pass; then the exit status.
   */
  function Run(d: Definition, env: Environment, naming: Naming, s: Snapshot,
               results: seq<DefaultExecutionResult>, named: Option<string>, k: nat): Final
    decreases |d.processes| - s.index
  {
    if s.paused then AfterLoop(d, env, s, results, named)
    else
      match CurrentProcess(d, s)
      case Err(f) => Caught(d, s, results, named, Runtime(f))
      case Ok(None) => AfterLoop(d, env, s, results, named)
      case Ok(Some(p)) =>
        match Iterate(d, env, naming, s, p, results, named, k)
        case Done(f) => f
        case Continue(s1, r1, n1) => Run(d, env, naming, s1, r1, n1, k + 1)
  }

  /** What `checkState` leaves: the fields, and the exception that stops `execute` before its `try` block, if any. */
  datatype Checked = Checked(after: Snapshot, refusal: Option<TaskError>)

  /**
   * `checkState`: an aborted task, or one never submitted, is refused; a
   * RUNNING task is taken to be recovered after a shutdown; any other is
   * started.
   */
  function CheckState(d: Definition, s: Snapshot): (r: Checked)
    ensures s.state == ABORTED ==> r == Checked(s, Some(Refused(ABORTED_REFUSAL)))
    ensures BeforeSubmitted(s.state) ==> r == Checked(s, Some(Refused(NOT_SUBMITTED_REFUSAL)))
    ensures r.refusal.None? <==> s.state != ABORTED && !BeforeSubmitted(s.state) &&
                                 (s.state == RUNNING ==> 0 <= s.index && |s.runs| > 0)
    ensures r.refusal.None? ==> r.after.state == (if s.state == RUNNING then RECOVERED else RUNNING)
    ensures r.after.index == s.index && r.after.runs == s.runs && r.after.paused == s.paused
  {
    if s.state == ABORTED then Checked(s, Some(Refused(ABORTED_REFUSAL)))
    else if BeforeSubmitted(s.state) then Checked(s, Some(Refused(NOT_SUBMITTED_REFUSAL)))
    else if s.state == RUNNING then
      var fired := TaskRecovered(d, s);
      Checked(fired.after, if fired.thrown.Some? then Some(Unchecked(fired.thrown.value)) else None)
    else Checked(TaskStarted(d, s), None)
  }

  /** `execute(context)`: `checkState`, then the loop from the first attempt with no results yet. */
  function Executed(d: Definition, env: Environment, naming: Naming, s: Snapshot): Final
  {
    var c := CheckState(d, s);
    if c.refusal.Some? then Final(c.after, [], None, Threw(c.refusal.value))
    else Run(d, env, naming, c.after, [], None, 0)
  }

  // ---------------------------------------------------------------------------
  // What `execute` promises

  /** The runs left by stages that all went through, in pipeline order. */
  function CompletedRuns(ps: seq<Process>): (r: seq<ProcessRun>)
    ensures |r| == |ps|
    ensures forall i :: 0 <= i < |ps| ==> r[i] == CompletedRun(ps[i])
  {
    if ps == [] then [] else [CompletedRun(ps[0])] + CompletedRuns(ps[1..])
  }

  /**
   * `out` holds the results of the stages from index `i` on, one after
   * another, each what that stage's attempt (numbered from `k`) returned.
   */
  predicate PerformedFrom(d: Definition, env: Environment, k: nat, i: int, out: seq<DefaultExecutionResult>)
    decreases |out|
  {
    out == [] ||
    (0 <= i < |d.processes| &&
     env.perform(k, d.processes[i], Params(d.processes[i], d.parameterValues)) == Ok(out[0]) &&
     PerformedFrom(d, env, k + 1, i + 1, out[1..]))
  }

  /**
   * When the loop returns normally, it ran the stages from the index it
   * started at up to the index it stopped at, in pipeline order: one
   * completed run per stage is appended to the runs.
   */
  lemma {:induction false} RunReturnedRuns(d: Definition, env: Environment, naming: Naming, s: Snapshot,
                                           results: seq<DefaultExecutionResult>, named: Option<string>, k: nat)
    requires 0 <= s.index <= |d.processes|
    requires Run(d, env, naming, s, results, named, k).ending.Returned?
    ensures var f := Run(d, env, naming, s, results, named, k);
      && s.index <= f.task.index <= |d.processes|
      && f.task.runs == s.runs + CompletedRuns(d.processes[s.index..f.task.index])
    decreases |d.processes| - s.index
  {
    if s.paused || CurrentProcess(d, s) == Ok(None) {
      RunStopped(d, env, naming, s, results, named, k);
      assert d.processes[s.index..s.index] == [];
    } else {
      var s1, r1, n1 := RunContinues(d, env, naming, s, results, named, k);
      RunReturnedRuns(d, env, naming, s1, r1, n1, k + 1);
      var f := Run(d, env, naming, s1, r1, n1, k + 1);
      RunsAppended(d.processes, s.index, f.task.index, s.runs, s1.runs, f.task.runs);
    }
  }

  /** One completed run, then the runs of the stages after it: the runs of the stages from its own on. */
  lemma RunsAppended(ps: seq<Process>, i: int, j: int, runs: seq<ProcessRun>, runs1: seq<ProcessRun>, out: seq<ProcessRun>)
    requires 0 <= i < j <= |ps|
    requires runs1 == runs + [CompletedRun(ps[i])] && out == runs1 + CompletedRuns(ps[i + 1..j])
    ensures out == runs + CompletedRuns(ps[i..j])
  {
    StagesCons(ps, i, j);
    Regrouped(runs, [CompletedRun(ps[i])], CompletedRuns(ps[i + 1..j]));
  }

  lemma Regrouped<T>(xs: seq<T>, ys: seq<T>, zs: seq<T>)
    ensures (xs + ys) + zs == xs + (ys + zs)
  {
  }

  /** When the loop returns normally, it collected one result per stage it ran. */
  lemma {:induction false} RunReturnedCount(d: Definition, env: Environment, naming: Naming, s: Snapshot,
                                            results: seq<DefaultExecutionResult>, named: Option<string>, k: nat)
    requires Run(d, env, naming, s, results, named, k).ending.Returned?
    ensures var f := Run(d, env, naming, s, results, named, k);
      s.index <= f.task.index && |f.results| == |results| + (f.task.index - s.index)
    decreases |d.processes| - s.index
  {
    if s.paused || CurrentProcess(d, s) == Ok(None) {
      RunStopped(d, env, naming, s, results, named, k);
    } else {
      var s1, r1, n1 := RunContinues(d, env, naming, s, results, named, k);
      RunReturnedCount(d, env, naming, s1, r1, n1, k + 1);
    }
  }

  /** When the loop returns normally, the results it collected start with the ones it was given. */
  lemma {:induction false} RunReturnedPrefix(d: Definition, env: Environment, naming: Naming, s: Snapshot,
                                             results: seq<DefaultExecutionResult>, named: Option<string>, k: nat)
    requires Run(d, env, naming, s, results, named, k).ending.Returned?
    ensures var f := Run(d, env, naming, s, results, named, k);
      |results| <= |f.results| && f.results[..|results|] == results
    decreases |d.processes| - s.index
  {
    if s.paused || CurrentProcess(d, s) == Ok(None) {
      RunStopped(d, env, naming, s, results, named, k);
    } else {
      var s1, r1, n1 := RunContinues(d, env, naming, s, results, named, k);
      RunReturnedPrefix(d, env, naming, s1, r1, n1, k + 1);
      PrefixOfPrefix(results, r1, Run(d, env, naming, s1, r1, n1, k + 1).results);
    }
  }

  /** A prefix of a prefix is a prefix. */
  lemma PrefixOfPrefix<T>(xs: seq<T>, ys: seq<T>, zs: seq<T>)
    requires |xs| <= |ys| && ys[..|xs|] == xs
    requires |ys| <= |zs| && zs[..|ys|] == ys
    ensures |xs| <= |zs| && zs[..|xs|] == xs
  {
    assert zs[..|xs|] == zs[..|ys|][..|xs|];
  }

  /**
   * When the loop returns normally, what follows the results it was given
   * is what each stage it ran returned, in order.
   */
  lemma {:induction false} RunReturnedResults(d: Definition, env: Environment, naming: Naming, s: Snapshot,
                                              results: seq<DefaultExecutionResult>, named: Option<string>, k: nat)
    requires Run(d, env, naming, s, results, named, k).ending.Returned?
    ensures var f := Run(d, env, naming, s, results, named, k);
      |results| <= |f.results| && PerformedFrom(d, env, k, s.index, f.results[|results|..])
    decreases |d.processes| - s.index
  {
    if s.paused || CurrentProcess(d, s) == Ok(None) {
      RunStopped(d, env, naming, s, results, named, k);
    } else {
      var s1, r1, n1 := RunContinues(d, env, naming, s, results, named, k);
      var p := d.processes[s.index];
      var x := env.perform(k, p, Params(p, d.parameterValues)).value;
      RunReturnedPrefix(d, env, naming, s1, r1, n1, k + 1);
      RunReturnedResults(d, env, naming, s1, r1, n1, k + 1);
      PerformedCons(d, env, k, s.index, results, x, r1, Run(d, env, naming, s1, r1, n1, k + 1).results);
    }
  }

  /**
   * Results that start with `r1 == results + [x]`, where `x` is what stage
   * `i` returned and the stages after it returned what follows `r1`: the
   * stages from `i` on returned what follows `results`.
   */
  lemma PerformedCons(d: Definition, env: Environment, k: nat, i: int, results: seq<DefaultExecutionResult>,
                      x: DefaultExecutionResult, r1: seq<DefaultExecutionResult>, out: seq<DefaultExecutionResult>)
    requires 0 <= i < |d.processes|
    requires env.perform(k, d.processes[i], Params(d.processes[i], d.parameterValues)) == Ok(x)
    requires r1 == results + [x] && |r1| <= |out| && out[..|r1|] == r1
    requires PerformedFrom(d, env, k + 1, i + 1, out[|r1|..])
    ensures |results| <= |out| && PerformedFrom(d, env, k, i, out[|results|..])
  {
    assert out[|results|..][0] == out[..|r1|][|results|] == x;
    assert out[|results|..][1..] == out[|r1|..];
  }

  /** A successful return leaves the task COMPLETED and, when the loop began RUNNING, past the last stage. */
  lemma {:induction false} RunSucceeded(d: Definition, env: Environment, naming: Naming, s: Snapshot,
                                        results: seq<DefaultExecutionResult>, named: Option<string>, k: nat)
    ensures var f := Run(d, env, naming, s, results, named, k);
      f.ending == Returned(true) ==>
        && f.task.state == COMPLETED && f.task.listeners == {} && f.task.listenersFrozen
        && (s.state == RUNNING ==> f.task.index >= |d.processes|)
    decreases |d.processes| - s.index
  {
    if Run(d, env, naming, s, results, named, k).ending == Returned(true) {
      if s.paused || CurrentProcess(d, s) == Ok(None) {
        RunStops(d, env, naming, s, results, named, k);
      } else {
        var s1, r1, n1 := RunContinues(d, env, naming, s, results, named, k);
        RunSucceeded(d, env, naming, s1, r1, n1, k + 1);
      }
    }
  }

  /** The loop stops at once when the task is paused or has no current process. */
  lemma RunStops(d: Definition, env: Environment, naming: Naming, s: Snapshot,
                 results: seq<DefaultExecutionResult>, named: Option<string>, k: nat)
    requires s.paused || CurrentProcess(d, s) == Ok(None)
    ensures Run(d, env, naming, s, results, named, k) == AfterLoop(d, env, s, results, named)
  {
  }

  /** Otherwise the loop makes one pass over the current process, and goes on from where it leaves the task. */
  lemma RunPasses(d: Definition, env: Environment, naming: Naming, s: Snapshot,
                  results: seq<DefaultExecutionResult>, named: Option<string>, k: nat)
    returns (it: Progress)
    requires !s.paused && CurrentProcess(d, s).Ok? && CurrentProcess(d, s).value.Some?
    ensures it == Iterate(d, env, naming, s, d.processes[s.index], results, named, k)
    ensures it.Done? ==> Run(d, env, naming, s, results, named, k) == it.final
    ensures it.Continue? ==> Run(d, env, naming, s, results, named, k) == Run(d, env, naming, it.task, it.results, it.named, k + 1)
  {
    it := Iterate(d, env, naming, s, d.processes[s.index], results, named, k);
  }

  /** When the loop stops at once and returns, the task is where it was and no result is added. */
  lemma RunStopped(d: Definition, env: Environment, naming: Naming, s: Snapshot,
                   results: seq<DefaultExecutionResult>, named: Option<string>, k: nat)
    requires s.paused || CurrentProcess(d, s) == Ok(None)
    requires Run(d, env, naming, s, results, named, k).ending.Returned?
    ensures var f := Run(d, env, naming, s, results, named, k);
      f.task.index == s.index && f.task.runs == s.runs && f.results == results
  {
    RunStops(d, env, naming, s, results, named, k);
  }

  /**
   * When the loop does not stop at once and still returns, the pass over the
   * current stage went through: the loop goes on from the next stage, with
   * the stage's completed run and its result appended.
   */
  lemma RunContinues(d: Definition, env: Environment, naming: Naming, s: Snapshot,
                     results: seq<DefaultExecutionResult>, named: Option<string>, k: nat)
    returns (s1: Snapshot, r1: seq<DefaultExecutionResult>, n1: Option<string>)
    requires !s.paused && CurrentProcess(d, s) != Ok(None)
    requires Run(d, env, naming, s, results, named, k).ending.Returned?
    ensures s.state == RUNNING && 0 <= s.index < |d.processes|
    ensures var p := d.processes[s.index];
      && env.perform(k, p, Params(p, d.parameterValues)).Ok?
      && r1 == results + [env.perform(k, p, Params(p, d.parameterValues)).value]
    ensures s1.index == s.index + 1 && s1.runs == s.runs + [CompletedRun(d.processes[s.index])]
    ensures s1.state == RUNNING
    ensures Run(d, env, naming, s, results, named, k) == Run(d, env, naming, s1, r1, n1, k + 1)
  {
    var it := RunPasses(d, env, naming, s, results, named, k);
    s1, r1, n1 := it.task, it.results, it.named;
  }

  /** Splitting off the first stage of a run of completed stages. */
  lemma StagesCons(ps: seq<Process>, i: int, j: int)
    requires 0 <= i < j <= |ps|
    ensures CompletedRuns(ps[i..j]) == [CompletedRun(ps[i])] + CompletedRuns(ps[i + 1..j])
  {
    assert ps[i..j][1..] == ps[i + 1..j];
  }

  /**
   * Nothing goes wrong: every stage's attempt returns a result, the thread
   * is never interrupted, and the scheduler's args are there to be named.
   */
  ghost predicate Smooth(env: Environment, naming: Naming)
  {
    && (forall k: nat, p: Process, m: map<Parameter, Option<string>> :: env.perform(k, p, m).Ok?)
    && (forall k: nat :: !env.interrupted(k))
    && (naming.Naming? ==> naming.argsPresent)
    && !env.interruptedAtEnd
  }

  /** When nothing goes wrong, a running task that is not paused goes through to its last stage and succeeds. */
  lemma {:induction false} RunCompletes(d: Definition, env: Environment, naming: Naming, s: Snapshot,
                                        results: seq<DefaultExecutionResult>, named: Option<string>, k: nat)
    requires Smooth(env, naming) && !s.paused && s.state == RUNNING && 0 <= s.index <= |d.processes|
    ensures Run(d, env, naming, s, results, named, k).ending == Returned(true)
    ensures Run(d, env, naming, s, results, named, k).task.index == |d.processes|
    decreases |d.processes| - s.index
  {
    if s.index == |d.processes| {
      RunStops(d, env, naming, s, results, named, k);
    } else {
      var p := d.processes[s.index];
      assert env.perform(k, p, Params(p, d.parameterValues)).Ok?;
      assert !env.interrupted(k);
      var it := RunPasses(d, env, naming, s, results, named, k);
      RunCompletes(d, env, naming, it.task, it.results, it.named, k + 1);
    }
  }

  /** The stage exception an exception `execute` passes on stands for. */
  function CauseOf(e: TaskError): Thrown
    requires e.Wrapped? || e.InterruptedTask?
  {
    if e.InterruptedTask? then Interrupted else e.cause
  }

  /**
   * The exceptions `execute` passes on from a stage (not those a `catch`
   * block throws itself): the task is left FAILED, or ABORTED when the
   * stage's process exception asked for it, with its last run ended with
   * the exception's exit value and error message; an aborted task has no
   * listeners left.
   */
  predicate FailureRecorded(f: Final)
  {
    && f.ending.Threw? && (f.ending.error.Wrapped? || f.ending.error.InterruptedTask?)
    && var c := CauseOf(f.ending.error);
    && f.task.state == (if Aborts(c) then ABORTED else FAILED)
    && |f.task.runs| > 0
    && f.task.runs[|f.task.runs| - 1].exitValue == Some(ExitValueOf(c))
    && f.task.runs[|f.task.runs| - 1].errorMessage == ErrorMessageOf(c)
    && f.task.runs[|f.task.runs| - 1].ended
    && (Aborts(c) ==> f.task.listeners == {} && f.task.listenersFrozen)
  }

  /** A `catch` block that passes its exception on has recorded the failure. */
  lemma CaughtRecorded(d: Definition, s: Snapshot, results: seq<DefaultExecutionResult>, named: Option<string>, t: Thrown)
    requires !Caught(d, s, results, named, t).ending.error.Unchecked?
    ensures FailureRecorded(Caught(d, s, results, named, t))
    ensures Caught(d, s, results, named, t).ending.error == Passed(t)
  {
    var h := Handle(d, s, t);
    assert AtStage(d, s);
    var runs := h.after.runs;
    assert runs[|runs| - 1] == s.runs[|s.runs| - 1].(exitValue := Some(ExitValueOf(t)), errorMessage := ErrorMessageOf(t), ended := true);
  }

  /** The same for a pass of the loop that ends in an exception. */
  lemma IterateRecorded(d: Definition, env: Environment, naming: Naming, s: Snapshot, p: Process,
                        results: seq<DefaultExecutionResult>, named: Option<string>, k: nat)
    requires var it := Iterate(d, env, naming, s, p, results, named, k); it.Done? && !it.final.ending.error.Unchecked?
    ensures FailureRecorded(Iterate(d, env, naming, s, p, results, named, k).final)
  {
    if env.interrupted(k) {
      CaughtRecorded(d, s, results, named, Interrupted);
    } else {
      var s1 := StartStage(s, p);
      if naming.Naming? && !naming.argsPresent {
        CaughtRecorded(d, s1, results, named, Runtime(NullPointer));
      } else {
        var named1 := if naming.Naming? then Some(JobName(d, s1.index, p)) else named;
        var t := env.perform(k, p, Params(p, d.parameterValues)).error;
        CaughtRecorded(d, s1, results, named1, t);
      }
    }
  }

  /** The loop never refuses, and every exception it passes on from a stage was recorded as that stage's failure. */
  lemma {:induction false} RunFailed(d: Definition, env: Environment, naming: Naming, s: Snapshot,
                                     results: seq<DefaultExecutionResult>, named: Option<string>, k: nat)
    requires var e := Run(d, env, naming, s, results, named, k).ending; e.Threw? && !e.error.Unchecked?
    ensures FailureRecorded(Run(d, env, naming, s, results, named, k))
    decreases |d.processes| - s.index
  {
    if s.paused || CurrentProcess(d, s) == Ok(None) {
      RunStops(d, env, naming, s, results, named, k);
    } else if CurrentProcess(d, s).Ok? {
      var it := RunPasses(d, env, naming, s, results, named, k);
      if it.Done? {
        IterateRecorded(d, env, naming, s, d.processes[s.index], results, named, k);
      } else {
        RunFailed(d, env, naming, it.task, it.results, it.named, k + 1);
      }
    }
  }

  /** From the start of the loop, a running task that nothing goes wrong for runs all its remaining stages and completes. */
  lemma RunToEnd(d: Definition, env: Environment, naming: Naming, s: Snapshot)
    requires Smooth(env, naming) && !s.paused && s.state == RUNNING && 0 <= s.index <= |d.processes|
    ensures var f := Run(d, env, naming, s, [], None, 0);
      && f.ending == Returned(true) && f.task.state == COMPLETED && f.task.index == |d.processes|
      && f.task.runs == s.runs + CompletedRuns(d.processes[s.index..])
      && |f.results| == |d.processes| - s.index && PerformedFrom(d, env, 0, s.index, f.results)
      && f.task.listeners == {} && f.task.listenersFrozen
  {
    RunCompletes(d, env, naming, s, [], None, 0);
    RunReturned(d, env, naming, s, [], None, 0);
    RunSucceeded(d, env, naming, s, [], None, 0);
    var f := Run(d, env, naming, s, [], None, 0);
    WholeSuffix(f.results);
    RunsToLast(d.processes, s.index, s.runs, f.task.runs);
  }

  /** The runs of the stages from `i` up to the end of the pipeline are those of all stages from `i` on. */
  lemma RunsToLast(ps: seq<Process>, i: int, runs: seq<ProcessRun>, out: seq<ProcessRun>)
    requires 0 <= i <= |ps| && out == runs + CompletedRuns(ps[i..|ps|])
    ensures out == runs + CompletedRuns(ps[i..])
  {
    assert ps[i..|ps|] == ps[i..];
  }

  lemma WholeSuffix<T>(xs: seq<T>)
    ensures xs[0..] == xs
  {
  }

  /** What a normal return of the loop says about the runs and the results, together. */
  lemma RunReturned(d: Definition, env: Environment, naming: Naming, s: Snapshot,
                    results: seq<DefaultExecutionResult>, named: Option<string>, k: nat)
    requires 0 <= s.index <= |d.processes|
    requires Run(d, env, naming, s, results, named, k).ending.Returned?
    ensures var f := Run(d, env, naming, s, results, named, k);
      && s.index <= f.task.index <= |d.processes|
      && f.task.runs == s.runs + CompletedRuns(d.processes[s.index..f.task.index])
      && |f.results| == |results| + (f.task.index - s.index)
      && PerformedFrom(d, env, k, s.index, f.results[|results|..])
  {
    RunReturnedRuns(d, env, naming, s, results, named, k);
    RunReturnedCount(d, env, naming, s, results, named, k);
    RunReturnedResults(d, env, naming, s, results, named, k);
  }

  /**
   * `execute` on a task that was submitted and is neither running, aborted
   * nor paused: when nothing goes wrong it runs every stage from its index
   * to the end in pipeline order, returns one result per stage, and leaves
   * the task COMPLETED without listeners.
   */
  lemma ExecuteCompletes(d: Definition, env: Environment, naming: Naming, s: Snapshot)
    requires Smooth(env, naming)
    requires !BeforeSubmitted(s.state) && s.state != ABORTED && s.state != RUNNING
    requires !s.paused && 0 <= s.index <= |d.processes|
    ensures var f := Executed(d, env, naming, s);
      && f.ending == Returned(true) && f.task.state == COMPLETED && f.task.index == |d.processes|
      && f.task.runs == s.runs + CompletedRuns(d.processes[s.index..])
      && |f.results| == |d.processes| - s.index && PerformedFrom(d, env, 0, s.index, f.results)
      && f.task.listeners == {} && f.task.listenersFrozen
  {
    RunToEnd(d, env, naming, CheckState(d, s).after);
  }

  /**
   * As written, `execute` on a task left RUNNING (say by a shutdown) marks it
   * RECOVERED, and the loop, which only finds a current process while the
   * task is RUNNING, never starts: the task is reported COMPLETED and
   * successful with none of its remaining stages run.
   */
  lemma RecoveredTaskSkipsStages(d: Definition, env: Environment, naming: Naming, s: Snapshot)
    requires s.state == RUNNING && 0 <= s.index && |s.runs| > 0 && !s.paused && !env.interruptedAtEnd
    ensures var f := Executed(d, env, naming, s);
      && f.ending == Returned(true) && f.task.state == COMPLETED
      && f.task.index == s.index && f.task.runs == s.runs && f.results == []
  {
    var s1 := CheckState(d, s).after;
    RunStops(d, env, naming, s1, [], None, 0);
  }

  /**
   * `checkState` as it is evidently meant: a task recovered after a
   * shutdown is announced as RECOVERED and then goes on RUNNING from the
   * stage it was at.
   */
  function CheckStateResuming(d: Definition, s: Snapshot): (r: Checked)
    ensures s.state != RUNNING ==> r == CheckState(d, s)
    ensures s.state == RUNNING ==> (r.refusal.None? <==> 0 <= s.index && |s.runs| > 0)
    ensures r.refusal.None? ==> r.after.state == RUNNING
    ensures r.after.index == s.index && r.after.runs == s.runs && r.after.paused == s.paused
  {
    if s.state == RUNNING then
      var fired := TaskRecovered(d, s);
      if fired.thrown.Some? then Checked(fired.after, Some(Unchecked(fired.thrown.value)))
      else Checked(fired.after.(state := RUNNING), None)
    else CheckState(d, s)
  }

  /** `execute` with `checkState` as it is evidently meant. */
  function ExecutedResuming(d: Definition, env: Environment, naming: Naming, s: Snapshot): Final
  {
    var c := CheckStateResuming(d, s);
    if c.refusal.Some? then Final(c.after, [], None, Threw(c.refusal.value))
    else Run(d, env, naming, c.after, [], None, 0)
  }

  /** With the corrected `checkState`, a recovered task runs its remaining stages in order and completes. */
  lemma RecoveredTaskResumes(d: Definition, env: Environment, naming: Naming, s: Snapshot)
    requires Smooth(env, naming)
    requires s.state == RUNNING && 0 <= s.index <= |d.processes| && |s.runs| > 0 && !s.paused
    ensures var f := ExecutedResuming(d, env, naming, s);
      && f.ending == Returned(true) && f.task.state == COMPLETED && f.task.index == |d.processes|
      && f.task.runs == s.runs + CompletedRuns(d.processes[s.index..])
      && |f.results| == |d.processes| - s.index && PerformedFrom(d, env, 0, s.index, f.results)
  {
    RunToEnd(d, env, naming, CheckStateResuming(d, s).after);
  }

  /**
   * An interrupt noticed at the top of a pass, after an earlier stage went
   * through, is recorded on the earlier stage's run: that run, which had
   * ended with exit value 0, is ended again with exit value 1, and the index
   * moves past the stage that never started.
   */
  lemma InterruptBeforeStage(d: Definition, env: Environment, naming: Naming, s: Snapshot,
                             results: seq<DefaultExecutionResult>, named: Option<string>, k: nat)
    requires !s.paused && s.state == RUNNING && 0 <= s.index < |d.processes| && |s.runs| > 0
    requires env.interrupted(k)
    ensures var f := Run(d, env, naming, s, results, named, k);
      && f.ending == Threw(InterruptedTask) && f.task.state == FAILED
      && f.task.index == s.index + 1 && |f.task.runs| == |s.runs|
      && f.task.runs[|s.runs| - 1] == s.runs[|s.runs| - 1].(exitValue := Some(1), errorMessage := None, ended := true)
  {
    var it := RunPasses(d, env, naming, s, results, named, k);
    assert it.final == Caught(d, s, results, named, Interrupted);
  }

  // ---------------------------------------------------------------------------
  // The task object

  /** The runs of one process, in the order they were started. */
  function RunsOf(runs: seq<ProcessRun>, name: string): (r: seq<ProcessRun>)
    ensures |r| <= |runs|
    ensures forall x :: x in r ==> x in runs && x.processName == name
    ensures forall x :: x in runs && x.processName == name ==> x in r
  {
    if runs == [] then []
    else
      var last := runs[|runs| - 1];
      RunsOf(runs[..|runs| - 1], name) + (if last.processName == name then [last] else [])
  }

  /** The naming `execute` will do with this context, read before it starts. */
  function NamingOf(ctx: ExecutionContext): Naming
    reads ctx, ctx.scheduler
  {
    if ctx.UsingScheduler() && ctx.monitorFile.None? then
      Naming(ctx.jobName.None? || ctx.jobName == Some(""), ctx.scheduler.args != null)
    else NoNaming
  }

  /** The settings of the context's scheduler's args, if there are any. */
  function SettingsOf(ctx: ExecutionContext): Option<Settings>
    reads ctx, ctx.scheduler, if ctx.scheduler == null then {} else {ctx.scheduler.args}
  {
    if ctx.scheduler == null then None else ctx.scheduler.Settings()
  }

  /**
   * The args' settings after naming a stage's monitor file for the job name
   * given (and the job name itself when the context has none).
   */
  function NamedSettings(base: Option<Settings>, naming: Naming, named: Option<string>): (r: Option<Settings>)
    ensures r.Some? <==> base.Some?
    ensures naming.NoNaming? || named.None? ==> r == base
    ensures base.Some? && naming.Naming? && named.Some? ==>
      && r.value.monitorFile == Some(named.value + ".log")
      && r.value.jobName == (if naming.setJobName then named else base.value.jobName)
      && r.value == base.value.(jobName := r.value.jobName, monitorFile := r.value.monitorFile)
  {
    if base.Some? && naming.Naming? && named.Some? then
      Some(base.value.(jobName := if naming.setJobName then named else base.value.jobName,
                       monitorFile := Some(named.value + ".log")))
    else base
  }

  /** Naming a stage again overwrites the previous naming. */
  lemma NamedTwice(base: Option<Settings>, naming: Naming, a: Option<string>, b: Option<string>)
    ensures NamedSettings(NamedSettings(base, naming, a), naming, b) == NamedSettings(base, naming, if b.Some? then b else a)
  {
  }

  class ConanTask {
    const definition: Definition
    var index: int
    var id: Option<string>
    var processRuns: seq<ProcessRun>
    var currentState: State
    var statusMessage: string
    var submitted: bool
    var paused: bool
    var listeners: set<Listener>
    var listenersFrozen: bool
    var events: seq<Event>

    /** The fields the event methods and `execute` change. */
    function Value(): Snapshot
      reads this
    {
      Snapshot(index, processRuns, currentState, statusMessage, paused, listeners, listenersFrozen, events)
    }

    /** The constructor ignores nothing but dates: the task starts CREATED at the index given, with no runs and no listeners. */
    constructor (definition: Definition, firstTaskIndex: int)
      ensures this.definition == definition && id.None? && !submitted
      ensures Value() == Snapshot(firstTaskIndex, [], CREATED, TASK_CREATED, false, {}, false, [])
    {
      this.definition := definition;
      index := firstTaskIndex;
      id := None;
      processRuns := [];
      listeners := {};
      listenersFrozen := false;
      events := [];
      paused := false;
      submitted := false;
      currentState := CREATED;
      statusMessage := TASK_CREATED;
    }

    /** `addConanTaskListener`: true if the listener was new; the immutable set left by a finished `execute` refuses it. */
    method AddListener(l: Listener) returns (r: Result<bool, Fault>)
      modifies this
      ensures old(listenersFrozen) ==> r == Err(UnsupportedOperation) && listeners == old(listeners)
      ensures !old(listenersFrozen) ==> r == Ok(l !in old(listeners)) && listeners == old(listeners) + {l}
      ensures Value() == old(Value()).(listeners := listeners) && id == old(id) && submitted == old(submitted)
    {
      if listenersFrozen {
        return Err(UnsupportedOperation);
      }
      r := Ok(l !in listeners);
      listeners := listeners + {l};
    }

    /** `removeConanTaskListener`: true if the listener was there. */
    method RemoveListener(l: Listener) returns (r: bool)
      modifies this
      ensures r == (l in old(listeners)) && listeners == old(listeners) - {l}
      ensures Value() == old(Value()).(listeners := listeners) && id == old(id) && submitted == old(submitted)
    {
      r := l in listeners;
      listeners := listeners - {l};
    }

    method SetId(v: Option<string>)
      modifies this
      ensures id == v && Value() == old(Value()) && submitted == old(submitted)
    {
      id := v;
    }

    /** Every listener registered at the moment is told of the task's current state. */
    method Broadcast(kind: EventKind, p: Option<Process>)
      modifies this
      ensures Value() == Notify(old(Value()), kind, p) && id == old(id) && submitted == old(submitted)
    {
      events := events + [Event(kind, currentState, p, listeners)];
    }

    /** `fireTaskSubmittedEvent` */
    method FireTaskSubmitted()
      modifies this
      ensures Value() == TaskSubmitted(definition, old(Value())) && id == old(id) && submitted == old(submitted)
    {
      currentState := SUBMITTED;
      statusMessage := "Submitted";
      Broadcast(StateChanged, FirstProcess(definition));
    }

    /** `submit`: the first call marks the task submitted; later calls do nothing. */
    method Submit()
      modifies this
      ensures submitted && id == old(id)
      ensures old(submitted) ==> Value() == old(Value())
      ensures !old(submitted) ==> Value() == TaskSubmitted(definition, old(Value()))
    {
      if !submitted {
        submitted := true;
        FireTaskSubmitted();
      }
    }

    /** `pause`: only the flag; the loop of `execute` stops at its next test. */
    method Pause()
      modifies this
      ensures Value() == old(Value()).(paused := true) && id == old(id) && submitted == old(submitted)
    {
      paused := true;
    }

    /** `resume`: only the flag. */
    method Resume()
      modifies this
      ensures Value() == old(Value()).(paused := false) && id == old(id) && submitted == old(submitted)
    {
      paused := false;
    }

    /** `retryLastProcess`: back one stage in `int` arithmetic, and no longer paused. */
    method RetryLastProcess()
      modifies this
      ensures Value() == old(Value()).(index := Wrap32(old(index) - 1), paused := false)
      ensures INT_MIN < old(index) <= INT_MAX ==> index == old(index) - 1
      ensures old(index) == INT_MIN ==> index == INT_MAX
      ensures id == old(id) && submitted == old(submitted)
    {
      index := Wrap32(index - 1);
      paused := false;
    }

    /** `restart` is not supported. */
    method Restart() returns (r: Result<(), Fault>)
      ensures r == Err(UnsupportedOperation)
    {
      r := Err(UnsupportedOperation);
    }

    /** `fireTaskStartedEvent` */
    method FireTaskStarted()
      modifies this
      ensures Value() == TaskStarted(definition, old(Value())) && id == old(id) && submitted == old(submitted)
    {
      if currentState == SUBMITTED {
        statusMessage := "Started";
      } else {
        statusMessage := "Restarted";
      }
      currentState := RUNNING;
      Broadcast(StateChanged, FirstProcess(definition));
    }

    /** `fireTaskRecoveryEvent` */
    method FireTaskRecovery() returns (thrown: Option<Fault>)
      modifies this
      ensures Fired(Value(), thrown) == TaskRecovered(definition, old(Value()))
      ensures id == old(id) && submitted == old(submitted)
    {
      currentState := RECOVERED;
      statusMessage := "Recovered";
      var next := NextProcess(definition, Value());
      if next.Err? {
        return Some(next.error);
      }
      if |processRuns| == 0 {
        return Some(IndexOutOfBounds);
      }
      Broadcast(StateChanged, next.value);
      thrown := None;
    }

    /** `fireTaskPausedEvent` */
    method FireTaskPaused() returns (thrown: Option<Fault>)
      modifies this
      ensures Fired(Value(), thrown) == TaskPaused(definition, old(Value()))
      ensures id == old(id) && submitted == old(submitted)
    {
      currentState := PAUSED;
      var next := NextProcess(definition, Value());
      if next.Err? {
        return Some(next.error);
      }
      if next.value.None? {
        statusMessage := "Paused during the last process";
      } else {
        statusMessage := "Paused before '" + next.value.value.name + "'";
      }
      if |processRuns| == 0 {
        return Some(IndexOutOfBounds);
      }
      Broadcast(StateChanged, None);
      thrown := None;
    }

    /** `fireTaskCompletedEvent` */
    method FireTaskCompleted()
      modifies this
      ensures Value() == TaskCompleted(old(Value())) && id == old(id) && submitted == old(submitted)
    {
      currentState := COMPLETED;
      statusMessage := "Complete";
      Broadcast(StateChanged, None);
      listeners := {};
    }

    /** `fireTaskAbortedEvent`, which is all `abort` does. */
    method Abort()
      modifies this
      ensures Value() == TaskAborted(definition, old(Value())) && id == old(id) && submitted == old(submitted)
    {
      currentState := ABORTED;
      var last := LastProcess(definition, Value());
      if last.None? {
        statusMessage := "Aborted before the first process started";
      } else {
        statusMessage := "Aborted after '" + last.value.name + "'";
      }
      Broadcast(StateChanged, None);
    }

    /** `fireProcessStartedEvent` once the current process is known to be `p`. */
    method StartStageOf(p: Process)
      modifies this
      ensures Value() == StartStage(old(Value()), p) && id == old(id) && submitted == old(submitted)
    {
      currentState := RUNNING;
      processRuns := processRuns + [NewRun(p.name)];
      statusMessage := "Doing '" + p.name + "'";
      Broadcast(ProcessStarted, Some(p));
    }

    /** `fireProcessEndedEvent` once the current process is known to be `p`. */
    method EndStageOf(p: Process)
      requires |processRuns| > 0
      modifies this
      ensures Value() == EndStage(definition, old(Value()), p) && id == old(id) && submitted == old(submitted)
    {
      statusMessage := "Finished '" + p.name + "'";
      index := index + 1;
      EndLastRun(0, None);
      Broadcast(ProcessEnded, LastProcess(definition, Value()));
    }

    /** `getLastProcessRun()` ended with the exit value and error message given. */
    method EndLastRun(exitValue: int, errorMessage: Option<string>)
      requires |processRuns| > 0
      modifies this
      ensures Value() == old(Value()).(runs := EndLast(old(processRuns), exitValue, errorMessage))
      ensures id == old(id) && submitted == old(submitted)
    {
      var last := processRuns[|processRuns| - 1];
      processRuns := processRuns[..|processRuns| - 1] +
                     [last.(exitValue := Some(exitValue), errorMessage := errorMessage, ended := true)];
    }

    /** The common part of `fireProcessFailedEvent` and `fireProcessInterruptedEvent` for the current process `p`. */
    method StopStageOf(p: Process, verb: string, exitValue: int, errorMessage: Option<string>) returns (thrown: Option<Fault>)
      modifies this
      ensures Fired(Value(), thrown) == StopStage(definition, old(Value()), p, verb, exitValue, errorMessage)
      ensures id == old(id) && submitted == old(submitted)
    {
      MarkStopped(p, verb);
      if |processRuns| == 0 {
        return Some(IndexOutOfBounds);
      }
      EndLastRun(exitValue, errorMessage);
      Broadcast(ProcessFailed, LastProcess(definition, Value()));
      thrown := None;
    }

    /** The fields a failed or interrupted stage sets before its run is looked up. */
    method MarkStopped(p: Process, verb: string)
      modifies this
      ensures Value() == old(Value()).(message := verb + " at '" + p.name + "'", state := FAILED, index := old(index) + 1)
      ensures id == old(id) && submitted == old(submitted)
    {
      statusMessage := verb + " at '" + p.name + "'";
      currentState := FAILED;
      index := index + 1;
    }

    /** `fireProcessStartedEvent` */
    method FireProcessStarted() returns (thrown: Option<Fault>)
      modifies this
      ensures Fired(Value(), thrown) == ProcessStartedEvent(definition, old(Value()))
      ensures id == old(id) && submitted == old(submitted)
    {
      var current := CurrentProcess(definition, Value());
      if current.Err? {
        return Some(current.error);
      } else if current.value.None? {
        return Some(NullPointer);
      }
      StartStageOf(current.value.value);
      thrown := None;
    }

    /** `fireProcessEndedEvent` */
    method FireProcessEnded() returns (thrown: Option<Fault>)
      modifies this
      ensures Fired(Value(), thrown) == ProcessEndedEvent(definition, old(Value()))
      ensures id == old(id) && submitted == old(submitted)
    {
      var current := CurrentProcess(definition, Value());
      if current.Err? {
        return Some(current.error);
      } else if current.value.None? {
        return Some(NullPointer);
      }
      var p := current.value.value;
      if |processRuns| == 0 {
        statusMessage := "Finished '" + p.name + "'";
        index := index + 1;
        return Some(IndexOutOfBounds);
      }
      EndStageOf(p);
      thrown := None;
    }

    /** `fireProcessFailedEvent` */
    method FireProcessFailed(exitValue: int, errorMessage: Option<string>) returns (thrown: Option<Fault>)
      modifies this
      ensures Fired(Value(), thrown) == ProcessFailedEvent(definition, old(Value()), exitValue, errorMessage)
      ensures id == old(id) && submitted == old(submitted)
    {
      var current := CurrentProcess(definition, Value());
      if current.Err? {
        return Some(current.error);
      } else if current.value.None? {
        return Some(NullPointer);
      }
      thrown := StopStageOf(current.value.value, "Failed", exitValue, errorMessage);
    }

    /** `fireProcessInterruptedEvent` */
    method FireProcessInterrupted() returns (thrown: Option<Fault>)
      modifies this
      ensures Fired(Value(), thrown) == ProcessInterruptedEvent(definition, old(Value()))
      ensures id == old(id) && submitted == old(submitted)
    {
      var current := CurrentProcess(definition, Value());
      if current.Err? {
        return Some(current.error);
      } else if current.value.None? {
        return Some(NullPointer);
      }
      thrown := StopStageOf(current.value.value, "Killed", 1, None);
    }
 
    /** `checkState` */
    method CheckTaskState() returns (refusal: Option<TaskError>)
      modifies this
      ensures Checked(Value(), refusal) == CheckState(definition, old(Value()))
      ensures id == old(id) && submitted == old(submitted)
    {
      if currentState == ABORTED {
        return Some(Refused(ABORTED_REFUSAL));
      } else if BeforeSubmitted(currentState) {
        return Some(Refused(NOT_SUBMITTED_REFUSAL));
      } else if currentState == RUNNING {
        var thrown := FireTaskRecovery();
        refusal := if thrown.Some? then Some(Unchecked(thrown.value)) else None;
      } else {
        FireTaskStarted();
        refusal := None;
      }
    }

    /** `checkState` as it is evidently meant: a recovered task goes on RUNNING. */
    method CheckTaskStateResuming() returns (refusal: Option<TaskError>)
      modifies this
      ensures Checked(Value(), refusal) == CheckStateResuming(definition, old(Value()))
      ensures id == old(id) && submitted == old(submitted)
    {
      if currentState == RUNNING {
        var thrown := FireTaskRecovery();
        if thrown.Some? {
          return Some(Unchecked(thrown.value));
        }
        currentState := RUNNING;
        refusal := None;
      } else {
        refusal := CheckTaskState();
      }
    }

    /** `checkExitStatus`, told whether the thread is still interrupted. */
    method CheckExitStatus(interruptedAtEnd: bool) returns (status: Result<bool, Fault>)
      modifies this
      ensures Exit(Value(), status) == ExitStatus(definition, old(Value()), interruptedAtEnd)
      ensures id == old(id) && submitted == old(submitted)
    {
      if paused {
        var thrown := FireTaskPaused();
        status := if thrown.Some? then Err(thrown.value) else Ok(false);
      } else if interruptedAtEnd {
        status := Ok(false);
      } else {
        FireTaskCompleted();
        status := Ok(true);
      }
    }

    /** The `finally` block of `execute`. */
    method ReleaseListeners()
      modifies this
      ensures Value() == Finally(old(Value())) && id == old(id) && submitted == old(submitted)
    {
      if currentState == COMPLETED || currentState == ABORTED {
        listeners := {};
        listenersFrozen := true;
      }
    }

    /** The `catch` blocks of `execute` for an exception `t`, then the `finally` block. */
    method Catch(t: Thrown) returns (error: TaskError)
      modifies this
      ensures var h := Handle(definition, old(Value()), t); Value() == Finally(h.after) && error == h.error
      ensures id == old(id) && submitted == old(submitted)
    {
      var current := CurrentProcess(definition, Value());
      if current.Err? {
        error := Unchecked(current.error);
      } else if current.value.None? {
        error := Unchecked(NullPointer);
      } else {
        var verb := if t.Interrupted? then "Killed" else "Failed";
        var thrown := StopStageOf(current.value.value, verb, ExitValueOf(t), ErrorMessageOf(t));
        if thrown.Some? {
          error := Unchecked(thrown.value);
        } else {
          if Aborts(t) {
            Abort();
          }
          error := Passed(t);
        }
      }
      ReleaseListeners();
    }

    /** The parameters the current process `p` is given. */
    method NextProcessParams(p: Process) returns (m: map<Parameter, Option<string>>)
      ensures m == Params(p, definition.parameterValues)
    {
      var values := definition.parameterValues;
      m := map[];
      var i := 0;
      while i < |p.parameters|
        invariant 0 <= i <= |p.parameters|
        invariant forall q :: q in m <==> q in p.parameters[..i]
        invariant forall q :: q in m ==> m[q] == if q in values then Some(values[q]) else None
      {
        var q := p.parameters[i];
        m := m[q := if q in values then Some(values[q]) else None];
        i := i + 1;
      }
      assert p.parameters[..i] == p.parameters;
    }

    /** `getConanProcessRunsForProcess`: the runs of a process of the pipeline; any other process is refused. */
    method RunsForProcess(p: Process) returns (r: Result<seq<ProcessRun>, Fault>)
      ensures r.Err? <==> p !in definition.processes
      ensures r.Err? ==> r.error == IllegalArgument
      ensures r.Ok? ==> r.value == RunsOf(processRuns, p.name)
    {
      if p !in definition.processes {
        return Err(IllegalArgument);
      }
      var found := [];
      var i := 0;
      while i < |processRuns|
        invariant 0 <= i <= |processRuns|
        invariant found == RunsOf(processRuns[..i], p.name)
      {
        if processRuns[i].processName == p.name {
          found := found + [processRuns[i]];
        }
        assert processRuns[..i + 1][..i] == processRuns[..i];
        i := i + 1;
      }
      assert processRuns[..i] == processRuns;
      r := Ok(found);
    }
 
    /**
     * One pass of the loop of `execute` for the current process `p`: the
     * interrupt check, the parameters, the start of the stage, the naming of
     * the monitor file, the process itself and the end of the stage; an
     * exception goes to the `catch` and `finally` blocks. `renamed` is the job
     * name the scheduler's args were given, if they were.
     */
    method Pass(ctx: ExecutionContext, env: Environment, ghost naming: Naming, ghost base: Option<Settings>, p: Process, k: nat,
                results: seq<DefaultExecutionResult>, named: Option<string>)
      returns (done: bool, nextResults: seq<DefaultExecutionResult>, nextNamed: Option<string>, ending: Ending)
      requires naming == NamingOf(ctx) && SettingsOf(ctx) == NamedSettings(base, naming, named)
      modifies this, if ctx.scheduler == null then {} else {ctx.scheduler.args}
      ensures Reached(Iterate(definition, env, naming, old(Value()), p, results, named, k), done, nextResults, nextNamed, ending)
      ensures SettingsOf(ctx) == NamedSettings(base, naming, nextNamed)
      ensures id == old(id) && submitted == old(submitted)
    {
      if env.interrupted(k) {
        var e := Catch(Interrupted);
        return true, results, named, Threw(e);
      }
      IterateStarted(definition, env, naming, Value(), p, results, named, k);
      var params := NextProcessParams(p);
      StartStageOf(p);
      done, nextResults, nextNamed, ending := NamedPass(ctx, env, naming, base, p, k, params, results, named);
    }

    /** Whether the outcome of a pass, and the task after it, are those of `pr`. */
    ghost predicate Reached(pr: Progress, done: bool, nextResults: seq<DefaultExecutionResult>, nextNamed: Option<string>, ending: Ending)
      reads this
    {
      && (done <==> pr.Done?)
      && (done ==> Final(Value(), nextResults, nextNamed, ending) == pr.final)
      && (!done ==> Value() == pr.task && nextResults == pr.results && nextNamed == pr.named)
    }

    /** A pass once the stage of `p` has started: the naming of the monitor file, then the process itself. */
    method NamedPass(ctx: ExecutionContext, env: Environment, ghost naming: Naming, ghost base: Option<Settings>, p: Process, k: nat,
                     params: map<Parameter, Option<string>>, results: seq<DefaultExecutionResult>, named: Option<string>)
      returns (done: bool, nextResults: seq<DefaultExecutionResult>, nextNamed: Option<string>, ending: Ending)
      requires naming == NamingOf(ctx) && SettingsOf(ctx) == NamedSettings(base, naming, named)
      requires |processRuns| > 0 && params == Params(p, definition.parameterValues)
      modifies this, if ctx.scheduler == null then {} else {ctx.scheduler.args}
      ensures Reached(Staged(definition, env, naming, old(Value()), p, results, named, k), done, nextResults, nextNamed, ending)
      ensures SettingsOf(ctx) == NamedSettings(base, naming, nextNamed)
      ensures id == old(id) && submitted == old(submitted)
    {
      var argsPresent, jobName := NameStage(ctx, naming, p);
      NamedTwice(base, naming, named, jobName);
      nextNamed := if jobName.Some? then jobName else named;
      done, nextResults, ending := StagedPass(env, naming, p, k, params, results, named, argsPresent, nextNamed);
    }

    /**
     * A pass once its stage has started and the naming of the monitor file
     * has been tried: args missing from the scheduler throw, otherwise the
     * process runs under the name the pass goes on with.
     */
    method StagedPass(env: Environment, ghost naming: Naming, p: Process, k: nat, params: map<Parameter, Option<string>>,
                      results: seq<DefaultExecutionResult>, ghost named: Option<string>, argsPresent: bool, nextNamed: Option<string>)
      returns (done: bool, nextResults: seq<DefaultExecutionResult>, ending: Ending)
      requires |processRuns| > 0 && params == Params(p, definition.parameterValues)
      requires argsPresent <==> naming.Naming? ==> naming.argsPresent
      requires nextNamed == if argsPresent && naming.Naming? then Some(JobName(definition, index, p)) else named
      modifies this
      ensures Reached(Staged(definition, env, naming, old(Value()), p, results, named, k), done, nextResults, nextNamed, ending)
      ensures id == old(id) && submitted == old(submitted)
    {
      if !argsPresent {
        var e := Catch(Runtime(NullPointer));
        return true, results, Threw(e);
      }
      done, nextResults, ending := Attempt(env, p, k, params, results, nextNamed);
    }

    /** The process itself, once its stage has started: its result is kept and the stage ended, or its exception caught. */
    method Attempt(env: Environment, p: Process, k: nat, params: map<Parameter, Option<string>>,
                   results: seq<DefaultExecutionResult>, ghost named: Option<string>)
      returns (done: bool, nextResults: seq<DefaultExecutionResult>, ending: Ending)
      requires |processRuns| > 0 && params == Params(p, definition.parameterValues)
      modifies this
      ensures Reached(Attempted(definition, env, old(Value()), p, results, named, k), done, nextResults, named, ending)
      ensures id == old(id) && submitted == old(submitted)
    {
      var out := env.perform(k, p, params);
      if out.Err? {
        var e := Catch(out.error);
        return true, results, Threw(e);
      }
      EndStageOf(p);
      return false, results + [out.value], Returned(false);
    }

    /**
     * The naming of the monitor file before a stage runs: when the context
     * uses a scheduler and has no monitor file, the stage's job name names
     * the monitor file, and the job too when the context has no job name;
     * args missing from the scheduler make it throw (`argsPresent` false).
     */
    method NameStage(ctx: ExecutionContext, ghost naming: Naming, p: Process) returns (argsPresent: bool, renamed: Option<string>)
      requires naming == NamingOf(ctx)
      modifies if ctx.scheduler == null then {} else {ctx.scheduler.args}
      ensures argsPresent <==> naming.Naming? ==> naming.argsPresent
      ensures renamed == if argsPresent && naming.Naming? then Some(JobName(definition, index, p)) else None
      ensures SettingsOf(ctx) == NamedSettings(old(SettingsOf(ctx)), naming, renamed)
    {
      argsPresent, renamed := true, None;
      if ctx.UsingScheduler() && ctx.monitorFile.None? {
        var jobName := JobName(definition, index, p);
        var args := ctx.scheduler.args;
        if args == null {
          return false, None;
        }
        if ctx.jobName.None? || ctx.jobName == Some("") {
          args.SetJobName(Some(jobName));
        }
        args.SetMonitorFile(Some(jobName + ".log"));
        renamed := Some(jobName);
      }
    }

    /** After the loop of `execute`: `checkExitStatus`, any exception it throws handled, and the `finally` block. */
    method FinishLoop(env: Environment, ghost results: seq<DefaultExecutionResult>, ghost named: Option<string>)
      returns (ending: Ending)
      modifies this
      ensures Final(Value(), results, named, ending) == AfterLoop(definition, env, old(Value()), results, named)
      ensures id == old(id) && submitted == old(submitted)
    {
      var status := CheckExitStatus(env.interruptedAtEnd);
      if status.Err? {
        var e := Catch(Runtime(status.error));
        ending := Threw(e);
      } else {
        ReleaseListeners();
        ending := Returned(status.value);
      }
    }

    /**
     * One turn of the loop of `execute` from attempt `k`: the loop test, and
     * then either the exit status or one pass over the current process.
     */
    method Turn(ctx: ExecutionContext, env: Environment, ghost naming: Naming, ghost base: Option<Settings>, k: nat,
                results: seq<DefaultExecutionResult>, named: Option<string>, ghost run: Final)
      returns (done: bool, nextResults: seq<DefaultExecutionResult>, nextNamed: Option<string>, ending: Ending)
      requires naming == NamingOf(ctx) && SettingsOf(ctx) == NamedSettings(base, naming, named)
      requires Run(definition, env, naming, Value(), results, named, k) == run
      modifies this, if ctx.scheduler == null then {} else {ctx.scheduler.args}
      ensures done ==> Final(Value(), nextResults, nextNamed, ending) == run
      ensures !done ==> Run(definition, env, naming, Value(), nextResults, nextNamed, k + 1) == run
      ensures !done ==> 0 <= old(index) < |definition.processes| && index == old(index) + 1
      ensures SettingsOf(ctx) == NamedSettings(base, naming, nextNamed)
      ensures id == old(id) && submitted == old(submitted)
    {
      var current := CurrentProcess(definition, Value());
      if paused || current == Ok(None) {
        RunStops(definition, env, naming, Value(), results, named, k);
        ending := FinishLoop(env, results, named);
        return true, results, named, ending;
      }
      if current.Err? {
        var e := Catch(Runtime(current.error));
        return true, results, named, Threw(e);
      }
      ghost var it := RunPasses(definition, env, naming, Value(), results, named, k);
      done, nextResults, nextNamed, ending := Pass(ctx, env, naming, base, current.value.value, k, results, named);
    }

    /** The `try` block of `execute`: the loop over the stages, then the exit status. */
    method RunStages(ctx: ExecutionContext, env: Environment)
      returns (results: seq<DefaultExecutionResult>, named: Option<string>, ending: Ending)
      modifies this, if ctx.scheduler == null then {} else {ctx.scheduler.args}
      ensures Final(Value(), results, named, ending) == Run(definition, env, NamingOf(ctx), old(Value()), [], None, 0)
      ensures SettingsOf(ctx) == NamedSettings(old(SettingsOf(ctx)), NamingOf(ctx), named)
      ensures id == old(id) && submitted == old(submitted)
    {
      results, named := [], None;
      var k: nat := 0;
      ghost var naming := NamingOf(ctx);
      ghost var target := Run(definition, env, naming, Value(), [], None, 0);
      ghost var base := SettingsOf(ctx);
      while true
        invariant naming == NamingOf(ctx)
        invariant Run(definition, env, naming, Value(), results, named, k) == target
        invariant SettingsOf(ctx) == NamedSettings(base, naming, named)
        invariant id == old(id) && submitted == old(submitted)
        decreases |definition.processes| - index
      {
        var done, nextResults, nextNamed, nextEnding := Turn(ctx, env, naming, base, k, results, named, target);
        results, named := nextResults, nextNamed;
        if done {
          ending := nextEnding;
          return;
        }
        k := k + 1;
      }
    }

    /** The rest of `execute` once `checkState` let it through: the `try` block, and the task result made from it. */
    method Proceed(ctx: ExecutionContext, env: Environment) returns (r: Result<DefaultTaskResult, TaskError>)
      modifies this, if ctx.scheduler == null then {} else {ctx.scheduler.args}
      ensures var f := Run(definition, env, old(NamingOf(ctx)), old(Value()), [], None, 0);
        && Value() == f.task
        && (r.Ok? <==> f.ending.Returned?)
        && (r.Ok? ==> && fresh(r.value) && r.value.taskName == id && r.value.success == f.ending.success
                      && r.value.processResults == f.results && r.value.actualTotalRuntime == env.elapsedMillis / 1000)
        && (r.Err? ==> f.ending == Threw(r.error))
        && SettingsOf(ctx) == NamedSettings(old(SettingsOf(ctx)), old(NamingOf(ctx)), f.named)
      ensures id == old(id) && submitted == old(submitted)
    {
      ghost var naming := NamingOf(ctx);
      ghost var f := Run(definition, env, naming, Value(), [], None, 0);
      var results, named, ending := RunStages(ctx, env);
      assert NamingOf(ctx) == naming;
      assert Final(Value(), results, named, ending) == f;
      if ending.Threw? {
        return Err(ending.error);
      }
      ghost var after := Value();
      ghost var settings := SettingsOf(ctx);
      var result := new DefaultTaskResult(id, ending.success, results, env.elapsedMillis / 1000);
      assert Value() == after && SettingsOf(ctx) == settings;
      r := Ok(result);
    }

    /**
     * `execute(context)`: the refusals of `checkState` come back as errors;
     * otherwise the task result names the task, carries the exit status and
     * the stages' results in order, and the runtime in whole seconds.
     */
    method Execute(ctx: ExecutionContext, env: Environment) returns (r: Result<DefaultTaskResult, TaskError>)
      modifies this, if ctx.scheduler == null then {} else {ctx.scheduler.args}
      ensures var f := Executed(definition, env, old(NamingOf(ctx)), old(Value()));
        && Value() == f.task
        && (r.Ok? <==> f.ending.Returned?)
        && (r.Ok? ==> && fresh(r.value) && r.value.taskName == id && r.value.success == f.ending.success
                      && r.value.processResults == f.results && r.value.actualTotalRuntime == env.elapsedMillis / 1000)
        && (r.Err? ==> f.ending == Threw(r.error))
        && SettingsOf(ctx) == NamedSettings(old(SettingsOf(ctx)), old(NamingOf(ctx)), f.named)
      ensures id == old(id) && submitted == old(submitted)
    {
      ghost var naming := NamingOf(ctx);
      ghost var s0 := Value();
      var refusal := CheckTaskState();
      assert Executed(definition, env, naming, s0)
          == if refusal.Some? then Final(Value(), [], None, Threw(refusal.value))
             else Run(definition, env, naming, Value(), [], None, 0);
      if refusal.Some? {
        return Err(refusal.value);
      }
      r := Proceed(ctx, env);
    }

    /** `execute()`: on a new default context, which has no scheduler, so no monitor file is named. */
    method ExecuteDefault(env: Environment) returns (r: Result<DefaultTaskResult, TaskError>)
      modifies this
      ensures var f := Executed(definition, env, NoNaming, old(Value()));
        && Value() == f.task
        && (r.Ok? <==> f.ending.Returned?)
        && (r.Ok? ==> && fresh(r.value) && r.value.success == f.ending.success && r.value.processResults == f.results)
        && (r.Err? ==> f.ending == Threw(r.error))
    {
      var ctx := new ExecutionContext();
      r := Execute(ctx, env);
    }

    /** `execute(context)` with `checkState` as it is evidently meant, so that a recovered task resumes its stages. */
    method ExecuteResuming(ctx: ExecutionContext, env: Environment) returns (r: Result<DefaultTaskResult, TaskError>)
      modifies this, if ctx.scheduler == null then {} else {ctx.scheduler.args}
      ensures var f := ExecutedResuming(definition, env, old(NamingOf(ctx)), old(Value()));
        && Value() == f.task
        && (r.Ok? <==> f.ending.Returned?)
        && (r.Ok? ==> && fresh(r.value) && r.value.taskName == id && r.value.success == f.ending.success
                      && r.value.processResults == f.results && r.value.actualTotalRuntime == env.elapsedMillis / 1000)
        && (r.Err? ==> f.ending == Threw(r.error))
        && SettingsOf(ctx) == NamedSettings(old(SettingsOf(ctx)), old(NamingOf(ctx)), f.named)
      ensures id == old(id) && submitted == old(submitted)
    {
      ghost var naming := NamingOf(ctx);
      ghost var s0 := Value();
      var refusal := CheckTaskStateResuming();
      assert ExecutedResuming(definition, env, naming, s0)
          == if refusal.Some? then Final(Value(), [], None, Threw(refusal.value))
             else Run(definition, env, naming, Value(), [], None, 0);
      if refusal.Some? {
        return Err(refusal.value);
      }
      r := Proceed(ctx, env);
    }
  }
}
