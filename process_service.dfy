/**
 * DefaultProcessService: runs a command in an execution context. It opens
 * the context's locality, wraps the command in the scheduler's submit
 * command when there is a scheduler, picks how the locality runs it, reads
 * the job's resource usage and closes the locality again. It also waits for
 * scheduled jobs and checks whether an executable is on the PATH.
 */
module ProcessService {
  import opened Wrappers
  import opened Faults
  import opened JavaText
  import opened Usage
  import opened SchedulerArguments
  import opened SchedulerCommon
  import opened Schedulers
  import opened Contexts
  import opened ProcessFailure
  import opened ExecutionResults
  import opened LocalLocality

  /**
   * The locality of a context as the service meets it: whether it connects
   * and disconnects, whether writing a result's output to a file succeeds,
   * and the machine commands run on.
   */
  datatype Session = Session(connects: bool, disconnects: bool, outputWritten: bool, host: Host)

  /** A session on the local shell, which always connects and disconnects. */
  function LocalSession(outputWritten: bool, host: Host): (s: Session)
    ensures s.connects && s.disconnects
  {
    Session(CONNECTS, DISCONNECTS, outputWritten, host)
  }

  function NoConnection(command: string): string
  {
    "Could not establish connection to the terminal.  Command " + command + " will not be submitted."
  }

  const DISCONNECT_FAILED: string := "Command was submitted but could not disconnect the terminal session.  Future jobs may not work."
  const USAGE_FAILED: string := "Could not acquire resource usage information from scheduler"
  const NO_COMMAND: string := "Could not build command from supplied parameters"
  const DEPENDENT_USAGE_FAILED: string := "Couldn't acquire resource usage from dependent jobs"

  /** An exception from a scheduler's `getResourceUsage`: an IOException becomes a ProcessExecutionException with `message`. */
  function UsageFailure(f: Fault, message: string): Thrown
  {
    if f == Io then ProcessError(Raised(1, Some(message))) else Runtime(f)
  }

  /** How a context with a scheduler runs the submit command the scheduler built. */
  function ScheduledRun(command: string, s: SchedulerView, ctx: ContextView, h: Host): Result<Execution, Thrown>
    requires MonitorReady(Some(s))
  {
    match s.behaviour.createCommand(s.settings, command, ctx.foregroundJob)
    case Err(f) => Err(Runtime(f))
    case Ok(submit) =>
      if !ctx.foregroundJob then Dispatch(ctx.jobName, submit, Some(s), h)
      else if s.behaviour.usesFileMonitor then Monitored(ctx.jobName, submit, Some(s), h)
      else LocalLocality.Execute(ctx.jobName, submit, Some(s), h)
  }

  /** How a context without a scheduler runs the command itself. */
  function UnscheduledRun(command: string, ctx: ContextView, ses: Session): Result<Execution, Thrown>
  {
    if !ctx.foregroundJob then Err(Runtime(UnsupportedOperation))
    else
      match LocalLocality.Execute(ctx.jobName, command, None, ses.host)
      case Err(e) => Err(e)
      case Ok(e) =>
        if ctx.monitorFile.None? then Ok(e)
        else if ses.outputWritten then Ok(e.(outputFile := ctx.monitorFile))
        else Err(ProcessError(Raised(-1, None)))
  }

  /** `result.setResourceUsage(ru)` after `getResourceUsage`: a null usage is recorded as null. */
  function AttachUsage(e: Execution, ru: Result<Option<ResourceUsage>, Fault>): (r: Result<Execution, Thrown>)
    ensures ru.Ok? ==> r == Ok(e.(usage := ru.value))
    ensures ru.Err? ==> r == Err(UsageFailure(ru.error, USAGE_FAILED))
  {
    match ru
    case Err(f) => Err(UsageFailure(f, USAGE_FAILED))
    case Ok(u) => Ok(e.(usage := u))
  }

  /**
   * The same step as written: the usage is logged with `ru.toString(true)`
   * before it is stored, so a null usage is a NullPointerException.
   */
  function AttachUsageAsWritten(e: Execution, ru: Result<Option<ResourceUsage>, Fault>): (r: Result<Execution, Thrown>)
    ensures ru == Ok(None) ==> r == Err(Runtime(NullPointer))
    ensures ru != Ok(None) ==> r == AttachUsage(e, ru)
  {
    match ru
    case Err(f) => Err(UsageFailure(f, USAGE_FAILED))
    case Ok(u) => if u.None? then Err(Runtime(NullPointer)) else Ok(e.(usage := u))
  }

  /** `execute(command, context)` with the usage step `attach`; `Ok(None)` is the null returned without a locality. */
  function Serve(command: string, ctx: ContextView, ses: Session,
                 attach: (Execution, Result<Option<ResourceUsage>, Fault>) -> Result<Execution, Thrown>)
    : Result<Option<Execution>, Thrown>
    requires MonitorReady(ctx.scheduler)
  {
    if ctx.locality.None? then Ok(None)
    else if !ses.connects then Err(ProcessError(Raised(-1, Some(NoConnection(command)))))
    else
      var run :=
        match ctx.scheduler
        case None => UnscheduledRun(command, ctx, ses)
        case Some(s) =>
          match ScheduledRun(command, s, ctx, ses.host)
          case Err(e) => Err(e)
          case Ok(e) =>
            if ctx.foregroundJob then attach(e, s.behaviour.getResourceUsage(e.jobId, e.outputFile))
            else Ok(e);
      if run.Err? then Err(run.error)
      else if !ses.disconnects then Err(ProcessError(Raised(-1, Some(DISCONNECT_FAILED))))
      else Ok(Some(run.value))
  }

  /**
   * `execute(command, context)`, with a null resource usage recorded as
   * null. Without a locality nothing runs and the result is null; a locality
   * that does not connect is a ProcessExecutionException with exit value -1
   * before anything runs; so is one that does not disconnect, even after a
   * successful run. A background job without a scheduler is not supported.
   */
  function Execute(command: string, ctx: ContextView, ses: Session): (r: Result<Option<Execution>, Thrown>)
    requires MonitorReady(ctx.scheduler)
    ensures ctx.locality.None? <==> r == Ok(None)
    ensures ctx.locality.Some? && !ses.connects ==> r == Err(ProcessError(Raised(-1, Some(NoConnection(command)))))
    ensures ctx.locality.Some? && ses.connects && ctx.scheduler.None? && !ctx.foregroundJob ==>
              r == Err(Runtime(UnsupportedOperation))
    ensures r.Ok? && r.value.Some? ==> ctx.locality.Some? && ses.connects && ses.disconnects
    ensures r.Ok? && r.value.Some? && ctx.scheduler.None? ==> ctx.foregroundJob && r.value.value.usage.None?
  {
    Serve(command, ctx, ses, AttachUsage)
  }

  /** `execute(command, context)` as written. */
  function ExecuteAsWritten(command: string, ctx: ContextView, ses: Session): Result<Option<Execution>, Thrown>
    requires MonitorReady(ctx.scheduler)
  {
    Serve(command, ctx, ses, AttachUsageAsWritten)
  }

  /**
   * A foreground job with a scheduler: the command is wrapped by the
   * scheduler's `createCommand`; a file-monitor scheduler runs it with
   * `monitoredExecute`, any other with `execute`; the usage the scheduler
   * reports for the job is attached to the result.
   */
  lemma ExecuteScheduledForeground(command: string, ctx: ContextView, ses: Session)
    requires MonitorReady(ctx.scheduler)
    requires ctx.locality.Some? && ses.connects && ses.disconnects && ctx.scheduler.Some? && ctx.foregroundJob
    ensures var s := ctx.scheduler.value;
      var r := Execute(command, ctx, ses);
      var submit := s.behaviour.createCommand(s.settings, command, true);
      (submit.Err? ==> r == Err(Runtime(submit.error)))
      && (submit.Ok? ==>
            var run := if s.behaviour.usesFileMonitor then Monitored(ctx.jobName, submit.value, Some(s), ses.host)
                       else LocalLocality.Execute(ctx.jobName, submit.value, Some(s), ses.host);
            (run.Err? ==> r == Err(run.error))
            && (run.Ok? ==>
                  var ru := s.behaviour.getResourceUsage(run.value.jobId, run.value.outputFile);
                  (ru.Ok? ==> r == Ok(Some(run.value.(usage := ru.value))))
                  && (ru.Err? ==> r == Err(UsageFailure(ru.error, USAGE_FAILED)))))
  {
  }

  /** A background job with a scheduler is dispatched, and no usage is attached. */
  lemma ExecuteScheduledBackground(command: string, ctx: ContextView, ses: Session)
    requires MonitorReady(ctx.scheduler)
    requires ctx.locality.Some? && ses.connects && ses.disconnects && ctx.scheduler.Some? && !ctx.foregroundJob
    ensures var s := ctx.scheduler.value;
      var submit := s.behaviour.createCommand(s.settings, command, false);
      submit.Ok? ==>
        var run := Dispatch(ctx.jobName, submit.value, Some(s), ses.host);
        Execute(command, ctx, ses) == if run.Err? then Err(run.error) else Ok(Some(run.value))
  {
  }

  /**
   * A foreground job without a scheduler runs the command itself; its
   * output goes to the context's monitor file when there is one.
   */
  lemma ExecuteUnscheduled(command: string, ctx: ContextView, ses: Session)
    requires ctx.locality.Some? && ses.connects && ses.disconnects && ctx.scheduler.None? && ctx.foregroundJob
    ensures var run := LocalLocality.Execute(ctx.jobName, command, None, ses.host);
      var r := Execute(command, ctx, ses);
      (run.Err? ==> r == Err(run.error))
      && (run.Ok? && ctx.monitorFile.None? ==> r == Ok(Some(run.value)))
      && (run.Ok? && ctx.monitorFile.Some? && ses.outputWritten ==> r == Ok(Some(run.value.(outputFile := ctx.monitorFile))))
      && (run.Ok? && ctx.monitorFile.Some? && !ses.outputWritten ==> r == Err(ProcessError(Raised(-1, None))))
  {
  }

  /** A run that would succeed still fails when the locality does not disconnect. */
  lemma ExecuteDisconnectFails(command: string, ctx: ContextView, ses: Session)
    requires MonitorReady(ctx.scheduler)
    requires ctx.locality.Some? && ses.connects && !ses.disconnects
    requires Execute(command, ctx, ses.(disconnects := true)).Ok?
    ensures Execute(command, ctx, ses) == Err(ProcessError(Raised(-1, Some(DISCONNECT_FAILED))))
  {
  }

  /**
   * The finding at DefaultProcessService.java:126-128: when the scheduler
   * has no usage for a foreground job (PBS gives null after four `tracejob`
   * attempts without usage lines), the code as written throws a
   * NullPointerException from the log statement, where the job itself
   * succeeded; recording the null usage returns the result.
   */
  lemma NullUsageThrows(command: string, ctx: ContextView, ses: Session)
    requires MonitorReady(ctx.scheduler)
    requires ctx.locality.Some? && ses.connects && ses.disconnects && ctx.scheduler.Some? && ctx.foregroundJob
    requires var run := ScheduledRun(command, ctx.scheduler.value, ctx, ses.host);
      run.Ok? && ctx.scheduler.value.behaviour.getResourceUsage(run.value.jobId, run.value.outputFile) == Ok(None)
    ensures ExecuteAsWritten(command, ctx, ses) == Err(Runtime(NullPointer))
    ensures var run := ScheduledRun(command, ctx.scheduler.value, ctx, ses.host);
      Execute(command, ctx, ses) == Ok(Some(run.value.(usage := None)))
  {
  }

  /** Apart from a null usage, the corrected `execute` and the one as written agree. */
  lemma AsWrittenAgrees(command: string, ctx: ContextView, ses: Session)
    requires MonitorReady(ctx.scheduler)
    requires ExecuteAsWritten(command, ctx, ses) != Err(Runtime(NullPointer))
    ensures ExecuteAsWritten(command, ctx, ses) == Execute(command, ctx, ses)
  {
    if ctx.locality.Some? && ses.connects && ctx.scheduler.Some? {
      var s := ctx.scheduler.value;
      var run := ScheduledRun(command, s, ctx, ses.host);
      if run.Ok? && ctx.foregroundJob {
        var ru := s.behaviour.getResourceUsage(run.value.jobId, run.value.outputFile);
        assert ru != Ok(None);
        assert AttachUsageAsWritten(run.value, ru) == AttachUsage(run.value, ru);
      }
    }
  }

  /** A new result object holding `e`. */
  method NewResult(e: Execution) returns (o: DefaultExecutionResult)
    ensures fresh(o) && o.Value() == e
  {
    o := new DefaultExecutionResult(e.name, e.exitCode, e.output, e.outputFile, e.jobId, e.usage);
  }

  /**
   * The imperative `execute(command, context)`: connect, run, attach the
   * usage to the result object or write its output to the monitor file,
   * disconnect. The null it returns without a locality is `null` here.
   */
  method ExecuteCommand(command: string, ctx: ExecutionContext, ses: Session) returns (r: Result<DefaultExecutionResult?, Thrown>)
    requires MonitorReady(ctx.View().scheduler)
    ensures r.Err? <==> Execute(command, ctx.View(), ses).Err?
    ensures r.Err? ==> r.error == Execute(command, ctx.View(), ses).error
    ensures r.Ok? ==> (r.value == null <==> Execute(command, ctx.View(), ses).value.None?)
    ensures r.Ok? && r.value != null ==> fresh(r.value) && r.value.Value() == Execute(command, ctx.View(), ses).value.value
  {
    if ctx.locality.None? {
      return Ok(null);
    }
    if !ses.connects {
      return Err(ProcessError(Raised(-1, Some(NoConnection(command)))));
    }
    var result: DefaultExecutionResult;
    if ctx.scheduler != null {
      var s := ctx.scheduler.View();
      var submit := s.behaviour.createCommand(s.settings, command, ctx.foregroundJob);
      if submit.Err? {
        return Err(Runtime(submit.error));
      }
      if ctx.foregroundJob {
        var run: Result<Execution, Thrown>;
        if s.behaviour.usesFileMonitor {
          run := MonitoredExecute(ctx.jobName, submit.value, Some(s), ses.host);
        } else {
          run := LocalLocality.Execute(ctx.jobName, submit.value, Some(s), ses.host);
        }
        if run.Err? {
          return Err(run.error);
        }
        result := NewResult(run.value);
        var ru := s.behaviour.getResourceUsage(result.jobId, result.outputFile);
        if ru.Err? {
          return Err(UsageFailure(ru.error, USAGE_FAILED));
        }
        result.SetResourceUsage(ru.value);
      } else {
        var run := Dispatch(ctx.jobName, submit.value, Some(s), ses.host);
        if run.Err? {
          return Err(run.error);
        }
        result := NewResult(run.value);
      }
    } else {
      if !ctx.foregroundJob {
        return Err(Runtime(UnsupportedOperation));
      }
      var run := LocalLocality.Execute(ctx.jobName, command, None, ses.host);
      if run.Err? {
        return Err(run.error);
      }
      result := NewResult(run.value);
      if ctx.monitorFile.Some? {
        var written := result.WriteOutputToFile(ctx.monitorFile.value, ses.outputWritten);
        if !written {
          return Err(ProcessError(Raised(-1, None)));
        }
      }
    }
    if !ses.disconnects {
      return Err(ProcessError(Raised(-1, Some(DISCONNECT_FAILED))));
    }
    return Ok(result);
  }

  /**
   * `execute(process, context)`: the process's full command, or the
   * ConanParameterException building it threw (None), which becomes a
   * ProcessExecutionException with exit value 3.
   */
  function ExecuteProcess(fullCommand: Option<string>, ctx: ContextView, ses: Session): (r: Result<Option<Execution>, Thrown>)
    requires MonitorReady(ctx.scheduler)
    ensures fullCommand.None? ==> r == Err(ProcessError(Raised(3, Some(NO_COMMAND))))
    ensures fullCommand.Some? ==> r == Execute(fullCommand.value, ctx, ses)
  {
    if fullCommand.None? then Err(ProcessError(Raised(3, Some(NO_COMMAND))))
    else Execute(fullCommand.value, ctx, ses)
  }

  // ---------------------------------------------------------------------------
  // Waiting for scheduled jobs

  /**
   * `waitFor(condition, context)`: a monitored execution, named "wait", of
   * the scheduler's wait command. Without a scheduler it is not supported;
   * it does not open or close the locality.
   */
  function WaitFor(waitCondition: string, ctx: ContextView, h: Host): (r: Result<Execution, Thrown>)
    requires MonitorReady(ctx.scheduler)
    ensures ctx.scheduler.None? ==> r == Err(Runtime(UnsupportedOperation))
    ensures ctx.scheduler.Some? && ctx.locality.Some? ==>
              var s := ctx.scheduler.value;
              var w := s.behaviour.createWaitCommand(s.settings, waitCondition);
              r == if w.Err? then Err(Runtime(w.error)) else Monitored(Some("wait"), w.value, Some(s), h)
    ensures ctx.scheduler.Some? && ctx.locality.None? ==>
              var s := ctx.scheduler.value;
              var w := s.behaviour.createWaitCommand(s.settings, waitCondition);
              r == if w.Err? then Err(Runtime(w.error)) else Err(Runtime(NullPointer))
  {
    if ctx.scheduler.None? then Err(Runtime(UnsupportedOperation))
    else
      var s := ctx.scheduler.value;
      match s.behaviour.createWaitCommand(s.settings, waitCondition)
      case Err(f) => Err(Runtime(f))
      case Ok(w) => if ctx.locality.None? then Err(Runtime(NullPointer)) else Monitored(Some("wait"), w, Some(s), h)
  }

  /** The job ids of the dependent results, in order. */
  function JobIds(jobs: seq<Execution>): (ids: seq<int>)
    ensures |ids| == |jobs| && forall i :: 0 <= i < |jobs| ==> ids[i] == jobs[i].jobId
  {
    seq(|jobs|, i requires 0 <= i < |jobs| => jobs[i].jobId)
  }

  /** The condition waited for: built from the job ids iff the scheduler reads job ids from its output. */
  function WaitConditionOf(s: SchedulerView, jobs: seq<Execution>, waitCondition: string, t: ExitType): string
  {
    if s.behaviour.generatesJobIdFromOutput then s.behaviour.createWaitConditionForIds(t, JobIds(jobs))
    else s.behaviour.createWaitCondition(t, waitCondition)
  }

  /** The number of dependent results whose usage is read before the first IOException (all of them without one). */
  function Backfilled(s: SchedulerView, jobs: seq<Execution>): (n: nat)
    ensures n <= |jobs|
    ensures forall i :: 0 <= i < n ==> s.behaviour.getResourceUsage(jobs[i].jobId, jobs[i].outputFile).Ok?
    ensures n < |jobs| ==> s.behaviour.getResourceUsage(jobs[n].jobId, jobs[n].outputFile).Err?
  {
    if |jobs| == 0 then 0
    else if s.behaviour.getResourceUsage(jobs[0].jobId, jobs[0].outputFile).Err? then 0
    else 1 + Backfilled(s, jobs[1..])
  }

  /**
   * `executeScheduledWait`: wait for the condition, then read the usage of
   * every dependent job; the wait result is returned. It needs a scheduler.
   */
  function ScheduledWait(jobs: seq<Execution>, waitCondition: string, t: ExitType, ctx: ContextView, h: Host)
    : (r: Result<Execution, Thrown>)
    requires MonitorReady(ctx.scheduler)
    ensures ctx.scheduler.None? ==> r == Err(Runtime(UnsupportedOperation))
    ensures r.Ok? ==> ctx.scheduler.Some? && Backfilled(ctx.scheduler.value, jobs) == |jobs|
    ensures r.Ok? ==> r == WaitFor(WaitConditionOf(ctx.scheduler.value, jobs, waitCondition, t), ctx, h)
  {
    if ctx.scheduler.None? then Err(Runtime(UnsupportedOperation))
    else
      var s := ctx.scheduler.value;
      var waited := WaitFor(WaitConditionOf(s, jobs, waitCondition, t), ctx, h);
      if waited.Err? then waited
      else
        var n := Backfilled(s, jobs);
        if n < |jobs| then
          Err(UsageFailure(s.behaviour.getResourceUsage(jobs[n].jobId, jobs[n].outputFile).error, DEPENDENT_USAGE_FAILED))
        else waited
  }

  /** The state of each result object, in order. */
  function Values(jobs: seq<DefaultExecutionResult>): (vs: seq<Execution>)
    reads set o | o in jobs
    ensures |vs| == |jobs| && forall i :: 0 <= i < |jobs| ==> vs[i] == jobs[i].Value()
  {
    seq(|jobs|, i reads set o | o in jobs requires 0 <= i < |jobs| => jobs[i].Value())
  }

  /** The number of dependent results `executeScheduledWait` gives a new usage. */
  function UsagesRead(jobs: seq<Execution>, waitCondition: string, t: ExitType, ctx: ContextView, h: Host): (n: nat)
    requires MonitorReady(ctx.scheduler)
    ensures n <= |jobs|
    ensures ScheduledWait(jobs, waitCondition, t, ctx, h).Ok? ==> n == |jobs|
  {
    if ctx.scheduler.None? then 0
    else if WaitFor(WaitConditionOf(ctx.scheduler.value, jobs, waitCondition, t), ctx, h).Err? then 0
    else Backfilled(ctx.scheduler.value, jobs)
  }

  /** The loop collecting the dependent job ids. */
  method CollectJobIds(jobs: seq<DefaultExecutionResult>) returns (ids: seq<int>)
    ensures ids == JobIds(Values(jobs))
  {
    ghost var vs := Values(jobs);
    ids := [];
    for i := 0 to |jobs|
      invariant ids == JobIds(vs[..i])
    {
      assert vs[..i + 1] == vs[..i] + [vs[i]];
      ids := ids + [jobs[i].jobId];
    }
    assert vs[..|jobs|] == vs;
  }

  /**
   * The loop reading each dependent job's usage into its result object; it
   * stops at the first failure, having updated the results before it.
   */
  method Backfill(s: SchedulerView, jobs: seq<DefaultExecutionResult>) returns (n: nat)
    modifies set o | o in jobs
    ensures n == Backfilled(s, old(Values(jobs)))
    ensures forall o :: o in jobs ==> o.name == old(o.name) && o.outputFile == old(o.outputFile)
    ensures forall o :: o in jobs[..n] ==> s.behaviour.getResourceUsage(o.jobId, o.outputFile) == Ok(o.usage)
    ensures forall o :: o in jobs && o !in jobs[..n] ==> o.usage == old(o.usage)
  {
    ghost var before := Values(jobs);
    for i := 0 to |jobs|
      invariant forall k :: 0 <= k < i ==> s.behaviour.getResourceUsage(before[k].jobId, before[k].outputFile).Ok?
      invariant forall o :: o in jobs ==> o.name == old(o.name) && o.outputFile == old(o.outputFile)
      invariant forall o :: o in jobs[..i] ==> s.behaviour.getResourceUsage(o.jobId, o.outputFile) == Ok(o.usage)
      invariant forall o :: o in jobs && o !in jobs[..i] ==> o.usage == old(o.usage)
    {
      assert before[i] == old(jobs[i].Value());
      var ru := s.behaviour.getResourceUsage(jobs[i].jobId, jobs[i].outputFile);
      if ru.Err? {
        BackfilledAt(s, before, i);
        return i;
      }
      jobs[i].SetResourceUsage(ru.value);
      assert jobs[..i + 1] == jobs[..i] + [jobs[i]];
    }
    BackfilledAt(s, before, |jobs|);
    return |jobs|;
  }

  /** `Backfilled` is the length of the longest prefix whose usages are read without a failure. */
  lemma BackfilledAt(s: SchedulerView, jobs: seq<Execution>, n: nat)
    requires n <= |jobs|
    requires forall k :: 0 <= k < n ==> s.behaviour.getResourceUsage(jobs[k].jobId, jobs[k].outputFile).Ok?
    requires n < |jobs| ==> s.behaviour.getResourceUsage(jobs[n].jobId, jobs[n].outputFile).Err?
    ensures Backfilled(s, jobs) == n
  {
  }

  /**
   * The imperative `executeScheduledWait`: collect the job ids, wait, then
   * set each dependent result's usage to what the scheduler reports for it.
   * An IOException stops the loop: the results before it keep their new
   * usage and the rest are untouched.
   */
  method ExecuteScheduledWait(jobs: seq<DefaultExecutionResult>, waitCondition: string, t: ExitType,
                              ctx: ExecutionContext, h: Host) returns (r: Result<Execution, Thrown>)
    requires MonitorReady(ctx.View().scheduler)
    modifies set o | o in jobs
    ensures r == ScheduledWait(old(Values(jobs)), waitCondition, t, ctx.View(), h)
    ensures forall o :: o in jobs ==> o.name == old(o.name) && o.outputFile == old(o.outputFile)
    ensures ctx.scheduler != null ==>
              var n := UsagesRead(old(Values(jobs)), waitCondition, t, ctx.View(), h);
              (forall o :: o in jobs[..n] ==>
                 ctx.View().scheduler.value.behaviour.getResourceUsage(o.jobId, o.outputFile) == Ok(o.usage))
              && (forall o :: o in jobs && o !in jobs[..n] ==> o.usage == old(o.usage))
    ensures ctx.scheduler == null ==> forall o :: o in jobs ==> o.usage == old(o.usage)
  {
    if ctx.scheduler == null {
      return Err(Runtime(UnsupportedOperation));
    }
    var view := ctx.View();
    var s := view.scheduler.value;
    ghost var before := Values(jobs);
    var ids := CollectJobIds(jobs);
    var condition := if s.behaviour.generatesJobIdFromOutput then s.behaviour.createWaitConditionForIds(t, ids)
                     else s.behaviour.createWaitCondition(t, waitCondition);
    assert condition == WaitConditionOf(s, before, waitCondition, t);
    var waited := WaitFor(condition, view, h);
    if waited.Err? {
      assert jobs[..0] == [];
      return waited;
    }
    var n := Backfill(s, jobs);
    assert ctx.View() == view;
    assert UsagesRead(before, waitCondition, t, view, h) == n;
    if n < |jobs| {
      return Err(UsageFailure(s.behaviour.getResourceUsage(jobs[n].jobId, jobs[n].outputFile).error, DEPENDENT_USAGE_FAILED));
    }
    return waited;
  }

  // ---------------------------------------------------------------------------
  // Links and the PATH

  /** `makeLinkCommand(input, output)`: a forced symbolic link from the output path to the input path. */
  function MakeLinkCommand(inputPath: string, outputPath: string): (r: string)
    ensures StartsWith(r, "ln -s -f ") && EndsWith(r, " " + outputPath)
    ensures |r| == |"ln -s -f "| + |inputPath| + 1 + |outputPath|
    ensures r[|"ln -s -f "|..|"ln -s -f "| + |inputPath|] == inputPath
  {
    StartsWithConcat("ln -s -f ", inputPath + " " + outputPath);
    EndsWithConcat("ln -s -f " + inputPath, " " + outputPath);
    assert "ln -s -f " + inputPath + " " + outputPath == "ln -s -f " + inputPath + (" " + outputPath);
    "ln -s -f " + inputPath + " " + outputPath
  }

  /** The answer `which` gives for a missing program reads "no <exe> in <path>". */
  predicate SaysNotFound(line: string)
  {
    Contains(line, " no ") && Contains(line, " in ")
  }

  /**
   * `executableOnPath(executable, preCommand, context)`: run
   * `preCommand + "which " + executable`; any exception means false, no
   * output means false, and otherwise the answer is true unless the first
   * line says the program was not found. Without a locality the null result
   * is dereferenced: a NullPointerException.
   */
  function ExecutableOnPath(executable: string, preCommand: string, ctx: ContextView, ses: Session): (r: Result<bool, Fault>)
    requires MonitorReady(ctx.scheduler)
    ensures r.Err? <==> ctx.locality.None?
    ensures r.Err? ==> r.error == NullPointer
    ensures r == Ok(true) <==>
              var e := Execute(preCommand + "which " + executable, ctx, ses);
              e.Ok? && e.value.Some? && |e.value.value.output| > 0 && !SaysNotFound(e.value.value.output[0])
    ensures Execute(preCommand + "which " + executable, ctx, ses).Err? ==> r == Ok(false)
  {
    match Execute(preCommand + "which " + executable, ctx, ses)
    case Err(_) => Ok(false)
    case Ok(None) => Err(NullPointer)
    case Ok(Some(e)) => if |e.output| == 0 then Ok(false) else Ok(!SaysNotFound(e.output[0]))
  }

  /** `executableOnPath(executable, context)`: no pre-command. */
  function ExecutableOnPathPlain(executable: string, ctx: ContextView, ses: Session): (r: Result<bool, Fault>)
    requires MonitorReady(ctx.scheduler)
    ensures r == ExecutableOnPath(executable, "", ctx, ses)
  {
    ExecutableOnPath(executable, "", ctx, ses)
  }
}
