/**
 * DefaultExecutorService: what a process asks for when it runs a command.
 * Every call works on a copy of the service's execution context, gives the
 * copy the job's name, foreground flag and log file, writes the job's
 * resources into the copy's scheduler args and hands the copy to the
 * process service, so the service's own context is left as it was.
 */
module ExecutorService {
  import opened Wrappers
  import opened Faults
  import opened JavaText
  import opened SchedulerArguments
  import opened SchedulerCommon
  import opened Schedulers
  import opened Contexts
  import opened ProcessFailure
  import opened ExecutionResults
  import opened LocalLocality
  import ProcessService

  /** The log file of a job: `new File(outputDir, jobName + ".log")`. */
  function LogFile(outputDir: string, jobName: string): (f: string)
    ensures EndsWith(f, ".log")
  {
    EndsWithConcat(outputDir + "/" + jobName, ".log");
    PathIn(outputDir, jobName + ".log")
  }

  /**
   * The copy of a context after `setContext(jobName, foreground, log file)`:
   * the same locality and scheduler state, the job's own name, foreground
   * flag and log file.
   */
  function Retargeted(v: ContextView, jobName: string, fg: bool, outputDir: string): (c: ContextView)
    ensures c.locality == v.locality && c.scheduler == v.scheduler
    ensures c.jobName == Some(jobName) && c.foregroundJob == fg && c.monitorFile == Some(LogFile(outputDir, jobName))
  {
    v.(jobName := Some(jobName), foregroundJob := fg, monitorFile := Some(LogFile(outputDir, jobName)))
  }

  /** Whether `copy()` succeeds: it dereferences the locality and the scheduler's args. */
  predicate Copyable(v: ContextView)
  {
    v.locality.Some? && (v.scheduler.None? || v.scheduler.value.settings.Some?)
  }

  /** A context whose scheduler args hold `st`. */
  function WithSettings(v: ContextView, st: Settings): (c: ContextView)
    requires v.scheduler.Some?
    ensures c.scheduler.Some? && c.scheduler.value.behaviour == v.scheduler.value.behaviour
    ensures c.scheduler.value.settings == Some(st)
    ensures c.(scheduler := v.scheduler) == v
  {
    v.(scheduler := Some(v.scheduler.value.(settings := Some(st))))
  }

  /** `setThreads`, `setMemoryMB` and `setEstimatedRuntimeMins`: the three resources of a job, and nothing else. */
  function Sized(st: Settings, threads: int, memoryMb: int, walltimeMins: int): (r: Settings)
    ensures r.threads == threads && r.memoryMB == memoryMb && r.estimatedRuntimeMins == walltimeMins
    ensures r.(threads := st.threads, memoryMB := st.memoryMB, estimatedRuntimeMins := st.estimatedRuntimeMins) == st
  {
    st.(threads := threads, memoryMB := memoryMb, estimatedRuntimeMins := walltimeMins)
  }

  /** The args of a job array: its resources per job and its index range, and nothing else. */
  function ForArray(st: Settings, a: Option<JobArrayArgs>, threads: int, memoryMb: int, walltimeMins: int): (r: Settings)
    ensures r.jobArrayArgs == a
    ensures r.(jobArrayArgs := st.jobArrayArgs) == Sized(st, threads, memoryMb, walltimeMins)
  {
    Sized(st, threads, memoryMb, walltimeMins).(jobArrayArgs := a)
  }

  /**
   * The args of a process: its resources; a wait condition for COMPLETED_ANY
   * of the dependant jobs exactly when there are some; openmpi switched on
   * exactly when it is asked for with more than one thread, otherwise left
   * as it was; nothing else.
   */
  function ForProcess(st: Settings, b: Behaviour, threads: int, memoryMb: int, walltimeMins: int,
                      dependantJobs: Option<seq<int>>, openmpi: bool): (r: Settings)
    ensures r.waitCondition ==
              if dependantJobs.Some? && |dependantJobs.value| > 0
              then Some(b.createWaitConditionForIds(COMPLETED_ANY, dependantJobs.value))
              else st.waitCondition
    ensures r.openmpi <==> st.openmpi || (openmpi && threads > 1)
    ensures r.(waitCondition := st.waitCondition, openmpi := st.openmpi) == Sized(st, threads, memoryMb, walltimeMins)
  {
    var sized := Sized(st, threads, memoryMb, walltimeMins);
    var waiting :=
      if dependantJobs.Some? && |dependantJobs.value| > 0
      then sized.(waitCondition := Some(b.createWaitConditionForIds(COMPLETED_ANY, dependantJobs.value)))
      else sized;
    if openmpi && threads > 1 then waiting.(openmpi := true) else waiting
  }

  /** The job-array settings keep every array a file-monitor scheduler would enumerate enumerable. */
  predicate ArrayReady(v: ContextView, a: Option<JobArrayArgs>)
  {
    v.scheduler.None? || !v.scheduler.value.behaviour.usesFileMonitor || a.None? || Enumerable(a.value)
  }

  /** The context a job array runs in: a foreground copy with the array's args. */
  function ArrayContext(v: ContextView, outputDir: string, name: string, a: Option<JobArrayArgs>,
                        threads: int, memoryMb: int, walltimeMins: int): (c: ContextView)
    requires v.scheduler.Some? && v.scheduler.value.settings.Some?
    ensures c.foregroundJob && c.jobName == Some(name) && c.monitorFile == Some(LogFile(outputDir, name))
    ensures c.locality == v.locality && c.scheduler.Some? && c.scheduler.value.behaviour == v.scheduler.value.behaviour
    ensures c.scheduler.value.settings == Some(ForArray(v.scheduler.value.settings.value, a, threads, memoryMb, walltimeMins))
  {
    WithSettings(Retargeted(v, name, true, outputDir), ForArray(v.scheduler.value.settings.value, a, threads, memoryMb, walltimeMins))
  }

  /** The command each element of a job array runs: every job-index token becomes the scheduler's index variable. */
  function ArrayCommand(command: string, token: string, b: Behaviour): string
  {
    Replace(command, token, b.jobIndexString)
  }

  /**
   * `executeJobArray`: unsupported without a scheduler; otherwise the
   * command, with its job-index tokens replaced, runs in a foreground copy
   * of the context that carries the array's args.
   */
  function JobArray(command: string, v: ContextView, outputDir: string, name: string, a: Option<JobArrayArgs>,
                    threads: int, memoryMb: int, walltimeMins: int, token: string, ses: ProcessService.Session)
    : (r: Result<Option<Execution>, Thrown>)
    requires ArrayReady(v, a)
    ensures v.scheduler.None? ==> r == Err(Runtime(UnsupportedOperation))
    ensures v.scheduler.Some? && !Copyable(v) ==> r == Err(Runtime(NullPointer))
    ensures r.Ok? ==> v.scheduler.Some? && Copyable(v)
  {
    if v.scheduler.None? then Err(Runtime(UnsupportedOperation))
    else if !Copyable(v) then Err(Runtime(NullPointer))
    else
      var c := ArrayContext(v, outputDir, name, a, threads, memoryMb, walltimeMins);
      ProcessService.Execute(ArrayCommand(command, token, v.scheduler.value.behaviour), c, ses)
  }

  /**
   * A job array that can run runs in the foreground under its own name and
   * log file; cutting its command at the job-index tokens and gluing the
   * pieces back with the scheduler's index variable gives the command that
   * runs, and gluing them with the token gives the original command.
   */
  lemma JobArrayRuns(command: string, v: ContextView, outputDir: string, name: string, a: Option<JobArrayArgs>,
                     threads: int, memoryMb: int, walltimeMins: int, token: string, ses: ProcessService.Session)
    requires ArrayReady(v, a) && v.scheduler.Some? && Copyable(v) && |token| > 0
    ensures var c := ArrayContext(v, outputDir, name, a, threads, memoryMb, walltimeMins);
      var b := v.scheduler.value.behaviour;
      JobArray(command, v, outputDir, name, a, threads, memoryMb, walltimeMins, token, ses)
        == ProcessService.Execute(ArrayCommand(command, token, b), c, ses)
      && Join(token, Segments(command, token)) == command
      && ArrayCommand(command, token, b) == Join(b.jobIndexString, Segments(command, token))
  {
    ReplaceBySegments(command, token, v.scheduler.value.behaviour.jobIndexString);
  }

  /** The context a process runs in: the copy, with its scheduler args set for the process when there is a scheduler. */
  function ProcessContext(v: ContextView, outputDir: string, jobName: string, threads: int, memoryMb: int,
                          walltimeMins: int, runParallel: bool, dependantJobs: Option<seq<int>>, openmpi: bool)
    : (c: ContextView)
    requires Copyable(v)
    ensures c.foregroundJob == !runParallel && c.jobName == Some(jobName) && c.monitorFile == Some(LogFile(outputDir, jobName))
    ensures c.locality == v.locality && (c.scheduler.None? <==> v.scheduler.None?)
    ensures v.scheduler.Some? ==>
              c.scheduler.value.behaviour == v.scheduler.value.behaviour
              && c.scheduler.value.settings == Some(ForProcess(v.scheduler.value.settings.value, v.scheduler.value.behaviour,
                                                               threads, memoryMb, walltimeMins, dependantJobs, openmpi))
  {
    var c := Retargeted(v, jobName, !runParallel, outputDir);
    if v.scheduler.None? then c
    else
      var s := v.scheduler.value;
      WithSettings(c, ForProcess(s.settings.value, s.behaviour, threads, memoryMb, walltimeMins, dependantJobs, openmpi))
  }

  /**
   * `executeProcess(process, ..., dependantJobs, openmpi)`: the process's
   * command (None when building it failed) runs in the process's copy of
   * the context.
   */
  function Process(fullCommand: Option<string>, v: ContextView, outputDir: string, jobName: string, threads: int,
                   memoryMb: int, walltimeMins: int, runParallel: bool, dependantJobs: Option<seq<int>>, openmpi: bool,
                   ses: ProcessService.Session)
    : (r: Result<Option<Execution>, Thrown>)
    requires MonitorReady(v.scheduler)
    ensures !Copyable(v) ==> r == Err(Runtime(NullPointer))
    ensures Copyable(v) && fullCommand.None? ==> r == Err(ProcessError(Raised(3, Some(ProcessService.NO_COMMAND))))
    ensures Copyable(v) && fullCommand.Some? ==>
              r == ProcessService.Execute(fullCommand.value,
                     ProcessContext(v, outputDir, jobName, threads, memoryMb, walltimeMins, runParallel, dependantJobs, openmpi), ses)
  {
    if !Copyable(v) then Err(Runtime(NullPointer))
    else
      ProcessService.ExecuteProcess(fullCommand,
        ProcessContext(v, outputDir, jobName, threads, memoryMb, walltimeMins, runParallel, dependantJobs, openmpi), ses)
  }

  /** The context a shell command runs in: the copy, with its args set for the command. */
  function CommandContext(v: ContextView, outputDir: string, jobName: string, threads: int, memoryMb: int,
                          walltimeMins: int, runParallel: bool): (c: ContextView)
    requires Copyable(v)
    ensures c.foregroundJob == !runParallel && c.jobName == Some(jobName) && c.monitorFile == Some(LogFile(outputDir, jobName))
    ensures c.locality == v.locality && (c.scheduler.None? <==> v.scheduler.None?)
    ensures v.scheduler.Some? ==>
              c.scheduler.value.behaviour == v.scheduler.value.behaviour
              && c.scheduler.value.settings == Some(Sized(v.scheduler.value.settings.value, threads, memoryMb, walltimeMins))
  {
    var c := Retargeted(v, jobName, !runParallel, outputDir);
    if v.scheduler.None? then c
    else WithSettings(c, Sized(v.scheduler.value.settings.value, threads, memoryMb, walltimeMins))
  }

  /** `executeProcess(command, ...)`, with the resources written to the copy's args. */
  function Command(command: string, v: ContextView, outputDir: string, jobName: string, threads: int, memoryMb: int,
                   walltimeMins: int, runParallel: bool, ses: ProcessService.Session)
    : (r: Result<Option<Execution>, Thrown>)
    requires MonitorReady(v.scheduler)
    ensures !Copyable(v) ==> r == Err(Runtime(NullPointer))
    ensures Copyable(v) ==>
              r == ProcessService.Execute(command, CommandContext(v, outputDir, jobName, threads, memoryMb, walltimeMins, runParallel), ses)
  {
    if !Copyable(v) then Err(Runtime(NullPointer))
    else ProcessService.Execute(command, CommandContext(v, outputDir, jobName, threads, memoryMb, walltimeMins, runParallel), ses)
  }

  /**
   * `executeProcess(command, ...)` as written: the copy keeps the args it
   * was made with, and the resources go into the original context's args.
   */
  function CommandAsWritten(command: string, v: ContextView, outputDir: string, jobName: string, runParallel: bool,
                            ses: ProcessService.Session)
    : (r: Result<Option<Execution>, Thrown>)
    requires MonitorReady(v.scheduler)
    ensures !Copyable(v) ==> r == Err(Runtime(NullPointer))
    ensures Copyable(v) ==> r == ProcessService.Execute(command, Retargeted(v, jobName, !runParallel, outputDir), ses)
  {
    if !Copyable(v) then Err(Runtime(NullPointer))
    else ProcessService.Execute(command, Retargeted(v, jobName, !runParallel, outputDir), ses)
  }

  /**
   * The finding at DefaultExecutorService.java:134-139: as written, a
   * command asking for other resources than the context's is submitted with
   * the context's resources, while the corrected one is submitted with the
   * resources asked for.
   */
  lemma CommandResourcesMisplaced(v: ContextView, outputDir: string, jobName: string, threads: int, memoryMb: int,
                                  walltimeMins: int, runParallel: bool)
    requires Copyable(v) && v.scheduler.Some? && v.scheduler.value.settings.value.threads != threads
    ensures Retargeted(v, jobName, !runParallel, outputDir).scheduler.value.settings.value.threads != threads
    ensures CommandContext(v, outputDir, jobName, threads, memoryMb, walltimeMins, runParallel).scheduler.value.settings.value.threads == threads
  {
  }

  /**
   * The finding at DefaultExecutorService.java:89-95: as written, the
   * overload that takes dependant jobs forwards null in their place, so the
   * process runs with the context's wait condition; forwarding them gives
   * the process a COMPLETED_ANY condition on them.
   */
  lemma DependantJobsDropped(v: ContextView, outputDir: string, jobName: string, threads: int, memoryMb: int,
                             walltimeMins: int, runParallel: bool, dependantJobs: seq<int>)
    requires Copyable(v) && v.scheduler.Some? && |dependantJobs| > 0
    requires v.scheduler.value.settings.value.waitCondition.None?
    ensures ProcessContext(v, outputDir, jobName, threads, memoryMb, walltimeMins, runParallel, None, false)
              .scheduler.value.settings.value.waitCondition.None?
    ensures ProcessContext(v, outputDir, jobName, threads, memoryMb, walltimeMins, runParallel, Some(dependantJobs), false)
              .scheduler.value.settings.value.waitCondition
            == Some(v.scheduler.value.behaviour.createWaitConditionForIds(COMPLETED_ANY, dependantJobs))
  {
  }

  /** The setters `executeProcess` calls on the copy's args. */
  method SetProcessArgs(sArgs: SchedulerArgs, b: Behaviour, threads: int, memoryMb: int, walltimeMins: int,
                        dependantJobs: Option<seq<int>>, openmpi: bool)
    modifies sArgs
    ensures sArgs.settings == ForProcess(old(sArgs.settings), b, threads, memoryMb, walltimeMins, dependantJobs, openmpi)
  {
    sArgs.SetThreads(threads);
    sArgs.SetMemoryMB(memoryMb);
    sArgs.SetEstimatedRuntimeMins(walltimeMins);
    if dependantJobs.Some? && |dependantJobs.value| > 0 {
      sArgs.SetWaitCondition(Some(b.createWaitConditionForIds(COMPLETED_ANY, dependantJobs.value)));
    }
    if openmpi && threads > 1 {
      sArgs.SetOpenmpi(true);
    }
  }

  class DefaultExecutorService {
    var executionContext: ExecutionContext?

    /** `DefaultExecutorService()`: no context yet. */
    constructor ()
      ensures executionContext == null
    {
      executionContext := null;
    }

    /** `DefaultExecutorService(processService, context)`: `initialise` with both. */
    constructor WithContext(ctx: ExecutionContext?)
      ensures executionContext == ctx
    {
      executionContext := ctx;
    }

    /** `initialise(processService, context)`: replaces the context. */
    method Initialise(ctx: ExecutionContext?)
      modifies this
      ensures executionContext == ctx
    {
      executionContext := ctx;
    }

    /** `usingScheduler()`: whether the context has a scheduler; a NullPointerException without a context. */
    function UsingScheduler(): (r: Result<bool, Fault>)
      reads this, executionContext
      ensures r.Err? <==> executionContext == null
      ensures r.Ok? ==> (r.value <==> executionContext.View().scheduler.Some?)
    {
      if executionContext == null then Err(NullPointer) else Ok(executionContext.UsingScheduler())
    }

    /** The state of the service's context, when there is one. */
    function ContextState(): (v: Option<ContextView>)
      reads this, executionContext
      reads if executionContext == null then {} else {executionContext.scheduler}
      reads if executionContext == null || executionContext.scheduler == null then {}
            else {executionContext.scheduler.args}
      ensures v.Some? <==> executionContext != null
    {
      if executionContext == null then None else Some(executionContext.View())
    }

    /** The copy a call works on, given the job's name, foreground flag and log file. */
    method CopyFor(jobName: string, fg: bool, outputDir: string) returns (r: Result<ExecutionContext, Thrown>)
      ensures executionContext == null ==> r == Err(Runtime(NullPointer))
      ensures executionContext != null ==> (r.Ok? <==> Copyable(executionContext.View()))
      ensures executionContext != null && r.Err? ==> r.error == Runtime(NullPointer)
      ensures r.Ok? ==> fresh(r.value) && executionContext != null
                        && r.value.View() == Retargeted(executionContext.View(), jobName, fg, outputDir)
                        && (r.value.scheduler != null ==> fresh(r.value.scheduler) && fresh(r.value.scheduler.args))
    {
      if executionContext == null {
        return Err(Runtime(NullPointer));
      }
      var c := executionContext.Copy();
      if c.Err? {
        return Err(Runtime(c.error));
      }
      var copy := c.value;
      copy.SetContext(Some(jobName), fg, Some(LogFile(outputDir, jobName)));
      return Ok(copy);
    }

    /**
     * `executeJobArray`: the copy's args get the resources per job and the
     * index range, and the command's job-index tokens become the
     * scheduler's index variable. The service's own context is not changed.
     */
    method ExecuteJobArray(command: string, outputDir: string, name: string, a: Option<JobArrayArgs>,
                           threads: int, memoryMb: int, walltimeMins: int, token: string, ses: ProcessService.Session)
      returns (r: Result<Option<Execution>, Thrown>)
      requires executionContext != null ==> ArrayReady(executionContext.View(), a)
      ensures executionContext == null ==> r == Err(Runtime(NullPointer))
      ensures executionContext != null ==>
                r == JobArray(command, executionContext.View(), outputDir, name, a, threads, memoryMb, walltimeMins, token, ses)
    {
      if executionContext == null {
        return Err(Runtime(NullPointer));
      }
      if executionContext.scheduler == null {
        return Err(Runtime(UnsupportedOperation));
      }
      var c := CopyFor(name, true, outputDir);
      if c.Err? {
        return Err(c.error);
      }
      var copy := c.value;
      var sArgs := copy.scheduler.args;
      sArgs.SetThreads(threads);
      sArgs.SetMemoryMB(memoryMb);
      sArgs.SetEstimatedRuntimeMins(walltimeMins);
      sArgs.SetJobArrayArgs(a);
      var modified := Replace(command, token, copy.scheduler.behaviour.jobIndexString);
      r := ProcessService.Execute(modified, copy.View(), ses);
    }

    /**
     * `executeProcess(process, outputDir, jobName, threads, memoryMb,
     * walltime, runParallel, dependantJobs, openmpi)`: with a scheduler,
     * the copy's args get the resources, a wait condition on the dependant
     * jobs and openmpi as `ForProcess` says. The service's own context is
     * not changed.
     */
    method ExecuteProcess(fullCommand: Option<string>, outputDir: string, jobName: string, threads: int, memoryMb: int,
                          walltimeMins: int, runParallel: bool, dependantJobs: Option<seq<int>>, openmpi: bool,
                          ses: ProcessService.Session)
      returns (r: Result<Option<Execution>, Thrown>)
      requires executionContext != null ==> MonitorReady(executionContext.View().scheduler)
      ensures executionContext == null ==> r == Err(Runtime(NullPointer))
      ensures executionContext != null ==>
                r == Process(fullCommand, executionContext.View(), outputDir, jobName, threads, memoryMb, walltimeMins,
                             runParallel, dependantJobs, openmpi, ses)
    {
      var c := CopyFor(jobName, !runParallel, outputDir);
      if c.Err? {
        return Err(c.error);
      }
      var copy := c.value;
      ghost var v := executionContext.View();
      if copy.scheduler != null {
        SetProcessArgs(copy.scheduler.args, copy.scheduler.behaviour, threads, memoryMb, walltimeMins, dependantJobs, openmpi);
      }
      assert copy.View() == ProcessContext(v, outputDir, jobName, threads, memoryMb, walltimeMins, runParallel, dependantJobs, openmpi);
      r := ProcessService.ExecuteProcess(fullCommand, copy.View(), ses);
    }

    /** The overload with dependant jobs, corrected to forward them (openmpi off). */
    method ExecuteProcessDependent(fullCommand: Option<string>, outputDir: string, jobName: string, threads: int,
                                   memoryMb: int, walltimeMins: int, runParallel: bool, dependantJobs: Option<seq<int>>,
                                   ses: ProcessService.Session)
      returns (r: Result<Option<Execution>, Thrown>)
      requires executionContext != null ==> MonitorReady(executionContext.View().scheduler)
      ensures executionContext == null ==> r == Err(Runtime(NullPointer))
      ensures executionContext != null ==>
                r == Process(fullCommand, executionContext.View(), outputDir, jobName, threads, memoryMb, walltimeMins,
                             runParallel, dependantJobs, false, ses)
    {
      r := ExecuteProcess(fullCommand, outputDir, jobName, threads, memoryMb, walltimeMins, runParallel, dependantJobs, false, ses);
    }

    /** The overload with dependant jobs as written: it forwards null dependant jobs and openmpi off. */
    method ExecuteProcessDependentAsWritten(fullCommand: Option<string>, outputDir: string, jobName: string, threads: int,
                                            memoryMb: int, walltimeMins: int, runParallel: bool,
                                            dependantJobs: Option<seq<int>>, ses: ProcessService.Session)
      returns (r: Result<Option<Execution>, Thrown>)
      requires executionContext != null ==> MonitorReady(executionContext.View().scheduler)
      ensures executionContext == null ==> r == Err(Runtime(NullPointer))
      ensures executionContext != null ==>
                r == Process(fullCommand, executionContext.View(), outputDir, jobName, threads, memoryMb, walltimeMins,
                             runParallel, None, false, ses)
    {
      r := ExecuteProcess(fullCommand, outputDir, jobName, threads, memoryMb, walltimeMins, runParallel, None, false, ses);
    }

    /** The overload with a walltime: no dependant jobs. */
    method ExecuteProcessTimed(fullCommand: Option<string>, outputDir: string, jobName: string, threads: int,
                               memoryMb: int, walltimeMins: int, runParallel: bool, ses: ProcessService.Session)
      returns (r: Result<Option<Execution>, Thrown>)
      requires executionContext != null ==> MonitorReady(executionContext.View().scheduler)
      ensures executionContext == null ==> r == Err(Runtime(NullPointer))
      ensures executionContext != null ==>
                r == Process(fullCommand, executionContext.View(), outputDir, jobName, threads, memoryMb, walltimeMins,
                             runParallel, None, false, ses)
    {
      r := ExecuteProcessDependent(fullCommand, outputDir, jobName, threads, memoryMb, walltimeMins, runParallel, None, ses);
    }

    /** The shortest overload: no walltime (0) and no dependant jobs. */
    method ExecuteProcessBasic(fullCommand: Option<string>, outputDir: string, jobName: string, threads: int,
                               memoryMb: int, runParallel: bool, ses: ProcessService.Session)
      returns (r: Result<Option<Execution>, Thrown>)
      requires executionContext != null ==> MonitorReady(executionContext.View().scheduler)
      ensures executionContext == null ==> r == Err(Runtime(NullPointer))
      ensures executionContext != null ==>
                r == Process(fullCommand, executionContext.View(), outputDir, jobName, threads, memoryMb, 0,
                             runParallel, None, false, ses)
    {
      r := ExecuteProcessDependent(fullCommand, outputDir, jobName, threads, memoryMb, 0, runParallel, None, ses);
    }

    /** `executeProcess(command, ...)`, corrected to write the resources into the copy's args. */
    method ExecuteCommand(command: string, outputDir: string, jobName: string, threads: int, memoryMb: int,
                          walltimeMins: int, runParallel: bool, ses: ProcessService.Session)
      returns (r: Result<Option<Execution>, Thrown>)
      requires executionContext != null ==> MonitorReady(executionContext.View().scheduler)
      ensures executionContext == null ==> r == Err(Runtime(NullPointer))
      ensures executionContext != null ==>
                r == Command(command, executionContext.View(), outputDir, jobName, threads, memoryMb, walltimeMins, runParallel, ses)
    {
      var c := CopyFor(jobName, !runParallel, outputDir);
      if c.Err? {
        return Err(c.error);
      }
      var copy := c.value;
      if copy.scheduler != null {
        var sArgs := copy.scheduler.args;
        sArgs.SetThreads(threads);
        sArgs.SetMemoryMB(memoryMb);
        sArgs.SetEstimatedRuntimeMins(walltimeMins);
      }
      r := ProcessService.Execute(command, copy.View(), ses);
    }

    /**
     * `executeProcess(command, ...)` as written: the resources are written
     * into the args of the service's own context, after the copy was made,
     * so the command runs with the old resources and every later job of
     * this service inherits the new ones.
     */
    method ExecuteCommandAsWritten(command: string, outputDir: string, jobName: string, threads: int, memoryMb: int,
                                   walltimeMins: int, runParallel: bool, ses: ProcessService.Session)
      returns (r: Result<Option<Execution>, Thrown>)
      requires executionContext != null ==> MonitorReady(executionContext.View().scheduler)
      modifies if executionContext == null || executionContext.scheduler == null then {}
               else {executionContext.scheduler.args}
      ensures executionContext == null ==> r == Err(Runtime(NullPointer))
      ensures executionContext != null ==>
                r == CommandAsWritten(command, old(executionContext.View()), outputDir, jobName, runParallel, ses)
      ensures executionContext != null && old(Copyable(executionContext.View())) && executionContext.scheduler != null ==>
                executionContext.View() == WithSettings(old(executionContext.View()),
                                                        Sized(old(executionContext.scheduler.args.settings), threads, memoryMb, walltimeMins))
      ensures executionContext != null && !old(Copyable(executionContext.View())) ==>
                executionContext.View() == old(executionContext.View())
    {
      var c := CopyFor(jobName, !runParallel, outputDir);
      if c.Err? {
        return Err(c.error);
      }
      var copy := c.value;
      if copy.scheduler != null {
        var sArgs := executionContext.scheduler.args;
        sArgs.SetThreads(threads);
        sArgs.SetMemoryMB(memoryMb);
        sArgs.SetEstimatedRuntimeMins(walltimeMins);
      }
      r := ProcessService.Execute(command, copy.View(), ses);
    }

    /**
     * `executeScheduledWait`: the process service waits, in a foreground
     * copy of the context named after the wait job, and reads the usage of
     * the dependent jobs into their results.
     */
    method ExecuteScheduledWait(jobs: seq<DefaultExecutionResult>, waitCondition: string, t: ExitType, jobName: string,
                                outputDir: string, h: Host) returns (r: Result<Execution, Thrown>)
      requires executionContext != null ==> MonitorReady(executionContext.View().scheduler)
      modifies set o | o in jobs
      ensures executionContext == null || !Copyable(executionContext.View()) ==> r == Err(Runtime(NullPointer))
      ensures executionContext != null && Copyable(executionContext.View()) ==>
                r == ProcessService.ScheduledWait(old(ProcessService.Values(jobs)), waitCondition, t,
                                                  Retargeted(executionContext.View(), jobName, true, outputDir), h)
      ensures forall o :: o in jobs ==> o.name == old(o.name) && o.outputFile == old(o.outputFile)
      ensures executionContext != null && Copyable(executionContext.View()) && executionContext.View().scheduler.Some? ==>
                var v := Retargeted(executionContext.View(), jobName, true, outputDir);
                var n := ProcessService.UsagesRead(old(ProcessService.Values(jobs)), waitCondition, t, v, h);
                (forall o :: o in jobs[..n] ==>
                   v.scheduler.value.behaviour.getResourceUsage(o.jobId, o.outputFile) == Ok(o.usage))
                && (forall o :: o in jobs && o !in jobs[..n] ==> o.usage == old(o.usage))
      ensures executionContext == null || !Copyable(executionContext.View()) || executionContext.View().scheduler.None? ==>
                forall o :: o in jobs ==> o.usage == old(o.usage)
    {
      var c := CopyFor(jobName, true, outputDir);
      if c.Err? {
        return Err(c.error);
      }
      r := ProcessService.ExecuteScheduledWait(jobs, waitCondition, t, c.value, h);
    }
  }
}
