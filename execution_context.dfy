/**
 * DefaultExecutionContext: where a command runs (the locality), through
 * which scheduler (none for a plain shell command) and whether the caller
 * waits for it (foreground). The services also give each context a job
 * name and a monitor file through `setContext`.
 */
module Contexts {
  import opened Wrappers
  import opened Faults
  import opened SchedulerArguments
  import opened Schedulers

  /**
   * Where commands run. `Local` is the local shell; `Remote` stands for the
   * SSH locality, which is not part of this model beyond its description.
   */
  datatype Locality = Local | Remote(host: string)

  /** `Locality.copy()`: a Local gives a new Local; a remote one a copy of itself. */
  function CopyLocality(l: Locality): (r: Locality)
    ensures r == l
  {
    match l
    case Local => Local
    case Remote(h) => Remote(h)
  }

  /** A context as the process service reads it: its fields, and the scheduler's state, at one moment. */
  datatype ContextView = ContextView(
    locality: Option<Locality>,
    scheduler: Option<SchedulerView>,
    foregroundJob: bool,
    jobName: Option<string>,
    monitorFile: Option<string>)

  /**
   * `new File(dir, name)`, as the parent, a separator and the child. The
   * normalisation `java.io.File` applies (a trailing separator on the
   * parent, an empty parent) is not modelled.
   */
  function PathIn(dir: string, name: string): string
  {
    dir + "/" + name
  }

  class ExecutionContext {
    var locality: Option<Locality>
    var scheduler: Scheduler?
    var foregroundJob: bool
    var jobName: Option<string>
    var monitorFile: Option<string>

    /** `DefaultExecutionContext()`: a foreground job on the local shell, without a scheduler. */
    constructor ()
      ensures locality == Some(Local) && scheduler == null && foregroundJob
      ensures jobName.None? && monitorFile.None?
    {
      locality := Some(Local);
      scheduler := null;
      foregroundJob := true;
      jobName := None;
      monitorFile := None;
    }

    /** `DefaultExecutionContext(foregroundJob)`: on the local shell, without a scheduler. */
    constructor WithForeground(foregroundJob: bool)
      ensures locality == Some(Local) && scheduler == null && this.foregroundJob == foregroundJob
      ensures jobName.None? && monitorFile.None?
    {
      locality := Some(Local);
      scheduler := null;
      this.foregroundJob := foregroundJob;
      jobName := None;
      monitorFile := None;
    }

    /** `DefaultExecutionContext(scheduler, foregroundJob)`: on the local shell, with the scheduler given (not a copy). */
    constructor WithScheduler(scheduler: Scheduler?, foregroundJob: bool)
      ensures locality == Some(Local) && this.scheduler == scheduler && this.foregroundJob == foregroundJob
      ensures jobName.None? && monitorFile.None?
    {
      locality := Some(Local);
      this.scheduler := scheduler;
      this.foregroundJob := foregroundJob;
      jobName := None;
      monitorFile := None;
    }

    /** `DefaultExecutionContext(locality, scheduler, foregroundJob)`: everything as given. */
    constructor Full(locality: Option<Locality>, scheduler: Scheduler?, foregroundJob: bool)
      ensures this.locality == locality && this.scheduler == scheduler && this.foregroundJob == foregroundJob
      ensures jobName.None? && monitorFile.None?
    {
      this.locality := locality;
      this.scheduler := scheduler;
      this.foregroundJob := foregroundJob;
      jobName := None;
      monitorFile := None;
    }

    /** `usingScheduler()` */
    predicate UsingScheduler()
      reads this
    {
      scheduler != null
    }

    /**
     * The copy constructor (`copy()`): a copy of the locality, a copy of the
     * scheduler when there is one (so the copy's scheduler args are a new
     * object) and the same foreground flag. A null locality, or a scheduler
     * without args, is a NullPointerException.
     */
    method Copy() returns (r: Result<ExecutionContext, Fault>)
      ensures r.Err? <==> locality.None? || (scheduler != null && scheduler.args == null)
      ensures r.Err? ==> r.error == NullPointer
      ensures r.Ok? ==> var c := r.value;
        fresh(c) && c.locality == locality && c.foregroundJob == foregroundJob
        && (c.scheduler == null <==> scheduler == null)
        && (scheduler != null ==> (fresh(c.scheduler) && fresh(c.scheduler.args) && c.scheduler.args != null
              && c.scheduler.View() == scheduler.View() && c.scheduler.args.family == scheduler.args.family))
        && c.jobName.None? && c.monitorFile.None?
    {
      if locality.None? {
        return Err(NullPointer);
      }
      var l := CopyLocality(locality.value);
      var s: Scheduler? := null;
      if scheduler != null {
        var sc := Scheduler.CopyOf(scheduler);
        if sc.Err? {
          return Err(sc.error);
        }
        s := sc.value;
      }
      var c := new ExecutionContext.Full(Some(l), s, foregroundJob);
      return Ok(c);
    }

    method SetForegroundJob(fg: bool)
      modifies this
      ensures foregroundJob == fg
      ensures locality == old(locality) && scheduler == old(scheduler)
      ensures jobName == old(jobName) && monitorFile == old(monitorFile)
    {
      foregroundJob := fg;
    }

    method SetLocality(l: Option<Locality>)
      modifies this
      ensures locality == l
      ensures foregroundJob == old(foregroundJob) && scheduler == old(scheduler)
      ensures jobName == old(jobName) && monitorFile == old(monitorFile)
    {
      locality := l;
    }

    /** `setContext(jobName, foregroundJob, monitorFile)`: the three per-job settings the services give a copy. */
    method SetContext(name: Option<string>, fg: bool, file: Option<string>)
      modifies this
      ensures jobName == name && foregroundJob == fg && monitorFile == file
      ensures locality == old(locality) && scheduler == old(scheduler)
    {
      jobName := name;
      foregroundJob := fg;
      monitorFile := file;
    }

    function View(): (v: ContextView)
      reads this, scheduler, if scheduler == null then {} else {scheduler.args}
      ensures v.scheduler.Some? <==> UsingScheduler()
    {
      ContextView(locality, if scheduler == null then None else Some(scheduler.View()),
                  foregroundJob, jobName, monitorFile)
    }
  }
}
