/**
 * The settings a scheduler submits a job with (the base class SchedulerArgs
 * and its job-array part). Each scheduler family has its own subclass; the
 * family is recorded so that a copy stays in the same family.
 */
module SchedulerArguments {
  import opened Wrappers

  /** The closed set of scheduler families. */
  datatype Family = LSF | PBS | OGE | SLURM

  /** The index range of a job array: `min, min + step, ...` up to `max`, at most `maxSimultaneousJobs` at once. */
  datatype JobArrayArgs = JobArrayArgs(minIndex: int, maxIndex: int, stepIndex: int, maxSimultaneousJobs: int)

  /** Every setting of one args object; a null reference is `None`. */
  datatype Settings = Settings(
    jobName: Option<string>,
    queueName: Option<string>,
    monitorFile: Option<string>,
    monitorInterval: int,
    threads: int,
    memoryMB: int,
    estimatedRuntimeMins: int,
    waitCondition: Option<string>,
    extraArgs: Option<string>,
    jobArrayArgs: Option<JobArrayArgs>,
    openmpi: bool)

  class SchedulerArgs {
    const family: Family
    var settings: Settings

    /** A new args object; the defaults the no-argument constructors choose are given as `initial`. */
    constructor (family: Family, initial: Settings)
      ensures this.family == family && settings == initial
    {
      this.family := family;
      settings := initial;
    }

    /** `copy()`: a new, unshared object of the same family holding the same settings. */
    method Copy() returns (c: SchedulerArgs)
      ensures fresh(c) && c.family == family && c.settings == settings
    {
      c := new SchedulerArgs(family, settings);
    }

    method SetJobName(v: Option<string>)
      modifies this
      ensures settings == old(settings).(jobName := v)
    {
      settings := settings.(jobName := v);
    }

    method SetMonitorFile(v: Option<string>)
      modifies this
      ensures settings == old(settings).(monitorFile := v)
    {
      settings := settings.(monitorFile := v);
    }

    method SetThreads(v: int)
      modifies this
      ensures settings == old(settings).(threads := v)
    {
      settings := settings.(threads := v);
    }

    method SetMemoryMB(v: int)
      modifies this
      ensures settings == old(settings).(memoryMB := v)
    {
      settings := settings.(memoryMB := v);
    }

    method SetEstimatedRuntimeMins(v: int)
      modifies this
      ensures settings == old(settings).(estimatedRuntimeMins := v)
    {
      settings := settings.(estimatedRuntimeMins := v);
    }

    method SetWaitCondition(v: Option<string>)
      modifies this
      ensures settings == old(settings).(waitCondition := v)
    {
      settings := settings.(waitCondition := v);
    }

    method SetJobArrayArgs(v: Option<JobArrayArgs>)
      modifies this
      ensures settings == old(settings).(jobArrayArgs := v)
    {
      settings := settings.(jobArrayArgs := v);
    }

    method SetOpenmpi(v: bool)
      modifies this
      ensures settings == old(settings).(openmpi := v)
    {
      settings := settings.(openmpi := v);
    }
  }
}
