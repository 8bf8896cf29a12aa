/**
 * AbstractScheduler, the state every scheduler object shares (its submit
 * command and a replaceable args object), and SchedulerFactory, the closed
 * set of scheduler families and the objects each one creates.
 */
module Schedulers {
  import opened Wrappers
  import opened Faults
  import opened Usage
  import opened SchedulerArguments
  import opened SchedulerCommon
  import Pbs
  import Slurm

  /** What `createTaskAdapter()` hands on: the file the adapter watches and how often it looks. */
  datatype TaskAdapter = TaskAdapter(monitorFile: Option<string>, monitorInterval: int)

  /** A scheduler as the rest of the system sees it at one moment: its behaviour and its args' settings (None for null args). */
  datatype SchedulerView = SchedulerView(behaviour: Behaviour, settings: Option<Settings>)

  class Scheduler {
    /** The scheduler-specific half (PBS, SLURM, ...). */
    const behaviour: Behaviour
    const submitCommand: string
    var args: SchedulerArgs?

    /** `AbstractScheduler(submitCommand, args)`: keeps both as given, without copying the args. */
    constructor (behaviour: Behaviour, submitCommand: string, args: SchedulerArgs?)
      ensures this.behaviour == behaviour && this.submitCommand == submitCommand && this.args == args
    {
      this.behaviour := behaviour;
      this.submitCommand := submitCommand;
      this.args := args;
    }

    /**
     * The copy constructor: the same submit command and a copy of the args,
     * so the two schedulers share no args object. Copying a scheduler
     * without args is a NullPointerException.
     */
    static method CopyOf(copy: Scheduler) returns (r: Result<Scheduler, Fault>)
      ensures r.Err? <==> copy.args == null
      ensures r.Err? ==> r.error == NullPointer
      ensures r.Ok? ==> (fresh(r.value) && fresh(r.value.args) && r.value.args != null && copy.args != null
        && r.value.behaviour == copy.behaviour && r.value.submitCommand == copy.submitCommand
        && r.value.args.family == copy.args.family && r.value.args.settings == copy.args.settings)
    {
      if copy.args == null {
        return Err(NullPointer);
      }
      var a := copy.args.Copy();
      var s := new Scheduler(copy.behaviour, copy.submitCommand, a);
      return Ok(s);
    }

    /** `getArgs()`: the args object last given, not a copy. */
    function GetArgs(): SchedulerArgs?
      reads this
    {
      args
    }

    /** `setArgs(args)`: replaces the args object; nothing else changes. */
    method SetArgs(a: SchedulerArgs?)
      modifies this
      ensures args == a && GetArgs() == a
    {
      args := a;
    }

    function Settings(): (r: Option<Settings>)
      reads this, args
      ensures r.Some? <==> args != null
    {
      if args == null then None else Some(args.settings)
    }

    function View(): (v: SchedulerView)
      reads this, args
      ensures v.behaviour == behaviour && v.settings == Settings()
    {
      SchedulerView(behaviour, Settings())
    }

    /**
     * `createTaskAdapter()`: an adapter on the args' monitor file and
     * monitor interval; without args, a NullPointerException.
     */
    function CreateTaskAdapter(): (r: Result<TaskAdapter, Fault>)
      reads this, args
      ensures r.Err? <==> args == null
      ensures r.Ok? ==> r.value.monitorFile == args.settings.monitorFile && r.value.monitorInterval == args.settings.monitorInterval
    {
      if args == null then Err(NullPointer)
      else Ok(TaskAdapter(args.settings.monitorFile, args.settings.monitorInterval))
    }
  }

  // ---------------------------------------------------------------------------
  // SchedulerFactory

  /**
   * What the concrete scheduler classes are built with that this model does
   * not define: the parts of the PBS and SLURM behaviours that are
   * parameters of `Pbs.Behaviour` and `Slurm.Behaviour`, the LSF and OGE
   * classes whole, and every family's default args.
   */
  datatype Catalogue = Catalogue(
    pbsArgsText: (Settings, bool) -> string,
    pbsStatus: ExitType -> string,
    pbsUsage: (int, Option<string>) -> Result<Option<ResourceUsage>, Fault>,
    slurmStatus: ExitType -> string,
    slurmUsage: (int, Option<string>) -> Result<Option<ResourceUsage>, Fault>,
    lsf: Behaviour,
    lsfSubmit: string,
    oge: Behaviour,
    ogeSubmit: string,
    defaults: Family -> Settings)

  /** The behaviour of the scheduler class each family's `create()` instantiates. */
  function BehaviourOf(c: Catalogue, f: Family): Behaviour
  {
    match f
    case PBS => Pbs.Behaviour(c.pbsArgsText, c.pbsStatus, c.pbsUsage)
    case SLURM => Slurm.Behaviour(c.slurmStatus, c.slurmUsage)
    case LSF => c.lsf
    case OGE => c.oge
  }

  /** The submit command that class hands to `AbstractScheduler`. */
  function SubmitCommandOf(c: Catalogue, f: Family): string
  {
    match f
    case PBS => Pbs.QSUB
    case SLURM => Slurm.EXE
    case LSF => c.lsfSubmit
    case OGE => c.ogeSubmit
  }

  /** The enum constant's name. */
  function FamilyName(f: Family): string
  {
    match f
    case LSF => "LSF"
    case PBS => "PBS"
    case OGE => "OGE"
    case SLURM => "SLURM"
  }

  /**
   * `SchedulerFactory.valueOf(name)`: the family whose constant is named
   * exactly `name`; an unknown name is an IllegalArgumentException and a
   * null one a NullPointerException.
   */
  function ValueOf(name: Option<string>): (r: Result<Family, Fault>)
    ensures name.None? ==> r == Err(NullPointer)
    ensures name.Some? ==> (r.Ok? <==> name.value in {"LSF", "PBS", "OGE", "SLURM"})
    ensures name.Some? && r.Err? ==> r.error == IllegalArgument
    ensures r.Ok? ==> name == Some(FamilyName(r.value))
  {
    if name.None? then Err(NullPointer)
    else if name.value == "LSF" then Ok(LSF)
    else if name.value == "PBS" then Ok(PBS)
    else if name.value == "OGE" then Ok(OGE)
    else if name.value == "SLURM" then Ok(SLURM)
    else Err(IllegalArgument)
  }

  /** Every family is found again by its own name. */
  lemma ValueOfName(f: Family)
    ensures ValueOf(Some(FamilyName(f))) == Ok(f)
  {
  }

  /** `create()`: a new scheduler of the family's class, holding a new args object of the same family. */
  method Create(f: Family, c: Catalogue) returns (s: Scheduler)
    ensures fresh(s) && fresh(s.args) && s.args != null
    ensures s.behaviour == BehaviourOf(c, f) && s.submitCommand == SubmitCommandOf(c, f)
    ensures s.args.family == f && s.args.settings == c.defaults(f)
  {
    var a := CreateArgs(f, c);
    s := new Scheduler(BehaviourOf(c, f), SubmitCommandOf(c, f), a);
  }

  /** `createArgs()`: a new args object of the family with its defaults. */
  method CreateArgs(f: Family, c: Catalogue) returns (a: SchedulerArgs)
    ensures fresh(a) && a.family == f && a.settings == c.defaults(f)
  {
    a := new SchedulerArgs(f, c.defaults(f));
  }

  /** `createScheduler()`: an LSF scheduler. */
  method CreateDefaultScheduler(c: Catalogue) returns (s: Scheduler)
    ensures fresh(s) && fresh(s.args) && s.args != null && s.args.family == LSF
    ensures s.behaviour == c.lsf && s.submitCommand == c.lsfSubmit
  {
    s := Create(LSF, c);
  }

  /**
   * `createScheduler(name)`: the scheduler of the family named exactly
   * `name`, or the exception `valueOf` throws. "PBS" gives a PBS scheduler
   * submitting with `qsub` and "SLURM" a SLURM one with no fixed submit
   * command, each with args of its own family.
   */
  method CreateScheduler(name: Option<string>, c: Catalogue) returns (r: Result<Scheduler, Fault>)
    ensures r.Err? <==> ValueOf(name).Err?
    ensures r.Err? ==> r.error == ValueOf(name).error
    ensures r.Ok? ==> (fresh(r.value) && fresh(r.value.args) && r.value.args != null
      && r.value.args.family == ValueOf(name).value && r.value.args.settings == c.defaults(ValueOf(name).value))
    ensures name == Some("PBS") ==>
              && r.Ok? && r.value.submitCommand == Pbs.QSUB
              && r.value.behaviour == Pbs.Behaviour(c.pbsArgsText, c.pbsStatus, c.pbsUsage) && r.value.behaviour.name == "PBS"
    ensures name == Some("SLURM") ==>
              && r.Ok? && r.value.submitCommand == Slurm.EXE
              && r.value.behaviour == Slurm.Behaviour(c.slurmStatus, c.slurmUsage) && r.value.behaviour.name == "SLURM"
    ensures name == Some("LSF") ==> r.Ok? && r.value.submitCommand == c.lsfSubmit && r.value.behaviour == c.lsf
    ensures name == Some("OGE") ==> r.Ok? && r.value.submitCommand == c.ogeSubmit && r.value.behaviour == c.oge
  {
    var f := ValueOf(name);
    if f.Err? {
      return Err(f.error);
    }
    var s := Create(f.value, c);
    return Ok(s);
  }
}
