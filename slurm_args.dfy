/**
 * SlurmArgs: how the settings of a SLURM job become the options of `sbatch`
 * or `salloc`. Each option is one element of a space-separated list; an
 * element with a prefix and a value is the two written together.
 */
module SlurmArguments {
  import opened Wrappers
  import opened JavaText
  import opened SchedulerArguments

  /** One element of the option list, in the order `toString(boolean)` adds them. */
  datatype SlurmFlag =
    | ArrayRange(spec: string)   // -a<spec>
    | StdoutFile(path: string)   // -o<path>
    | StderrFile(path: string)   // -e<path>
    | Nodes                      // -N 1
    | Tasks(count: int)          // -n <count>
    | Partition(queue: string)   // -p <queue>
    | JobName(name: string)      // -J <name>
    | WorkDir                    // -D $(pwd)
    | Profile                    // --profile=all
    | Memory(mb: int)            // --mem=<mb>
    | TimeLimit(mins: int)       // -t<mins>
    | Dependency(cond: string)   // -d<cond>
    | Extra(text: string)        // the extra arguments, as given

  function Render(f: SlurmFlag): string
  {
    match f
    case ArrayRange(spec) => "-a" + spec
    case StdoutFile(path) => "-o" + path
    case StderrFile(path) => "-e" + path
    case Nodes => "-N 1"
    case Tasks(n) => "-n " + IntToString(n)
    case Partition(q) => "-p " + q
    case JobName(j) => "-J " + j
    case WorkDir => "-D $(pwd)"
    case Profile => "--profile=all"
    case Memory(mb) => "--mem=" + IntToString(mb)
    case TimeLimit(mins) => "-t" + IntToString(mins)
    case Dependency(c) => "-d" + c
    case Extra(x) => x
  }

  /**
   * The job-array range `min-max`, then `:step` when the step is above 1, then
   * `%n` when more than one job may run at once.
   */
  function ArraySpec(ja: JobArrayArgs): (r: string)
    ensures StartsWith(r, IntToString(ja.minIndex) + "-" + IntToString(ja.maxIndex))
    ensures HasAny(r, {':'}) <==> ja.stepIndex > 1
    ensures HasAny(r, {'%'}) <==> ja.maxSimultaneousJobs > 1
  {
    var range := IntToString(ja.minIndex) + "-" + IntToString(ja.maxIndex);
    var step := if ja.stepIndex > 1 then ":" + IntToString(ja.stepIndex) else "";
    var most := if ja.maxSimultaneousJobs > 1 then "%" + IntToString(ja.maxSimultaneousJobs) else "";
    ArraySpecChars(ja, range, step, most);
    range + step + most
  }

  lemma ArraySpecChars(ja: JobArrayArgs, range: string, step: string, most: string)
    requires range == IntToString(ja.minIndex) + "-" + IntToString(ja.maxIndex)
    requires step == if ja.stepIndex > 1 then ":" + IntToString(ja.stepIndex) else ""
    requires most == if ja.maxSimultaneousJobs > 1 then "%" + IntToString(ja.maxSimultaneousJobs) else ""
    ensures var r := range + step + most;
      r[..|range|] == range
      && (HasAny(r, {':'}) <==> ja.stepIndex > 1)
      && (HasAny(r, {'%'}) <==> ja.maxSimultaneousJobs > 1)
  {
    var cs := {':', '%'};
    IntToStringFree(ja.minIndex, cs);
    IntToStringFree(ja.maxIndex, cs);
    IntToStringFree(ja.stepIndex, cs);
    IntToStringFree(ja.maxSimultaneousJobs, cs);
    HasAnyConcat(IntToString(ja.minIndex), "-", cs);
    HasAnyConcat(IntToString(ja.minIndex) + "-", IntToString(ja.maxIndex), cs);
    assert !HasAny(range, cs);
    HasAnyConcat(":", IntToString(ja.stepIndex), {'%'});
    HasAnyConcat("%", IntToString(ja.maxSimultaneousJobs), {':'});
    HasAnyConcat(range, step, {':'});
    HasAnyConcat(range + step, most, {':'});
    HasAnyConcat(range, step, {'%'});
    HasAnyConcat(range + step, most, {'%'});
    if ja.stepIndex > 1 { assert step[0] == ':'; }
    if ja.maxSimultaneousJobs > 1 { assert most[0] == '%'; }
    assert (range + step + most)[..|range|] == range;
  }

  /** The `-o`/`-e` pair: only for a background job with a monitor file; `.%a` marks per-index files. */
  function OutputFlags(s: Settings, isForegroundJob: bool): seq<SlurmFlag>
  {
    if s.monitorFile.None? || isForegroundJob then []
    else
      var stem := s.monitorFile.value + (if s.jobArrayArgs.None? then "" else ".%a");
      [StdoutFile(stem + ".stdout"), StderrFile(stem + ".stderr")]
  }

  /** An element added with `add(cond, prefix, value)`: present only when the condition holds. */
  function When(cond: bool, f: SlurmFlag): seq<SlurmFlag>
  {
    if cond then [f] else []
  }

  /** `toString(isForegroundJob)` as a list of options, in the order they are added. */
  function Flags(s: Settings, isForegroundJob: bool): seq<SlurmFlag>
  {
    Head(s, isForegroundJob) + Body(s) + When(s.extraArgs.Some?, Extra(s.extraArgs.UnwrapOr("")))
  }

  /** The job-array range and the output files. */
  function Head(s: Settings, isForegroundJob: bool): seq<SlurmFlag>
  {
    var arrayRange := match s.jobArrayArgs
      case None => []
      case Some(ja) => [ArrayRange(ArraySpec(ja))];
    arrayRange + OutputFlags(s, isForegroundJob)
  }

  /** The options between the output files and the extra arguments. */
  function Body(s: Settings): seq<SlurmFlag>
  {
    Front(s) + Back(s)
  }

  /** `-N 1`, then `-n`, `-p` and `-J` when they apply. */
  function Front(s: Settings): seq<SlurmFlag>
  {
    [Nodes]
    + When(s.threads > 1, Tasks(s.threads))
    + When(s.queueName.Some?, Partition(s.queueName.UnwrapOr("")))
    + When(s.jobName.Some?, JobName(s.jobName.UnwrapOr("")))
  }

  /** `-D $(pwd)` and `--profile=all`, then `--mem=`, `-t` and `-d` when they apply. */
  function Back(s: Settings): seq<SlurmFlag>
  {
    var waitFor := s.waitCondition.Some? && s.waitCondition.value != "";
    [WorkDir, Profile]
    + When(s.memoryMB > 0, Memory(s.memoryMB))
    + When(s.estimatedRuntimeMins > 0, TimeLimit(s.estimatedRuntimeMins))
    + When(waitFor, Dependency(s.waitCondition.UnwrapOr("")))
  }

  /** `-N 1`, `-D $(pwd)` and `--profile=all` are always present. */
  lemma FlagsAlways(s: Settings, isForegroundJob: bool)
    ensures var fs := Flags(s, isForegroundJob); Nodes in fs && WorkDir in fs && Profile in fs
  {
    InBody(s, Nodes);
    InBody(s, WorkDir);
    InBody(s, Profile);
  }

  /** `-a` appears exactly when there are job-array settings, and then carries their range. */
  lemma FlagsArray(s: Settings, isForegroundJob: bool)
    ensures var fs := Flags(s, isForegroundJob);
      (s.jobArrayArgs.Some? ==> ArrayRange(ArraySpec(s.jobArrayArgs.value)) in fs)
      && (s.jobArrayArgs.None? <==> forall f :: f in fs ==> !f.ArrayRange?)
  {
    var fs := Flags(s, isForegroundJob);
    BodyKinds(s);
    if s.jobArrayArgs.Some? {
      assert fs[0] == ArrayRange(ArraySpec(s.jobArrayArgs.value));
    }
  }

  /**
   * `-o`/`-e` appear exactly for a background job with a monitor file, named
   * after it with `.stdout`/`.stderr`, or `.%a.stdout`/`.%a.stderr` for an array.
   */
  lemma FlagsOutput(s: Settings, isForegroundJob: bool)
    ensures var fs := Flags(s, isForegroundJob);
      ((isForegroundJob || s.monitorFile.None?) <==> forall f :: f in fs ==> !f.StdoutFile? && !f.StderrFile?)
      && (!isForegroundJob && s.monitorFile.Some? && s.jobArrayArgs.None? ==>
            StdoutFile(s.monitorFile.value + ".stdout") in fs && StderrFile(s.monitorFile.value + ".stderr") in fs)
      && (!isForegroundJob && s.monitorFile.Some? && s.jobArrayArgs.Some? ==>
            StdoutFile(s.monitorFile.value + ".%a.stdout") in fs && StderrFile(s.monitorFile.value + ".%a.stderr") in fs)
  {
    var fs := Flags(s, isForegroundJob);
    var out := OutputFlags(s, isForegroundJob);
    OutputInFlags(s, isForegroundJob);
    OnlyOutputFiles(s, isForegroundJob);
    if !isForegroundJob && s.monitorFile.Some? {
      OutputNames(s.monitorFile.value);
      assert out[0].StdoutFile? && out[0] in fs;
    }
  }

  lemma OutputNames(mf: string)
    ensures mf + "" == mf
    ensures (mf + ".%a") + ".stdout" == mf + ".%a.stdout"
    ensures (mf + ".%a") + ".stderr" == mf + ".%a.stderr"
  {
  }

  /** Every output-file option ends up among the flags. */
  lemma OutputInFlags(s: Settings, isForegroundJob: bool)
    ensures forall f :: f in OutputFlags(s, isForegroundJob) ==> f in Flags(s, isForegroundJob)
  {
    forall f | f in OutputFlags(s, isForegroundJob)
      ensures f in Flags(s, isForegroundJob)
    {
      InHead(s, isForegroundJob, f);
      InFlags(s, isForegroundJob, f);
    }
  }

  /** The only `-o`/`-e` flags are the output-file options. */
  lemma OnlyOutputFiles(s: Settings, isForegroundJob: bool)
    ensures forall f :: f in Flags(s, isForegroundJob) && (f.StdoutFile? || f.StderrFile?) ==> f in OutputFlags(s, isForegroundJob)
  {
    forall f | f in Flags(s, isForegroundJob) && (f.StdoutFile? || f.StderrFile?)
      ensures f in OutputFlags(s, isForegroundJob)
    {
      InFlags(s, isForegroundJob, f);
      InHead(s, isForegroundJob, f);
      InBody(s, f);
    }
  }

  /** What `Flags` holds: the head, the middle part, and the extra arguments when there are any. */
  lemma InFlags(s: Settings, isForegroundJob: bool, f: SlurmFlag)
    ensures f in Flags(s, isForegroundJob) <==>
      f in Head(s, isForegroundJob) || f in Body(s) || (s.extraArgs.Some? && f == Extra(s.extraArgs.value))
  {
    InWhen(s.extraArgs.Some?, Extra(s.extraArgs.UnwrapOr("")), f);
  }

  /** What `Head` holds: the array range when there is one, and the output files. */
  lemma InHead(s: Settings, isForegroundJob: bool, f: SlurmFlag)
    ensures f in Head(s, isForegroundJob) <==>
      (s.jobArrayArgs.Some? && f == ArrayRange(ArraySpec(s.jobArrayArgs.value))) || f in OutputFlags(s, isForegroundJob)
  {
  }

  /** `-n`, `--mem=` and `-t` appear exactly when threads > 1, memory > 0 and runtime > 0, with those values. */
  lemma FlagsNumbers(s: Settings, isForegroundJob: bool)
    ensures var fs := Flags(s, isForegroundJob);
      (Tasks(s.threads) in fs <==> s.threads > 1)
      && (forall f :: f in fs && f.Tasks? ==> f == Tasks(s.threads))
      && (Memory(s.memoryMB) in fs <==> s.memoryMB > 0)
      && (forall f :: f in fs && f.Memory? ==> f == Memory(s.memoryMB))
      && (TimeLimit(s.estimatedRuntimeMins) in fs <==> s.estimatedRuntimeMins > 0)
      && (forall f :: f in fs && f.TimeLimit? ==> f == TimeLimit(s.estimatedRuntimeMins))
  {
    HeadKinds(s, isForegroundJob);
    BodyNumbers(s);
  }

  /**
   * `-d` appears exactly when the wait condition is non-null and non-empty;
   * `-p` and `-J` exactly when the queue and the job name are non-null.
   */
  lemma FlagsConditions(s: Settings, isForegroundJob: bool)
    ensures var fs := Flags(s, isForegroundJob);
      (s.waitCondition.Some? && s.waitCondition.value != "" ==> Dependency(s.waitCondition.value) in fs)
      && ((s.waitCondition.None? || s.waitCondition.value == "") <==> forall f :: f in fs ==> !f.Dependency?)
      && (s.queueName.Some? <==> Partition(s.queueName.UnwrapOr("")) in fs)
      && (s.jobName.Some? <==> JobName(s.jobName.UnwrapOr("")) in fs)
  {
    HeadKinds(s, isForegroundJob);
    BodyConditions(s);
  }

  /** The extra arguments, when present, are the last element, as given. */
  lemma FlagsExtra(s: Settings, isForegroundJob: bool)
    ensures var fs := Flags(s, isForegroundJob);
      (s.extraArgs.Some? <==> |fs| > 0 && fs[|fs| - 1] == Extra(s.extraArgs.UnwrapOr("")))
      && (forall f :: f in fs && f.Extra? ==> s.extraArgs == Some(f.text))
  {
    HeadKinds(s, isForegroundJob);
    BodyKinds(s);
  }

  lemma HeadKinds(s: Settings, isForegroundJob: bool)
    ensures forall f :: f in Head(s, isForegroundJob) ==> f.ArrayRange? || f.StdoutFile? || f.StderrFile?
  {
  }

  /** What `Body` holds: each option exactly under the condition that adds it. */
  predicate BodyMember(s: Settings, f: SlurmFlag)
  {
    f == Nodes
    || (s.threads > 1 && f == Tasks(s.threads))
    || (s.queueName.Some? && f == Partition(s.queueName.value))
    || (s.jobName.Some? && f == JobName(s.jobName.value))
    || f == WorkDir || f == Profile
    || (s.memoryMB > 0 && f == Memory(s.memoryMB))
    || (s.estimatedRuntimeMins > 0 && f == TimeLimit(s.estimatedRuntimeMins))
    || (s.waitCondition.Some? && s.waitCondition.value != "" && f == Dependency(s.waitCondition.value))
  }

  lemma InWhen(cond: bool, g: SlurmFlag, f: SlurmFlag)
    ensures f in When(cond, g) <==> cond && f == g
  {
  }

  lemma InBody(s: Settings, f: SlurmFlag)
    ensures f in Body(s) <==> BodyMember(s, f)
  {
    InFront(s, f);
    InBack(s, f);
  }

  lemma InFront(s: Settings, f: SlurmFlag)
    ensures f in Front(s) <==>
      f == Nodes
      || (s.threads > 1 && f == Tasks(s.threads))
      || (s.queueName.Some? && f == Partition(s.queueName.value))
      || (s.jobName.Some? && f == JobName(s.jobName.value))
  {
    InWhen(s.threads > 1, Tasks(s.threads), f);
    InWhen(s.queueName.Some?, Partition(s.queueName.UnwrapOr("")), f);
    InWhen(s.jobName.Some?, JobName(s.jobName.UnwrapOr("")), f);
  }

  lemma InBack(s: Settings, f: SlurmFlag)
    ensures f in Back(s) <==>
      f == WorkDir || f == Profile
      || (s.memoryMB > 0 && f == Memory(s.memoryMB))
      || (s.estimatedRuntimeMins > 0 && f == TimeLimit(s.estimatedRuntimeMins))
      || (s.waitCondition.Some? && s.waitCondition.value != "" && f == Dependency(s.waitCondition.value))
  {
    var waitFor := s.waitCondition.Some? && s.waitCondition.value != "";
    InWhen(s.memoryMB > 0, Memory(s.memoryMB), f);
    InWhen(s.estimatedRuntimeMins > 0, TimeLimit(s.estimatedRuntimeMins), f);
    InWhen(waitFor, Dependency(s.waitCondition.UnwrapOr("")), f);
  }

  lemma BodyKinds(s: Settings)
    ensures forall f :: f in Body(s) ==> !f.ArrayRange? && !f.StdoutFile? && !f.StderrFile? && !f.Extra?
  {
    forall f | f in Body(s)
      ensures !f.ArrayRange? && !f.StdoutFile? && !f.StderrFile? && !f.Extra?
    {
      InBody(s, f);
    }
  }

  lemma BodyNumbers(s: Settings)
    ensures var fs := Body(s);
      (Tasks(s.threads) in fs <==> s.threads > 1)
      && (forall f :: f in fs && f.Tasks? ==> f == Tasks(s.threads))
      && (Memory(s.memoryMB) in fs <==> s.memoryMB > 0)
      && (forall f :: f in fs && f.Memory? ==> f == Memory(s.memoryMB))
      && (TimeLimit(s.estimatedRuntimeMins) in fs <==> s.estimatedRuntimeMins > 0)
      && (forall f :: f in fs && f.TimeLimit? ==> f == TimeLimit(s.estimatedRuntimeMins))
  {
    InBody(s, Tasks(s.threads));
    InBody(s, Memory(s.memoryMB));
    InBody(s, TimeLimit(s.estimatedRuntimeMins));
    forall f | f in Body(s)
      ensures (f.Tasks? ==> f == Tasks(s.threads)) && (f.Memory? ==> f == Memory(s.memoryMB))
        && (f.TimeLimit? ==> f == TimeLimit(s.estimatedRuntimeMins))
    {
      InBody(s, f);
    }
  }

  lemma BodyConditions(s: Settings)
    ensures var fs := Body(s);
      (s.waitCondition.Some? && s.waitCondition.value != "" ==> Dependency(s.waitCondition.value) in fs)
      && ((s.waitCondition.None? || s.waitCondition.value == "") <==> forall f :: f in fs ==> !f.Dependency?)
      && (s.queueName.Some? <==> Partition(s.queueName.UnwrapOr("")) in fs)
      && (s.jobName.Some? <==> JobName(s.jobName.UnwrapOr("")) in fs)
  {
    InBody(s, Partition(s.queueName.UnwrapOr("")));
    InBody(s, JobName(s.jobName.UnwrapOr("")));
    InBody(s, Dependency(s.waitCondition.UnwrapOr("")));
    forall f | f in Body(s)
      ensures f.Dependency? ==> s.waitCondition.Some? && s.waitCondition.value != ""
    {
      InBody(s, f);
    }
  }

  function RenderAll(fs: seq<SlurmFlag>): (r: seq<string>)
    ensures |r| == |fs| && forall i :: 0 <= i < |fs| ==> r[i] == Render(fs[i])
  {
    seq(|fs|, i requires 0 <= i < |fs| => Render(fs[i]))
  }

  /** `toString(isForegroundJob)`: the rendered options separated by single spaces. */
  function ArgsText(s: Settings, isForegroundJob: bool): string
  {
    Join(" ", RenderAll(Flags(s, isForegroundJob)))
  }

  /** `toString()`: the foreground form, so it never names output files. */
  function ToString(s: Settings): string
  {
    ArgsText(s, true)
  }
}
