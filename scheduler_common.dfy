/**
 * What every scheduler shares: the `Scheduler` interface as a record of its
 * behaviour, the `h:m:s` time format of accounting tools, and the
 * `:`-separated list of job ids used in wait conditions.
 */
module SchedulerCommon {
  import opened Wrappers
  import opened JavaText
  import opened Faults
  import opened Usage
  import opened SchedulerArguments

  const ARG_SEPARATOR: string := ":"

  /** A value of `ExitStatus.Type`, identified by its constant name. */
  datatype ExitType = ExitType(name: string)

  const COMPLETED_ANY: ExitType := ExitType("COMPLETED_ANY")

  /** The output lines of the `n`-th run of a shell command, or None when running it throws. */
  type Runner = (string, nat) -> Option<seq<string>>

  /**
   * The scheduler-specific half of a scheduler object. The functions take the
   * settings of the scheduler's current args (None for a null args reference),
   * because the args may be replaced or changed after construction.
   * `getResourceUsage` returns `Err` for an IOException and `Ok(None)` for null.
   */
  datatype Behaviour = Behaviour(
    name: string,
    usesFileMonitor: bool,
    generatesJobIdFromOutput: bool,
    jobIndexString: string,
    createCommand: (Option<Settings>, string, bool) -> Result<string, Fault>,
    createWaitCommand: (Option<Settings>, string) -> Result<string, Fault>,
    createKillCommand: string -> string,
    createWaitCondition: (ExitType, string) -> string,
    createWaitConditionForIds: (ExitType, seq<int>) -> string,
    extractJobIdFromOutput: string -> Result<int, Fault>,
    getResourceUsage: (int, Option<string>) -> Result<Option<ResourceUsage>, Fault>)

  /**
   * `createKillCommand(jobId)` of both schedulers: the scheduler's kill
   * program (`qdel` for PBS, `scancel` for SLURM), a space, then the job id.
   */
  function KillCommand(killProgram: string, jobId: string): (r: string)
    ensures StartsWith(r, killProgram + " ") && r[|killProgram| + 1..] == jobId
  {
    killProgram + " " + jobId
  }

  /** What a joiner's `add(prefix, value)` contributes: `prefix + value`, or nothing for a null value. */
  function AddPrefixed(prefix: string, value: Option<string>): seq<string>
  {
    if value.None? then [] else [prefix + value.value]
  }

  // ---------------------------------------------------------------------------
  // h:m:s times

  /**
   * `timeToSeconds`: the first three `:`-separated fields are hours, minutes
   * and seconds, each a Java long, combined as ((h * 60) + m) * 60 + s in
   * long arithmetic. Fewer than three fields is an index error.
   */
  function TimeToSeconds(time: string): (r: Result<int, Fault>)
    ensures r.Ok? ==> LONG_MIN <= r.value <= LONG_MAX
  {
    var parts := Split(time, ':');
    if |parts| < 3 then Err(IndexOutOfBounds)
    else
      match (ParseLong(parts[2]), ParseLong(parts[1]), ParseLong(parts[0]))
      case (Some(s), Some(m), Some(h)) => Ok(LongSeconds(h, m, s))
      case _ => Err(NumberFormat)
  }

  /** ((h * 60) + m) * 60 + s, wrapping to a long after every operation. */
  function LongSeconds(h: int, m: int, s: int): int
  {
    Wrap64(Wrap64(Wrap64(Wrap64(h * 60) + m) * 60) + s)
  }

  /** A duration as hours, minutes and seconds. */
  datatype Hms = Hms(h: int, m: int, s: int)
  {
    predicate InLongRange()
    {
      LONG_MIN <= h <= LONG_MAX && LONG_MIN <= m <= LONG_MAX && LONG_MIN <= s <= LONG_MAX
    }

    /** The text `h:m:s`. */
    function Text(): string
    {
      IntToString(h) + ":" + IntToString(m) + ":" + IntToString(s)
    }

    /** ((h * 60) + m) * 60 + s, as the long it wraps to. */
    function Seconds(): int
    {
      Wrap64((h * 60 + m) * 60 + s)
    }
  }

  /** An `h:m:s` text is one whitespace-free word with visible ends. */
  lemma HmsToken(t: Hms)
    ensures Token(t.Text())
  {
    IntToStringToken(t.h);
    IntToStringToken(t.m);
    IntToStringToken(t.s);
    assert Token(":") by {
      assert !HasAny(":", WHITESPACE) by {
        assert forall i :: 0 <= i < |":"| ==> ":"[i] == ':';
      }
    }
    TokenConcat(IntToString(t.h), ":");
    TokenConcat(IntToString(t.h) + ":", IntToString(t.m));
    TokenConcat(IntToString(t.h) + ":" + IntToString(t.m), ":");
    TokenConcat(IntToString(t.h) + ":" + IntToString(t.m) + ":", IntToString(t.s));
  }

  lemma Wrap64Times60(a: int)
    ensures Wrap64(Wrap64(a) * 60) == Wrap64(a * 60)
  {
    var q := (a - LONG_MIN) / TWO_TO_THE_64;
    assert Wrap64(a) == a - q * TWO_TO_THE_64;
    assert Wrap64(a) * 60 == a * 60 - (60 * q) * TWO_TO_THE_64;
    Mod64AddMultiple(a * 60 - LONG_MIN, -(60 * q));
  }

  /** Wrapping after every step gives the long that the exact value wraps to. */
  lemma StepwiseWrap(h: int, m: int, s: int)
    ensures LongSeconds(h, m, s) == Wrap64((h * 60 + m) * 60 + s)
  {
    Wrap64AddLeft(h * 60, m);
    Wrap64Times60(h * 60 + m);
    Wrap64AddLeft(Wrap64(h * 60 + m) * 60, s);
    Wrap64AddLeft((h * 60 + m) * 60, s);
    assert Wrap64(Wrap64(Wrap64(h * 60 + m) * 60) + s) == Wrap64(Wrap64((h * 60 + m) * 60) + s);
  }

  /** Three fields that parse as longs give their combination. */
  lemma TimeToSecondsOfFields(time: string, h: int, m: int, s: int)
    requires var parts := Split(time, ':');
      |parts| >= 3 && ParseLong(parts[0]) == Some(h) && ParseLong(parts[1]) == Some(m) && ParseLong(parts[2]) == Some(s)
    ensures TimeToSeconds(time) == Ok(LongSeconds(h, m, s))
  {
  }

  /** Reading `h:m:s` back gives ((h * 60) + m) * 60 + s, wrapped to a long. */
  lemma TimeToSecondsOfHms(t: Hms)
    requires t.InLongRange()
    ensures TimeToSeconds(t.Text()) == Ok(t.Seconds())
  {
    HmsFields(t);
    TimeToSecondsOfFields(t.Text(), t.h, t.m, t.s);
    SecondsStepwise(t);
  }

  lemma SecondsStepwise(t: Hms)
    ensures t.Seconds() == LongSeconds(t.h, t.m, t.s)
  {
    StepwiseWrap(t.h, t.m, t.s);
  }

  /** When ((h * 60) + m) * 60 + s fits in a long, reading `h:m:s` back gives it exactly. */
  lemma TimeToSecondsExact(t: Hms)
    requires t.InLongRange() && LONG_MIN <= (t.h * 60 + t.m) * 60 + t.s <= LONG_MAX
    ensures var r := TimeToSeconds(t.Text()); r.Ok? && r.value == (t.h * 60 + t.m) * 60 + t.s
  {
    TimeToSecondsOfHms(t);
    SecondsExact(t);
  }

  lemma SecondsExact(t: Hms)
    requires LONG_MIN <= (t.h * 60 + t.m) * 60 + t.s <= LONG_MAX
    ensures t.Seconds() == (t.h * 60 + t.m) * 60 + t.s
  {
  }

  lemma HmsFields(t: Hms)
    requires t.InLongRange()
    ensures var parts := Split(t.Text(), ':');
      |parts| >= 3 && ParseLong(parts[0]) == Some(t.h) && ParseLong(parts[1]) == Some(t.m) && ParseLong(parts[2]) == Some(t.s)
  {
    SplitHms(t);
    ParseIntToString(t.h, LONG_MIN, LONG_MAX);
    ParseIntToString(t.m, LONG_MIN, LONG_MAX);
    ParseIntToString(t.s, LONG_MIN, LONG_MAX);
  }

  lemma SplitHms(t: Hms)
    ensures Split(t.Text(), ':') == [IntToString(t.h), IntToString(t.m), IntToString(t.s)]
  {
    var parts := [IntToString(t.h), IntToString(t.m), IntToString(t.s)];
    IntToStringFree(t.h, {':'});
    IntToStringFree(t.m, {':'});
    IntToStringFree(t.s, {':'});
    IntToStringChars(t.s);
    assert Join([':'], parts) == t.Text() by {
      JoinCons([':'], parts[0], parts[1..]);
      assert parts[1..] == [parts[1]] + [parts[2]];
      JoinCons([':'], parts[1], [parts[2]]);
    }
    SplitJoin(':', parts);
  }

  // ---------------------------------------------------------------------------
  // Lists of job ids

  /** `Integer.toString` of every id, in order. */
  function IdTexts(ids: seq<int>): (r: seq<string>)
    ensures |r| == |ids|
    ensures forall i :: 0 <= i < |r| ==> r[i] == IntToString(ids[i])
  {
    seq(|ids|, i requires 0 <= i < |ids| => IntToString(ids[i]))
  }

  lemma {:induction false} JoinSnoc(sep: string, xs: seq<string>, x: string)
    ensures Join(sep, xs + [x]) == if |xs| == 0 then x else Join(sep, xs) + sep + x
    decreases |xs|
  {
    if |xs| == 0 {
      assert xs + [x] == [x];
    } else if |xs| == 1 {
      assert (xs + [x])[1..] == [x];
    } else {
      assert (xs + [x])[1..] == xs[1..] + [x];
      JoinSnoc(sep, xs[1..], x);
    }
  }

  lemma JoinIdsStep(ids: seq<int>, i: nat)
    requires i < |ids|
    ensures Join(ARG_SEPARATOR, IdTexts(ids[..i + 1])) ==
      if i == 0 then IntToString(ids[i]) else Join(ARG_SEPARATOR, IdTexts(ids[..i])) + ARG_SEPARATOR + IntToString(ids[i])
  {
    assert IdTexts(ids[..i + 1]) == IdTexts(ids[..i]) + [IntToString(ids[i])];
    JoinSnoc(ARG_SEPARATOR, IdTexts(ids[..i]), IntToString(ids[i]));
  }

  /**
   * The loop of both `createWaitCondition(type, jobIds)` overloads: every id
   * added in list order to a joiner with separator `:`.
   */
  method JoinIds(ids: seq<int>) returns (r: string)
    ensures r == Join(ARG_SEPARATOR, IdTexts(ids))
  {
    r := "";
    for i := 0 to |ids|
      invariant r == Join(ARG_SEPARATOR, IdTexts(ids[..i]))
    {
      JoinIdsStep(ids, i);
      if i == 0 {
        r := IntToString(ids[i]);
      } else {
        r := r + ARG_SEPARATOR + IntToString(ids[i]);
      }
    }
    assert ids[..|ids|] == ids;
  }

  /**
   * A wait condition `head:id1:id2:...` splits back on `:` into the head and
   * the ids, in the same order.
   */
  lemma ConditionRoundTrip(head: string, ids: seq<int>)
    requires !HasAny(head, {':'})
    requires |ids| >= 1 && forall i :: 0 <= i < |ids| ==> INT_MIN <= ids[i] <= INT_MAX
    ensures var parts := Split(head + ARG_SEPARATOR + Join(ARG_SEPARATOR, IdTexts(ids)), ':');
      |parts| == |ids| + 1 && parts[0] == head
      && forall i :: 0 <= i < |ids| ==> ParseInt(parts[i + 1]) == Some(ids[i])
  {
    ConditionSplits(head, ids);
    IdTextsParse(ids);
  }

  /** The head and the id texts are the pieces the condition splits into. */
  lemma ConditionSplits(head: string, ids: seq<int>)
    requires !HasAny(head, {':'}) && |ids| >= 1
    ensures Split(head + ARG_SEPARATOR + Join(ARG_SEPARATOR, IdTexts(ids)), ':') == [head] + IdTexts(ids)
  {
    var texts := IdTexts(ids);
    var all := [head] + texts;
    assert Join([':'], all) == head + ARG_SEPARATOR + Join(ARG_SEPARATOR, texts) by {
      JoinCons(ARG_SEPARATOR, head, texts);
    }
    assert all[|all| - 1] != "" by {
      assert all[|all| - 1] == IntToString(ids[|ids| - 1]);
      IntToStringChars(ids[|ids| - 1]);
    }
    IdTextsFree(head, ids);
    SplitJoin(':', all);
  }

  /** Each id text reads back as its id. */
  lemma IdTextsParse(ids: seq<int>)
    requires forall i :: 0 <= i < |ids| ==> INT_MIN <= ids[i] <= INT_MAX
    ensures forall i :: 0 <= i < |ids| ==> ParseInt(IdTexts(ids)[i]) == Some(ids[i])
  {
    forall i | 0 <= i < |ids| ensures ParseInt(IdTexts(ids)[i]) == Some(ids[i]) {
      ParseIntToString(ids[i], INT_MIN, INT_MAX);
    }
  }

  lemma IdTextsFree(head: string, ids: seq<int>)
    requires !HasAny(head, {':'})
    ensures var all := [head] + IdTexts(ids); forall i :: 0 <= i < |all| ==> !HasAny(all[i], {':'})
  {
    var all := [head] + IdTexts(ids);
    forall i | 0 <= i < |all| ensures !HasAny(all[i], {':'}) {
      if i > 0 {
        assert all[i] == IntToString(ids[i - 1]);
        IntToStringFree(ids[i - 1], {':'});
      }
    }
  }
}
