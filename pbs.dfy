/**
 * PBSScheduler: the commands that submit, wait for and delete PBS jobs, and
 * the readers of the text that `qsub` and `tracejob` print.
 */
module Pbs {
  import opened Wrappers
  import opened JavaText
  import opened Faults
  import opened Usage
  import opened SchedulerArguments
  import opened SchedulerCommon

  const QSUB: string := "qsub"
  const NAME: string := "PBS"
  const JOB_INDEX: string := "${PBS_ARRAY_INDEX}"

  /** What every PBS wait job runs: a one-second sleep piped into the submit command. */
  const WAIT_JOB: string := "echo \"sleep 1 2>&1\" | "
  const WAIT_LIMIT: string := "-l walltime=1"

  /** The text `echo "<command>"` that feeds a command to `qsub` on its standard input. */
  function EchoPart(internalCommand: string): string
  {
    "echo \"" + internalCommand + "\""
  }

  /**
   * `createCommand`: the command is echoed into `qsub` followed by the
   * rendered PBS options (`PBSArgs.toString`, which is not part of this
   * model and is given as `argsText`). A null args is a NullPointerException.
   */
  function CreateCommand(args: Option<Settings>, argsText: (Settings, bool) -> string,
                         internalCommand: string, isForegroundJob: bool): (r: Result<string, Fault>)
    ensures r.Err? <==> args.None?
    ensures r.Err? ==> r.error == NullPointer
  {
    if args.None? then Err(NullPointer)
    else Ok(EchoPart(internalCommand) + " | " + Join(" ", [QSUB, argsText(args.value, isForegroundJob)]))
  }

  /** The submit command is the echoed command, a pipe, `qsub`, then the options. */
  lemma CreateCommandShape(args: Settings, argsText: (Settings, bool) -> string, internalCommand: string, isForegroundJob: bool)
    ensures var r := CreateCommand(Some(args), argsText, internalCommand, isForegroundJob);
      r.Ok? && StartsWith(r.value, EchoPart(internalCommand) + " | " + QSUB + " ")
      && EndsWith(r.value, " " + argsText(args, isForegroundJob))
  {
    var head := EchoPart(internalCommand) + " | ";
    var t := argsText(args, isForegroundJob);
    assert Join(" ", [QSUB, t]) == QSUB + " " + t by {
      assert [QSUB, t][1..] == [t];
    }
    assert head + Join(" ", [QSUB, t]) == (head + QSUB + " ") + t;
    StartsWithConcat(head + QSUB + " ", t);
    assert (head + QSUB + " ") + t == (head + QSUB) + (" " + t);
    EndsWithConcat(head + QSUB, " " + t);
  }

  /**
   * `createWaitCommand`: the one-second job, `qsub`, the blocking condition,
   * the queue and the monitor file when they are set, and a one-second
   * wall-time limit. A null args is a NullPointerException.
   */
  function CreateWaitCommand(args: Option<Settings>, waitCondition: string): (r: Result<string, Fault>)
    ensures r.Err? <==> args.None?
    ensures r.Err? ==> r.error == NullPointer
  {
    if args.None? then Err(NullPointer)
    else
      var s := args.value;
      var middle := AddPrefixed("-q", s.queueName) + AddPrefixed("-eo", s.monitorFile);
      Ok(Join(" ", [WAIT_JOB, QSUB, "-W block=true," + waitCondition] + middle + [WAIT_LIMIT]))
  }

  /**
   * The wait command starts with the one-second job, `qsub` and the blocking
   * condition, and ends with the wall-time limit; without a queue and a
   * monitor file nothing comes between.
   */
  lemma CreateWaitCommandShape(args: Settings, waitCondition: string)
    ensures var r := CreateWaitCommand(Some(args), waitCondition).value;
      var front := WAIT_JOB + " " + QSUB + " " + ("-W block=true," + waitCondition);
      StartsWith(r, front + " ")
      && EndsWith(r, " " + WAIT_LIMIT)
      && (args.queueName.None? && args.monitorFile.None? ==> r == front + " " + WAIT_LIMIT)
  {
    var middle := AddPrefixed("-q", args.queueName) + AddPrefixed("-eo", args.monitorFile);
    var b := "-W block=true," + waitCondition;
    var head := [WAIT_JOB, QSUB, b];
    Join3(" ", WAIT_JOB, QSUB, b);
    assert head + middle + [WAIT_LIMIT] == head + (middle + [WAIT_LIMIT]);
    JoinStartsWith(" ", head, middle + [WAIT_LIMIT]);
    JoinEndsWith(" ", head + middle, [WAIT_LIMIT]);
    if args.queueName.None? && args.monitorFile.None? {
      assert head + middle + [WAIT_LIMIT] == head + [WAIT_LIMIT];
      JoinAppend(" ", head, [WAIT_LIMIT]);
    }
  }

  /**
   * With neither queue nor monitor file, waiting for job 1001 to succeed is
   * `echo "sleep 1 2>&1" |  qsub -W block=true,depend=afterok:1001 -l walltime=1`
   * (written below in three pieces).
   */
  lemma CreateWaitCommandExample(args: Settings)
    requires args.queueName.None? && args.monitorFile.None?
    ensures CreateWaitCommand(Some(args), WaitCondition("afterok", "1001"))
         == Ok("echo \"sleep 1 2>&1\" |  qsub " + "-W block=true,depend=afterok:1001" + " -l walltime=1")
  {
    var cond := WaitCondition("afterok", "1001");
    CreateWaitCommandShape(args, cond);
    WaitCommandPieces(cond);
    var block := "-W block=true," + cond;
    assert WAIT_JOB + " " + QSUB + " " + block + " " + WAIT_LIMIT == (WAIT_JOB + " " + QSUB + " ") + block + (" " + WAIT_LIMIT);
  }

  /** The three pieces of that wait command. */
  lemma WaitCommandPieces(cond: string)
    requires cond == WaitCondition("afterok", "1001")
    ensures WAIT_JOB + " " + QSUB + " " == "echo \"sleep 1 2>&1\" |  qsub "
    ensures "-W block=true," + cond == "-W block=true,depend=afterok:1001"
    ensures " " + WAIT_LIMIT == " -l walltime=1"
  {
    assert cond == "depend=afterok:1001";
  }

  /** `createWaitCondition(type, condition)`: `depend=`, the status keyword, `:`, then the condition. */
  function WaitCondition(statusCommand: string, condition: string): (r: string)
    ensures StartsWith(r, "depend=" + statusCommand + ARG_SEPARATOR)
    ensures r[|"depend=" + statusCommand + ARG_SEPARATOR|..] == condition
  {
    "depend=" + statusCommand + ARG_SEPARATOR + condition
  }

  /** `createWaitCondition(type, jobIds)`: `depend=`, the status keyword, `:`, then the ids separated by `:`. */
  function WaitConditionForIds(statusCommand: string, jobIds: seq<int>): string
  {
    "depend=" + statusCommand + ARG_SEPARATOR + Join(ARG_SEPARATOR, IdTexts(jobIds))
  }

  /** The loop that builds `createWaitCondition(type, jobIds)`; its result reads back as the prefix and the ids. */
  method CreateWaitConditionForIds(statusCommand: string, jobIds: seq<int>) returns (r: string)
    ensures r == WaitConditionForIds(statusCommand, jobIds)
    ensures !HasAny(statusCommand, {':'}) && |jobIds| >= 1 && (forall i :: 0 <= i < |jobIds| ==> INT_MIN <= jobIds[i] <= INT_MAX) ==>
      var parts := Split(r, ':');
      |parts| == |jobIds| + 1 && parts[0] == "depend=" + statusCommand
      && forall i :: 0 <= i < |jobIds| ==> ParseInt(parts[i + 1]) == Some(jobIds[i])
  {
    var ids := JoinIds(jobIds);
    var head := "depend=" + statusCommand;
    r := head + ARG_SEPARATOR + ids;
    if !HasAny(statusCommand, {':'}) && |jobIds| >= 1 && (forall i :: 0 <= i < |jobIds| ==> INT_MIN <= jobIds[i] <= INT_MAX) {
      HasAnyConcat("depend=", statusCommand, {':'});
      assert !HasAny("depend=", {':'}) by {
        assert forall k :: 0 <= k < |"depend="| ==> "depend="[k] != ':';
      }
      ConditionRoundTrip(head, jobIds);
    }
  }

  /**
   * `extractJobIdFromOutput`: the text before the first `.` of the line
   * `qsub` prints, as an int, when the line has at least two `.`-separated
   * pieces; otherwise an IllegalArgumentException.
   */
  function ExtractJobIdFromOutput(line: string): (r: Result<int, Fault>)
    ensures |Split(line, '.')| < 2 <==> r == Err(IllegalArgument)
    ensures r.Ok? ==> ParseInt(Split(line, '.')[0]) == Some(r.value)
  {
    var parts := Split(line, '.');
    if |parts| >= 2 then
      match ParseInt(parts[0])
      case Some(id) => Ok(id)
      case None => Err(NumberFormat)
    else Err(IllegalArgument)
  }

  /** A line `<id>.<server>` gives back the id. */
  lemma ExtractJobIdOfSubmitLine(id: int, server: string)
    requires INT_MIN <= id <= INT_MAX && server != "" && !HasAny(server, {'.'})
    ensures ExtractJobIdFromOutput(IntToString(id) + "." + server) == Ok(id)
  {
    var parts := [IntToString(id), server];
    IntToStringFree(id, {'.'});
    assert Join(".", parts) == IntToString(id) + "." + server by {
      assert parts[1..] == [server];
    }
    SplitJoin('.', parts);
    ParseIntToString(id, INT_MIN, INT_MAX);
  }

  /** The job id of `4176.UV00000010-P002` is 4176. */
  lemma ExtractJobIdExample()
    ensures ExtractJobIdFromOutput("4176.UV00000010-P002") == Ok(4176)
  {
    var server := "UV00000010-P002";
    assert !HasAny(server, {'.'}) by {
      assert forall k :: 0 <= k < |server| ==> server[k] != '.';
    }
    assert IntToString(4176) == "4176" by {
      assert NatToString(4) == "4";
      assert NatToString(41) == NatToString(4) + "1";
      assert NatToString(417) == NatToString(41) + "7";
      assert NatToString(4176) == NatToString(417) + "6";
    }
    assert IntToString(4176) + "." + server == "4176.UV00000010-P002";
    ExtractJobIdOfSubmitLine(4176, server);
  }

  // ---------------------------------------------------------------------------
  // tracejob output

  const RESOURCES_USED: string := "resources_used"

  /** A line that reports resource usage: longer than 27 characters and mentioning `resources_used`. */
  predicate IsUsageLine(line: string)
  {
    |line| > 27 && Contains(line, RESOURCES_USED)
  }

  /**
   * What `waitLonger` answers for one `tracejob` output: 0 once a usage line
   * is present, else the line count when it is more than 5, else -1.
   */
  function Progress(lines: seq<string>): int
  {
    if exists i :: 0 <= i < |lines| && IsUsageLine(lines[i]) then 0
    else if |lines| > 5 then |lines|
    else -1
  }

  /** `waitLonger`: scans the lines for a usage line, then falls back on the line count. */
  method WaitLonger(lines: seq<string>) returns (r: int)
    ensures r == Progress(lines)
    ensures r == 0 <==> exists i :: 0 <= i < |lines| && IsUsageLine(lines[i])
    ensures r == -1 || r == 0 || r > 5
  {
    for i := 0 to |lines|
      invariant forall j :: 0 <= j < i ==> !IsUsageLine(lines[j])
    {
      if |lines[i]| > 27 && Contains(lines[i], RESOURCES_USED) {
        return 0;
      }
    }
    if |lines| > 5 {
      return |lines|;
    }
    return -1;
  }

  /**
   * One whitespace-separated word of a usage line. A word starting with
   * `resources_used` is cut after its 15th character and split on `=` into
   * a key and a value; `cput` and `walltime` set the CPU and wall-clock
   * seconds, `mem` the memory without its two-character unit, divided by
   * 1000. A later word for the same key replaces the earlier value.
   */
  function ApplyResource(u: ResourceUsage, res: string): (r: Result<ResourceUsage, Fault>)
    ensures r.Ok? && u.InRange() ==> r.value.InRange()
  {
    if !StartsWith(res, RESOURCES_USED) then Ok(u)
    else if |res| < 15 then Err(IndexOutOfBounds)
    else
      var parts := Split(res[15..], '=');
      if |parts| < 2 then Err(IndexOutOfBounds)
      else ApplyKeyValue(u, parts[0], parts[1])
  }

  /** One `key=value` pair of a resource word; a key other than the three leaves the figures as they are. */
  function ApplyKeyValue(u: ResourceUsage, key: string, val: string): (r: Result<ResourceUsage, Fault>)
    ensures r.Ok? && u.InRange() ==> r.value.InRange()
  {
    if EqualsIgnoreCase(key, "cput") then
      var t :- TimeToSeconds(val);
      Ok(u.(cpuTime := t))
    else if EqualsIgnoreCase(key, "mem") then
      if |val| < 2 then Err(IndexOutOfBounds)
      else
        match ParseInt(val[..|val| - 2])
        case None => Err(NumberFormat)
        case Some(m) =>
          DivTruncBounds(m, 1000);
          Ok(u.(maxMem := DivTrunc(m, 1000)))
    else if EqualsIgnoreCase(key, "walltime") then
      var t :- TimeToSeconds(val);
      Ok(u.(runTime := t))
    else Ok(u)
  }

  /** The words of one line, in order; the first failure ends the parse. */
  function ApplyResources(u: ResourceUsage, words: seq<string>): (r: Result<ResourceUsage, Fault>)
    ensures r.Ok? && u.InRange() ==> r.value.InRange()
    decreases |words|
  {
    if |words| == 0 then Ok(u)
    else
      var next :- ApplyResource(u, words[0]);
      ApplyResources(next, words[1..])
  }

  /** One line: the words after its first 26 characters when it is a usage line, else nothing. */
  function ApplyLine(u: ResourceUsage, line: string): (r: Result<ResourceUsage, Fault>)
    ensures r.Ok? && u.InRange() ==> r.value.InRange()
  {
    if IsUsageLine(line) then ApplyResources(u, SplitWs(line[26..])) else Ok(u)
  }

  /** All lines, in order, starting from the given figures. */
  function ApplyLines(u: ResourceUsage, lines: seq<string>): (r: Result<ResourceUsage, Fault>)
    ensures r.Ok? && u.InRange() ==> r.value.InRange()
    decreases |lines|
  {
    if |lines| == 0 then Ok(u)
    else
      var next :- ApplyLine(u, lines[0]);
      ApplyLines(next, lines[1..])
  }

  /** The words of one usage line, applied in order; the first failure is returned. */
  method ParseUsageWords(u: ResourceUsage, words: seq<string>) returns (r: Result<ResourceUsage, Fault>)
    ensures r == ApplyResources(u, words)
  {
    var acc := u;
    for i := 0 to |words|
      invariant ApplyResources(acc, words[i..]) == ApplyResources(u, words)
    {
      assert words[i..][0] == words[i] && words[i..][1..] == words[i + 1..];
      var step := ApplyResource(acc, words[i]);
      if step.Err? {
        return Err(step.error);
      }
      acc := step.value;
    }
    return Ok(acc);
  }

  /**
   * `parseTraceJobOutput`: every usage line contributes its words in turn,
   * starting from zero memory, wall-clock and CPU time; an exception from
   * any word ends the parse.
   */
  method ParseTraceJobOutput(lines: seq<string>) returns (r: Result<ResourceUsage, Fault>)
    ensures r == ApplyLines(NO_USAGE, lines)
    ensures r.Ok? ==> r.value.InRange()
  {
    var acc := NO_USAGE;
    for i := 0 to |lines|
      invariant ApplyLines(acc, lines[i..]) == ApplyLines(NO_USAGE, lines)
    {
      assert lines[i..][0] == lines[i] && lines[i..][1..] == lines[i + 1..];
      if |lines[i]| > 27 && Contains(lines[i], RESOURCES_USED) {
        var step := ParseUsageWords(acc, SplitWs(lines[i][26..]));
        if step.Err? {
          return Err(step.error);
        }
        acc := step.value;
      }
    }
    return Ok(acc);
  }

  /** Output without usage lines leaves every figure as it was (zero for a whole `tracejob` output). */
  lemma {:induction false} NoUsageLines(u: ResourceUsage, lines: seq<string>)
    requires forall i :: 0 <= i < |lines| ==> !IsUsageLine(lines[i])
    ensures ApplyLines(u, lines) == Ok(u)
    decreases |lines|
  {
    if |lines| > 0 {
      NoUsageLines(u, lines[1..]);
    }
  }

  /** Splitting `<key>=<value>` on `=` gives the key and the value. */
  lemma KeyValue(key: string, val: string)
    requires !HasAny(key, {'='}) && !HasAny(val, {'='}) && val != ""
    ensures Split(key + "=" + val, '=') == [key, val]
  {
    assert Join("=", [key, val]) == key + "=" + val by {
      assert [key, val][1..] == [val];
    }
    SplitJoin('=', [key, val]);
  }

  /** The fixed start of a resource word, cut where the parser cuts it. */
  lemma ResourceWord(rest: string)
    ensures var res := RESOURCES_USED + "." + rest;
      StartsWith(res, RESOURCES_USED) && |res| >= 15 && res[15..] == rest
  {
    var res := RESOURCES_USED + "." + rest;
    StartsWithConcat(RESOURCES_USED, "." + rest);
    assert res == RESOURCES_USED + ("." + rest);
  }

  /** A word `resources_used.<key>=<value>` is read as that key and that value. */
  lemma WordParts(u: ResourceUsage, key: string, val: string)
    requires !HasAny(key, {'='}) && !HasAny(val, {'='}) && val != ""
    ensures ApplyResource(u, RESOURCES_USED + "." + (key + "=" + val)) == ApplyKeyValue(u, key, val)
  {
    ResourceWord(key + "=" + val);
    KeyValue(key, val);
  }

  /** The text of a time holds digits, `-` and `:` only. */
  lemma HmsFree(t: Hms, cs: set<char>)
    requires '-' !in cs && ':' !in cs && forall c :: c in cs ==> !IsDigit(c)
    ensures !HasAny(t.Text(), cs)
  {
    var h, m, s := IntToString(t.h), IntToString(t.m), IntToString(t.s);
    IntToStringFree(t.h, cs);
    IntToStringFree(t.m, cs);
    IntToStringFree(t.s, cs);
    assert !HasAny(":", cs) by {
      assert ":"[0] == ':';
    }
    HasAnyConcat(h, ":", cs);
    HasAnyConcat(h + ":", m, cs);
    HasAnyConcat(h + ":" + m, ":", cs);
    HasAnyConcat(h + ":" + m + ":", s, cs);
  }

  lemma NoEquals(key: string)
    requires key == "cput" || key == "mem" || key == "walltime"
    ensures !HasAny(key, {'='})
  {
    assert forall k :: 0 <= k < |key| ==> key[k] != '=';
  }

  /** `resources_used.cput=h:m:s` sets the CPU time to those seconds and keeps the rest. */
  lemma CputWord(u: ResourceUsage, t: Hms)
    requires t.InLongRange()
    ensures ApplyResource(u, RESOURCES_USED + "." + ("cput=" + t.Text())) == Ok(u.(cpuTime := t.Seconds()))
  {
    var text := t.Text();
    HmsFree(t, {'='});
    NoEquals("cput");
    WordParts(u, "cput", text);
    assert "cput=" + text == "cput" + "=" + text;
    CputValue(u, t);
  }

  /** The `cput` pair alone: the CPU time becomes the seconds of the time. */
  lemma CputValue(u: ResourceUsage, t: Hms)
    requires t.InLongRange()
    ensures ApplyKeyValue(u, "cput", t.Text()) == Ok(u.(cpuTime := t.Seconds()))
  {
    TimeToSecondsOfHms(t);
    assert EqualsIgnoreCase("cput", "cput");
  }

  /** `resources_used.walltime=h:m:s` sets the wall-clock time to those seconds and keeps the rest. */
  lemma WalltimeWord(u: ResourceUsage, t: Hms)
    requires t.InLongRange()
    ensures ApplyResource(u, RESOURCES_USED + "." + ("walltime=" + t.Text())) == Ok(u.(runTime := t.Seconds()))
  {
    HmsFree(t, {'='});
    NoEquals("walltime");
    WordParts(u, "walltime", t.Text());
    assert "walltime=" + t.Text() == "walltime" + "=" + t.Text();
    TimeToSecondsOfHms(t);
    assert !EqualsIgnoreCase("walltime", "cput");
    assert !EqualsIgnoreCase("walltime", "mem");
    assert EqualsIgnoreCase("walltime", "walltime");
    assert ApplyKeyValue(u, "walltime", t.Text()) == Ok(u.(runTime := t.Seconds()));
  }

  /** `resources_used.mem=<n><two-character unit>` sets the memory to n / 1000, rounded toward zero, and keeps the rest. */
  lemma MemWord(u: ResourceUsage, mem: int, unit: string)
    requires INT_MIN <= mem <= INT_MAX && |unit| == 2 && !HasAny(unit, {'='})
    ensures ApplyResource(u, RESOURCES_USED + "." + ("mem=" + (IntToString(mem) + unit))) == Ok(u.(maxMem := DivTrunc(mem, 1000)))
  {
    MemFree(mem, unit);
    NoEquals("mem");
    WordParts(u, "mem", IntToString(mem) + unit);
    assert "mem=" + (IntToString(mem) + unit) == "mem" + "=" + (IntToString(mem) + unit);
    MemValue(u, mem, unit);
  }

  /** The memory text holds no `=`. */
  lemma MemFree(mem: int, unit: string)
    requires |unit| == 2 && !HasAny(unit, {'='})
    ensures IntToString(mem) + unit != "" && !HasAny(IntToString(mem) + unit, {'='})
  {
    IntToStringFree(mem, {'='});
    HasAnyConcat(IntToString(mem), unit, {'='});
  }

  lemma MemValue(u: ResourceUsage, mem: int, unit: string)
    requires INT_MIN <= mem <= INT_MAX && |unit| == 2
    ensures ApplyKeyValue(u, "mem", IntToString(mem) + unit) == Ok(u.(maxMem := DivTrunc(mem, 1000)))
  {
    var val := IntToString(mem) + unit;
    assert !EqualsIgnoreCase("mem", "cput");
    assert EqualsIgnoreCase("mem", "mem");
    assert val[..|val| - 2] == IntToString(mem);
    ParseIntToString(mem, INT_MIN, INT_MAX);
  }

  // ---------------------------------------------------------------------------
  // Polling tracejob

  /** The command that prints a job's history. */
  function TracejobCommand(id: int): string
  {
    "tracejob " + IntToString(id)
  }

  /**
   * The `do ... while` of `getResourceUsageFromId` from attempt `n` on, with
   * `nbLines` the previous answer of `waitLonger`: the output that holds a
   * usage line, or the exception that ends the polling. An attempt without
   * usage lines fails when the output has at most 5 lines or fewer lines
   * than before; after the fourth attempt the polling gives up.
   */
  function Poll(id: int, runner: Runner, n: nat, nbLines: int): (r: Result<seq<string>, Fault>)
    requires n <= 3
    decreases 3 - n
  {
    var out := runner(TracejobCommand(id), n);
    if out.None? then Err(Io)
    else
      var res := Progress(out.value);
      if res == -1 then Err(IllegalState)
      else if res > 0 then
        if res < nbLines then Err(IllegalState)
        else if n < 3 then Poll(id, runner, n + 1, res)
        else Err(IllegalState)
      else Ok(out.value)
  }

  /** The polling looks at the first four runs of `tracejob` and at no others. */
  lemma {:induction false} PollUsesFourRuns(id: int, r1: Runner, r2: Runner, n: nat, nbLines: int)
    requires n <= 3
    requires forall k :: n <= k <= 3 ==> r1(TracejobCommand(id), k) == r2(TracejobCommand(id), k)
    ensures Poll(id, r1, n, nbLines) == Poll(id, r2, n, nbLines)
    decreases 3 - n
  {
    assert r1(TracejobCommand(id), n) == r2(TracejobCommand(id), n);
    if n < 3 {
      var out := r1(TracejobCommand(id), n);
      if out.Some? {
        PollUsesFourRuns(id, r1, r2, n + 1, Progress(out.value));
      }
    }
  }

  /**
   * An attempt whose output holds no usage line and has fewer lines than
   * the one before it ends the polling with an IllegalStateException.
   */
  lemma PollFailsOnShrink(id: int, runner: Runner, n: nat, nbLines: int)
    requires n <= 3 && runner(TracejobCommand(id), n).Some?
    requires var lines := runner(TracejobCommand(id), n).value;
      (forall i :: 0 <= i < |lines| ==> !IsUsageLine(lines[i])) && 5 < |lines| < nbLines
    ensures Poll(id, runner, n, nbLines) == Err(IllegalState)
  {
  }

  /** A successful polling ends on an output that holds a usage line. */
  lemma {:induction false} PollFindsUsage(id: int, runner: Runner, n: nat, nbLines: int)
    requires n <= 3
    ensures var r := Poll(id, runner, n, nbLines);
      r.Ok? ==> exists i :: 0 <= i < |r.value| && IsUsageLine(r.value[i])
    decreases 3 - n
  {
    var out := runner(TracejobCommand(id), n);
    if n < 3 && out.Some? {
      PollFindsUsage(id, runner, n + 1, Progress(out.value));
    }
  }

  /**
   * `getResourceUsageFromId`: polls `tracejob` at most four times and parses
   * the output that holds a usage line; every exception, and a polling that
   * gives up, yields null (None). `attempts` counts the runs of `tracejob`.
   */
  method GetResourceUsageFromId(id: int, runner: Runner) returns (r: Option<ResourceUsage>, attempts: nat)
    ensures 1 <= attempts <= 4
    ensures r.Some? <==> Poll(id, runner, 0, 0).Ok? && ApplyLines(NO_USAGE, Poll(id, runner, 0, 0).value).Ok?
    ensures r.Some? ==> r.value == ApplyLines(NO_USAGE, Poll(id, runner, 0, 0).value).value && r.value.InRange()
  {
    var n := 0;
    var nbLines := 0;
    var success := false;
    var output: seq<string> := [];
    while n == 0 || (n <= 3 && !success)
      invariant 0 <= n <= 4
      invariant !success && n <= 3 ==> Poll(id, runner, n, nbLines) == Poll(id, runner, 0, 0)
      invariant !success && n == 4 ==> Poll(id, runner, 0, 0) == Err(IllegalState)
      invariant success ==> 1 <= n && Poll(id, runner, 0, 0) == Ok(output)
      decreases 4 - n
    {
      var out := runner(TracejobCommand(id), n);
      if out.None? {
        return None, n + 1;
      }
      output := out.value;
      var res := WaitLonger(output);
      if res == -1 {
        return None, n + 1;
      } else if res > 0 {
        if res < nbLines {
          return None, n + 1;
        }
      } else {
        success := true;
      }
      nbLines := res;
      n := n + 1;
    }
    attempts := n;
    if !success {
      return None, attempts;
    }
    var parsed := ParseTraceJobOutput(output);
    if parsed.Err? {
      return None, attempts;
    }
    return Some(parsed.value), attempts;
  }

  /**
   * The PBS scheduler's behaviour. The rendering of PBS options, the status
   * keyword of an exit type and `getResourceUsage` are not part of this
   * model and are parameters.
   */
  function Behaviour(argsText: (Settings, bool) -> string, statusCommand: ExitType -> string,
                     resourceUsage: (int, Option<string>) -> Result<Option<ResourceUsage>, Fault>): (b: SchedulerCommon.Behaviour)
    ensures b.name == NAME && !b.usesFileMonitor && b.generatesJobIdFromOutput && b.jobIndexString == JOB_INDEX
  {
    SchedulerCommon.Behaviour(
      NAME, false, true, JOB_INDEX,
      (args, cmd, fg) => CreateCommand(args, argsText, cmd, fg),
      (args, cond) => CreateWaitCommand(args, cond),
      id => KillCommand("qdel", id),
      (t, cond) => WaitCondition(statusCommand(t), cond),
      (t, ids) => WaitConditionForIds(statusCommand(t), ids),
      line => ExtractJobIdFromOutput(line),
      resourceUsage)
  }
}
