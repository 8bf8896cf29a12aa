/**
 * SlurmScheduler: the commands that submit, wait for and cancel SLURM jobs,
 * and the readers of the text that `sbatch` and `sacct` print.
 */
module Slurm {
  import opened Wrappers
  import opened JavaText
  import opened Faults
  import opened Usage
  import opened SchedulerArguments
  import opened SlurmArguments
  import opened SchedulerCommon

  /** The submit command the scheduler object is built with (empty: SLURM picks salloc or sbatch per job). */
  const EXE: string := ""
  const NAME: string := "SLURM"
  const JOB_INDEX: string := "${SLURM_ARRAY_TASK_ID}"

  /** The script a background job is submitted as: its path and its lines. */
  datatype BatchFile = BatchFile(path: string, lines: seq<string>)

  /** The command line to run, and the batch file written before it runs (background jobs only). */
  datatype Submission = Submission(command: string, batchFile: Option<BatchFile>)

  /**
   * `createCommand`: a foreground job runs the command under `salloc`; a
   * background job writes it into `<monitor file>.batch` and hands that file
   * to `sbatch`. A null args, or a background job without a monitor file,
   * is a NullPointerException.
   */
  function CreateCommand(args: Option<Settings>, internalCommand: string, isForegroundJob: bool): (r: Result<Submission, Fault>)
    ensures r.Err? <==> args.None? || (!isForegroundJob && args.value.monitorFile.None?)
    ensures r.Err? ==> r.error == NullPointer
    ensures r.Ok? && isForegroundJob ==> r.value.batchFile.None?
    ensures r.Ok? && !isForegroundJob ==>
      r.value.batchFile == Some(BatchFile(args.value.monitorFile.value + ".batch", ["#!/bin/bash", internalCommand]))
  {
    if args.None? then Err(NullPointer)
    else if isForegroundJob then
      Ok(Submission(CommandLine("salloc", ArgsText(args.value, true), internalCommand), None))
    else if args.value.monitorFile.None? then Err(NullPointer)
    else
      var path := args.value.monitorFile.value + ".batch";
      Ok(Submission(CommandLine("sbatch", ArgsText(args.value, false), path), Some(BatchFile(path, ["#!/bin/bash", internalCommand]))))
  }

  /** A foreground submit command: `salloc`, the foreground options, then the command itself. */
  lemma CreateCommandForeground(args: Settings, internalCommand: string)
    ensures var r := CreateCommand(Some(args), internalCommand, true);
      r.Ok?
      && StartsWith(r.value.command, "salloc" + " " + ArgsText(args, true) + " ")
      && EndsWith(r.value.command, " " + internalCommand)
  {
    var c := CommandLine("salloc", ArgsText(args, true), internalCommand);
    assert CreateCommand(Some(args), internalCommand, true).value.command == c;
  }

  /** A background submit command: `sbatch`, the background options, then the batch file's path. */
  lemma CreateCommandBackground(args: Settings, internalCommand: string)
    requires args.monitorFile.Some?
    ensures var r := CreateCommand(Some(args), internalCommand, false);
      r.Ok?
      && StartsWith(r.value.command, "sbatch" + " " + ArgsText(args, false) + " ")
      && EndsWith(r.value.command, " " + (args.monitorFile.value + ".batch"))
  {
    var path := args.monitorFile.value + ".batch";
    var c := CommandLine("sbatch", ArgsText(args, false), path);
    assert CreateCommand(Some(args), internalCommand, false).value.command == c;
  }

  /** Three words joined by single spaces. */
  function CommandLine(a: string, b: string, c: string): (r: string)
    ensures r == Join(" ", [a, b, c])
    ensures StartsWith(r, a + " " + b + " ") && EndsWith(r, " " + c)
  {
    JoinThree(a, b, c);
    Join(" ", [a, b, c])
  }

  lemma JoinThree(a: string, b: string, c: string)
    ensures var r := Join(" ", [a, b, c]);
      StartsWith(r, a + " " + b + " ") && EndsWith(r, " " + c)
  {
    JoinCons(" ", a, [b, c]);
    assert [a] + [b, c] == [a, b, c];
    assert [b, c][1..] == [c];
    assert Join(" ", [a, b, c]) == (a + " " + b + " ") + c;
    StartsWithConcat(a + " " + b + " ", c);
    assert Join(" ", [a, b, c]) == (a + " " + b) + (" " + c);
    EndsWithConcat(a + " " + b, " " + c);
  }

  /**
   * `createWaitCommand`: `salloc -d<condition>`, the queue and the monitor
   * file when they are set, then a one-minute `sleep 1` job. A null args is
   * a NullPointerException.
   */
  function CreateWaitCommand(args: Option<Settings>, waitCondition: string): (r: Result<string, Fault>)
    ensures r.Err? <==> args.None?
    ensures r.Err? ==> r.error == NullPointer
  {
    if args.None? then Err(NullPointer)
    else
      var s := args.value;
      var middle := AddPrefixed("-p", s.queueName) + AddPrefixed("-e", s.monitorFile) + AddPrefixed("-o", s.monitorFile);
      Ok(Join(" ", ["salloc", "-d" + waitCondition] + middle + WAIT_TAIL))
  }

  /** The two words that end every wait command: a one-minute limit and a one-second job. */
  const WAIT_TAIL: seq<string> := ["--time=1", "sleep 1"]

  /**
   * The wait command starts with `salloc -d<condition>` and ends with the
   * one-second job; without a queue and a monitor file nothing comes between.
   */
  lemma CreateWaitCommandShape(args: Settings, waitCondition: string)
    ensures var r := CreateWaitCommand(Some(args), waitCondition).value;
      StartsWith(r, "salloc" + " " + ("-d" + waitCondition) + " ")
      && EndsWith(r, " " + Join(" ", WAIT_TAIL))
      && (args.queueName.None? && args.monitorFile.None? ==> r == "salloc" + " " + ("-d" + waitCondition) + " " + Join(" ", WAIT_TAIL))
  {
    var middle := AddPrefixed("-p", args.queueName) + AddPrefixed("-e", args.monitorFile) + AddPrefixed("-o", args.monitorFile);
    var b := "-d" + waitCondition;
    assert Join(" ", ["salloc", b]) == "salloc" + " " + b by {
      assert ["salloc", b][1..] == [b];
    }
    assert ["salloc", b] + middle + WAIT_TAIL == ["salloc", b] + (middle + WAIT_TAIL);
    JoinStartsWith(" ", ["salloc", b], middle + WAIT_TAIL);
    JoinEndsWith(" ", ["salloc", b] + middle, WAIT_TAIL);
    if args.queueName.None? && args.monitorFile.None? {
      assert ["salloc", b] + middle + WAIT_TAIL == ["salloc", b] + WAIT_TAIL;
      JoinAppend(" ", ["salloc", b], WAIT_TAIL);
    }
  }

  /** `createWaitCondition(type, condition)`: the status keyword, `:`, then the condition. */
  function WaitCondition(statusCommand: string, condition: string): (r: string)
    ensures StartsWith(r, statusCommand + ARG_SEPARATOR) && r[|statusCommand| + 1..] == condition
  {
    statusCommand + ARG_SEPARATOR + condition
  }

  /** `createWaitCondition(type, jobIds)`: the status keyword, `:`, then the ids separated by `:`. */
  function WaitConditionForIds(statusCommand: string, jobIds: seq<int>): string
  {
    statusCommand + ARG_SEPARATOR + Join(ARG_SEPARATOR, IdTexts(jobIds))
  }

  /** The loop that builds `createWaitCondition(type, jobIds)`; its result reads back as the status and the ids. */
  method CreateWaitConditionForIds(statusCommand: string, jobIds: seq<int>) returns (r: string)
    ensures r == WaitConditionForIds(statusCommand, jobIds)
    ensures !HasAny(statusCommand, {':'}) && |jobIds| >= 1 && (forall i :: 0 <= i < |jobIds| ==> INT_MIN <= jobIds[i] <= INT_MAX) ==>
      var parts := Split(r, ':');
      |parts| == |jobIds| + 1 && parts[0] == statusCommand
      && forall i :: 0 <= i < |jobIds| ==> ParseInt(parts[i + 1]) == Some(jobIds[i])
  {
    var ids := JoinIds(jobIds);
    r := statusCommand + ARG_SEPARATOR + ids;
    if !HasAny(statusCommand, {':'}) && |jobIds| >= 1 && (forall i :: 0 <= i < |jobIds| ==> INT_MIN <= jobIds[i] <= INT_MAX) {
      ConditionRoundTrip(statusCommand, jobIds);
    }
  }

  /**
   * `extractJobIdFromOutput`: the fourth space-separated word of the line
   * `sbatch` prints, as an int; fewer than four words is an IllegalArgumentException.
   */
  function ExtractJobIdFromOutput(line: string): (r: Result<int, Fault>)
    ensures |Split(line, ' ')| < 4 <==> r == Err(IllegalArgument)
    ensures r.Ok? ==> ParseInt(Split(line, ' ')[3]) == Some(r.value)
  {
    var parts := Split(line, ' ');
    if |parts| >= 4 then
      match ParseInt(parts[3])
      case Some(id) => Ok(id)
      case None => Err(NumberFormat)
    else Err(IllegalArgument)
  }

  /** The line `sbatch` prints gives back the id it names. */
  lemma ExtractJobIdOfSubmitLine(id: int)
    requires INT_MIN <= id <= INT_MAX
    ensures ExtractJobIdFromOutput("Submitted batch job " + IntToString(id)) == Ok(id)
  {
    var parts := ["Submitted", "batch", "job", IntToString(id)];
    IntToStringFree(id, {' '});
    IntToStringChars(id);
    forall i | 0 <= i < 3 ensures !HasAny(parts[i], {' '}) {
      assert forall k :: 0 <= k < |parts[i]| ==> parts[i][k] != ' ';
    }
    assert Join([' '], parts) == "Submitted batch job " + IntToString(id) by {
      assert parts == ["Submitted", "batch", "job"] + [IntToString(id)];
      JoinAppend(" ", ["Submitted", "batch", "job"], [IntToString(id)]);
      assert Join(" ", ["Submitted", "batch", "job"]) == "Submitted batch job" by {
        assert ["Submitted", "batch", "job"][1..] == ["batch", "job"];
        assert ["batch", "job"][1..] == ["job"];
      }
    }
    SplitJoin(' ', parts);
    ParseIntToString(id, INT_MIN, INT_MAX);
  }

  /**
   * `parseTraceJobOutput`: the last line of `sacct` output, trimmed and split
   * on whitespace, holds CPU time, peak memory and elapsed time. Memory loses
   * its one-character unit and is divided by 1000 (Java int division).
   */
  function ParseTraceJobOutput(lines: seq<string>): (r: Result<ResourceUsage, Fault>)
    ensures |lines| == 0 ==> r == Err(IndexOutOfBounds)
    ensures r.Ok? ==> r.value.InRange()
  {
    if |lines| == 0 then Err(IndexOutOfBounds)
    else ParseSacctFields(SplitWs(Trim(lines[|lines| - 1])))
  }

  /** The fields of the last line: CPU time, memory with its unit, elapsed time. */
  function ParseSacctFields(parts: seq<string>): (r: Result<ResourceUsage, Fault>)
    ensures r.Ok? ==> r.value.InRange()
  {
    if |parts| < 2 || |parts[1]| == 0 then Err(IndexOutOfBounds)
    else
      match ParseInt(parts[1][..|parts[1]| - 1])
      case None => Err(NumberFormat)
      case Some(mem) =>
        var cpu :- TimeToSeconds(parts[0]);
        if |parts| < 3 then Err(IndexOutOfBounds)
        else
          var wall :- TimeToSeconds(parts[2]);
          DivTruncBounds(mem, 1000);
          Ok(ResourceUsage(DivTrunc(mem, 1000), wall, cpu))
  }

  /**
   * A last line `cpu mem<unit> elapsed` is read back as the memory divided
   * by 1000 and both times in seconds, whatever lines come before it.
   */
  lemma ParseSacctLine(before: seq<string>, cpu: Hms, mem: int, unit: char, elapsed: Hms)
    requires cpu.InLongRange() && elapsed.InLongRange() && INT_MIN <= mem <= INT_MAX && unit > ' '
    ensures ParseTraceJobOutput(before + [cpu.Text() + " " + (IntToString(mem) + [unit]) + " " + elapsed.Text()])
      == Ok(ResourceUsage(DivTrunc(mem, 1000), elapsed.Seconds(), cpu.Seconds()))
  {
    SacctLineSplits(cpu, mem, unit, elapsed);
    ParseIntToString(mem, INT_MIN, INT_MAX);
    TimeToSecondsOfHms(cpu);
    TimeToSecondsOfHms(elapsed);
    ParseLastLine(before, cpu.Text() + " " + (IntToString(mem) + [unit]) + " " + elapsed.Text(),
      cpu.Text(), IntToString(mem), unit, elapsed.Text(), mem, cpu.Seconds(), elapsed.Seconds());
  }

  /** The three words of a `cpu mem<unit> elapsed` line. */
  lemma SacctLineSplits(cpu: Hms, mem: int, unit: char, elapsed: Hms)
    requires unit > ' '
    ensures SplitWs(Trim(cpu.Text() + " " + (IntToString(mem) + [unit]) + " " + elapsed.Text()))
      == [cpu.Text(), IntToString(mem) + [unit], elapsed.Text()]
  {
    HmsToken(cpu);
    HmsToken(elapsed);
    IntToStringToken(mem);
    TokenConcat(IntToString(mem), [unit]);
    SplitWsTrim3(cpu.Text(), IntToString(mem) + [unit], elapsed.Text());
  }

  /** A last line whose three words parse decides the result, whatever lines come before it. */
  lemma ParseLastLine(before: seq<string>, line: string, c: string, digits: string, unit: char, w: string, mem: int, cs: int, ws: int)
    requires SplitWs(Trim(line)) == [c, digits + [unit], w]
    requires ParseInt(digits) == Some(mem)
    requires TimeToSeconds(c) == Ok(cs) && TimeToSeconds(w) == Ok(ws)
    ensures ParseTraceJobOutput(before + [line]) == Ok(ResourceUsage(DivTrunc(mem, 1000), ws, cs))
  {
    var lines := before + [line];
    assert lines[|lines| - 1] == line;
    SacctFieldsOf(c, digits, unit, w, mem, cs, ws);
  }

  lemma SacctFieldsOf(c: string, digits: string, unit: char, w: string, mem: int, cs: int, ws: int)
    requires ParseInt(digits) == Some(mem)
    requires TimeToSeconds(c) == Ok(cs) && TimeToSeconds(w) == Ok(ws)
    ensures ParseSacctFields([c, digits + [unit], w]) == Ok(ResourceUsage(DivTrunc(mem, 1000), ws, cs))
  {
    var mt := digits + [unit];
    assert mt[..|mt| - 1] == digits;
    var parts := [c, mt, w];
    assert parts[0] == c && parts[1] == mt && parts[2] == w;
  }

  /** The accounting command run for a job. */
  function SacctCommand(id: int): string
  {
    "sacct --format=CPUTime,MaxRSS,Elapsed -j " + IntToString(id)
  }

  /**
   * `getResourceUsageFromId`: runs `sacct` once and reads its output; any
   * failure, including fewer than three lines of output, gives null (None)
   * rather than an exception.
   */
  function GetResourceUsageFromId(id: int, runner: Runner): (r: Option<ResourceUsage>)
    ensures var out := runner(SacctCommand(id), 0);
      (out.None? || |out.value| < 3 ==> r.None?)
      && (out.Some? && |out.value| >= 3 ==> r == (var p := ParseTraceJobOutput(out.value); if p.Ok? then Some(p.value) else None))
  {
    var out := runner(SacctCommand(id), 0);
    if out.None? || |out.value| < 3 then None
    else
      match ParseTraceJobOutput(out.value)
      case Ok(u) => Some(u)
      case Err(_) => None
  }

  /**
   * The SLURM scheduler's behaviour. The status keyword of an exit type and
   * `getResourceUsage` are not part of this model and are parameters.
   */
  function Behaviour(statusCommand: ExitType -> string,
                     resourceUsage: (int, Option<string>) -> Result<Option<ResourceUsage>, Fault>): (b: SchedulerCommon.Behaviour)
    ensures b.name == NAME && !b.usesFileMonitor && b.generatesJobIdFromOutput && b.jobIndexString == JOB_INDEX
  {
    SchedulerCommon.Behaviour(
      NAME, false, true, JOB_INDEX,
      (args, cmd, fg) => match CreateCommand(args, cmd, fg) case Ok(sub) => Ok(sub.command) case Err(e) => Err(e),
      (args, cond) => CreateWaitCommand(args, cond),
      id => KillCommand("scancel", id),
      (t, cond) => WaitCondition(statusCommand(t), cond),
      (t, ids) => WaitConditionForIds(statusCommand(t), ids),
      line => ExtractJobIdFromOutput(line),
      resourceUsage)
  }
}
