/**
 * DefaultTaskResult: the outcome of running a whole task, with totals over
 * the results of its stages and a printable report.
 */
module TaskResults {
  import opened Wrappers
  import opened JavaText
  import opened Usage
  import opened ExecutionResults
  import opened Faults

  /** Which figure a total is taken over. */
  datatype Measure = WallClock | Cpu | PeakMemory

  /** One step of the accumulation loops: long additions wrap; memory takes `Math.max`. */
  function Step(acc: int, u: ResourceUsage, m: Measure): int
  {
    match m
    case WallClock => Wrap64(acc + u.runTime)
    case Cpu => Wrap64(acc + u.cpuTime)
    case PeakMemory => if acc >= u.maxMem then acc else u.maxMem
  }

  /**
   * The accumulation loop over `us` starting from 0: it throws as soon as it
   * reaches a missing usage.
   */
  function Accumulate(us: seq<Option<ResourceUsage>>, m: Measure): Result<int, Fault>
    decreases |us|
  {
    if |us| == 0 then Ok(0)
    else
      match Accumulate(us[..|us| - 1], m)
      case Err(e) => Err(e)
      case Ok(acc) =>
        var last := us[|us| - 1];
        if last.None? then Err(NullPointer) else Ok(Step(acc, last.value, m))
  }

  /** A total as the getters compute it: 0 when there is nothing, or when the first usage is missing. */
  function Total(us: seq<Option<ResourceUsage>>, m: Measure): Result<int, Fault>
  {
    if |us| == 0 || us[0].None? then Ok(0) else Accumulate(us, m)
  }

  predicate AllPresent(us: seq<Option<ResourceUsage>>)
  {
    forall i :: 0 <= i < |us| ==> us[i].Some?
  }

  /** The figure a measure reads, with a missing usage counting as zero. */
  function Figure(u: Option<ResourceUsage>, m: Measure): int
  {
    if u.None? then 0
    else match m
      case WallClock => u.value.runTime
      case Cpu => u.value.cpuTime
      case PeakMemory => u.value.maxMem
  }

  /** The exact sum of a measure, without any overflow. */
  function Sum(us: seq<Option<ResourceUsage>>, m: Measure): int
    decreases |us|
  {
    if |us| == 0 then 0 else Sum(us[..|us| - 1], m) + Figure(us[|us| - 1], m)
  }

  /** The loop fails exactly when some usage is missing. */
  lemma {:induction false} AccumulateFails(us: seq<Option<ResourceUsage>>, m: Measure)
    ensures Accumulate(us, m).Ok? <==> AllPresent(us)
    decreases |us|
  {
    if |us| > 0 {
      var front := us[..|us| - 1];
      AccumulateFails(front, m);
      assert AllPresent(us) <==> AllPresent(front) && us[|us| - 1].Some? by {
        if AllPresent(front) && us[|us| - 1].Some? {
          forall i | 0 <= i < |us| ensures us[i].Some? {
            if i < |us| - 1 { assert us[i] == front[i]; }
          }
        }
        if AllPresent(us) {
          forall i | 0 <= i < |front| ensures front[i].Some? { assert front[i] == us[i]; }
        }
      }
    }
  }

  /** The wall-clock and CPU totals are the true sums, wrapped to a Java long. */
  lemma {:induction false} AccumulateSums(us: seq<Option<ResourceUsage>>, m: Measure)
    requires m != PeakMemory && AllPresent(us)
    ensures Accumulate(us, m) == Ok(Wrap64(Sum(us, m)))
    decreases |us|
  {
    if |us| > 0 {
      var front := us[..|us| - 1];
      assert AllPresent(front) by {
        forall i | 0 <= i < |front| ensures front[i].Some? { assert front[i] == us[i]; }
      }
      AccumulateSums(front, m);
      Wrap64AddLeft(Sum(front, m), Figure(us[|us| - 1], m));
    }
  }

  /**
   * The memory figure is the largest maxMem, never below 0, and it is 0 or
   * one of the reported values.
   */
  lemma {:induction false} AccumulatePeak(us: seq<Option<ResourceUsage>>)
    requires AllPresent(us)
    ensures Accumulate(us, PeakMemory).Ok?
    ensures var r := Accumulate(us, PeakMemory).value;
      r >= 0
      && (forall i :: 0 <= i < |us| ==> us[i].value.maxMem <= r)
      && (r == 0 || exists i :: 0 <= i < |us| && us[i].value.maxMem == r)
    decreases |us|
  {
    if |us| > 0 {
      var front := us[..|us| - 1];
      assert AllPresent(front) by {
        forall i | 0 <= i < |front| ensures front[i].Some? { assert front[i] == us[i]; }
      }
      AccumulatePeak(front);
      var acc := Accumulate(front, PeakMemory).value;
      var r := Accumulate(us, PeakMemory).value;
      forall i | 0 <= i < |us| ensures us[i].value.maxMem <= r {
        if i < |us| - 1 { assert us[i] == front[i]; }
      }
      if r != 0 {
        if r == acc {
          var j :| 0 <= j < |front| && front[j].value.maxMem == acc;
          assert us[j] == front[j];
        } else {
          assert us[|us| - 1].value.maxMem == r;
        }
      }
    }
  }

  /** Once the loop has failed on a prefix it fails on the whole list. */
  lemma {:induction false} AccumulateFailureStays(us: seq<Option<ResourceUsage>>, k: nat, m: Measure)
    requires k <= |us| && Accumulate(us[..k], m) == Err(NullPointer)
    ensures Accumulate(us, m) == Err(NullPointer)
    decreases |us| - k
  {
    if k < |us| {
      assert us[..k + 1][..k] == us[..k];
      AccumulateFailureStays(us, k + 1, m);
    } else {
      assert us[..k] == us;
    }
  }

  /** The eight header lines of a task report. */
  function ReportHeader(taskName: Option<string>, actual: int, cpu: int, mem: int, count: int): seq<string>
  {
    [ "Runtimes and resource usage for task: " + OrNull(taskName),
      "  Total wall clock runtime (s): " + IntToString(actual),
      "  Total CPU time from combined sub-processes (s): " + IntToString(cpu),
      "  Max memory usage of uncombined sub-processes (MB): " + IntToString(mem),
      "",
      "Number of sub-processes executed for this task: " + IntToString(count),
      "Breakdown of sub-processes:",
      "Name\tExitCode\tJobID\tMaxMem(MB)\tWallClock(s)\tCPUTime(s)" ]
  }

  /** The report row of every result, in order. */
  function Rows(rs: seq<DefaultExecutionResult>): seq<string>
    reads rs
    decreases |rs|
  {
    if |rs| == 0 then [] else Rows(rs[..|rs| - 1]) + [rs[|rs| - 1].ToString()]
  }

  /** There is one row per result, and row `i` is the `i`-th result's row. */
  lemma {:induction false} RowsOfResults(rs: seq<DefaultExecutionResult>)
    ensures |Rows(rs)| == |rs|
    ensures forall i :: 0 <= i < |rs| ==> Rows(rs)[i] == rs[i].ToString()
    decreases |rs|
  {
    if |rs| > 0 {
      var init := rs[..|rs| - 1];
      RowsOfResults(init);
      var rows, last := Rows(init), rs[|rs| - 1].ToString();
      assert Rows(rs) == rows + [last];
      forall i | 0 <= i < |rs| ensures Rows(rs)[i] == rs[i].ToString() {
        if i < |init| {
          assert Rows(rs)[i] == rows[i] == init[i].ToString();
          assert init[i] == rs[i];
        } else {
          assert Rows(rs)[i] == last;
        }
      }
    }
  }

  class DefaultTaskResult {
    const taskName: Option<string>
    const success: bool
    const processResults: seq<DefaultExecutionResult>
    const actualTotalRuntime: int

    constructor (taskName: Option<string>, success: bool, processResults: seq<DefaultExecutionResult>, actualTotalRuntime: int)
      ensures this.taskName == taskName && this.success == success
      ensures this.processResults == processResults && this.actualTotalRuntime == actualTotalRuntime
    {
      this.taskName := taskName;
      this.success := success;
      this.processResults := processResults;
      this.actualTotalRuntime := actualTotalRuntime;
    }

    /** The usage currently attached to each result, in order. */
    function Usages(): (us: seq<Option<ResourceUsage>>)
      reads processResults
      ensures |us| == |processResults|
      ensures forall i :: 0 <= i < |us| ==> us[i] == processResults[i].usage
    {
      seq(|processResults|, i reads processResults requires 0 <= i < |processResults| => processResults[i].usage)
    }

    /** `isSuccess`: the flag given at construction, whatever the stage results say. */
    function IsSuccess(): bool
    {
      success
    }

    /** True exactly when every stage exited with 0 (so also for no stages). */
    method IsAllSubTasksSuccess() returns (b: bool)
      ensures b <==> forall i :: 0 <= i < |processResults| ==> processResults[i].exitCode == 0
    {
      for i := 0 to |processResults|
        invariant forall k :: 0 <= k < i ==> processResults[k].exitCode == 0
      {
        if processResults[i].exitCode != 0 {
          return false;
        }
      }
      return true;
    }

    /** The guard shared by the three totals, then the accumulation loop. */
    method Aggregate(m: Measure) returns (r: Result<int, Fault>)
      ensures r == Total(Usages(), m)
    {
      if |processResults| == 0 || processResults[0].usage.None? {
        return Ok(0);
      }
      ghost var us := Usages();
      var acc := 0;
      for i := 0 to |processResults|
        invariant Accumulate(us[..i], m) == Ok(acc)
      {
        assert us[..i + 1][..i] == us[..i];
        var u := processResults[i].usage;
        if u.None? {
          assert us[..i + 1][i] == u;
          AccumulateFailureStays(us, i + 1, m);
          return Err(NullPointer);
        }
        acc := Step(acc, u.value, m);
      }
      assert us[..|processResults|] == us;
      return Ok(acc);
    }

    /** `getTotalExternalRuntime`: the sum of the stages' wall-clock times. */
    method GetTotalExternalRuntime() returns (r: Result<int, Fault>)
      ensures r == Total(Usages(), WallClock)
    {
      r := Aggregate(WallClock);
    }

    /** `getTotalExternalCputime`: the sum of the stages' CPU times. */
    method GetTotalExternalCputime() returns (r: Result<int, Fault>)
      ensures r == Total(Usages(), Cpu)
    {
      r := Aggregate(Cpu);
    }

    /** `getMaxMemUsage`: the largest memory figure of any stage. */
    method GetMaxMemUsage() returns (r: Result<int, Fault>)
      ensures r == Total(Usages(), PeakMemory)
    {
      r := Aggregate(PeakMemory);
    }

    /** The report: the header lines, then one row per stage result in order. */
    method GetOutput() returns (r: Result<seq<string>, Fault>)
      ensures r.Err? <==> Total(Usages(), Cpu).Err? || Total(Usages(), PeakMemory).Err?
      ensures r.Ok? ==>
        r.value == ReportHeader(taskName, actualTotalRuntime, Total(Usages(), Cpu).value,
                                Total(Usages(), PeakMemory).value, |processResults|) + Rows(processResults)
    {
      var cpu := GetTotalExternalCputime();
      if cpu.Err? {
        return Err(cpu.error);
      }
      var mem := GetMaxMemUsage();
      if mem.Err? {
        return Err(mem.error);
      }
      var header := ReportHeader(taskName, actualTotalRuntime, cpu.value, mem.value, |processResults|);
      var lines := AppendRows(header);
      return Ok(lines);
    }

    /** Adds the report row of every stage result, in order, after `header`. */
    method AppendRows(header: seq<string>) returns (lines: seq<string>)
      ensures lines == header + Rows(processResults)
    {
      lines := header;
      for i := 0 to |processResults|
        invariant lines == header + Rows(processResults[..i])
      {
        assert processResults[..i + 1][..i] == processResults[..i];
        lines := lines + [processResults[i].ToString()];
      }
      assert processResults[..|processResults|] == processResults;
    }
  }
}
