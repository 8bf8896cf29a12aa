/** The memory, wall-clock and CPU figures a scheduler reports for one job. */
module Usage {
  import opened Wrappers
  import opened JavaText

  /** `maxMem` is a Java int in MB; `runTime` and `cpuTime` are Java longs in seconds. */
  datatype ResourceUsage = ResourceUsage(maxMem: int, runTime: int, cpuTime: int)
  {
    predicate InRange()
    {
      INT_MIN <= maxMem <= INT_MAX && LONG_MIN <= runTime <= LONG_MAX && LONG_MIN <= cpuTime <= LONG_MAX
    }

    /**
     * `toString(verbose)`: the labelled one-line summary, or the three numbers
     * separated by tabs (the last three columns of a task report row).
     */
    function ToText(verbose: bool): string
    {
      var m, w, c := IntToString(maxMem), IntToString(runTime), IntToString(cpuTime);
      if verbose then "MaxMem(MB): " + m + "; WallClock(s): " + w + "; CPUTime(s): " + c
      else m + "\t" + w + "\t" + c
    }

    /** `toString()`: the tab-separated form. */
    function ToString(): string
    {
      ToText(false)
    }

    /** The labelled summary names the memory first and the CPU time last. */
    lemma VerboseLabels()
      ensures StartsWith(ToText(true), "MaxMem(MB): " + IntToString(maxMem) + "; WallClock(s): ")
      ensures EndsWith(ToText(true), "; CPUTime(s): " + IntToString(cpuTime))
    {
      var head := "MaxMem(MB): " + IntToString(maxMem) + "; WallClock(s): ";
      var w, cpuTag, c := IntToString(runTime), "; CPUTime(s): ", IntToString(cpuTime);
      StartsWithConcat(head, w);
      StartsWithExtend(head + w, head, cpuTag);
      StartsWithExtend(head + w + cpuTag, head, c);
      EndsWithConcat3(head + w, cpuTag, c);
    }

    /** The tab-separated form splits on tabs into the three numbers. */
    lemma TabbedFields()
      ensures Split(ToString(), '\t') == [IntToString(maxMem), IntToString(runTime), IntToString(cpuTime)]
    {
      NumbersJoin(IntToString(maxMem), IntToString(runTime), IntToString(cpuTime));
    }
  }

  /** The usage that a missing (null) one is reported as. */
  const NO_USAGE: ResourceUsage := ResourceUsage(0, 0, 0)

  lemma NoTab(n: int)
    ensures !HasAny(IntToString(n), {'\t'})
  {
    IntToStringChars(n);
  }

  lemma NumbersJoin(m: string, w: string, c: string)
    requires exists a, b, d :: m == IntToString(a) && w == IntToString(b) && c == IntToString(d)
    ensures Split(m + "\t" + w + "\t" + c, '\t') == [m, w, c]
  {
    var a, b, d :| m == IntToString(a) && w == IntToString(b) && c == IntToString(d);
    NoTab(a);
    NoTab(b);
    NoTab(d);
    IntToStringChars(d);
    SplitJoin3('\t', m, w, c);
  }

  /** Reads a tab-separated usage back: three fields, an int and two longs. */
  function FromTabbed(s: string): Option<ResourceUsage>
  {
    var ps := Split(s, '\t');
    if |ps| != 3 then None
    else
      match (ParseInt(ps[0]), ParseLong(ps[1]), ParseLong(ps[2]))
      case (Some(m), Some(w), Some(c)) => Some(ResourceUsage(m, w, c))
      case _ => None
  }

  /** The tab-separated form loses nothing: reading it back gives the same usage. */
  lemma TabbedRoundTrip(ru: ResourceUsage)
    requires ru.InRange()
    ensures FromTabbed(ru.ToString()) == Some(ru)
  {
    ru.TabbedFields();
    ParseIntToString(ru.maxMem, INT_MIN, INT_MAX);
    ParseIntToString(ru.runTime, LONG_MIN, LONG_MAX);
    ParseIntToString(ru.cpuTime, LONG_MIN, LONG_MAX);
  }
}
