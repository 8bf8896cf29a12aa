/**
 * DefaultExecutionResult: what running one command produced. The exit code,
 * output lines and job id are fixed at construction; the name, the output
 * file and the resource usage can be replaced afterwards.
 */
module ExecutionResults {
  import opened Wrappers
  import opened JavaText
  import opened Usage

  /** The state of one result object, as a value. */
  datatype Execution = Execution(
    name: Option<string>,
    exitCode: int,
    output: seq<string>,
    outputFile: Option<string>,
    jobId: int,
    usage: Option<ResourceUsage>)

  class DefaultExecutionResult {
    var name: Option<string>
    const exitCode: int
    const output: seq<string>
    /** Path of the file holding the output, if there is one. */
    var outputFile: Option<string>
    const jobId: int
    var usage: Option<ResourceUsage>

    function Value(): Execution
      reads this
    {
      Execution(name, exitCode, output, outputFile, jobId, usage)
    }

    /** The full constructor; the shorter ones below fill in its defaults. */
    constructor (name: Option<string>, exitCode: int, output: seq<string>, outputFile: Option<string>,
                 jobId: int, usage: Option<ResourceUsage>)
      ensures this.name == name && this.exitCode == exitCode && this.output == output
      ensures this.outputFile == outputFile && this.jobId == jobId && this.usage == usage
    {
      this.name := name;
      this.exitCode := exitCode;
      this.output := output;
      this.outputFile := outputFile;
      this.jobId := jobId;
      this.usage := usage;
    }

    /** No resource usage yet. */
    constructor WithJobId(name: Option<string>, exitCode: int, output: seq<string>, outputFile: Option<string>, jobId: int)
      ensures this.name == name && this.exitCode == exitCode && this.output == output
      ensures this.outputFile == outputFile && this.jobId == jobId && usage.None?
    {
      this.name := name;
      this.exitCode := exitCode;
      this.output := output;
      this.outputFile := outputFile;
      this.jobId := jobId;
      this.usage := None;
    }

    /** No job id (-1) and no resource usage. */
    constructor WithOutput(name: Option<string>, exitCode: int, output: seq<string>, outputFile: Option<string>)
      ensures this.name == name && this.exitCode == exitCode && this.output == output
      ensures this.outputFile == outputFile && jobId == -1 && usage.None?
    {
      this.name := name;
      this.exitCode := exitCode;
      this.output := output;
      this.outputFile := outputFile;
      this.jobId := -1;
      this.usage := None;
    }

    /** No output, no output file, no job id (-1) and no resource usage. */
    constructor Basic(name: Option<string>, exitCode: int)
      ensures this.name == name && this.exitCode == exitCode && output == []
      ensures outputFile.None? && jobId == -1 && usage.None?
    {
      this.name := name;
      this.exitCode := exitCode;
      this.output := [];
      this.outputFile := None;
      this.jobId := -1;
      this.usage := None;
    }

    method SetName(n: Option<string>)
      modifies this`name
      ensures name == n
    {
      name := n;
    }

    /** Attaches the usage a scheduler reported; nothing else changes. */
    method SetResourceUsage(u: Option<ResourceUsage>)
      modifies this`usage
      ensures usage == u
    {
      usage := u;
    }

    /**
     * Writes the output lines to `file` (the write itself is I/O, reported by
     * `written`); only a completed write makes `file` the output file.
     */
    method WriteOutputToFile(file: string, written: bool) returns (ok: bool)
      modifies this`outputFile
      ensures ok == written
      ensures outputFile == if written then Some(file) else old(outputFile)
    {
      ok := written;
      if written {
        outputFile := Some(file);
      }
    }

    /** The first output line, or null when there is no output. */
    function FirstOutputLine(): (r: Option<string>)
      ensures r.Some? <==> |output| > 0
      ensures r.Some? ==> r.value == output[0]
    {
      if |output| > 0 then Some(output[0]) else None
    }

    /**
     * One report row: name, exit code, job id, then the usage's three numbers
     * (zeros when there is none), all separated by tabs.
     */
    function ToString(): string
      reads this
    {
      var u := if usage.Some? then usage.value else ResourceUsage(0, 0, 0);
      OrNull(name) + "\t" + IntToString(exitCode) + "\t" + IntToString(jobId) + "\t" + u.ToString()
    }

    /** The row splits on tabs into its six fields, as long as the name holds no tab. */
    lemma ToStringFields()
      ensures var u := usage.UnwrapOr(NO_USAGE);
        !HasAny(OrNull(name), {'\t'}) ==>
          Split(ToString(), '\t') == [OrNull(name), IntToString(exitCode), IntToString(jobId),
                                       IntToString(u.maxMem), IntToString(u.runTime), IntToString(u.cpuTime)]
    {
      var u := if usage.Some? then usage.value else ResourceUsage(0, 0, 0);
      RowSplits(OrNull(name), exitCode, jobId, u);
    }
  }

  lemma RowSplits(n: string, exitCode: int, jobId: int, u: ResourceUsage)
    ensures var r := n + "\t" + IntToString(exitCode) + "\t" + IntToString(jobId) + "\t" + u.ToString();
      !HasAny(n, {'\t'}) ==>
        Split(r, '\t') == [n, IntToString(exitCode), IntToString(jobId),
                           IntToString(u.maxMem), IntToString(u.runTime), IntToString(u.cpuTime)]
  {
    if !HasAny(n, {'\t'}) {
      var e, j := IntToString(exitCode), IntToString(jobId);
      var m, w, c := IntToString(u.maxMem), IntToString(u.runTime), IntToString(u.cpuTime);
      var t := "\t";
      Join3(t, n, e, j);
      Join3(t, m, w, c);
      JoinAppend(t, [n, e, j], [m, w, c]);
      assert [n, e, j] + [m, w, c] == [n, e, j, m, w, c];
      NoTab(exitCode);
      NoTab(jobId);
      NoTab(u.maxMem);
      NoTab(u.runTime);
      NoTab(u.cpuTime);
      IntToStringChars(u.cpuTime);
      assert u.ToString() == m + t + w + t + c;
      SplitJoin('\t', [n, e, j, m, w, c]);
    }
  }
}
