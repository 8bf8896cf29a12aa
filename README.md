# Conan orchestration core in Dafny

Conan runs pipelines of command-line processes, either on the local shell
or through an HPC batch scheduler (PBS or SLURM). This project models its
orchestration layer and proves what that layer promises:

- **Task lifecycle** (`task.dfy`, module `ConanTasks`): `AbstractConanTask`
  as a class holding the stage index, pause flag, state, process runs and
  listeners. Its `execute` loop and every `fire*Event` method are first
  stated as functions on a snapshot of those fields, then implemented
  in place. The methods are proved equal to the functions, and lemmas
  show that stages run in pipeline order, one run and one result per
  stage, and that failures are recorded.
- **Process service** (`process_service.dfy`, `ProcessService`): how
  `DefaultProcessService` connects a locality, wraps a command for the
  scheduler, chooses `execute`, `monitoredExecute` or `dispatch`, attaches
  resource usage and disconnects. Also `waitFor`, `executeScheduledWait`,
  the `which` check and the link command.
- **Executor service** (`executor_service.dfy`, `ExecutorService`): which
  scheduler-args fields `DefaultExecutorService` sets on which context
  copy, and the substitution of the job-index token.
- **Local locality** (`local.dfy`, `LocalLocality`): job-id and output-file
  derivation in `execute`, the job-array index loop, and the aggregation of
  sub-job exit codes in `monitoredExecute`.
- **Schedulers**: PBS (`pbs.dfy`, `Pbs`) and SLURM (`slurm.dfy`, `Slurm`)
  command builders and output parsers. Also `SlurmArgs.toString`
  (`slurm_args.dfy`, `SlurmArguments`), the state shared by every
  scheduler object and `SchedulerFactory` (`schedulers.dfy`, `Schedulers`),
  and the `h:m:s` times and `:`-joined job ids both schedulers use
  (`scheduler_common.dfy`, `SchedulerCommon`).
- **Values**:
  - the execution context (`execution_context.dfy`, `Contexts`);
  - execution results (`execution_result.dfy`, `ExecutionResults`);
  - resource usage (`resource_usage.dfy`, `Usage`);
  - the scheduler args object (`scheduler_args.dfy`, `SchedulerArguments`);
  - the task result and its totals (`task_result.dfy`, `TaskResults`);
  - `ProcessExecutionException` (`process_execution_exception.dfy`, `ProcessFailure`).
- **Parameters**: `DefaultConanParameter` (`conan_parameter.dfy`,
  `Parameters`) and the validate-then-set order of
  `AbstractProcessArgs.setFromArgMap` (`process_args.dfy`,
  `ProcessArguments`).
- **Atlas REST helpers** (`atlas.dfy`, `AtlasProcesses`): the key/value
  reader `items` of `CommonAtlasProcesses` and the event classifiers built
  on it.

Supporting modules:
- `JavaText` gives the Java library behaviour the code relies on: `split`,
  `trim`, `replace`, `Integer.parseInt` / `Long.parseLong`,
  `Integer.toString`, 32- and 64-bit wrap-around, and `String.hashCode`.
- `Faults` names the Java exceptions.
- `Wrappers` holds `Option` and `Result`.

Java's `null` is `None`; a thrown exception is an `Err`. Unbounded
integers are wrapped explicitly wherever the Java code does `int` or
`long` arithmetic.

## Model

| member | source | states |
|---|---|---|
| JavaText.Wrap64 | conan-core-services/src/main/java/uk/ac/ebi/fgpt/conan/core/context/scheduler/pbs/PBSScheduler.java:263 | Java `long` arithmetic: the result is a long, and a value already in range is kept |
| JavaText.Wrap32 | conan-core-services/src/main/java/uk/ac/ebi/fgpt/conan/core/context/locality/Local.java:113 | Java `int` arithmetic: the result is an int, and a value already in range is kept |
| JavaText.ParseIntToString | conan-core-services/src/main/java/uk/ac/ebi/fgpt/conan/core/context/scheduler/pbs/PBSScheduler.java:103 | round trip: `Integer.toString` of a number in range parses back to the number |
| JavaText.SplitJoin | conan-core-services/src/main/java/uk/ac/ebi/fgpt/conan/core/context/scheduler/pbs/PBSScheduler.java:257 | round trip: `split` on a character undoes joining pieces that do not contain it and whose last piece is not empty |
| JavaText.SplitWsJoin | conan-core-services/src/main/java/uk/ac/ebi/fgpt/conan/core/context/scheduler/slurm/SlurmScheduler.java:197 | round trip: `split("\\s+")` undoes joining non-empty whitespace-free words with a space |
| JavaText.TrimTwice | conan-core-services/src/main/java/uk/ac/ebi/fgpt/conan/core/context/scheduler/slurm/SlurmScheduler.java:195 | `trim` is idempotent |
| AtlasProcesses.ItemOf | conan-atlas-processes/src/main/java/uk/ac/ebi/fgpt/conan/process/atlas/CommonAtlasProcesses.java:140-145 | a piece fails only with IndexOutOfBounds; when it is read, its key is already trimmed |
| AtlasProcesses.ItemFailsOnBareEquals | conan-atlas-processes/src/main/java/uk/ac/ebi/fgpt/conan/process/atlas/CommonAtlasProcesses.java:141-145 | a piece throws exactly when, with its brackets gone, it is a non-empty run of `=` |
| AtlasProcesses.ItemResults | conan-atlas-processes/src/main/java/uk/ac/ebi/fgpt/conan/process/atlas/CommonAtlasProcesses.java:139-145 | every comma-separated piece is read on its own, in order |
| AtlasProcesses.ItemsOf | conan-atlas-processes/src/main/java/uk/ac/ebi/fgpt/conan/process/atlas/CommonAtlasProcesses.java:134-149 | building the map can fail only with IndexOutOfBounds |
| AtlasProcesses.Items | conan-atlas-processes/src/main/java/uk/ac/ebi/fgpt/conan/process/atlas/CommonAtlasProcesses.java:134-149 | the loop over the pieces returns exactly the map (or the exception) that reading the split response gives |
| AtlasProcesses.CollectFailure | conan-atlas-processes/src/main/java/uk/ac/ebi/fgpt/conan/process/atlas/CommonAtlasProcesses.java:139-146 | putting pieces into the map fails exactly when some piece fails, and with that piece's exception |
| AtlasProcesses.ItemsFailure | conan-atlas-processes/src/main/java/uk/ac/ebi/fgpt/conan/process/atlas/CommonAtlasProcesses.java:134-149 | `items` throws exactly when a piece is a bare run of `=`, and then IndexOutOfBounds |
| AtlasProcesses.CollectKeys | conan-atlas-processes/src/main/java/uk/ac/ebi/fgpt/conan/process/atlas/CommonAtlasProcesses.java:138-146 | once the map is built, its keys are exactly the keys of the pieces |
| AtlasProcesses.CollectLastWins | conan-atlas-processes/src/main/java/uk/ac/ebi/fgpt/conan/process/atlas/CommonAtlasProcesses.java:143-145 | a later piece with the same key replaces an earlier one: each key holds the value of its last piece |
| AtlasProcesses.RenderIsJoin | conan-atlas-processes/src/main/java/uk/ac/ebi/fgpt/conan/process/atlas/CommonAtlasProcesses.java:137 | the Java rendering of a one-map list is its entries joined with commas |
| AtlasProcesses.RenderedPieceItem | conan-atlas-processes/src/main/java/uk/ac/ebi/fgpt/conan/process/atlas/CommonAtlasProcesses.java:141-145 | each comma piece of such a rendering, brackets stripped, reads back as its entry |
| AtlasProcesses.RenderedItems | conan-atlas-processes/src/main/java/uk/ac/ebi/fgpt/conan/process/atlas/CommonAtlasProcesses.java:134-149 | round trip: `items` of the rendering of a one-map list gives back the map (its keys, each with its last value) |
| AtlasProcesses.CollectEntries | conan-atlas-processes/src/main/java/uk/ac/ebi/fgpt/conan/process/atlas/CommonAtlasProcesses.java:138-146 | collecting entries that all read gives their keys, each with its last value |
| AtlasProcesses.ResponseItems | conan-atlas-processes/src/main/java/uk/ac/ebi/fgpt/conan/process/atlas/CommonAtlasProcesses.java:58 | a missing or null `items` entry is a NullPointerException; otherwise the entry's text is parsed |
| AtlasProcesses.ItemText | conan-atlas-processes/src/main/java/uk/ac/ebi/fgpt/conan/process/atlas/CommonAtlasProcesses.java:59 | a value is read from the parsed items; a missing or null value is a NullPointerException |
| AtlasProcesses.GetExitCode | conan-atlas-processes/src/main/java/uk/ac/ebi/fgpt/conan/process/atlas/CommonAtlasProcesses.java:57-66 | 0 exactly when the event is FAILED, otherwise -1; fails exactly when the event cannot be read |
| AtlasProcesses.GetMessage | conan-atlas-processes/src/main/java/uk/ac/ebi/fgpt/conan/process/atlas/CommonAtlasProcesses.java:74-80 | the text of the `message` item; fails only with NullPointer or IndexOutOfBounds |
| AtlasProcesses.IsComplete | conan-atlas-processes/src/main/java/uk/ac/ebi/fgpt/conan/process/atlas/CommonAtlasProcesses.java:89-102 | complete exactly when the event is neither SCHEDULED nor STARTED; fails exactly when the event cannot be read |
| AtlasProcesses.GetResultValue | conan-atlas-processes/src/main/java/uk/ac/ebi/fgpt/conan/process/atlas/CommonAtlasProcesses.java:111-126 | the text of the named entry, or WITHOUT_MONITORING when it is missing or null |
| AtlasProcesses.EventVerdicts | conan-atlas-processes/src/main/java/uk/ac/ebi/fgpt/conan/process/atlas/CommonAtlasProcesses.java:57-102 | FAILED: complete with code 0; SCHEDULED/STARTED: not complete with code -1; any other event: complete with code -1 |
| AtlasProcesses.TwoEntries | conan-atlas-processes/src/main/java/uk/ac/ebi/fgpt/conan/process/atlas/CommonAtlasProcesses.java:134-149 | two entries with different keys, rendered, read back as both keys with their values |
| AtlasProcesses.RenderedTaskLog | conan-atlas-processes/src/main/java/uk/ac/ebi/fgpt/conan/process/atlas/CommonAtlasProcesses.java:57-80 | a response whose items render an event and a message gives that event's verdict and that message back |
| Parameters.Empty | conan-core-services/src/main/java/uk/ac/ebi/fgpt/conan/core/param/DefaultConanParameter.java:45-55 | the no-argument constructor: empty names and description, an optional OPTION that takes a value, index -1, the default validator |
| Parameters.Described | conan-core-services/src/main/java/uk/ac/ebi/fgpt/conan/core/param/DefaultConanParameter.java:69-74 | the (name, description, isFlag) constructor sets those three and the OPTION type; the other fields keep Java's defaults |
| Parameters.Named | conan-core-services/src/main/java/uk/ac/ebi/fgpt/conan/core/param/DefaultConanParameter.java:57-59 | the (name) constructor is the (name, name, false) one |
| Parameters.NamedFlag | conan-core-services/src/main/java/uk/ac/ebi/fgpt/conan/core/param/DefaultConanParameter.java:61-63 | the (name, isBoolean) constructor is the (name, name, isBoolean) one |
| Parameters.NamedDescribed | conan-core-services/src/main/java/uk/ac/ebi/fgpt/conan/core/param/DefaultConanParameter.java:65-67 | the (name, description) constructor is the (name, description, false) one |
| Parameters.KindsExclusive | conan-core-services/src/main/java/uk/ac/ebi/fgpt/conan/core/param/DefaultConanParameter.java:138-176 | a typed parameter is exactly one of the four kinds; `hasArg`/`isBoolean` and `isRequired`/`isOptional` negate each other |
| Parameters.GetIdentifier | conan-core-services/src/main/java/uk/ac/ebi/fgpt/conan/core/param/DefaultConanParameter.java:96-120 | fails exactly for a null type (NullPointer) or a nameless option (ConanParameterException); an option is named by its long name, else its short name; redirections by their fixed texts |
| Parameters.ArgumentIdentifierRoundTrip | conan-core-services/src/main/java/uk/ac/ebi/fgpt/conan/core/param/DefaultConanParameter.java:109-111 | the identifier of an argument starts with its prefix and the rest parses back to the index |
| Parameters.OptionIdentifierInjective | conan-core-services/src/main/java/uk/ac/ebi/fgpt/conan/core/param/DefaultConanParameter.java:98-104 | two options have the same identifier exactly when the names it picks are the same |
| Parameters.ToString | conan-core-services/src/main/java/uk/ac/ebi/fgpt/conan/core/param/DefaultConanParameter.java:224-241 | fails exactly for a null type, with a NullPointerException |
| Parameters.ToStringBeginsWithIdentifier | conan-core-services/src/main/java/uk/ac/ebi/fgpt/conan/core/param/DefaultConanParameter.java:224-241 | for an argument or redirection the description begins with the identifier; for a redirection the two are equal |
| Parameters.Equals | conan-core-services/src/main/java/uk/ac/ebi/fgpt/conan/core/param/DefaultConanParameter.java:183-206 | equal exactly when the other object is present and all eight fields agree |
| Parameters.EqualsIsEquivalence | conan-core-services/src/main/java/uk/ac/ebi/fgpt/conan/core/param/DefaultConanParameter.java:183-206 | `equals` is reflexive, symmetric and transitive |
| Parameters.StringHash | conan-core-services/src/main/java/uk/ac/ebi/fgpt/conan/core/param/DefaultConanParameter.java:209-220 | `String.hashCode` stays within the 32-bit `int` range |
| Parameters.StringHashStep | conan-core-services/src/main/java/uk/ac/ebi/fgpt/conan/core/param/DefaultConanParameter.java:209-220 | appending a character to a string multiplies its `String.hashCode` by 31 and adds the character, wrapped to `int` |
| Parameters.StringHashExamples | conan-core-services/src/main/java/uk/ac/ebi/fgpt/conan/core/param/DefaultConanParameter.java:209-220 | the hashes of "", "ab" and "zzzzzz" are Java's values: 0, 3105 and the wrapped -685785664 |
| Parameters.Append | conan-core-services/src/main/java/uk/ac/ebi/fgpt/conan/core/param/DefaultConanParameter.java:210-219 | one `HashCodeBuilder.append` step stays within the 32-bit `int` range |
| Parameters.HashCode | conan-core-services/src/main/java/uk/ac/ebi/fgpt/conan/core/param/DefaultConanParameter.java:209-220 | the hash code stays within the 32-bit `int` range |
| Parameters.EqualsHashCode | conan-core-services/src/main/java/uk/ac/ebi/fgpt/conan/core/param/DefaultConanParameter.java:183-220 | the equals/hashCode contract: equal parameters have equal hash codes |
| Contexts.CopyLocality | conan-core-services/src/main/java/uk/ac/ebi/fgpt/conan/core/context/locality/Local.java:84-87 | copying a locality gives an equal locality |
| Contexts.ExecutionContext.constructor | conan-core-services/src/main/java/uk/ac/ebi/fgpt/conan/core/context/DefaultExecutionContext.java:30-32 | the default context is a foreground job on the local shell without a scheduler, with no job name or monitor file |
| Contexts.ExecutionContext.WithForeground | conan-core-services/src/main/java/uk/ac/ebi/fgpt/conan/core/context/DefaultExecutionContext.java:34-36 | on the local shell, without a scheduler, with the foreground flag given |
| Contexts.ExecutionContext.WithScheduler | conan-core-services/src/main/java/uk/ac/ebi/fgpt/conan/core/context/DefaultExecutionContext.java:38-41 | on the local shell, with the scheduler given (the same object, not a copy) |
| Contexts.ExecutionContext.Full | conan-core-services/src/main/java/uk/ac/ebi/fgpt/conan/core/context/DefaultExecutionContext.java:43-48 | locality, scheduler and foreground flag exactly as given |
| Contexts.ExecutionContext.Copy | conan-core-services/src/main/java/uk/ac/ebi/fgpt/conan/core/context/DefaultExecutionContext.java:50-55 | the copy constructor: fails with a NullPointerException exactly when the locality is null or the scheduler has no args; otherwise a fresh context with the same locality and flag and a fresh scheduler copy whose state equals the original's |
| Contexts.ExecutionContext.SetForegroundJob | conan-core-services/src/main/java/uk/ac/ebi/fgpt/conan/core/context/DefaultExecutionContext.java:73-75 | sets the foreground flag; nothing else changes |
| Contexts.ExecutionContext.SetLocality | conan-core-services/src/main/java/uk/ac/ebi/fgpt/conan/core/context/DefaultExecutionContext.java:77-79 | sets the locality; nothing else changes |
| Contexts.ExecutionContext.SetContext | conan-core-services/src/main/java/uk/ac/ebi/fgpt/conan/service/DefaultExecutorService.java:42 | sets job name, foreground flag and monitor file together; locality and scheduler are unchanged |
| Contexts.ExecutionContext.View | conan-core-services/src/main/java/uk/ac/ebi/fgpt/conan/core/context/DefaultExecutionContext.java:61-63 | the context's view names a scheduler exactly when `usingScheduler()` holds |
| ExecutionResults.DefaultExecutionResult.constructor | conan-core-services/src/main/java/uk/ac/ebi/fgpt/conan/core/context/DefaultExecutionResult.java:39-46 | the full constructor stores all six fields as given |
| ExecutionResults.DefaultExecutionResult.WithJobId | conan-core-services/src/main/java/uk/ac/ebi/fgpt/conan/core/context/DefaultExecutionResult.java:35-37 | as the full constructor, without resource usage |
| ExecutionResults.DefaultExecutionResult.WithOutput | conan-core-services/src/main/java/uk/ac/ebi/fgpt/conan/core/context/DefaultExecutionResult.java:31-33 | as the full constructor, with job id -1 and no resource usage |
| ExecutionResults.DefaultExecutionResult.Basic | conan-core-services/src/main/java/uk/ac/ebi/fgpt/conan/core/context/DefaultExecutionResult.java:27-29 | no output, no output file, job id -1, no resource usage |
| ExecutionResults.DefaultExecutionResult.SetName | conan-core-services/src/main/java/uk/ac/ebi/fgpt/conan/core/context/DefaultExecutionResult.java:49-51 | replaces the name only |
| ExecutionResults.DefaultExecutionResult.SetResourceUsage | conan-core-services/src/main/java/uk/ac/ebi/fgpt/conan/core/context/DefaultExecutionResult.java:84-86 | replaces the resource usage only |
| ExecutionResults.DefaultExecutionResult.WriteOutputToFile | conan-core-services/src/main/java/uk/ac/ebi/fgpt/conan/core/context/DefaultExecutionResult.java:92-95 | the output file becomes the written file only when the write completes; a failed write leaves it unchanged |
| ExecutionResults.DefaultExecutionResult.FirstOutputLine | conan-core-services/src/main/java/uk/ac/ebi/fgpt/conan/core/context/DefaultExecutionResult.java:88-90 | present exactly when there is output, and then it is the first line |
| ExecutionResults.DefaultExecutionResult.ToStringFields | conan-core-services/src/main/java/uk/ac/ebi/fgpt/conan/core/context/DefaultExecutionResult.java:98-100 | the report row splits on tabs back into name, exit code, job id and the usage's three numbers (zeros when there is none) |
| ExecutionResults.RowSplits | conan-core-services/src/main/java/uk/ac/ebi/fgpt/conan/core/context/DefaultExecutionResult.java:99 | a row built from a tab-free name splits on tabs into its six fields |
| ProcessFailure.Raised | conan-service/src/main/java/uk/ac/ebi/fgpt/conan/service/exception/ProcessExecutionException.java:12-26 | a fresh exception: the exit value and message given, `No output captured`, host `unknown`, no error message, no abort |
| ProcessFailure.RaisedWithError | conan-service/src/main/java/uk/ac/ebi/fgpt/conan/service/exception/ProcessExecutionException.java:28-32 | as `Raised`, also recording the error message |
| ProcessFailure.ProcessExecutionException.constructor | conan-service/src/main/java/uk/ac/ebi/fgpt/conan/service/exception/ProcessExecutionException.java:18-21 | the exit value only |
| ProcessFailure.ProcessExecutionException.WithMessage | conan-service/src/main/java/uk/ac/ebi/fgpt/conan/service/exception/ProcessExecutionException.java:23-26 | the exit value and message |
| ProcessFailure.ProcessExecutionException.WithErrorMessage | conan-service/src/main/java/uk/ac/ebi/fgpt/conan/service/exception/ProcessExecutionException.java:28-32 | the exit value, message and error message |
| ProcessFailure.ProcessExecutionException.SetProcessOutput | conan-service/src/main/java/uk/ac/ebi/fgpt/conan/service/exception/ProcessExecutionException.java:56-58 | replaces the captured output only |
| ProcessFailure.ProcessExecutionException.SetProcessExecutionHost | conan-service/src/main/java/uk/ac/ebi/fgpt/conan/service/exception/ProcessExecutionException.java:64-66 | replaces the host only |
| ProcessFailure.ProcessExecutionException.SetExceptionCausesAbort | conan-service/src/main/java/uk/ac/ebi/fgpt/conan/service/exception/ProcessExecutionException.java:72-74 | sets the abort flag and nothing else |
| Usage.ResourceUsage.VerboseLabels | conan-service/src/main/java/uk/ac/ebi/fgpt/conan/model/context/ResourceUsage.java:47-51 | the labelled summary names the memory first and the CPU time last |
| Usage.ResourceUsage.TabbedFields | conan-service/src/main/java/uk/ac/ebi/fgpt/conan/model/context/ResourceUsage.java:43-51 | the tab-separated form splits on tabs into the three numbers |
| Usage.NumbersJoin | conan-service/src/main/java/uk/ac/ebi/fgpt/conan/model/context/ResourceUsage.java:51 | three numbers joined by tabs split back into the three |
| Usage.TabbedRoundTrip | conan-service/src/main/java/uk/ac/ebi/fgpt/conan/model/context/ResourceUsage.java:43-51 | round trip: reading the tab-separated form back gives the same usage |
| SchedulerArguments.SchedulerArgs.constructor | conan-core-services/src/main/java/uk/ac/ebi/fgpt/conan/core/context/scheduler/slurm/SlurmArgs.java:27-29 | a new args object of the given family holding the given settings |
| SchedulerArguments.SchedulerArgs.Copy | conan-core-services/src/main/java/uk/ac/ebi/fgpt/conan/core/context/scheduler/slurm/SlurmArgs.java:91-96 | a fresh, unshared object of the same family with the same settings |
| SchedulerArguments.SchedulerArgs.SetJobName | conan-core-services/src/main/java/uk/ac/ebi/fgpt/conan/core/task/AbstractConanTask.java:226 | changes the job name only |
| SchedulerArguments.SchedulerArgs.SetMonitorFile | conan-core-services/src/main/java/uk/ac/ebi/fgpt/conan/core/task/AbstractConanTask.java:229 | changes the monitor file only |
| SchedulerArguments.SchedulerArgs.SetThreads | conan-core-services/src/main/java/uk/ac/ebi/fgpt/conan/service/DefaultExecutorService.java:108 | changes the threads only |
| SchedulerArguments.SchedulerArgs.SetMemoryMB | conan-core-services/src/main/java/uk/ac/ebi/fgpt/conan/service/DefaultExecutorService.java:109 | changes the memory only |
| SchedulerArguments.SchedulerArgs.SetEstimatedRuntimeMins | conan-core-services/src/main/java/uk/ac/ebi/fgpt/conan/service/DefaultExecutorService.java:110 | changes the runtime only |
| SchedulerArguments.SchedulerArgs.SetWaitCondition | conan-core-services/src/main/java/uk/ac/ebi/fgpt/conan/service/DefaultExecutorService.java:114-115 | changes the wait condition only |
| SchedulerArguments.SchedulerArgs.SetJobArrayArgs | conan-core-services/src/main/java/uk/ac/ebi/fgpt/conan/service/DefaultExecutorService.java:65 | changes the job-array range only |
| SchedulerArguments.SchedulerArgs.SetOpenmpi | conan-core-services/src/main/java/uk/ac/ebi/fgpt/conan/service/DefaultExecutorService.java:119 | changes the openmpi flag only |
| SchedulerCommon.TimeToSeconds | conan-core-services/src/main/java/uk/ac/ebi/fgpt/conan/core/context/scheduler/pbs/PBSScheduler.java:255-264 | a time that reads is a value in the Java `long` range |
| SchedulerCommon.HmsToken | conan-core-services/src/main/java/uk/ac/ebi/fgpt/conan/core/context/scheduler/slurm/SlurmScheduler.java:195-197 | an `h:m:s` text is one whitespace-free word |
| SchedulerCommon.StepwiseWrap | conan-core-services/src/main/java/uk/ac/ebi/fgpt/conan/core/context/scheduler/pbs/PBSScheduler.java:263 | wrapping to a long after every step gives the long the exact value wraps to |
| SchedulerCommon.TimeToSecondsOfFields | conan-core-services/src/main/java/uk/ac/ebi/fgpt/conan/core/context/scheduler/pbs/PBSScheduler.java:257-263 | three fields that parse as longs give ((h * 60) + m) * 60 + s in long arithmetic |
| SchedulerCommon.TimeToSecondsOfHms | conan-core-services/src/main/java/uk/ac/ebi/fgpt/conan/core/context/scheduler/pbs/PBSScheduler.java:255-264 | round trip: reading `h:m:s` back gives ((h * 60) + m) * 60 + s, wrapped to a long |
| SchedulerCommon.TimeToSecondsExact | conan-core-services/src/main/java/uk/ac/ebi/fgpt/conan/core/context/scheduler/pbs/PBSScheduler.java:255-264 | when that value fits in a long, reading `h:m:s` back gives it exactly |
| SchedulerCommon.SplitHms | conan-core-services/src/main/java/uk/ac/ebi/fgpt/conan/core/context/scheduler/pbs/PBSScheduler.java:257 | `h:m:s` splits on `:` into its three numbers |
| SchedulerCommon.IdTexts | conan-core-services/src/main/java/uk/ac/ebi/fgpt/conan/core/context/scheduler/pbs/PBSScheduler.java:102-104 | the text of every id, in order |
| SchedulerCommon.JoinIds | conan-core-services/src/main/java/uk/ac/ebi/fgpt/conan/core/context/scheduler/pbs/PBSScheduler.java:100-104 | the joining loop gives the id texts joined by `:` |
| SchedulerCommon.ConditionRoundTrip | conan-core-services/src/main/java/uk/ac/ebi/fgpt/conan/core/context/scheduler/pbs/PBSScheduler.java:98-106 | round trip: a condition `head:id1:id2:...` splits on `:` back into the head and the ids, in order |
| SchedulerCommon.ConditionSplits | conan-core-services/src/main/java/uk/ac/ebi/fgpt/conan/core/context/scheduler/slurm/SlurmScheduler.java:115-124 | the head and the id texts are exactly the pieces the condition splits into |
| SchedulerCommon.IdTextsParse | conan-core-services/src/main/java/uk/ac/ebi/fgpt/conan/core/context/scheduler/slurm/SlurmScheduler.java:119-121 | each id text parses back as its id |
| Schedulers.Scheduler.constructor | conan-core-services/src/main/java/uk/ac/ebi/fgpt/conan/core/context/scheduler/AbstractScheduler.java:31-34 | keeps the submit command and the args object as given, without copying |
| Schedulers.Scheduler.CopyOf | conan-core-services/src/main/java/uk/ac/ebi/fgpt/conan/core/context/scheduler/AbstractScheduler.java:36-39 | a NullPointerException exactly when the original has no args; otherwise a fresh scheduler with the same submit command and a fresh args object of the same family and settings, so the two share no args |
| Schedulers.Scheduler.SetArgs | conan-core-services/src/main/java/uk/ac/ebi/fgpt/conan/core/context/scheduler/AbstractScheduler.java:58-60 | replaces the args object; `getArgs` then returns it |
| Schedulers.Scheduler.Settings | conan-core-services/src/main/java/uk/ac/ebi/fgpt/conan/core/context/scheduler/AbstractScheduler.java:53-55 | the settings are present exactly when there are args |
| Schedulers.Scheduler.View | conan-core-services/src/main/java/uk/ac/ebi/fgpt/conan/core/context/scheduler/AbstractScheduler.java:48-55 | the view is the behaviour and the args' settings |
| Schedulers.Scheduler.CreateTaskAdapter | conan-core-services/src/main/java/uk/ac/ebi/fgpt/conan/core/context/scheduler/AbstractScheduler.java:69-71 | a NullPointerException exactly when there are no args; otherwise an adapter on the args' monitor file and interval |
| Schedulers.ValueOf | conan-core-services/src/main/java/uk/ac/ebi/fgpt/conan/core/context/scheduler/SchedulerFactory.java:31-77 | a null name is a NullPointerException; a name is found exactly when it is one of LSF, PBS, OGE and SLURM, else an IllegalArgumentException; the found family has exactly that name |
| Schedulers.ValueOfName | conan-core-services/src/main/java/uk/ac/ebi/fgpt/conan/core/context/scheduler/SchedulerFactory.java:31-77 | every family is found again by its own name |
| Schedulers.Create | conan-core-services/src/main/java/uk/ac/ebi/fgpt/conan/core/context/scheduler/SchedulerFactory.java:35-75 | a fresh scheduler of the family's class and a fresh args object of that family with its defaults |
| Schedulers.CreateArgs | conan-core-services/src/main/java/uk/ac/ebi/fgpt/conan/core/context/scheduler/SchedulerFactory.java:40-74 | a fresh args object of the family with its defaults |
| Schedulers.CreateDefaultScheduler | conan-core-services/src/main/java/uk/ac/ebi/fgpt/conan/core/context/scheduler/SchedulerFactory.java:83-85 | an LSF scheduler |
| Schedulers.CreateScheduler | conan-core-services/src/main/java/uk/ac/ebi/fgpt/conan/core/context/scheduler/SchedulerFactory.java:87-89 | fails exactly when `valueOf` fails, with its exception; otherwise a fresh scheduler with args of the named family; "PBS" gives the PBS behaviour submitting with `qsub`, "SLURM" the SLURM behaviour with an empty submit command |
| Pbs.CreateCommand | conan-core-services/src/main/java/uk/ac/ebi/fgpt/conan/core/context/scheduler/pbs/PBSScheduler.java:55-68 | a NullPointerException exactly when the args are null |
| Pbs.CreateCommandShape | conan-core-services/src/main/java/uk/ac/ebi/fgpt/conan/core/context/scheduler/pbs/PBSScheduler.java:55-68 | the submit command is the echoed command, a pipe, `qsub`, then the rendered options |
| Pbs.CreateWaitCommand | conan-core-services/src/main/java/uk/ac/ebi/fgpt/conan/core/context/scheduler/pbs/PBSScheduler.java:71-85 | a NullPointerException exactly when the args are null |
| Pbs.CreateWaitCommandShape | conan-core-services/src/main/java/uk/ac/ebi/fgpt/conan/core/context/scheduler/pbs/PBSScheduler.java:71-85 | the wait command starts with the one-second job, `qsub` and the blocking condition and ends with the one-second wall-time limit; with no queue and no monitor file nothing comes between |
| Pbs.CreateWaitCommandExample | conan-core-services/src/main/java/uk/ac/ebi/fgpt/conan/core/context/scheduler/pbs/PBSScheduler.java:71-85 | waiting for job 1001 to succeed, with no queue or monitor file, is exactly `echo "sleep 1 2>&1" \|  qsub -W block=true,depend=afterok:1001 -l walltime=1` |
| Pbs.WaitCommandPieces | conan-core-services/src/main/java/uk/ac/ebi/fgpt/conan/core/context/scheduler/pbs/PBSScheduler.java:77-82 | the three literal pieces of that wait command |
| SchedulerCommon.KillCommand | conan-core-services/src/main/java/uk/ac/ebi/fgpt/conan/core/context/scheduler/pbs/PBSScheduler.java:88-90 | the kill program (`qdel` here, `scancel` in SlurmScheduler.java:105-107), a space, then exactly the job id |
| Pbs.WaitCondition | conan-core-services/src/main/java/uk/ac/ebi/fgpt/conan/core/context/scheduler/pbs/PBSScheduler.java:93-95 | `depend=`, the status keyword and `:`, followed by exactly the condition |
| Pbs.CreateWaitConditionForIds | conan-core-services/src/main/java/uk/ac/ebi/fgpt/conan/core/context/scheduler/pbs/PBSScheduler.java:98-107 | the joining loop builds the condition; split on `:` it reads back as the prefix and each job id in order |
| Pbs.ExtractJobIdFromOutput | conan-core-services/src/main/java/uk/ac/ebi/fgpt/conan/core/context/scheduler/pbs/PBSScheduler.java:131-140 | an IllegalArgumentException exactly when the line has fewer than two `.`-separated pieces; otherwise the id is the number before the first `.` |
| Pbs.ExtractJobIdOfSubmitLine | conan-core-services/src/main/java/uk/ac/ebi/fgpt/conan/core/context/scheduler/pbs/PBSScheduler.java:131-140 | round trip: the line `<id>.<server>` gives back the id |
| Pbs.ExtractJobIdExample | conan-core-services/src/main/java/uk/ac/ebi/fgpt/conan/core/context/scheduler/pbs/PBSScheduler.java:131-140 | the line `4176.UV00000010-P002` gives job id 4176 |
| Pbs.WaitLonger | conan-core-services/src/main/java/uk/ac/ebi/fgpt/conan/core/context/scheduler/pbs/PBSScheduler.java:203-216 | 0 exactly when some line is a usage line; otherwise the line count when above 5, else -1 |
| Pbs.ApplyResource | conan-core-services/src/main/java/uk/ac/ebi/fgpt/conan/core/context/scheduler/pbs/PBSScheduler.java:231-247 | reading one resource word keeps every figure in its Java range |
| Pbs.ApplyKeyValue | conan-core-services/src/main/java/uk/ac/ebi/fgpt/conan/core/context/scheduler/pbs/PBSScheduler.java:236-246 | one key-value pair keeps every figure in its Java range |
| Pbs.ApplyResources | conan-core-services/src/main/java/uk/ac/ebi/fgpt/conan/core/context/scheduler/pbs/PBSScheduler.java:229-248 | the words of a line, in order, keep every figure in range |
| Pbs.ApplyLine | conan-core-services/src/main/java/uk/ac/ebi/fgpt/conan/core/context/scheduler/pbs/PBSScheduler.java:226-229 | one line keeps every figure in range |
| Pbs.ApplyLines | conan-core-services/src/main/java/uk/ac/ebi/fgpt/conan/core/context/scheduler/pbs/PBSScheduler.java:224-250 | all lines, in order, keep every figure in range |
| Pbs.ParseUsageWords | conan-core-services/src/main/java/uk/ac/ebi/fgpt/conan/core/context/scheduler/pbs/PBSScheduler.java:231-248 | the word loop computes exactly `ApplyResources` |
| Pbs.ParseTraceJobOutput | conan-core-services/src/main/java/uk/ac/ebi/fgpt/conan/core/context/scheduler/pbs/PBSScheduler.java:218-253 | the line loop computes exactly `ApplyLines` from zero usage, and its figures are in range |
| Pbs.NoUsageLines | conan-core-services/src/main/java/uk/ac/ebi/fgpt/conan/core/context/scheduler/pbs/PBSScheduler.java:224-226 | output without usage lines leaves every figure as it was (zero for a whole output) |
| Pbs.KeyValue | conan-core-services/src/main/java/uk/ac/ebi/fgpt/conan/core/context/scheduler/pbs/PBSScheduler.java:236-238 | `<key>=<value>` splits on `=` into the key and the value |
| Pbs.ResourceWord | conan-core-services/src/main/java/uk/ac/ebi/fgpt/conan/core/context/scheduler/pbs/PBSScheduler.java:233-234 | a `resources_used.` word is cut right after the prefix and its dot |
| Pbs.WordParts | conan-core-services/src/main/java/uk/ac/ebi/fgpt/conan/core/context/scheduler/pbs/PBSScheduler.java:233-238 | the word `resources_used.<key>=<value>` is read as that key and value |
| Pbs.CputWord | conan-core-services/src/main/java/uk/ac/ebi/fgpt/conan/core/context/scheduler/pbs/PBSScheduler.java:240-241 | `resources_used.cput=h:m:s` sets the CPU time to those seconds and keeps the rest |
| Pbs.WalltimeWord | conan-core-services/src/main/java/uk/ac/ebi/fgpt/conan/core/context/scheduler/pbs/PBSScheduler.java:244-245 | `resources_used.walltime=h:m:s` sets the wall-clock time to those seconds and keeps the rest |
| Pbs.MemWord | conan-core-services/src/main/java/uk/ac/ebi/fgpt/conan/core/context/scheduler/pbs/PBSScheduler.java:242-243 | `resources_used.mem=<n><unit>` sets the memory to n / 1000, rounded toward zero, and keeps the rest |
| Pbs.MemValue | conan-core-services/src/main/java/uk/ac/ebi/fgpt/conan/core/context/scheduler/pbs/PBSScheduler.java:243 | the memory value without its two-character unit, divided by 1000 toward zero |
| Pbs.PollUsesFourRuns | conan-core-services/src/main/java/uk/ac/ebi/fgpt/conan/core/context/scheduler/pbs/PBSScheduler.java:164-189 | the polling reads the first four runs of `tracejob` and no others |
| Pbs.PollFailsOnShrink | conan-core-services/src/main/java/uk/ac/ebi/fgpt/conan/core/context/scheduler/pbs/PBSScheduler.java:173-177 | an attempt without a usage line and with fewer lines than the one before ends the polling with an IllegalStateException |
| Pbs.PollFindsUsage | conan-core-services/src/main/java/uk/ac/ebi/fgpt/conan/core/context/scheduler/pbs/PBSScheduler.java:182-195 | a successful polling ends on an output that holds a usage line |
| Pbs.GetResourceUsageFromId | conan-core-services/src/main/java/uk/ac/ebi/fgpt/conan/core/context/scheduler/pbs/PBSScheduler.java:153-201 | at most four runs of `tracejob`; a usage exactly when the polling succeeds and its output parses, and then that parse, in range; null otherwise |
| Pbs.Behaviour | conan-core-services/src/main/java/uk/ac/ebi/fgpt/conan/core/context/scheduler/pbs/PBSScheduler.java:115-145 | the PBS scheduler is named PBS, has no file monitor, reads job ids from output and uses `${PBS_ARRAY_INDEX}` as its index variable |
| Slurm.CreateCommand | conan-core-services/src/main/java/uk/ac/ebi/fgpt/conan/core/context/scheduler/slurm/SlurmScheduler.java:59-87 | a NullPointerException exactly when the args are null, or for a background job without a monitor file; a foreground job has no batch file; a background job has the batch file `<monitor file>.batch` holding `#!/bin/bash` and the command |
| Slurm.CreateCommandForeground | conan-core-services/src/main/java/uk/ac/ebi/fgpt/conan/core/context/scheduler/slurm/SlurmScheduler.java:63-68 | a foreground command is `salloc`, the foreground options, then the command itself |
| Slurm.CreateCommandBackground | conan-core-services/src/main/java/uk/ac/ebi/fgpt/conan/core/context/scheduler/slurm/SlurmScheduler.java:63-84 | a background command is `sbatch`, the background options, then the batch file's path |
| Slurm.CommandLine | conan-core-services/src/main/java/uk/ac/ebi/fgpt/conan/core/context/scheduler/slurm/SlurmScheduler.java:61-67 | three words joined by single spaces start with the first two and end with the third |
| Slurm.JoinThree | conan-core-services/src/main/java/uk/ac/ebi/fgpt/conan/core/context/scheduler/slurm/SlurmScheduler.java:61-67 | joining three words with spaces puts the first two in front and the third at the end |
| Slurm.CreateWaitCommand | conan-core-services/src/main/java/uk/ac/ebi/fgpt/conan/core/context/scheduler/slurm/SlurmScheduler.java:90-102 | a NullPointerException exactly when the args are null |
| Slurm.CreateWaitCommandShape | conan-core-services/src/main/java/uk/ac/ebi/fgpt/conan/core/context/scheduler/slurm/SlurmScheduler.java:90-102 | the wait command starts with `salloc -d<condition>` and ends with `--time=1 sleep 1`; with no queue and no monitor file nothing comes between |
| Slurm.WaitCondition | conan-core-services/src/main/java/uk/ac/ebi/fgpt/conan/core/context/scheduler/slurm/SlurmScheduler.java:110-112 | the status keyword and `:`, followed by exactly the condition |
| Slurm.CreateWaitConditionForIds | conan-core-services/src/main/java/uk/ac/ebi/fgpt/conan/core/context/scheduler/slurm/SlurmScheduler.java:115-124 | the joining loop builds the condition; split on `:` it reads back as the status keyword and each job id in order |
| Slurm.ExtractJobIdFromOutput | conan-core-services/src/main/java/uk/ac/ebi/fgpt/conan/core/context/scheduler/slurm/SlurmScheduler.java:148-157 | an IllegalArgumentException exactly when the line has fewer than four space-separated words; otherwise the id is the fourth word |
| Slurm.ExtractJobIdOfSubmitLine | conan-core-services/src/main/java/uk/ac/ebi/fgpt/conan/core/context/scheduler/slurm/SlurmScheduler.java:148-157 | round trip: `Submitted batch job <id>` gives back the id |
| Slurm.ParseTraceJobOutput | conan-core-services/src/main/java/uk/ac/ebi/fgpt/conan/core/context/scheduler/slurm/SlurmScheduler.java:193-204 | empty output is an index error; a parsed usage is in range |
| Slurm.ParseSacctFields | conan-core-services/src/main/java/uk/ac/ebi/fgpt/conan/core/context/scheduler/slurm/SlurmScheduler.java:197-203 | a parsed usage is in range |
| Slurm.ParseSacctLine | conan-core-services/src/main/java/uk/ac/ebi/fgpt/conan/core/context/scheduler/slurm/SlurmScheduler.java:193-204 | round trip: a last line `cpu mem<unit> elapsed` reads back as the memory / 1000 and both times in seconds, whatever lines come before |
| Slurm.SacctLineSplits | conan-core-services/src/main/java/uk/ac/ebi/fgpt/conan/core/context/scheduler/slurm/SlurmScheduler.java:195-197 | such a line, trimmed and split on whitespace, gives its three words |
| Slurm.ParseLastLine | conan-core-services/src/main/java/uk/ac/ebi/fgpt/conan/core/context/scheduler/slurm/SlurmScheduler.java:193-204 | a last line whose three words parse decides the result, whatever lines come before |
| Slurm.SacctFieldsOf | conan-core-services/src/main/java/uk/ac/ebi/fgpt/conan/core/context/scheduler/slurm/SlurmScheduler.java:199-203 | three parsing words give memory / 1000, elapsed seconds and CPU seconds |
| Slurm.GetResourceUsageFromId | conan-core-services/src/main/java/uk/ac/ebi/fgpt/conan/core/context/scheduler/slurm/SlurmScheduler.java:170-190 | no output, or fewer than three lines, gives null; otherwise the parsed usage, or null when parsing fails |
| Slurm.Behaviour | conan-core-services/src/main/java/uk/ac/ebi/fgpt/conan/core/context/scheduler/slurm/SlurmScheduler.java:132-162 | the SLURM scheduler is named SLURM, has no file monitor, reads job ids from output and uses `${SLURM_ARRAY_TASK_ID}` as its index variable |
| SlurmArguments.ArraySpec | conan-core-services/src/main/java/uk/ac/ebi/fgpt/conan/core/context/scheduler/slurm/SlurmArgs.java:55-65 | the array range starts `min-max`; it holds `:` exactly when the step is above 1 and `%` exactly when more than one job may run at once |
| SlurmArguments.ArraySpecChars | conan-core-services/src/main/java/uk/ac/ebi/fgpt/conan/core/context/scheduler/slurm/SlurmArgs.java:56-65 | the same three facts about the assembled range text |
| SlurmArguments.FlagsAlways | conan-core-services/src/main/java/uk/ac/ebi/fgpt/conan/core/context/scheduler/slurm/SlurmArgs.java:75-80 | `-N 1`, `-D $(pwd)` and `--profile=all` are always present |
| SlurmArguments.FlagsArray | conan-core-services/src/main/java/uk/ac/ebi/fgpt/conan/core/context/scheduler/slurm/SlurmArgs.java:46-67 | `-a` appears exactly when there are job-array settings, and then carries their range |
| SlurmArguments.FlagsOutput | conan-core-services/src/main/java/uk/ac/ebi/fgpt/conan/core/context/scheduler/slurm/SlurmArgs.java:46-72 | `-o`/`-e` appear exactly for a background job with a monitor file, named `.stdout`/`.stderr`, or `.%a.stdout`/`.%a.stderr` for an array |
| SlurmArguments.FlagsNumbers | conan-core-services/src/main/java/uk/ac/ebi/fgpt/conan/core/context/scheduler/slurm/SlurmArgs.java:76-82 | `-n`, `--mem=` and `-t` appear exactly when threads > 1, memory > 0 and runtime > 0, and only with those values |
| SlurmArguments.FlagsConditions | conan-core-services/src/main/java/uk/ac/ebi/fgpt/conan/core/context/scheduler/slurm/SlurmArgs.java:77-83 | `-d` appears exactly when the wait condition is non-null and non-empty; `-p` and `-J` exactly when queue and job name are non-null |
| SlurmArguments.FlagsExtra | conan-core-services/src/main/java/uk/ac/ebi/fgpt/conan/core/context/scheduler/slurm/SlurmArgs.java:85 | the extra arguments, when present, are the last element, as given |
| SlurmArguments.HeadKinds | conan-core-services/src/main/java/uk/ac/ebi/fgpt/conan/core/context/scheduler/slurm/SlurmArgs.java:46-73 | the part before `-N` holds only the array range and output files |
| SlurmArguments.BodyKinds | conan-core-services/src/main/java/uk/ac/ebi/fgpt/conan/core/context/scheduler/slurm/SlurmArgs.java:75-83 | the middle part holds no array range, output file or extra arguments |
| SlurmArguments.BodyNumbers | conan-core-services/src/main/java/uk/ac/ebi/fgpt/conan/core/context/scheduler/slurm/SlurmArgs.java:76-82 | the middle part holds `-n`, `--mem=` and `-t` exactly as `FlagsNumbers` says |
| SlurmArguments.InBody | conan-core-services/src/main/java/uk/ac/ebi/fgpt/conan/core/context/scheduler/slurm/SlurmArgs.java:75-83 | an option is in the middle part exactly when the condition that adds it holds: `-N 1`, `-D $(pwd)` and `--profile=all` always, `-n` when threads > 1, `-p`/`-J` when queue/job name are non-null, `--mem=` when memory > 0, `-t` when runtime > 0, `-d` when the wait condition is non-null and non-empty, each with its own value |
| SlurmArguments.BodyConditions | conan-core-services/src/main/java/uk/ac/ebi/fgpt/conan/core/context/scheduler/slurm/SlurmArgs.java:77-83 | the middle part holds `-d`, `-p` and `-J` exactly as `FlagsConditions` says |
| SlurmArguments.RenderAll | conan-core-services/src/main/java/uk/ac/ebi/fgpt/conan/core/context/scheduler/slurm/SlurmArgs.java:87 | each option is rendered in its place |
| LocalLocality.Copy | conan-core-services/src/main/java/uk/ac/ebi/fgpt/conan/core/context/locality/Local.java:84-91 | a copy of Local is a Local with the same description, `localhost` |
| LocalLocality.Execute | conan-core-services/src/main/java/uk/ac/ebi/fgpt/conan/core/context/locality/Local.java:229-277 | succeeds exactly when the command produced output and the scheduler's job id could be read; exit code 0, the output lines, the job id read from the first line when the scheduler generates ids from output (else -1), the monitor file when the args name one; a failed command carries its exit code, error output and host name; a failed read is exit value 1 |
| LocalLocality.Dispatch | conan-core-services/src/main/java/uk/ac/ebi/fgpt/conan/core/context/locality/Local.java:280-286 | dispatching is the same as executing in the foreground |
| LocalLocality.WaitFor | conan-core-services/src/main/java/uk/ac/ebi/fgpt/conan/core/context/locality/Local.java:303-332 | succeeds exactly when the listener reports 0, with the adapter's output and file; an interrupted wait is an InterruptedException; another exit value is a ProcessExecutionException carrying it with the adapter's output and host |
| LocalLocality.ArrayIndicesAt | conan-core-services/src/main/java/uk/ac/ebi/fgpt/conan/core/context/locality/Local.java:113 | the i-th index of the job-array loop is `min + i * step`, and none passes `max` |
| LocalLocality.ArrayIndicesIncreasing | conan-core-services/src/main/java/uk/ac/ebi/fgpt/conan/core/context/locality/Local.java:113 | the job-array indices increase strictly |
| LocalLocality.ArrayIndicesComplete | conan-core-services/src/main/java/uk/ac/ebi/fgpt/conan/core/context/locality/Local.java:113 | every number from `min` to `max` a whole number of steps above `min` is an index |
| LocalLocality.ArrayIndicesCount | conan-core-services/src/main/java/uk/ac/ebi/fgpt/conan/core/context/locality/Local.java:113 | the loop visits `(max - min) / step + 1` indices, none when `min > max` |
| LocalLocality.LoopIndex | conan-core-services/src/main/java/uk/ac/ebi/fgpt/conan/core/context/locality/Local.java:113 | the as-written loop index after n turns, in wrapping 32-bit `int` arithmetic, stays in the `int` range |
| LocalLocality.AdapterLoopEndless | conan-core-services/src/main/java/uk/ac/ebi/fgpt/conan/core/context/locality/Local.java:113 | as written, with step 0 or `max == Integer.MAX_VALUE` the test `i <= max` holds after every turn: the loop never ends |
| LocalLocality.AdapterLoopWraps | conan-core-services/src/main/java/uk/ac/ebi/fgpt/conan/core/context/locality/Local.java:113 | as written, a step past `Integer.MAX_VALUE` wraps the index to a negative one that passes the test again |
| LocalLocality.AdapterIndices | conan-core-services/src/main/java/uk/ac/ebi/fgpt/conan/core/context/locality/Local.java:111-119 | the corrected adapter loop creates one adapter per index of `ArrayIndices`, in order |
| LocalLocality.Failures | conan-core-services/src/main/java/uk/ac/ebi/fgpt/conan/core/context/locality/Local.java:148-159 | the number of failed members is at most the number of members |
| LocalLocality.AggregateCounts | conan-core-services/src/main/java/uk/ac/ebi/fgpt/conan/core/context/locality/Local.java:145-159 | the aggregation fails (NullPointer) exactly when a member's result is lost; otherwise it counts every unsuccessful member and its code is 0 exactly when none failed; the code is 0, 1 or 2 |
| LocalLocality.FailuresByMultiset | conan-core-services/src/main/java/uk/ac/ebi/fgpt/conan/core/context/locality/Local.java:148-159 | the failures are the members other than those that finished with 0 |
| LocalLocality.AggregateAnyOrder | conan-core-services/src/main/java/uk/ac/ebi/fgpt/conan/core/context/locality/Local.java:139-159 | in whatever order the HashSet yields the members, whether it throws, the error count and whether the code is 0 are the same |
| LocalLocality.AggregateArray | conan-core-services/src/main/java/uk/ac/ebi/fgpt/conan/core/context/locality/Local.java:145-159 | the aggregation loop computes exactly `Aggregate` from `(0, 0)` |
| LocalLocality.ArrayMessage | conan-core-services/src/main/java/uk/ac/ebi/fgpt/conan/core/context/locality/Local.java:147-163 | one line; the success line when the code is 0 |
| LocalLocality.SubJobs | conan-core-services/src/main/java/uk/ac/ebi/fgpt/conan/core/context/locality/Local.java:141-143 | one outcome per index, in index order, each the monitor's answer for that index |
| LocalLocality.MonitoredWithoutMonitor | conan-core-services/src/main/java/uk/ac/ebi/fgpt/conan/core/context/locality/Local.java:110-184 | without a file monitor, a monitored execution is a plain `execute` |
| LocalLocality.MonitoredSubmitFails | conan-core-services/src/main/java/uk/ac/ebi/fgpt/conan/core/context/locality/Local.java:128-132 | a submission that fails ends the monitored execution before anything is waited for |
| LocalLocality.MonitoredArray | conan-core-services/src/main/java/uk/ac/ebi/fgpt/conan/core/context/locality/Local.java:136-165 | a job array's result: members exist and none was lost; code 0 exactly when no member failed; the message counts the failures out of all members; output file is the monitor file; no job id |
| LocalLocality.MonitoredSingle | conan-core-services/src/main/java/uk/ac/ebi/fgpt/conan/core/context/locality/Local.java:167-181 | a single monitored job succeeds only when the listener reports 0; it keeps the submission's job id and carries the adapter's output, file and the usage read from the monitor file |
| LocalLocality.MonitoredExecute | conan-core-services/src/main/java/uk/ac/ebi/fgpt/conan/core/context/locality/Local.java:94-195 | the imperative `monitoredExecute`, with its two loops, computes exactly `Monitored` |
| ProcessService.LocalSession | conan-core-services/src/main/java/uk/ac/ebi/fgpt/conan/core/context/locality/Local.java:63-76 | the local shell always connects and always disconnects |
| ProcessService.AttachUsage | conan-core-services/src/main/java/uk/ac/ebi/fgpt/conan/service/DefaultProcessService.java:125-132 | the usage the scheduler reports is stored in the result, a null one as null; an IOException becomes a ProcessExecutionException "Could not acquire resource usage information from scheduler" |
| ProcessService.AttachUsageAsWritten | conan-core-services/src/main/java/uk/ac/ebi/fgpt/conan/service/DefaultProcessService.java:125-132 | the same step as written: a null usage is a NullPointerException from the log line; any other answer is handled as by `AttachUsage` |
| ProcessService.Execute | conan-core-services/src/main/java/uk/ac/ebi/fgpt/conan/service/DefaultProcessService.java:76-174 | no locality means nothing runs and null comes back, and only then; a locality that does not connect is a ProcessExecutionException with exit value -1 naming the command; an unscheduled background job is an UnsupportedOperationException; a result means the locality connected and disconnected, and an unscheduled result carries no usage |
| ProcessService.ExecuteScheduledForeground | conan-core-services/src/main/java/uk/ac/ebi/fgpt/conan/service/DefaultProcessService.java:93-135 | a scheduled foreground job runs the scheduler's submit command with `monitoredExecute` when the scheduler uses a file monitor and with `execute` otherwise; each exception on the way is passed on; the result carries the usage the scheduler reports for it |
| ProcessService.ExecuteScheduledBackground | conan-core-services/src/main/java/uk/ac/ebi/fgpt/conan/service/DefaultProcessService.java:136-141 | a scheduled background job is dispatched and its result returned with no usage read |
| ProcessService.ExecuteUnscheduled | conan-core-services/src/main/java/uk/ac/ebi/fgpt/conan/service/DefaultProcessService.java:143-163 | an unscheduled foreground job runs the command itself; with a monitor file its output is written there, and a failed write is a ProcessExecutionException with exit value -1 |
| ProcessService.ExecuteDisconnectFails | conan-core-services/src/main/java/uk/ac/ebi/fgpt/conan/service/DefaultProcessService.java:169-171 | a run that would succeed fails with exit value -1 and the disconnect message when the locality does not disconnect |
| ProcessService.NullUsageThrows | conan-core-services/src/main/java/uk/ac/ebi/fgpt/conan/service/DefaultProcessService.java:125-128 | a null usage for a successful scheduled foreground job throws as written, while the corrected service returns the result with a null usage |
| ProcessService.AsWrittenAgrees | conan-core-services/src/main/java/uk/ac/ebi/fgpt/conan/service/DefaultProcessService.java:76-174 | apart from that NullPointerException, the service as written and the corrected one give the same answer |
| ProcessService.NewResult | conan-core-services/src/main/java/uk/ac/ebi/fgpt/conan/service/DefaultProcessService.java:113-116 | a new result object holds exactly the run's state |
| ProcessService.ExecuteCommand | conan-core-services/src/main/java/uk/ac/ebi/fgpt/conan/service/DefaultProcessService.java:76-174 | the imperative `execute(command, context)` fails exactly when `Execute` does, with the same exception; returns null exactly when `Execute` does; otherwise a new result object whose state is the result of `Execute` |
| ProcessService.ExecuteProcess | conan-core-services/src/main/java/uk/ac/ebi/fgpt/conan/service/DefaultProcessService.java:64-72 | a process whose command cannot be built is a ProcessExecutionException with exit value 3; otherwise its full command is executed |
| ProcessService.WaitFor | conan-core-services/src/main/java/uk/ac/ebi/fgpt/conan/service/DefaultProcessService.java:177-189 | without a scheduler an UnsupportedOperationException; otherwise a monitored execution named "wait" of the scheduler's wait command for the condition; a failure to build the wait command propagates, and without a locality the wait is a NullPointerException |
| ProcessService.JobIds | conan-core-services/src/main/java/uk/ac/ebi/fgpt/conan/service/DefaultProcessService.java:215-219 | the job id of every dependent result, in order |
| ProcessService.Backfilled | conan-core-services/src/main/java/uk/ac/ebi/fgpt/conan/service/DefaultProcessService.java:227-234 | the usages of the results before that point are read, and the one at that point throws an IOException |
| ProcessService.BackfilledAt | conan-core-services/src/main/java/uk/ac/ebi/fgpt/conan/service/DefaultProcessService.java:227-234 | that count is the length of the longest prefix whose usages read without an IOException |
| ProcessService.ScheduledWait | conan-core-services/src/main/java/uk/ac/ebi/fgpt/conan/service/DefaultProcessService.java:205-237 | without a scheduler an UnsupportedOperationException; a successful wait means every dependent usage was read, and its result is the wait for the condition built from the job ids (when the scheduler reads ids from its output) or from the given condition |
| ProcessService.Values | conan-core-services/src/main/java/uk/ac/ebi/fgpt/conan/service/DefaultProcessService.java:217-219 | the state of every result object, in order |
| ProcessService.UsagesRead | conan-core-services/src/main/java/uk/ac/ebi/fgpt/conan/service/DefaultProcessService.java:227-231 | at most every dependent result gets a new usage, and all of them when the wait succeeds |
| ProcessService.CollectJobIds | conan-core-services/src/main/java/uk/ac/ebi/fgpt/conan/service/DefaultProcessService.java:215-219 | the collecting loop gives the job ids of the results, in order |
| ProcessService.Backfill | conan-core-services/src/main/java/uk/ac/ebi/fgpt/conan/service/DefaultProcessService.java:227-234 | the reading loop stores in each result before the first IOException the usage the scheduler reports for it, and leaves the rest and every name and output file as they were |
| ProcessService.ExecuteScheduledWait | conan-core-services/src/main/java/uk/ac/ebi/fgpt/conan/service/DefaultProcessService.java:205-237 | the imperative `executeScheduledWait` answers as `ScheduledWait`; results before the first IOException carry the usage the scheduler reports, the rest keep their old usage, and without a scheduler nothing is changed |
| ProcessService.MakeLinkCommand | conan-core-services/src/main/java/uk/ac/ebi/fgpt/conan/service/DefaultProcessService.java:191-195 | the whole command: `ln -s -f `, then the input path, a space and the output path |
| ProcessService.ExecutableOnPath | conan-core-services/src/main/java/uk/ac/ebi/fgpt/conan/service/DefaultProcessService.java:272-287 | no locality is a NullPointerException, and only then; true exactly when `which` ran, printed something, and its first line does not say "no ... in ..."; any exception from the run means false |
| ProcessService.ExecutableOnPathPlain | conan-core-services/src/main/java/uk/ac/ebi/fgpt/conan/service/DefaultProcessService.java:266-270 | the same check with an empty pre-command |
| TaskResults.AccumulateFails | conan-core-services/src/main/java/uk/ac/ebi/fgpt/conan/core/context/DefaultTaskResult.java:59-104 | a total loop throws exactly when some result has no usage |
| TaskResults.AccumulateSums | conan-core-services/src/main/java/uk/ac/ebi/fgpt/conan/core/context/DefaultTaskResult.java:65-71 | when every usage is present the wall-clock and CPU totals are the exact sums wrapped to a Java long |
| TaskResults.AccumulatePeak | conan-core-services/src/main/java/uk/ac/ebi/fgpt/conan/core/context/DefaultTaskResult.java:97-103 | the memory total is the largest maxMem, never below 0, at least every reported value, and 0 or one of them |
| TaskResults.AccumulateFailureStays | conan-core-services/src/main/java/uk/ac/ebi/fgpt/conan/core/context/DefaultTaskResult.java:67-69 | once the loop has thrown on a prefix it throws on the whole list |
| TaskResults.RowsOfResults | conan-core-services/src/main/java/uk/ac/ebi/fgpt/conan/core/context/DefaultTaskResult.java:119-121 | one report row per result, row i being the i-th result's `toString` |
| TaskResults.DefaultTaskResult.constructor | conan-core-services/src/main/java/uk/ac/ebi/fgpt/conan/core/context/DefaultTaskResult.java:19-24 | keeps the task name, the flag, the results and the runtime as given |
| TaskResults.DefaultTaskResult.Usages | conan-core-services/src/main/java/uk/ac/ebi/fgpt/conan/core/context/DefaultTaskResult.java:68 | the usage attached to each result, in order |
| TaskResults.DefaultTaskResult.IsAllSubTasksSuccess | conan-core-services/src/main/java/uk/ac/ebi/fgpt/conan/core/context/DefaultTaskResult.java:36-46 | true exactly when every stage exited with 0 |
| TaskResults.DefaultTaskResult.Aggregate | conan-core-services/src/main/java/uk/ac/ebi/fgpt/conan/core/context/DefaultTaskResult.java:59-104 | 0 when there are no results or the first has no usage, otherwise the accumulation loop |
| TaskResults.DefaultTaskResult.GetTotalExternalRuntime | conan-core-services/src/main/java/uk/ac/ebi/fgpt/conan/core/context/DefaultTaskResult.java:58-72 | the total over wall-clock times |
| TaskResults.DefaultTaskResult.GetTotalExternalCputime | conan-core-services/src/main/java/uk/ac/ebi/fgpt/conan/core/context/DefaultTaskResult.java:74-88 | the total over CPU times |
| TaskResults.DefaultTaskResult.GetMaxMemUsage | conan-core-services/src/main/java/uk/ac/ebi/fgpt/conan/core/context/DefaultTaskResult.java:90-104 | the total over peak memory |
| TaskResults.DefaultTaskResult.GetOutput | conan-core-services/src/main/java/uk/ac/ebi/fgpt/conan/core/context/DefaultTaskResult.java:106-124 | throws exactly when the CPU or the memory total throws; otherwise the eight header lines with the task name, runtime, CPU total, memory total and count, then one row per result |
| TaskResults.DefaultTaskResult.AppendRows | conan-core-services/src/main/java/uk/ac/ebi/fgpt/conan/core/context/DefaultTaskResult.java:119-121 | the header followed by every result's row, in order |
| ExecutorService.LogFile | conan-core-services/src/main/java/uk/ac/ebi/fgpt/conan/service/DefaultExecutorService.java:42 | a job's log file is named after the job and ends in `.log` |
| ExecutorService.Retargeted | conan-core-services/src/main/java/uk/ac/ebi/fgpt/conan/service/DefaultExecutorService.java:41-42 | the copy keeps locality and scheduler state and takes the job's name, foreground flag and log file |
| ExecutorService.WithSettings | conan-core-services/src/main/java/uk/ac/ebi/fgpt/conan/service/DefaultExecutorService.java:107 | replacing the scheduler args changes nothing else in the context |
| ExecutorService.Sized | conan-core-services/src/main/java/uk/ac/ebi/fgpt/conan/service/DefaultExecutorService.java:108-110 | the three resource setters set threads, memory and walltime and nothing else |
| ExecutorService.ForArray | conan-core-services/src/main/java/uk/ac/ebi/fgpt/conan/service/DefaultExecutorService.java:61-65 | a job array's args are the per-job resources plus its index range, and nothing else |
| ExecutorService.ForProcess | conan-core-services/src/main/java/uk/ac/ebi/fgpt/conan/service/DefaultExecutorService.java:107-120 | a process's args: its resources; a COMPLETED_ANY wait condition on the dependant jobs exactly when there are some; openmpi on exactly when asked for with more than one thread, else unchanged; nothing else |
| ExecutorService.ArrayContext | conan-core-services/src/main/java/uk/ac/ebi/fgpt/conan/service/DefaultExecutorService.java:57-65 | a job array runs in a foreground copy named after the array, with its log file and the array's args |
| ExecutorService.JobArray | conan-core-services/src/main/java/uk/ac/ebi/fgpt/conan/service/DefaultExecutorService.java:48-71 | unsupported without a scheduler; a NullPointerException when the context cannot be copied; it runs only when both hold |
| ExecutorService.JobArrayRuns | conan-core-services/src/main/java/uk/ac/ebi/fgpt/conan/service/DefaultExecutorService.java:57-69 | a job array runs its command, with every job-index token replaced by the scheduler's index variable, in the array's context; putting the token back gives the original command |
| ExecutorService.ProcessContext | conan-core-services/src/main/java/uk/ac/ebi/fgpt/conan/service/DefaultExecutorService.java:102-121 | a process runs in a copy named after the job, in the foreground exactly when not run in parallel, with its args as `ForProcess` sets them when there is a scheduler |
| ExecutorService.Process | conan-core-services/src/main/java/uk/ac/ebi/fgpt/conan/service/DefaultExecutorService.java:97-124 | a context that cannot be copied is a NullPointerException; a process without a command is exit code 3; otherwise the process service runs the command in the process's context |
| ExecutorService.CommandContext | conan-core-services/src/main/java/uk/ac/ebi/fgpt/conan/service/DefaultExecutorService.java:130-139 | the corrected shell-command context: the copy carries the requested resources |
| ExecutorService.Command | conan-core-services/src/main/java/uk/ac/ebi/fgpt/conan/service/DefaultExecutorService.java:126-142 | the corrected shell command runs in `CommandContext` |
| ExecutorService.CommandAsWritten | conan-core-services/src/main/java/uk/ac/ebi/fgpt/conan/service/DefaultExecutorService.java:126-142 | as written, the shell command runs in the copy that keeps the old resources |
| ExecutorService.CommandResourcesMisplaced | conan-core-services/src/main/java/uk/ac/ebi/fgpt/conan/service/DefaultExecutorService.java:134-139 | when other threads are asked for, the as-written copy does not carry them and the corrected one does |
| ExecutorService.DependantJobsDropped | conan-core-services/src/main/java/uk/ac/ebi/fgpt/conan/service/DefaultExecutorService.java:89-95 | forwarding null leaves the wait condition empty; forwarding the dependant jobs gives a COMPLETED_ANY condition on them |
| ExecutorService.SetProcessArgs | conan-core-services/src/main/java/uk/ac/ebi/fgpt/conan/service/DefaultExecutorService.java:107-120 | the setters leave the args as `ForProcess` says |
| ExecutorService.DefaultExecutorService.constructor | conan-core-services/src/main/java/uk/ac/ebi/fgpt/conan/service/DefaultExecutorService.java:22-24 | the no-argument constructor has no context |
| ExecutorService.DefaultExecutorService.WithContext | conan-core-services/src/main/java/uk/ac/ebi/fgpt/conan/service/DefaultExecutorService.java:26-28 | the two-argument constructor stores the context |
| ExecutorService.DefaultExecutorService.Initialise | conan-core-services/src/main/java/uk/ac/ebi/fgpt/conan/service/DefaultExecutorService.java:31-34 | replaces the context |
| ExecutorService.DefaultExecutorService.UsingScheduler | conan-core-services/src/main/java/uk/ac/ebi/fgpt/conan/service/DefaultExecutorService.java:145-147 | a NullPointerException exactly when there is no context; otherwise whether the context has a scheduler |
| ExecutorService.DefaultExecutorService.ContextState | conan-core-services/src/main/java/uk/ac/ebi/fgpt/conan/service/DefaultExecutorService.java:150-152 | the context's state is present exactly when there is a context |
| ExecutorService.DefaultExecutorService.CopyFor | conan-core-services/src/main/java/uk/ac/ebi/fgpt/conan/service/DefaultExecutorService.java:41-42 | the copy fails with a NullPointerException exactly when there is no context or it cannot be copied; otherwise a fresh context equal to `Retargeted` of the original |
| ExecutorService.DefaultExecutorService.ExecuteJobArray | conan-core-services/src/main/java/uk/ac/ebi/fgpt/conan/service/DefaultExecutorService.java:48-71 | a NullPointerException without a context; otherwise exactly `JobArray` on the context's state |
| ExecutorService.DefaultExecutorService.ExecuteProcess | conan-core-services/src/main/java/uk/ac/ebi/fgpt/conan/service/DefaultExecutorService.java:97-124 | a NullPointerException without a context; otherwise exactly `Process` on the context's state |
| ExecutorService.DefaultExecutorService.ExecuteProcessDependent | conan-core-services/src/main/java/uk/ac/ebi/fgpt/conan/service/DefaultExecutorService.java:89-95 | corrected: the dependant jobs are forwarded, openmpi off |
| ExecutorService.DefaultExecutorService.ExecuteProcessDependentAsWritten | conan-core-services/src/main/java/uk/ac/ebi/fgpt/conan/service/DefaultExecutorService.java:89-95 | as written: runs as `Process` with no dependant jobs and openmpi off |
| ExecutorService.DefaultExecutorService.ExecuteProcessTimed | conan-core-services/src/main/java/uk/ac/ebi/fgpt/conan/service/DefaultExecutorService.java:81-87 | runs as `Process` with no dependant jobs and openmpi off |
| ExecutorService.DefaultExecutorService.ExecuteProcessBasic | conan-core-services/src/main/java/uk/ac/ebi/fgpt/conan/service/DefaultExecutorService.java:73-79 | runs as `Process` with walltime 0, no dependant jobs and openmpi off |
| ExecutorService.DefaultExecutorService.ExecuteCommand | conan-core-services/src/main/java/uk/ac/ebi/fgpt/conan/service/DefaultExecutorService.java:126-142 | corrected: exactly `Command` on the context's state |
| ExecutorService.DefaultExecutorService.ExecuteCommandAsWritten | conan-core-services/src/main/java/uk/ac/ebi/fgpt/conan/service/DefaultExecutorService.java:126-142 | as written: exactly `CommandAsWritten` on the old state, and the service's own context afterwards holds the requested resources |
| ExecutorService.DefaultExecutorService.ExecuteScheduledWait | conan-core-services/src/main/java/uk/ac/ebi/fgpt/conan/service/DefaultExecutorService.java:36-45 | a NullPointerException when there is no context or it cannot be copied; otherwise the process service's scheduled wait in a foreground copy named after the wait job; the job results keep their names and output files; with a scheduler, the results before the first IOException carry the usage the scheduler reports and the rest keep their old usage; without one, no usage changes |
| ProcessArguments.Steps | conan-core-services/src/main/java/uk/ac/ebi/fgpt/conan/core/process/AbstractProcessArgs.java:53-62 | each entry of a group is bound for that group's hook, in order |
| ProcessArguments.Redirect | conan-core-services/src/main/java/uk/ac/ebi/fgpt/conan/core/process/AbstractProcessArgs.java:71-89 | a redirection is applied when present and skipped when null |
| ProcessArguments.Plan | conan-core-services/src/main/java/uk/ac/ebi/fgpt/conan/core/process/AbstractProcessArgs.java:51-90 | every entry of the map is planned once: options, arguments and the present redirections |
| ProcessArguments.Invalid | conan-core-services/src/main/java/uk/ac/ebi/fgpt/conan/core/process/AbstractProcessArgs.java:56-85 | building the message of an invalid value throws a NullPointerException exactly when the parameter has no type; otherwise it is a ConanParameterException |
| ProcessArguments.Step | conan-core-services/src/main/java/uk/ac/ebi/fgpt/conan/core/process/AbstractProcessArgs.java:55-59 | an entry goes through exactly when its value validates and is non-null, and the hook gets the trimmed value; an invalid value throws before the hook runs |
| ProcessArguments.Results | conan-core-services/src/main/java/uk/ac/ebi/fgpt/conan/core/process/AbstractProcessArgs.java:53-89 | every entry's own result, in order |
| ProcessArguments.StopIsPrefix | conan-core-services/src/main/java/uk/ac/ebi/fgpt/conan/core/process/AbstractProcessArgs.java:53-89 | the results taken are a prefix, ended by the first failure if there is one |
| ProcessArguments.StopAppend | conan-core-services/src/main/java/uk/ac/ebi/fgpt/conan/core/process/AbstractProcessArgs.java:53-89 | taking two lists in turn: the second counts only when the first went through |
| ProcessArguments.StopStep | conan-core-services/src/main/java/uk/ac/ebi/fgpt/conan/core/process/AbstractProcessArgs.java:53-60 | after a clean prefix, the next entry is applied, or the run stops with its error |
| ProcessArguments.StopFailed | conan-core-services/src/main/java/uk/ac/ebi/fgpt/conan/core/process/AbstractProcessArgs.java:56 | once a prefix has failed, the later entries change nothing |
| ProcessArguments.RunIsPrefix | conan-core-services/src/main/java/uk/ac/ebi/fgpt/conan/core/process/AbstractProcessArgs.java:51-90 | the hooks are called for a prefix of the entries, each with its trimmed value; the run stops only at the first failing entry, with its exception, and otherwise goes through all |
| ProcessArguments.RunAppend | conan-core-services/src/main/java/uk/ac/ebi/fgpt/conan/core/process/AbstractProcessArgs.java:51-90 | applying two lists in turn: the second starts only when the first went through |
| ProcessArguments.RunPlan | conan-core-services/src/main/java/uk/ac/ebi/fgpt/conan/core/process/AbstractProcessArgs.java:51-90 | a map is applied group by group, each only when the ones before went through |
| ProcessArguments.PlanIsOrdered | conan-core-services/src/main/java/uk/ac/ebi/fgpt/conan/core/process/AbstractProcessArgs.java:51-90 | options come before arguments, before standard output, before standard error |
| ProcessArguments.ArgMapOrder | conan-core-services/src/main/java/uk/ac/ebi/fgpt/conan/core/process/AbstractProcessArgs.java:51-90 | whatever the validator, the hooks called go options, arguments, redirections, each with the trimmed value of its entry |
| ProcessArguments.PiecesJoin | conan-core-services/src/main/java/uk/ac/ebi/fgpt/conan/core/process/AbstractProcessArgs.java:98 | cutting at a character and gluing back with it gives the string back, and no piece holds the character |
| ProcessArguments.PreSplitWords | conan-core-services/src/main/java/uk/ac/ebi/fgpt/conan/core/process/AbstractProcessArgs.java:93-98 | a non-blank argument string splits into `exe` followed by space-free words that glue back into the trimmed string |
| ProcessArguments.SplitSeparated | conan-core-services/src/main/java/uk/ac/ebi/fgpt/conan/core/process/AbstractProcessArgs.java:98 | a string whose first separator is at `k` and which does not end in one splits into the text before `k` followed by the pieces after it, with no trailing empty piece dropped |
| ProcessArguments.ProcessArgs.constructor | conan-core-services/src/main/java/uk/ac/ebi/fgpt/conan/core/process/AbstractProcessArgs.java:23-27 | no unchecked arguments and no hook calls yet |
| ProcessArguments.ProcessArgs.SetUncheckedArgs | conan-core-services/src/main/java/uk/ac/ebi/fgpt/conan/core/process/AbstractProcessArgs.java:46-48 | sets the unchecked arguments; no hook is called |
| ProcessArguments.ProcessArgs.Hook | conan-core-services/src/main/java/uk/ac/ebi/fgpt/conan/core/process/AbstractProcessArgs.java:29-39 | a hook call is recorded after the earlier ones |
| ProcessArguments.ProcessArgs.ApplyEntries | conan-core-services/src/main/java/uk/ac/ebi/fgpt/conan/core/process/AbstractProcessArgs.java:53-69 | one loop: the hooks called are exactly `Run` of the group's entries, and it throws exactly the failure `Run` stops with |
| ProcessArguments.ProcessArgs.ApplyRedirect | conan-core-services/src/main/java/uk/ac/ebi/fgpt/conan/core/process/AbstractProcessArgs.java:71-89 | one redirection block: as `Run` of the redirection |
| ProcessArguments.ProcessArgs.SetFromArgMap | conan-core-services/src/main/java/uk/ac/ebi/fgpt/conan/core/process/AbstractProcessArgs.java:51-90 | the hooks called are exactly `Run` of the whole plan, in order; it throws exactly the first failure, and the hooks called before it stay called |
| ConanTasks.Element | conan-core-services/src/main/java/uk/ac/ebi/fgpt/conan/core/task/AbstractConanTask.java:113 | `list.get(i)` below the size: a negative index throws IndexOutOfBounds, any other gives the element |
| ConanTasks.FirstProcess | conan-core-services/src/main/java/uk/ac/ebi/fgpt/conan/core/task/AbstractConanTask.java:95-101 | the first stage exactly when the pipeline has one |
| ConanTasks.LastProcess | conan-core-services/src/main/java/uk/ac/ebi/fgpt/conan/core/task/AbstractConanTask.java:103-109 | the stage before the index, exactly when the index is past the first stage and within the pipeline |
| ConanTasks.CurrentProcess | conan-core-services/src/main/java/uk/ac/ebi/fgpt/conan/core/task/AbstractConanTask.java:111-117 | the stage at the index, exactly while RUNNING and inside the pipeline; a negative index while RUNNING throws |
| ConanTasks.NextProcess | conan-core-services/src/main/java/uk/ac/ebi/fgpt/conan/core/task/AbstractConanTask.java:119-133 | while RUNNING the stage after the index, otherwise the stage at it; none past the end; a negative position throws |
| ConanTasks.Notify | conan-core-services/src/main/java/uk/ac/ebi/fgpt/conan/core/task/AbstractConanTask.java:393-404 | every listener registered at that moment is sent one event carrying the task's state |
| ConanTasks.TaskSubmitted | conan-core-services/src/main/java/uk/ac/ebi/fgpt/conan/core/task/AbstractConanTask.java:393-404 | SUBMITTED with "Submitted", one event naming the first process, nothing else changes |
| ConanTasks.TaskStarted | conan-core-services/src/main/java/uk/ac/ebi/fgpt/conan/core/task/AbstractConanTask.java:406-422 | RUNNING, "Started" after SUBMITTED and "Restarted" otherwise; index, runs, pause flag and listeners unchanged |
| ConanTasks.TaskRecovered | conan-core-services/src/main/java/uk/ac/ebi/fgpt/conan/core/task/AbstractConanTask.java:424-436 | RECOVERED with "Recovered"; throws exactly when the index is negative or there is no run to report |
| ConanTasks.TaskPaused | conan-core-services/src/main/java/uk/ac/ebi/fgpt/conan/core/task/AbstractConanTask.java:438-453 | PAUSED; throws after the change exactly when the index is negative or there is no run |
| ConanTasks.TaskCompleted | conan-core-services/src/main/java/uk/ac/ebi/fgpt/conan/core/task/AbstractConanTask.java:455-469 | COMPLETED with "Complete", the listeners told and then removed |
| ConanTasks.TaskAborted | conan-core-services/src/main/java/uk/ac/ebi/fgpt/conan/core/task/AbstractConanTask.java:471-492 | ABORTED, with a message naming the last process or saying none had started |
| ConanTasks.EndLast | conan-core-services/src/main/java/uk/ac/ebi/fgpt/conan/core/task/AbstractConanTask.java:511-599 | only the last run changes: it is ended with the exit value and error message given |
| ConanTasks.StartStage | conan-core-services/src/main/java/uk/ac/ebi/fgpt/conan/core/task/AbstractConanTask.java:494-509 | RUNNING, a new run for the stage appended, message "Doing '<name>'"; index unchanged |
| ConanTasks.EndStage | conan-core-services/src/main/java/uk/ac/ebi/fgpt/conan/core/task/AbstractConanTask.java:511-528 | the index moves one past the stage and the last run ends with exit value 0 |
| ConanTasks.StopStage | conan-core-services/src/main/java/uk/ac/ebi/fgpt/conan/core/task/AbstractConanTask.java:530-599 | FAILED, the index moves past the stage, the message names it; without a run the lookup throws after those changes, otherwise the last run ends with the exit value given |
| ConanTasks.Params | conan-core-services/src/main/java/uk/ac/ebi/fgpt/conan/core/task/AbstractConanTask.java:206-210 | the process gets exactly its own parameters, each with the task's value or null |
| ConanTasks.Finally | conan-core-services/src/main/java/uk/ac/ebi/fgpt/conan/core/task/AbstractConanTask.java:282-286 | a COMPLETED or ABORTED task has its listeners replaced by the immutable empty set; nothing else changes, and any other task is left as it is |
| ConanTasks.Handle | conan-core-services/src/main/java/uk/ac/ebi/fgpt/conan/core/task/AbstractConanTask.java:248-281 | at a stage with a run, the stage is ended as FAILED (ABORTED when the process exception asks) with the exception's exit value and error message, and the exception passed on; elsewhere the `catch` block itself throws |
| ConanTasks.Caught | conan-core-services/src/main/java/uk/ac/ebi/fgpt/conan/core/task/AbstractConanTask.java:248-289 | an exception inside the `try` block ends `execute` with an exception and the results collected so far |
| ConanTasks.ExitStatus | conan-core-services/src/main/java/uk/ac/ebi/fgpt/conan/core/task/AbstractConanTask.java:362-383 | successful exactly when not paused and not interrupted, and then COMPLETED; a paused task becomes PAUSED; an interrupted one is left as it is |
| ConanTasks.AfterLoop | conan-core-services/src/main/java/uk/ac/ebi/fgpt/conan/core/task/AbstractConanTask.java:243-246 | a normal return leaves index and runs as the loop left them; a successful one leaves the task COMPLETED without listeners |
| ConanTasks.Iterate | conan-core-services/src/main/java/uk/ac/ebi/fgpt/conan/core/task/AbstractConanTask.java:194-241 | one pass goes on exactly when there is no interrupt, the args can be named and the process returns; then its result is appended, one completed run is added, the index moves by one, the task stays RUNNING and the job name is the one given |
| ConanTasks.IterateStarted | conan-core-services/src/main/java/uk/ac/ebi/fgpt/conan/core/task/AbstractConanTask.java:195-218 | a pass with no interrupt is the pass of a started stage |
| ConanTasks.CheckState | conan-core-services/src/main/java/uk/ac/ebi/fgpt/conan/core/task/AbstractConanTask.java:341-360 | an ABORTED task and one never submitted are refused with their messages; otherwise a RUNNING task becomes RECOVERED and any other RUNNING |
| ConanTasks.CompletedRuns | conan-core-services/src/main/java/uk/ac/ebi/fgpt/conan/core/task/AbstractConanTask.java:511-528 | one completed run per stage, in pipeline order |
| ConanTasks.RunReturnedRuns | conan-core-services/src/main/java/uk/ac/ebi/fgpt/conan/core/task/AbstractConanTask.java:194-246 | when the loop returns normally, the stages from the start index to the end index each left one completed run, in order |
| ConanTasks.RunReturnedCount | conan-core-services/src/main/java/uk/ac/ebi/fgpt/conan/core/task/AbstractConanTask.java:194-246 | when the loop returns normally, one result was collected per stage run |
| ConanTasks.RunReturnedPrefix | conan-core-services/src/main/java/uk/ac/ebi/fgpt/conan/core/task/AbstractConanTask.java:234 | the results collected start with those there before |
| ConanTasks.RunReturnedResults | conan-core-services/src/main/java/uk/ac/ebi/fgpt/conan/core/task/AbstractConanTask.java:233-234 | the results collected are what each stage run returned, in order |
| ConanTasks.RunSucceeded | conan-core-services/src/main/java/uk/ac/ebi/fgpt/conan/core/task/AbstractConanTask.java:194-246 | a successful return leaves the task COMPLETED without listeners and, when it began RUNNING, past its last stage |
| ConanTasks.RunStops | conan-core-services/src/main/java/uk/ac/ebi/fgpt/conan/core/task/AbstractConanTask.java:194 | a paused task, or one with no current process, goes straight to the exit status |
| ConanTasks.RunContinues | conan-core-services/src/main/java/uk/ac/ebi/fgpt/conan/core/task/AbstractConanTask.java:194-241 | a loop that does not stop at once and still returns went through the current stage: its result and completed run are appended and the loop goes on from the next stage |
| ConanTasks.RunCompletes | conan-core-services/src/main/java/uk/ac/ebi/fgpt/conan/core/task/AbstractConanTask.java:194-246 | when nothing goes wrong a RUNNING, unpaused task reaches its last stage and succeeds |
| ConanTasks.CaughtRecorded | conan-core-services/src/main/java/uk/ac/ebi/fgpt/conan/core/task/AbstractConanTask.java:248-281 | an exception passed on by a `catch` block was recorded as that stage's failure |
| ConanTasks.IterateRecorded | conan-core-services/src/main/java/uk/ac/ebi/fgpt/conan/core/task/AbstractConanTask.java:194-281 | the same for a pass that ends in an exception |
| ConanTasks.RunFailed | conan-core-services/src/main/java/uk/ac/ebi/fgpt/conan/core/task/AbstractConanTask.java:191-289 | every stage exception the loop passes on was recorded as the stage's failure |
| ConanTasks.RunToEnd | conan-core-services/src/main/java/uk/ac/ebi/fgpt/conan/core/task/AbstractConanTask.java:191-289 | from the start of the loop, a RUNNING task that nothing goes wrong for runs every remaining stage in order, collects one result per stage and completes without listeners |
| ConanTasks.ExecuteCompletes | conan-core-services/src/main/java/uk/ac/ebi/fgpt/conan/core/task/AbstractConanTask.java:179-290 | `execute` on a submitted task that is not aborted, running or paused: when nothing goes wrong it runs every stage from its index to the end in order and completes |
| ConanTasks.RecoveredTaskSkipsStages | conan-core-services/src/main/java/uk/ac/ebi/fgpt/conan/core/task/AbstractConanTask.java:341-360 | as written, a task left RUNNING is marked RECOVERED and reported COMPLETED and successful with no stage run |
| ConanTasks.CheckStateResuming | conan-core-services/src/main/java/uk/ac/ebi/fgpt/conan/core/task/AbstractConanTask.java:352-355 | corrected `checkState`: a recovered task goes on RUNNING; other states as `checkState` |
| ConanTasks.RecoveredTaskResumes | conan-core-services/src/main/java/uk/ac/ebi/fgpt/conan/core/task/AbstractConanTask.java:352-355 | with the corrected `checkState`, a recovered task runs its remaining stages in order and completes |
| ConanTasks.InterruptBeforeStage | conan-core-services/src/main/java/uk/ac/ebi/fgpt/conan/core/task/AbstractConanTask.java:195-198 | an interrupt noticed at the top of a pass fails the task: the earlier stage's run is ended again with exit value 1 and the index moves past a stage that never started |
| ConanTasks.RunsOf | conan-core-services/src/main/java/uk/ac/ebi/fgpt/conan/core/task/AbstractConanTask.java:159-163 | exactly the runs whose process name is the one asked for |
| ConanTasks.NamedSettings | conan-core-services/src/main/java/uk/ac/ebi/fgpt/conan/core/task/AbstractConanTask.java:221-230 | naming sets the monitor file to `<job name>.log` and the job name only when the context had none; nothing else in the args changes |
| ConanTasks.NamedTwice | conan-core-services/src/main/java/uk/ac/ebi/fgpt/conan/core/task/AbstractConanTask.java:221-230 | naming again overwrites the earlier naming |
| ConanTasks.ConanTask.constructor | conan-core-services/src/main/java/uk/ac/ebi/fgpt/conan/core/task/AbstractConanTask.java:59-77 | CREATED with "Task created" at the index given, no runs, no listeners, not paused, not submitted |
| ConanTasks.ConanTask.AddListener | conan-core-services/src/main/java/uk/ac/ebi/fgpt/conan/core/task/AbstractConanTask.java:79-81 | true exactly when the listener was new; after `execute` froze the set it throws UnsupportedOperation and nothing changes |
| ConanTasks.ConanTask.RemoveListener | conan-core-services/src/main/java/uk/ac/ebi/fgpt/conan/core/task/AbstractConanTask.java:83-85 | true exactly when the listener was there, and it is gone |
| ConanTasks.ConanTask.SetId | conan-core-services/src/main/java/uk/ac/ebi/fgpt/conan/core/task/AbstractConanTask.java:87-89 | sets the id and nothing else |
| ConanTasks.ConanTask.Broadcast | conan-core-services/src/main/java/uk/ac/ebi/fgpt/conan/core/task/AbstractConanTask.java:393-404 | the task changes as `Notify` says |
| ConanTasks.ConanTask.FireTaskSubmitted | conan-core-services/src/main/java/uk/ac/ebi/fgpt/conan/core/task/AbstractConanTask.java:393-404 | the task changes as `TaskSubmitted` says |
| ConanTasks.ConanTask.Submit | conan-core-services/src/main/java/uk/ac/ebi/fgpt/conan/core/task/AbstractConanTask.java:296-302 | the first call marks the task submitted and fires the submitted event; later calls change nothing |
| ConanTasks.ConanTask.Pause | conan-core-services/src/main/java/uk/ac/ebi/fgpt/conan/core/task/AbstractConanTask.java:308-312 | only the pause flag is set |
| ConanTasks.ConanTask.Resume | conan-core-services/src/main/java/uk/ac/ebi/fgpt/conan/core/task/AbstractConanTask.java:319-323 | only the pause flag is cleared |
| ConanTasks.ConanTask.RetryLastProcess | conan-core-services/src/main/java/uk/ac/ebi/fgpt/conan/core/task/AbstractConanTask.java:325-331 | the index goes back one in `int` arithmetic (from `Integer.MIN_VALUE` it wraps to `Integer.MAX_VALUE`) and the task is no longer paused |
| ConanTasks.ConanTask.Restart | conan-core-services/src/main/java/uk/ac/ebi/fgpt/conan/core/task/AbstractConanTask.java:333-335 | always UnsupportedOperation |
| ConanTasks.ConanTask.FireTaskStarted | conan-core-services/src/main/java/uk/ac/ebi/fgpt/conan/core/task/AbstractConanTask.java:406-422 | the task changes as `TaskStarted` says |
| ConanTasks.ConanTask.FireTaskRecovery | conan-core-services/src/main/java/uk/ac/ebi/fgpt/conan/core/task/AbstractConanTask.java:424-436 | the task changes and throws as `TaskRecovered` says |
| ConanTasks.ConanTask.FireTaskPaused | conan-core-services/src/main/java/uk/ac/ebi/fgpt/conan/core/task/AbstractConanTask.java:438-453 | the task changes and throws as `TaskPaused` says |
| ConanTasks.ConanTask.FireTaskCompleted | conan-core-services/src/main/java/uk/ac/ebi/fgpt/conan/core/task/AbstractConanTask.java:455-469 | the task changes as `TaskCompleted` says |
| ConanTasks.ConanTask.Abort | conan-core-services/src/main/java/uk/ac/ebi/fgpt/conan/core/task/AbstractConanTask.java:337-339 | the task changes as `TaskAborted` says |
| ConanTasks.ConanTask.StartStageOf | conan-core-services/src/main/java/uk/ac/ebi/fgpt/conan/core/task/AbstractConanTask.java:494-509 | the task changes as `StartStage` says |
| ConanTasks.ConanTask.EndStageOf | conan-core-services/src/main/java/uk/ac/ebi/fgpt/conan/core/task/AbstractConanTask.java:511-528 | the task changes as `EndStage` says |
| ConanTasks.ConanTask.StopStageOf | conan-core-services/src/main/java/uk/ac/ebi/fgpt/conan/core/task/AbstractConanTask.java:530-599 | the task changes and throws as `StopStage` says |
| ConanTasks.ConanTask.EndLastRun | conan-core-services/src/main/java/uk/ac/ebi/fgpt/conan/core/task/AbstractConanTask.java:519-522 | the last run, and nothing else, is ended with the exit value and error message given, as `EndLast` says |
| ConanTasks.ConanTask.MarkStopped | conan-core-services/src/main/java/uk/ac/ebi/fgpt/conan/core/task/AbstractConanTask.java:531-535 | a failed or interrupted stage sets the message, the state FAILED and the next index, and changes nothing else |
| ConanTasks.ConanTask.FireProcessStarted | conan-core-services/src/main/java/uk/ac/ebi/fgpt/conan/core/task/AbstractConanTask.java:494-509 | changes and throws as the started event on the current process |
| ConanTasks.ConanTask.FireProcessEnded | conan-core-services/src/main/java/uk/ac/ebi/fgpt/conan/core/task/AbstractConanTask.java:511-528 | changes and throws as the ended event on the current process |
| ConanTasks.ConanTask.FireProcessFailed | conan-core-services/src/main/java/uk/ac/ebi/fgpt/conan/core/task/AbstractConanTask.java:530-578 | changes and throws as the failed event on the current process |
| ConanTasks.ConanTask.FireProcessInterrupted | conan-core-services/src/main/java/uk/ac/ebi/fgpt/conan/core/task/AbstractConanTask.java:580-599 | changes and throws as the interrupted event on the current process |
| ConanTasks.ConanTask.CheckTaskState | conan-core-services/src/main/java/uk/ac/ebi/fgpt/conan/core/task/AbstractConanTask.java:341-360 | the task changes and refuses as `CheckState` says |
| ConanTasks.ConanTask.CheckTaskStateResuming | conan-core-services/src/main/java/uk/ac/ebi/fgpt/conan/core/task/AbstractConanTask.java:352-355 | the task changes and refuses as `CheckStateResuming` says |
| ConanTasks.ConanTask.CheckExitStatus | conan-core-services/src/main/java/uk/ac/ebi/fgpt/conan/core/task/AbstractConanTask.java:362-383 | the task changes and answers as `ExitStatus` says |
| ConanTasks.ConanTask.ReleaseListeners | conan-core-services/src/main/java/uk/ac/ebi/fgpt/conan/core/task/AbstractConanTask.java:282-286 | the task changes as `Finally` says |
| ConanTasks.ConanTask.Catch | conan-core-services/src/main/java/uk/ac/ebi/fgpt/conan/core/task/AbstractConanTask.java:248-286 | the task changes as `Handle` and then `Finally` say, and the exception is the one `Handle` passes on |
| ConanTasks.ConanTask.NextProcessParams | conan-core-services/src/main/java/uk/ac/ebi/fgpt/conan/core/task/AbstractConanTask.java:206-210 | the parameter loop gives `Params` |
| ConanTasks.ConanTask.RunsForProcess | conan-core-services/src/main/java/uk/ac/ebi/fgpt/conan/core/task/AbstractConanTask.java:155-169 | IllegalArgument exactly when the process is not in the pipeline; otherwise its runs |
| ConanTasks.ConanTask.Pass | conan-core-services/src/main/java/uk/ac/ebi/fgpt/conan/core/task/AbstractConanTask.java:195-240 | one pass leaves the task and its outcome as `Iterate` says, and the scheduler's args named accordingly |
| ConanTasks.ConanTask.NamedPass | conan-core-services/src/main/java/uk/ac/ebi/fgpt/conan/core/task/AbstractConanTask.java:220-240 | the rest of a pass once its stage started, as the model says |
| ConanTasks.ConanTask.StagedPass | conan-core-services/src/main/java/uk/ac/ebi/fgpt/conan/core/task/AbstractConanTask.java:226-237 | once the naming was tried, a pass ends as `Staged` says: args missing from the scheduler throw, otherwise the process runs and its stage ends |
| ConanTasks.ConanTask.Attempt | conan-core-services/src/main/java/uk/ac/ebi/fgpt/conan/core/task/AbstractConanTask.java:233-237 | the process's result kept and the stage ended, or its exception caught, as the model says |
| ConanTasks.ConanTask.NameStage | conan-core-services/src/main/java/uk/ac/ebi/fgpt/conan/core/task/AbstractConanTask.java:221-230 | names the args as `NamedSettings` says, with the stage's job name, and reports whether the args were there |
| ConanTasks.ConanTask.FinishLoop | conan-core-services/src/main/java/uk/ac/ebi/fgpt/conan/core/task/AbstractConanTask.java:243-289 | the exit status, its exceptions and the `finally` block, as `AfterLoop` says |
| ConanTasks.ConanTask.Turn | conan-core-services/src/main/java/uk/ac/ebi/fgpt/conan/core/task/AbstractConanTask.java:194-241 | one turn of the loop is a step of `Run`: it ends `Run` or leaves the rest of it to the next turn, with the index one further |
| ConanTasks.ConanTask.RunStages | conan-core-services/src/main/java/uk/ac/ebi/fgpt/conan/core/task/AbstractConanTask.java:191-289 | the `try` block leaves the task, results and naming as `Run` from the first attempt says |
| ConanTasks.ConanTask.Proceed | conan-core-services/src/main/java/uk/ac/ebi/fgpt/conan/core/task/AbstractConanTask.java:184-289 | the task result is new, names the task and carries the exit status, the stages' results in order and the runtime in whole seconds; an exception is the one `Run` ends with |
| ConanTasks.ConanTask.Execute | conan-core-services/src/main/java/uk/ac/ebi/fgpt/conan/core/task/AbstractConanTask.java:179-290 | `execute(context)`: the refusals of `checkState` come back as errors; otherwise as `Proceed` |
| ConanTasks.ConanTask.ExecuteDefault | conan-core-services/src/main/java/uk/ac/ebi/fgpt/conan/core/task/AbstractConanTask.java:292-294 | `execute()` on a default context, which names nothing |
| ConanTasks.ConanTask.ExecuteResuming | conan-core-services/src/main/java/uk/ac/ebi/fgpt/conan/core/task/AbstractConanTask.java:179-290 | `execute(context)` with the corrected `checkState` |

## Left out

- Contexts.ExecutionContext.SetContext: `DefaultExecutionContext.java` has no `jobName` or `monitorFile` field and no `setContext`. The services call `getJobName`, `getMonitorFile` and `setContext(jobName, foreground, monitorFile)` on it, so the class has two extra fields that `SetContext` sets. Their behaviour is inferred from those calls.
- ProcessService.Execute: the remote (SSH) locality runs through the same local-locality behaviour as `Local`. `Remote` is kept only as a value that can be copied. The JSch session, channel I/O and polling are not modelled.
- ProcessService.ExecuteProcess: the external process configuration step (`prependPreCommand`, DefaultProcessService.java:55-62) is not modelled. The process's full command is an input, or `None` when building it throws.
- ProcessService.ExecutableOnPath: `isLocalProcessOperational` (DefaultProcessService.java:248-264) is not modelled; it only adds that same configured pre-command before `executableOnPath`.
- `createLocalSymbolicLink` (DefaultProcessService.java:197-202) is not modelled apart from the command it builds (`ProcessService.MakeLinkCommand`), which is run on a fresh local context.
- SlurmArguments.RenderAll: `uk.ac.ebi.fgpt.conan.util.StringJoiner` is not part of this model. Its `add(value)`, `add(prefix, value)` and `add(condition, prefix, value)` are taken to append the (prefixed) value when it is not null and, for the last form, the condition holds. Pieces are joined with the separator.
- Pbs.Behaviour: `PBSArgs.toString`, the `PBSExitStatus` command keyword of an exit type and the usage reader are parameters (`argsText`, `statusCommand`, `resourceUsage`). PBSArgs and PBSExitStatus are not part of this model.
- Slurm.Behaviour: the exit-status keyword and `getResourceUsage` are parameters in the same way. `Slurm.GetResourceUsageFromId` models the body of the latter over a runner parameter.
- Schedulers.Create: the LSF and OGE scheduler classes are not part of this model. Their behaviours and submit commands, and the default settings of every family's args object, are fields of a `Catalogue` parameter. Only PBS and SLURM are tied to the modelled behaviours (`Schedulers.CreateScheduler`).
- LocalLocality.AggregateArray: the sub-jobs are folded in index order. The code visits a HashSet of futures, whose order is unspecified. `LocalLocality.AggregateAnyOrder` proves that whether the fold throws, the error count and whether the code is 0 do not depend on the order. Which non-zero code (1 or 2) ends up final does depend on it, and that is fixed here by index order.
- The thread pool, futures and `ProcessAdaptorCallable` of `monitoredExecute` (Local.java:138-159, 197-225) are replaced by that sequential fold. Each sub-job's outcome is an input.
- ProcessArguments.PreSplitWords: `parse` keeps only its pre-split step (`"exe " + trimmed` split on single spaces). The commons-cli `PosixParser` step that follows is not part of this model.
- Slurm.CreateCommand: a background job's batch file is returned as data (`batchFile`) and not written. The IOException the code only logs when the write fails is not modelled.
- Running shell commands (`ProcessRunner.runCommmand`) is an input. It is a runner function from command and attempt number to output lines, or a monitor oracle. `FileUtils.writeLines` in `writeOutputToFile` is a success flag.
- `Thread.sleep` in the PBS polling loop, all logging, `StopWatch`, `Date` timestamps and the listener callback bodies are left out. The elapsed time is an input (`elapsedMillis`). Listeners are recorded as an appended trace of events.
- ConanTasks.ConanTask.Execute: `Thread.interrupted()` at each pass and `isInterrupted()` at the end are inputs of the environment. So is the outcome of each stage's `ConanProcess.execute`; `ConanProcess` and `ConanPipeline` are not part of this model.
- ConanTasks.CheckState: the declaration order of `ConanTask.State` is not part of this model. It is taken to have only CREATED before SUBMITTED.
- Parameters.HashCode: `String.hashCode` is computed over Unicode scalar values, not UTF-16 code units. The two differ only for text outside the Basic Multilingual Plane.
- Parameters.Equals: comparison with an object of another class is not modelled; the other operand is a parameter or null.
- TaskResults.DefaultTaskResult.constructor: the result list cannot be null, so the null-list guard of the totals (DefaultTaskResult.java:61, 77, 93) is never taken.
- LocalLocality.AdapterIndices: requires a positive step and `max + step` within the `int` range. On other inputs the adapter loop as written may not end or may wrap (see Findings), so the corrected loop is used by `MonitoredExecute` and, through it, by the services.
- Pbs.GetResourceUsageFromId: the `tracejob` output is an oracle, and the model has no recorded sample of it. The parsers are tied to their inputs by lemmas over constructed lines (`Pbs.PollFindsUsage`, `Pbs.ResourceWord`) rather than by a fixture.
- The listener interface, the process-run DAO and `ConanProcessRun` dates are reduced to the fields the task changes: process name, exit value, error message and whether the run ended.
- Interfaces (`Scheduler`, `ExecutionResult`, `TaskResult`) appear only as the datatypes and classes above. `MultiWaitResult` is the wait result alone: the dependent results are updated in place and kept by the caller.
- JavaText.ParseDecimal: only the ASCII digits 0-9 are read as digits. `Integer.parseInt` also accepts other Unicode decimal digits (any character for which `Character.digit` gives a value), so such text is a parse fault here but a number in Java.
- JavaText.EqualsIgnoreCase: only ASCII letters are folded. Java's `equalsIgnoreCase` also folds other letters, some of them onto ASCII ones (the dotless `ı` upper-cases to `I`), so a key such as "walltıme" matches "walltime" in Java but not in `Pbs.ApplyKeyValue`.
- ProcessService.Execute: when a foreground job's output file cannot be written (DefaultProcessService.java:151-155), and in `LocalLocality.Monitored` when the monitored execution meets an IOException (Local.java:186-187), the source raises `ProcessExecutionException(-1, cause)`, whose message is the cause's `toString()`. The cause is not modelled, so the exception is `Raised(-1, None)` with no message.
- Contexts.PathIn: `new File(dir, name)` is modelled as `dir + "/" + name`. The normalisation of `java.io.File` (a trailing separator on the parent, an empty parent, repeated separators) is not modelled.
- Pbs.Poll: the `tracejob` polling loop (PBSScheduler.java:164-189) is a specification function without a contract of its own. Its properties are stated by `Pbs.PollUsesFourRuns`, `Pbs.PollFailsOnShrink` and `Pbs.PollFindsUsage`, and it is used by `Pbs.GetResourceUsageFromId`.
- ProcessService.Serve: the shared body of `execute` (DefaultProcessService.java:76-174), parameterised by how the usage is attached. It has no contract of its own; `ProcessService.Execute` states what it does with `AttachUsage`.
- ProcessService.ExecuteAsWritten: `execute` with the as-written usage attachment. It has no contract of its own; `ProcessService.NullUsageThrows` and `ProcessService.AsWrittenAgrees` state how it differs from `ProcessService.Execute`.
- ConanTasks.Run: the loop of `execute` (AbstractConanTask.java:191-289) as a function. It has no contract of its own; `ConanTasks.ConanTask.RunStages` is the loop proved equal to it, and `ConanTasks.RunReturnedResults`, `ConanTasks.RunSucceeded`, `ConanTasks.RunFailed` and `ConanTasks.RunToEnd` state its properties.
- ConanTasks.Executed: the whole of `execute` after the state check, as a function. It has no contract of its own; `ConanTasks.ExecuteCompletes`, `ConanTasks.RecoveredTaskSkipsStages` and `ConanTasks.ConanTask.Execute` state its properties.
- TaskResults.Accumulate: the totalling loop (DefaultTaskResult.java:59-104) as a fold. It has no contract of its own; `TaskResults.AccumulateFails`, `TaskResults.AccumulateSums`, `TaskResults.AccumulatePeak` and `TaskResults.AccumulateFailureStays` state its properties.
- TaskResults.Total: `Accumulate` from zero. It has no contract of its own; `TaskResults.DefaultTaskResult.Aggregate` is the loop proved equal to it.
- LocalLocality.Monitored: `monitoredExecute` (Local.java:94-193) as a function. It has no contract of its own; `LocalLocality.MonitoredWithoutMonitor`, `LocalLocality.MonitoredSubmitFails`, `LocalLocality.MonitoredArray` and `LocalLocality.MonitoredSingle` state its cases.
- LocalLocality.Aggregate: the fold over the array's sub-jobs (Local.java:145-159). It has no contract of its own; `LocalLocality.AggregateCounts`, `LocalLocality.AggregateAnyOrder` and `LocalLocality.AggregateArray` state its properties.
- AtlasProcesses.Collect: putting the parsed lines into the items map. It has no contract of its own; `AtlasProcesses.CollectFailure`, `AtlasProcesses.CollectKeys`, `AtlasProcesses.CollectLastWins` and `AtlasProcesses.CollectEntries` state its properties.
- AtlasProcesses.Render: `List.toString` of the items map. It has no contract of its own; `AtlasProcesses.RenderIsJoin` and `AtlasProcesses.RenderedItems` state its properties.
- SlurmArguments.Flags: the options of `SlurmArgs.toString`. It has no contract of its own; `SlurmArguments.FlagsAlways` and the other `Flags*` lemmas state its contents, and `SlurmArguments.RenderAll` its text.
- SlurmArguments.Head: the first options of `Flags`. It has no contract of its own; `SlurmArguments.HeadKinds` states them.
- SlurmArguments.Body: the middle options of `Flags`. It has no contract of its own; `SlurmArguments.BodyKinds`, `SlurmArguments.BodyNumbers` and the other `Body*` lemmas state them.
- Usage.ResourceUsage.ToText: `toString(verbose)`. It has no contract of its own; `Usage.ResourceUsage.VerboseLabels` and `Usage.ResourceUsage.TabbedFields` state both forms.
- Schedulers.BehaviourOf: the behaviour of each family's scheduler class. It has no contract of its own; `Schedulers.CreateScheduler` states it for PBS and SLURM.
- ExecutorService.ArrayCommand: the command with its job-index tokens replaced. It has no contract of its own; `ExecutorService.JobArrayRuns` states that it is the command's segments joined with the scheduler's index variable.
- ExecutorService.Copyable: whether `copy()` succeeds. It has no contract of its own; `ExecutorService.DefaultExecutorService.CopyFor` states that the copy succeeds exactly when it holds.

## Findings

| source | as written | input that shows it | evidently intended | confidence | as-written member | corrected member |
|---|---|---|---|---|---|---|
| conan-core-services/src/main/java/uk/ac/ebi/fgpt/conan/core/task/AbstractConanTask.java:341-360 | `checkState` turns a RUNNING task into RECOVERED, but the loop at line 194 only finds a current process while the state is RUNNING, so no stage runs and `checkExitStatus` marks the task COMPLETED and successful | a task left RUNNING at index 0 of a two-stage pipeline, with one run, not paused, executed again | a task recovered after a shutdown goes on running its remaining stages | not executed | ConanTasks.RecoveredTaskSkipsStages | ConanTasks.RecoveredTaskResumes |
| conan-core-services/src/main/java/uk/ac/ebi/fgpt/conan/service/DefaultProcessService.java:125-128 | the usage is logged with `ru.toString(true)` before it is stored, so a null usage throws a NullPointerException | a PBS foreground job whose four `tracejob` attempts show no usage lines, so `getResourceUsage` returns null | the result is returned with a null usage | not executed | ProcessService.NullUsageThrows | ProcessService.Execute |
| conan-core-services/src/main/java/uk/ac/ebi/fgpt/conan/service/DefaultExecutorService.java:89-95 | the 8-argument `executeProcess` forwards `null` instead of its `dependantJobs` (`ExecutorService.DependantJobsDropped`) | `dependantJobs = [7]` with a scheduler: no wait condition is set | a COMPLETED_ANY wait condition on the dependant jobs | not executed | ExecutorService.DefaultExecutorService.ExecuteProcessDependentAsWritten | ExecutorService.DefaultExecutorService.ExecuteProcessDependent |
| conan-core-services/src/main/java/uk/ac/ebi/fgpt/conan/service/DefaultExecutorService.java:134-139 | threads, memory and runtime are set on the service's own context's args, not on the copy the command runs in (`ExecutorService.CommandResourcesMisplaced`) | a context whose scheduler args have 1 thread, command run with `threads = 4`: the job runs with 1 thread and the service's context keeps 4 | the resources are set on the copy | not executed | ExecutorService.DefaultExecutorService.ExecuteCommandAsWritten | ExecutorService.DefaultExecutorService.ExecuteCommand |
| conan-core-services/src/main/java/uk/ac/ebi/fgpt/conan/core/context/locality/Local.java:113 | `for (int i = min; i <= max; i += step)` in 32-bit `int` arithmetic never ends when `step == 0` or `max == Integer.MAX_VALUE`, and when `i + step` passes `Integer.MAX_VALUE` the index wraps to a negative value that passes the test again | job-array args `min = 1, max = 4, step = 0`; or `min = 2147483646, max = 2147483646, step = 2`, whose second index is -2147483648 | one adapter for each index `min, min + step, ...` up to `max` | not executed | LocalLocality.AdapterLoopEndless | LocalLocality.AdapterIndices |
