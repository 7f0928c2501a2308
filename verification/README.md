# Parallel AMN dataset generation, modelled in Dafny

`build_dataset_parallel.py` builds one training dataset per experiment
directory. Each experiment is one task, `create_random_medium_from_cobra(expname)`:

- it opens a log file of its own, named from the experiment and the moment of opening;
- it runs a fixed sequence of stages inside one catch-all failure boundary:
  1. read the experiment table and build the 'EXP' training-set parameter to obtain X;
  2. build the simulation parameter from the medium-level file;
  3. derive each sample's variable-medium list;
  4. simulate the samples in order;
  5. save the training file;
- it logs every step;
- it ends the log with exactly one success line of its own, or with its ERROR line followed by the traceback;
- it closes the log and returns a status string.

`main` maps that task over the experiment names with a worker pool and
collects the statuses in input order.

The project has seven modules:

- `Wrappers` holds `Option`, `Result` and `Outcome`.
- `Decimal` holds Python's `str(int)` and strftime's zero-padded numeric fields, with parsers and round trips.
- `Timestamps` holds the two strftime shapes used: the log-line stamp and the file-name stamp.
- `TaskLog` covers the log-file path and the shape of one log line. It also holds the `TaskLog` class: the open file, with the entries written so far and a `closed` flag. `Render` gives the text written by each `log` call, one string per call.
- `Varmed` models stage 3 in two forms. `BuildVarmed` is the nested loop as written. `Derive` is the value it must produce, which is either the lists or the first cell whose visit raises `IndexError`.
- `Pipeline` holds the specification of one task as functions over the answers of its environment:
  - `LoadExperiment`, `Prepare`, `SamplesUpTo`, `Complete` and `Stages` build the events logged and the outcome reached;
  - `Trace` is the whole log;
  - `Status` is the returned string.

  It also holds the imperative task (`CreateRandomMedium`, `RunStages` and the stage methods), proved equal to that specification, and the properties of the specification.
- `Orchestrator` holds `main`'s `p.map`: `RunAll`, which is specified by `Summary`.

Everything outside the task's own code is an `Environment` of answers:

- `pd.read_csv` gives the column count or the error's message;
- `TrainingSet(...)` gives X, the levels, the medium names and the bound label, or an error;
- `.get` gives the lines it logs through `log_func` and whether it raised;
- `.save` gives whether it raised;
- the message of the `IndexError` raised at a cell of stage 3;
- `traceback.format_exc()`.

A `datetime.now()` reading is a parameter: `openedAt` for the file name, and `clock(k)` for the k-th `log` call.

Stage 3 only computes over arrays that stages 1 and 2 already loaded. Even
so, the code indexes `parameter.levmed` and `parameter.medium` by X's column
range, so it raises `IndexError` at the first cell (in row-major order) that
indexes past `levmed`, or past `medium` in a column it takes: the `and` at
line 83 short-circuits, so `medium[j]` is read only when `levmed[j] > 1` and
`X[i, j] > 0`, and an X with no rows indexes nothing. That failure is caught
like any other (`Varmed.Faults`, `Varmed.FaultFrom`, `Varmed.Derive`).

## Model

| member | source | states |
|---|---|---|
| Decimal.PaddedRoundTrip | build_dataset_parallel.py:39 | a zero-padded strftime field (`%m`, `%Y`, `%f`, ...) reads back as the number written |
| Decimal.IntToStringRoundTrip | build_dataset_parallel.py:58-60 | `str(mediumsize)` in the "Creating TrainingSet" line reads back as the integer, negative ones included (a table with no columns gives -1) |
| Timestamps.LineStampRoundTrip | build_dataset_parallel.py:45 | the '%Y-%m-%d %H:%M:%S' stamp reads back as the reading with its microseconds dropped |
| Timestamps.FileStampRoundTrip | build_dataset_parallel.py:39 | the '%Y%m%d_%H%M%S_%f' stamp reads back as the whole reading |
| Timestamps.FileStampInjective | build_dataset_parallel.py:39 | readings that differ by as little as a microsecond give different file stamps |
| TaskLog.LogFilePathInjective | build_dataset_parallel.py:37-40 | within the log directory, a log file name determines both the experiment and the opening time |
| TaskLog.LogLineRoundTrip | build_dataset_parallel.py:44-45 | a log line `"{stamp} - {message}\n"` gives back its message exactly and its time to the second |
| TaskLog.RenderSnoc | build_dataset_parallel.py:44-46 | writing a line appends exactly that line and leaves the earlier lines unchanged |
| TaskLog.RenderReadBack | build_dataset_parallel.py:44-46 | the k-th entry written (one `log` call) gives back the k-th message and its time |
| TaskLog.TaskLog.Open | build_dataset_parallel.py:39-42 | the file opened is `{log_dir}/{expname}_{timestamp}.log`, empty and open |
| TaskLog.TaskLog.Write | build_dataset_parallel.py:44-46 | `log(message)` appends one entry stamped with the current clock reading; the file stays open |
| TaskLog.TaskLog.Close | build_dataset_parallel.py:102-109 | closing needs an open file and changes no line; a second close cannot be proved |
| Varmed.Selected | build_dataset_parallel.py:82-83 | the columns taken for a row are strictly ascending, and a column is among them iff its level exceeds 1 and the row's value there is positive |
| Varmed.RowVarmedIsSubsequence | build_dataset_parallel.py:82-84 | a row's list is `medium` restricted to the columns taken, in column order, with one entry per column |
| Varmed.RowVarmedMembership | build_dataset_parallel.py:82-84 | both directions: every column taken contributes its medium name, and every name in the list comes from a column taken |
| Varmed.VarmedLists | build_dataset_parallel.py:79-85 | one list per row of X, none longer than X's column count |
| Varmed.FaultFrom | build_dataset_parallel.py:80-84 | finds the first cell in row-major order whose visit raises `IndexError`, or shows that no cell does |
| Varmed.Derive | build_dataset_parallel.py:79-85 | stage 3 yields lists exactly when no cell raises, and then the lists are `VarmedLists`; otherwise it yields the first cell that raises |
| Varmed.BuildVarmed | build_dataset_parallel.py:79-85 | the nested loops, with `levmed[j] > 1 and X[i, j] > 0` and their `IndexError`, compute `Derive`; on success there is one list per row |
| Pipeline.TrainingFileInjective | build_dataset_parallel.py:97 | under one bound label, experiments save to the same training file iff they are the same experiment |
| Pipeline.StatusRoundTrip | build_dataset_parallel.py:103-110 | the status string tells success from failure and carries the failure's `str(e)` verbatim |
| Pipeline.SamplesCount | build_dataset_parallel.py:90-94 | when the first k samples all returned, exactly k samples are accumulated |
| Pipeline.SamplesPrefix | build_dataset_parallel.py:90-94 | after the first k samples, the accumulated samples are the first k lists, or, on failure, a strictly shorter prefix of them |
| Pipeline.SamplesPassIff | build_dataset_parallel.py:90-94 | stage 4 passes iff every `get` call passes |
| Pipeline.SamplesStayFailed | build_dataset_parallel.py:90-94 | once a sample raises, no later sample runs |
| Pipeline.LibraryLinesQuiet | build_dataset_parallel.py:93 | the lines the library writes through `log_func` are, as events, neither the task's own terminal lines nor its sample markers, whatever their text |
| Pipeline.AttemptAppend | build_dataset_parallel.py:91-94 | writing "Processing", the library's lines and, if `get` returned, "completed" one at a time appends exactly the sample's lines |
| Pipeline.AttemptNotTerminal | build_dataset_parallel.py:91-94 | a sample writes no success or ERROR line |
| Pipeline.AttemptMarkers | build_dataset_parallel.py:91-94 | a sample's markers are its "Processing sample k/N" line, then its "Sample k/N completed" line exactly when `get` returned |
| Pipeline.SamplesNotTerminalStep | build_dataset_parallel.py:90-94 | one more sample adds no terminal line to stage 4 |
| Pipeline.SamplesNotTerminal | build_dataset_parallel.py:90-94 | no line logged in stage 4, the library's own lines included, is a success or ERROR line |
| Pipeline.MarkersAfterAttempt | build_dataset_parallel.py:90-94 | after m completed samples, the next sample extends the alternation to m + 1 when `get` returns, and otherwise leaves a single trailing "Processing" line |
| Pipeline.SamplesMarkersStep | build_dataset_parallel.py:90-94 | one more sample keeps stage 4's markers in the alternating form, indexed by the samples accumulated |
| Pipeline.SamplesMarkers | build_dataset_parallel.py:90-94 | stage 4's "Processing sample i/N" and "Sample i/N completed" lines alternate for i = 1..m in ascending order, followed by the "Processing" line of the sample that raised, if one did |
| Pipeline.Prepare | build_dataset_parallel.py:49-86 | stages 1 to 3 end with one variable-medium list per row of X, or with no lists at all when one of them raises |
| Pipeline.TranscriptAt | build_dataset_parallel.py:44-46 | the k-th log entry holds the k-th event's message and the k-th clock reading |
| Pipeline.TranscriptReadBack | build_dataset_parallel.py:44-46 | reading the log back entry by entry (one `log` call each) gives each event's message and the time it was written, to the second |
| Pipeline.LoadQuiet | build_dataset_parallel.py:49-67 | stage 1 opens with "Starting processing for {expname}" and logs no terminal line and no sample marker |
| Pipeline.PrepareQuiet | build_dataset_parallel.py:49-78 | stages 1 to 3 open with the start line and log no terminal line and no sample marker |
| Pipeline.SaveStageLines | build_dataset_parallel.py:96-100 | stage 5 writes no sample marker, and writes the success line exactly when the save returned |
| Pipeline.GeneratingKeep | build_dataset_parallel.py:86-89 | the two lines between stages 3 and 4 are neither terminal lines nor sample markers |
| Pipeline.CompleteTerminal | build_dataset_parallel.py:88-100 | stages 4 and 5 write the success line exactly when both succeed, and no other terminal line |
| Pipeline.CompleteMarkers | build_dataset_parallel.py:88-100 | every sample marker of stages 4 and 5 comes from the sample loop |
| Pipeline.StagesStart | build_dataset_parallel.py:49 | every task's log begins with its start line |
| Pipeline.StagesTerminal | build_dataset_parallel.py:48-100 | the `try` body logs the success line only when every stage succeeded, and no other terminal line |
| Pipeline.StagesEnd | build_dataset_parallel.py:100 | when the stages succeed, the success line is the last line they log |
| Pipeline.EpilogueTerminal | build_dataset_parallel.py:105-108 | the `except` block writes one terminal line, the ERROR line with `str(e)`, and writes nothing when no exception was raised |
| Pipeline.TraceStart | build_dataset_parallel.py:49 | the whole log begins with "Starting processing for {expname}" |
| Pipeline.TraceTerminatesOnce | build_dataset_parallel.py:48-110 | the log holds exactly one terminal line written by the task itself (line 100 or 107): the success line, which is the last line, or "ERROR processing {expname}: {e}" with the message that ended the stages, followed only by the traceback |
| Pipeline.SamplesAccumulate | build_dataset_parallel.py:88-94 | the samples accumulated are a prefix of the variable-medium lists in order, and all of them (one per row of X) on success |
| Pipeline.EpilogueMarkers | build_dataset_parallel.py:105-108 | the ERROR and traceback lines add no sample marker to the log |
| Pipeline.StagesMarkers | build_dataset_parallel.py:48-100 | the `try` body's sample markers alternate for the samples accumulated, followed by the "Processing" line of the sample that raised, if one did |
| Pipeline.SamplesInOrder | build_dataset_parallel.py:88-108 | the whole log's sample markers are "Processing sample i/N" then "Sample i/N completed" for i = 1..m, with m the number of samples accumulated and N the row count, then the "Processing" line of the sample that raised, if one did |
| Pipeline.StagesPassIff | build_dataset_parallel.py:48-100 | the stages succeed iff the table is read, both parameters are built, no cell of stage 3 raises, every `get` passes and the save passes |
| Pipeline.StatusSuccessIff | build_dataset_parallel.py:100-110 | the task returns "{expname}: SUCCESS" exactly when every stage succeeded |
| Pipeline.NewTrainingSet | build_dataset_parallel.py:61-75 | `TrainingSet(...)` gives a fresh object holding the library's arrays and no samples, or the message of what the constructor raised |
| Pipeline.TrainingSet.Get | build_dataset_parallel.py:93 | the library's lines go to the task's log in order, the outcome is the library's answer for the next sample, and the sample is accumulated only when `get` returns |
| Pipeline.TrainingSet.Save | build_dataset_parallel.py:99 | the outcome of the save is the library's answer for this path and reduce flag |
| Pipeline.Emit | build_dataset_parallel.py:44-46 | one `log(...)` call keeps the file equal to the transcript of the events logged so far |
| Pipeline.LoadStage | build_dataset_parallel.py:49-67 | stage 1 as executed logs exactly the events of `LoadExperiment` and reaches its outcome and its X |
| Pipeline.PrepareStages | build_dataset_parallel.py:49-85 | stages 1 to 3 as executed log exactly the events of `Prepare`, reach its outcome and yield its lists, row count and a fresh simulation parameter |
| Pipeline.RunSample | build_dataset_parallel.py:91-94 | one sample as executed logs "Processing", the library's lines and, if `get` returned, "completed", as `Attempt` specifies, and returns `get`'s outcome |
| Pipeline.RunSamples | build_dataset_parallel.py:88-94 | the sample loop as executed logs exactly `SamplesUpTo`'s events, reaches its outcome, and leaves the parameter holding its samples |
| Pipeline.SaveTrainingFile | build_dataset_parallel.py:96-100 | stage 5 as executed logs "Saving training file to {trainingfile}", saves, and logs the success line only if the save returned, as `SaveStage` specifies |
| Pipeline.RunStages | build_dataset_parallel.py:48-100 | the `try` body as executed logs exactly the events of `Stages` and reaches its outcome |
| Pipeline.CreateRandomMedium | build_dataset_parallel.py:36-110 | the task opens its own log file, leaves it closed holding exactly `Trace`'s lines, and returns the status of the outcome of its stages |
| Orchestrator.SummaryReports | build_dataset_parallel.py:132-137 | each reported status says SUCCESS iff all of that experiment's stages succeeded, and otherwise parses back to its failure message |
| Orchestrator.TasksDoNotShareFiles | build_dataset_parallel.py:40-97 | tasks for distinct experiments never write the same log file, whatever their opening times, and, under one bound label, never save to the same training file |
| Orchestrator.RunAll | build_dataset_parallel.py:119-132 | running every task returns the statuses in the order of the experiment names |

## Left out

- The worker pool (`Pool(PARALLEL_LEVEL)`) is modelled as a sequential loop. The tasks share no state in the model, and `p.map` returns results in input order, so the statuses are the same, provided no task raises outside its `try` (see below). Scheduling, worker start-up and pickling are not modelled.
- `pandas` and the training-set library are represented only by their answers (`Environment`). The simulation numerics, the contents of the saved file, X's values beyond their sign, and the library's internal sample state are not modelled. The library's internal sample state is reduced to the count passed to `get`.
- `traceback.format_exc()` is modelled as a function of the exception's message; the real traceback also depends on the stack.
- The text of the `IndexError` raised in stage 3 is an answer of the environment for the cell that raised.
- Exceptions outside the `try` are not modelled: the imports at lines 22-23, `os.makedirs`, and `open` of the log file. Such an exception escapes the task, `p.map` re-raises it in `main`, and the batch ends with no summary; `RunAll` assumes every task reaches its `try`. Exceptions raised by a log write, flush or close, and exceptions raised inside the `except` block, are not modelled either. Every failure inside the `try` is an `Exception` here; `BaseException` subclasses that escape `except Exception` are not modelled.
- Clock readings are restricted to years 1000 to 9999, where `%Y` has four digits.
- X's cells are reals; NaN, which compares as not positive, is not represented separately.
- `os.listdir` is replaced by the list of experiment names passed to `RunAll`. `main`'s console output is not modelled: the banner, the start and end times, the summary printing and `sys.stdout.flush`.
- The single Python function is split into the methods `LoadStage`, `PrepareStages`, `RunSample`, `RunSamples`, `SaveTrainingFile` and `RunStages`. These methods perform the same effects in the same order.
- `X.copy()` is not modelled: the model works on values, so there is no aliasing to guard against.
- RunAll: does not return the tasks' log objects. Each task's log contents, path and closure are stated by `CreateRandomMedium`.
- A message holding newlines (always the traceback, and any `str(e)` or library line that contains one) spans several physical lines of the file. The model reads the file back per `log` call (`Render`, `TranscriptReadBack`), not per physical line.
- A terminal line means the success line or the ERROR line the task itself writes (lines 100 and 107), and a sample marker means the "Processing sample i/N" or "Sample i/N completed" line the task itself writes (lines 91 and 94), each taken as an event. The library's lines written through `log_func`, and the traceback, are arbitrary text and may carry the same text as either kind. So "exactly one terminal line", "the markers alternate" and "the library's lines are neither terminal lines nor sample markers" are statements about the task's own events, not about text patterns in the file.
