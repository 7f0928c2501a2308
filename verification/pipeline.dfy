/**
 * One task: `create_random_medium_from_cobra(expname)`. A start line, the
 * stages in sequence (read the experiment table, build the two training-set
 * parameters, derive the variable-medium lists, simulate each sample, save),
 * one catch-all failure boundary, exactly one terminal log line, the log
 * closed once, and a status string returned.
 */
module Pipeline {
  import opened Wrappers
  import opened Decimal
  import opened Timestamps
  import opened TaskLog
  import opened Varmed

  // The task's fixed parameters.
  const COBRA_NAME := "iML1515_duplicated_Lab_Data"
  const MEDIUM_NAME := "df_amn_dataset_levels"
  const MEDIUM_BOUND := "UB"
  const EXP_DF_NAME := "df_amn_dataset"
  const METHOD := "pFBA"
  const SIZE_I := 100
  const REDUCE := true
  const VERBOSE := true
  const DIRECTORY := "./"
  const LOG_DIR := "./logs"
  const EXPERIMENTS_DIR := "H:/ROBOT_SCIENTIST/E_coli/Growth_rates/2025-10-31-27/processed/no_replicates"

  function CobraFile(): string {
    DIRECTORY + "Dataset_input/" + COBRA_NAME
  }

  function ExpDataPath(expname: string): string {
    EXPERIMENTS_DIR + "/" + expname + "/AMN_dataset/"
  }

  function ExpFile(expname: string): string {
    ExpDataPath(expname) + EXP_DF_NAME
  }

  function MediumFile(expname: string): string {
    ExpDataPath(expname) + MEDIUM_NAME
  }

  /** `DIRECTORY + 'Dataset_model/' + expname + '_' + mediumbound` */
  function TrainingFile(expname: string, mediumbound: string): string {
    DIRECTORY + "Dataset_model/" + expname + "_" + mediumbound
  }

  /**
   * Under one medium-bound label, distinct experiments save to distinct
   * files; a re-run of the same experiment saves to the same file (last write wins).
   */
  lemma TrainingFileInjective(e1: string, e2: string, mediumbound: string)
    ensures TrainingFile(e1, mediumbound) == TrainingFile(e2, mediumbound) <==> e1 == e2
  {
    if TrainingFile(e1, mediumbound) == TrainingFile(e2, mediumbound) {
      var p1, p2 := TrainingFile(e1, mediumbound), TrainingFile(e2, mediumbound);
      var d := |DIRECTORY + "Dataset_model/"|;
      assert |e1| == |e2|;
      assert p1[d..d + |e1|] == e1;
      assert p2[d..d + |e2|] == e2;
    }
  }

  // ---------------------------------------------------------------------
  // The training-set library, seen only through what each call returns.

  /** The keyword arguments of a `TrainingSet(...)` construction. */
  datatype TrainingSetArgs = TrainingSetArgs(
    cobraname: string, mediumname: string, mediumbound: string,
    mediumsize: Option<int>, methodName: string, verbose: bool)

  /** Stage 1's construction: the experiment table as the medium, in 'EXP' mode. */
  function ExpArgs(expname: string, mediumsize: int): TrainingSetArgs {
    TrainingSetArgs(CobraFile(), ExpFile(expname), MEDIUM_BOUND, Some(mediumsize), "EXP", false)
  }

  /** Stage 2's construction: the medium-level file, with the simulation method. */
  function SimArgs(expname: string): TrainingSetArgs {
    TrainingSetArgs(CobraFile(), MediumFile(expname), MEDIUM_BOUND, None, METHOD, false)
  }

  /** What the pipeline reads from a constructed parameter object. */
  datatype Parameter = Parameter(x: Matrix, levmed: seq<int>, medium: seq<string>, mediumbound: string)

  /** One `get` call; `index` is the number of samples the object has already accumulated. */
  datatype GetCall = GetCall(index: nat, sampleSize: nat, varmed: seq<string>, verbose: bool)

  /** What one `get` call does: the lines it writes through `log_func`, then its outcome. */
  datatype SampleRun = SampleRun(logged: seq<string>, outcome: Outcome<string>)

  /**
   * Everything outside the task's own code, as the answers it gives:
   * `pd.read_csv` (the column count, or the error's message), `TrainingSet(...)`,
   * `.get`, `.save`, the message of the IndexError raised at a cell of stage 3,
   * and `traceback.format_exc()` for an error message.
   */
  datatype Environment = Environment(
    readCsv: string -> Result<nat, string>,
    trainingSet: TrainingSetArgs -> Result<Parameter, string>,
    get: GetCall -> SampleRun,
    save: (string, bool) -> Outcome<string>,
    indexError: (nat, nat) -> string,
    formatExc: string -> string)

  // ---------------------------------------------------------------------
  // What a task writes to its log.

  datatype Event =
    | Started(expname: string)
    | ReadingExperiment(expfile: string)
    | CreatingTrainingSet(mediumsize: int)
    | Shape(rows: nat, cols: nat)
    | ReadingMedium(mediumfile: string)
    | CreatingVarmed
    | VarmedCreated(entries: nat)
    | StartingGeneration(samples: nat, sampleSize: nat)
    | Processing(sample: nat, total: nat)
    | BuilderLine(text: string)
    | Completed(sample: nat, total: nat)
    | Saving(path: string)
    | Succeeded(expname: string)
    | Errored(expname: string, message: string)
    | Traceback(text: string)

  /** The message of each `log` call, as the task formats it. */
  function Message(ev: Event): string {
    match ev
    case Started(e) => "Starting processing for " + e
    case ReadingExperiment(f) => "Reading experimental data from " + f
    case CreatingTrainingSet(m) => "Creating TrainingSet with mediumsize=" + IntToString(m)
    case Shape(r, c) => "X shape: (" + NatToString(r) + ", " + NatToString(c) + ")"
    case ReadingMedium(f) => "Reading medium file from " + f
    case CreatingVarmed => "Creating variable medium list"
    case VarmedCreated(n) => "Variable medium created with " + NatToString(n) + " entries"
    case StartingGeneration(n, s) =>
      "Starting COBRA training set generation for " + NatToString(n) + " samples with size_i=" + NatToString(s)
    case Processing(i, n) => "Processing sample " + NatToString(i) + "/" + NatToString(n)
    case BuilderLine(t) => t
    case Completed(i, n) => "Sample " + NatToString(i) + "/" + NatToString(n) + " completed"
    case Saving(p) => "Saving training file to " + p
    case Succeeded(e) => "Successfully completed processing for " + e
    case Errored(e, m) => "ERROR processing " + e + ": " + m
    case Traceback(t) => t
  }

  /** The log entries written for `evs`, the k-th taken at `clock(k)`. */
  function Transcript(clock: nat -> ValidTimestamp, evs: seq<Event>): (entries: seq<Entry>)
    ensures |entries| == |evs|
  {
    if evs == [] then []
    else Transcript(clock, evs[..|evs| - 1]) + [Entry(clock(|evs| - 1), Message(evs[|evs| - 1]))]
  }

  lemma TranscriptSnoc(clock: nat -> ValidTimestamp, evs: seq<Event>, ev: Event)
    ensures Transcript(clock, evs + [ev]) == Transcript(clock, evs) + [Entry(clock(|evs|), Message(ev))]
  {
    assert (evs + [ev])[..|evs|] == evs;
  }

  /** The lines the library writes through the logging callback. */
  function BuilderLines(logged: seq<string>): (evs: seq<Event>)
    ensures |evs| == |logged|
  {
    if logged == [] then []
    else BuilderLines(logged[..|logged| - 1]) + [BuilderLine(logged[|logged| - 1])]
  }

  lemma BuilderLinesSnoc(logged: seq<string>, k: nat)
    requires k < |logged|
    ensures BuilderLines(logged[..k + 1]) == BuilderLines(logged[..k]) + [BuilderLine(logged[k])]
  {
    assert logged[..k + 1][..k] == logged[..k];
  }

  /** The two kinds of log line the task's contract is about. */
  datatype Filter =
    | Terminal  // the success line or the ERROR line
    | Marker    // "Processing sample i/N" or "Sample i/N completed"

  predicate Selects(f: Filter, ev: Event) {
    match f
    case Terminal => ev.Succeeded? || ev.Errored?
    case Marker => ev.Processing? || ev.Completed?
  }

  /** The elements of `s` that satisfy `p`, in order. */
  function Keep(s: seq<Event>, f: Filter): seq<Event> {
    if s == [] then []
    else Keep(s[..|s| - 1], f) + (if Selects(f, s[|s| - 1]) then [s[|s| - 1]] else [])
  }

  lemma {:induction false} KeepConcat(a: seq<Event>, b: seq<Event>, f: Filter)
    ensures Keep(a + b, f) == Keep(a, f) + Keep(b, f)
  {
    if b != [] {
      assert (a + b)[..|a + b| - 1] == a + b[..|b| - 1];
      assert (a + b)[|a + b| - 1] == b[|b| - 1];
      KeepConcat(a, b[..|b| - 1], f);
    } else {
      assert a + b == a;
    }
  }

  lemma KeepSnoc(s: seq<Event>, e: Event, f: Filter)
    ensures Keep(s + [e], f) == Keep(s, f) + (if Selects(f, e) then [e] else [])
  {
    assert (s + [e])[..|s|] == s;
  }

  lemma {:induction false} KeepNone(s: seq<Event>, f: Filter)
    requires forall k :: 0 <= k < |s| ==> !Selects(f, s[k])
    ensures Keep(s, f) == []
  {
    if s != [] {
      KeepNone(s[..|s| - 1], f);
    }
  }

  /** The library's own lines are neither terminal lines nor sample markers. */
  lemma {:induction false} LibraryLinesQuiet(logged: seq<string>, f: Filter)
    ensures Keep(BuilderLines(logged), f) == []
  {
    if logged != [] {
      var init := logged[..|logged| - 1];
      LibraryLinesQuiet(init, f);
      KeepSnoc(BuilderLines(init), BuilderLine(logged[|logged| - 1]), f);
    }
  }

  /** A line followed by library lines: only the line can be selected. */
  lemma KeepHead(e: Event, logged: seq<string>, f: Filter)
    ensures Keep([e] + BuilderLines(logged), f) == if Selects(f, e) then [e] else []
  {
    LibraryLinesQuiet(logged, f);
    KeepConcat([e], BuilderLines(logged), f);
    assert [e][..0] == [];
  }

  /** Sample markers 1..m in order, each "Processing" followed by its "completed". */
  function Alternation(m: nat, n: nat): (r: seq<Event>)
    ensures |r| == 2 * m
  {
    if m == 0 then [] else Alternation(m - 1, n) + [Processing(m, n), Completed(m, n)]
  }

  /**
   * The sample markers of stage 4 after m samples completed: "Processing
   * sample i/n" then "Sample i/n completed" for i = 1..m in ascending order,
   * then the "Processing" line of sample m+1 if that one failed.
   */
  function MarkerLines(m: nat, n: nat, failed: bool): seq<Event> {
    if failed then Alternation(m, n) + [Processing(m + 1, n)] else Alternation(m, n)
  }

  // ---------------------------------------------------------------------
  // The specification: the events a task logs and the outcome it reaches.

  /** Events logged, the outcome at the failure boundary, and the samples accumulated. */
  datatype Run = Run(events: seq<Event>, outcome: Outcome<string>, simulated: seq<seq<string>>)

  /**
   * The lines sample k of n writes: "Processing sample k/n", the lines of its
   * `get` call, then "Sample k/n completed" if the call returned.
   */
  function Attempt(k: nat, n: nat, run: SampleRun): seq<Event> {
    [Processing(k, n)] + BuilderLines(run.logged) + Closing(k, n, run)
  }

  /** The line that closes sample k of n: "completed" when `get` returned, none when it raised. */
  function Closing(k: nat, n: nat, run: SampleRun): seq<Event> {
    if run.outcome.Pass? then [Completed(k, n)] else []
  }

  /** Appending a sample's lines one at a time, as the task writes them. */
  lemma AttemptAppend(evs: seq<Event>, k: nat, n: nat, run: SampleRun)
    ensures evs + Attempt(k, n, run) ==
      if run.outcome.Pass? then evs + [Processing(k, n)] + BuilderLines(run.logged) + [Completed(k, n)]
      else evs + [Processing(k, n)] + BuilderLines(run.logged)
  {
    var lines := BuilderLines(run.logged);
    Regroup(evs, [Processing(k, n)], lines);
    Regroup(evs, [Processing(k, n)] + lines, Closing(k, n, run));
  }

  /** Sample i of stage 4, after `prev`: nothing once an earlier sample failed, otherwise its attempt. */
  function SampleStep(env: Environment, varmed: seq<seq<string>>, prev: Run, i: nat): Run
    requires i < |varmed|
  {
    if prev.outcome.Fail? then prev
    else
      var run := env.get(GetCall(i, SIZE_I, varmed[i], VERBOSE));
      Run(prev.events + Attempt(i + 1, |varmed|, run), run.outcome,
          if run.outcome.Pass? then prev.simulated + [varmed[i]] else prev.simulated)
  }

  /** Stage 4 after its first k samples, stopping at the first that raises. */
  function SamplesUpTo(env: Environment, varmed: seq<seq<string>>, k: nat): Run
    requires k <= |varmed|
  {
    if k == 0 then Run([], Pass, [])
    else SampleStep(env, varmed, SamplesUpTo(env, varmed, k - 1), k - 1)
  }

  /** Stages 1 to 3 as far as they get: events, outcome, X's row count, the bound label, the lists. */
  datatype Prepared = Prepared(
    events: seq<Event>, outcome: Outcome<string>,
    rows: nat, mediumbound: string, varmed: seq<seq<string>>)

  /** Stage 1 as far as it gets: events, outcome, and the X of the 'EXP' parameter. */
  datatype Loaded = Loaded(events: seq<Event>, outcome: Outcome<string>, x: Matrix)

  /**
   * Stage 1: read the experiment table (its last column is the label, so the
   * medium has one column fewer), build the 'EXP' parameter, log X's shape.
   */
  function LoadExperiment(expname: string, env: Environment): Loaded {
    var expfile := ExpFile(expname);
    var opening := [Started(expname), ReadingExperiment(expfile)];
    match env.readCsv(expfile + ".csv")
    case Failure(m) => Loaded(opening, Fail(m), Grid(0, []))
    case Success(columns) =>
      var mediumsize: int := columns - 1;
      var building := opening + [CreatingTrainingSet(mediumsize)];
      match env.trainingSet(ExpArgs(expname, mediumsize))
      case Failure(m) => Loaded(building, Fail(m), Grid(0, []))
      case Success(first) => Loaded(building + [Shape(|first.x.cells|, first.x.cols)], Pass, first.x)
  }

  /**
   * Stages 1 to 3: stage 1, then build the simulation parameter and derive
   * the variable-medium lists from X and its arrays.
   */
  function Prepare(expname: string, env: Environment): (p: Prepared)
    ensures p.outcome.Pass? ==> |p.varmed| == p.rows
    ensures p.outcome.Fail? ==> p.varmed == []
  {
    var l := LoadExperiment(expname, env);
    if l.outcome.Fail? then Prepared(l.events, l.outcome, 0, "", [])
    else
      var loading := l.events + [ReadingMedium(MediumFile(expname))];
      match env.trainingSet(SimArgs(expname))
      case Failure(m) => Prepared(loading, Fail(m), |l.x.cells|, "", [])
      case Success(param) =>
        var deriving := loading + [CreatingVarmed];
        match Derive(l.x, param.levmed, param.medium)
        case OutOfRange(i, j) => Prepared(deriving, Fail(env.indexError(i, j)), |l.x.cells|, param.mediumbound, [])
        case Built(varmed) => Prepared(deriving, Pass, |l.x.cells|, param.mediumbound, varmed)
  }

  /** The events of stages 1 to 4 that lead up to the samples, when stages 1 to 3 succeed. */
  function Generating(p: Prepared): seq<Event> {
    p.events + [VarmedCreated(|p.varmed|), StartingGeneration(p.rows, SIZE_I)]
  }

  /** Stage 5 as far as it gets: events and outcome. */
  datatype Saved = Saved(events: seq<Event>, outcome: Outcome<string>)

  /** Stage 5: save the training file under the bound label, then log the success line. */
  function SaveStage(expname: string, env: Environment, mediumbound: string): Saved {
    var path := TrainingFile(expname, mediumbound);
    match env.save(path, REDUCE)
    case Fail(m) => Saved([Saving(path)], Fail(m))
    case Pass => Saved([Saving(path), Succeeded(expname)], Pass)
  }

  /** After stages 1 to 3 succeed: the samples in order, then saving the training file. */
  function Complete(expname: string, env: Environment, p: Prepared): Run {
    var sampled := SamplesUpTo(env, p.varmed, |p.varmed|);
    if sampled.outcome.Fail? then Run(Generating(p) + sampled.events, sampled.outcome, sampled.simulated)
    else
      var saved := SaveStage(expname, env, p.mediumbound);
      Run(Generating(p) + sampled.events + saved.events, saved.outcome, sampled.simulated)
  }

  /** The body of the `try` block: the stages in order, stopping at the first that raises. */
  function Stages(expname: string, env: Environment): Run {
    var p := Prepare(expname, env);
    if p.outcome.Fail? then Run(p.events, p.outcome, []) else Complete(expname, env, p)
  }

  /** Every stage succeeds, stated on the answers of the environment alone. */
  ghost predicate AllStagesSucceed(expname: string, env: Environment) {
    match env.readCsv(ExpFile(expname) + ".csv")
    case Failure(_) => false
    case Success(columns) =>
      match env.trainingSet(ExpArgs(expname, columns - 1))
      case Failure(_) => false
      case Success(first) =>
        match env.trainingSet(SimArgs(expname))
        case Failure(_) => false
        case Success(param) =>
          InRange(first.x, param.levmed, param.medium) &&
          var varmed := VarmedLists(first.x, param.levmed, param.medium);
          GetsPass(env, varmed, |varmed|) &&
          env.save(TrainingFile(expname, param.mediumbound), REDUCE).Pass?
  }

  /** Whatever follows the stages: nothing on success, the ERROR line and the traceback on failure. */
  function Epilogue(expname: string, env: Environment, outcome: Outcome<string>): seq<Event> {
    match outcome
    case Pass => []
    case Fail(m) => [Errored(expname, m), Traceback(env.formatExc(m))]
  }

  /** Appending what follows the stages, one line at a time. */
  lemma EpilogueAppend(evs: seq<Event>, expname: string, env: Environment, outcome: Outcome<string>)
    ensures evs + Epilogue(expname, env, outcome) ==
      match outcome
      case Pass => evs
      case Fail(m) => evs + [Errored(expname, m)] + [Traceback(env.formatExc(m))]
  {
    if outcome.Pass? {
      assert evs + [] == evs;
    }
  }

  /** The whole log of a task: the stages, then what follows them. */
  function Trace(expname: string, env: Environment): seq<Event> {
    var r := Stages(expname, env);
    r.events + Epilogue(expname, env, r.outcome)
  }

  /** `f"{expname}: SUCCESS"` or `f"{expname}: FAILED - {str(e)}"` */
  function Status(expname: string, outcome: Outcome<string>): string {
    match outcome
    case Pass => expname + ": SUCCESS"
    case Fail(m) => expname + ": FAILED - " + m
  }

  /** Reads a status string of a known experiment back. */
  function ParseStatus(expname: string, status: string): Option<Outcome<string>> {
    var n := |expname| + 2;
    if |status| < n || status[..n] != expname + ": " then None
    else if status[n..] == "SUCCESS" then Some(Pass)
    else if |status| >= n + 9 && status[n..n + 9] == "FAILED - " then Some(Fail(status[n + 9..]))
    else None
  }

  /** The status tells success from failure and carries the failure's message verbatim. */
  lemma StatusRoundTrip(expname: string, outcome: Outcome<string>)
    ensures ParseStatus(expname, Status(expname, outcome)) == Some(outcome)
  {
    var s, n := Status(expname, outcome), |expname| + 2;
    assert s[..n] == expname + ": ";
    match outcome
    case Pass =>
      assert s[n..] == "SUCCESS";
    case Fail(m) =>
      assert s[n..] == "FAILED - " + m;
      assert s[n..][0] == 'F';
      assert s[n..n + 9] == "FAILED - ";
      assert s[n + 9..] == m;
  }

  // ---------------------------------------------------------------------
  // Properties of the specification.

  /** The `get` calls of the first k samples all return. */
  predicate GetsPass(env: Environment, varmed: seq<seq<string>>, k: nat)
    requires k <= |varmed|
  {
    forall j :: 0 <= j < k ==> env.get(GetCall(j, SIZE_I, varmed[j], VERBOSE)).outcome.Pass?
  }

  lemma GetsPassStep(env: Environment, varmed: seq<seq<string>>, k: nat)
    requires 0 < k <= |varmed|
    ensures GetsPass(env, varmed, k) <==>
      GetsPass(env, varmed, k - 1) && env.get(GetCall(k - 1, SIZE_I, varmed[k - 1], VERBOSE)).outcome.Pass?
  {
  }

  /** Stage 4 succeeds on k samples iff every one of their `get` calls passes. */
  lemma {:induction false} SamplesPassIff(env: Environment, varmed: seq<seq<string>>, k: nat)
    requires k <= |varmed|
    ensures SamplesUpTo(env, varmed, k).outcome.Pass? <==> GetsPass(env, varmed, k)
  {
    if k > 0 {
      SamplesPassIff(env, varmed, k - 1);
      var prev := SamplesUpTo(env, varmed, k - 1);
      assert SamplesUpTo(env, varmed, k) == SampleStep(env, varmed, prev, k - 1);
      GetsPassStep(env, varmed, k);
    }
  }

  /** Once a sample has failed, no later sample runs. */
  lemma {:induction false} SamplesStayFailed(env: Environment, varmed: seq<seq<string>>, k: nat, m: nat)
    requires k <= m <= |varmed| && SamplesUpTo(env, varmed, k).outcome.Fail?
    ensures SamplesUpTo(env, varmed, m) == SamplesUpTo(env, varmed, k)
  {
    if m > k {
      SamplesStayFailed(env, varmed, k, m - 1);
    }
  }

  /** A sample writes no terminal line. */
  lemma AttemptNotTerminal(k: nat, n: nat, run: SampleRun)
    ensures Keep(Attempt(k, n, run), Terminal) == []
  {
    var tried := [Processing(k, n)] + BuilderLines(run.logged);
    KeepHead(Processing(k, n), run.logged, Terminal);
    KeepConcat(tried, Closing(k, n, run), Terminal);
    if run.outcome.Pass? {
      KeepSnoc([], Completed(k, n), Terminal);
    }
  }

  /** A sample's markers: its "Processing" line, then its "completed" line if `get` returned. */
  lemma AttemptMarkers(k: nat, n: nat, run: SampleRun)
    ensures Keep(Attempt(k, n, run), Marker) ==
      if run.outcome.Pass? then [Processing(k, n), Completed(k, n)] else [Processing(k, n)]
  {
    var tried := [Processing(k, n)] + BuilderLines(run.logged);
    KeepHead(Processing(k, n), run.logged, Marker);
    KeepConcat(tried, Closing(k, n, run), Marker);
    if run.outcome.Pass? {
      KeepSnoc([], Completed(k, n), Marker);
    }
  }

  lemma SamplesNotTerminalStep(env: Environment, varmed: seq<seq<string>>, k: nat)
    requires 0 < k <= |varmed| && Keep(SamplesUpTo(env, varmed, k - 1).events, Terminal) == []
    ensures Keep(SamplesUpTo(env, varmed, k).events, Terminal) == []
  {
    var prev := SamplesUpTo(env, varmed, k - 1);
    if prev.outcome.Pass? {
      var run := env.get(GetCall(k - 1, SIZE_I, varmed[k - 1], VERBOSE));
      AttemptNotTerminal(k, |varmed|, run);
      KeepConcat(prev.events, Attempt(k, |varmed|, run), Terminal);
    }
    SamplesNext(env, varmed, k);
  }

  /**
   * Sample k after the first k-1: nothing changes once one of those failed;
   * otherwise its attempt is appended, and its list accumulated if `get` returns.
   */
  lemma SamplesNext(env: Environment, varmed: seq<seq<string>>, k: nat)
    requires 0 < k <= |varmed|
    ensures var prev, next := SamplesUpTo(env, varmed, k - 1), SamplesUpTo(env, varmed, k);
      var run := env.get(GetCall(k - 1, SIZE_I, varmed[k - 1], VERBOSE));
      if prev.outcome.Fail? then
        next.events == prev.events && next.outcome == prev.outcome && next.simulated == prev.simulated
      else
        next.events == prev.events + Attempt(k, |varmed|, run) && next.outcome == run.outcome &&
        next.simulated == if run.outcome.Pass? then prev.simulated + [varmed[k - 1]] else prev.simulated
  {
  }

  /** Stage 4 accumulates one list per sample that returned. */
  lemma {:induction false} SamplesCount(env: Environment, varmed: seq<seq<string>>, k: nat)
    requires k <= |varmed|
    ensures SamplesUpTo(env, varmed, k).outcome.Pass? ==> |SamplesUpTo(env, varmed, k).simulated| == k
  {
    if k > 0 {
      SamplesCount(env, varmed, k - 1);
      SamplesNext(env, varmed, k);
    }
  }

  /**
   * The samples accumulated are a prefix of the variable-medium lists: all k
   * of them when stage 4 passes, fewer than k when one raised.
   */
  lemma {:induction false} SamplesPrefix(env: Environment, varmed: seq<seq<string>>, k: nat)
    requires k <= |varmed|
    ensures SamplesUpTo(env, varmed, k).outcome.Pass? ==> SamplesUpTo(env, varmed, k).simulated == varmed[..k]
    ensures SamplesUpTo(env, varmed, k).outcome.Fail? ==>
      |SamplesUpTo(env, varmed, k).simulated| < k &&
      SamplesUpTo(env, varmed, k).simulated == varmed[..|SamplesUpTo(env, varmed, k).simulated|]
  {
    if k > 0 {
      SamplesPrefix(env, varmed, k - 1);
      assert varmed[..k] == varmed[..k - 1] + [varmed[k - 1]];
    }
  }

  /** No line of stage 4 is a terminal one. */
  lemma {:induction false} SamplesNotTerminal(env: Environment, varmed: seq<seq<string>>, k: nat)
    requires k <= |varmed|
    ensures Keep(SamplesUpTo(env, varmed, k).events, Terminal) == []
  {
    if k > 0 {
      SamplesNotTerminal(env, varmed, k - 1);
      SamplesNotTerminalStep(env, varmed, k);
    }
  }

  /** After m completed samples, sample m+1 extends the alternation or leaves its "Processing" line last. */
  lemma MarkersAfterAttempt(evs: seq<Event>, m: nat, n: nat, run: SampleRun)
    requires Keep(evs, Marker) == MarkerLines(m, n, false)
    ensures Keep(evs + Attempt(m + 1, n, run), Marker) ==
      MarkerLines(if run.outcome.Pass? then m + 1 else m, n, run.outcome.Fail?)
  {
    AttemptMarkers(m + 1, n, run);
    KeepConcat(evs, Attempt(m + 1, n, run), Marker);
  }

  lemma SamplesMarkersStep(env: Environment, varmed: seq<seq<string>>, k: nat)
    requires 0 < k <= |varmed|
    requires var r := SamplesUpTo(env, varmed, k - 1);
      Keep(r.events, Marker) == MarkerLines(|r.simulated|, |varmed|, r.outcome.Fail?)
    ensures var r := SamplesUpTo(env, varmed, k);
      Keep(r.events, Marker) == MarkerLines(|r.simulated|, |varmed|, r.outcome.Fail?)
  {
    var prev, next, n := SamplesUpTo(env, varmed, k - 1), SamplesUpTo(env, varmed, k), |varmed|;
    SamplesNext(env, varmed, k);
    if prev.outcome.Pass? {
      var run := env.get(GetCall(k - 1, SIZE_I, varmed[k - 1], VERBOSE));
      SamplesCount(env, varmed, k - 1);
      MarkersAfterAttempt(prev.events, k - 1, n, run);
      assert |next.simulated| == if run.outcome.Pass? then k else k - 1;
    }
  }

  lemma {:induction false} SamplesMarkers(env: Environment, varmed: seq<seq<string>>, k: nat)
    requires k <= |varmed|
    ensures var r := SamplesUpTo(env, varmed, k);
      Keep(r.events, Marker) == MarkerLines(|r.simulated|, |varmed|, r.outcome.Fail?)
  {
    if k > 0 {
      SamplesMarkers(env, varmed, k - 1);
      SamplesMarkersStep(env, varmed, k);
    }
  }

  /** The k-th entry of a transcript carries the k-th event's message and the k-th clock reading. */
  lemma {:induction false} TranscriptAt(clock: nat -> ValidTimestamp, evs: seq<Event>)
    ensures forall k :: 0 <= k < |evs| ==> Transcript(clock, evs)[k] == Entry(clock(k), Message(evs[k]))
  {
    if evs != [] {
      var init := evs[..|evs| - 1];
      TranscriptAt(clock, init);
      forall k | 0 <= k < |evs|
        ensures Transcript(clock, evs)[k] == Entry(clock(k), Message(evs[k]))
      {
        if k < |init| {
          assert evs[k] == init[k];
        }
      }
    }
  }

  /**
   * The log of events `evs`, read back one `log` call at a time, gives each
   * event's message and the clock reading (to the second) taken when it was written.
   */
  lemma TranscriptReadBack(clock: nat -> ValidTimestamp, evs: seq<Event>)
    ensures |Render(Transcript(clock, evs))| == |evs|
    ensures forall k :: 0 <= k < |evs| ==>
      (|Render(Transcript(clock, evs))[k]| >= 23 &&
       MessageOf(Render(Transcript(clock, evs))[k]) == Message(evs[k]) &&
       StampOf(Render(Transcript(clock, evs))[k]) == clock(k).(microsecond := 0))
  {
    TranscriptAt(clock, evs);
    RenderReadBack(Transcript(clock, evs));
  }

  /** Dropping a tail none of whose elements satisfy `p` does not change what `Keep` selects. */
  lemma KeepTail(s: seq<Event>, t: seq<Event>, f: Filter)
    requires forall k :: 0 <= k < |t| ==> !Selects(f, t[k])
    ensures Keep(s + t, f) == Keep(s, f)
  {
    KeepConcat(s, t, f);
    KeepNone(t, f);
  }

  /** Neither a terminal line nor a sample marker. */
  predicate Quiet(ev: Event) {
    !Selects(Terminal, ev) && !Selects(Marker, ev)
  }

  predicate AllQuiet(s: seq<Event>) {
    forall k :: 0 <= k < |s| ==> Quiet(s[k])
  }

  lemma AllQuietConcat(a: seq<Event>, b: seq<Event>)
    requires AllQuiet(a) && AllQuiet(b)
    ensures AllQuiet(a + b)
  {
    assert forall k :: 0 <= k < |b| ==> (a + b)[|a| + k] == b[k];
  }

  /** Stage 1 opens with the start line and logs neither a terminal line nor a sample marker. */
  lemma LoadQuiet(expname: string, env: Environment)
    ensures |LoadExperiment(expname, env).events| >= 2
    ensures LoadExperiment(expname, env).events[0] == Started(expname)
    ensures AllQuiet(LoadExperiment(expname, env).events)
  {
    var opening := [Started(expname), ReadingExperiment(ExpFile(expname))];
    assert AllQuiet(opening);
    match env.readCsv(ExpFile(expname) + ".csv")
    case Failure(_) =>
    case Success(columns) =>
      var building := [CreatingTrainingSet(columns - 1)];
      AllQuietConcat(opening, building);
      match env.trainingSet(ExpArgs(expname, columns - 1))
      case Failure(_) =>
      case Success(first) =>
        AllQuietConcat(opening + building, [Shape(|first.x.cells|, first.x.cols)]);
  }

  /** Stages 1 to 3 open with the start line and log neither a terminal line nor a sample marker. */
  lemma PrepareQuiet(expname: string, env: Environment)
    ensures |Prepare(expname, env).events| >= 2 && Prepare(expname, env).events[0] == Started(expname)
    ensures Keep(Prepare(expname, env).events, Terminal) == []
    ensures Keep(Prepare(expname, env).events, Marker) == []
  {
    var l, evs := LoadExperiment(expname, env), Prepare(expname, env).events;
    LoadQuiet(expname, env);
    if l.outcome.Pass? {
      AllQuietConcat(l.events, [ReadingMedium(MediumFile(expname))]);
      AllQuietConcat(l.events + [ReadingMedium(MediumFile(expname))], [CreatingVarmed]);
    }
    assert AllQuiet(evs);
    KeepNone(evs, Terminal);
    KeepNone(evs, Marker);
  }

  /** Stage 5 logs no sample marker, and its only terminal line is the success line, when the save returns. */
  lemma SaveStageLines(expname: string, env: Environment, mediumbound: string)
    ensures Keep(SaveStage(expname, env, mediumbound).events, Marker) == []
    ensures Keep(SaveStage(expname, env, mediumbound).events, Terminal) ==
      if SaveStage(expname, env, mediumbound).outcome.Pass? then [Succeeded(expname)] else []
  {
    var saving := [Saving(TrainingFile(expname, mediumbound))];
    KeepSnoc([], saving[0], Marker);
    KeepSnoc([], saving[0], Terminal);
    KeepSnoc(saving, Succeeded(expname), Marker);
    KeepSnoc(saving, Succeeded(expname), Terminal);
  }

  /** The two lines that open stage 4 are quiet. */
  lemma GeneratingKeep(p: Prepared, f: Filter)
    ensures Keep(Generating(p), f) == Keep(p.events, f)
  {
    KeepTail(p.events, [VarmedCreated(|p.varmed|), StartingGeneration(p.rows, SIZE_I)], f);
  }

  /** After stage 3, only the success line is terminal. */
  lemma CompleteTerminal(expname: string, env: Environment, p: Prepared)
    requires Keep(p.events, Terminal) == []
    ensures Keep(Complete(expname, env, p).events, Terminal) ==
      if Complete(expname, env, p).outcome.Pass? then [Succeeded(expname)] else []
  {
    var sampled := SamplesUpTo(env, p.varmed, |p.varmed|);
    GeneratingKeep(p, Terminal);
    SamplesNotTerminal(env, p.varmed, |p.varmed|);
    KeepConcat(Generating(p), sampled.events, Terminal);
    if sampled.outcome.Pass? {
      SaveStageLines(expname, env, p.mediumbound);
      KeepConcat(Generating(p) + sampled.events, SaveStage(expname, env, p.mediumbound).events, Terminal);
    }
  }

  /** The body of the `try` block logs the success line at its end, and no other terminal line. */
  lemma StagesTerminal(expname: string, env: Environment)
    ensures Keep(Stages(expname, env).events, Terminal) ==
      if Stages(expname, env).outcome.Pass? then [Succeeded(expname)] else []
  {
    var p := Prepare(expname, env);
    PrepareQuiet(expname, env);
    if p.outcome.Pass? {
      CompleteTerminal(expname, env, p);
    }
  }

  /** The stages' events begin with those of stages 1 to 3. */
  lemma CompleteStart(expname: string, env: Environment, p: Prepared)
    ensures |Complete(expname, env, p).events| >= |p.events|
    ensures Complete(expname, env, p).events[..|p.events|] == p.events
  {
    var sampled := SamplesUpTo(env, p.varmed, |p.varmed|);
    var evs := Complete(expname, env, p).events;
    assert evs[..|Generating(p)|] == Generating(p);
    assert Generating(p)[..|p.events|] == p.events;
  }

  /** A task's first line is the start line. */
  lemma StagesStart(expname: string, env: Environment)
    ensures |Stages(expname, env).events| >= 2 && Stages(expname, env).events[0] == Started(expname)
  {
    var p := Prepare(expname, env);
    PrepareQuiet(expname, env);
    if p.outcome.Pass? {
      CompleteStart(expname, env, p);
      assert Stages(expname, env).events[0] == Stages(expname, env).events[..|p.events|][0];
    }
  }

  /** On success, the stages' last line is the success line. */
  lemma StagesEnd(expname: string, env: Environment)
    ensures Stages(expname, env).outcome.Pass? ==>
      |Stages(expname, env).events| >= 1 &&
      Stages(expname, env).events[|Stages(expname, env).events| - 1] == Succeeded(expname)
  {
    var p := Prepare(expname, env);
    if p.outcome.Pass? && SamplesUpTo(env, p.varmed, |p.varmed|).outcome.Pass? {
      var saved := SaveStage(expname, env, p.mediumbound);
      var evs := Generating(p) + SamplesUpTo(env, p.varmed, |p.varmed|).events + saved.events;
      if saved.outcome.Pass? {
        assert evs[|evs| - 1] == saved.events[1];
      }
    }
  }

  /** What follows the stages holds the ERROR line, and only on failure. */
  lemma EpilogueTerminal(expname: string, env: Environment, outcome: Outcome<string>)
    ensures Keep(Epilogue(expname, env, outcome), Terminal) ==
      match outcome
      case Pass => []
      case Fail(m) => [Errored(expname, m)]
  {
    if outcome.Fail? {
      var m := outcome.error;
      KeepSnoc([], Errored(expname, m), Terminal);
      KeepSnoc([Errored(expname, m)], Traceback(env.formatExc(m)), Terminal);
      assert [Errored(expname, m)] + [Traceback(env.formatExc(m))] == Epilogue(expname, env, outcome);
    }
  }

  /** A task's log starts with the start line. */
  lemma TraceStart(expname: string, env: Environment)
    ensures |Trace(expname, env)| >= 2 && Trace(expname, env)[0] == Started(expname)
  {
    var r := Stages(expname, env);
    StagesStart(expname, env);
    assert Trace(expname, env)[0] == r.events[0];
  }

  /**
   * A task's log holds exactly one terminal line: the success line, last, or
   * the ERROR line carrying the failure's message, followed only by the
   * traceback.
   */
  lemma TraceTerminatesOnce(expname: string, env: Environment)
    ensures Stages(expname, env).outcome.Pass? ==>
      Keep(Trace(expname, env), Terminal) == [Succeeded(expname)] &&
      Trace(expname, env)[|Trace(expname, env)| - 1] == Succeeded(expname)
    ensures Stages(expname, env).outcome.Fail? ==>
      var m := Stages(expname, env).outcome.error;
      Keep(Trace(expname, env), Terminal) == [Errored(expname, m)] &&
      Trace(expname, env)[|Trace(expname, env)| - 2..] == [Errored(expname, m), Traceback(env.formatExc(m))]
  {
    var r := Stages(expname, env);
    var tail := Epilogue(expname, env, r.outcome);
    StagesTerminal(expname, env);
    EpilogueTerminal(expname, env, r.outcome);
    KeepConcat(r.events, tail, Terminal);
    if r.outcome.Pass? {
      StagesEnd(expname, env);
      EpilogueAppend(r.events, expname, env, r.outcome);
    } else {
      assert Trace(expname, env)[|Trace(expname, env)| - 2..] == tail;
    }
  }

  /** Whether stage 4 was reached and one of its samples raised. */
  predicate SampleFailed(expname: string, env: Environment) {
    var p := Prepare(expname, env);
    p.outcome.Pass? && SamplesUpTo(env, p.varmed, |p.varmed|).outcome.Fail?
  }

  /**
   * Samples are accumulated in ascending order: the ones the training set
   * holds are a prefix of the variable-medium lists, and all of them when the
   * task succeeds.
   */
  lemma SamplesAccumulate(expname: string, env: Environment)
    ensures |Stages(expname, env).simulated| <= |Prepare(expname, env).varmed| &&
      Stages(expname, env).simulated == Prepare(expname, env).varmed[..|Stages(expname, env).simulated|]
    ensures Stages(expname, env).outcome.Pass? ==>
      |Stages(expname, env).simulated| == |Prepare(expname, env).varmed| == Prepare(expname, env).rows
  {
    var p := Prepare(expname, env);
    if p.outcome.Pass? {
      var sampled := SamplesUpTo(env, p.varmed, |p.varmed|);
      SamplesPrefix(env, p.varmed, |p.varmed|);
      assert Stages(expname, env).simulated == sampled.simulated;
      assert p.varmed[..|p.varmed|] == p.varmed;
    }
  }

  /** The ERROR line and the traceback are not sample markers. */
  lemma EpilogueMarkers(expname: string, env: Environment)
    ensures Keep(Trace(expname, env), Marker) == Keep(Stages(expname, env).events, Marker)
  {
    var r := Stages(expname, env);
    var tail := Epilogue(expname, env, r.outcome);
    assert Trace(expname, env) == r.events + tail;
    KeepTail(r.events, tail, Marker);
  }

  /** The sample markers of the stages, as `SamplesInOrder` states them for the whole log. */
  lemma StagesMarkers(expname: string, env: Environment)
    ensures Keep(Stages(expname, env).events, Marker) ==
      MarkerLines(|Stages(expname, env).simulated|, |Prepare(expname, env).varmed|, SampleFailed(expname, env))
  {
    var p := Prepare(expname, env);
    PrepareQuiet(expname, env);
    if p.outcome.Pass? {
      CompleteMarkers(expname, env, p);
      SamplesMarkers(env, p.varmed, |p.varmed|);
    }
  }

  /**
   * The log's sample markers are "Processing sample i/N" then "Sample i/N
   * completed" for i = 1..m, m the number of samples accumulated, then the
   * "Processing" line of the sample that raised, if one did.
   */
  lemma SamplesInOrder(expname: string, env: Environment)
    ensures Keep(Trace(expname, env), Marker) ==
      MarkerLines(|Stages(expname, env).simulated|, |Prepare(expname, env).varmed|, SampleFailed(expname, env))
  {
    EpilogueMarkers(expname, env);
    StagesMarkers(expname, env);
  }

  /** After stage 3, the sample markers are exactly those of stage 4. */
  lemma CompleteMarkers(expname: string, env: Environment, p: Prepared)
    requires Keep(p.events, Marker) == []
    ensures Keep(Complete(expname, env, p).events, Marker) ==
      Keep(SamplesUpTo(env, p.varmed, |p.varmed|).events, Marker)
  {
    var sampled := SamplesUpTo(env, p.varmed, |p.varmed|);
    GeneratingKeep(p, Marker);
    KeepConcat(Generating(p), sampled.events, Marker);
    if sampled.outcome.Pass? {
      SaveStageLines(expname, env, p.mediumbound);
      KeepConcat(Generating(p) + sampled.events, SaveStage(expname, env, p.mediumbound).events, Marker);
    }
  }

  /** The try block completes exactly when every stage succeeds. */
  lemma StagesPassIff(expname: string, env: Environment)
    ensures Stages(expname, env).outcome.Pass? <==> AllStagesSucceed(expname, env)
  {
    var p := Prepare(expname, env);
    if p.outcome.Pass? {
      SamplesPassIff(env, p.varmed, |p.varmed|);
    }
    match env.readCsv(ExpFile(expname) + ".csv")
    case Failure(_) =>
    case Success(columns) =>
      match env.trainingSet(ExpArgs(expname, columns - 1))
      case Failure(_) =>
      case Success(first) =>
        match env.trainingSet(SimArgs(expname))
        case Failure(_) =>
        case Success(param) =>
          var d := Derive(first.x, param.levmed, param.medium);
          if d.Built? {
            SamplesPassIff(env, d.varmed, |d.varmed|);
          }
  }

  /** The status reads SUCCESS exactly when every stage succeeded. */
  lemma StatusSuccessIff(expname: string, env: Environment)
    ensures Status(expname, Stages(expname, env).outcome) == expname + ": SUCCESS" <==> AllStagesSucceed(expname, env)
  {
    StagesPassIff(expname, env);
    var outcome := Stages(expname, env).outcome;
    if outcome.Fail? {
      var s, n := Status(expname, outcome), |expname| + 2;
      assert s[n] == 'F' && (expname + ": SUCCESS")[n] == 'S';
    }
  }

  // ---------------------------------------------------------------------
  // The task as it runs: the training-set object, the log, the stages.

  /**
   * A constructed `TrainingSet`: the arrays the pipeline reads, and the
   * samples it has accumulated through `get` (in call order).
   */
  class TrainingSet {
    const env: Environment
    const param: Parameter
    var simulated: seq<seq<string>>

    constructor (env: Environment, param: Parameter)
      ensures this.env == env && this.param == param && simulated == []
    {
      this.env := env;
      this.param := param;
      simulated := [];
    }

    /**
     * `parameter.get(sample_size=..., varmed=..., verbose=..., log_func=log)`:
     * the library's lines go to the task's log, and a sample that returns is
     * accumulated.
     */
    method Get(sampleSize: nat, varmed: seq<string>, verbose: bool, log: TaskLog, ghost evs: seq<Event>)
      returns (out: Outcome<string>)
      requires !log.closed && log.entries == Transcript(log.clock, evs)
      modifies this, log
      ensures !log.closed
      ensures out == env.get(GetCall(|old(simulated)|, sampleSize, varmed, verbose)).outcome
      ensures log.entries ==
        Transcript(log.clock, evs + BuilderLines(env.get(GetCall(|old(simulated)|, sampleSize, varmed, verbose)).logged))
      ensures simulated == if out.Pass? then old(simulated) + [varmed] else old(simulated)
    {
      var run := env.get(GetCall(|simulated|, sampleSize, varmed, verbose));
      ghost var cur := evs;
      var k := 0;
      assert run.logged[..0] == [];
      while k < |run.logged|
        invariant 0 <= k <= |run.logged|
        invariant !log.closed && simulated == old(simulated)
        invariant cur == evs + BuilderLines(run.logged[..k])
        invariant log.entries == Transcript(log.clock, cur)
      {
        cur := Emit(log, cur, BuilderLine(run.logged[k]));
        BuilderLinesSnoc(run.logged, k);
        k := k + 1;
      }
      assert run.logged[..k] == run.logged;
      out := run.outcome;
      if out.Pass? {
        simulated := simulated + [varmed];
      }
    }

    /** `parameter.save(trainingfile, reduce=reduce)` */
    method Save(path: string, reduce: bool) returns (out: Outcome<string>)
      ensures out == env.save(path, reduce)
    {
      out := env.save(path, reduce);
    }
  }

  /** `TrainingSet(...)`: a fresh object, or the message of what the constructor raised. */
  method NewTrainingSet(env: Environment, args: TrainingSetArgs) returns (r: Result<TrainingSet, string>)
    ensures r.Failure? <==> env.trainingSet(args).Failure?
    ensures r.Failure? ==> r.error == env.trainingSet(args).error
    ensures r.Success? ==> fresh(r.value) && r.value.env == env && r.value.simulated == []
    ensures r.Success? ==> r.value.param == env.trainingSet(args).value
  {
    match env.trainingSet(args)
    case Failure(m) =>
      r := Failure(m);
    case Success(p) =>
      var built := new TrainingSet(env, p);
      r := Success(built);
  }

  lemma Regroup(a: seq<Event>, b: seq<Event>, c: seq<Event>)
    ensures a + (b + c) == a + b + c
  {
  }

  /** `log(message)` for one event, keeping the log equal to the transcript of the events so far. */
  method Emit(log: TaskLog, ghost evs: seq<Event>, ev: Event) returns (ghost evs': seq<Event>)
    requires !log.closed && log.entries == Transcript(log.clock, evs)
    modifies log
    ensures !log.closed && evs' == evs + [ev] && log.entries == Transcript(log.clock, evs')
  {
    TranscriptSnoc(log.clock, evs, ev);
    log.Write(Message(ev));
    evs' := evs + [ev];
  }

  /** Stage 1 of the `try` block, logging as it goes. */
  method LoadStage(expname: string, env: Environment, log: TaskLog) returns (outcome: Outcome<string>, x: Matrix)
    requires !log.closed && log.entries == []
    modifies log
    ensures !log.closed
    ensures log.entries == Transcript(log.clock, LoadExperiment(expname, env).events)
    ensures outcome == LoadExperiment(expname, env).outcome
    ensures outcome.Pass? ==> x == LoadExperiment(expname, env).x
  {
    x := Grid(0, []);
    ghost var evs: seq<Event> := [];
    evs := Emit(log, evs, Started(expname));
    var expfile := ExpFile(expname);
    evs := Emit(log, evs, ReadingExperiment(expfile));
    var table := env.readCsv(expfile + ".csv");
    if table.Failure? {
      assert evs == LoadExperiment(expname, env).events;
      return Fail(table.error), x;
    }
    var mediumsize := table.value as int - 1;
    evs := Emit(log, evs, CreatingTrainingSet(mediumsize));
    var first := NewTrainingSet(env, ExpArgs(expname, mediumsize));
    if first.Failure? {
      assert evs == LoadExperiment(expname, env).events;
      return Fail(first.error), x;
    }
    x := first.value.param.x;
    evs := Emit(log, evs, Shape(|x.cells|, x.cols));
    assert evs == LoadExperiment(expname, env).events;
    outcome := Pass;
  }

  /** Stages 1 to 3 of the `try` block, logging as they go. */
  method PrepareStages(expname: string, env: Environment, log: TaskLog)
    returns (outcome: Outcome<string>, parameter: TrainingSet?, rows: nat, varmed: seq<seq<string>>)
    requires !log.closed && log.entries == []
    modifies log
    ensures !log.closed
    ensures log.entries == Transcript(log.clock, Prepare(expname, env).events)
    ensures outcome == Prepare(expname, env).outcome
    ensures outcome.Pass? ==> parameter != null && fresh(parameter)
    ensures outcome.Pass? ==> parameter.env == env && parameter.simulated == []
    ensures outcome.Pass? ==> parameter.param.mediumbound == Prepare(expname, env).mediumbound
    ensures outcome.Pass? ==> rows == Prepare(expname, env).rows && varmed == Prepare(expname, env).varmed
  {
    parameter, rows, varmed := null, 0, [];
    var x;
    outcome, x := LoadStage(expname, env, log);
    if outcome.Fail? {
      return;
    }
    ghost var evs := LoadExperiment(expname, env).events;
    evs := Emit(log, evs, ReadingMedium(MediumFile(expname)));
    var second := NewTrainingSet(env, SimArgs(expname));
    if second.Failure? {
      return Fail(second.error), parameter, rows, varmed;
    }
    parameter := second.value;
    evs := Emit(log, evs, CreatingVarmed);
    var derived := BuildVarmed(x, parameter.param.levmed, parameter.param.medium);
    if derived.OutOfRange? {
      return Fail(env.indexError(derived.row, derived.col)), parameter, rows, varmed;
    }
    rows, varmed := |x.cells|, derived.varmed;
    outcome := Pass;
  }

  /** Sample i of stage 4: log "Processing", call `get` (its lines go to the log), log "completed" if it returned. */
  method RunSample(env: Environment, parameter: TrainingSet, varmed: seq<seq<string>>, i: nat,
                   log: TaskLog, ghost evs: seq<Event>)
    returns (got: Outcome<string>)
    requires i < |varmed| && parameter.env == env && |parameter.simulated| == i
    requires !log.closed && log.entries == Transcript(log.clock, evs)
    modifies log, parameter
    ensures !log.closed
    ensures got == env.get(GetCall(i, SIZE_I, varmed[i], VERBOSE)).outcome
    ensures parameter.simulated == if got.Pass? then old(parameter.simulated) + [varmed[i]] else old(parameter.simulated)
    ensures log.entries == Transcript(log.clock, evs + Attempt(i + 1, |varmed|, env.get(GetCall(i, SIZE_I, varmed[i], VERBOSE))))
  {
    ghost var run := env.get(GetCall(i, SIZE_I, varmed[i], VERBOSE));
    AttemptAppend(evs, i + 1, |varmed|, run);
    ghost var cur := Emit(log, evs, Processing(i + 1, |varmed|));
    got := parameter.Get(SIZE_I, varmed[i], VERBOSE, log, cur);
    if got.Pass? {
      cur := Emit(log, cur + BuilderLines(run.logged), Completed(i + 1, |varmed|));
    }
  }

  /** Stage 4: the samples in ascending order, stopping at the first whose `get` raises. */
  method RunSamples(env: Environment, parameter: TrainingSet, rows: nat, varmed: seq<seq<string>>,
                    log: TaskLog, ghost before: seq<Event>)
    returns (outcome: Outcome<string>)
    requires rows == |varmed| && parameter.env == env && parameter.simulated == []
    requires !log.closed && log.entries == Transcript(log.clock, before)
    modifies log, parameter
    ensures !log.closed
    ensures outcome == SamplesUpTo(env, varmed, rows).outcome
    ensures parameter.simulated == SamplesUpTo(env, varmed, rows).simulated
    ensures log.entries == Transcript(log.clock, before + SamplesUpTo(env, varmed, rows).events)
  {
    assert before + [] == before;
    var i := 0;
    while i < rows
      invariant 0 <= i <= rows
      invariant !log.closed
      invariant SamplesUpTo(env, varmed, i).outcome.Pass?
      invariant parameter.simulated == SamplesUpTo(env, varmed, i).simulated && |parameter.simulated| == i
      invariant log.entries == Transcript(log.clock, before + SamplesUpTo(env, varmed, i).events)
    {
      ghost var prev := SamplesUpTo(env, varmed, i);
      SamplesNext(env, varmed, i + 1);
      ghost var attempt := Attempt(i + 1, |varmed|, env.get(GetCall(i, SIZE_I, varmed[i], VERBOSE)));
      outcome := RunSample(env, parameter, varmed, i, log, before + prev.events);
      Regroup(before, prev.events, attempt);
      if outcome.Fail? {
        SamplesStayFailed(env, varmed, i + 1, rows);
        return;
      }
      i := i + 1;
    }
    outcome := Pass;
  }

  /** Stage 5: log "Saving", save the training file, log the success line if the save returned. */
  method SaveTrainingFile(expname: string, parameter: TrainingSet, log: TaskLog, ghost evs: seq<Event>)
    returns (outcome: Outcome<string>)
    requires !log.closed && log.entries == Transcript(log.clock, evs)
    modifies log
    ensures !log.closed
    ensures outcome == SaveStage(expname, parameter.env, parameter.param.mediumbound).outcome
    ensures log.entries == Transcript(log.clock, evs + SaveStage(expname, parameter.env, parameter.param.mediumbound).events)
  {
    var trainingfile := TrainingFile(expname, parameter.param.mediumbound);
    ghost var cur := Emit(log, evs, Saving(trainingfile));
    outcome := parameter.Save(trainingfile, REDUCE);
    if outcome.Pass? {
      cur := Emit(log, cur, Succeeded(expname));
    }
    assert cur == evs + SaveStage(expname, parameter.env, parameter.param.mediumbound).events;
  }

  /** The `try` block up to the success line: returns Pass, or Fail with the message of what raised. */
  method RunStages(expname: string, env: Environment, log: TaskLog) returns (outcome: Outcome<string>)
    requires !log.closed && log.entries == []
    modifies log
    ensures !log.closed
    ensures outcome == Stages(expname, env).outcome
    ensures log.entries == Transcript(log.clock, Stages(expname, env).events)
  {
    ghost var p := Prepare(expname, env);
    var parameter, rows, varmed;
    outcome, parameter, rows, varmed := PrepareStages(expname, env, log);
    if outcome.Fail? {
      return;
    }
    ghost var evs := Emit(log, p.events, VarmedCreated(|varmed|));
    evs := Emit(log, evs, StartingGeneration(rows, SIZE_I));
    assert evs == Generating(p);
    ghost var sampled := SamplesUpTo(env, varmed, rows);
    outcome := RunSamples(env, parameter, rows, varmed, log, evs);
    if outcome.Fail? {
      return;
    }
    outcome := SaveTrainingFile(expname, parameter, log, evs + sampled.events);
  }

  /**
   * `create_random_medium_from_cobra(expname)`: open this attempt's log, run
   * the stages; on success close the log and report success; on any failure
   * log the ERROR line and the traceback, close the log, report the message.
   */
  method CreateRandomMedium(expname: string, env: Environment, openedAt: ValidTimestamp, clock: nat -> ValidTimestamp)
    returns (status: string, log: TaskLog)
    ensures fresh(log) && log.path == LogFilePath(LOG_DIR, expname, openedAt) && log.clock == clock
    ensures log.closed
    ensures log.entries == Transcript(clock, Trace(expname, env))
    ensures status == Status(expname, Stages(expname, env).outcome)
  {
    log := new TaskLog.Open(LOG_DIR, expname, openedAt, clock);
    ghost var r := Stages(expname, env);
    EpilogueAppend(r.events, expname, env, r.outcome);
    var outcome := RunStages(expname, env, log);
    match outcome
    case Pass =>
      log.Close();
      status := expname + ": SUCCESS";
    case Fail(m) =>
      ghost var evs := Emit(log, r.events, Errored(expname, m));
      evs := Emit(log, evs, Traceback(env.formatExc(m)));
      log.Close();
      status := expname + ": FAILED - " + m;
  }
}
