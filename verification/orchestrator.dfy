/**
 * `main`: one task per experiment directory, results collected in the order
 * of the directory listing. The worker pool is modelled as a loop over the
 * experiments in that order; each task has its own environment, log-opening
 * time and clock.
 */
module Orchestrator {
  import opened Wrappers
  import opened Timestamps
  import opened TaskLog
  import opened Pipeline

  /** Number of worker processes in the pool; it does not change any result. */
  const PARALLEL_LEVEL := 16

  /** The list `p.map` returns: the k-th entry is the status of the k-th experiment, whatever the other tasks did. */
  function Summary(expnames: seq<string>, world: nat -> Environment): (statuses: seq<string>)
    ensures |statuses| == |expnames|
  {
    seq(|expnames|, k requires 0 <= k < |expnames| => Status(expnames[k], Stages(expnames[k], world(k)).outcome))
  }

  /**
   * The summary reports SUCCESS for an experiment exactly when all of its
   * stages succeeded, and otherwise carries its failure's message verbatim.
   */
  lemma SummaryReports(expnames: seq<string>, world: nat -> Environment, k: nat)
    requires k < |expnames|
    ensures Summary(expnames, world)[k] == expnames[k] + ": SUCCESS" <==> AllStagesSucceed(expnames[k], world(k))
    ensures ParseStatus(expnames[k], Summary(expnames, world)[k]) == Some(Stages(expnames[k], world(k)).outcome)
  {
    StatusSuccessIff(expnames[k], world(k));
    StatusRoundTrip(expnames[k], Stages(expnames[k], world(k)).outcome);
  }

  /**
   * Tasks run side by side without sharing files: distinct experiments write
   * distinct log files whatever their opening times, and save to distinct
   * training files under one bound label.
   */
  lemma TasksDoNotShareFiles(e1: string, t1: ValidTimestamp, e2: string, t2: ValidTimestamp, mediumbound: string)
    requires e1 != e2
    ensures LogFilePath(LOG_DIR, e1, t1) != LogFilePath(LOG_DIR, e2, t2)
    ensures TrainingFile(e1, mediumbound) != TrainingFile(e2, mediumbound)
  {
    if LogFilePath(LOG_DIR, e1, t1) == LogFilePath(LOG_DIR, e2, t2) {
      LogFilePathInjective(LOG_DIR, e1, t1, e2, t2);
    }
    TrainingFileInjective(e1, e2, mediumbound);
  }

  /**
   * `p.map(create_random_medium_from_cobra, expnames)`: runs every task and
   * returns their statuses in input order. Each task's log file is its own
   * (what it holds is stated by `CreateRandomMedium`).
   */
  method RunAll(expnames: seq<string>, world: nat -> Environment,
                openedAt: nat -> ValidTimestamp, clocks: nat -> (nat -> ValidTimestamp))
    returns (results: seq<string>)
    ensures results == Summary(expnames, world)
  {
    results := [];
    for k := 0 to |expnames|
      invariant |results| == k
      invariant forall j :: 0 <= j < k ==> results[j] == Summary(expnames, world)[j]
    {
      var status, log := CreateRandomMedium(expnames[k], world(k), openedAt(k), clocks(k));
      results := results + [status];
    }
  }
}
