/**
 * The two scheduled jobs: the midnight reset of every worker's daily task
 * counter, and the periodic assignment job that performs one assignment run.
 */
module Scheduler {
  import opened Models
  import opened Config
  import opened Assignment

  /** `UPDATE worker_profiles SET daily_task_count = 0`. */
  function ResetDailyTaskCounts(st: State): (r: State)
    ensures |r.workers| == |st.workers|
    ensures forall w :: 0 <= w < |r.workers| ==> r.workers[w].dailyTaskCount == 0
    ensures forall w :: 0 <= w < |r.workers| ==>
      r.workers[w].userId == st.workers[w].userId && r.workers[w].departmentId == st.workers[w].departmentId
    ensures r.users == st.users && r.departments == st.departments && r.problems == st.problems
    ensures r.media == st.media && r.feedback == st.feedback
  {
    st.(workers := seq(|st.workers|, w requires 0 <= w < |st.workers| => st.workers[w].(dailyTaskCount := 0)))
  }

  /** Resetting twice is resetting once. */
  lemma ResetIdempotent(st: State)
    ensures ResetDailyTaskCounts(ResetDailyTaskCounts(st)) == ResetDailyTaskCounts(st)
  {
    var once := ResetDailyTaskCounts(st);
    var twice := ResetDailyTaskCounts(once);
    assert twice.workers == once.workers;
  }

  /** A reset leaves every counter within any non-negative capacity. */
  lemma ResetWithinCapacity(st: State, cfg: Settings)
    requires cfg.maxDailyTasksPerWorker >= 0
    ensures CountersWithinCapacity(ResetDailyTaskCounts(st), cfg)
  {
  }

  /** The periodic job: exactly one assignment run. */
  function RunAutoAssignmentJob(st: State, cfg: Settings, delivery: Delivery): (r: Run)
    ensures r.outcome.Placed? ==> OnlyAssignment(st, r.state, r.outcome.problem, r.outcome.worker)
    ensures !r.outcome.Placed? ==> r.state == st
  {
    TriggerAutoAssignment(st, cfg, delivery)
  }

  /**
   * A day of job runs, one per delivery behaviour in `ds`: the state after
   * them, and how many of them gave worker `w` a task.
   */
  function RunJobs(st: State, cfg: Settings, ds: seq<Delivery>, w: nat): (r: (State, nat))
    ensures |r.0.workers| == |st.workers|
    ensures w < |st.workers| ==> r.0.workers[w].dailyTaskCount == st.workers[w].dailyTaskCount + r.1
    decreases |ds|
  {
    if ds == [] then (st, 0)
    else
      var before := RunJobs(st, cfg, ds[..|ds| - 1], w);
      var run := RunAutoAssignmentJob(before.0, cfg, ds[|ds| - 1]);
      (run.state, before.1 + if run.outcome.Placed? && run.outcome.worker == w then 1 else 0)
  }

  /** Job runs keep every counter within capacity. */
  lemma {:induction false} RunJobsKeepsCapacity(st: State, cfg: Settings, ds: seq<Delivery>, w: nat)
    requires CountersWithinCapacity(st, cfg)
    ensures CountersWithinCapacity(RunJobs(st, cfg, ds, w).0, cfg)
    decreases |ds|
  {
    if ds != [] {
      var before := RunJobs(st, cfg, ds[..|ds| - 1], w);
      RunJobsKeepsCapacity(st, cfg, ds[..|ds| - 1], w);
      RunKeepsCapacity(before.0, cfg, ds[|ds| - 1]);
    }
  }

  /**
   * Between two midnight resets the job gives a worker at most
   * `MAX_DAILY_TASKS_PER_WORKER` tasks, however many times it runs: the
   * stored counter counts exactly those tasks, and nothing else lowers it.
   */
  lemma DailyAssignmentsBounded(st: State, cfg: Settings, ds: seq<Delivery>, w: nat)
    requires w < |st.workers| && cfg.maxDailyTasksPerWorker >= 0
    ensures RunJobs(ResetDailyTaskCounts(st), cfg, ds, w).1 <= cfg.maxDailyTasksPerWorker
  {
    ResetWithinCapacity(st, cfg);
    RunJobsKeepsCapacity(ResetDailyTaskCounts(st), cfg, ds, w);
  }
}
