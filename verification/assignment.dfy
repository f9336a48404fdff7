/**
 * One run of the automatic assignment job: take the single pending issue
 * with the highest priority, resolve its department from its type, pick the
 * least-loaded eligible worker of that department in the issue's district,
 * and assign. If any step finds nothing the run changes nothing, and lower
 * priority issues are not tried until the next run.
 */
module Assignment {
  import opened Common
  import opened Strings
  import opened Models
  import opened Config
  import opened Like

  // ---------------------------------------------------------------------------
  // Step 1: the issue to place
  // ---------------------------------------------------------------------------

  /**
   * The pending issue with the highest priority (`ORDER BY priority DESC
   * LIMIT 1`); among equals the one with the lowest id.
   */
  function TopPending(ps: seq<Problem>): (r: Option<nat>)
    ensures r.None? <==> forall j :: 0 <= j < |ps| ==> ps[j].status != Pending
    ensures r.Some? ==> r.value < |ps| && ps[r.value].status == Pending
    ensures r.Some? ==> forall j :: 0 <= j < |ps| && ps[j].status == Pending ==> ps[j].priority <= ps[r.value].priority
  {
    if ps == [] then None
    else
      var last := |ps| - 1;
      var rest := TopPending(ps[..last]);
      assert forall j :: 0 <= j < last ==> ps[..last][j] == ps[j];
      if ps[last].status == Pending && (rest.None? || ps[last].priority > ps[rest.value].priority) then Some(last)
      else rest
  }

  // ---------------------------------------------------------------------------
  // Step 2: the department
  // ---------------------------------------------------------------------------

  /** The fixed mapping from lower-cased issue type to department name. */
  const TypeToDepartment: map<string, string> := map[
    "pothole" := "Roads",
    "road repair" := "Roads",
    "street light" := "Electrical",
    "electrical" := "Electrical",
    "water supply" := "Water",
    "sewage" := "Sanitation",
    "drainage" := "Sanitation",
    "cleaning" := "Sanitation",
    "public transport" := "Transport"]

  /** The department name searched for: the mapped name, or the type itself when unmapped. */
  function DepartmentName(problemType: string): (r: string)
    ensures Lower(problemType) in TypeToDepartment ==> r == TypeToDepartment[Lower(problemType)]
    ensures Lower(problemType) !in TypeToDepartment ==> r == problemType
    ensures r in TypeToDepartment.Values || r == problemType
  {
    var key := Lower(problemType);
    if key in TypeToDepartment then TypeToDepartment[key] else problemType
  }

  /** Every mapped name is one of the five seeded departments. */
  lemma MappedNamesAreDefaults(problemType: string)
    requires Lower(problemType) in TypeToDepartment
    ensures DepartmentName(problemType) in {"Roads", "Electrical", "Water", "Sanitation", "Transport"}
  {
  }

  /** `departments.name ILIKE <pattern>`. */
  predicate NameLike(d: Department, pattern: string) {
    ILike(d.name, pattern)
  }

  /** The ids of all departments an `ILIKE` query returns, in id order. */
  function MatchingDepartments(ds: seq<Department>, pattern: string): (r: seq<nat>)
    ensures forall k :: 0 <= k < |r| ==> r[k] < |ds| && NameLike(ds[r[k]], pattern)
    ensures forall i :: 0 <= i < |ds| && NameLike(ds[i], pattern) ==> i in r
    ensures forall k, l :: 0 <= k < l < |r| ==> r[k] < r[l]
  {
    if ds == [] then []
    else
      var last := |ds| - 1;
      var rest := MatchingDepartments(ds[..last], pattern);
      assert forall j :: 0 <= j < last ==> ds[..last][j] == ds[j];
      if NameLike(ds[last], pattern) then rest + [last] else rest
  }

  /** What `scalar_one_or_none` makes of the department query. */
  datatype DepartmentLookup = NoDepartment | Found(id: nat) | Ambiguous

  function LookupDepartment(ds: seq<Department>, pattern: string): (r: DepartmentLookup)
    ensures r.NoDepartment? <==> forall i :: 0 <= i < |ds| ==> !NameLike(ds[i], pattern)
    ensures r.Found? ==> r.id < |ds| && NameLike(ds[r.id], pattern)
    ensures r.Found? ==> forall i :: 0 <= i < |ds| && i != r.id ==> !NameLike(ds[i], pattern)
    ensures r.Ambiguous? <==> exists i, j :: 0 <= i < j < |ds| && NameLike(ds[i], pattern) && NameLike(ds[j], pattern)
  {
    var m := MatchingDepartments(ds, pattern);
    if |m| == 0 then NoDepartment
    else if |m| == 1 then
      assert forall i :: 0 <= i < |ds| && NameLike(ds[i], pattern) ==> i == m[0];
      Found(m[0])
    else
      assert m[0] < m[1] && NameLike(ds[m[0]], pattern) && NameLike(ds[m[1]], pattern);
      Ambiguous
  }

  // ---------------------------------------------------------------------------
  // Step 3: the worker
  // ---------------------------------------------------------------------------

  /**
   * Worker profile `w` qualifies for an issue of `district` handled by
   * department `dept`: it belongs to that department, has spare capacity by
   * its stored counter, and its user is active and lives in that district.
   */
  predicate Eligible(st: State, w: nat, dept: nat, district: string, cfg: Settings) {
    && w < |st.workers|
    && st.workers[w].departmentId == dept
    && st.workers[w].dailyTaskCount < cfg.maxDailyTasksPerWorker
    && st.workers[w].userId < |st.users|
    && st.users[st.workers[w].userId].district == Some(district)
    && st.users[st.workers[w].userId].isActive
  }

  /** Eligible workers among the first `n` profiles, least loaded first found. */
  function LeastLoadedUpTo(st: State, n: nat, dept: nat, district: string, cfg: Settings): (r: Option<nat>)
    requires n <= |st.workers|
    ensures r.None? <==> forall w :: 0 <= w < n ==> !Eligible(st, w, dept, district, cfg)
    ensures r.Some? ==> r.value < n && Eligible(st, r.value, dept, district, cfg)
    ensures r.Some? ==> forall w :: 0 <= w < n && Eligible(st, w, dept, district, cfg) ==>
      st.workers[r.value].dailyTaskCount <= st.workers[w].dailyTaskCount
  {
    if n == 0 then None
    else
      var rest := LeastLoadedUpTo(st, n - 1, dept, district, cfg);
      var w := n - 1;
      if Eligible(st, w, dept, district, cfg)
         && (rest.None? || st.workers[w].dailyTaskCount < st.workers[rest.value].dailyTaskCount)
      then Some(w)
      else rest
  }

  /** The worker query: `ORDER BY daily_task_count ASC LIMIT 1`; among equals the lowest id. */
  function LeastLoaded(st: State, dept: nat, district: string, cfg: Settings): (r: Option<nat>)
    ensures r.None? <==> forall w :: 0 <= w < |st.workers| ==> !Eligible(st, w, dept, district, cfg)
    ensures r.Some? ==> Eligible(st, r.value, dept, district, cfg)
    ensures r.Some? ==> forall w :: 0 <= w < |st.workers| && Eligible(st, w, dept, district, cfg) ==>
      st.workers[r.value].dailyTaskCount <= st.workers[w].dailyTaskCount
  {
    LeastLoadedUpTo(st, |st.workers|, dept, district, cfg)
  }

  // ---------------------------------------------------------------------------
  // Step 4: assignment and notification
  // ---------------------------------------------------------------------------

  /** Why a run ended. Every outcome but `Placed` leaves the state untouched. */
  datatype Outcome =
    | NoPending
    | NoDepartmentFor(problem: nat, name: string)
    | AmbiguousDepartment(problem: nat, name: string)
    | NoWorkerFor(problem: nat, department: nat)
    | Placed(problem: nat, worker: nat)

  /** A push message to a user. */
  datatype Notice = Notice(userId: nat, message: string)

  /** How notification delivery behaves: every send succeeds, or send number `k` (from 0) raises. */
  datatype Delivery = AllDelivered | FailsAt(k: nat)

  datatype Run = Run(state: State, outcome: Outcome, sent: seq<Notice>)

  /**
   * `st2` is `st` with issue `p` assigned to worker `w` and that worker's
   * counter raised by one; no other row of any table differs.
   */
  predicate OnlyAssignment(st: State, st2: State, p: nat, w: nat) {
    && p < |st.problems| && w < |st.workers|
    && |st2.problems| == |st.problems| && |st2.workers| == |st.workers|
    && st2.problems[p].status == Assigned
    && st2.problems[p].assignedWorker == Some(w)
    && st2.problems[p].(status := st.problems[p].status, assignedWorker := st.problems[p].assignedWorker) == st.problems[p]
    && st2.workers[w].dailyTaskCount == st.workers[w].dailyTaskCount + 1
    && st2.workers[w].(dailyTaskCount := st.workers[w].dailyTaskCount) == st.workers[w]
    && (forall i :: 0 <= i < |st.problems| && i != p ==> st2.problems[i] == st.problems[i])
    && (forall i :: 0 <= i < |st.workers| && i != w ==> st2.workers[i] == st.workers[i])
    && st2.users == st.users && st2.departments == st.departments
    && st2.media == st.media && st2.feedback == st.feedback
  }

  function AssignMessages(st: State, p: nat, w: nat): seq<Notice>
    requires p < |st.problems| && w < |st.workers|
  {
    var pr := st.problems[p];
    [ Notice(st.workers[w].userId, "New task assigned: '" + pr.title + "' in " + pr.district),
      Notice(pr.userId, "Your issue '" + pr.title + "' has been assigned to a worker.") ]
  }

  /** The messages actually delivered: those before the first failing send. */
  function Delivered(msgs: seq<Notice>, d: Delivery): (r: seq<Notice>)
    ensures |r| <= |msgs| && r == msgs[..|r|]
    ensures d.AllDelivered? ==> r == msgs
  {
    match d
    case AllDelivered => msgs
    case FailsAt(k) => if k < |msgs| then msgs[..k] else msgs
  }

  /**
   * One run of the assignment job. The database state after the run, why it
   * ended, and the notices delivered after the commit. A department query
   * with several matches raises inside the run; the run's handler rolls
   * back, so that outcome also leaves the state as it was.
   */
  function TriggerAutoAssignment(st: State, cfg: Settings, delivery: Delivery): (r: Run)
    ensures r.outcome.NoPending? <==> forall j :: 0 <= j < |st.problems| ==> st.problems[j].status != Pending
    ensures !r.outcome.Placed? ==> r.state == st && r.sent == []
    ensures r.outcome.Placed? ==>
      var p, w := r.outcome.problem, r.outcome.worker;
      && p < |st.problems| && st.problems[p].status == Pending
      && (forall j :: 0 <= j < |st.problems| && st.problems[j].status == Pending ==>
            st.problems[j].priority <= st.problems[p].priority)
      && OnlyAssignment(st, r.state, p, w)
    ensures TopPending(st.problems).Some? ==>
      var p := TopPending(st.problems).value;
      var name := DepartmentName(st.problems[p].problemType);
      match LookupDepartment(st.departments, SubstringPattern(name))
      case NoDepartment => r.outcome == NoDepartmentFor(p, name)
      case Ambiguous => r.outcome == AmbiguousDepartment(p, name)
      case Found(d) =>
        && (r.outcome.Placed? <==> exists v :: Eligible(st, v, d, st.problems[p].district, cfg))
        && (r.outcome.Placed? ==> r.outcome.problem == p && r.sent == Delivered(AssignMessages(st, p, r.outcome.worker), delivery))
        && (!r.outcome.Placed? ==> r.outcome == NoWorkerFor(p, d))
  {
    match TopPending(st.problems)
    case None => Run(st, NoPending, [])
    case Some(p) =>
      var problem := st.problems[p];
      var name := DepartmentName(problem.problemType);
      match LookupDepartment(st.departments, SubstringPattern(name))
      case NoDepartment => Run(st, NoDepartmentFor(p, name), [])
      case Ambiguous => Run(st, AmbiguousDepartment(p, name), [])
      case Found(dept) =>
        match LeastLoaded(st, dept, problem.district, cfg)
        case None => Run(st, NoWorkerFor(p, dept), [])
        case Some(w) =>
          var worker := st.workers[w];
          var st2 := st.(
            problems := st.problems[p := problem.(status := Assigned, assignedWorker := Some(w))],
            workers := st.workers[w := worker.(dailyTaskCount := worker.dailyTaskCount + 1)]);
          Run(st2, Placed(p, w), Delivered(AssignMessages(st, p, w), delivery))
  }

  /**
   * The run as the source is written. After the commit, the log line reads
   * the worker's `user` relationship, which the worker query joined but did
   * not load; under the async session that implicit load raises, the run's
   * outer handler catches it, and neither notification is sent. The
   * assignment is already committed, so state and outcome are those of
   * `TriggerAutoAssignment`.
   */
  function TriggerAutoAssignmentAsWritten(st: State, cfg: Settings, delivery: Delivery): (r: Run)
    ensures r.state == TriggerAutoAssignment(st, cfg, delivery).state
    ensures r.outcome == TriggerAutoAssignment(st, cfg, delivery).outcome
    ensures r.sent == []
  {
    TriggerAutoAssignment(st, cfg, delivery).(sent := [])
  }

  /**
   * A placement with working delivery notifies the worker and then the
   * reporter; as written, the same placement notifies nobody.
   */
  lemma PlacementNotifiesWorkerAndReporter(st: State, cfg: Settings)
    requires TriggerAutoAssignment(st, cfg, AllDelivered).outcome.Placed?
    ensures var r := TriggerAutoAssignment(st, cfg, AllDelivered);
      var p, w := r.outcome.problem, r.outcome.worker;
      && |r.sent| == 2
      && r.sent[0].userId == st.workers[w].userId
      && r.sent[1].userId == st.problems[p].userId
    ensures TriggerAutoAssignmentAsWritten(st, cfg, AllDelivered).sent == []
  {
  }

  // ---------------------------------------------------------------------------
  // Properties of a run
  // ---------------------------------------------------------------------------

  /**
   * The chosen worker is in the department the issue's type resolves to
   * (that department uniquely matches), is active, lives in the issue's
   * district, had spare capacity, and had the lowest counter of all such
   * workers.
   */
  lemma AssignedWorkerQualifies(st: State, cfg: Settings, delivery: Delivery)
    requires TriggerAutoAssignment(st, cfg, delivery).outcome.Placed?
    ensures
      var o := TriggerAutoAssignment(st, cfg, delivery).outcome;
      var pr := st.problems[o.problem];
      var dept := st.workers[o.worker].departmentId;
      && LookupDepartment(st.departments, SubstringPattern(DepartmentName(pr.problemType))) == Found(dept)
      && Eligible(st, o.worker, dept, pr.district, cfg)
      && forall v :: 0 <= v < |st.workers| && Eligible(st, v, dept, pr.district, cfg) ==>
           st.workers[o.worker].dailyTaskCount <= st.workers[v].dailyTaskCount
  {
  }

  /** If the top issue cannot be placed, no other issue is placed in that run either. */
  lemma BlockedTopBlocksRun(st: State, cfg: Settings, delivery: Delivery)
    requires TopPending(st.problems).Some?
    requires var pr := st.problems[TopPending(st.problems).value];
      match LookupDepartment(st.departments, SubstringPattern(DepartmentName(pr.problemType)))
      case Found(d) => LeastLoaded(st, d, pr.district, cfg).None?
      case _ => true
    ensures TriggerAutoAssignment(st, cfg, delivery).state == st
  {
  }

  /** A failing notification never undoes the committed assignment. */
  lemma DeliveryDoesNotMatter(st: State, cfg: Settings, d1: Delivery, d2: Delivery)
    ensures TriggerAutoAssignment(st, cfg, d1).state == TriggerAutoAssignment(st, cfg, d2).state
    ensures TriggerAutoAssignment(st, cfg, d1).outcome == TriggerAutoAssignment(st, cfg, d2).outcome
  {
  }

  /** Counters stay within `[0, MAX_DAILY_TASKS_PER_WORKER]` across a run. */
  predicate CountersWithinCapacity(st: State, cfg: Settings) {
    forall w :: 0 <= w < |st.workers| ==> 0 <= st.workers[w].dailyTaskCount <= cfg.maxDailyTasksPerWorker
  }

  lemma RunKeepsCapacity(st: State, cfg: Settings, delivery: Delivery)
    requires CountersWithinCapacity(st, cfg)
    ensures CountersWithinCapacity(TriggerAutoAssignment(st, cfg, delivery).state, cfg)
  {
    var r := TriggerAutoAssignment(st, cfg, delivery);
    if r.outcome.Placed? {
      AssignedWorkerQualifies(st, cfg, delivery);
    }
  }

  /** A run keeps the declared table constraints. */
  lemma RunKeepsConsistency(st: State, cfg: Settings, delivery: Delivery)
    requires Consistent(st)
    ensures Consistent(TriggerAutoAssignment(st, cfg, delivery).state)
  {
    var r := TriggerAutoAssignment(st, cfg, delivery);
    if r.outcome.Placed? {
      var st2 := r.state;
      var p, w := r.outcome.problem, r.outcome.worker;
      assert forall i :: 0 <= i < |st2.workers| ==> st2.workers[i].userId == st.workers[i].userId;
      assert forall i :: 0 <= i < |st2.workers| ==> st2.workers[i].departmentId == st.workers[i].departmentId;
      assert forall i :: 0 <= i < |st2.problems| ==> st2.problems[i].userId == st.problems[i].userId;
    }
  }
}
