/**
 * The worker routes: the worker-profile guard, the list of the worker's
 * open tasks, and task completion with its GPS check and proof photo.
 */
module WorkerRoutes {
  import opened Common
  import opened Models
  import opened Config
  import opened Storage

  /** `get_current_worker_profile`: the caller's worker profile, or 403. */
  function GetCurrentWorkerProfile(st: State, uid: nat): (r: Result<nat, HttpError>)
    requires uid < |st.users|
    ensures st.users[uid].role != Worker ==> r == Err(HttpError(Forbidden, "Access denied: Worker role required."))
    ensures r.Ok? <==> st.users[uid].role == Worker && FindWorkerOfUser(st.workers, uid).Some?
    ensures r.Ok? ==> r.value < |st.workers| && st.workers[r.value].userId == uid
    ensures r.Err? ==> r.error.code == Forbidden
  {
    if st.users[uid].role != Worker then Err(HttpError(Forbidden, "Access denied: Worker role required."))
    else
      match FindWorkerOfUser(st.workers, uid)
      case None => Err(HttpError(Forbidden, "User is not registered as a worker profile."))
      case Some(w) => Ok(w)
  }

  // ---------------------------------------------------------------------------
  // The work list
  // ---------------------------------------------------------------------------

  /** Issue `i` is an open task of worker `w`. */
  predicate OpenTaskOf(ps: seq<Problem>, i: nat, w: nat) {
    i < |ps| && ps[i].assignedWorker == Some(w) && ps[i].status == Assigned
  }

  /** The ids of worker `w`'s open tasks, in id order. */
  function OpenTasks(ps: seq<Problem>, w: nat): (r: seq<nat>)
    ensures forall i :: i in r <==> OpenTaskOf(ps, i, w)
    ensures forall k, l :: 0 <= k < l < |r| ==> r[k] < r[l]
  {
    if ps == [] then []
    else
      var last := |ps| - 1;
      var rest := OpenTasks(ps[..last], w);
      assert forall i :: 0 <= i < last ==> ps[..last][i] == ps[i];
      assert forall k :: 0 <= k < |rest| ==> rest[k] < last by {
        forall k | 0 <= k < |rest| ensures rest[k] < last {
          assert rest[k] in rest;
        }
      }
      if OpenTaskOf(ps, last, w) then rest + [last] else rest
  }

  predicate ValidIds(ps: seq<Problem>, xs: seq<nat>) {
    forall k :: 0 <= k < |xs| ==> xs[k] < |ps|
  }

  /** Highest priority first. */
  predicate SortedByPriority(ps: seq<Problem>, xs: seq<nat>)
    requires ValidIds(ps, xs)
  {
    forall k, l :: 0 <= k < l < |xs| ==> ps[xs[k]].priority >= ps[xs[l]].priority
  }

  /** Inserts `x` before the first id of lower or equal priority. */
  function InsertByPriority(ps: seq<Problem>, x: nat, xs: seq<nat>): (r: seq<nat>)
    requires x < |ps| && ValidIds(ps, xs)
    ensures ValidIds(ps, r)
    ensures multiset(r) == multiset(xs) + multiset{x}
    ensures |r| > 0 && (r[0] == x || (xs != [] && r[0] == xs[0]))
  {
    if xs == [] then [x]
    else if ps[x].priority >= ps[xs[0]].priority then [x] + xs
    else
      assert xs == [xs[0]] + xs[1..];
      [xs[0]] + InsertByPriority(ps, x, xs[1..])
  }

  /** Inserting into a list sorted highest priority first keeps it sorted. */
  lemma {:induction false} InsertKeepsSorted(ps: seq<Problem>, x: nat, xs: seq<nat>)
    requires x < |ps| && ValidIds(ps, xs) && SortedByPriority(ps, xs)
    ensures SortedByPriority(ps, InsertByPriority(ps, x, xs))
    decreases |xs|
  {
    if xs == [] {
    } else if ps[x].priority >= ps[xs[0]].priority {
      ConsSorted(ps, x, xs);
    } else {
      var rest := InsertByPriority(ps, x, xs[1..]);
      assert SortedByPriority(ps, xs[1..]) by {
        forall k, l | 0 <= k < l < |xs[1..]|
          ensures ps[xs[1..][k]].priority >= ps[xs[1..][l]].priority
        {
          assert xs[1..][k] == xs[k + 1] && xs[1..][l] == xs[l + 1];
        }
      }
      InsertKeepsSorted(ps, x, xs[1..]);
      HeadOutranksInserted(ps, x, xs, rest);
      ConsSorted(ps, xs[0], rest);
    }
  }

  /** A sorted list stays sorted behind a head that outranks its first element. */
  lemma ConsSorted(ps: seq<Problem>, h: nat, xs: seq<nat>)
    requires h < |ps| && ValidIds(ps, xs)
    requires SortedByPriority(ps, xs)
    requires xs != [] ==> ps[h].priority >= ps[xs[0]].priority || forall l :: 0 <= l < |xs| ==> ps[h].priority >= ps[xs[l]].priority
    ensures ValidIds(ps, [h] + xs) && SortedByPriority(ps, [h] + xs)
  {
    var r := [h] + xs;
    forall k, l | 0 <= k < l < |r|
      ensures ps[r[k]].priority >= ps[r[l]].priority
    {
      if k == 0 {
        assert r[l] == xs[l - 1];
        if xs != [] && ps[h].priority >= ps[xs[0]].priority {
          assert ps[xs[0]].priority >= ps[xs[l - 1]].priority || l - 1 == 0;
        }
      } else {
        assert r[k] == xs[k - 1] && r[l] == xs[l - 1];
      }
    }
  }

  /** After inserting a lower-priority `x` into the tail of a sorted list, the head still outranks everything. */
  lemma HeadOutranksInserted(ps: seq<Problem>, x: nat, xs: seq<nat>, rest: seq<nat>)
    requires x < |ps| && ValidIds(ps, xs) && ValidIds(ps, rest) && xs != []
    requires ps[x].priority < ps[xs[0]].priority
    requires multiset(rest) == multiset(xs[1..]) + multiset{x}
    ensures SortedByPriority(ps, xs) ==> forall l :: 0 <= l < |rest| ==> ps[xs[0]].priority >= ps[rest[l]].priority
  {
    if SortedByPriority(ps, xs) {
      forall l | 0 <= l < |rest|
        ensures ps[xs[0]].priority >= ps[rest[l]].priority
      {
        assert rest[l] in multiset(rest);
        if rest[l] != x {
          assert rest[l] in multiset(xs[1..]);
          var m :| 0 <= m < |xs[1..]| && xs[1..][m] == rest[l];
          assert xs[m + 1] == rest[l];
        }
      }
    }
  }

  /** Insertion sort by priority, highest first. */
  function SortByPriority(ps: seq<Problem>, xs: seq<nat>): (r: seq<nat>)
    requires ValidIds(ps, xs)
    ensures ValidIds(ps, r)
    ensures multiset(r) == multiset(xs)
    ensures SortedByPriority(ps, r)
  {
    if xs == [] then []
    else
      assert xs == [xs[0]] + xs[1..];
      InsertKeepsSorted(ps, xs[0], SortByPriority(ps, xs[1..]));
      InsertByPriority(ps, xs[0], SortByPriority(ps, xs[1..]))
  }

  /**
   * `get_my_assigned_tasks`: exactly the worker's open tasks, each once,
   * highest priority first.
   */
  function GetMyAssignedTasks(st: State, w: nat): (r: seq<nat>)
    ensures ValidIds(st.problems, r)
    ensures forall i :: i in r <==> OpenTaskOf(st.problems, i, w)
    ensures multiset(r) == multiset(OpenTasks(st.problems, w))
    ensures SortedByPriority(st.problems, r)
  {
    var open := OpenTasks(st.problems, w);
    assert ValidIds(st.problems, open) by {
      forall k | 0 <= k < |open| ensures open[k] < |st.problems| {
        assert open[k] in open;
      }
    }
    var r := SortByPriority(st.problems, open);
    assert forall i :: i in r <==> i in multiset(r);
    assert forall i :: i in open <==> i in multiset(open);
    r
  }

  // ---------------------------------------------------------------------------
  // Completing a task
  // ---------------------------------------------------------------------------

  /** The GPS radius, in metres, within which a worker may complete a task. */
  const MaxDistanceMeters: real := 500.0

  /**
   * `complete_task`. `distance` is the PostGIS distance in metres between
   * the issue and the worker's reported position; `proof` the uploaded photo.
   * The checks run in order: existence (404), ownership (403), status (400),
   * distance (400), then the upload's own checks.
   */
  function CompleteTask(st: State, w: nat, pid: nat, distance: real, proof: Upload, uuid: string, cfg: Settings)
    : (r: Result<State, HttpError>)
    ensures pid >= |st.problems| ==> r == Err(HttpError(NotFound, "Problem not found."))
    ensures pid < |st.problems| && st.problems[pid].assignedWorker != Some(w) ==> r.Err? && r.error.code == Forbidden
    ensures pid < |st.problems| && st.problems[pid].assignedWorker == Some(w) && st.problems[pid].status != Assigned
      ==> r.Err? && r.error.code == BadRequest
    ensures OpenTaskOf(st.problems, pid, w) && distance > MaxDistanceMeters ==> r.Err? && r.error.code == BadRequest
    ensures r.Ok? <==> OpenTaskOf(st.problems, pid, w) && distance <= MaxDistanceMeters && SaveFile(proof, uuid, cfg).Ok?
    ensures r.Ok? ==>
      var st2 := r.value;
      && |st2.problems| == |st.problems|
      && st2.problems[pid] == st.problems[pid].(status := Completed)
      && (forall i :: 0 <= i < |st.problems| && i != pid ==> st2.problems[i] == st.problems[i])
      && st2.media == st.media + [Media(Some(pid), SaveFile(proof, uuid, cfg).value.url, PhotoProof)]
      && st2.workers == st.workers && st2.users == st.users
      && st2.departments == st.departments && st2.feedback == st.feedback
  {
    if pid >= |st.problems| then Err(HttpError(NotFound, "Problem not found."))
    else
      var p := st.problems[pid];
      if p.assignedWorker != Some(w) then Err(HttpError(Forbidden, "This task is not assigned to you."))
      else if p.status != Assigned then
        Err(HttpError(BadRequest, "Task is not in ASSIGNED state, it is currently " + StatusValue(p.status) + "."))
      else if distance > MaxDistanceMeters then
        Err(HttpError(BadRequest, "GPS verification failed! You must be at the problem location to mark it complete."))
      else
        var saved :- SaveFile(proof, uuid, cfg);
        Ok(st.(
          problems := st.problems[pid := p.(status := Completed)],
          media := st.media + [Media(Some(pid), saved.url, PhotoProof)]))
  }

  /** Exactly 500 m is close enough; anything further is not. */
  lemma GpsBoundary(st: State, w: nat, pid: nat, proof: Upload, uuid: string, cfg: Settings, d: real)
    requires OpenTaskOf(st.problems, pid, w) && SaveFile(proof, uuid, cfg).Ok?
    ensures CompleteTask(st, w, pid, MaxDistanceMeters, proof, uuid, cfg).Ok?
    ensures d > MaxDistanceMeters ==> CompleteTask(st, w, pid, d, proof, uuid, cfg).Err?
  {
  }
}
