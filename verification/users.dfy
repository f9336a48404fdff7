/**
 * The client routes: changing one's password, reporting an issue, reading
 * one's own issues, leaving feedback, verifying a completed issue, and the
 * resolved-issue counters of the dashboard.
 */
module UserRoutes {
  import opened Common
  import opened Strings
  import opened Models
  import opened Config
  import opened Priority
  import opened Storage
  import opened Schemas
  import opened Auth

  // ---------------------------------------------------------------------------
  // Password change
  // ---------------------------------------------------------------------------

  /**
   * `change_user_password` for the current user `uid`: the body's new
   * password must have at least 8 characters (else 422, before the handler
   * runs); then the old password must verify (else 400), and the new one is
   * hashed only if strong (else 400).
   */
  function ChangeUserPassword(st: State, uid: nat, oldPassword: string, newPassword: string)
    : (r: Result<State, HttpError>)
    requires uid < |st.users|
    ensures |newPassword| < MinPasswordField ==> r.Err? && r.error.code == UnprocessableEntity
    ensures |newPassword| >= MinPasswordField && !VerifyPassword(oldPassword, st.users[uid].hashedPassword) ==>
      r == Err(HttpError(BadRequest, "Incorrect old password."))
    ensures r.Ok? <==> VerifyPassword(oldPassword, st.users[uid].hashedPassword) && StrongPassword(newPassword)
    ensures r.Err? && |newPassword| >= MinPasswordField ==> r.error.code == BadRequest
    ensures r.Ok? ==>
      && |r.value.users| == |st.users|
      && r.value.users[uid] == st.users[uid].(hashedPassword := r.value.users[uid].hashedPassword)
      && VerifyPassword(newPassword, r.value.users[uid].hashedPassword)
      && (forall i :: 0 <= i < |st.users| && i != uid ==> r.value.users[i] == st.users[i])
      && r.value.(users := st.users) == st
  {
    if |newPassword| < MinPasswordField then Err(ValidationError("String should have at least 8 characters"))
    else if !VerifyPassword(oldPassword, st.users[uid].hashedPassword) then
      Err(HttpError(BadRequest, "Incorrect old password."))
    else
      var hashed :- GetPasswordHash(newPassword);
      Ok(st.(users := st.users[uid := st.users[uid].(hashedPassword := hashed)]))
  }

  /**
   * After a change, the active user logs in with the new password, and no
   * longer with the old one unless the two are the same.
   */
  lemma ChangePasswordThenLogin(st: State, uid: nat, oldPassword: string, newPassword: string)
    requires uid < |st.users| && UniqueEmails(st) && st.users[uid].isActive
    requires ChangeUserPassword(st, uid, oldPassword, newPassword).Ok?
    ensures Login(ChangeUserPassword(st, uid, oldPassword, newPassword).value, st.users[uid].email, newPassword).Ok?
    ensures oldPassword != newPassword ==>
      Login(ChangeUserPassword(st, uid, oldPassword, newPassword).value, st.users[uid].email, oldPassword).Err?
  {
    var st2 := ChangeUserPassword(st, uid, oldPassword, newPassword).value;
    assert UniqueEmails(st2) by {
      forall i, j | 0 <= i < |st2.users| && 0 <= j < |st2.users| && i != j
        ensures st2.users[i].email != st2.users[j].email
      {
        assert st2.users[i].email == st.users[i].email;
        assert st2.users[j].email == st.users[j].email;
      }
    }
    FindUserByEmailUnique(st2, uid);
  }

  /**
   * The body's eight-character bound is implied by the strength rule: every
   * password the hashing accepts also meets it, so the bound only decides
   * whether a short password gets 422 (always) or 400 (never, since the
   * body check comes first).
   */
  lemma StrongPasswordMeetsFieldBound(pw: string)
    requires GetPasswordHash(pw).Ok?
    ensures |pw| >= MinPasswordField
  {
  }

  // ---------------------------------------------------------------------------
  // Reporting an issue
  // ---------------------------------------------------------------------------

  /** The form fields of an issue report. */
  datatype IssueForm = IssueForm(
    title: string,
    description: string,
    problemType: string,
    district: string,
    latitude: real,
    longitude: real)

  /**
   * `create_issue` for the current user `uid`. Only a client may report (else
   * 403); the photo is stored first, then the problem row with the type
   * capitalised and the priority scored from the spatial query's outcome
   * `spatial`, and a `PHOTO_INITIAL` media row pointing at the new problem.
   */
  function CreateIssue(st: State, uid: nat, form: IssueForm, photo: Upload, uuid: string,
                       spatial: SpatialCount, cfg: Settings): (r: Result<(State, nat), HttpError>)
    requires uid < |st.users|
    ensures st.users[uid].role != Client ==> r == Err(HttpError(Forbidden, "Only clients can create issues."))
    ensures r.Ok? <==> st.users[uid].role == Client && SaveFile(photo, uuid, cfg).Ok?
    ensures r.Err? && st.users[uid].role == Client ==> r.error == SaveFile(photo, uuid, cfg).error
    ensures r.Ok? ==>
      var (st2, id) := r.value;
      && id == |st.problems|
      && st2.problems == st.problems + [ReportedProblem(uid, form, spatial, cfg)]
      && st2.media == st.media + [Media(Some(id), SaveFile(photo, uuid, cfg).value.url, PhotoInitial)]
      && st2.users == st.users && st2.workers == st.workers
      && st2.departments == st.departments && st2.feedback == st.feedback
  {
    if st.users[uid].role != Client then Err(HttpError(Forbidden, "Only clients can create issues."))
    else
      var saved :- SaveFile(photo, uuid, cfg);
      var id := |st.problems|;
      Ok((st.(problems := st.problems + [ReportedProblem(uid, form, spatial, cfg)],
              media := st.media + [Media(Some(id), saved.url, PhotoInitial)]), id))
  }

  /**
   * The row a report inserts: pending and unassigned, the type capitalised,
   * and the priority scored from the spatial query's outcome — the same
   * score the type as typed would get, since urgency ignores case.
   */
  function ReportedProblem(uid: nat, form: IssueForm, spatial: SpatialCount, cfg: Settings): (p: Problem)
    ensures p.status == Pending && p.assignedWorker == None && p.userId == uid
    ensures p.title == form.title && p.description == Some(form.description)
    ensures p.problemType == Capitalize(form.problemType) && p.district == form.district
    ensures p.location == Point(form.longitude, form.latitude)
    ensures p.priority == PriorityScore(spatial, form.problemType, cfg)
  {
    var problemType := Capitalize(form.problemType);
    var p := NewProblem(form.title, Some(form.description), problemType, form.district,
                        Point(form.longitude, form.latitude), uid);
    UrgencyOfCapitalized(form.problemType);
    p.(priority := PriorityScore(spatial, problemType, cfg))
  }

  /** Reporting keeps every foreign key pointing at an existing row. */
  lemma CreateIssueKeepsForeignKeys(st: State, uid: nat, form: IssueForm, photo: Upload, uuid: string,
                                    spatial: SpatialCount, cfg: Settings)
    requires uid < |st.users| && ForeignKeysValid(st)
    requires CreateIssue(st, uid, form, photo, uuid, spatial, cfg).Ok?
    ensures ForeignKeysValid(CreateIssue(st, uid, form, photo, uuid, spatial, cfg).value.0)
  {
    var url := SaveFile(photo, uuid, cfg).value.url;
    AppendReportKeepsForeignKeys(st, ReportedProblem(uid, form, spatial, cfg), Media(Some(|st.problems|), url, PhotoInitial));
  }

  /** Appending an unassigned problem of an existing user, and a media row for it, keeps every foreign key valid. */
  lemma AppendReportKeepsForeignKeys(st: State, p: Problem, m: Media)
    requires ForeignKeysValid(st)
    requires p.userId < |st.users| && p.assignedWorker.None? && m.problemId == Some(|st.problems|)
    ensures ForeignKeysValid(st.(problems := st.problems + [p], media := st.media + [m]))
  {
    var st2 := st.(problems := st.problems + [p], media := st.media + [m]);
    forall i | 0 <= i < |st2.problems|
      ensures st2.problems[i].userId < |st2.users|
      ensures st2.problems[i].assignedWorker.Some? ==> st2.problems[i].assignedWorker.value < |st2.workers|
    {
      if i < |st.problems| {
        assert st2.problems[i] == st.problems[i];
      }
    }
    forall j | 0 <= j < |st2.media|
      ensures st2.media[j].problemId.Some? ==> st2.media[j].problemId.value < |st2.problems|
    {
      if j < |st.media| {
        assert st2.media[j] == st.media[j];
      }
    }
  }

  // ---------------------------------------------------------------------------
  // Reading one's issues
  // ---------------------------------------------------------------------------

  /** Issue `pid` exists and was reported by `uid`. */
  predicate Owns(st: State, uid: nat, pid: nat) {
    pid < |st.problems| && st.problems[pid].userId == uid
  }

  const NotYours: HttpError := HttpError(NotFound, "Problem not found or you don't have access.")

  /** `get_issue_by_id`: the issue, but only for the user who reported it; 404 for everyone else. */
  function GetIssueById(st: State, uid: nat, pid: nat): (r: Result<Problem, HttpError>)
    ensures r.Ok? <==> pid < |st.problems| && st.problems[pid].userId == uid
    ensures r.Ok? ==> r.value == st.problems[pid]
    ensures r.Err? ==> r.error == NotYours
  {
    if Owns(st, uid, pid) then Ok(st.problems[pid]) else Err(NotYours)
  }

  /** A fresh report is readable by its reporter and by nobody else. */
  lemma CreatedIssueVisibleOnlyToReporter(st: State, uid: nat, form: IssueForm, photo: Upload, uuid: string,
                                          spatial: SpatialCount, cfg: Settings, other: nat)
    requires uid < |st.users|
    requires CreateIssue(st, uid, form, photo, uuid, spatial, cfg).Ok?
    ensures var (st2, id) := CreateIssue(st, uid, form, photo, uuid, spatial, cfg).value;
      GetIssueById(st2, uid, id) == Ok(st2.problems[id])
      && (other != uid ==> GetIssueById(st2, other, id) == Err(NotYours))
  {
  }

  /** `get_my_issues`: the reporter's issues, newest first (ids grow with creation time). */
  function MyIssues(ps: seq<Problem>, uid: nat): (r: seq<nat>)
    ensures forall i: nat :: i in r <==> i < |ps| && ps[i].userId == uid
    ensures forall k, l :: 0 <= k < l < |r| ==> r[k] > r[l]
  {
    if ps == [] then []
    else
      var last := |ps| - 1;
      var rest := MyIssues(ps[..last], uid);
      assert forall i :: 0 <= i < last ==> ps[..last][i] == ps[i];
      assert forall k :: 0 <= k < |rest| ==> rest[k] < last by {
        forall k | 0 <= k < |rest| ensures rest[k] < last {
          assert rest[k] in rest;
        }
      }
      if ps[last].userId == uid then [last] + rest else rest
  }

  /** Every issue in the list is one `get_issue_by_id` serves to the same user. */
  lemma MyIssuesAreReadable(st: State, uid: nat, k: nat)
    requires k < |MyIssues(st.problems, uid)|
    ensures GetIssueById(st, uid, MyIssues(st.problems, uid)[k]).Ok?
  {
    assert MyIssues(st.problems, uid)[k] in MyIssues(st.problems, uid);
  }

  // ---------------------------------------------------------------------------
  // Feedback and verification
  // ---------------------------------------------------------------------------

  /**
   * `create_feedback_for_issue`: only the reporter (else 404), only on a
   * completed or verified issue (else 400). The sentiment label is the
   * classifier's output, an input here.
   */
  function CreateFeedback(st: State, uid: nat, pid: nat, body: FeedbackCreate, sentiment: string)
    : (r: Result<(State, nat), HttpError>)
    ensures !Owns(st, uid, pid) ==> r == Err(NotYours)
    ensures r.Ok? <==> Owns(st, uid, pid) && IsResolved(st.problems[pid].status)
    ensures r.Err? ==> r.error.code == NotFound || r.error.code == BadRequest
    ensures r.Ok? ==>
      var (st2, id) := r.value;
      && id == |st.feedback|
      && st2.feedback == st.feedback + [Feedback(pid, uid, body.comment, body.rating, sentiment)]
      && st2.(feedback := st.feedback) == st
  {
    if !Owns(st, uid, pid) then Err(NotYours)
    else if !IsResolved(st.problems[pid].status) then
      Err(HttpError(BadRequest, "You can only give feedback on a completed or verified issue."))
    else
      var id: nat := |st.feedback|;
      Ok((st.(feedback := st.feedback + [Feedback(pid, uid, body.comment, body.rating, sentiment)]), id))
  }

  /**
   * `verify_issue_completion`: only the reporter (else 404), only a completed
   * issue (else 400); the status becomes verified and nothing else changes.
   */
  function VerifyIssueCompletion(st: State, uid: nat, pid: nat): (r: Result<State, HttpError>)
    ensures !Owns(st, uid, pid) ==> r == Err(NotYours)
    ensures r.Ok? <==> Owns(st, uid, pid) && st.problems[pid].status == Completed
    ensures r.Err? ==> r.error.code == NotFound || r.error.code == BadRequest
    ensures r.Ok? ==>
      && |r.value.problems| == |st.problems|
      && r.value.problems[pid] == st.problems[pid].(status := Verified)
      && (forall i :: 0 <= i < |st.problems| && i != pid ==> r.value.problems[i] == st.problems[i])
      && r.value.(problems := st.problems) == st
  {
    if !Owns(st, uid, pid) then Err(NotYours)
    else if st.problems[pid].status != Completed then
      Err(HttpError(BadRequest, "Cannot verify. Problem status is '" + StatusValue(st.problems[pid].status) + "', not 'COMPLETED'."))
    else
      Ok(st.(problems := st.problems[pid := st.problems[pid].(status := Verified)]))
  }

  /** Verification happens once: a verified issue cannot be verified again, but still takes feedback. */
  lemma VerifyOnce(st: State, uid: nat, pid: nat, body: FeedbackCreate, sentiment: string)
    requires VerifyIssueCompletion(st, uid, pid).Ok?
    ensures VerifyIssueCompletion(VerifyIssueCompletion(st, uid, pid).value, uid, pid).Err?
    ensures CreateFeedback(VerifyIssueCompletion(st, uid, pid).value, uid, pid, body, sentiment).Ok?
  {
  }

  /** Neither a pending nor an assigned issue takes feedback or verification. */
  lemma UnresolvedIssueRefused(st: State, uid: nat, pid: nat, body: FeedbackCreate, sentiment: string)
    requires Owns(st, uid, pid) && !IsResolved(st.problems[pid].status)
    ensures CreateFeedback(st, uid, pid, body, sentiment).Err?
    ensures CreateFeedback(st, uid, pid, body, sentiment).error.code == BadRequest
    ensures VerifyIssueCompletion(st, uid, pid).Err?
    ensures VerifyIssueCompletion(st, uid, pid).error.code == BadRequest
  {
  }

  // ---------------------------------------------------------------------------
  // Dashboard counters
  // ---------------------------------------------------------------------------

  /**
   * Which issues a dashboard counts: those of one district (the caller's,
   * which may be unset — SQL `= NULL` matches no row), or the whole state.
   */
  datatype Scope = District(name: Option<string>) | Statewide

  predicate InScope(p: Problem, scope: Scope) {
    match scope
    case Statewide => true
    case District(d) => d.Some? && p.district == d.value
  }

  /**
   * Issue `i` passes a dashboard query's filter: resolved (completed or
   * verified), in scope, and with `recentOnly` also updated within the last
   * 30 days by the caller-supplied clock test `updatedRecently`.
   */
  predicate Counted(ps: seq<Problem>, i: nat, scope: Scope, recentOnly: bool, updatedRecently: nat -> bool)
    requires i < |ps|
  {
    IsResolved(ps[i].status) && InScope(ps[i], scope) && (!recentOnly || updatedRecently(i))
  }

  /** The ids among the first `n` that the filter keeps: the rows `COUNT(id)` counts. */
  function CountedIds(ps: seq<Problem>, n: nat, scope: Scope, recentOnly: bool, updatedRecently: nat -> bool): set<nat>
    requires n <= |ps|
  {
    set i: nat | i < n && Counted(ps, i, scope, recentOnly, updatedRecently)
  }

  /** The number of issues among the first `n` that the filter keeps, counted one issue at a time. */
  function CountResolved(ps: seq<Problem>, n: nat, scope: Scope, recentOnly: bool, updatedRecently: nat -> bool)
    : (r: nat)
    requires n <= |ps|
    ensures r == |CountedIds(ps, n, scope, recentOnly, updatedRecently)|
    ensures r <= n
  {
    if n == 0 then
      assert CountedIds(ps, n, scope, recentOnly, updatedRecently) == {};
      0
    else
      var before := CountedIds(ps, n - 1, scope, recentOnly, updatedRecently);
      var here := Counted(ps, n - 1, scope, recentOnly, updatedRecently);
      var rest := CountResolved(ps, n - 1, scope, recentOnly, updatedRecently);
      assert n - 1 !in before;
      assert CountedIds(ps, n, scope, recentOnly, updatedRecently) == before + (if here then {n - 1} else {});
      rest + (if here then 1 else 0)
  }

  datatype DashboardStats = DashboardStats(totalResolved: nat, resolvedLast30Days: nat)

  /**
   * `get_my_district_stats` and `get_haryana_overview_stats`: the number of
   * resolved issues in scope, and the number of those updated within 30
   * days.
   */
  function Dashboard(st: State, scope: Scope, updatedRecently: nat -> bool): (r: DashboardStats)
    ensures r.totalResolved == |CountedIds(st.problems, |st.problems|, scope, false, updatedRecently)|
    ensures r.resolvedLast30Days == |CountedIds(st.problems, |st.problems|, scope, true, updatedRecently)|
    ensures r.totalResolved <= |st.problems| && r.resolvedLast30Days <= |st.problems|
  {
    DashboardStats(CountResolved(st.problems, |st.problems|, scope, false, updatedRecently),
                   CountResolved(st.problems, |st.problems|, scope, true, updatedRecently))
  }

  /** Reporting a resolved in-scope issue raises the total by exactly one; any other issue leaves it as it was. */
  lemma CountResolvedAppend(ps: seq<Problem>, p: Problem, scope: Scope, updatedRecently: nat -> bool)
    ensures CountResolved(ps + [p], |ps| + 1, scope, false, updatedRecently)
         == CountResolved(ps, |ps|, scope, false, updatedRecently) + (if IsResolved(p.status) && InScope(p, scope) then 1 else 0)
  {
    var qs := ps + [p];
    assert CountedIds(qs, |ps|, scope, false, updatedRecently) == CountedIds(ps, |ps|, scope, false, updatedRecently) by {
      forall i: nat | i < |ps|
        ensures Counted(qs, i, scope, false, updatedRecently) == Counted(ps, i, scope, false, updatedRecently)
      {
        assert qs[i] == ps[i];
      }
    }
    assert qs[|ps|] == p;
  }

  /** The recent count adds a condition to the same filter, so it never exceeds the total. */
  lemma {:induction false} RecentAtMostTotal(ps: seq<Problem>, n: nat, scope: Scope, updatedRecently: nat -> bool)
    requires n <= |ps|
    ensures CountResolved(ps, n, scope, true, updatedRecently) <= CountResolved(ps, n, scope, false, updatedRecently)
  {
    if n > 0 {
      RecentAtMostTotal(ps, n - 1, scope, updatedRecently);
    }
  }

  /** A district dashboard never counts more than the state-wide one, and an unset district counts nothing. */
  lemma {:induction false} DistrictAtMostStatewide(ps: seq<Problem>, n: nat, d: Option<string>, recentOnly: bool,
                                                  updatedRecently: nat -> bool)
    requires n <= |ps|
    ensures CountResolved(ps, n, District(d), recentOnly, updatedRecently)
         <= CountResolved(ps, n, Statewide, recentOnly, updatedRecently)
    ensures d.None? ==> CountResolved(ps, n, District(d), recentOnly, updatedRecently) == 0
  {
    if n > 0 {
      DistrictAtMostStatewide(ps, n - 1, d, recentOnly, updatedRecently);
    }
  }

  /** The dashboard's two numbers are ordered. */
  lemma DashboardOrdered(st: State, scope: Scope, updatedRecently: nat -> bool)
    ensures Dashboard(st, scope, updatedRecently).resolvedLast30Days <= Dashboard(st, scope, updatedRecently).totalResolved
  {
    RecentAtMostTotal(st.problems, |st.problems|, scope, updatedRecently);
  }
}
