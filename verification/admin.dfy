/**
 * The district-admin routes that change state: creating departments,
 * creating workers in the admin's own district, and deactivating them.
 */
module AdminRoutes {
  import opened Common
  import opened Strings
  import opened Models
  import opened Config
  import opened Schemas
  import opened Auth
  import opened Like
  import opened Assignment

  const AdminRequired: HttpError := HttpError(Forbidden, "Access denied: Admin role required.")

  /** `get_current_admin_user`: the current user, if an admin; else 403. */
  function GetCurrentAdminUser(st: State, uid: nat): (r: Result<nat, HttpError>)
    requires uid < |st.users|
    ensures r.Ok? <==> st.users[uid].role == Admin
    ensures r.Ok? ==> r.value == uid
    ensures r.Err? ==> r.error == AdminRequired
  {
    if st.users[uid].role != Admin then Err(AdminRequired) else Ok(uid)
  }

  // ---------------------------------------------------------------------------
  // Departments
  // ---------------------------------------------------------------------------

  /** No two departments have names equal up to case. */
  predicate CaselessUniqueDepartments(st: State) {
    forall i, j :: 0 <= i < |st.departments| && 0 <= j < |st.departments| && i != j ==>
      !EqualIgnoringCase(st.departments[i].name, st.departments[j].name)
  }

  /** Some department already has this name, up to case. */
  predicate NameInUse(st: State, name: string) {
    exists i :: 0 <= i < |st.departments| && EqualIgnoringCase(st.departments[i].name, name)
  }

  /** A validated department name has no wildcard or escape character. */
  lemma DepartmentNameIsPlain(name: string)
    requires AllChars(name, DepartmentNameChar)
    ensures Plain(name)
  {
  }

  /** For a validated name, the existence query is a case-insensitive comparison with every department. */
  lemma ExistenceQueryIgnoresCase(st: State, name: string)
    requires AllChars(name, DepartmentNameChar)
    ensures forall i :: 0 <= i < |st.departments| ==>
      (NameLike(st.departments[i], name) <==> EqualIgnoringCase(st.departments[i].name, name))
  {
    DepartmentNameIsPlain(name);
    forall i | 0 <= i < |st.departments|
      ensures NameLike(st.departments[i], name) <==> EqualIgnoringCase(st.departments[i].name, name)
    {
      PlainMeansEqualIgnoringCase(st.departments[i].name, name);
    }
  }

  /**
   * `create_department`: admins only (403); the body must validate (422);
   * a name already present up to case is refused (400, or 500 when several
   * rows match and the one-row query raises); otherwise the capitalised name
   * is appended.
   */
  function CreateDepartment(st: State, uid: nat, rawName: string): (r: Result<(State, nat), HttpError>)
    requires uid < |st.users|
    ensures st.users[uid].role != Admin ==> r == Err(AdminRequired)
    ensures st.users[uid].role == Admin && ValidateDepartmentName(rawName).Err? ==> r.Err? && r.error.code == UnprocessableEntity
    ensures r.Ok? <==>
      st.users[uid].role == Admin && ValidateDepartmentName(rawName).Ok? && !NameInUse(st, Strip(rawName))
    ensures r.Err? && st.users[uid].role == Admin && ValidateDepartmentName(rawName).Ok? ==>
      r.error.code == BadRequest || r.error.code == InternalServerError
    ensures r.Ok? ==>
      var (st2, id) := r.value;
      && id == |st.departments|
      && st2.departments == st.departments + [Department(Capitalize(Strip(rawName)))]
      && st2.(departments := st.departments) == st
  {
    var _ :- GetCurrentAdminUser(st, uid);
    var name :- ValidateDepartmentName(rawName);
    ExistenceQueryIgnoresCase(st, name);
    match LookupDepartment(st.departments, name)
    case NoDepartment =>
      var id: nat := |st.departments|;
      Ok((st.(departments := st.departments + [Department(Capitalize(name))]), id))
    case Found(_) => Err(HttpError(BadRequest, "Department already exists."))
    case Ambiguous => Err(HttpError(InternalServerError, "Multiple rows were found when one or none was required"))
  }

  /** Departments created through this route never collide up to case. */
  lemma CreateDepartmentKeepsCaselessUnique(st: State, uid: nat, rawName: string)
    requires uid < |st.users| && CaselessUniqueDepartments(st)
    requires CreateDepartment(st, uid, rawName).Ok?
    ensures CaselessUniqueDepartments(CreateDepartment(st, uid, rawName).value.0)
  {
    var st2 := CreateDepartment(st, uid, rawName).value.0;
    var name := Strip(rawName);
    LowerOfCapitalize(name);
    var n := |st.departments|;
    forall i, j | 0 <= i < |st2.departments| && 0 <= j < |st2.departments| && i != j
      ensures !EqualIgnoringCase(st2.departments[i].name, st2.departments[j].name)
    {
      if i < n && j < n {
        assert st2.departments[i] == st.departments[i] && st2.departments[j] == st.departments[j];
      } else if i < n {
        assert st2.departments[i] == st.departments[i];
      } else {
        assert st2.departments[j] == st.departments[j];
      }
    }
  }

  /** Creating the same department twice, in any capitalisation, is refused the second time. */
  lemma CreateDepartmentTwiceRefused(st: State, uid: nat, rawName: string, again: string)
    requires uid < |st.users|
    requires CreateDepartment(st, uid, rawName).Ok?
    requires EqualIgnoringCase(Strip(again), Strip(rawName)) && ValidateDepartmentName(again).Ok?
    ensures CreateDepartment(CreateDepartment(st, uid, rawName).value.0, uid, again).Err?
  {
    var st2 := CreateDepartment(st, uid, rawName).value.0;
    var n := |st.departments|;
    LowerOfCapitalize(Strip(rawName));
    assert EqualIgnoringCase(st2.departments[n].name, Strip(again));
    assert NameInUse(st2, Strip(again));
  }

  // ---------------------------------------------------------------------------
  // Workers
  // ---------------------------------------------------------------------------

  /**
   * `create_worker`: admins only (403); the body must validate (422); the
   * rest is `AddWorker`.
   */
  function CreateWorker(st: State, uid: nat, raw: RawUser, emailCheck: EmailValidator, departmentId: int): (r: Result<(State, nat), HttpError>)
    requires uid < |st.users|
    ensures st.users[uid].role != Admin ==> r == Err(AdminRequired)
    ensures st.users[uid].role == Admin && ParseUserCreate(raw, emailCheck).Err? ==> r.Err? && r.error.code == UnprocessableEntity
    ensures st.users[uid].role == Admin && ParseUserCreate(raw, emailCheck).Ok? ==>
      r == AddWorker(st, st.users[uid].district, ParseUserCreate(raw, emailCheck).value, departmentId)
  {
    var _ :- GetCurrentAdminUser(st, uid);
    var req :- ParseUserCreate(raw, emailCheck);
    AddWorker(st, st.users[uid].district, req, departmentId)
  }

  /**
   * The checks and inserts of `create_worker` once the body is valid, in
   * order: a district other than the admin's is 403, a taken email is 400,
   * an unknown department is 404, a weak password is 400. A WORKER user and
   * its worker profile are appended.
   */
  function AddWorker(st: State, adminDistrict: Option<string>, req: UserCreate, departmentId: int)
    : (r: Result<(State, nat), HttpError>)
    ensures r.Ok? <==>
      && Some(req.district) == adminDistrict
      && !EmailTaken(st, req.email)
      && 0 <= departmentId < |st.departments|
      && StrongPassword(req.password)
    ensures Some(req.district) != adminDistrict ==>
      r == Err(HttpError(Forbidden, "Admin can only create workers in their own district."))
    ensures Some(req.district) == adminDistrict && EmailTaken(st, req.email) ==>
      r == Err(HttpError(BadRequest, "A user with this email already exists."))
    ensures Some(req.district) == adminDistrict && !EmailTaken(st, req.email) && !(0 <= departmentId < |st.departments|) ==>
      r == Err(HttpError(NotFound, "Department not found."))
    ensures r.Ok? ==>
      var (st2, id) := r.value;
      && id == |st.users| && |st2.users| == id + 1 && st2.users[..id] == st.users
      && st2.users[id].role == Worker && st2.users[id].isActive
      && st2.users[id].email == req.email && st2.users[id].district == adminDistrict
      && VerifyPassword(req.password, st2.users[id].hashedPassword)
      && st2.workers == st.workers + [NewWorkerProfile(id, departmentId as nat)]
      && st2.problems == st.problems && st2.departments == st.departments
      && st2.media == st.media && st2.feedback == st.feedback
  {
    if Some(req.district) != adminDistrict then
      Err(HttpError(Forbidden, "Admin can only create workers in their own district."))
    else if EmailTaken(st, req.email) then Err(HttpError(BadRequest, "A user with this email already exists."))
    else if !(0 <= departmentId < |st.departments|) then Err(HttpError(NotFound, "Department not found."))
    else
      var hashed :- GetPasswordHash(req.password);
      var id: nat := |st.users|;
      var u := NewUser(req.fullName, req.email, hashed, Worker, Some(req.district), Some(req.pincode));
      Ok((st.(users := st.users + [u], workers := st.workers + [NewWorkerProfile(id, departmentId as nat)]), id))
  }

  /** Creating a worker keeps the declared table constraints. */
  lemma AddWorkerKeepsConsistency(st: State, adminDistrict: Option<string>, req: UserCreate, departmentId: int)
    requires Consistent(st)
    requires AddWorker(st, adminDistrict, req, departmentId).Ok?
    ensures Consistent(AddWorker(st, adminDistrict, req, departmentId).value.0)
  {
    var (st2, id) := AddWorker(st, adminDistrict, req, departmentId).value;
    assert forall i :: 0 <= i < id ==> st2.users[i] == st.users[i];
    assert forall i :: 0 <= i < |st.users| ==> st.users[i].email != req.email;
    assert UniqueEmails(st2);
    var n := |st.workers|;
    assert forall w :: 0 <= w < n ==> st2.workers[w] == st.workers[w];
    assert forall w :: 0 <= w < n ==> st.workers[w].userId < id;
    assert UniqueWorkerUsers(st2);
  }

  /** A newly created worker is, until its first assignment, a candidate for its department in the admin's district. */
  lemma NewWorkerIsEligible(st: State, adminDistrict: Option<string>, req: UserCreate, departmentId: int, cfg: Settings)
    requires cfg.maxDailyTasksPerWorker > 0
    requires AddWorker(st, adminDistrict, req, departmentId).Ok?
    ensures var st2 := AddWorker(st, adminDistrict, req, departmentId).value.0;
      Eligible(st2, |st.workers|, departmentId as nat, req.district, cfg)
  {
  }

  /**
   * `deactivate_worker`: admins only (403); the target must be a WORKER of
   * the admin's district (else 404) — an admin without a district finds no
   * one; only the active flag is cleared, assigned issues stay as they are.
   */
  function DeactivateWorker(st: State, uid: nat, workerUserId: int): (r: Result<State, HttpError>)
    requires uid < |st.users|
    ensures st.users[uid].role != Admin ==> r == Err(AdminRequired)
    ensures r.Ok? <==>
      && st.users[uid].role == Admin
      && 0 <= workerUserId < |st.users|
      && st.users[workerUserId].role == Worker
      && st.users[uid].district.Some?
      && st.users[workerUserId].district == st.users[uid].district
    ensures r.Err? && st.users[uid].role == Admin ==> r.error == HttpError(NotFound, "Worker not found in your district.")
    ensures r.Ok? ==>
      && |r.value.users| == |st.users|
      && r.value.users[workerUserId] == st.users[workerUserId].(isActive := false)
      && (forall i :: 0 <= i < |st.users| && i != workerUserId ==> r.value.users[i] == st.users[i])
      && r.value.(users := st.users) == st
  {
    var _ :- GetCurrentAdminUser(st, uid);
    if !(0 <= workerUserId < |st.users|) || st.users[workerUserId].role != Worker
       || st.users[uid].district.None? || st.users[workerUserId].district != st.users[uid].district
    then Err(HttpError(NotFound, "Worker not found in your district."))
    else Ok(st.(users := st.users[workerUserId := st.users[workerUserId].(isActive := false)]))
  }

  /**
   * A deactivated worker is never chosen by a later assignment run, and can
   * no longer log in; the issues already assigned to them keep their worker.
   */
  lemma DeactivatedWorkerLeavesPool(st: State, uid: nat, workerUserId: int, cfg: Settings, delivery: Delivery,
                                    password: string)
    requires uid < |st.users| && UniqueEmails(st)
    requires DeactivateWorker(st, uid, workerUserId).Ok?
    ensures var st2 := DeactivateWorker(st, uid, workerUserId).value;
      var run := TriggerAutoAssignment(st2, cfg, delivery);
      && (run.outcome.Placed? ==> st2.workers[run.outcome.worker].userId != workerUserId)
      && Login(st2, st.users[workerUserId].email, password).Err?
      && st2.problems == st.problems
  {
    var st2 := DeactivateWorker(st, uid, workerUserId).value;
    var run := TriggerAutoAssignment(st2, cfg, delivery);
    if run.outcome.Placed? {
      AssignedWorkerQualifies(st2, cfg, delivery);
    }
    assert UniqueEmails(st2) by {
      forall i, j | 0 <= i < |st2.users| && 0 <= j < |st2.users| && i != j
        ensures st2.users[i].email != st2.users[j].email
      {
        assert st2.users[i].email == st.users[i].email;
        assert st2.users[j].email == st.users[j].email;
      }
    }
    FindUserByEmailUnique(st2, workerUserId as nat);
  }
}
