/**
 * The super-admin routes: creating and deactivating district admins, and
 * the resolution rate of the state-wide and per-district overviews.
 */
module SuperAdminRoutes {
  import opened Common
  import opened Models
  import opened Priority
  import opened Schemas
  import opened Auth
  import opened UserRoutes

  const SuperAdminRequired: HttpError := HttpError(Forbidden, "Access denied: Super Admin role required.")

  /** `get_current_super_admin_user`: the current user, if a super admin; else 403. */
  function GetCurrentSuperAdminUser(st: State, uid: nat): (r: Result<nat, HttpError>)
    requires uid < |st.users|
    ensures r.Ok? <==> st.users[uid].role == SuperAdmin
    ensures r.Ok? ==> r.value == uid
    ensures r.Err? ==> r.error == SuperAdminRequired
  {
    if st.users[uid].role != SuperAdmin then Err(SuperAdminRequired) else Ok(uid)
  }

  /**
   * `create_district_admin`: super admins only (403); the body must
   * validate (422); a taken email is 400, a weak password is 400; otherwise
   * an active ADMIN with the body's district is appended.
   */
  function CreateDistrictAdmin(st: State, uid: nat, raw: RawUser, emailCheck: EmailValidator): (r: Result<(State, nat), HttpError>)
    requires uid < |st.users|
    ensures st.users[uid].role != SuperAdmin ==> r == Err(SuperAdminRequired)
    ensures st.users[uid].role == SuperAdmin && ParseUserCreate(raw, emailCheck).Err? ==> r.Err? && r.error.code == UnprocessableEntity
    ensures st.users[uid].role == SuperAdmin && ParseUserCreate(raw, emailCheck).Ok? && EmailTaken(st, emailCheck(raw.email).value) ==>
      r == Err(HttpError(BadRequest, "A user with this email already exists."))
    ensures r.Ok? <==>
      && st.users[uid].role == SuperAdmin && ParseUserCreate(raw, emailCheck).Ok?
      && !EmailTaken(st, emailCheck(raw.email).value) && StrongPassword(raw.password)
    ensures r.Ok? ==>
      var (st2, id) := r.value;
      && id == |st.users| && |st2.users| == id + 1 && st2.users[..id] == st.users
      && st2.users[id].role == Admin && st2.users[id].isActive
      && st2.users[id].email == emailCheck(raw.email).value && st2.users[id].district == Some(raw.district)
      && VerifyPassword(raw.password, st2.users[id].hashedPassword)
      && st2.(users := st.users) == st
  {
    var _ :- GetCurrentSuperAdminUser(st, uid);
    var req :- ParseUserCreate(raw, emailCheck);
    if EmailTaken(st, req.email) then Err(HttpError(BadRequest, "A user with this email already exists."))
    else
      var hashed :- GetPasswordHash(req.password);
      var id: nat := |st.users|;
      Ok((st.(users := st.users + [NewUser(req.fullName, req.email, hashed, Admin, Some(req.district), Some(req.pincode))]), id))
  }

  /** A new district admin passes the admin guard and can log in, under the stored address, with the chosen password. */
  lemma NewAdminCanActAndLogIn(st: State, uid: nat, raw: RawUser, emailCheck: EmailValidator)
    requires uid < |st.users|
    requires CreateDistrictAdmin(st, uid, raw, emailCheck).Ok?
    ensures var (st2, id) := CreateDistrictAdmin(st, uid, raw, emailCheck).value;
      st2.users[id].role == Admin && Login(st2, emailCheck(raw.email).value, raw.password).Ok?
  {
    var (st2, id) := CreateDistrictAdmin(st, uid, raw, emailCheck).value;
    AppendedUserFound(st.users, st2.users, emailCheck(raw.email).value);
  }

  /** A user appended under an address nobody held is the one a lookup of that address finds. */
  lemma AppendedUserFound(users: seq<User>, users2: seq<User>, email: string)
    requires |users2| == |users| + 1 && users2[..|users|] == users && users2[|users|].email == email
    requires FindUserByEmail(users, email).None?
    ensures FindUserByEmail(users2, email) == Some(|users|)
  {
    forall i | 0 <= i < |users|
      ensures users2[i].email != email
    {
      assert users2[i] == users[i];
    }
  }

  /**
   * `deactivate_admin`: super admins only (403); the target must be an
   * ADMIN (else 404); only its active flag is cleared.
   */
  function DeactivateAdmin(st: State, uid: nat, adminId: int): (r: Result<State, HttpError>)
    requires uid < |st.users|
    ensures st.users[uid].role != SuperAdmin ==> r == Err(SuperAdminRequired)
    ensures r.Ok? <==> st.users[uid].role == SuperAdmin && 0 <= adminId < |st.users| && st.users[adminId].role == Admin
    ensures r.Err? && st.users[uid].role == SuperAdmin ==> r.error == HttpError(NotFound, "Admin not found.")
    ensures r.Ok? ==>
      && |r.value.users| == |st.users|
      && r.value.users[adminId] == st.users[adminId].(isActive := false)
      && (forall i :: 0 <= i < |st.users| && i != adminId ==> r.value.users[i] == st.users[i])
      && r.value.(users := st.users) == st
  {
    var _ :- GetCurrentSuperAdminUser(st, uid);
    if !(0 <= adminId < |st.users|) || st.users[adminId].role != Admin then Err(HttpError(NotFound, "Admin not found."))
    else Ok(st.(users := st.users[adminId := st.users[adminId].(isActive := false)]))
  }

  /** A super admin can never deactivate themself, nor any non-admin account. */
  lemma DeactivateAdminSparesOthers(st: State, uid: nat, target: nat)
    requires uid < |st.users| && target < |st.users| && st.users[target].role != Admin
    ensures DeactivateAdmin(st, uid, target).Err?
  {
  }

  /** A deactivated admin is refused by every authenticated route. */
  lemma DeactivatedAdminLocked(st: State, uid: nat, adminId: nat)
    requires uid < |st.users| && UniqueEmails(st)
    requires DeactivateAdmin(st, uid, adminId).Ok?
    ensures var st2 := DeactivateAdmin(st, uid, adminId).value;
      GetCurrentUser(st2, Payload(Some(st.users[adminId].email))).Err?
  {
    var st2 := DeactivateAdmin(st, uid, adminId).value;
    assert UniqueEmails(st2) by {
      forall i, j | 0 <= i < |st2.users| && 0 <= j < |st2.users| && i != j
        ensures st2.users[i].email != st2.users[j].email
      {
        assert st2.users[i].email == st.users[i].email;
        assert st2.users[j].email == st.users[j].email;
      }
    }
    FindUserByEmailUnique(st2, adminId);
  }

  // ---------------------------------------------------------------------------
  // Resolution rate
  // ---------------------------------------------------------------------------

  /** `round(x, 1)`, with halves rounded up: tenths are hundredths of a tenth of `x`. */
  function Round1(x: real): (r: real)
    ensures -0.05 < r - x <= 0.05
    ensures r * 10.0 == Hundredths(x / 10.0) as real
  {
    Round2(x / 10.0) * 10.0
  }

  /**
   * The percentage of resolved issues, to one decimal place; 0.0 when there
   * are no issues at all rather than a division by zero.
   */
  function ResolutionRate(resolved: nat, total: nat): (r: real)
    ensures total == 0 ==> r == 0.0
    ensures total > 0 ==> -0.05 < r - (resolved as real / total as real * 100.0) <= 0.05
    ensures total > 0 ==> r * 10.0 == Hundredths(resolved as real / total as real * 10.0) as real
  {
    if total > 0 then Round1(resolved as real / total as real * 100.0) else 0.0
  }

  /** The rate is a percentage: with at most `total` resolved issues it lies in [0, 100]. */
  lemma ResolutionRateBounds(resolved: nat, total: nat)
    requires resolved <= total
    ensures 0.0 <= ResolutionRate(resolved, total) <= 100.0
  {
    if total > 0 {
      var x := resolved as real / total as real * 100.0;
      assert resolved as real / total as real <= 1.0;
      assert 0.0 <= x <= 100.0;
      Round2Monotone(0.0, x / 10.0);
      Round2Monotone(x / 10.0, 10.0);
      Round2Exact(0);
      Round2Exact(1000);
    }
  }

  /**
   * The state-wide overview's rate: completed plus verified issues over all
   * issues, as a percentage to one decimal place.
   */
  function OverviewRate(st: State, updatedRecently: nat -> bool): (r: real)
    ensures |st.problems| == 0 ==> r == 0.0
    ensures 0.0 <= r <= 100.0
    ensures |st.problems| > 0 ==>
      var resolved := |CountedIds(st.problems, |st.problems|, Statewide, false, updatedRecently)|;
      && -0.05 < r - resolved as real / |st.problems| as real * 100.0 <= 0.05
      && r * 10.0 == Hundredths(resolved as real / |st.problems| as real * 10.0) as real
  {
    var resolved := CountResolved(st.problems, |st.problems|, Statewide, false, updatedRecently);
    ResolutionRateBounds(resolved, |st.problems|);
    ResolutionRate(resolved, |st.problems|)
  }
}
