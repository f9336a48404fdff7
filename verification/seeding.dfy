/**
 * Start-up seeding: the state super admin and one admin per Haryana
 * district, and the default departments. Both runs create a record only
 * when none with the same key exists, so they can be repeated.
 */
module Seeding {
  import opened Common
  import opened Strings
  import opened Models
  import opened Auth
  import opened AdminRoutes

  // ---------------------------------------------------------------------------
  // Looking users up in a growing list
  // ---------------------------------------------------------------------------

  /** Appending a user with a fresh email keeps every earlier lookup and makes the new email findable. */
  lemma AppendFreshUser(st: State, u: User, e: string)
    requires !EmailTaken(st, u.email)
    ensures var st2 := st.(users := st.users + [u]);
      FindUserByEmail(st2.users, e) ==
        if EmailTaken(st, e) then FindUserByEmail(st.users, e)
        else if u.email == e then Some(|st.users|) else None
  {
    var users2 := st.users + [u];
    assert forall i :: 0 <= i < |st.users| ==> users2[i] == st.users[i];
    match FindUserByEmail(st.users, e)
    case Some(i) =>
      assert users2[i].email == e;
    case None =>
      if u.email == e {
        assert users2[|st.users|].email == e;
      }
  }

  /** Appending a user with a fresh email keeps emails unique. */
  lemma AppendFreshUserKeepsUnique(st: State, u: User)
    requires !EmailTaken(st, u.email)
    ensures UniqueEmails(st) ==> UniqueEmails(st.(users := st.users + [u]))
  {
    var users2 := st.users + [u];
    forall i | 0 <= i < |st.users|
      ensures users2[i].email != u.email
    {
      assert users2[i] == st.users[i];
    }
  }

  // ---------------------------------------------------------------------------
  // District admins
  // ---------------------------------------------------------------------------

  /** The 22 districts of Haryana, in the order they are seeded. */
  const HaryanaDistricts: seq<string> := [
    "Ambala", "Bhiwani", "Charkhi Dadri", "Faridabad", "Fatehabad",
    "Gurugram", "Hisar", "Jhajjar", "Jind", "Kaithal", "Karnal",
    "Kurukshetra", "Mahendragarh", "Nuh", "Palwal", "Panchkula",
    "Panipat", "Rewari", "Rohtak", "Sirsa", "Sonipat", "Yamunanagar"]

  const SeedPincode: string := "000000"
  const GovDomain: string := "@gov.in"
  const SeedPasswordSuffix: string := "@4321"

  const SuperAdminEmail: string := "haryana@gov.in"
  const SuperAdminPassword: string := "Haryana@4321"

  /** The state super admin, hashed without the strength check. */
  const SuperAdminUser: User :=
    NewUser("Haryana State Administrator", SuperAdminEmail, Bcrypt(SuperAdminPassword), SuperAdmin,
            Some("Haryana"), Some(SeedPincode))

  /** A district admin's email: the district lower-cased with spaces removed, at gov.in. */
  function DistrictEmail(d: string): (e: string)
    ensures |e| >= |GovDomain| && e[|e| - |GovDomain|..] == GovDomain
    ensures ' ' !in e
    ensures !HasChar(e, IsUpper)
  {
    var name := RemoveChar(d, ' ');
    var local := Lower(name);
    var e := local + GovDomain;
    assert e[|e| - |GovDomain|..] == GovDomain;
    forall i | 0 <= i < |e|
      ensures e[i] != ' ' && !IsUpper(e[i])
    {
      if i < |local| {
        assert e[i] == local[i] == LowerChar(name[i]);
        assert name[i] in name;
      } else {
        assert e[i] == GovDomain[i - |local|];
      }
    }
    e
  }

  /** A district admin's password: the district with spaces removed, then "@4321". */
  function DistrictPassword(d: string): (p: string)
    ensures ' ' !in p
    ensures |p| == |RemoveChar(d, ' ')| + 5
  {
    RemoveChar(d, ' ') + SeedPasswordSuffix
  }

  /** The suffix brings a digit and a special character, and no letter. */
  lemma SuffixClasses()
    ensures HasChar(SeedPasswordSuffix, IsDigit) && HasChar(SeedPasswordSuffix, IsSpecial)
    ensures !HasChar(SeedPasswordSuffix, IsUpper) && !HasChar(SeedPasswordSuffix, IsLower)
  {
    assert SeedPasswordSuffix[0] == '@' && IsSpecial(SeedPasswordSuffix[0]);
    assert IsDigit(SeedPasswordSuffix[1]);
  }

  /**
   * The seeded password would pass the strength rule exactly when the
   * district, without spaces, has at least three characters including an
   * upper- and a lower-case letter: the suffix brings the digit and the
   * special character.
   */
  lemma DistrictPasswordStrength(d: string)
    ensures StrongPassword(DistrictPassword(d)) <==>
      |RemoveChar(d, ' ')| >= 3 && HasChar(RemoveChar(d, ' '), IsUpper) && HasChar(RemoveChar(d, ' '), IsLower)
  {
    var name := RemoveChar(d, ' ');
    SuffixClasses();
    HasCharAppend(name, SeedPasswordSuffix, IsUpper);
    HasCharAppend(name, SeedPasswordSuffix, IsLower);
    HasCharAppend(name, SeedPasswordSuffix, IsDigit);
    HasCharAppend(name, SeedPasswordSuffix, IsSpecial);
  }

  /** A character class occurs in a concatenation iff it occurs in one of the parts. */
  lemma HasCharAppend(a: string, b: string, p: char -> bool)
    ensures HasChar(a + b, p) <==> HasChar(a, p) || HasChar(b, p)
  {
    var s := a + b;
    if HasChar(s, p) {
      var i :| 0 <= i < |s| && p(s[i]);
      if i >= |a| {
        assert b[i - |a|] == s[i];
      }
    }
    if HasChar(a, p) {
      var i :| 0 <= i < |a| && p(a[i]);
      assert s[i] == a[i];
    }
    if HasChar(b, p) {
      var i :| 0 <= i < |b| && p(b[i]);
      assert s[|a| + i] == b[i];
    }
  }

  /** The admin created for a district. */
  function DistrictAdmin(d: string): (u: User)
    ensures u.role == Admin && u.isActive && u.district == Some(d)
    ensures u.email == DistrictEmail(d) && VerifyPassword(DistrictPassword(d), u.hashedPassword)
  {
    NewUser(d + " District Administrator", DistrictEmail(d), Bcrypt(DistrictPassword(d)), Admin, Some(d), Some(SeedPincode))
  }

  /** One step of the district loop: `d`'s admin is added unless a user already has its email. */
  function SeedOne(st: State, d: string): (r: State)
    ensures EmailTaken(st, DistrictEmail(d)) ==> r == st
    ensures !EmailTaken(st, DistrictEmail(d)) ==> r == st.(users := st.users + [DistrictAdmin(d)])
  {
    if EmailTaken(st, DistrictEmail(d)) then st else st.(users := st.users + [DistrictAdmin(d)])
  }

  /** The district loop, in list order. */
  function SeedDistricts(st: State, ds: seq<string>): (r: State)
    ensures r.(users := st.users) == st
    ensures |st.users| <= |r.users| && r.users[..|st.users|] == st.users
    decreases |ds|
  {
    if ds == [] then st
    else
      var st1 := SeedOne(st, ds[0]);
      var r := SeedDistricts(st1, ds[1..]);
      assert r.users[..|st.users|] == r.users[..|st1.users|][..|st.users|];
      r
  }

  /** A run over districts whose emails are all taken adds no one. */
  lemma {:induction false} SeedDistrictsIdle(st: State, ds: seq<string>)
    requires forall k :: 0 <= k < |ds| ==> EmailTaken(st, DistrictEmail(ds[k]))
    ensures SeedDistricts(st, ds) == st
    decreases |ds|
  {
    if ds != [] {
      SeedDistrictsIdle(st, ds[1..]);
    }
  }

  /** An email taken before the loop is still held by the same user afterwards. */
  lemma {:induction false} SeedDistrictsKeepsLookups(st: State, ds: seq<string>, e: string)
    requires EmailTaken(st, e)
    ensures FindUserByEmail(SeedDistricts(st, ds).users, e) == FindUserByEmail(st.users, e)
    decreases |ds|
  {
    if ds != [] {
      var d := DistrictEmail(ds[0]);
      if !EmailTaken(st, d) {
        AppendFreshUser(st, DistrictAdmin(ds[0]), e);
        var st1 := st.(users := st.users + [DistrictAdmin(ds[0])]);
        SeedDistrictsKeepsLookups(st1, ds[1..], e);
      } else {
        SeedDistrictsKeepsLookups(st, ds[1..], e);
      }
    }
  }

  /** The loop keeps emails unique: it only appends admins whose email is free. */
  lemma {:induction false} SeedDistrictsKeepsUnique(st: State, ds: seq<string>)
    requires UniqueEmails(st)
    ensures UniqueEmails(SeedDistricts(st, ds))
    decreases |ds|
  {
    if ds != [] {
      if EmailTaken(st, DistrictEmail(ds[0])) {
        SeedDistrictsKeepsUnique(st, ds[1..]);
      } else {
        AppendFreshUserKeepsUnique(st, DistrictAdmin(ds[0]));
        SeedDistrictsKeepsUnique(st.(users := st.users + [DistrictAdmin(ds[0])]), ds[1..]);
      }
    }
  }

  /** After the loop every district's email is registered. */
  lemma {:induction false} SeedDistrictsTakesAll(st: State, ds: seq<string>)
    ensures forall k :: 0 <= k < |ds| ==> EmailTaken(SeedDistricts(st, ds), DistrictEmail(ds[k]))
    decreases |ds|
  {
    if ds != [] {
      var d := DistrictEmail(ds[0]);
      var st1 := if EmailTaken(st, d) then st else st.(users := st.users + [DistrictAdmin(ds[0])]);
      if !EmailTaken(st, d) {
        AppendFreshUser(st, DistrictAdmin(ds[0]), d);
      }
      SeedDistrictsTakesAll(st1, ds[1..]);
      SeedDistrictsKeepsLookups(st1, ds[1..], d);
      forall k | 1 <= k < |ds|
        ensures EmailTaken(SeedDistricts(st, ds), DistrictEmail(ds[k]))
      {
        assert ds[k] == ds[1..][k - 1];
      }
    }
  }

  /** A step for another district leaves a free email free; a step for its own district takes it. */
  lemma SeedOneLookup(st: State, d: string, e: string)
    requires !EmailTaken(st, e)
    ensures DistrictEmail(d) != e ==> !EmailTaken(SeedOne(st, d), e)
    ensures DistrictEmail(d) == e ==> FindUserByEmail(SeedOne(st, d).users, e) == Some(|st.users|)
  {
    if !EmailTaken(st, DistrictEmail(d)) {
      AppendFreshUser(st, DistrictAdmin(d), e);
    }
  }

  /** The holder of `e` in `r` is a user added after the first `n`, the admin of one of `ds[..k+1]`. */
  predicate HeldByNewAdmin(r: State, n: nat, e: string, ds: seq<string>, k: nat)
    requires k < |ds|
  {
    var h := FindUserByEmail(r.users, e);
    h.Some? && h.value >= n && exists m :: 0 <= m <= k && r.users[h.value] == DistrictAdmin(ds[m])
  }

  /**
   * A district whose email was free before the loop ends up held by a new
   * ADMIN: the one of the first district in the list with that email.
   */
  lemma {:induction false} SeedDistrictsHolder(st: State, ds: seq<string>, k: nat)
    requires k < |ds| && !EmailTaken(st, DistrictEmail(ds[k]))
    ensures HeldByNewAdmin(SeedDistricts(st, ds), |st.users|, DistrictEmail(ds[k]), ds, k)
    decreases |ds|
  {
    var e := DistrictEmail(ds[k]);
    var st1 := SeedOne(st, ds[0]);
    assert SeedDistricts(st, ds) == SeedDistricts(st1, ds[1..]);
    SeedOneLookup(st, ds[0], e);
    if DistrictEmail(ds[0]) == e {
      HolderIsFirst(st, ds, k);
    } else {
      assert ds[k] == ds[1..][k - 1];
      SeedDistrictsHolder(st1, ds[1..], k - 1);
      HolderShift(st1, |st.users|, e, ds, k);
    }
  }

  /** When the first district has the email, its admin, appended first, keeps it to the end. */
  lemma HolderIsFirst(st: State, ds: seq<string>, k: nat)
    requires k < |ds| && !EmailTaken(st, DistrictEmail(ds[k])) && DistrictEmail(ds[0]) == DistrictEmail(ds[k])
    ensures HeldByNewAdmin(SeedDistricts(st, ds), |st.users|, DistrictEmail(ds[k]), ds, k)
  {
    var e := DistrictEmail(ds[k]);
    var st1 := SeedOne(st, ds[0]);
    SeedOneLookup(st, ds[0], e);
    SeedDistrictsKeepsLookups(st1, ds[1..], e);
    var r := SeedDistricts(st1, ds[1..]);
    assert r.users[|st.users|] == st1.users[|st.users|] == DistrictAdmin(ds[0]);
  }

  /** A holder found in the rest of the list is a holder for the whole list. */
  lemma HolderShift(st1: State, n: nat, e: string, ds: seq<string>, k: nat)
    requires 0 < k < |ds| && n <= |st1.users|
    requires HeldByNewAdmin(SeedDistricts(st1, ds[1..]), |st1.users|, e, ds[1..], k - 1)
    ensures HeldByNewAdmin(SeedDistricts(st1, ds[1..]), n, e, ds, k)
  {
    var r := SeedDistricts(st1, ds[1..]);
    var m :| 0 <= m <= k - 1 && r.users[FindUserByEmail(r.users, e).value] == DistrictAdmin(ds[1..][m]);
    assert ds[1..][m] == ds[m + 1];
  }

  /** The super admin, added when its email is free. */
  function WithSuperAdmin(st: State): (r: State)
    ensures EmailTaken(r, SuperAdminEmail)
    ensures r.(users := st.users) == st
    ensures |st.users| <= |r.users| && r.users[..|st.users|] == st.users
    ensures UniqueEmails(st) ==> UniqueEmails(r)
    ensures forall e :: EmailTaken(st, e) ==> FindUserByEmail(r.users, e) == FindUserByEmail(st.users, e)
    ensures forall e :: !EmailTaken(st, e) && e != SuperAdminEmail ==> !EmailTaken(r, e)
  {
    if EmailTaken(st, SuperAdminEmail) then st
    else
      var r := st.(users := st.users + [SuperAdminUser]);
      forall e ensures FindUserByEmail(r.users, e) ==
        if EmailTaken(st, e) then FindUserByEmail(st.users, e)
        else if SuperAdminEmail == e then Some(|st.users|) else None
      {
        AppendFreshUser(st, SuperAdminUser, e);
      }
      AppendFreshUserKeepsUnique(st, SuperAdminUser);
      r
  }

  /**
   * `seed_admins` over a list of districts, as the committed state: the
   * super admin if absent, then the district loop; the session is committed
   * only when at least one district admin was created, otherwise nothing is.
   */
  function SeedAdminsFor(st: State, ds: seq<string>): (r: State)
    ensures r.(users := st.users) == st
    ensures |st.users| <= |r.users| && r.users[..|st.users|] == st.users
  {
    var st1 := WithSuperAdmin(st);
    var st2 := SeedDistricts(st1, ds);
    if |st2.users| > |st1.users| then
      assert st2.users[..|st.users|] == st2.users[..|st1.users|][..|st.users|];
      st2
    else st
  }

  /** `seed_admins`, for the 22 districts. */
  function SeedAdmins(st: State): State {
    SeedAdminsFor(st, HaryanaDistricts)
  }

  /** After a run that created anyone, the super admin and every district's email are registered. */
  lemma SeedAdminsRegisters(st: State, ds: seq<string>)
    requires UniqueEmails(st) && SeedAdminsFor(st, ds) != st
    ensures var r := SeedAdminsFor(st, ds);
      && UniqueEmails(r)
      && EmailTaken(r, SuperAdminEmail)
      && forall k :: 0 <= k < |ds| ==> EmailTaken(r, DistrictEmail(ds[k]))
  {
    var st1 := WithSuperAdmin(st);
    SeedDistrictsKeepsUnique(st1, ds);
    SeedDistrictsTakesAll(st1, ds);
    SeedDistrictsKeepsLookups(st1, ds, SuperAdminEmail);
  }

  /** Running the seeding twice is the same as running it once. */
  lemma SeedAdminsIdempotent(st: State, ds: seq<string>)
    requires UniqueEmails(st)
    ensures SeedAdminsFor(SeedAdminsFor(st, ds), ds) == SeedAdminsFor(st, ds)
  {
    var r := SeedAdminsFor(st, ds);
    if r != st {
      SeedAdminsRegisters(st, ds);
      assert WithSuperAdmin(r) == r;
      SeedDistrictsIdle(r, ds);
    }
  }

  /**
   * When every district admin already exists, nothing is committed: a
   * missing super admin is created and flushed, then discarded with the
   * session, so it is still missing afterwards.
   */
  lemma SuperAdminNeedsDistrictWork(st: State, ds: seq<string>)
    requires forall k :: 0 <= k < |ds| ==> EmailTaken(st, DistrictEmail(ds[k]))
    ensures SeedAdminsFor(st, ds) == st
  {
    SeedDistrictsIdle(WithSuperAdmin(st), ds);
  }

  /**
   * A district whose email was free, and shared with no earlier district,
   * gets an ADMIN of that district who can log in with the derived password.
   */
  lemma SeededAdminCanLogIn(st: State, ds: seq<string>, k: nat)
    requires UniqueEmails(st) && k < |ds|
    requires !EmailTaken(st, DistrictEmail(ds[k])) && DistrictEmail(ds[k]) != SuperAdminEmail
    requires forall m :: 0 <= m < k ==> DistrictEmail(ds[m]) != DistrictEmail(ds[k])
    ensures var r := SeedAdminsFor(st, ds);
      var e := DistrictEmail(ds[k]);
      && Login(r, e, DistrictPassword(ds[k])).Ok?
      && r.users[FindUserByEmail(r.users, e).value] == DistrictAdmin(ds[k])
  {
    var e := DistrictEmail(ds[k]);
    var st1 := WithSuperAdmin(st);
    SeedDistrictsHolder(st1, ds, k);
    var st2 := SeedDistricts(st1, ds);
    assert HeldByNewAdmin(st2, |st1.users|, e, ds, k);
    var j := FindUserByEmail(st2.users, e).value;
    var m :| 0 <= m <= k && st2.users[j] == DistrictAdmin(ds[m]);
    assert DistrictEmail(ds[m]) == e;
    assert m == k;
  }

  // ---------------------------------------------------------------------------
  // Departments
  // ---------------------------------------------------------------------------

  /** The departments every installation starts with. */
  const DefaultDepartments: seq<string> := [
    "Roads", "Electrical", "Water", "Sanitation", "Transport", "Public Works", "Health", "Parks and Gardens"]

  /** Some department has exactly this name (the check is case-sensitive). */
  predicate NameExists(st: State, name: string) {
    exists i :: 0 <= i < |st.departments| && st.departments[i].name == name
  }

  /** `seed_departments`: each name is added unless a department already has exactly that name. */
  function SeedDepartments(st: State, names: seq<string>): (r: State)
    ensures r.(departments := st.departments) == st
    ensures |st.departments| <= |r.departments| && r.departments[..|st.departments|] == st.departments
    decreases |names|
  {
    if names == [] then st
    else
      var st1 := if NameExists(st, names[0]) then st else st.(departments := st.departments + [Department(names[0])]);
      var r := SeedDepartments(st1, names[1..]);
      assert r.departments[..|st.departments|] == r.departments[..|st1.departments|][..|st.departments|];
      r
  }

  /** After a run every listed name exists. */
  lemma {:induction false} SeedDepartmentsCreatesAll(st: State, names: seq<string>)
    ensures forall k :: 0 <= k < |names| ==> NameExists(SeedDepartments(st, names), names[k])
    decreases |names|
  {
    if names != [] {
      var st1 := if NameExists(st, names[0]) then st else st.(departments := st.departments + [Department(names[0])]);
      assert NameExists(st1, names[0]) by {
        if !NameExists(st, names[0]) {
          assert st1.departments[|st.departments|].name == names[0];
        }
      }
      SeedDepartmentsCreatesAll(st1, names[1..]);
      var r := SeedDepartments(st1, names[1..]);
      assert NameExists(r, names[0]) by {
        var i :| 0 <= i < |st1.departments| && st1.departments[i].name == names[0];
        assert r.departments[i] == st1.departments[i];
      }
      forall k | 1 <= k < |names|
        ensures NameExists(r, names[k])
      {
        assert names[k] == names[1..][k - 1];
      }
    }
  }

  /** Seeding departments a second time adds nothing. */
  lemma {:induction false} SeedDepartmentsIdempotent(st: State, names: seq<string>)
    ensures SeedDepartments(SeedDepartments(st, names), names) == SeedDepartments(st, names)
  {
    var r := SeedDepartments(st, names);
    SeedDepartmentsCreatesAll(st, names);
    SeedDepartmentsIdle(r, names);
  }

  /** A run whose names all exist already changes nothing. */
  lemma {:induction false} SeedDepartmentsIdle(st: State, names: seq<string>)
    requires forall k :: 0 <= k < |names| ==> NameExists(st, names[k])
    ensures SeedDepartments(st, names) == st
    decreases |names|
  {
    if names != [] {
      SeedDepartmentsIdle(st, names[1..]);
    }
  }

  /**
   * The existence check is exact, so a department named like a default one
   * up to case does not stop the default from being added, and the
   * departments then differ only in case.
   */
  lemma CaseVariantStillSeeded(st: State, names: seq<string>, k: nat, i: nat)
    requires k < |names| && i < |st.departments|
    requires !NameExists(st, names[k]) && EqualIgnoringCase(st.departments[i].name, names[k])
    ensures !CaselessUniqueDepartments(SeedDepartments(st, names))
  {
    var r := SeedDepartments(st, names);
    SeedDepartmentsCreatesAll(st, names);
    var j :| 0 <= j < |r.departments| && r.departments[j].name == names[k];
    assert r.departments[i] == st.departments[i];
    assert i != j;
  }
}
