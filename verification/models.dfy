/**
 * The persistent records of the backend — users, departments, worker
 * profiles, problems, media and feedback — and the database state that
 * holds them. Every table is a sequence whose index is the row's primary
 * key: the database numbers rows consecutively and the core never deletes
 * one (accounts are deactivated, not removed).
 */
module Models {
  import opened Common
  import opened Strings

  // ---------------------------------------------------------------------------
  // Enumerations and their stored values
  // ---------------------------------------------------------------------------

  datatype Role = Client | Admin | Worker | SuperAdmin

  datatype ProblemStatus = Pending | Assigned | Completed | Verified

  datatype MediaType = PhotoInitial | PhotoProof | Audio | Signature

  function RoleValue(r: Role): string {
    match r
    case Client => "client"
    case Admin => "admin"
    case Worker => "worker"
    case SuperAdmin => "super_admin"
  }

  function StatusValue(s: ProblemStatus): string {
    match s
    case Pending => "pending"
    case Assigned => "assigned"
    case Completed => "completed"
    case Verified => "verified"
  }

  /** Reads a status value, the string clients see, back; anything but the four values is rejected. */
  function ParseStatus(v: string): (r: Option<ProblemStatus>)
    ensures r.Some? ==> StatusValue(r.value) == v
  {
    if v == "pending" then Some(Pending)
    else if v == "assigned" then Some(Assigned)
    else if v == "completed" then Some(Completed)
    else if v == "verified" then Some(Verified)
    else None
  }

  /** A status is stored as exactly one of four strings, and reads back unchanged. */
  lemma StatusRoundTrip(s: ProblemStatus)
    ensures ParseStatus(StatusValue(s)) == Some(s)
    ensures StatusValue(s) in {"pending", "assigned", "completed", "verified"}
  {
  }

  /**
   * The label PostgreSQL holds for a status. An `Enum` column built from a
   * Python enum stores the member's NAME, so the database type's labels are
   * the upper-case names, not the lower-case values above.
   */
  function StatusLabel(s: ProblemStatus): string {
    match s
    case Pending => "PENDING"
    case Assigned => "ASSIGNED"
    case Completed => "COMPLETED"
    case Verified => "VERIFIED"
  }

  /** Casts a literal to the status enum type; a literal that is no label is refused. */
  function ParseStatusLabel(v: string): (r: Option<ProblemStatus>)
    ensures r.Some? ==> StatusLabel(r.value) == v
    ensures r.None? ==> forall s :: StatusLabel(s) != v
  {
    if v == "PENDING" then Some(Pending)
    else if v == "ASSIGNED" then Some(Assigned)
    else if v == "COMPLETED" then Some(Completed)
    else if v == "VERIFIED" then Some(Verified)
    else None
  }

  /** Every label casts back to its status, and no status value is a label. */
  lemma StatusLabelRoundTrip(s: ProblemStatus)
    ensures ParseStatusLabel(StatusLabel(s)) == Some(s)
    ensures ParseStatusLabel(StatusValue(s)).None?
  {
  }

  /** Resolved means completed or verified. */
  predicate IsResolved(s: ProblemStatus) { s == Completed || s == Verified }

  // ---------------------------------------------------------------------------
  // Records
  // ---------------------------------------------------------------------------

  /** A bcrypt hash; verification succeeds exactly for the hashed secret. */
  datatype PasswordHash = Bcrypt(secret: string)

  predicate VerifyPassword(plain: string, hashed: PasswordHash) {
    hashed.secret == plain
  }

  datatype Point = Point(longitude: real, latitude: real)

  datatype User = User(
    fullName: string,
    email: string,
    hashedPassword: PasswordHash,
    role: Role,
    district: Option<string>,
    pincode: Option<string>,
    isActive: bool)

  datatype Department = Department(name: string)

  datatype WorkerProfile = WorkerProfile(userId: nat, departmentId: nat, dailyTaskCount: int)

  datatype Problem = Problem(
    title: string,
    description: Option<string>,
    problemType: string,
    district: string,
    location: Point,
    priority: real,
    status: ProblemStatus,
    userId: nat,
    assignedWorker: Option<nat>)

  datatype Media = Media(problemId: Option<nat>, fileUrl: string, mediaType: MediaType)

  datatype Feedback = Feedback(problemId: nat, userId: nat, comment: string, rating: int, sentiment: string)

  /** The database: one sequence per table, indexed by primary key. */
  datatype State = State(
    users: seq<User>,
    departments: seq<Department>,
    workers: seq<WorkerProfile>,
    problems: seq<Problem>,
    media: seq<Media>,
    feedback: seq<Feedback>)

  const EmptyState: State := State([], [], [], [], [], [])

  // ---------------------------------------------------------------------------
  // Column defaults
  // ---------------------------------------------------------------------------

  /** A user row as inserted: the given role, and active by default. */
  function NewUser(fullName: string, email: string, hashed: PasswordHash, role: Role,
                   district: Option<string>, pincode: Option<string>): (u: User)
    ensures u.isActive && u.role == role && u.email == email
  {
    User(fullName, email, hashed, role, district, pincode, true)
  }

  /** A worker profile as inserted: no tasks counted yet. */
  function NewWorkerProfile(userId: nat, departmentId: nat): (w: WorkerProfile)
    ensures w.dailyTaskCount == 0
  {
    WorkerProfile(userId, departmentId, 0)
  }

  /** A problem row as inserted: pending, priority 0.0, nobody assigned. */
  function NewProblem(title: string, description: Option<string>, problemType: string,
                      district: string, location: Point, userId: nat): (p: Problem)
    ensures p.status == Pending && p.priority == 0.0 && p.assignedWorker == None
  {
    Problem(title, description, problemType, district, location, 0.0, Pending, userId, None)
  }

  // ---------------------------------------------------------------------------
  // Lookups (the `WHERE column = value` queries of the handlers)
  // ---------------------------------------------------------------------------

  /** The first user whose email equals `email`, if any. */
  function FindUserByEmail(users: seq<User>, email: string): (r: Option<nat>)
    ensures r.Some? ==> r.value < |users| && users[r.value].email == email
    ensures r.Some? ==> forall i :: 0 <= i < r.value ==> users[i].email != email
    ensures r.None? <==> forall i :: 0 <= i < |users| ==> users[i].email != email
  {
    if users == [] then None
    else if users[0].email == email then Some(0)
    else
      match FindUserByEmail(users[1..], email)
      case None => None
      case Some(i) => Some(i + 1)
  }

  predicate EmailTaken(st: State, email: string) {
    FindUserByEmail(st.users, email).Some?
  }

  /** The first worker profile that belongs to user `uid`, if any. */
  function FindWorkerOfUser(workers: seq<WorkerProfile>, uid: nat): (r: Option<nat>)
    ensures r.Some? ==> r.value < |workers| && workers[r.value].userId == uid
    ensures r.Some? ==> forall i :: 0 <= i < r.value ==> workers[i].userId != uid
    ensures r.None? <==> forall i :: 0 <= i < |workers| ==> workers[i].userId != uid
  {
    if workers == [] then None
    else if workers[0].userId == uid then Some(0)
    else
      match FindWorkerOfUser(workers[1..], uid)
      case None => None
      case Some(i) => Some(i + 1)
  }

  // ---------------------------------------------------------------------------
  // Table constraints
  // ---------------------------------------------------------------------------

  /** `users.email` is UNIQUE. */
  predicate UniqueEmails(st: State) {
    forall i, j :: 0 <= i < |st.users| && 0 <= j < |st.users| && i != j ==>
      st.users[i].email != st.users[j].email
  }

  /** `departments.name` is UNIQUE (a case-sensitive constraint). */
  predicate UniqueDepartmentNames(st: State) {
    forall i, j :: 0 <= i < |st.departments| && 0 <= j < |st.departments| && i != j ==>
      st.departments[i].name != st.departments[j].name
  }

  /** `worker_profiles.user_id` is UNIQUE: a user has at most one worker profile. */
  predicate UniqueWorkerUsers(st: State) {
    forall i, j :: 0 <= i < |st.workers| && 0 <= j < |st.workers| && i != j ==>
      st.workers[i].userId != st.workers[j].userId
  }

  /** Every foreign key points at an existing row. */
  predicate ForeignKeysValid(st: State) {
    && (forall w :: 0 <= w < |st.workers| ==>
          st.workers[w].userId < |st.users| && st.workers[w].departmentId < |st.departments|)
    && (forall p :: 0 <= p < |st.problems| ==>
          st.problems[p].userId < |st.users|
          && (st.problems[p].assignedWorker.Some? ==> st.problems[p].assignedWorker.value < |st.workers|))
    && (forall m :: 0 <= m < |st.media| ==>
          st.media[m].problemId.Some? ==> st.media[m].problemId.value < |st.problems|)
    && (forall f :: 0 <= f < |st.feedback| ==>
          st.feedback[f].problemId < |st.problems| && st.feedback[f].userId < |st.users|)
  }

  /** The constraints the schema declares. */
  predicate Consistent(st: State) {
    UniqueEmails(st) && UniqueDepartmentNames(st) && UniqueWorkerUsers(st) && ForeignKeysValid(st)
  }

  /** With unique emails, the email lookup finds the one user that has it. */
  lemma FindUserByEmailUnique(st: State, i: nat)
    requires UniqueEmails(st) && i < |st.users|
    ensures FindUserByEmail(st.users, st.users[i].email) == Some(i)
  {
  }

  /** With unique worker users, the profile lookup finds the one profile of that user. */
  lemma FindWorkerOfUserUnique(st: State, w: nat)
    requires UniqueWorkerUsers(st) && w < |st.workers|
    ensures FindWorkerOfUser(st.workers, st.workers[w].userId) == Some(w)
  {
  }
}
