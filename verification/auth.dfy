/**
 * Authentication: the password-strength rule, hashing, access tokens, the
 * current-user dependency every protected route uses, and the public
 * registration and login endpoints.
 */
module Auth {
  import opened Common
  import opened Strings
  import opened Models
  import opened Schemas

  // ---------------------------------------------------------------------------
  // Password strength
  // ---------------------------------------------------------------------------

  const MinPasswordLength: nat := 8

  /** The character class `[!@#$%^&*(),.?":{}|<>]`. */
  predicate IsSpecial(c: char) {
    c in {'!', '@', '#', '$', '%', '^', '&', '*', '(', ')', ',', '.', '?', '"', ':', '{', '}', '|', '<', '>'}
  }

  /** The rule, stated as one conjunction. */
  predicate StrongPassword(pw: string) {
    |pw| >= MinPasswordLength && HasChar(pw, IsUpper) && HasChar(pw, IsLower)
    && HasChar(pw, IsDigit) && HasChar(pw, IsSpecial)
  }

  /** The first rule a password breaks, in the order the checks run. */
  datatype PasswordFault = TooShort | NoUppercase | NoLowercase | NoDigit | NoSpecial

  function PasswordFaultOf(pw: string): (r: Option<PasswordFault>)
    ensures r.None? <==> StrongPassword(pw)
    ensures r == Some(TooShort) <==> |pw| < MinPasswordLength
    ensures r == Some(NoUppercase) <==> |pw| >= MinPasswordLength && !HasChar(pw, IsUpper)
    ensures r == Some(NoLowercase) <==> |pw| >= MinPasswordLength && HasChar(pw, IsUpper) && !HasChar(pw, IsLower)
    ensures r == Some(NoDigit) <==>
      |pw| >= MinPasswordLength && HasChar(pw, IsUpper) && HasChar(pw, IsLower) && !HasChar(pw, IsDigit)
    ensures r == Some(NoSpecial) <==>
      |pw| >= MinPasswordLength && HasChar(pw, IsUpper) && HasChar(pw, IsLower) && HasChar(pw, IsDigit)
      && !HasChar(pw, IsSpecial)
  {
    if |pw| < MinPasswordLength then Some(TooShort)
    else if !HasChar(pw, IsUpper) then Some(NoUppercase)
    else if !HasChar(pw, IsLower) then Some(NoLowercase)
    else if !HasChar(pw, IsDigit) then Some(NoDigit)
    else if !HasChar(pw, IsSpecial) then Some(NoSpecial)
    else None
  }

  function FaultDetail(f: PasswordFault): string {
    match f
    case TooShort => "Password must be at least 8 characters long"
    case NoUppercase => "Password must contain at least one uppercase letter"
    case NoLowercase => "Password must contain at least one lowercase letter"
    case NoDigit => "Password must contain at least one digit"
    case NoSpecial => "Password must contain at least one special character (!@#$%^&*(),.?\":{}|<>)"
  }

  /** `validate_password_strength`: nothing for a strong password, else a 400 naming the first fault. */
  function ValidatePasswordStrength(pw: string): (r: Option<HttpError>)
    ensures r.None? <==> StrongPassword(pw)
    ensures r.Some? ==> r.value.code == BadRequest
  {
    match PasswordFaultOf(pw)
    case None => None
    case Some(f) => Some(HttpError(BadRequest, FaultDetail(f)))
  }

  /** `get_password_hash`: validates first, so only a strong password is ever hashed. */
  function GetPasswordHash(pw: string): (r: Result<PasswordHash, HttpError>)
    ensures r.Ok? <==> StrongPassword(pw)
    ensures r.Ok? ==> VerifyPassword(pw, r.value)
    ensures r.Err? ==> r.error.code == BadRequest
  {
    match ValidatePasswordStrength(pw)
    case Some(e) => Err(e)
    case None => Ok(Bcrypt(pw))
  }

  /** Any hash the application stores verifies only its own password. */
  lemma HashVerifiesOnlyItsPassword(pw: string, other: string)
    requires GetPasswordHash(pw).Ok?
    ensures VerifyPassword(other, GetPasswordHash(pw).value) <==> other == pw
  {
  }

  // ---------------------------------------------------------------------------
  // Tokens and the current user
  // ---------------------------------------------------------------------------

  /** The claims an access token carries; signing and expiry are outside the model. */
  datatype AccessToken = AccessToken(sub: string)

  /** What decoding a presented bearer token yields. */
  datatype DecodedToken = Undecodable | Payload(sub: Option<string>)

  /** Decoding a token this service issued gives back its subject. */
  function Decode(t: AccessToken): DecodedToken {
    Payload(Some(t.sub))
  }

  const CredentialsError: HttpError := HttpError(Unauthorized, "Could not validate credentials")

  /** `get_current_user`: the id of the active user the token names, else 401. */
  function GetCurrentUser(st: State, token: DecodedToken): (r: Result<nat, HttpError>)
    ensures r.Ok? ==> token.Payload? && token.sub.Some?
    ensures r.Ok? ==> r.value < |st.users| && st.users[r.value].email == token.sub.value && st.users[r.value].isActive
    ensures r.Err? ==> r.error.code == Unauthorized
    ensures r.Err? <==>
      token.Undecodable? || token.sub.None?
      || FindUserByEmail(st.users, token.sub.value).None?
      || !st.users[FindUserByEmail(st.users, token.sub.value).value].isActive
  {
    match token
    case Undecodable => Err(CredentialsError)
    case Payload(None) => Err(CredentialsError)
    case Payload(Some(email)) =>
      match FindUserByEmail(st.users, email)
      case None => Err(CredentialsError)
      case Some(u) => if st.users[u].isActive then Ok(u) else Err(CredentialsError)
  }

  // ---------------------------------------------------------------------------
  // Registration and login
  // ---------------------------------------------------------------------------

  /**
   * `register_client_user`: a taken email is a 400, a weak password is a
   * 400, otherwise a new active CLIENT is appended.
   */
  function RegisterClientUser(st: State, req: UserCreate): (r: Result<(State, nat), HttpError>)
    ensures EmailTaken(st, req.email) ==> r == Err(HttpError(BadRequest, "Email is already registered"))
    ensures !EmailTaken(st, req.email) && !StrongPassword(req.password) ==> r.Err? && r.error.code == BadRequest
    ensures r.Ok? <==> !EmailTaken(st, req.email) && StrongPassword(req.password)
    ensures r.Ok? ==>
      var (st2, id) := r.value;
      && id == |st.users| && |st2.users| == id + 1 && st2.users[..id] == st.users
      && st2.users[id].role == Client && st2.users[id].isActive
      && st2.users[id].email == req.email && st2.users[id].district == Some(req.district)
      && VerifyPassword(req.password, st2.users[id].hashedPassword)
      && st2.(users := st.users) == st
  {
    if EmailTaken(st, req.email) then Err(HttpError(BadRequest, "Email is already registered"))
    else
      var hashed :- GetPasswordHash(req.password);
      var u := NewUser(req.fullName, req.email, hashed, Client, Some(req.district), Some(req.pincode));
      Ok((st.(users := st.users + [u]), |st.users|))
  }

  /** Registration keeps emails unique. */
  lemma RegisterKeepsUniqueEmails(st: State, req: UserCreate)
    requires UniqueEmails(st)
    requires RegisterClientUser(st, req).Ok?
    ensures UniqueEmails(RegisterClientUser(st, req).value.0)
  {
    var st2 := RegisterClientUser(st, req).value.0;
    forall i | 0 <= i < |st.users|
      ensures st2.users[i].email != req.email
    {
      assert st2.users[i] == st.users[i];
    }
  }

  const LoginError: HttpError := HttpError(Unauthorized, "Incorrect email or password, or user is inactive.")

  /** `login_for_access_token`: a token whose subject is the user's email, or 401. */
  function Login(st: State, username: string, password: string): (r: Result<AccessToken, HttpError>)
    ensures r.Ok? <==>
      var u := FindUserByEmail(st.users, username);
      u.Some? && st.users[u.value].isActive && VerifyPassword(password, st.users[u.value].hashedPassword)
    ensures r.Ok? ==> r.value.sub == username
    ensures r.Err? ==> r.error == LoginError
  {
    match FindUserByEmail(st.users, username)
    case None => Err(LoginError)
    case Some(u) =>
      if !st.users[u].isActive || !VerifyPassword(password, st.users[u].hashedPassword) then Err(LoginError)
      else Ok(AccessToken(st.users[u].email))
  }

  /** The token a login issues identifies, on later requests, the user who logged in. */
  lemma LoginThenCurrentUser(st: State, username: string, password: string)
    requires Login(st, username, password).Ok?
    ensures GetCurrentUser(st, Decode(Login(st, username, password).value)) == Ok(FindUserByEmail(st.users, username).value)
  {
  }

  /** A freshly registered client can log in with the password they chose. */
  lemma RegisterThenLogin(st: State, req: UserCreate)
    requires RegisterClientUser(st, req).Ok?
    ensures Login(RegisterClientUser(st, req).value.0, req.email, req.password).Ok?
  {
    var (st2, id) := RegisterClientUser(st, req).value;
    assert st2.users[id].email == req.email;
    assert FindUserByEmail(st2.users, req.email).Some?;
    assert forall i :: 0 <= i < id ==> st2.users[i] == st.users[i];
  }
}
