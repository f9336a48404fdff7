/**
 * Request-body validation. Each body field first meets its declared length
 * bounds, measured on the value as received, and then runs its field
 * validator, which may reject the value or return a cleaned-up copy. A
 * rejected body is answered with 422.
 */
module Schemas {
  import opened Common
  import opened Strings

  function ValidationError(msg: string): (e: HttpError)
    ensures e.code == UnprocessableEntity
  {
    HttpError(UnprocessableEntity, msg)
  }

  /** `lo <= len(v) <= hi`, the `min_length`/`max_length` field bounds. */
  predicate LengthWithin(v: string, lo: nat, hi: nat) { lo <= |v| <= hi }

  /** Every character of the stripped text was a character of the text. */
  lemma AllCharsStrip(s: string, p: char -> bool)
    requires AllChars(s, p)
    ensures AllChars(Strip(s), p)
  {
    var r := Strip(s);
    var i :| OccursAt(s, r, i);
    forall j | 0 <= j < |r| ensures p(r[j]) {
      assert r[j] == s[i + j];
    }
  }

  // ---------------------------------------------------------------------------
  // Script-injection screening
  // ---------------------------------------------------------------------------

  const DangerousPatterns: seq<string> := ["<script", "javascript:", "onerror=", "onclick="]

  /** The lower-cased text contains one of the four screened patterns. */
  predicate LooksDangerous(v: string) { ContainsAny(Lower(v), DangerousPatterns) }

  /**
   * The validator shared by problem title and description: `None` passes
   * untouched, text is stripped and refused if it looks dangerous.
   */
  function ValidateTextField(v: Option<string>): (r: Result<Option<string>, HttpError>)
    ensures v.None? ==> r == Ok(None)
    ensures v.Some? ==> (r.Ok? <==> !LooksDangerous(Strip(v.value)))
    ensures r.Ok? && v.Some? ==> r.value == Some(Strip(v.value))
    ensures r.Ok? && r.value.Some? ==> forall k :: 0 <= k < |DangerousPatterns| ==> !Contains(Lower(r.value.value), DangerousPatterns[k])
    ensures r.Err? ==> r.error.code == UnprocessableEntity
  {
    match v
    case None => Ok(None)
    case Some(text) =>
      var t := Strip(text);
      if LooksDangerous(t) then Err(ValidationError("Invalid characters in text field")) else Ok(Some(t))
  }

  /** Screening ignores case: a text is refused exactly when its lower-cased form is. */
  lemma ScreeningIgnoresCase(a: string, b: string)
    requires EqualIgnoringCase(a, b)
    ensures LooksDangerous(a) <==> LooksDangerous(b)
  {
  }

  /** Any capitalisation of `<script` is refused. */
  lemma ScriptTagRefused(pre: string, tag: string, post: string)
    requires Lower(tag) == "<script"
    ensures LooksDangerous(pre + tag + post)
  {
    var v := pre + tag + post;
    LowerAppend(pre + tag, post);
    LowerAppend(pre, tag);
    assert Lower(v) == Lower(pre) + "<script" + Lower(post);
    assert OccursAt(Lower(v), DangerousPatterns[0], |pre|);
    assert Contains(Lower(v), DangerousPatterns[0]);
  }

  /** An accepted text passes again unchanged: validation is idempotent. */
  lemma TextFieldIdempotent(v: string)
    requires ValidateTextField(Some(v)).Ok?
    ensures ValidateTextField(ValidateTextField(Some(v)).value) == ValidateTextField(Some(v))
  {
    var t := Strip(v);
    assert ValidateTextField(Some(v)) == Ok(Some(t));
    StripIdempotent(v);
    assert Strip(t) == t;
    assert !LooksDangerous(t);
  }

  // ---------------------------------------------------------------------------
  // Department name
  // ---------------------------------------------------------------------------

  /** The class `[a-zA-Z\s\-]`. */
  predicate DepartmentNameChar(c: char) { IsLetter(c) || IsSpace(c) || c == '-' }

  const MinDepartmentName: nat := 2
  const MaxDepartmentName: nat := 100

  /**
   * The department-name field as the schema declares it: the length bounds
   * apply to the raw value, and only afterwards is it stripped. A name of
   * blanks therefore passes and comes out empty.
   */
  function ValidateDepartmentNameAsWritten(v: string): (r: Result<string, HttpError>)
    ensures r.Ok? <==> LengthWithin(v, MinDepartmentName, MaxDepartmentName) && AllChars(v, DepartmentNameChar)
    ensures r.Ok? ==> r.value == Strip(v) && AllChars(r.value, DepartmentNameChar)
    ensures r.Err? ==> r.error.code == UnprocessableEntity
  {
    if !LengthWithin(v, MinDepartmentName, MaxDepartmentName) then
      Err(ValidationError("String should have between 2 and 100 characters"))
    else if !AllChars(v, DepartmentNameChar) then
      Err(ValidationError("Department name can only contain letters, spaces, and hyphens"))
    else
      AllCharsStrip(v, DepartmentNameChar);
      Ok(Strip(v))
  }

  /** Two blanks satisfy the declared bounds and yield the empty name. */
  lemma BlankDepartmentNameAccepted()
    ensures ValidateDepartmentNameAsWritten("  ") == Ok("")
  {
    var v := "  ";
    assert AllChars(v, DepartmentNameChar);
    assert AllChars(v, IsSpace);
  }

  /** The intended rule: the bounds hold for the stored, stripped name. */
  function ValidateDepartmentName(v: string): (r: Result<string, HttpError>)
    ensures r.Ok? <==> AllChars(v, DepartmentNameChar) && LengthWithin(Strip(v), MinDepartmentName, MaxDepartmentName)
    ensures r.Ok? ==> r.value == Strip(v)
    ensures r.Ok? ==> LengthWithin(r.value, MinDepartmentName, MaxDepartmentName) && AllChars(r.value, DepartmentNameChar)
    ensures r.Ok? ==> !IsSpace(r.value[0]) && !IsSpace(r.value[|r.value| - 1])
    ensures r.Err? ==> r.error.code == UnprocessableEntity
  {
    var s := Strip(v);
    if !LengthWithin(s, MinDepartmentName, MaxDepartmentName) then
      Err(ValidationError("String should have between 2 and 100 characters"))
    else if !AllChars(v, DepartmentNameChar) then
      Err(ValidationError("Department name can only contain letters, spaces, and hyphens"))
    else
      AllCharsStrip(v, DepartmentNameChar);
      Ok(s)
  }

  /** On names without surrounding blanks the two rules agree. */
  lemma DepartmentNameRulesAgreeOnTrimmed(v: string)
    requires Strip(v) == v
    ensures ValidateDepartmentName(v) == ValidateDepartmentNameAsWritten(v)
  {
    assert Strip(v) == v;
  }

  /** An accepted name is accepted again unchanged. */
  lemma DepartmentNameIdempotent(v: string)
    requires ValidateDepartmentName(v).Ok?
    ensures ValidateDepartmentName(ValidateDepartmentName(v).value) == ValidateDepartmentName(v)
  {
    StripIdempotent(v);
  }

  // ---------------------------------------------------------------------------
  // User fields
  // ---------------------------------------------------------------------------

  /** The class `[a-zA-Z\s\.\-]`. */
  predicate FullNameChar(c: char) { IsLetter(c) || IsSpace(c) || c == '.' || c == '-' }

  const MinFullName: nat := 3
  const MaxFullName: nat := 100

  /** The full-name field as declared: raw-length bounds, then the class check, then strip. */
  function ValidateFullNameAsWritten(v: string): (r: Result<string, HttpError>)
    ensures r.Ok? <==> LengthWithin(v, MinFullName, MaxFullName) && AllChars(v, FullNameChar)
    ensures r.Ok? ==> r.value == Strip(v) && AllChars(r.value, FullNameChar)
    ensures r.Err? ==> r.error.code == UnprocessableEntity
  {
    if !LengthWithin(v, MinFullName, MaxFullName) then
      Err(ValidationError("String should have between 3 and 100 characters"))
    else if !AllChars(v, FullNameChar) then
      Err(ValidationError("Name can only contain letters, spaces, dots, and hyphens"))
    else
      AllCharsStrip(v, FullNameChar);
      Ok(Strip(v))
  }

  /** Three blanks satisfy the declared bounds and yield the empty name. */
  lemma BlankFullNameAccepted()
    ensures ValidateFullNameAsWritten("   ") == Ok("")
  {
    var v := "   ";
    assert AllChars(v, FullNameChar);
    assert AllChars(v, IsSpace);
  }

  /** The intended rule: the bounds hold for the stored, stripped name. */
  function ValidateFullName(v: string): (r: Result<string, HttpError>)
    ensures r.Ok? <==> AllChars(v, FullNameChar) && LengthWithin(Strip(v), MinFullName, MaxFullName)
    ensures r.Ok? ==> r.value == Strip(v)
    ensures r.Ok? ==> LengthWithin(r.value, MinFullName, MaxFullName) && AllChars(r.value, FullNameChar)
    ensures r.Ok? ==> !IsSpace(r.value[0]) && !IsSpace(r.value[|r.value| - 1])
    ensures r.Err? ==> r.error.code == UnprocessableEntity
  {
    var s := Strip(v);
    if !LengthWithin(s, MinFullName, MaxFullName) then
      Err(ValidationError("String should have between 3 and 100 characters"))
    else if !AllChars(v, FullNameChar) then
      Err(ValidationError("Name can only contain letters, spaces, dots, and hyphens"))
    else
      AllCharsStrip(v, FullNameChar);
      Ok(s)
  }

  /** On names without surrounding blanks the two rules agree. */
  lemma FullNameRulesAgreeOnTrimmed(v: string)
    requires Strip(v) == v
    ensures ValidateFullName(v) == ValidateFullNameAsWritten(v)
  {
    assert Strip(v) == v;
  }

  const PincodeLength: nat := 6

  /** `pincode`: exactly six characters, all digits, kept as given. */
  function ValidatePincode(v: string): (r: Result<string, HttpError>)
    ensures r.Ok? <==> |v| == PincodeLength && AllDigits(v)
    ensures r.Ok? ==> r.value == v
    ensures r.Err? ==> r.error.code == UnprocessableEntity
  {
    if |v| != PincodeLength then Err(ValidationError("String should have at least 6 characters"))
    else if !AllDigits(v) then Err(ValidationError("Pincode must contain only digits"))
    else Ok(v)
  }

  const MinDistrict: nat := 2
  const MaxDistrict: nat := 50
  const MinPasswordField: nat := 8

  /**
   * The `EmailStr` field type: the address in normalised form (domain
   * lower-cased), or None when it is not a valid address. The validating
   * library is outside this model, so it is a parameter.
   */
  type EmailValidator = string -> Option<string>

  /** The validated fields shared by every user-creating body. */
  datatype UserBase = UserBase(fullName: string, email: string, district: string, pincode: string)

  /** A registration body: the user fields and a password. */
  datatype UserCreate = UserCreate(fullName: string, email: string, district: string, pincode: string, password: string)

  /**
   * `UserBase`: every field must pass; the full name comes out stripped and
   * the email in the validator's normalised form.
   */
  function ParseUserBase(fullName: string, email: string, district: string, pincode: string, emailCheck: EmailValidator)
    : (r: Result<UserBase, HttpError>)
    ensures r.Ok? <==>
      && ValidateFullName(fullName).Ok? && emailCheck(email).Some?
      && LengthWithin(district, MinDistrict, MaxDistrict) && ValidatePincode(pincode).Ok?
    ensures r.Ok? ==> r.value == UserBase(Strip(fullName), emailCheck(email).value, district, pincode)
    ensures r.Err? ==> r.error.code == UnprocessableEntity
  {
    var name :- ValidateFullName(fullName);
    if emailCheck(email).None? then
      Err(ValidationError("value is not a valid email address"))
    else if !LengthWithin(district, MinDistrict, MaxDistrict) then
      Err(ValidationError("String should have between 2 and 50 characters"))
    else
      var pin :- ValidatePincode(pincode);
      Ok(UserBase(name, emailCheck(email).value, district, pin))
  }

  /** An address the validator refuses makes the whole body a 422, whatever the other fields hold. */
  lemma InvalidEmailRefused(fullName: string, email: string, district: string, pincode: string, emailCheck: EmailValidator)
    requires emailCheck(email).None?
    ensures ParseUserBase(fullName, email, district, pincode, emailCheck).Err?
    ensures ParseUserBase(fullName, email, district, pincode, emailCheck).error.code == UnprocessableEntity
  {
  }

  /** A user-creating body as received, before validation. */
  datatype RawUser = RawUser(fullName: string, email: string, district: string, pincode: string, password: string)

  /** `UserCreate`, `SuperAdminCreateAdmin`: the user fields and a password of at least 8 characters. */
  function ParseUserCreate(raw: RawUser, emailCheck: EmailValidator): (r: Result<UserCreate, HttpError>)
    ensures r.Ok? <==>
      ParseUserBase(raw.fullName, raw.email, raw.district, raw.pincode, emailCheck).Ok? && |raw.password| >= MinPasswordField
    ensures r.Ok? ==>
      r.value == UserCreate(Strip(raw.fullName), emailCheck(raw.email).value, raw.district, raw.pincode, raw.password)
      && |r.value.fullName| >= MinFullName && |r.value.password| >= MinPasswordField
    ensures r.Err? ==> r.error.code == UnprocessableEntity
  {
    var base :- ParseUserBase(raw.fullName, raw.email, raw.district, raw.pincode, emailCheck);
    if |raw.password| < MinPasswordField then Err(ValidationError("String should have at least 8 characters"))
    else Ok(UserCreate(base.fullName, base.email, base.district, base.pincode, raw.password))
  }

  // ---------------------------------------------------------------------------
  // Feedback
  // ---------------------------------------------------------------------------

  datatype FeedbackCreate = FeedbackCreate(comment: string, rating: int)

  const MinComment: nat := 5
  const MaxComment: nat := 1000
  const MinRating: int := 1
  const MaxRating: int := 5

  /** The comment field: raw-length bounds, then strip, then screening. */
  function ValidateComment(v: string): (r: Result<string, HttpError>)
    ensures r.Ok? <==> LengthWithin(v, MinComment, MaxComment) && !LooksDangerous(Strip(v))
    ensures r.Ok? ==> r.value == Strip(v) && !LooksDangerous(r.value)
    ensures r.Err? ==> r.error.code == UnprocessableEntity
  {
    if !LengthWithin(v, MinComment, MaxComment) then
      Err(ValidationError("String should have between 5 and 1000 characters"))
    else
      var t := Strip(v);
      if LooksDangerous(t) then Err(ValidationError("Invalid characters in feedback comment")) else Ok(t)
  }

  /** `FeedbackCreate`: a screened comment and a rating from 1 to 5. */
  function ParseFeedback(comment: string, rating: int): (r: Result<FeedbackCreate, HttpError>)
    ensures r.Ok? <==> ValidateComment(comment).Ok? && MinRating <= rating <= MaxRating
    ensures r.Ok? ==> r.value.rating == rating && MinRating <= r.value.rating <= MaxRating
    ensures r.Ok? ==> r.value.comment == Strip(comment) && !LooksDangerous(r.value.comment)
    ensures r.Err? ==> r.error.code == UnprocessableEntity
  {
    var c :- ValidateComment(comment);
    if rating < MinRating || rating > MaxRating then
      Err(ValidationError("Input should be between 1 and 5"))
    else Ok(FeedbackCreate(c, rating))
  }

  // ---------------------------------------------------------------------------
  // Problem body
  // ---------------------------------------------------------------------------

  datatype ProblemFields = ProblemFields(title: string, description: Option<string>, problemType: string)

  /** `ProblemBase`: title 5–200, description at most 2000, type 2–50 characters, texts screened. */
  function ParseProblemBase(title: string, description: Option<string>, problemType: string)
    : (r: Result<ProblemFields, HttpError>)
    ensures r.Ok? <==>
      && LengthWithin(title, 5, 200)
      && (description.Some? ==> |description.value| <= 2000)
      && LengthWithin(problemType, 2, 50)
      && !LooksDangerous(Strip(title))
      && (description.Some? ==> !LooksDangerous(Strip(description.value)))
    ensures r.Ok? ==> r.value.title == Strip(title) && r.value.problemType == problemType
    ensures r.Ok? ==> description.None? ==> r.value.description.None?
    ensures r.Ok? ==> description.Some? ==> r.value.description == Some(Strip(description.value))
    ensures r.Err? ==> r.error.code == UnprocessableEntity
  {
    if !LengthWithin(title, 5, 200) then Err(ValidationError("String should have between 5 and 200 characters"))
    else if description.Some? && |description.value| > 2000 then
      Err(ValidationError("String should have at most 2000 characters"))
    else if !LengthWithin(problemType, 2, 50) then Err(ValidationError("String should have between 2 and 50 characters"))
    else
      var t :- ValidateTextField(Some(title));
      var d :- ValidateTextField(description);
      Ok(ProblemFields(t.value, d, problemType))
  }

  // ---------------------------------------------------------------------------
  // Chat request
  // ---------------------------------------------------------------------------

  const MaxChatMessage: nat := 2000
  const MaxSessionId: nat := 100

  /** The chat message: 1–2000 raw characters, not blank, screened, returned stripped. */
  function ValidateChatMessage(v: string): (r: Result<string, HttpError>)
    ensures r.Ok? <==> LengthWithin(v, 1, MaxChatMessage) && !AllChars(v, IsSpace) && !LooksDangerous(Strip(v))
    ensures r.Ok? ==> r.value == Strip(v) && r.value != [] && !LooksDangerous(r.value)
    ensures r.Err? ==> r.error.code == UnprocessableEntity
  {
    if !LengthWithin(v, 1, MaxChatMessage) then
      Err(ValidationError("String should have between 1 and 2000 characters"))
    else
      var t := Strip(v);
      if t == [] then Err(ValidationError("Message cannot be empty"))
      else if LooksDangerous(t) then Err(ValidationError("Invalid characters in message"))
      else Ok(t)
  }

  datatype ChatRequest = ChatRequest(message: string, sessionId: Option<string>)

  /** `ChatRequest`: a valid message and an optional session id of at most 100 characters. */
  function ParseChatRequest(message: string, sessionId: Option<string>): (r: Result<ChatRequest, HttpError>)
    ensures r.Ok? <==> ValidateChatMessage(message).Ok? && (sessionId.Some? ==> |sessionId.value| <= MaxSessionId)
    ensures r.Ok? ==> r.value.message == Strip(message) && r.value.message != [] && r.value.sessionId == sessionId
    ensures r.Err? ==> r.error.code == UnprocessableEntity
  {
    var m :- ValidateChatMessage(message);
    if sessionId.Some? && |sessionId.value| > MaxSessionId then
      Err(ValidationError("String should have at most 100 characters"))
    else Ok(ChatRequest(m, sessionId))
  }

  /** A blank message never reaches the chatbot, whatever its length. */
  lemma BlankMessageRefused(v: string)
    requires AllChars(v, IsSpace)
    ensures ValidateChatMessage(v).Err?
  {
  }
}
