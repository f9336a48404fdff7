/**
 * Application settings: their defaults, the three field validators that
 * run when the settings load, and the two comma-separated list properties.
 */
module Config {
  import opened Common
  import opened Strings

  /** The settings the modelled core reads; every other setting is wiring. */
  datatype Settings = Settings(
    maxDailyTasksPerWorker: int,
    priorityDensityWeight: real,
    priorityUrgencyWeight: real,
    maxChatHistory: nat,
    maxFileSizeMb: nat,
    allowedOrigins: string,
    allowedFileTypes: string)

  /** The values used when the environment sets nothing. */
  const Defaults: Settings := Settings(3, 0.6, 0.4, 10, 10,
    "http://localhost:3000", "image/jpeg,image/png,image/jpg,image/webp")

  const MinSecretKeyLength: nat := 32
  const MinGoogleApiKeyLength: nat := 20

  // ---------------------------------------------------------------------------
  // Field validators
  // ---------------------------------------------------------------------------

  /** A secret key loads unchanged when it has at least 32 characters, and is rejected otherwise. */
  function ValidateSecretKey(v: string): (r: Result<string, string>)
    ensures r.Ok? <==> |v| >= MinSecretKeyLength
    ensures r.Ok? ==> r.value == v
  {
    if |v| < MinSecretKeyLength then Err("SECRET_KEY must be at least 32 characters long for security")
    else Ok(v)
  }

  /** A database URL loads unchanged when it is non-empty and starts with "postgresql". */
  function ValidateDatabaseUrl(v: string): (r: Result<string, string>)
    ensures r.Ok? <==> v != [] && IsPrefix("postgresql", v)
    ensures r.Ok? ==> r.value == v && |v| >= 10
  {
    if v == [] || !IsPrefix("postgresql", v) then
      Err("DATABASE_URL must be a valid PostgreSQL connection string")
    else Ok(v)
  }

  /** The API-key validator never rejects: it returns the key and whether a warning is printed. */
  function ValidateGoogleApiKey(v: string): (r: (string, bool))
    ensures r.0 == v
    ensures r.1 <==> |v| < MinGoogleApiKeyLength
  {
    (v, v == [] || |v| < MinGoogleApiKeyLength)
  }

  // ---------------------------------------------------------------------------
  // Comma-separated lists
  // ---------------------------------------------------------------------------

  /** Strips every element: `[x.strip() for x in xs]`. */
  function StripEach(xs: seq<string>): (r: seq<string>)
    ensures |r| == |xs|
    ensures forall k :: 0 <= k < |xs| ==> r[k] == Strip(xs[k])
  {
    if xs == [] then [] else [Strip(xs[0])] + StripEach(xs[1..])
  }

  /** `ALLOWED_ORIGINS.split(",")`, each piece stripped. */
  function AllowedOriginsList(cfg: Settings): (r: seq<string>)
    ensures |r| == CountChar(cfg.allowedOrigins, ',') + 1 == |Split(cfg.allowedOrigins, ',')|
    ensures forall k :: 0 <= k < |r| ==> r[k] == Strip(Split(cfg.allowedOrigins, ',')[k])
  {
    SplitCount(cfg.allowedOrigins, ',');
    StripEach(Split(cfg.allowedOrigins, ','))
  }

  /** `ALLOWED_FILE_TYPES.split(",")`, each piece stripped. */
  function AllowedFileTypesList(cfg: Settings): (r: seq<string>)
    ensures |r| == CountChar(cfg.allowedFileTypes, ',') + 1 == |Split(cfg.allowedFileTypes, ',')|
    ensures forall k :: 0 <= k < |r| ==> r[k] == Strip(Split(cfg.allowedFileTypes, ',')[k])
  {
    SplitCount(cfg.allowedFileTypes, ',');
    StripEach(Split(cfg.allowedFileTypes, ','))
  }

  /** An element has no surrounding whitespace. */
  predicate Trimmed(s: string) {
    s != [] ==> !IsSpace(s[0]) && !IsSpace(s[|s| - 1])
  }

  /**
   * When no piece carries surrounding whitespace, stripping changes nothing
   * and joining the list with commas gives back the setting: the list is the
   * setting's pieces, all of them, in order.
   */
  lemma StripEachJoin(s: string)
    requires forall k :: 0 <= k < |Split(s, ',')| ==> Trimmed(Split(s, ',')[k])
    ensures |StripEach(Split(s, ','))| >= 1
    ensures Join(StripEach(Split(s, ',')), ',') == s
  {
    var pieces := Split(s, ',');
    forall k | 0 <= k < |pieces|
      ensures Strip(pieces[k]) == pieces[k]
    {
      StripNoSpaceEnds(pieces[k]);
    }
    assert StripEach(pieces) == pieces;
    JoinSplit(s, ',');
  }

  /** Every element of a list property is free of surrounding whitespace and of commas. */
  lemma ListElementsClean(cfg: Settings, k: nat)
    requires k < |AllowedFileTypesList(cfg)|
    ensures Trimmed(AllowedFileTypesList(cfg)[k])
    ensures ',' !in AllowedFileTypesList(cfg)[k]
  {
    var pieces := Split(cfg.allowedFileTypes, ',');
    var e := AllowedFileTypesList(cfg)[k];
    assert e == Strip(pieces[k]);
    assert ',' !in pieces[k];
    StripKeepsOut(pieces[k], ',');
  }
}
