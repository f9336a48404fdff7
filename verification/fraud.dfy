/**
 * Fraud scoring for new reports: the score/threshold state machine, the
 * AI-image score, the five individual checks and their fail-open
 * composition. Image metrics, database counts and the duplicate search's
 * outcome are inputs; a query or analysis that raises is an input `None`.
 */
module Fraud {
  import opened Common
  import opened Strings
  import opened Duplicates

  // ---------------------------------------------------------------------------
  // The result and `add_suspicion`
  // ---------------------------------------------------------------------------

  datatype Action = Allow | Warn | Block

  /** One constructor per suspicion message the checks record. */
  datatype Reason =
    | AiGenerated
    | MaybeAiGenerated
    | DuplicateImage
    | TooManyInHour(count: nat)
    | TooManyInDay(count: nat)
    | RapidFire(count: nat)
    | CrowdedLocation(count: nat)
    | DistantLocations(km: real)
    | ShortTitle
    | RepetitiveTitle
    | SpamPhrase(phrase: string)
    | UnusualHours

  datatype FraudResult = FraudResult(
    isSuspicious: bool,
    score: real,
    reasons: seq<Reason>,
    action: Action,
    existingProblemId: Option<nat>)

  const BlockScore: real := 80.0
  const WarnScore: real := 50.0

  /** A fresh result: nothing suspicious, score 0, allowed. */
  const Fresh: FraudResult := FraudResult(false, 0.0, [], Allow, None)

  /** The action a score calls for. */
  function ActionFor(score: real): Action {
    if score >= BlockScore then Block else if score >= WarnScore then Warn else Allow
  }

  /** The order allow < warn < block. */
  function Rank(a: Action): nat {
    match a
    case Allow => 0
    case Warn => 1
    case Block => 2
  }

  /** Action and flag agree with the score, as they do after any run of non-negative increments. */
  predicate Coherent(r: FraudResult) {
    r.action == ActionFor(r.score) && (r.isSuspicious <==> r.score >= WarnScore)
  }

  /** `r2` is `r` with more reasons, no lower score, and a flag that stayed set. */
  predicate Grows(r: FraudResult, r2: FraudResult) {
    && r.score <= r2.score
    && r.reasons <= r2.reasons
    && (r.isSuspicious ==> r2.isSuspicious)
    && (Coherent(r) ==> Coherent(r2))
  }

  /**
   * `add_suspicion`: one more reason and `inc` more score; the action is
   * recomputed from the new score, and the suspicious flag is set at 50 and
   * never cleared.
   */
  function AddSuspicion(r: FraudResult, reason: Reason, inc: real): (r2: FraudResult)
    ensures r2.reasons == r.reasons + [reason]
    ensures r2.score == r.score + inc
    ensures r2.action == Block <==> r2.score >= 80.0
    ensures r2.action == Warn <==> 50.0 <= r2.score < 80.0
    ensures r2.isSuspicious <==> r.isSuspicious || r2.score >= 50.0
    ensures r2.existingProblemId == r.existingProblemId
    ensures inc >= 0.0 ==> Grows(r, r2)
  {
    var score := r.score + inc;
    if score >= BlockScore then r.(reasons := r.reasons + [reason], score := score, action := Block, isSuspicious := true)
    else if score >= WarnScore then r.(reasons := r.reasons + [reason], score := score, action := Warn, isSuspicious := true)
    else r.(reasons := r.reasons + [reason], score := score, action := Allow)
  }

  /** Between coherent results, a higher score never means a milder action. */
  lemma ActionMonotone(r: FraudResult, r2: FraudResult)
    requires Coherent(r) && Coherent(r2) && r.score <= r2.score
    ensures Rank(r.action) <= Rank(r2.action)
  {
  }

  /** Growth composes. */
  lemma GrowsTransitive(a: FraudResult, b: FraudResult, c: FraudResult)
    requires Grows(a, b) && Grows(b, c)
    ensures Grows(a, c)
  {
  }

  // ---------------------------------------------------------------------------
  // AI-generated image score
  // ---------------------------------------------------------------------------

  /** The EXIF block of a photo: absent, unreadable, or these tags ("" when a tag is missing). */
  datatype ExifReading =
    | NoExif
    | ExifUnreadable
    | ExifTags(software: string, make: string, model: string, lensMake: string)

  const AiSoftwareKeywords: seq<string> :=
    ["stable diffusion", "midjourney", "dall-e", "dalle", "generated", "ai", "artificial", "synthetic"]

  /**
   * `_check_exif_suspicious`: no EXIF is suspicious; so is an AI keyword in
   * the software tag, or no camera make, model or lens make. An unreadable
   * block is not suspicious.
   */
  function ExifSuspicious(e: ExifReading): (r: bool)
    ensures e.NoExif? ==> r
    ensures e.ExifUnreadable? ==> !r
    ensures e.ExifTags? && ContainsAny(Lower(e.software), AiSoftwareKeywords) ==> r
    ensures e.ExifTags? && !ContainsAny(Lower(e.software), AiSoftwareKeywords) ==>
      (r <==> e.make == [] && e.model == [] && e.lensMake == [])
  {
    match e
    case NoExif => true
    case ExifUnreadable => false
    case ExifTags(software, make, model, lensMake) =>
      ContainsAny(Lower(software), AiSoftwareKeywords) || (make == [] && model == [] && lensMake == [])
  }

  /**
   * `_check_noise_patterns_suspicious`, given the Laplacian variance and the
   * Canny edge density, or None when the analysis raised.
   */
  function NoiseSuspicious(laplacianVariance: Option<real>, edgeDensity: Option<real>): (r: bool)
    ensures r <==> laplacianVariance.Some?
                   && (laplacianVariance.value < 10.0 || laplacianVariance.value > 1000.0
                       || (edgeDensity.Some? && (edgeDensity.value < 0.01 || edgeDensity.value > 0.3)))
  {
    match laplacianVariance
    case None => false
    case Some(v) =>
      if v < 10.0 || v > 1000.0 then true
      else
        match edgeDensity
        case None => false
        case Some(d) => d < 0.01 || d > 0.3
  }

  /** `_check_compression_suspicious`, given the share of high-frequency magnitudes, or None when it raised. */
  function CompressionSuspicious(highFrequencyRatio: Option<real>): (r: bool)
    ensures r <==> highFrequencyRatio.Some? && !(0.3 <= highFrequencyRatio.value <= 0.7)
  {
    match highFrequencyRatio
    case None => false
    case Some(x) => x < 0.3 || x > 0.7
  }

  /** The three indicators of an image that could be opened. */
  datatype ImageSignals = ImageSignals(exif: bool, noise: bool, compression: bool)

  /** The signals of an opened image, from its raw readings. */
  function Signals(e: ExifReading, laplacianVariance: Option<real>, edgeDensity: Option<real>,
                   highFrequencyRatio: Option<real>): ImageSignals
  {
    ImageSignals(ExifSuspicious(e), NoiseSuspicious(laplacianVariance, edgeDensity),
                 CompressionSuspicious(highFrequencyRatio))
  }

  /**
   * `_check_ai_generated_image`: 3 for EXIF, 2 for noise, 1 for compression;
   * 0 when the image cannot be opened.
   */
  function AiScore(s: Option<ImageSignals>): (r: nat)
    ensures r <= 6
    ensures s.None? ==> r == 0
  {
    match s
    case None => 0
    case Some(g) => (if g.exif then 3 else 0) + (if g.noise then 2 else 0) + (if g.compression then 1 else 0)
  }

  /** The score reaches the blocking level 4 exactly when EXIF and one more indicator fire. */
  lemma AiScoreHighBand(s: ImageSignals)
    ensures AiScore(Some(s)) >= 4 <==> s.exif && (s.noise || s.compression)
  {
  }

  /** The score reaches the warning level 2 exactly when EXIF or noise fires. */
  lemma AiScoreMediumBand(s: ImageSignals)
    ensures AiScore(Some(s)) >= 2 <==> s.exif || s.noise
  {
  }

  // ---------------------------------------------------------------------------
  // The five checks
  // ---------------------------------------------------------------------------

  /**
   * `_check_duplicate_images`: an AI score of 4 or more adds 95 and skips
   * the duplicate search; 2 or 3 adds 30; a duplicate with an issue id
   * records that id and adds 90.
   */
  function CheckDuplicateImages(r: FraudResult, ai: nat, dup: DuplicateCheck): (r2: FraudResult)
    ensures Grows(r, r2)
    ensures ai >= 4 ==> r2 == AddSuspicion(r, AiGenerated, 95.0)
    ensures ai < 4 && dup.isDuplicate && dup.problemId.Some? ==>
      r2.existingProblemId == dup.problemId && r2.score >= r.score + 90.0 && DuplicateImage in r2.reasons
    ensures !(ai < 4 && dup.isDuplicate && dup.problemId.Some?) ==> r2.existingProblemId == r.existingProblemId
    ensures ai < 2 && !(dup.isDuplicate && dup.problemId.Some?) ==> r2 == r
  {
    if ai >= 4 then AddSuspicion(r, AiGenerated, 95.0)
    else
      var r1 := if ai >= 2 then AddSuspicion(r, MaybeAiGenerated, 30.0) else r;
      if dup.isDuplicate && dup.problemId.Some? then
        var r3 := AddSuspicion(r1.(existingProblemId := dup.problemId), DuplicateImage, 90.0);
        assert Grows(r1, r1.(existingProblemId := dup.problemId));
        r3
      else r1
  }

  const MaxReportsPerHour: nat := 5
  const MaxReportsPerDay: nat := 20
  const RapidFireReports: nat := 3

  /**
   * `_check_user_patterns`, given the user's report counts for the last
   * hour, day and ten minutes; a query that raises ends the check, keeping
   * what it had already added.
   */
  function CheckUserPatterns(r: FraudResult, lastHour: Option<nat>, lastDay: Option<nat>, lastTenMinutes: Option<nat>)
    : (r2: FraudResult)
    ensures Grows(r, r2)
    ensures r2.existingProblemId == r.existingProblemId
    ensures r2.score <= r.score + 95.0
    ensures lastHour.None? ==> r2 == r
    ensures lastHour.Some? && lastHour.value >= MaxReportsPerHour ==> r2.score >= r.score + 30.0
    ensures lastHour.Some? && lastDay.Some? && lastTenMinutes.Some? ==>
      (r2 == r <==> lastHour.value < MaxReportsPerHour && lastDay.value < MaxReportsPerDay && lastTenMinutes.value < RapidFireReports)
  {
    match lastHour
    case None => r
    case Some(h) =>
      var r1 := if h >= MaxReportsPerHour then AddSuspicion(r, TooManyInHour(h), 30.0) else r;
      match lastDay
      case None => r1
      case Some(d) =>
        var r3 := if d >= MaxReportsPerDay then AddSuspicion(r1, TooManyInDay(d), 25.0) else r1;
        match lastTenMinutes
        case None => r3
        case Some(m) =>
          if m >= RapidFireReports then AddSuspicion(r3, RapidFire(m), 40.0) else r3
  }

  const MaxReportsSameLocation: nat := 3
  const MaxDistanceKm: real := 50.0

  /** `max(distances) if distances else 0` over the recent reports that have a location. */
  function MaxDistance(ds: seq<Option<real>>): (r: real)
    ensures r > MaxDistanceKm <==> exists i :: 0 <= i < |ds| && ds[i].Some? && ds[i].value > MaxDistanceKm
    ensures (forall i :: 0 <= i < |ds| ==> ds[i].None?) ==> r == 0.0
  {
    if ds == [] then 0.0
    else
      var rest := MaxDistance(ds[1..]);
      assert forall i :: 1 <= i < |ds| ==> ds[i] == ds[1..][i - 1];
      match ds[0]
      case None => rest
      case Some(d) =>
        if (forall i :: 0 <= i < |ds[1..]| ==> ds[1..][i].None?) || d > rest then d else rest
  }

  /** At least two recent reports, some located more than 50 km away. */
  predicate FarApart(recent: Option<seq<Option<real>>>) {
    recent.Some? && |recent.value| >= 2
    && exists i :: 0 <= i < |recent.value| && recent.value[i].Some? && recent.value[i].value > MaxDistanceKm
  }

  /**
   * `_check_location_anomalies`, given the number of other users' reports
   * within 100 m and the distances (km) to the user's recent reports in the
   * last hour, one per recent report, None for one without a location.
   */
  function CheckLocationAnomalies(r: FraudResult, nearby: Option<nat>, recent: Option<seq<Option<real>>>)
    : (r2: FraudResult)
    ensures Grows(r, r2)
    ensures r2.existingProblemId == r.existingProblemId
    ensures nearby.None? ==> r2 == r
    ensures nearby.Some? && nearby.value >= MaxReportsSameLocation ==> r2.score >= r.score + 20.0
    ensures nearby.Some? && nearby.value < MaxReportsSameLocation && !FarApart(recent) ==> r2 == r
    ensures nearby.Some? && FarApart(recent) ==> r2.score >= r.score + 35.0
    ensures !FarApart(recent) ==> r2.score <= r.score + 20.0
  {
    match nearby
    case None => r
    case Some(n) =>
      var r1 := if n >= MaxReportsSameLocation then AddSuspicion(r, CrowdedLocation(n), 20.0) else r;
      match recent
      case None => r1
      case Some(ds) =>
        if |ds| >= 2 then
          var m := MaxDistance(ds);
          if m > MaxDistanceKm then AddSuspicion(r1, DistantLocations(m), 35.0) else r1
        else r1
  }

  const MinTitleLength: nat := 5

  /** The phrases that mark test or spam reports, in the order they are tried. */
  const SpamPhrases: seq<string> :=
    ["test", "testing", "fake", "spam", "dummy", "sample",
     "\U{091F}\U{0947}\U{0938}\U{094D}\U{091F}",
     "\U{092B}\U{0947}\U{0915}",
     "\U{0928}\U{0915}\U{0932}\U{0940}",
     "\U{092A}\U{0930}\U{0940}\U{0915}\U{094D}\U{0937}\U{0923}"]

  /** The index of the first phrase found in either text, or `|phrases|` when none is. */
  function FirstSpamPhrase(title: string, description: string, phrases: seq<string>): (k: nat)
    ensures k <= |phrases|
    ensures k < |phrases| ==> Contains(title, phrases[k]) || Contains(description, phrases[k])
    ensures forall j :: 0 <= j < k ==> !Contains(title, phrases[j]) && !Contains(description, phrases[j])
    ensures k == |phrases| <==> !ContainsAny(title, phrases) && !ContainsAny(description, phrases)
  {
    if phrases == [] then 0
    else if Contains(title, phrases[0]) || Contains(description, phrases[0]) then 0
    else
      var k := FirstSpamPhrase(title, description, phrases[1..]);
      assert forall j :: 1 <= j < |phrases| ==> phrases[j] == phrases[1..][j - 1];
      1 + k
  }

  /** More than one word, and fewer than half of them distinct. */
  predicate Repetitive(words: seq<string>) {
    |words| > 1 && (|Distinct(words)| as real) < (|words| as real) * 0.5
  }

  /** A stripped title under 5 characters adds 10. */
  function CheckTitleLength(r: FraudResult, title: string): (r2: FraudResult)
    ensures Grows(r, r2) && r2.existingProblemId == r.existingProblemId
    ensures r2 != r <==> |Strip(title)| < MinTitleLength
    ensures r2 != r ==> r2.reasons == r.reasons + [ShortTitle] && r2.score == r.score + 10.0
  {
    if |Strip(title)| < MinTitleLength then
      var r2 := AddSuspicion(r, ShortTitle, 10.0);
      assert |r2.reasons| > |r.reasons|;
      r2
    else r
  }

  /** A title of several words, fewer than half of them distinct once lower-cased, adds 15. */
  function CheckRepetition(r: FraudResult, title: string): (r2: FraudResult)
    ensures Grows(r, r2) && r2.existingProblemId == r.existingProblemId
    ensures r2 != r <==> Repetitive(Words(Lower(title)))
    ensures r2 != r ==> r2.reasons == r.reasons + [RepetitiveTitle] && r2.score == r.score + 15.0
  {
    if Repetitive(Words(Lower(title))) then
      var r2 := AddSuspicion(r, RepetitiveTitle, 15.0);
      assert |r2.reasons| > |r.reasons|;
      r2
    else r
  }

  /** The first spam phrase in the lower-cased title or description adds 20, and only one is recorded. */
  function CheckSpamPhrases(r: FraudResult, title: string, description: Option<string>): (r2: FraudResult)
    ensures Grows(r, r2) && r2.existingProblemId == r.existingProblemId
    ensures r2 != r <==> ContainsAny(Lower(title), SpamPhrases) || ContainsAny(Lower(OrEmpty(description)), SpamPhrases)
    ensures r2 != r ==>
      && r2.score == r.score + 20.0 && |r2.reasons| == |r.reasons| + 1
      && r2.reasons[|r.reasons|].SpamPhrase?
      && (Contains(Lower(title), r2.reasons[|r.reasons|].phrase) || Contains(Lower(OrEmpty(description)), r2.reasons[|r.reasons|].phrase))
  {
    var k := FirstSpamPhrase(Lower(title), Lower(OrEmpty(description)), SpamPhrases);
    if k < |SpamPhrases| then
      var r2 := AddSuspicion(r, SpamPhrase(SpamPhrases[k]), 20.0);
      assert |r2.reasons| > |r.reasons|;
      r2
    else r
  }

  /** `description or ""`. */
  function OrEmpty(s: Option<string>): string {
    if s.Some? then s.value else ""
  }

  /** `_check_content_anomalies`: the three text checks in order; together they add at most 45. */
  function CheckContentAnomalies(r: FraudResult, title: string, description: Option<string>): (r2: FraudResult)
    ensures Grows(r, r2) && r2.existingProblemId == r.existingProblemId
    ensures r2.score <= r.score + 45.0
    ensures r2 == r <==>
      && |Strip(title)| >= MinTitleLength && !Repetitive(Words(Lower(title)))
      && !ContainsAny(Lower(title), SpamPhrases) && !ContainsAny(Lower(OrEmpty(description)), SpamPhrases)
  {
    var r1 := CheckTitleLength(r, title);
    var r3 := CheckRepetition(r1, title);
    var r4 := CheckSpamPhrases(r3, title, description);
    GrowsTransitive(r, r1, r3);
    GrowsTransitive(r, r3, r4);
    r4
  }

  /** The number of reports the user filed in one hour of the day. */
  datatype HourCount = HourCount(hour: int, count: nat)

  /** Reports filed between 2 and 5 o'clock count as filed at unusual hours. */
  predicate UnusualHour(h: int) { 2 <= h <= 5 }

  function TotalReports(stats: seq<HourCount>): nat {
    if stats == [] then 0 else stats[0].count + TotalReports(stats[1..])
  }

  function UnusualReports(stats: seq<HourCount>): (r: nat)
    ensures r <= TotalReports(stats)
  {
    if stats == [] then 0
    else (if UnusualHour(stats[0].hour) then stats[0].count else 0) + UnusualReports(stats[1..])
  }

  const MinActiveHours: nat := 5

  /** `unusual / total > 0.8`, computed on exact reals. */
  function RatioAbove(unusual: nat, total: nat): (b: bool)
    requires total > 0
    ensures b <==> 5 * unusual > 4 * total
  {
    QuotientAbove(unusual as real, total as real);
    (unusual as real) / (total as real) > 0.8
  }

  lemma QuotientAbove(u: real, t: real)
    requires t > 0.0
    ensures u / t > 0.8 <==> 5.0 * u > 4.0 * t
  {
    var q := u / t;
    assert u == q * t;
    assert (q - 0.8) * t == u - 0.8 * t;
    if q > 0.8 {
      assert (q - 0.8) * t > 0.0;
    } else {
      assert (0.8 - q) * t >= 0.0;
    }
  }

  /**
   * `_check_time_patterns`, given the user's per-hour report counts: with
   * at least five distinct hours and more than 80% of reports at unusual
   * hours, adds 25. A zero total raises, which the check swallows.
   */
  function CheckTimePatterns(r: FraudResult, stats: Option<seq<HourCount>>): (r2: FraudResult)
    ensures Grows(r, r2)
    ensures r2.existingProblemId == r.existingProblemId
    ensures r2 != r <==>
      stats.Some? && |stats.value| >= MinActiveHours && TotalReports(stats.value) > 0
      && 5 * UnusualReports(stats.value) > 4 * TotalReports(stats.value)
  {
    match stats
    case None => r
    case Some(s) =>
      if |s| >= MinActiveHours && TotalReports(s) > 0 && RatioAbove(UnusualReports(s), TotalReports(s)) then
        var r2 := AddSuspicion(r, UnusualHours, 25.0);
        assert |r2.reasons| > |r.reasons|;
        r2
      else r
  }

  // ---------------------------------------------------------------------------
  // `detect_fraud`
  // ---------------------------------------------------------------------------

  /** What the checks read: image signals, the duplicate search, database counts and the report text. */
  datatype FraudInputs = FraudInputs(
    image: Option<ImageSignals>,
    duplicate: DuplicateCheck,
    lastHour: Option<nat>,
    lastDay: Option<nat>,
    lastTenMinutes: Option<nat>,
    nearby: Option<nat>,
    recentDistances: Option<seq<Option<real>>>,
    title: string,
    description: Option<string>,
    hourStats: Option<seq<HourCount>>)

  /**
   * `detect_fraud`: the five checks in order on one result. Each check
   * swallows its own failures, so the analysis always yields a result.
   */
  function DetectFraud(x: FraudInputs): (r: FraudResult)
    ensures Grows(Fresh, r) && Coherent(r)
    ensures AiScore(x.image) >= 4 ==> r.action == Block && r.existingProblemId.None?
    ensures AiScore(x.image) < 4 && x.duplicate.isDuplicate && x.duplicate.problemId.Some? ==>
      r.action == Block && r.existingProblemId == x.duplicate.problemId
    ensures r.existingProblemId.Some? ==>
      AiScore(x.image) < 4 && x.duplicate.isDuplicate && r.existingProblemId == x.duplicate.problemId
  {
    var r1 := CheckDuplicateImages(Fresh, AiScore(x.image), x.duplicate);
    var r2 := CheckUserPatterns(r1, x.lastHour, x.lastDay, x.lastTenMinutes);
    var r3 := CheckLocationAnomalies(r2, x.nearby, x.recentDistances);
    var r4 := CheckContentAnomalies(r3, x.title, x.description);
    var r5 := CheckTimePatterns(r4, x.hourStats);
    GrowsTransitive(Fresh, r1, r2);
    GrowsTransitive(Fresh, r2, r3);
    GrowsTransitive(Fresh, r3, r4);
    GrowsTransitive(Fresh, r4, r5);
    r5
  }

  /**
   * Fail-open: when the image cannot be analysed and every database query
   * raises, only the text is judged, which scores at most 45, so the report
   * is allowed.
   */
  lemma EverythingFailingAllows(title: string, description: Option<string>)
    ensures DetectFraud(FraudInputs(None, NoDuplicate, None, None, None, None, None, title, description, None)).action == Allow
  {
    var r := DetectFraud(FraudInputs(None, NoDuplicate, None, None, None, None, None, title, description, None));
    assert r == CheckContentAnomalies(Fresh, title, description);
  }
}
