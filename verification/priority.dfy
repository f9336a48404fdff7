/**
 * The priority score a new issue receives: a weighted sum of a density
 * component (how many pending issues lie within 500 m) and an urgency
 * component (looked up from the issue type), rounded to two decimals.
 * The spatial query is outside the model: its outcome is a parameter.
 */
module Priority {
  import opened Strings
  import opened Config
  import opened Models

  /** The outcome of the spatial count query: a count, or a failure that triggers the fallback. */
  datatype SpatialCount = Counted(nearby: nat) | QueryFailed

  /** The density component: `min(n / 10, 1) * 10`. */
  function Density(n: nat): (r: real)
    ensures 0.0 <= r <= 10.0
    ensures n < 10 ==> r == n as real
    ensures n >= 10 ==> r == 10.0
  {
    var ratio := n as real / 10.0;
    (if ratio < 1.0 then ratio else 1.0) * 10.0
  }

  /** More nearby pending issues never lower the density component. */
  lemma DensityMonotone(m: nat, n: nat)
    requires m <= n
    ensures Density(m) <= Density(n)
  {
  }

  /** The urgency table, keyed by lower-cased type. */
  const UrgencyScores: map<string, nat> := map[
    "electrical" := 9,
    "sewage" := 8,
    "street light" := 8,
    "water supply" := 7,
    "drainage" := 7,
    "pothole" := 6,
    "road repair" := 6,
    "public transport" := 5,
    "cleaning" := 4,
    "other" := 5,
    "default" := 5]

  /** The score of a type absent from the table. */
  const DefaultUrgency: nat := 5

  /** The urgency component: the table entry of the lower-cased type, else the default. */
  function Urgency(problemType: string): (r: nat)
    ensures 4 <= r <= 9
    ensures Lower(problemType) !in UrgencyScores ==> r == DefaultUrgency
    ensures Lower(problemType) in UrgencyScores ==> r == UrgencyScores[Lower(problemType)]
  {
    var key := Lower(problemType);
    if key in UrgencyScores then UrgencyScores[key] else UrgencyScores["default"]
  }

  /** The lookup ignores case: two spellings of a type differing only in case score the same. */
  lemma UrgencyIgnoresCase(a: string, b: string)
    requires EqualIgnoringCase(a, b)
    ensures Urgency(a) == Urgency(b)
  {
  }

  /** The issue router capitalises the type before scoring; that never changes the urgency. */
  lemma UrgencyOfCapitalized(t: string)
    ensures Urgency(Capitalize(t)) == Urgency(t)
  {
    LowerOfCapitalize(t);
  }

  /** The number of hundredths `round(x, 2)` keeps, with halves rounded up. */
  function Hundredths(x: real): (k: int)
    ensures k as real <= x * 100.0 + 0.5 < k as real + 1.0
  {
    (x * 100.0 + 0.5).Floor
  }

  /** `round(x, 2)` on exact reals, with halves rounded up. */
  function Round2(x: real): (r: real)
    ensures -0.005 < r - x <= 0.005
    ensures r * 100.0 == Hundredths(x) as real
  {
    Hundredths(x) as real / 100.0
  }

  /** Rounding keeps order. */
  lemma Round2Monotone(x: real, y: real)
    requires x <= y
    ensures Round2(x) <= Round2(y)
  {
    var a, b := Hundredths(x), Hundredths(y);
    assert a as real <= x * 100.0 + 0.5 <= y * 100.0 + 0.5 < b as real + 1.0;
    assert a <= b;
  }

  /** A value that already has two decimals is its own rounding. */
  lemma Round2Exact(k: int)
    ensures Round2(k as real / 100.0) == k as real / 100.0
  {
    var x := k as real / 100.0;
    assert x * 100.0 + 0.5 == k as real + 0.5;
    var h := Hundredths(x);
    assert h as real <= k as real + 0.5 < h as real + 1.0;
    assert h == k;
  }

  /** The weighted sum before rounding. */
  function RawPriority(density: real, urgency: nat, cfg: Settings): real {
    density * cfg.priorityDensityWeight + urgency as real * cfg.priorityUrgencyWeight
  }

  /**
   * The score of a new issue. After a failed spatial query only the urgency
   * term is kept, so the failure behaves like a count of zero.
   */
  function PriorityScore(q: SpatialCount, problemType: string, cfg: Settings): (r: real)
    ensures q.Counted? ==> -0.005 < r - RawPriority(Density(q.nearby), Urgency(problemType), cfg) <= 0.005
    ensures q.QueryFailed? ==> -0.005 < r - Urgency(problemType) as real * cfg.priorityUrgencyWeight <= 0.005
  {
    match q
    case Counted(n) => Round2(RawPriority(Density(n), Urgency(problemType), cfg))
    case QueryFailed => Round2(Urgency(problemType) as real * cfg.priorityUrgencyWeight)
  }

  /** A failed spatial query scores exactly like an empty neighbourhood. */
  lemma FallbackIsZeroDensity(problemType: string, cfg: Settings)
    ensures PriorityScore(QueryFailed, problemType, cfg) == PriorityScore(Counted(0), problemType, cfg)
  {
    assert Density(0) == 0.0;
  }

  /** With the default weights the unrounded score lies between 1.6 and 9.6. */
  lemma RawPriorityBounds(n: nat, problemType: string)
    ensures 1.6 <= RawPriority(Density(n), Urgency(problemType), Defaults) <= 9.6
  {
  }

  /** With the default weights the stored score stays on the 1.6–9.6 part of the 0–10 scale. */
  lemma PriorityScoreBounds(q: SpatialCount, problemType: string)
    ensures 1.6 <= PriorityScore(q, problemType, Defaults) <= 9.6
  {
    var raw := match q
      case Counted(n) => RawPriority(Density(n), Urgency(problemType), Defaults)
      case QueryFailed => RawPriority(0.0, Urgency(problemType), Defaults);
    assert 1.6 <= raw <= 9.6;
    Round2Monotone(1.6, raw);
    Round2Monotone(raw, 9.6);
    Round2Exact(160);
    Round2Exact(960);
  }

  /** With non-negative weights, more nearby issues never lower the score. */
  lemma PriorityMonotoneInDensity(m: nat, n: nat, problemType: string, cfg: Settings)
    requires m <= n && cfg.priorityDensityWeight >= 0.0
    ensures PriorityScore(Counted(m), problemType, cfg) <= PriorityScore(Counted(n), problemType, cfg)
  {
    DensityMonotone(m, n);
    var u := Urgency(problemType);
    assert Density(m) * cfg.priorityDensityWeight <= Density(n) * cfg.priorityDensityWeight;
    Round2Monotone(RawPriority(Density(m), u, cfg), RawPriority(Density(n), u, cfg));
  }

  // ---------------------------------------------------------------------------
  // The spatial count query
  // ---------------------------------------------------------------------------

  /**
   * The ids among the first `n` rows with status `s` that lie within 500 m
   * of the new issue; `near` stands for PostGIS's `ST_DWithin` test.
   */
  function NearbyWith(ps: seq<Problem>, near: nat -> bool, s: ProblemStatus, n: nat): set<nat>
    requires n <= |ps|
  {
    set i: nat | i < n && ps[i].status == s && near(i)
  }

  /** `COUNT(id)` over the rows the filter keeps, one row at a time. */
  function CountNearby(ps: seq<Problem>, near: nat -> bool, s: ProblemStatus, n: nat): (r: nat)
    requires n <= |ps|
    ensures r == |NearbyWith(ps, near, s, n)|
    ensures r <= n
  {
    if n == 0 then
      assert NearbyWith(ps, near, s, n) == {};
      0
    else
      var rest := CountNearby(ps, near, s, n - 1);
      var here := ps[n - 1].status == s && near(n - 1);
      if here then
        assert NearbyWith(ps, near, s, n) == NearbyWith(ps, near, s, n - 1) + {n - 1};
        rest + 1
      else
        assert NearbyWith(ps, near, s, n) == NearbyWith(ps, near, s, n - 1);
        rest
  }

  /**
   * The spatial query of priority.py, comparing the status column with the
   * text `literal`: PostgreSQL casts the literal to the enum type and raises
   * when it is no label, which the scorer's handler turns into the fallback.
   * `ps` is the table after the first commit, so it holds the new issue.
   */
  function SpatialQuery(ps: seq<Problem>, near: nat -> bool, literal: string): (q: SpatialCount)
    ensures q.QueryFailed? <==> ParseStatusLabel(literal).None?
    ensures q.Counted? ==> q.nearby == |NearbyWith(ps, near, ParseStatusLabel(literal).value, |ps|)|
  {
    match ParseStatusLabel(literal)
    case None => QueryFailed
    case Some(s) => Counted(CountNearby(ps, near, s, |ps|))
  }

  /** The query as written compares with the value "pending", which is no label of the enum type. */
  function SpatialQueryAsWritten(ps: seq<Problem>, near: nat -> bool): (q: SpatialCount)
    ensures q == QueryFailed
  {
    StatusLabelRoundTrip(Pending);
    SpatialQuery(ps, near, StatusValue(Pending))
  }

  /** As written, every report scores as though no other issue were near it. */
  lemma AsWrittenScoreIgnoresNeighbours(ps: seq<Problem>, near: nat -> bool, problemType: string, cfg: Settings)
    ensures PriorityScore(SpatialQueryAsWritten(ps, near), problemType, cfg) == PriorityScore(Counted(0), problemType, cfg)
  {
    FallbackIsZeroDensity(problemType, cfg);
  }

  /** The corrected query compares with the stored label and counts the pending issues within 500 m. */
  function PendingNearby(ps: seq<Problem>, near: nat -> bool): (q: SpatialCount)
    ensures q == Counted(|NearbyWith(ps, near, Pending, |ps|)|)
  {
    StatusLabelRoundTrip(Pending);
    SpatialQuery(ps, near, StatusLabel(Pending))
  }

  /** Rows that agree on the first `n` give the same nearby ids among them. */
  lemma NearbyPrefix(ps: seq<Problem>, qs: seq<Problem>, near: nat -> bool, s: ProblemStatus, n: nat)
    requires n <= |ps| && n <= |qs| && qs[..n] == ps[..n]
    ensures NearbyWith(qs, near, s, n) == NearbyWith(ps, near, s, n)
  {
    forall i: nat | i < n ensures qs[i] == ps[i] {
      assert qs[i] == qs[..n][i];
      assert ps[i] == ps[..n][i];
    }
  }

  /** One more row adds its id exactly when it passes the filter. */
  lemma NearbyStep(ps: seq<Problem>, near: nat -> bool, s: ProblemStatus, n: nat)
    requires n < |ps|
    ensures ps[n].status == s && near(n) ==> NearbyWith(ps, near, s, n + 1) == NearbyWith(ps, near, s, n) + {n}
    ensures !(ps[n].status == s && near(n)) ==> NearbyWith(ps, near, s, n + 1) == NearbyWith(ps, near, s, n)
  {
  }

  /**
   * With the corrected query, the new issue counts itself, and one more
   * pending issue nearby raises the count by one; other rows change nothing.
   */
  lemma PendingNearbyAppend(ps: seq<Problem>, p: Problem, near: nat -> bool)
    ensures PendingNearby(ps + [p], near).nearby
         == PendingNearby(ps, near).nearby + (if p.status == Pending && near(|ps|) then 1 else 0)
  {
    var qs := ps + [p];
    assert qs[..|ps|] == ps[..|ps|];
    NearbyPrefix(ps, qs, near, Pending, |ps|);
    NearbyStep(qs, near, Pending, |ps|);
    assert |ps| !in NearbyWith(qs, near, Pending, |ps|);
  }
}
