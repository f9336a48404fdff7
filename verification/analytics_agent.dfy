/**
 * The statistics agent: it claims questions about rankings and counts,
 * picks one of five reports from the query's words and formats it. The
 * three ranking queries (grouping, ordering by count) are answered by the
 * database and enter as their rows; the per-status counts are computed
 * from the issues themselves.
 */
module AnalyticsAgent {
  import opened Common
  import opened Strings
  import opened Models
  import opened Agent

  /** Words that mark a statistics question, in English and Hindi. */
  const Keywords: seq<string> := [
    "best", "\U{0938}\U{092C}\U{0938}\U{0947} \U{0905}\U{091A}\U{094D}\U{091B}\U{093E}", "top", "most",
    "\U{0938}\U{092C}\U{0938}\U{0947}", "statistics", "\U{0906}\U{0902}\U{0915}\U{0921}\U{093C}\U{0947}",
    "how many", "\U{0915}\U{093F}\U{0924}\U{0928}\U{0947}", "which city",
    "\U{0915}\U{094C}\U{0928} \U{0938}\U{093E} \U{0936}\U{0939}\U{0930}", "district", "\U{091C}\U{093F}\U{0932}\U{093E}",
    "resolved", "solved", "\U{0939}\U{0932}", "completed", "\U{092A}\U{0942}\U{0930}\U{094D}\U{0923}",
    "ranking", "\U{0930}\U{0948}\U{0902}\U{0915}\U{093F}\U{0902}\U{0917}", "comparison", "\U{0924}\U{0941}\U{0932}\U{0928}\U{093E}",
    "performance", "\U{092A}\U{094D}\U{0930}\U{0926}\U{0930}\U{094D}\U{0936}\U{0928}", "worst", "least"
  ]

  /** `can_handle`: some statistics keyword occurs in the lower-cased query. */
  function CanHandle(query: string): (r: bool)
    ensures r <==> exists k :: 0 <= k < |Keywords| && Contains(Lower(query), Keywords[k])
  {
    ContainsAny(Lower(query), Keywords)
  }

  // ---------------------------------------------------------------------------
  // Choosing the report
  // ---------------------------------------------------------------------------

  datatype Report = BestCities | WorstCities | MyCity | Overall | Departments

  const BestWords: seq<string> := ["best", "top", "\U{0938}\U{092C}\U{0938}\U{0947} \U{0905}\U{091A}\U{094D}\U{091B}\U{093E}"]
  const WorstWords: seq<string> := ["worst", "least", "\U{0938}\U{092C}\U{0938}\U{0947} \U{0916}\U{0930}\U{093E}\U{092C}"]
  const MyCityWords: seq<string> := ["my city", "my district",
    "\U{092E}\U{0947}\U{0930}\U{093E} \U{0936}\U{0939}\U{0930}", "\U{092E}\U{0947}\U{0930}\U{093E} \U{091C}\U{093F}\U{0932}\U{093E}"]
  const OverallWords: seq<string> := ["overall", "total", "haryana", "\U{0915}\U{0941}\U{0932}"]
  const DepartmentWords: seq<string> := ["department", "\U{0935}\U{093F}\U{092D}\U{093E}\U{0917}"]

  /**
   * The report a query asks for: the first word list, in the order best,
   * worst, my city, overall, department, that the lower-cased query hits;
   * the best-cities report when it hits none.
   */
  function ChooseReport(query: string): (r: Report)
    ensures var q := Lower(query);
      var best, worst, mine := ContainsAny(q, BestWords), ContainsAny(q, WorstWords), ContainsAny(q, MyCityWords);
      var overall, dept := ContainsAny(q, OverallWords), ContainsAny(q, DepartmentWords);
      && (r == WorstCities <==> !best && worst)
      && (r == MyCity <==> !best && !worst && mine)
      && (r == Overall <==> !best && !worst && !mine && overall)
      && (r == Departments <==> !best && !worst && !mine && !overall && dept)
      && (r == BestCities <==> best || (!worst && !mine && !overall && !dept))
  {
    var q := Lower(query);
    if ContainsAny(q, BestWords) then BestCities
    else if ContainsAny(q, WorstWords) then WorstCities
    else if ContainsAny(q, MyCityWords) then MyCity
    else if ContainsAny(q, OverallWords) then Overall
    else if ContainsAny(q, DepartmentWords) then Departments
    else BestCities
  }

  // ---------------------------------------------------------------------------
  // Ranked lists
  // ---------------------------------------------------------------------------

  /** The ranking replies list at most this many districts. */
  const TopLimit: nat := 5
  const Period: string := "3 months"

  /** The marker of the district ranked `rank`, counting from 1. */
  function Medal(rank: nat): string {
    if rank == 1 then "\U{1F947}" else if rank == 2 then "\U{1F948}" else if rank == 3 then "\U{1F949}" else "\U{2B50}"
  }

  /** Ranks 1, 2 and 3 get three different medals, none of them the star every later rank shares. */
  lemma PodiumMedals(rank: nat, other: nat)
    requires 1 <= rank <= 3 && 1 <= other && other != rank
    ensures Medal(rank) != Medal(other)
  {
    assert Medal(rank)[0] != Medal(other)[0];
  }

  /** One text line per row, ranked from 1 in row order, run together. */
  function RankedText(rows: seq<Tally>, line: (nat, Tally) -> string): (r: string)
    ensures forall k :: 0 <= k < |rows| ==> Contains(r, line(k + 1, rows[k]))
  {
    var lines := seq(|rows|, k requires 0 <= k < |rows| => line(k + 1, rows[k]));
    JoinWithHoldsEvery(lines, "");
    assert forall k :: 0 <= k < |rows| ==> lines[k] == line(k + 1, rows[k]);
    JoinWith(lines, "")
  }

  function BestLine(rank: nat, t: Tally): string {
    Medal(rank) + " **" + t.name + "**: " + NatToString(t.count) + " issues resolved\n"
  }

  const BestHeader: string :=
    "\U{1F3C6} **Top Performing Cities in Haryana (Last 3 Months)**\n\n" + "Based on the number of resolved civic issues:\n\n"

  const NoRecentDataReply: AgentReply := AgentReply(
    "There's no data available for the last 3 months. Please check back later!", PeriodMeta(Period), Analytics)

  /**
   * The best-cities reply for the database's ranking of districts by
   * recently resolved issues: at most five, each with its medal line, the
   * first named the winner; the no-data reply when the ranking is empty.
   */
  function BestCitiesReply(ranking: seq<Tally>): (r: AgentReply)
    ensures r.agentType == Analytics && r.response != []
    ensures ranking == [] ==> r == NoRecentDataReply
    ensures ranking != [] ==>
      var rows := Take(ranking, TopLimit);
      && r.metadata == BestCitiesMeta(Period, ranking[0].name, ranking[0].count, rows)
      && |rows| <= TopLimit
      && IsPrefix(BestHeader, r.response)
      && forall k :: 0 <= k < |rows| ==> Contains(r.response, BestLine(k + 1, rows[k]))
  {
    if ranking == [] then NoRecentDataReply
    else
      var rows := Take(ranking, TopLimit);
      var body := RankedText(rows, BestLine);
      var winner := "\n**Winner**: " + rows[0].name + " with " + NatToString(rows[0].count) + " issues resolved! \U{1F389}";
      ContainsAfterPrefix(BestHeader, body, winner, rows, BestLine);
      AgentReply(BestHeader + body + winner, BestCitiesMeta(Period, rows[0].name, rows[0].count, rows), Analytics)
  }

  /** Every line of a ranked body is still found once a header and a footer surround it. */
  lemma ContainsAfterPrefix(head: string, body: string, tail: string, rows: seq<Tally>, line: (nat, Tally) -> string)
    requires forall k :: 0 <= k < |rows| ==> Contains(body, line(k + 1, rows[k]))
    ensures forall k :: 0 <= k < |rows| ==> Contains(head + body + tail, line(k + 1, rows[k]))
    ensures IsPrefix(head, head + body + tail)
  {
    ContainsMiddle(head, body, tail);
    forall k | 0 <= k < |rows|
      ensures Contains(head + body + tail, line(k + 1, rows[k]))
    {
      ContainsTransitive(head + body + tail, body, line(k + 1, rows[k]));
    }
    assert (head + body + tail)[..|head|] == head;
  }

  function PendingLine(rank: nat, t: Tally): string {
    NatToString(rank) + ". **" + t.name + "**: " + NatToString(t.count) + " pending issues\n"
  }

  const WorstHeader: string := "\U{1F4CA} **Cities with Most Pending Issues**\n\n"

  const NoPendingReply: AgentReply := AgentReply(
    "Great news! There are no pending issues in any city right now! \U{1F389}", NoMetadata, Analytics)

  /** The most-pending reply for the database's ranking of districts by pending issues: at most five rows. */
  function WorstCitiesReply(ranking: seq<Tally>): (r: AgentReply)
    ensures r.agentType == Analytics && r.response != []
    ensures ranking == [] ==> r == NoPendingReply
    ensures ranking != [] ==>
      var rows := Take(ranking, TopLimit);
      && r.metadata == CitiesMeta(rows)
      && IsPrefix(WorstHeader, r.response)
      && forall k :: 0 <= k < |rows| ==> Contains(r.response, PendingLine(k + 1, rows[k]))
  {
    if ranking == [] then NoPendingReply
    else
      var rows := Take(ranking, TopLimit);
      var body := RankedText(rows, PendingLine);
      var tail := "\nThese cities need more attention from the administration.";
      ContainsAfterPrefix(WorstHeader, body, tail, rows, PendingLine);
      AgentReply(WorstHeader + body + tail, CitiesMeta(rows), Analytics)
  }

  function DepartmentLine(rank: nat, t: Tally): string {
    NatToString(rank) + ". **" + t.name + "**: " + NatToString(t.count) + " tasks assigned\n"
  }

  const DepartmentHeader: string := "\U{1F3E2} **Department-wise Statistics**\n\n"

  const NoDepartmentReply: AgentReply := AgentReply("No department data available yet.", NoMetadata, Analytics)

  /** The department reply lists every row the database returns: this query has no limit. */
  function DepartmentReply(ranking: seq<Tally>): (r: AgentReply)
    ensures r.agentType == Analytics && r.response != []
    ensures ranking == [] ==> r == NoDepartmentReply
    ensures ranking != [] ==>
      && r.metadata == DepartmentsMeta(ranking)
      && IsPrefix(DepartmentHeader, r.response)
      && forall k :: 0 <= k < |ranking| ==> Contains(r.response, DepartmentLine(k + 1, ranking[k]))
  {
    if ranking == [] then NoDepartmentReply
    else
      var body := RankedText(ranking, DepartmentLine);
      ContainsAfterPrefix(DepartmentHeader, body, "", ranking, DepartmentLine);
      AgentReply(DepartmentHeader + body + "", DepartmentsMeta(ranking), Analytics)
  }

  // ---------------------------------------------------------------------------
  // Per-status counts
  // ---------------------------------------------------------------------------

  const NoCounts: StatusCounts := StatusCounts(0, 0, 0, 0, 0)

  /** The counts with one more issue of status `s`. */
  function Bump(c: StatusCounts, s: ProblemStatus): StatusCounts {
    match s
    case Pending => c.(total := c.total + 1, pending := c.pending + 1)
    case Assigned => c.(total := c.total + 1, assignedCount := c.assignedCount + 1)
    case Completed => c.(total := c.total + 1, completed := c.completed + 1)
    case Verified => c.(total := c.total + 1, verified := c.verified + 1)
  }

  /** The counts of the issues whose district `inScope` accepts. */
  function Tallied(ps: seq<Problem>, inScope: string -> bool): (c: StatusCounts)
    ensures c.total == c.pending + c.assignedCount + c.completed + c.verified
    ensures c.total <= |ps|
    decreases |ps|
  {
    if ps == [] then NoCounts
    else
      var rest := Tallied(ps[..|ps| - 1], inScope);
      if inScope(ps[|ps| - 1].district) then Bump(rest, ps[|ps| - 1].status) else rest
  }

  /** A newly reported issue in scope raises the total and the pending count by one and nothing else. */
  lemma NewIssueCounted(ps: seq<Problem>, p: Problem, inScope: string -> bool)
    requires p.status == Pending && inScope(p.district)
    ensures Tallied(ps + [p], inScope) == Tallied(ps, inScope).(total := Tallied(ps, inScope).total + 1,
                                                                pending := Tallied(ps, inScope).pending + 1)
  {
    assert (ps + [p])[..|ps|] == ps;
  }

  /** An issue outside the scope leaves the counts unchanged. */
  lemma OtherDistrictsIgnored(ps: seq<Problem>, p: Problem, inScope: string -> bool)
    requires !inScope(p.district)
    ensures Tallied(ps + [p], inScope) == Tallied(ps, inScope)
  {
    assert (ps + [p])[..|ps|] == ps;
  }

  /** The share of resolved issues, as a percentage. */
  function ResolutionPercent(c: StatusCounts): (r: real)
    requires c.total > 0
    ensures c.completed + c.verified <= c.total ==> 0.0 <= r <= 100.0
  {
    var x := (c.completed + c.verified) as real / c.total as real;
    assert c.completed + c.verified <= c.total ==> x <= 1.0;
    x * 100.0
  }

  /** `f"{x:.1f}"` for a non-negative number, with halves rounded up. */
  function FormatTenths(x: real): (r: string)
    requires x >= 0.0
    ensures r != []
  {
    var n: int := (x * 10.0 + 0.5).Floor;
    assert n >= 0;
    NatToString(n / 10) + "." + [DigitChar(n % 10)]
  }

  /** The rate line of the city reply: present exactly when the district has issues. */
  function CityRateLine(c: StatusCounts): (r: string)
    ensures r == [] <==> c.total == 0
  {
    if c.total > 0 then "\U{1F3AF} Resolution Rate: " + FormatTenths(ResolutionPercent(c)) + "%" else ""
  }

  function CountsText(c: StatusCounts): string {
    "\U{1F4CB} Total Issues: " + NatToString(c.total) + "\n"
    + "\U{23F3} Pending: " + NatToString(c.pending) + "\n"
    + "\U{1F477} Assigned: " + NatToString(c.assignedCount) + "\n"
    + "\U{2705} Completed: " + NatToString(c.completed) + "\n"
    + "\U{2713} Verified: " + NatToString(c.verified) + "\n\n"
  }

  function CityText(district: string, c: StatusCounts): string {
    "\U{1F4CA} **Statistics for " + district + "**\n\n" + CountsText(c)
  }

  const NoCityReply: AgentReply := AgentReply(
    "I couldn't find your city information. Please update your profile.", NoMetadata, Analytics)

  /** The caller's district: absent when the user does not exist or has no (or an empty) district. */
  function UserDistrict(st: State, userId: nat): (r: Option<string>)
    ensures r.Some? <==> userId < |st.users| && st.users[userId].district.Some? && st.users[userId].district.value != []
    ensures r.Some? ==> r == st.users[userId].district
  {
    if userId < |st.users| && st.users[userId].district.Some? && st.users[userId].district.value != [] then
      st.users[userId].district
    else None
  }

  /**
   * The my-city reply: the update-profile reply without a district;
   * otherwise the district's counts, with a rate line only when it has
   * issues at all.
   */
  function CityStatsReply(st: State, userId: nat): (r: AgentReply)
    ensures r.agentType == Analytics && r.response != []
    ensures UserDistrict(st, userId).None? ==> r == NoCityReply
    ensures UserDistrict(st, userId).Some? ==>
      var d := UserDistrict(st, userId).value;
      var c := Tallied(st.problems, x => x == d);
      && r.metadata == DistrictStatsMeta(d, c)
      && IsPrefix(CityText(d, c), r.response)
      && (c.total == 0 <==> r.response == CityText(d, c))
  {
    match UserDistrict(st, userId)
    case None => NoCityReply
    case Some(d) =>
      var c := Tallied(st.problems, x => x == d);
      var text := CityText(d, c);
      assert (text + CityRateLine(c))[..|text|] == text;
      AgentReply(text + CityRateLine(c), DistrictStatsMeta(d, c), Analytics)
  }

  /** The number of distinct districts among the issues. */
  function DistrictsCovered(ps: seq<Problem>): (r: nat)
    ensures r <= |ps|
    ensures ps != [] ==> r >= 1
  {
    var ds := set k | 0 <= k < |ps| :: ps[k].district;
    DistinctBound(ps);
    |ds|
  }

  /** Mapping a sequence onto a set yields at most as many elements as the sequence has. */
  lemma {:induction false} DistinctBound(ps: seq<Problem>)
    ensures |set k | 0 <= k < |ps| :: ps[k].district| <= |ps|
    ensures ps != [] ==> |set k | 0 <= k < |ps| :: ps[k].district| >= 1
    decreases |ps|
  {
    if ps != [] {
      assert ps[0].district in set k | 0 <= k < |ps| :: ps[k].district;
      var init := ps[..|ps| - 1];
      DistinctBound(init);
      var s0 := set k | 0 <= k < |init| :: init[k].district;
      var s1 := set k | 0 <= k < |ps| :: ps[k].district;
      assert s1 == s0 + {ps[|ps| - 1].district} by {
        forall x | x in s1 ensures x in s0 + {ps[|ps| - 1].district} {
          var k :| 0 <= k < |ps| && ps[k].district == x;
          if k < |ps| - 1 {
            assert init[k].district == x;
          }
        }
        forall x | x in s0 ensures x in s1 {
          var k :| 0 <= k < |init| && init[k].district == x;
          assert ps[k].district == x;
        }
      }
    }
  }

  function OverallText(c: StatusCounts, districts: nat): string {
    "\U{1F3DB}\U{FE0F} **Smart Haryana - Overall Statistics**\n\n"
    + "\U{1F4CA} Total Issues Reported: " + NatToString(c.total) + "\n"
    + "\U{1F4CD} Districts Covered: " + NatToString(districts) + "\n"
    + "\U{23F3} Pending: " + NatToString(c.pending) + "\n"
    + "\U{2705} Completed: " + NatToString(c.completed) + "\n"
    + "\U{2713} Verified: " + NatToString(c.verified) + "\n\n"
  }

  /** The overall rate lines: present exactly when there are issues at all. */
  function OverallRateLines(c: StatusCounts): (r: string)
    ensures r == [] <==> c.total == 0
  {
    if c.total > 0 then
      "\U{1F3AF} Overall Resolution Rate: " + FormatTenths(ResolutionPercent(c)) + "%\n"
      + "\nTogether, we're making Haryana better! \U{1F31F}"
    else ""
  }

  /** The state-wide reply: every issue counted, the districts they cover, and a rate only when there are issues. */
  function OverallReply(ps: seq<Problem>): (r: AgentReply)
    ensures r.agentType == Analytics && r.response != []
    ensures var c := Tallied(ps, x => true);
      && r.metadata == OverallStatsMeta(c.total, DistrictsCovered(ps), c.pending, c.completed, c.verified)
      && IsPrefix(OverallText(c, DistrictsCovered(ps)), r.response)
      && (c.total == 0 <==> r.response == OverallText(c, DistrictsCovered(ps)))
  {
    var c := Tallied(ps, x => true);
    var text := OverallText(c, DistrictsCovered(ps));
    assert (text + OverallRateLines(c))[..|text|] == text;
    AgentReply(text + OverallRateLines(c), OverallStatsMeta(c.total, DistrictsCovered(ps), c.pending, c.completed, c.verified), Analytics)
  }

  /** Every issue is in the state-wide scope, so the overall total is the number of issues. */
  lemma {:induction false} OverallCountsEveryIssue(ps: seq<Problem>)
    ensures Tallied(ps, x => true).total == |ps|
    decreases |ps|
  {
    if ps != [] {
      OverallCountsEveryIssue(ps[..|ps| - 1]);
    }
  }

  // ---------------------------------------------------------------------------
  // Execute
  // ---------------------------------------------------------------------------

  /** What the agent reads: the tables, and the rows of the three ranking queries in the order returned. */
  datatype Snapshot = Snapshot(st: State, resolvedRanking: seq<Tally>, pendingRanking: seq<Tally>, departmentRanking: seq<Tally>)

  /** `execute`: the chosen report; every reply is non-empty, so the router always stops here. */
  function Execute(query: string, userId: nat, db: Snapshot): (r: AgentReply)
    ensures r.agentType == Analytics && r.response != []
    ensures ChooseReport(query) == BestCities ==> r == BestCitiesReply(db.resolvedRanking)
    ensures ChooseReport(query) == WorstCities ==> r == WorstCitiesReply(db.pendingRanking)
    ensures ChooseReport(query) == MyCity ==> r == CityStatsReply(db.st, userId)
    ensures ChooseReport(query) == Overall ==> r == OverallReply(db.st.problems)
    ensures ChooseReport(query) == Departments ==> r == DepartmentReply(db.departmentRanking)
  {
    match ChooseReport(query)
    case BestCities => BestCitiesReply(db.resolvedRanking)
    case WorstCities => WorstCitiesReply(db.pendingRanking)
    case MyCity => CityStatsReply(db.st, userId)
    case Overall => OverallReply(db.st.problems)
    case Departments => DepartmentReply(db.departmentRanking)
  }
}
