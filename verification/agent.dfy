/**
 * What every chatbot agent returns: a reply text, a metadata record and
 * the agent's type tag, plus the chat-history entry the agents read.
 */
module Agent {
  import opened Common
  import opened Strings

  /** The four agents; `AgentTypeValue` is the tag stored with a reply. */
  datatype AgentKind = Rag | Analytics | WebSearch | Gemini

  function AgentTypeValue(k: AgentKind): string {
    match k
    case Rag => "rag"
    case Analytics => "analytics"
    case WebSearch => "web_search"
    case Gemini => "gemini"
  }

  /** A name with a count: a district's issue count, or a department's task count. */
  datatype Tally = Tally(name: string, count: nat)

  /** Issue counts per status, as the statistics replies report them. */
  datatype StatusCounts = StatusCounts(total: nat, pending: nat, assignedCount: nat, completed: nat, verified: nat)

  /** The metadata dictionary of a reply, one constructor per shape the agents build. */
  datatype Metadata =
    | NoMetadata
    | ErrorMeta(error: string)
    | PeriodMeta(period: string)
    | BestCitiesMeta(period: string, topCity: string, topCount: nat, cities: seq<Tally>)
    | CitiesMeta(cities: seq<Tally>)
    | DistrictStatsMeta(district: string, stats: StatusCounts)
    | OverallStatsMeta(total: nat, districts: nat, pending: nat, completed: nat, verified: nat)
    | DepartmentsMeta(departments: seq<Tally>)
    | DocsFoundMeta(docsFound: nat)
    | DocsRetrievedMeta(docsRetrieved: nat, docSources: set<string>)
    | NoResultsMeta(query: string)
    | SearchMeta(query: string, resultsCount: nat, urls: seq<Option<string>>)
    | ModelMeta(model: string, tokens: nat)

  /** The dictionary an agent's `execute` returns. */
  datatype AgentReply = AgentReply(response: string, metadata: Metadata, agentType: AgentKind)

  /** Who wrote a chat-history row. */
  const UserRole: string := "user"
  const AssistantRole: string := "assistant"

  /** One loaded chat-history row, as the agents see it; the timestamp is not modelled. */
  datatype HistoryEntry = HistoryEntry(role: string, message: string, agentType: Option<AgentKind>)

  /** The `k`-prefix of a sequence, or all of it when shorter: SQL `LIMIT k`. */
  function Take<T>(xs: seq<T>, k: nat): (r: seq<T>)
    ensures |r| <= k && |r| <= |xs|
    ensures |xs| <= k ==> r == xs
    ensures r == xs[..|r|]
  {
    if |xs| <= k then xs else xs[..k]
  }

  /** The last `k` elements, or all of them when fewer: Python's `xs[-k:]`. */
  function TakeLast<T>(xs: seq<T>, k: nat): (r: seq<T>)
    ensures |r| <= k && |r| <= |xs|
    ensures |xs| <= k ==> r == xs
    ensures r == xs[|xs| - |r|..]
  {
    if |xs| <= k then xs else xs[|xs| - k..]
  }

  /** `sep.join(parts)` for a separator string. */
  function JoinWith(parts: seq<string>, sep: string): (r: string)
  {
    if parts == [] then []
    else if |parts| == 1 then parts[0]
    else parts[0] + sep + JoinWith(parts[1..], sep)
  }

  /** The sum of the parts' lengths. */
  function TotalLength(parts: seq<string>): nat {
    if parts == [] then 0 else |parts[0]| + TotalLength(parts[1..])
  }

  /** A join is as long as its parts plus one separator between each neighbouring pair. */
  lemma {:induction false} JoinWithLength(parts: seq<string>, sep: string)
    requires parts != []
    ensures |JoinWith(parts, sep)| == TotalLength(parts) + (|parts| - 1) * |sep|
    decreases |parts|
  {
    if |parts| > 1 {
      JoinWithLength(parts[1..], sep);
    }
  }

  /** Every part appears in the join, at the offset the earlier parts and separators take. */
  lemma {:induction false} JoinWithHoldsPart(parts: seq<string>, sep: string, k: nat)
    requires k < |parts|
    ensures Contains(JoinWith(parts, sep), parts[k])
    decreases |parts|
  {
    var j := JoinWith(parts, sep);
    if k == 0 {
      assert OccursAt(j, parts[0], 0);
      assert Contains(j, parts[0]);
    } else {
      JoinWithHoldsPart(parts[1..], sep, k - 1);
      var rest := JoinWith(parts[1..], sep);
      var i :| OccursAt(rest, parts[1..][k - 1], i);
      var off := |parts[0]| + |sep|;
      assert j == parts[0] + sep + rest;
      assert j[off + i..off + i + |parts[k]|] == rest[i..i + |parts[k]|];
      assert OccursAt(j, parts[k], off + i);
      assert Contains(j, parts[k]);
    }
  }

  /** Every part of a join appears in it. */
  lemma JoinWithHoldsEvery(parts: seq<string>, sep: string)
    ensures forall k :: 0 <= k < |parts| ==> Contains(JoinWith(parts, sep), parts[k])
  {
    forall k | 0 <= k < |parts|
      ensures Contains(JoinWith(parts, sep), parts[k])
    {
      JoinWithHoldsPart(parts, sep, k);
    }
  }
}
