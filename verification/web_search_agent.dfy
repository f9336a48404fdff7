/**
 * The web-search agent: it claims questions about government schemes and
 * answers with a formatted list of search results. The search service is
 * a parameter: a function from the search text to the results, or None
 * when the call raises.
 */
module WebSearchAgent {
  import opened Common
  import opened Strings
  import opened Agent

  /** Words that mark a question about schemes and policies, in English and Hindi. */
  const SchemeKeywords: seq<string> := [
    "scheme", "yojana", "\U{092F}\U{094B}\U{091C}\U{0928}\U{093E}", "policy", "\U{0928}\U{0940}\U{0924}\U{093F}",
    "government", "\U{0938}\U{0930}\U{0915}\U{093E}\U{0930}",
    "benefit", "\U{0932}\U{093E}\U{092D}", "apply", "\U{0906}\U{0935}\U{0947}\U{0926}\U{0928}",
    "eligibility", "\U{092A}\U{093E}\U{0924}\U{094D}\U{0930}\U{0924}\U{093E}",
    "subsidy", "\U{0938}\U{092C}\U{094D}\U{0938}\U{093F}\U{0921}\U{0940}", "pension", "\U{092A}\U{0947}\U{0902}\U{0936}\U{0928}",
    "registration", "\U{092A}\U{0902}\U{091C}\U{0940}\U{0915}\U{0930}\U{0923}",
    "haryana govt", "\U{0939}\U{0930}\U{093F}\U{092F}\U{093E}\U{0923}\U{093E} \U{0938}\U{0930}\U{0915}\U{093E}\U{0930}",
    "cm", "\U{092E}\U{0941}\U{0916}\U{094D}\U{092F}\U{092E}\U{0902}\U{0924}\U{094D}\U{0930}\U{0940}", "chief minister",
    "ministry", "\U{092E}\U{0902}\U{0924}\U{094D}\U{0930}\U{093E}\U{0932}\U{092F}", "department scheme",
    "welfare", "\U{0915}\U{0932}\U{094D}\U{092F}\U{093E}\U{0923}"
  ]

  /** `can_handle`: some scheme keyword occurs in the lower-cased query. */
  function CanHandle(query: string): (r: bool)
    ensures r <==> exists k :: 0 <= k < |SchemeKeywords| && Contains(Lower(query), SchemeKeywords[k])
  {
    ContainsAny(Lower(query), SchemeKeywords)
  }

  /** One search hit; a key missing from the hit's dictionary is None. */
  datatype SearchResult = SearchResult(title: Option<string>, content: Option<string>, url: Option<string>)

  /** The search client, when configured: the results for a search text, None when the call raises. */
  datatype SearchClient = NoClient | SearchClient(search: string -> Option<seq<SearchResult>>)

  const UnavailableReply: AgentReply := AgentReply(
    "Web search is currently unavailable. Please contact the administrator.",
    ErrorMeta("TAVILY_API_KEY not configured"), WebSearch)

  const FailedReply: AgentReply := AgentReply(
    "I encountered an error while searching. Please try again or rephrase your question.",
    ErrorMeta("search_failed"), WebSearch)

  const NoResultsText: string :=
    "I couldn't find specific information about that scheme. Could you please be more specific or try rephrasing your question?"

  /** Every search is scoped to the state government. */
  const QueryPrefix: string := "Haryana government "

  /** The text sent to the search service. */
  function SearchQuery(query: string): (r: string)
    ensures IsPrefix(QueryPrefix, r) && r[|QueryPrefix|..] == query
  {
    QueryPrefix + query
  }

  /** A hit's content is shortened to this many characters. */
  const MaxContentLength: nat := 300
  const Ellipsis: string := "..."

  /** Content longer than the limit keeps its first 300 characters and gains "..."; shorter content is kept whole. */
  function Truncate(content: string): (r: string)
    ensures |content| <= MaxContentLength ==> r == content
    ensures |content| > MaxContentLength ==>
      |r| == MaxContentLength + |Ellipsis| && r[..MaxContentLength] == content[..MaxContentLength]
      && r[MaxContentLength..] == Ellipsis
  {
    if |content| > MaxContentLength then content[..MaxContentLength] + Ellipsis else content
  }

  /** Shortening twice is shortening once: a shortened text is again cut at 300 and gains the same "...". */
  lemma TruncateIdempotent(content: string)
    ensures Truncate(Truncate(content)) == Truncate(content)
  {
    if |content| > MaxContentLength {
      var t := Truncate(content);
      assert t[..MaxContentLength] + Ellipsis == t;
    }
  }

  /** The reply's opening line quotes the user's own query, not the search text. */
  function Intro(query: string): string {
    "Here's what I found online about '" + query + "':\n\n"
  }

  const Closing: string := "Please verify this information at the official sources provided."

  /** The shortened content of a hit; a hit without content has "". */
  function HitContent(res: SearchResult): string {
    Truncate(res.content.GetOr(""))
  }

  /** The block for the hit ranked `idx`, counting from 1. */
  function Block(idx: nat, res: SearchResult): (r: string)
    ensures Contains(r, HitContent(res))
  {
    var head := "**" + NatToString(idx) + ". " + res.title.GetOr("No title") + "**\n";
    var tail := "\n" + "Source: " + res.url.GetOr("") + "\n\n";
    ContainsMiddle(head, HitContent(res), tail);
    head + HitContent(res) + tail
  }

  /** The blocks of all hits, ranked from 1 in result order. */
  function Blocks(results: seq<SearchResult>): (r: seq<string>)
    ensures |r| == |results|
    ensures forall k :: 0 <= k < |results| ==> r[k] == Block(k + 1, results[k])
  {
    seq(|results|, k requires 0 <= k < |results| => Block(k + 1, results[k]))
  }

  /** The `url` of every hit, in result order; a hit without one contributes None. */
  function Urls(results: seq<SearchResult>): (r: seq<Option<string>>)
    ensures |r| == |results| && forall k :: 0 <= k < |results| ==> r[k] == results[k].url
  {
    seq(|results|, k requires 0 <= k < |results| => results[k].url)
  }

  /** The reply for a non-empty result list. */
  function ResultsReply(query: string, results: seq<SearchResult>): (r: AgentReply)
    requires results != []
    ensures r.agentType == WebSearch
    ensures r.metadata == SearchMeta(SearchQuery(query), |results|, Urls(results))
    ensures IsPrefix(Intro(query), r.response)
    ensures forall k :: 0 <= k < |results| ==> Contains(r.response, HitContent(results[k]))
  {
    var body := JoinWith(Blocks(results), "");
    var text := Intro(query) + body + Closing;
    JoinWithHoldsEvery(Blocks(results), "");
    ContainsMiddle(Intro(query), body, Closing);
    forall k | 0 <= k < |results|
      ensures Contains(text, HitContent(results[k]))
    {
      ContainsTransitive(body, Block(k + 1, results[k]), HitContent(results[k]));
      ContainsTransitive(text, body, HitContent(results[k]));
    }
    AgentReply(text, SearchMeta(SearchQuery(query), |results|, Urls(results)), WebSearch)
  }

  /**
   * `execute`: the unavailable reply without a client; otherwise one search
   * for the prefixed query, whose failure, empty result and hits each give
   * their own reply. Nothing is ever raised.
   */
  function Execute(query: string, client: SearchClient): (r: AgentReply)
    ensures r.agentType == WebSearch
    ensures client.NoClient? ==> r == UnavailableReply
    ensures client.SearchClient? && client.search(SearchQuery(query)).None? ==> r == FailedReply
    ensures client.SearchClient? && client.search(SearchQuery(query)) == Some([]) ==>
      r == AgentReply(NoResultsText, NoResultsMeta(SearchQuery(query)), WebSearch)
    ensures client.SearchClient? && client.search(SearchQuery(query)).Some? && client.search(SearchQuery(query)).value != [] ==>
      var results := client.search(SearchQuery(query)).value;
      && r.metadata == SearchMeta(SearchQuery(query), |results|, Urls(results))
      && IsPrefix(Intro(query), r.response)
      && forall k :: 0 <= k < |results| ==> Contains(r.response, HitContent(results[k]))
  {
    match client
    case NoClient => UnavailableReply
    case SearchClient(search) =>
      match search(SearchQuery(query))
      case None => FailedReply
      case Some(results) =>
        if results == [] then AgentReply(NoResultsText, NoResultsMeta(SearchQuery(query)), WebSearch)
        else ResultsReply(query, results)
  }
}
