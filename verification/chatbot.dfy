/**
 * The chatbot: a fixed graph that asks the knowledge-base agent, then the
 * statistics agent, then the web-search agent, and answers from the first
 * that claimed the query (the conversation agent when none did); and the
 * session handling around it, which stores the user's message and the
 * answer as two chat-history rows.
 */
module Chatbot {
  import opened Common
  import opened Strings
  import opened Agent
  import Config
  import Schemas
  import RagAgent
  import AnalyticsAgent
  import WebSearchAgent
  import GeminiAgent

  /** The back ends the agents call, as configured when the chatbot starts. */
  datatype Services = Services(
    vectorStore: RagAgent.VectorStore,
    analyticsDb: AnalyticsAgent.Snapshot,
    search: WebSearchAgent.SearchClient,
    llm: GeminiAgent.Llm)

  // ---------------------------------------------------------------------------
  // The graph
  // ---------------------------------------------------------------------------

  datatype Node = RagCheck | DatabaseCheck | WebSearchNode | GenerateResponse

  /** A node's result: the agent's reply when it claimed the query, None when it did not. */
  function RagNode(query: string, svc: Services): (r: Option<AgentReply>)
    ensures r.Some? <==> RagAgent.CanHandle(query)
    ensures r.Some? ==> r.value == RagAgent.Execute(query, svc.vectorStore)
  {
    if RagAgent.CanHandle(query) then Some(RagAgent.Execute(query, svc.vectorStore)) else None
  }

  function DatabaseNode(query: string, userId: nat, svc: Services): (r: Option<AgentReply>)
    ensures r.Some? <==> AnalyticsAgent.CanHandle(query)
    ensures r.Some? ==> r.value == AnalyticsAgent.Execute(query, userId, svc.analyticsDb)
  {
    if AnalyticsAgent.CanHandle(query) then Some(AnalyticsAgent.Execute(query, userId, svc.analyticsDb)) else None
  }

  function WebNode(query: string, svc: Services): (r: Option<AgentReply>)
    ensures r.Some? <==> WebSearchAgent.CanHandle(query)
    ensures r.Some? ==> r.value == WebSearchAgent.Execute(query, svc.search)
  {
    if WebSearchAgent.CanHandle(query) then Some(WebSearchAgent.Execute(query, svc.search)) else None
  }

  /** `_should_use_*`: the edge to the answer is taken when the node has a result with a non-empty response. */
  predicate Answered(result: Option<AgentReply>) {
    result.Some? && result.value.response != []
  }

  /** The graph state after a run: the three node results, the answer, and the nodes visited in order. */
  datatype Outcome = Outcome(
    ragResult: Option<AgentReply>,
    dbResult: Option<AgentReply>,
    webResult: Option<AgentReply>,
    finalResponse: string,
    agentUsed: AgentKind,
    metadata: Metadata,
    visited: seq<Node>)

  /**
   * `_generate_node`: the answer comes from the first node result that is
   * present, in the order knowledge base, statistics, web; the knowledge-
   * base text is first rewritten by the model. With no result at all, the
   * conversation agent answers.
   */
  function Generate(query: string, history: seq<HistoryEntry>, district: string, svc: Services,
                    rag: Option<AgentReply>, db: Option<AgentReply>, web: Option<AgentReply>): (r: (string, AgentKind, Metadata))
    ensures r.1 == Rag <==> rag.Some?
    ensures r.1 == Analytics <==> rag.None? && db.Some?
    ensures r.1 == WebSearch <==> rag.None? && db.None? && web.Some?
    ensures rag.Some? ==> r.0 == GeminiAgent.GenerateWithContext(svc.llm, query, rag.value.response) && r.2 == rag.value.metadata
    ensures rag.None? && db.Some? ==> r.0 == db.value.response && r.2 == db.value.metadata
    ensures rag.None? && db.None? && web.Some? ==> r.0 == web.value.response && r.2 == web.value.metadata
    ensures rag.None? && db.None? && web.None? ==>
      var g := GeminiAgent.Execute(query, district, history, svc.llm);
      r == (g.response, Gemini, g.metadata)
  {
    if rag.Some? then (GeminiAgent.GenerateWithContext(svc.llm, query, rag.value.response), Rag, rag.value.metadata)
    else if db.Some? then (db.value.response, Analytics, db.value.metadata)
    else if web.Some? then (web.value.response, WebSearch, web.value.metadata)
    else
      var g := GeminiAgent.Execute(query, district, history, svc.llm);
      (g.response, Gemini, g.metadata)
  }

  /**
   * One run of the graph from its entry node: the knowledge-base check,
   * then the statistics check unless the first answered, then the web
   * search unless the statistics answered; every path ends in the answer
   * node, and the web search always continues to it.
   */
  function RunGraph(query: string, history: seq<HistoryEntry>, userId: nat, district: string, svc: Services): (o: Outcome)
    ensures o.ragResult == RagNode(query, svc)
    ensures Answered(o.ragResult) ==> o.dbResult.None? && o.webResult.None? && o.visited == [RagCheck, GenerateResponse]
    ensures !Answered(o.ragResult) ==> o.dbResult == DatabaseNode(query, userId, svc)
    ensures !Answered(o.ragResult) && Answered(o.dbResult) ==>
      o.webResult.None? && o.visited == [RagCheck, DatabaseCheck, GenerateResponse]
    ensures !Answered(o.ragResult) && !Answered(o.dbResult) ==>
      o.webResult == WebNode(query, svc) && o.visited == [RagCheck, DatabaseCheck, WebSearchNode, GenerateResponse]
    ensures (o.finalResponse, o.agentUsed, o.metadata)
      == Generate(query, history, district, svc, o.ragResult, o.dbResult, o.webResult)
  {
    var rag := RagNode(query, svc);
    if Answered(rag) then
      var (text, agent, meta) := Generate(query, history, district, svc, rag, None, None);
      Outcome(rag, None, None, text, agent, meta, [RagCheck, GenerateResponse])
    else
      var db := DatabaseNode(query, userId, svc);
      if Answered(db) then
        var (text, agent, meta) := Generate(query, history, district, svc, rag, db, None);
        Outcome(rag, db, None, text, agent, meta, [RagCheck, DatabaseCheck, GenerateResponse])
      else
        var web := WebNode(query, svc);
        var (text, agent, meta) := Generate(query, history, district, svc, rag, db, web);
        Outcome(rag, db, web, text, agent, meta, [RagCheck, DatabaseCheck, WebSearchNode, GenerateResponse])
  }

  /**
   * The agent credited with the answer depends only on which agents claim
   * the query: the knowledge base first, then statistics, then web search,
   * else the conversation agent; what the back ends return never changes it.
   */
  lemma AgentPrecedence(query: string, history: seq<HistoryEntry>, userId: nat, district: string, svc: Services)
    ensures var o := RunGraph(query, history, userId, district, svc);
      && (o.agentUsed == Rag <==> RagAgent.CanHandle(query))
      && (o.agentUsed == Analytics <==> !RagAgent.CanHandle(query) && AnalyticsAgent.CanHandle(query))
      && (o.agentUsed == WebSearch <==>
            !RagAgent.CanHandle(query) && !AnalyticsAgent.CanHandle(query) && WebSearchAgent.CanHandle(query))
      && (o.agentUsed == Gemini <==>
            !RagAgent.CanHandle(query) && !AnalyticsAgent.CanHandle(query) && !WebSearchAgent.CanHandle(query))
  {
  }

  /** A statistics question outside the app keywords never reaches the web search: the statistics reply always answers. */
  lemma StatisticsStopsTheChain(query: string, history: seq<HistoryEntry>, userId: nat, district: string, svc: Services)
    requires !RagAgent.CanHandle(query) && AnalyticsAgent.CanHandle(query)
    ensures var o := RunGraph(query, history, userId, district, svc);
      o.webResult.None? && o.visited == [RagCheck, DatabaseCheck, GenerateResponse]
      && o.finalResponse == AnalyticsAgent.Execute(query, userId, svc.analyticsDb).response
  {
  }

  /**
   * A knowledge-base reply whose text is empty does not stop the chain, yet
   * it is still the one used: the later agents run and their replies are
   * discarded.
   */
  lemma EmptyKnowledgeReplyStillWins(query: string, history: seq<HistoryEntry>, userId: nat, district: string, svc: Services)
    requires RagAgent.CanHandle(query) && RagAgent.Execute(query, svc.vectorStore).response == []
    ensures var o := RunGraph(query, history, userId, district, svc);
      && o.dbResult == DatabaseNode(query, userId, svc)
      && o.agentUsed == Rag
      && o.finalResponse == GeminiAgent.GenerateWithContext(svc.llm, query, [])
  {
  }

  /** Without a model, a knowledge-base answer is the retrieved text itself. */
  lemma KnowledgeAnswerWithoutModel(query: string, history: seq<HistoryEntry>, userId: nat, district: string, svc: Services)
    requires RagAgent.CanHandle(query) && svc.llm.NoLlm?
    ensures RunGraph(query, history, userId, district, svc).finalResponse == RagAgent.Execute(query, svc.vectorStore).response
  {
  }

  // ---------------------------------------------------------------------------
  // Sessions and history
  // ---------------------------------------------------------------------------

  /** A stored chat-history row. */
  datatype ChatRow = ChatRow(
    userId: nat,
    sessionId: string,
    role: string,
    message: string,
    agentType: Option<AgentKind>,
    metadata: Option<Metadata>)

  /** What `process_message` returns. */
  datatype ChatReply = ChatReply(response: string, sessionId: string, agentUsed: AgentKind, metadata: Metadata)

  /** The session id: the one supplied, or the new one when none (or an empty one) is supplied. */
  function SessionId(given: Option<string>, newId: string): (r: string)
    ensures given.Some? && given.value != [] ==> r == given.value
    ensures given.None? || given.value == [] ==> r == newId
  {
    if given.Some? && given.value != [] then given.value else newId
  }

  /** The district the agents are told: the user's, or "Unknown" when it is missing or empty. */
  function DistrictLabel(district: Option<string>): (r: string)
    ensures district.Some? && district.value != [] ==> r == district.value
    ensures district.None? || district.value == [] ==> r == "Unknown"
  {
    if district.Some? && district.value != [] then district.value else "Unknown"
  }

  predicate InSession(row: ChatRow, userId: nat, sid: string) {
    row.userId == userId && row.sessionId == sid
  }

  /** The rows of one user's session, oldest first. */
  function SessionRows(rows: seq<ChatRow>, userId: nat, sid: string): (r: seq<ChatRow>)
    ensures |r| <= |rows|
    ensures forall k :: 0 <= k < |r| ==> InSession(r[k], userId, sid)
    decreases |rows|
  {
    if rows == [] then []
    else
      var init := SessionRows(rows[..|rows| - 1], userId, sid);
      if InSession(rows[|rows| - 1], userId, sid) then init + [rows[|rows| - 1]] else init
  }

  /** Rows of other sessions never appear in a session's rows; a row of the session is appended to them. */
  lemma SessionRowsAppend(rows: seq<ChatRow>, row: ChatRow, userId: nat, sid: string)
    ensures SessionRows(rows + [row], userId, sid)
      == SessionRows(rows, userId, sid) + (if InSession(row, userId, sid) then [row] else [])
  {
    assert (rows + [row])[..|rows|] == rows;
  }

  function ToEntry(row: ChatRow): HistoryEntry {
    HistoryEntry(row.role, row.message, row.agentType)
  }

  /**
   * `_get_chat_history`: the session's rows in creation order, cut to the
   * FIRST `2 * maxHistory` of them.
   */
  function LoadHistory(rows: seq<ChatRow>, userId: nat, sid: string, maxHistory: nat): (r: seq<HistoryEntry>)
    ensures |r| <= 2 * maxHistory
    ensures |r| == |Take(SessionRows(rows, userId, sid), 2 * maxHistory)|
    ensures forall k :: 0 <= k < |r| ==> r[k] == ToEntry(SessionRows(rows, userId, sid)[k])
  {
    var window := Take(SessionRows(rows, userId, sid), 2 * maxHistory);
    seq(|window|, k requires 0 <= k < |window| => ToEntry(window[k]))
  }

  /**
   * Once a session holds `2 * maxHistory` rows, the loaded history never
   * changes again: later rows, of this session or any other, are never
   * seen.
   */
  lemma HistoryWindowFrozen(rows: seq<ChatRow>, later: seq<ChatRow>, userId: nat, sid: string, maxHistory: nat)
    requires |SessionRows(rows, userId, sid)| >= 2 * maxHistory
    ensures LoadHistory(rows + later, userId, sid, maxHistory) == LoadHistory(rows, userId, sid, maxHistory)
  {
    SessionRowsPrefix(rows, later, userId, sid);
    var s := SessionRows(rows, userId, sid);
    var s2 := SessionRows(rows + later, userId, sid);
    assert s2[..2 * maxHistory] == s[..2 * maxHistory];
    assert Take(s2, 2 * maxHistory) == Take(s, 2 * maxHistory);
  }

  /** A session's rows only grow when rows are appended. */
  lemma {:induction false} SessionRowsPrefix(rows: seq<ChatRow>, later: seq<ChatRow>, userId: nat, sid: string)
    ensures |SessionRows(rows + later, userId, sid)| >= |SessionRows(rows, userId, sid)|
    ensures SessionRows(rows + later, userId, sid)[..|SessionRows(rows, userId, sid)|] == SessionRows(rows, userId, sid)
    decreases |later|
  {
    if later == [] {
      assert rows + later == rows;
    } else {
      var init := later[..|later| - 1];
      assert rows + later == (rows + init) + [later[|later| - 1]];
      SessionRowsAppend(rows + init, later[|later| - 1], userId, sid);
      SessionRowsPrefix(rows, init, userId, sid);
    }
  }

  /**
   * `process_message`: picks the session id, loads the history before
   * anything is stored, stores the user's row, runs the graph, stores the
   * answer's row, and returns the answer with the session id.
   */
  function ProcessMessage(rows: seq<ChatRow>, userId: nat, district: Option<string>, message: string,
                          given: Option<string>, newId: string, svc: Services, maxHistory: nat): (r: (seq<ChatRow>, ChatReply))
    ensures r.1.sessionId == SessionId(given, newId)
    ensures |r.0| == |rows| + 2 && r.0[..|rows|] == rows
    ensures r.0[|rows|] == ChatRow(userId, r.1.sessionId, UserRole, message, None, None)
    ensures r.0[|rows| + 1] == ChatRow(userId, r.1.sessionId, AssistantRole, r.1.response, Some(r.1.agentUsed), Some(r.1.metadata))
    ensures var o := RunGraph(message, LoadHistory(rows, userId, SessionId(given, newId), maxHistory), userId,
                              DistrictLabel(district), svc);
      r.1.response == o.finalResponse && r.1.agentUsed == o.agentUsed && r.1.metadata == o.metadata
  {
    var sid := SessionId(given, newId);
    var history := LoadHistory(rows, userId, sid, maxHistory);
    var o := RunGraph(message, history, userId, DistrictLabel(district), svc);
    var reply := ChatReply(o.finalResponse, sid, o.agentUsed, o.metadata);
    (rows + [ChatRow(userId, sid, UserRole, message, None, None),
             ChatRow(userId, sid, AssistantRole, reply.response, Some(reply.agentUsed), Some(reply.metadata))],
     reply)
  }

  /**
   * The reply depends on the stored rows only through the history loaded
   * before anything is stored: two tables that load the same history for
   * the session get the same reply.
   */
  lemma ReplyDependsOnlyOnHistory(rows1: seq<ChatRow>, rows2: seq<ChatRow>, userId: nat, district: Option<string>,
                                  message: string, given: Option<string>, newId: string, svc: Services, maxHistory: nat)
    requires LoadHistory(rows1, userId, SessionId(given, newId), maxHistory)
          == LoadHistory(rows2, userId, SessionId(given, newId), maxHistory)
    ensures ProcessMessage(rows1, userId, district, message, given, newId, svc, maxHistory).1
         == ProcessMessage(rows2, userId, district, message, given, newId, svc, maxHistory).1
  {
  }

  /** Appending two rows adds to a session exactly those of the two that belong to it, in order. */
  lemma SessionRowsAppendTwo(rows: seq<ChatRow>, a: ChatRow, b: ChatRow, userId: nat, sid: string)
    ensures SessionRows(rows + [a, b], userId, sid) == SessionRows(rows, userId, sid)
      + (if InSession(a, userId, sid) then [a] else []) + (if InSession(b, userId, sid) then [b] else [])
  {
    assert rows + [a, b] == (rows + [a]) + [b];
    SessionRowsAppend(rows, a, userId, sid);
    SessionRowsAppend(rows + [a], b, userId, sid);
  }

  /** Two rows of one session appended together: that session gains both, in order; every other session is unchanged. */
  lemma PairJoinsOneSession(rows: seq<ChatRow>, a: ChatRow, b: ChatRow, u: nat, s: string)
    requires a.userId == b.userId && a.sessionId == b.sessionId
    ensures var added := SessionRows(rows + [a, b], u, s);
      && (InSession(a, u, s) ==> added == SessionRows(rows, u, s) + [a, b])
      && (!InSession(a, u, s) ==> added == SessionRows(rows, u, s))
  {
    SessionRowsAppendTwo(rows, a, b, u, s);
    if InSession(a, u, s) {
      assert SessionRows(rows, u, s) + [a] + [b] == SessionRows(rows, u, s) + [a, b];
    } else {
      assert SessionRows(rows, u, s) + [] + [] == SessionRows(rows, u, s);
    }
  }

  /** A message adds exactly two rows to its own session, the user's then the answer's, and none to any other. */
  lemma TwoRowsPerMessage(rows: seq<ChatRow>, userId: nat, district: Option<string>, message: string,
                          given: Option<string>, newId: string, svc: Services, maxHistory: nat, u: nat, s: string)
    ensures var out := ProcessMessage(rows, userId, district, message, given, newId, svc, maxHistory);
      var added := SessionRows(out.0, u, s);
      && (u == userId && s == out.1.sessionId ==>
           |added| == |SessionRows(rows, u, s)| + 2
           && added[|added| - 2].role == UserRole && added[|added| - 2].message == message
           && added[|added| - 1].role == AssistantRole && added[|added| - 1].message == out.1.response
           && added[|added| - 1].agentType == Some(out.1.agentUsed))
      && (u != userId || s != out.1.sessionId ==> added == SessionRows(rows, u, s))
  {
    var out := ProcessMessage(rows, userId, district, message, given, newId, svc, maxHistory);
    var reply := out.1;
    var a := ChatRow(userId, reply.sessionId, UserRole, message, None, None);
    var b := ChatRow(userId, reply.sessionId, AssistantRole, reply.response, Some(reply.agentUsed), Some(reply.metadata));
    assert out.0 == rows + [a, b];
    PairAtSessionEnd(rows, a, b, u, s);
  }

  /** Where a pair of one session lands: as the last two rows of that session, and nowhere else. */
  lemma PairAtSessionEnd(rows: seq<ChatRow>, a: ChatRow, b: ChatRow, u: nat, s: string)
    requires a.userId == b.userId && a.sessionId == b.sessionId
    ensures var added := SessionRows(rows + [a, b], u, s);
      && (InSession(a, u, s) ==>
           |added| == |SessionRows(rows, u, s)| + 2 && added[|added| - 2] == a && added[|added| - 1] == b)
      && (!InSession(a, u, s) ==> added == SessionRows(rows, u, s))
  {
    PairJoinsOneSession(rows, a, b, u, s);
  }

  /**
   * Once a session holds `2 * maxHistory` rows, the reply to a message no
   * longer depends on anything stored since: it is the reply the message
   * would have had right then.
   */
  lemma LateMessagesAnsweredFromFrozenHistory(rows: seq<ChatRow>, later: seq<ChatRow>, userId: nat, district: Option<string>,
                                              message: string, given: Option<string>, newId: string, svc: Services, maxHistory: nat)
    requires |SessionRows(rows, userId, SessionId(given, newId))| >= 2 * maxHistory
    ensures ProcessMessage(rows + later, userId, district, message, given, newId, svc, maxHistory).1
         == ProcessMessage(rows, userId, district, message, given, newId, svc, maxHistory).1
  {
    HistoryWindowFrozen(rows, later, userId, SessionId(given, newId), maxHistory);
    ReplyDependsOnlyOnHistory(rows + later, rows, userId, district, message, given, newId, svc, maxHistory);
  }

  /**
   * The chat endpoint: the request body is validated first (422), then the
   * stripped message is processed with the configured history size.
   */
  function Chat(rows: seq<ChatRow>, userId: nat, district: Option<string>, message: string, sessionId: Option<string>,
                newId: string, svc: Services, settings: Config.Settings): (r: Result<(seq<ChatRow>, ChatReply), HttpError>)
    ensures Schemas.ParseChatRequest(message, sessionId).Err? ==> r.Err? && r.error.code == UnprocessableEntity && r.error == Schemas.ParseChatRequest(message, sessionId).error
    ensures r.Ok? <==> Schemas.ParseChatRequest(message, sessionId).Ok?
    ensures r.Ok? ==>
      |r.value.0| == |rows| + 2 && r.value.0[..|rows|] == rows
      && r.value.0[|rows|].message == Strip(message) && r.value.0[|rows|].message != []
    ensures r.Ok? ==>
      var req := Schemas.ParseChatRequest(message, sessionId).value;
      r.value == ProcessMessage(rows, userId, district, req.message, req.sessionId, newId, svc, settings.maxChatHistory)
  {
    var req :- Schemas.ParseChatRequest(message, sessionId);
    var out := ProcessMessage(rows, userId, district, req.message, req.sessionId, newId, svc, settings.maxChatHistory);
    assert out.0[..|rows|] == rows;
    Ok(out)
  }
}
