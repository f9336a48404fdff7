/**
 * The general conversation agent: the fallback of the chatbot, and the
 * rewriter of knowledge-base answers. The language model is a parameter:
 * a function from a message list to the answer text, or None when the
 * call raises.
 */
module GeminiAgent {
  import opened Common
  import opened Strings
  import opened Agent

  /** A message of a model conversation. */
  datatype ChatMessage = SystemMessage(content: string) | HumanMessage(content: string) | AiMessage(content: string)

  /** The model, when configured: its name and its completion function. */
  datatype Llm = NoLlm | Llm(modelName: string, invoke: seq<ChatMessage> -> Option<string>)

  /** At most this many of the latest history entries are replayed to the model. */
  const HistoryWindow: nat := 10

  const UnavailableReply: AgentReply := AgentReply(
    "I'm sorry, but AI features are currently unavailable. Please contact the administrator.",
    ErrorMeta("GOOGLE_API_KEY not configured"), Gemini)

  const FailedReply: AgentReply := AgentReply(
    "I encountered an error while processing your request. Could you please rephrase your question?",
    ErrorMeta("generation_failed"), Gemini)

  /** `can_handle`: the fallback agent takes every query. */
  function CanHandle(query: string): (r: bool)
    ensures r
  {
    true
  }

  /** The fixed instructions that open every conversation, before the district line. */
  const SystemInstructions: string :=
    "You are a helpful AI assistant for Smart Haryana, a civic issues reporting platform for Haryana, India.\n"
    + "                \n"
    + "Your role:\n"
    + "- Help users report and track civic issues (potholes, streetlights, water supply, etc.)\n"
    + "- Provide information about Haryana districts and government services\n"
    + "- Answer questions about the app features and how to use them\n"
    + "- Be polite, professional, and helpful\n\n"
    + "Guidelines:\n"
    + "- Keep responses concise and easy to understand\n"
    + "- Use bullet points for lists\n"
    + "- If you don't know something, be honest\n"
    + "- Encourage users to report civic issues for their community\n"
    + "- Support both English and Hindi (when requested)\n\n"
    + "Context: The user is from "

  /** The system message, naming the user's district. */
  function SystemPrompt(district: string): (r: string)
    ensures IsPrefix(SystemInstructions, r)
    ensures r[|SystemInstructions|..] == district + " district."
  {
    SystemInstructions + district + " district."
  }

  /** One history entry as a model message: user rows are human turns, assistant rows model turns, other roles nothing. */
  function EntryMessages(e: HistoryEntry): (r: seq<ChatMessage>)
    ensures |r| <= 1
    ensures |r| == 1 <==> e.role == UserRole || e.role == AssistantRole
  {
    if e.role == UserRole then [HumanMessage(e.message)]
    else if e.role == AssistantRole then [AiMessage(e.message)]
    else []
  }

  /** The history replayed as model messages, in order. */
  function HistoryMessages(h: seq<HistoryEntry>): (r: seq<ChatMessage>)
    ensures |r| <= |h|
    ensures forall k :: 0 <= k < |r| ==> !r[k].SystemMessage?
    decreases |h|
  {
    if h == [] then [] else EntryMessages(h[0]) + HistoryMessages(h[1..])
  }

  /** Replaying two pieces of history replays each in turn. */
  lemma {:induction false} HistoryMessagesAppend(a: seq<HistoryEntry>, b: seq<HistoryEntry>)
    ensures HistoryMessages(a + b) == HistoryMessages(a) + HistoryMessages(b)
    decreases |a|
  {
    if a == [] {
      assert a + b == b;
    } else {
      assert (a + b)[1..] == a[1..] + b;
      HistoryMessagesAppend(a[1..], b);
      assert HistoryMessages(a + b) == EntryMessages(a[0]) + HistoryMessages(a[1..] + b);
    }
  }

  /** A history of user and assistant rows only is replayed one message per row, each with the row's text. */
  lemma {:induction false} HistoryMessagesOfConversation(h: seq<HistoryEntry>)
    requires forall k :: 0 <= k < |h| ==> h[k].role == UserRole || h[k].role == AssistantRole
    ensures |HistoryMessages(h)| == |h|
    ensures forall k :: 0 <= k < |h| ==>
      HistoryMessages(h)[k].content == h[k].message && (HistoryMessages(h)[k].HumanMessage? <==> h[k].role == UserRole)
    decreases |h|
  {
    if h != [] {
      HistoryMessagesOfConversation(h[1..]);
      var rest := HistoryMessages(h[1..]);
      assert HistoryMessages(h) == EntryMessages(h[0]) + rest;
      forall k | 0 <= k < |h|
        ensures HistoryMessages(h)[k].content == h[k].message && (HistoryMessages(h)[k].HumanMessage? <==> h[k].role == UserRole)
      {
        if k > 0 {
          assert HistoryMessages(h)[k] == rest[k - 1];
          assert h[1..][k - 1] == h[k];
        }
      }
    }
  }

  /** A row of any other role adds no message. */
  lemma OtherRolesSkipped(h: seq<HistoryEntry>, e: HistoryEntry)
    requires e.role != UserRole && e.role != AssistantRole
    ensures HistoryMessages(h + [e]) == HistoryMessages(h)
  {
    HistoryMessagesAppend(h, [e]);
    assert HistoryMessages([e]) == EntryMessages(e) + HistoryMessages([]);
  }

  /** The conversation sent to the model: the system message, the replayed last ten entries, then the query. */
  function Messages(query: string, district: string, history: seq<HistoryEntry>): (r: seq<ChatMessage>)
    ensures 2 <= |r| <= HistoryWindow + 2
    ensures r[0] == SystemMessage(SystemPrompt(district))
    ensures r[|r| - 1] == HumanMessage(query)
    ensures forall k :: 1 <= k < |r| ==> !r[k].SystemMessage?
  {
    [SystemMessage(SystemPrompt(district))] + HistoryMessages(TakeLast(history, HistoryWindow)) + [HumanMessage(query)]
  }

  /** Only the ten newest entries reach the model: entries before them never change the conversation. */
  lemma OlderHistoryIgnored(query: string, district: string, older: seq<HistoryEntry>, recent: seq<HistoryEntry>)
    requires |recent| == HistoryWindow
    ensures Messages(query, district, older + recent) == Messages(query, district, recent)
  {
    assert TakeLast(older + recent, HistoryWindow) == recent;
  }

  /** `execute`: the unavailable reply without a model; otherwise the answer with its word count, or the failure reply. */
  function Execute(query: string, district: string, history: seq<HistoryEntry>, llm: Llm): (r: AgentReply)
    ensures r.agentType == Gemini
    ensures llm.NoLlm? ==> r == UnavailableReply
    ensures llm.Llm? && llm.invoke(Messages(query, district, history)).None? ==> r == FailedReply
    ensures llm.Llm? && llm.invoke(Messages(query, district, history)).Some? ==>
      var answer := llm.invoke(Messages(query, district, history)).value;
      r.response == answer && r.metadata == ModelMeta(llm.modelName, |Words(answer)|)
  {
    match llm
    case NoLlm => UnavailableReply
    case Llm(name, invoke) =>
      match invoke(Messages(query, district, history))
      case None => FailedReply
      case Some(answer) => AgentReply(answer, ModelMeta(name, |Words(answer)|), Gemini)
  }

  /** The token count is zero exactly when the answer is blank. */
  lemma TokensZeroIffBlank(answer: string)
    ensures |Words(answer)| == 0 <==> AllChars(answer, IsSpace)
  {
    var t := StripLeft(answer);
    if t != [] {
      assert !IsSpace(t[0]);
      assert answer[|answer| - |t|] == t[0];
    }
  }

  /** The one-message prompt that asks the model to answer from retrieved context. */
  function ContextPrompt(query: string, context: string): (r: string)
    ensures Contains(r, context)
  {
    var head := "Based on the following information about Smart Haryana, answer the user's question.\n\nContext:\n";
    var tail := "\n\nUser Question: " + query
      + "\n\nAnswer: (Be concise, helpful, and accurate. Use bullet points if listing steps.)";
    ContainsMiddle(head, context, tail);
    head + context + tail
  }

  /**
   * `generate_with_context`: the model's rewrite of the retrieved context;
   * the context itself when there is no model or the call raises.
   */
  function GenerateWithContext(llm: Llm, query: string, context: string): (r: string)
    ensures llm.NoLlm? ==> r == context
    ensures llm.Llm? && llm.invoke([HumanMessage(ContextPrompt(query, context))]).None? ==> r == context
    ensures llm.Llm? && llm.invoke([HumanMessage(ContextPrompt(query, context))]).Some? ==>
      r == llm.invoke([HumanMessage(ContextPrompt(query, context))]).value
  {
    match llm
    case NoLlm => context
    case Llm(_, invoke) => invoke([HumanMessage(ContextPrompt(query, context))]).GetOr(context)
  }
}
