/**
 * The knowledge-base agent: it claims questions about the app itself and
 * answers with the retrieved knowledge-base chunks. The vector store and
 * its similarity search are a parameter: a retrieval function from the
 * query and the number of chunks wanted to the chunks, or None when the
 * retrieval raises.
 */
module RagAgent {
  import opened Common
  import opened Strings
  import opened Agent

  /** Words that mark a question about the app, in English and Hindi. */
  const AppKeywords: seq<string> := [
    "how to", "\U{0915}\U{0948}\U{0938}\U{0947}", "what is", "\U{0915}\U{094D}\U{092F}\U{093E} \U{0939}\U{0948}",
    "how do i", "\U{092E}\U{0948}\U{0902} \U{0915}\U{0948}\U{0938}\U{0947}",
    "report", "\U{0930}\U{093F}\U{092A}\U{094B}\U{0930}\U{094D}\U{091F}", "track", "\U{091F}\U{094D}\U{0930}\U{0948}\U{0915}",
    "issue", "\U{0938}\U{092E}\U{0938}\U{094D}\U{092F}\U{093E}",
    "app", "\U{0910}\U{092A}", "platform", "feature", "\U{0938}\U{0941}\U{0935}\U{093F}\U{0927}\U{093E}",
    "use", "\U{0909}\U{092A}\U{092F}\U{094B}\U{0917}",
    "status", "\U{0938}\U{094D}\U{0925}\U{093F}\U{0924}\U{093F}", "verify", "\U{0938}\U{0924}\U{094D}\U{092F}\U{093E}\U{092A}\U{093F}\U{0924}",
    "feedback", "\U{092B}\U{0940}\U{0921}\U{092C}\U{0948}\U{0915}",
    "account", "\U{0916}\U{093E}\U{0924}\U{093E}", "login", "\U{0932}\U{0949}\U{0917}\U{093F}\U{0928}",
    "register", "\U{092A}\U{0902}\U{091C}\U{0940}\U{0915}\U{0930}\U{0923}",
    "priority", "\U{092A}\U{094D}\U{0930}\U{093E}\U{0925}\U{092E}\U{093F}\U{0915}\U{0924}\U{093E}",
    "assignment", "\U{0906}\U{0935}\U{0902}\U{091F}\U{0928}", "worker", "\U{0915}\U{0930}\U{094D}\U{092E}\U{091A}\U{093E}\U{0930}\U{0940}",
    "tutorial", "guide", "help", "\U{092E}\U{0926}\U{0926}", "question", "\U{092A}\U{094D}\U{0930}\U{0936}\U{094D}\U{0928}"
  ]

  /** `can_handle`: some app keyword occurs in the lower-cased query. */
  function CanHandle(query: string): (r: bool)
    ensures r <==> exists k :: 0 <= k < |AppKeywords| && Contains(Lower(query), AppKeywords[k])
  {
    ContainsAny(Lower(query), AppKeywords)
  }

  /** The number of chunks asked of the retriever. */
  const RetrievalK: nat := 3

  /** A retrieved chunk: its text and the `source` entry of its metadata, if any. */
  datatype Doc = Doc(pageContent: string, source: Option<string>)

  /** The vector store, when it initialised: its retriever, None when a retrieval raises. */
  datatype VectorStore = NoVectorStore | VectorStore(retrieve: (string, nat) -> Option<seq<Doc>>)

  const UnavailableReply: AgentReply := AgentReply(
    "I'm sorry, but my knowledge base is currently unavailable. Please try again later.",
    ErrorMeta("vectorstore_not_initialized"), Rag)

  const NoDocsReply: AgentReply := AgentReply(
    "I don't have specific information about that in my knowledge base. Could you rephrase your question?",
    DocsFoundMeta(0), Rag)

  const FailedReply: AgentReply := AgentReply(
    "I encountered an error while searching my knowledge base. Please try rephrasing your question.",
    ErrorMeta("retrieval_failed"), Rag)

  /** The chunks are separated by a blank line. */
  const ChunkSeparator: string := "\n\n"

  /** A chunk's source name; "unknown" when its metadata has none. */
  function SourceName(d: Doc): string {
    d.source.GetOr("unknown")
  }

  /** The texts of the chunks, in retrieval order. */
  function Contents(docs: seq<Doc>): (r: seq<string>)
    ensures |r| == |docs| && forall k :: 0 <= k < |docs| ==> r[k] == docs[k].pageContent
  {
    seq(|docs|, k requires 0 <= k < |docs| => docs[k].pageContent)
  }

  /** The reply for a non-empty retrieval: the joined chunks, their count and their distinct sources. */
  function DocsReply(docs: seq<Doc>): (r: AgentReply)
    requires docs != []
    ensures r.agentType == Rag
    ensures r.metadata == DocsRetrievedMeta(|docs|, set k | 0 <= k < |docs| :: SourceName(docs[k]))
    ensures forall k :: 0 <= k < |docs| ==> Contains(r.response, docs[k].pageContent)
    ensures |r.response| == TotalLength(Contents(docs)) + (|docs| - 1) * |ChunkSeparator|
  {
    var text := JoinWith(Contents(docs), ChunkSeparator);
    JoinWithLength(Contents(docs), ChunkSeparator);
    JoinWithHoldsEvery(Contents(docs), ChunkSeparator);
    AgentReply(text, DocsRetrievedMeta(|docs|, set k | 0 <= k < |docs| :: SourceName(docs[k])), Rag)
  }

  /**
   * `execute`: the unavailable reply without a store; otherwise three
   * chunks are asked for, and a failed retrieval, an empty one and a
   * successful one each give their own reply. Nothing is ever raised.
   */
  function Execute(query: string, store: VectorStore): (r: AgentReply)
    ensures r.agentType == Rag
    ensures store.NoVectorStore? ==> r == UnavailableReply
    ensures store.VectorStore? && store.retrieve(query, RetrievalK).None? ==> r == FailedReply
    ensures store.VectorStore? && store.retrieve(query, RetrievalK) == Some([]) ==> r == NoDocsReply
    ensures store.VectorStore? && store.retrieve(query, RetrievalK).Some? && store.retrieve(query, RetrievalK).value != [] ==>
      var docs := store.retrieve(query, RetrievalK).value;
      && r.metadata == DocsRetrievedMeta(|docs|, set k | 0 <= k < |docs| :: SourceName(docs[k]))
      && forall k :: 0 <= k < |docs| ==> Contains(r.response, docs[k].pageContent)
  {
    match store
    case NoVectorStore => UnavailableReply
    case VectorStore(retrieve) =>
      match retrieve(query, RetrievalK)
      case None => FailedReply
      case Some(docs) => if docs == [] then NoDocsReply else DocsReply(docs)
  }

  /** The fixed replies are non-empty, so the router stops at them; only a retrieval whose chunks join to nothing is empty. */
  lemma FixedRepliesAreNonEmpty()
    ensures UnavailableReply.response != [] && NoDocsReply.response != [] && FailedReply.response != []
  {
  }
}
