/**
 * The record threaded through every node of the answer-routing graph
 * (one per conversation turn), the documents it carries, and the
 * language-model client the agents call.
 */
module State {
  import opened Wrappers
  import opened StringOps

  /** One `conversation_history` item: `{role, content, source?}`. */
  datatype Entry = Entry(role: string, content: string, source: Option<string>)

  /** A JSON value as stored in document metadata: a string, or anything else by its `str()` text. */
  datatype JsonValue = JString(text: string) | JOther(repr: string)

  /** A retrieved or loaded passage: `page_content` and `metadata`. */
  datatype Document = Document(pageContent: string, metadata: map<string, JsonValue>)

  /**
   * The turn state dictionary. A key that may be missing is an `Option`;
   * `question` and the flags are read with `.get`, so absence is observable.
   */
  datatype AgentState = AgentState(
    question: Option<string>,
    conversationHistory: seq<Entry>,
    generation: Option<string>,
    source: Option<string>,
    documents: Option<seq<Document>>,
    llmAttempted: Option<bool>,
    llmSuccess: Option<bool>,
    ragAttempted: Option<bool>,
    ragSuccess: Option<bool>,
    wikiSuccess: Option<bool>,
    currentTool: Option<string>,
    retryCount: Option<int>)

  /** `state.get(flag, False)`: an absent flag reads as false. */
  predicate Flag(b: Option<bool>) {
    b == Some(true)
  }

  /** What one `llm.invoke(prompt)` call gives back: the response text, or an exception. */
  datatype Reply = Answer(content: string) | Raised

  /**
   * `LLMClient.get_llm()`: no client (it returned nothing or raised while
   * being built), or a client whose `invoke` maps a prompt to a reply.
   */
  datatype LlmClient = Unavailable | Available(invoke: string -> Reply)

  /** An answer must be longer than this many characters once stripped. */
  const MinAnswerLength := 10

  /** The stripped response text when it is long enough to be used, and nothing otherwise. */
  function AcceptedAnswer(r: Reply): (a: Option<string>)
    ensures a.Some? <==> r.Answer? && |Strip(r.content)| > MinAnswerLength
    ensures a.Some? ==> a.value == Strip(r.content) && |a.value| > MinAnswerLength
  {
    match r
    case Raised => None
    case Answer(text) =>
      var answer := Strip(text);
      if answer != [] && |answer| > MinAnswerLength then Some(answer) else None
  }
}
