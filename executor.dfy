/**
 * The final node: it picks the answer of the turn (an earlier LLM answer,
 * a retrieval-augmented answer, or the fixed fallback) and appends the
 * question and that answer to the conversation history.
 */
module ExecutorAgent {
  import opened Wrappers
  import opened StringOps
  import opened State
  import opened History
  import opened Prompts

  /** The opening of `FALLBACK_RESPONSE`; the rest is the mandatory disclaimer. */
  const FallbackIntro := "Tôi hiểu lo lắng của bạn về triệu chứng này. Để được tư vấn y tế chính xác, vui lòng tham khảo ý kiến chuyên gia y tế có thể đánh giá đúng tình trạng của bạn. "

  /** `FALLBACK_RESPONSE`. */
  const FallbackResponse := FallbackIntro + Disclaimer

  const SystemSource := "System Message"
  const UnknownSource := "Unknown"

  /** The number of history entries put into the retrieval-augmented prompt. */
  const ExecutorHistoryWindow: nat := 10
  /** At most this many documents are quoted ... */
  const QuotedDocuments: nat := 3
  /** ... each cut to this many characters. */
  const PassageLength: nat := 1000
  const PassageSeparator := "\n\n"

  /** `_add_to_history`: the question, then the answer with its source. */
  function AddToHistory(history: seq<Entry>, question: string, answer: string, source: string): (h: seq<Entry>)
    ensures |h| == |history| + 2 && h[..|history|] == history
    ensures h[|history|] == Entry("user", question, None)
    ensures h[|history| + 1] == Entry("assistant", answer, Some(source))
  {
    history + [Entry("user", question, None), Entry("assistant", answer, Some(source))]
  }

  /** The passages quoted from the first documents. */
  function Passages(docs: seq<Document>): (ps: seq<string>)
    ensures |ps| == |Take(docs, QuotedDocuments)|
    ensures forall i :: 0 <= i < |ps| ==> ps[i] == Take(docs[i].pageContent, PassageLength)
  {
    var quoted := Take(docs, QuotedDocuments);
    seq(|quoted|, i requires 0 <= i < |quoted| => Take(quoted[i].pageContent, PassageLength))
  }

  /** The medical content of the retrieval-augmented prompt. */
  function RagContent(docs: seq<Document>): string {
    Join(PassageSeparator, Passages(docs))
  }

  /** `state.get("llm_success", False) and state.get("generation")`. */
  predicate HasLlmAnswer(st: AgentState) {
    Flag(st.llmSuccess) && st.generation.Some? && st.generation.value != ""
  }

  /** `state.get("documents") and len(state["documents"]) > 0`. */
  predicate HasDocuments(st: AgentState) {
    st.documents.Some? && |st.documents.value| > 0
  }

  /** The retrieval-augmented prompt for this state, over the prompt texts `t`. */
  function RagRequest(t: Template, st: AgentState): string
    requires st.question.Some? && HasDocuments(st)
  {
    RagPrompt(t, Render(Last(st.conversationHistory, ExecutorHistoryWindow)), st.question.value,
              RagContent(st.documents.value))
  }

  /** The usable retrieval-augmented answer, if the documents, the client and the reply all allow one. */
  function RagAnswer(t: Template, st: AgentState, llm: LlmClient): Option<string>
    requires st.question.Some?
  {
    if !HasDocuments(st) || llm.Unavailable? then None
    else AcceptedAnswer(llm.invoke(RagRequest(t, st)))
  }

  /** The state `ExecutorAgent` returns, over the prompt texts `t` and the fallback message `fallback`. */
  function ExecutorSpec(t: Template, fallback: string, st: AgentState, llm: LlmClient): AgentState
    requires st.question.Some?
  {
    var question := st.question.value;
    var sourceInfo := st.source.GetOr(UnknownSource);
    var history := st.conversationHistory;
    if HasLlmAnswer(st) then
      st.(conversationHistory := AddToHistory(history, question, st.generation.value, sourceInfo))
    else
      match RagAnswer(t, st, llm)
      case Some(answer) =>
        st.(generation := Some(answer), source := Some(sourceInfo),
            conversationHistory := AddToHistory(history, question, answer, sourceInfo))
      case None =>
        st.(generation := Some(fallback), source := Some(SystemSource),
            conversationHistory := AddToHistory(history, question, fallback, SystemSource))
  }

  /** The retrieval-augmented attempt of `ExecutorAgent`: the answer it accepts, if any. */
  method AskWithDocuments(t: Template, st: AgentState, llm: LlmClient, historyContext: string) returns (answer: Option<string>)
    requires st.question.Some?
    requires historyContext == Render(Last(st.conversationHistory, ExecutorHistoryWindow))
    ensures answer == RagAnswer(t, st, llm)
  {
    answer := None;
    if st.documents.Some? && |st.documents.value| > 0 && llm.Available? {
      var content := RagContent(st.documents.value);
      var prompt := RagPrompt(t, historyContext, st.question.value, content);
      var reply := llm.invoke(prompt);
      if reply.Answer? {
        var text := Strip(reply.content);
        if text != [] && |text| > MinAnswerLength {
          answer := Some(text);
        }
      }
    }
  }

  /** `ExecutorAgent(state)`; `state["question"]` is read outside any handler, so the question must be there. */
  method ExecuteWith(t: Template, fallback: string, st: AgentState, llm: LlmClient) returns (st': AgentState)
    requires st.question.Some?
    ensures st' == ExecutorSpec(t, fallback, st, llm)
  {
    var question := st.question.value;
    var sourceInfo := st.source.GetOr(UnknownSource);
    var historyContext := BuildContext(st.conversationHistory, ExecutorHistoryWindow);

    if Flag(st.llmSuccess) && st.generation.Some? && st.generation.value != "" {
      var answer := st.generation.value;
      st' := st.(conversationHistory := AddToHistory(st.conversationHistory, question, answer, sourceInfo));
      return;
    }

    var ragAnswer := AskWithDocuments(t, st, llm, historyContext);
    if ragAnswer.Some? {
      var answer := ragAnswer.value;
      st' := st.(generation := Some(answer), source := Some(sourceInfo));
      st' := st'.(conversationHistory := AddToHistory(st.conversationHistory, question, answer, sourceInfo));
      return;
    }

    st' := st.(generation := Some(fallback), source := Some(SystemSource));
    st' := st'.(conversationHistory := AddToHistory(st.conversationHistory, question, fallback, SystemSource));
  }

  /** `ExecutorAgent(state)` with the medical chatbot's prompt and `FALLBACK_RESPONSE`. */
  method Execute(st: AgentState, llm: LlmClient) returns (st': AgentState)
    requires st.question.Some?
    ensures st' == ExecutorSpec(MedicalTemplate, FallbackResponse, st, llm)
  {
    st' := ExecuteWith(MedicalTemplate, FallbackResponse, st, llm);
  }

  // ----- properties of the executor -----

  /**
   * Every path appends exactly two entries and leaves the earlier ones as
   * they were: the question from the user, then the turn's answer with the
   * source the state ends up with ("Unknown" when there is none).
   */
  lemma ExecutorAppendsPair(t: Template, fallback: string, st: AgentState, llm: LlmClient)
    requires st.question.Some?
    ensures var r := ExecutorSpec(t, fallback, st, llm);
      && r.generation.Some?
      && r.conversationHistory == st.conversationHistory
           + [Entry("user", st.question.value, None),
              Entry("assistant", r.generation.value, Some(r.source.GetOr(UnknownSource)))]
  {
  }

  /** An earlier LLM answer is kept as it is, and the client is not consulted. */
  lemma ExecutorKeepsLlmAnswer(t: Template, fallback: string, st: AgentState, llm: LlmClient, other: LlmClient)
    requires st.question.Some? && HasLlmAnswer(st)
    ensures ExecutorSpec(t, fallback, st, llm).generation == st.generation
    ensures ExecutorSpec(t, fallback, st, llm).source == st.source
    ensures ExecutorSpec(t, fallback, st, llm) == ExecutorSpec(t, fallback, st, other)
  {
  }

  /**
   * Without an earlier LLM answer, a retrieval-augmented answer is used
   * exactly when there are documents, a client, and a reply longer than 10
   * characters once stripped; it is recorded under the prior source.
   */
  lemma ExecutorRagBranch(t: Template, fallback: string, st: AgentState, llm: LlmClient)
    requires st.question.Some? && !HasLlmAnswer(st)
    ensures var r := ExecutorSpec(t, fallback, st, llm);
      (r.generation != Some(fallback) || r.source != Some(SystemSource)) ==>
        && HasDocuments(st) && llm.Available?
        && var reply := llm.invoke(RagRequest(t, st));
           && reply.Answer? && |Strip(reply.content)| > MinAnswerLength
           && r.generation == Some(Strip(reply.content))
           && r.source == Some(st.source.GetOr(UnknownSource))
    ensures var r := ExecutorSpec(t, fallback, st, llm);
      (HasDocuments(st) && llm.Available?
       && var reply := llm.invoke(RagRequest(t, st)); reply.Answer? && |Strip(reply.content)| > MinAnswerLength) ==>
        && r.generation == Some(Strip(llm.invoke(RagRequest(t, st)).content))
        && r.source == Some(st.source.GetOr(UnknownSource))
  {
  }

  /**
   * Without an earlier LLM answer, no documents, no client, a raised call
   * or a short reply all end in the fallback message from the system.
   */
  lemma ExecutorFallback(t: Template, fallback: string, st: AgentState, llm: LlmClient)
    requires st.question.Some? && !HasLlmAnswer(st)
    requires !HasDocuments(st) || llm.Unavailable? || AcceptedAnswer(llm.invoke(RagRequest(t, st))).None?
    ensures ExecutorSpec(t, fallback, st, llm).generation == Some(fallback)
    ensures ExecutorSpec(t, fallback, st, llm).source == Some(SystemSource)
  {
  }

  /** A generation left by another node without `llm_success`, and with no documents, is replaced by the fallback. */
  lemma ExecutorOverwritesUnvetted(t: Template, fallback: string, st: AgentState, llm: LlmClient)
    requires st.question.Some? && !Flag(st.llmSuccess) && !HasDocuments(st)
    ensures ExecutorSpec(t, fallback, st, llm).generation == Some(fallback)
  {
  }

  /** The answer of a turn is never empty. */
  lemma ExecutorAnswerNonEmpty(t: Template, fallback: string, st: AgentState, llm: LlmClient)
    requires st.question.Some? && fallback != ""
    ensures ExecutorSpec(t, fallback, st, llm).generation.Some? && ExecutorSpec(t, fallback, st, llm).generation.value != ""
  {
  }

  /** The fallback message ends with the mandatory disclaimer of the system prompt. */
  lemma FallbackEndsWithDisclaimer()
    ensures |Disclaimer| <= |FallbackResponse|
    ensures FallbackResponse[|FallbackResponse| - |Disclaimer|..] == Disclaimer
  {
    SuffixOfConcat(FallbackIntro, Disclaimer);
  }

  lemma FallbackNonEmpty()
    ensures FallbackResponse != ""
  {
    FallbackEndsWithDisclaimer();
    assert |FallbackResponse| >= |Disclaimer| > 0;
  }

  lemma SuffixOfConcat(a: string, b: string)
    ensures |b| <= |a + b| && (a + b)[|a + b| - |b|..] == b
  {
  }

  /** Only the last ten history entries reach the retrieval-augmented prompt. */
  lemma ExecutorSeesLastTen(t: Template, st: AgentState, older: seq<Entry>)
    requires st.question.Some? && HasDocuments(st)
    requires |st.conversationHistory| >= ExecutorHistoryWindow
    ensures RagRequest(t, st.(conversationHistory := older + st.conversationHistory)) == RagRequest(t, st)
  {
    LastIgnoresOlder(older, st.conversationHistory, ExecutorHistoryWindow);
  }

  /** The quoted content depends on the first three documents only, each cut to 1000 characters. */
  lemma RagContentUsesFirstThree(docs: seq<Document>, more: seq<Document>)
    requires |docs| >= QuotedDocuments
    ensures RagContent(docs + more) == RagContent(docs)
    ensures |Passages(docs)| == QuotedDocuments
    ensures forall i :: 0 <= i < QuotedDocuments ==> |Passages(docs)[i]| <= PassageLength
  {
    assert Take(docs + more, QuotedDocuments) == Take(docs, QuotedDocuments);
    assert Passages(docs + more) == Passages(docs);
  }

  /** The quoted content is at most three passages of 1000 characters and two separators. */
  lemma RagContentBounded(docs: seq<Document>)
    ensures |RagContent(docs)| <= QuotedDocuments * PassageLength + (QuotedDocuments - 1) * |PassageSeparator|
  {
    JoinBounded(PassageSeparator, Passages(docs), PassageLength);
  }

  lemma {:induction false} JoinBounded(sep: string, parts: seq<string>, m: nat)
    requires forall i :: 0 <= i < |parts| ==> |parts[i]| <= m
    ensures |Join(sep, parts)| <= |parts| * m + (if parts == [] then 0 else (|parts| - 1) * |sep|)
    decreases |parts|
  {
    if |parts| > 1 {
      var init := parts[..|parts| - 1];
      JoinBounded(sep, init, m);
      assert |parts| * m == |init| * m + m;
      assert (|parts| - 1) * |sep| == (|init| - 1) * |sep| + |sep|;
    }
  }
}
