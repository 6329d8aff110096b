/**
 * The direct-answer strategy: ask the language model with the recent
 * history and keep the answer only if it is long enough. The agent never
 * lets a failure escape: every path ends with `llm_attempted` set.
 */
module LlmAgent {
  import opened Wrappers
  import opened StringOps
  import opened State
  import opened History
  import opened Prompts

  const LlmSource := "AI Medical Knowledge"

  /** The number of history entries (not question/answer pairs) put into the prompt. */
  const LlmHistoryWindow: nat := 5

  /** The prompt sent for this state, when the state has a question, over the prompt texts `t`. */
  function LlmRequest(t: Template, st: AgentState): string
    requires st.question.Some?
  {
    LlmPrompt(t, Render(Last(st.conversationHistory, LlmHistoryWindow)), st.question.value)
  }

  /**
   * The usable answer of this turn, if any. An unavailable client, a
   * missing question (the `KeyError` is caught by the agent's own
   * handler), a raised call and a short answer all give none.
   */
  function LlmOutcome(t: Template, st: AgentState, llm: LlmClient): Option<string> {
    if llm.Unavailable? || st.question.None? then None
    else AcceptedAnswer(llm.invoke(LlmRequest(t, st)))
  }

  /** The state `LLMAgent` returns. */
  function LlmAgentSpec(t: Template, st: AgentState, llm: LlmClient): AgentState {
    match LlmOutcome(t, st, llm)
    case Some(answer) =>
      st.(generation := Some(answer), source := Some(LlmSource),
          llmSuccess := Some(true), llmAttempted := Some(true))
    case None =>
      st.(llmSuccess := Some(false), llmAttempted := Some(true))
  }

  /** The body of `LLMAgent`'s handler once the client and the question are there: ask, strip, check the length. */
  method AskLlm(t: Template, st: AgentState, llm: LlmClient, historyContext: string) returns (answer: Option<string>)
    requires llm.Available? && st.question.Some?
    requires historyContext == Render(Last(st.conversationHistory, LlmHistoryWindow))
    ensures answer == LlmOutcome(t, st, llm)
  {
    answer := None;
    var prompt := LlmPrompt(t, historyContext, st.question.value);
    var reply := llm.invoke(prompt);
    if reply.Answer? {
      var text := Strip(reply.content);
      if text != [] && |text| > MinAnswerLength {
        answer := Some(text);
      }
    }
  }

  /** `LLMAgent(state)`, over the prompt texts `t`. */
  method GenerateWith(t: Template, st: AgentState, llm: LlmClient) returns (st': AgentState)
    ensures st' == LlmAgentSpec(t, st, llm)
  {
    if llm.Unavailable? {
      st' := st.(llmSuccess := Some(false), llmAttempted := Some(true));
      return;
    }
    var historyContext := BuildContext(st.conversationHistory, LlmHistoryWindow);
    if st.question.None? {
      // `state['question']` raises; the handler records the failure.
      st' := st.(llmSuccess := Some(false), llmAttempted := Some(true));
      return;
    }
    var answer := AskLlm(t, st, llm, historyContext);
    if answer.Some? {
      st' := st.(generation := Some(answer.value), llmSuccess := Some(true), source := Some(LlmSource));
    } else {
      st' := st.(llmSuccess := Some(false));
    }
    st' := st'.(llmAttempted := Some(true));
  }

  /** `LLMAgent(state)` with the medical chatbot's prompt. */
  method Generate(st: AgentState, llm: LlmClient) returns (st': AgentState)
    ensures st' == LlmAgentSpec(MedicalTemplate, st, llm)
  {
    st' := GenerateWith(MedicalTemplate, st, llm);
  }

  /**
   * `llm_attempted` is set on every path; success happens exactly when the
   * client answers with more than 10 characters after stripping, and then
   * the stripped answer becomes the generation with the LLM's own source.
   */
  lemma LlmAgentOutcome(t: Template, st: AgentState, llm: LlmClient)
    ensures var r := LlmAgentSpec(t, st, llm);
      && r.llmAttempted == Some(true)
      && r.llmSuccess.Some?
      && (Flag(r.llmSuccess) <==>
            llm.Available? && st.question.Some?
            && var reply := llm.invoke(LlmRequest(t, st));
               reply.Answer? && |Strip(reply.content)| > MinAnswerLength)
      && (Flag(r.llmSuccess) ==>
            r.generation == Some(Strip(llm.invoke(LlmRequest(t, st)).content))
            && r.source == Some(LlmSource))
  {
  }

  /** A failed turn (no client, no question, a raised call, a short answer) leaves the answer fields as they were. */
  lemma LlmAgentFailureKeepsAnswer(t: Template, st: AgentState, llm: LlmClient)
    requires !Flag(LlmAgentSpec(t, st, llm).llmSuccess)
    ensures LlmAgentSpec(t, st, llm) == st.(llmSuccess := Some(false), llmAttempted := Some(true))
  {
  }

  /** The agent touches only the answer fields and its own two flags. */
  lemma LlmAgentFrame(t: Template, st: AgentState, llm: LlmClient)
    ensures var r := LlmAgentSpec(t, st, llm);
      && r.question == st.question
      && r.conversationHistory == st.conversationHistory
      && r.documents == st.documents
      && r.ragAttempted == st.ragAttempted && r.ragSuccess == st.ragSuccess
      && r.wikiSuccess == st.wikiSuccess
      && r.currentTool == st.currentTool && r.retryCount == st.retryCount
  {
  }

  /** Only the last five history entries reach the prompt: older entries do not change the outcome. */
  lemma LlmAgentSeesLastFive(t: Template, st: AgentState, older: seq<Entry>, llm: LlmClient)
    requires |st.conversationHistory| >= LlmHistoryWindow
    ensures LlmOutcome(t, st.(conversationHistory := older + st.conversationHistory), llm) == LlmOutcome(t, st, llm)
  {
    LastIgnoresOlder(older, st.conversationHistory, LlmHistoryWindow);
  }
}
