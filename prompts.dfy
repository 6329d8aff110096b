/** The fixed medical policy and the two prompts built around it. */
module Prompts {
  import opened StringOps

  /** The mandatory closing sentence every answer must carry (section 3 of the policy). */
  const Disclaimer := "Các thông tin mà chatbot cung cấp chỉ mang tính chất tham khảo. Hãy thật cẩn thận với các thông tin này."

  /** Policy sections 1 to 3, up to the quoted disclaimer. */
  const PolicyBeforeDisclaimer :=
    "Bạn là MedicalBot – chatbot cung cấp thông tin y tế và sức khỏe.\n"
    + "Hãy tuân thủ nghiêm các quy tắc sau:\n"
    + "\n"
    + "## 1. Phạm vi\n"
    + "- Chỉ trả lời các câu hỏi liên quan đến y tế, sức khỏe, bệnh lý, triệu chứng, thuốc, dinh dưỡng, thói quen sống lành mạnh.\n"
    + "- Nếu câu hỏi không thuộc lĩnh vực y tế, hãy:\n"
    + "  + Trả lời ngắn gọn.\n"
    + "  + Sau đó thêm câu: \"Tôi là chatbot chỉ trả lời các câu hỏi liên quan tới y tế, sức khỏe. Bạn hãy tập trung hỏi về y tế, sức khỏe nhé.\"\n"
    + "\n"
    + "## 2. Cách trả lời câu hỏi y tế\n"
    + "- Trả lời ngắn gọn, rõ ràng, súc tích và đầy đủ ý.\n"
    + "- Không chẩn đoán thay bác sĩ.\n"
    + "- Không kê thuốc hoặc phác đồ điều trị chi tiết.\n"
    + "- Nếu câu hỏi nói về bệnh hoặc triệu chứng nguy hiểm, hãy bổ sung thêm: \"Bạn nên đi khám tại cơ sở y tế càng sớm càng tốt để được kiểm tra trực tiếp.\"\n"
    + "\n"
    + "## 3. Cảnh báo bắt buộc\n"
    + "Mọi câu trả lời (dù đúng chủ đề hay không) luôn phải kết thúc bằng câu:\n"

  /** Policy section 4, after the quoted disclaimer. */
  const PolicyAfterDisclaimer :=
    "\n"
    + "\n"
    + "## 4. Quy tắc an toàn\n"
    + "- Không đưa thông tin phản khoa học.\n"
    + "- Không đảm bảo thông tin 100%.\n"
    + "- Nếu nội dung có thể gây hại, phải khuyến cáo người dùng đi khám.\n"
    + "- Giữ giọng điệu thân thiện, tôn trọng."

  /** `MEDICAL_SYSTEM_PROMPT`. */
  const MedicalSystemPrompt := PolicyBeforeDisclaimer + "\"" + Disclaimer + "\"" + PolicyAfterDisclaimer

  const HistoryHeader := "\n\n---\n\nLịch sử hội thoại:\n"
  const QuestionHeader := "\n\nCâu hỏi hiện tại của người dùng:\n"
  const LlmClosing := "\n\nHãy trả lời theo đúng các quy tắc trên."
  const ReferenceHeader := "\n\nThông tin y tế tham khảo:\n"
  const RagClosing := "\n\nHãy trả lời dựa trên thông tin y tế được cung cấp, tuân thủ đúng các quy tắc trên."

  /** The fixed texts a prompt is built from. */
  datatype Template = Template(
    system: string, historyHeader: string, questionHeader: string,
    llmClosing: string, referenceHeader: string, ragClosing: string)

  /** The medical chatbot's texts. */
  const MedicalTemplate := Template(MedicalSystemPrompt, HistoryHeader, QuestionHeader, LlmClosing, ReferenceHeader, RagClosing)

  /** The text both prompts share: policy, separator, history, current question. */
  function Preamble(t: Template, history: string, question: string): string {
    t.system + t.historyHeader + history + t.questionHeader + question
  }

  /** `get_llm_prompt(history_context, question)`, over the texts `t`. */
  function LlmPrompt(t: Template, history: string, question: string): (p: string)
    ensures IsPrefix(t.system, p)
  {
    Preamble(t, history, question) + t.llmClosing
  }

  /** `get_rag_prompt(history_context, question, medical_content)`, over the texts `t`. */
  function RagPrompt(t: Template, history: string, question: string, content: string): (p: string)
    ensures IsPrefix(t.system, p)
  {
    Preamble(t, history, question) + t.referenceHeader + content + t.ragClosing
  }

  lemma QuotedOccurs(before: string, quoted: string, after: string)
    ensures IsSubstring(quoted, before + "\"" + quoted + "\"" + after)
  {
    var s := before + "\"" + quoted + "\"" + after;
    var i := |before| + 1;
    assert s[i..i + |quoted|] == quoted;
    SubstringAt(quoted, s, i);
  }

  /** The policy contains the mandatory disclaimer sentence. */
  lemma SystemPromptHasDisclaimer()
    ensures IsSubstring(Disclaimer, MedicalSystemPrompt)
  {
    QuotedOccurs(PolicyBeforeDisclaimer, Disclaimer, PolicyAfterDisclaimer);
  }

  /** Both prompts begin with the policy. */
  lemma PromptsBeginWithPolicy(t: Template, history: string, question: string, content: string)
    ensures IsPrefix(t.system, LlmPrompt(t, history, question))
    ensures IsPrefix(t.system, RagPrompt(t, history, question, content))
  {
    var n := |t.system|;
    assert LlmPrompt(t, history, question)[..n] == t.system;
    assert RagPrompt(t, history, question, content)[..n] == t.system;
  }

  /** Whatever occurs in the policy occurs in both prompts. */
  lemma PolicyTextInPrompts(p: string, t: Template, history: string, question: string, content: string)
    requires IsSubstring(p, t.system)
    ensures IsSubstring(p, LlmPrompt(t, history, question))
    ensures IsSubstring(p, RagPrompt(t, history, question, content))
  {
    var rest := t.historyHeader + history + t.questionHeader + question;
    SubstringExtends(p, t.system, rest);
    assert Preamble(t, history, question) == t.system + rest;
    SubstringExtends(p, Preamble(t, history, question), t.llmClosing);
    SubstringExtends(p, Preamble(t, history, question), t.referenceHeader + content + t.ragClosing);
    assert RagPrompt(t, history, question, content)
        == Preamble(t, history, question) + (t.referenceHeader + content + t.ragClosing);
  }

  /** Hence every prompt the chatbot sends carries the mandatory disclaimer. */
  lemma PromptsCarryDisclaimer(history: string, question: string, content: string)
    ensures IsSubstring(Disclaimer, LlmPrompt(MedicalTemplate, history, question))
    ensures IsSubstring(Disclaimer, RagPrompt(MedicalTemplate, history, question, content))
  {
    SystemPromptHasDisclaimer();
    PolicyTextInPrompts(Disclaimer, MedicalTemplate, history, question, content);
  }

  /** Where each piece of `lead + a + mid + b + tail` sits. */
  lemma Layout(lead: string, a: string, mid: string, b: string, tail: string)
    ensures var s := lead + a + mid + b + tail;
      var j := |lead + a + mid|;
      var k := |lead + a + mid + b|;
      && |lead| + |a| <= j && j + |b| == k && k + |tail| == |s|
      && s[|lead|..|lead| + |a|] == a
      && s[j..k] == b
      && s[..k] == lead + a + mid + b
      && s[k..] == tail
    ensures IsSubstring(a, lead + a + mid + b + tail) && IsSubstring(b, lead + a + mid + b + tail)
  {
    var s := lead + a + mid + b + tail;
    SubstringAt(a, s, |lead|);
    SubstringAt(b, s, |lead + a + mid|);
  }

  /** Where each piece of `lead + a + mid + b + mid' + c + tail` sits. */
  lemma Layout7(lead: string, a: string, mid: string, b: string, mid': string, c: string, tail: string)
    ensures var s := lead + a + mid + b + mid' + c + tail;
      var j := |lead + a + mid|;
      var k := |lead + a + mid + b|;
      var m := |lead + a + mid + b + mid'|;
      && |lead| + |a| <= j && j + |b| == k && k <= m && m + |c| + |tail| == |s|
      && s[|lead|..|lead| + |a|] == a
      && s[j..k] == b
      && s[m..m + |c|] == c
      && s[..k] == lead + a + mid + b
      && s[k..] == mid' + c + tail
    ensures var s := lead + a + mid + b + mid' + c + tail;
      IsSubstring(a, s) && IsSubstring(b, s) && IsSubstring(c, s)
  {
    var s := lead + a + mid + b + mid' + c + tail;
    var k := |lead + a + mid + b|;
    assert s[k..] == mid' + c + tail;
    SubstringAt(a, s, |lead|);
    SubstringAt(b, s, |lead + a + mid|);
    SubstringAt(c, s, |lead + a + mid + b + mid'|);
  }

  /**
   * The two prompts agree character for character up to the end of the
   * question; after it the LLM prompt only closes, and the RAG prompt adds
   * the reference header, the medical content and its own closing line.
   */
  lemma PromptsAgreeThroughQuestion(t: Template, history: string, question: string, content: string)
    ensures var k := |Preamble(t, history, question)|;
      && k <= |LlmPrompt(t, history, question)| && k <= |RagPrompt(t, history, question, content)|
      && LlmPrompt(t, history, question)[..k] == RagPrompt(t, history, question, content)[..k]
      && LlmPrompt(t, history, question)[k..] == t.llmClosing
      && RagPrompt(t, history, question, content)[k..] == t.referenceHeader + content + t.ragClosing
  {
    var lead := t.system + t.historyHeader;
    Layout(lead, history, t.questionHeader, question, t.llmClosing);
    Layout7(lead, history, t.questionHeader, question, t.referenceHeader, content, t.ragClosing);
  }

  /** The history and the question appear verbatim in the LLM prompt, right after their headers. */
  lemma LlmPromptQuotesVerbatim(t: Template, history: string, question: string)
    ensures var s := LlmPrompt(t, history, question);
      var h := |t.system + t.historyHeader|;
      var q := |t.system + t.historyHeader + history + t.questionHeader|;
      && h + |history| <= q && q + |question| <= |s|
      && s[h..h + |history|] == history
      && s[q..q + |question|] == question
    ensures IsSubstring(history, LlmPrompt(t, history, question))
    ensures IsSubstring(question, LlmPrompt(t, history, question))
  {
    Layout(t.system + t.historyHeader, history, t.questionHeader, question, t.llmClosing);
  }

  /** The history, the question and the medical content appear verbatim in the RAG prompt. */
  lemma RagPromptQuotesVerbatim(t: Template, history: string, question: string, content: string)
    ensures var s := RagPrompt(t, history, question, content);
      var h := |t.system + t.historyHeader|;
      var q := |t.system + t.historyHeader + history + t.questionHeader|;
      var c := |Preamble(t, history, question) + t.referenceHeader|;
      && h + |history| <= q && q + |question| <= c && c + |content| <= |s|
      && s[h..h + |history|] == history
      && s[q..q + |question|] == question
      && s[c..c + |content|] == content
    ensures IsSubstring(history, RagPrompt(t, history, question, content))
    ensures IsSubstring(question, RagPrompt(t, history, question, content))
    ensures IsSubstring(content, RagPrompt(t, history, question, content))
  {
    Layout7(t.system + t.historyHeader, history, t.questionHeader, question, t.referenceHeader, content, t.ragClosing);
  }

  /** Equal layouts around the same fixed text have equal variable parts. */
  lemma LayoutInjective(lead: string, a: string, mid: string, b1: string, b2: string, mid': string,
                        c1: string, c2: string, tail: string)
    ensures lead + a + mid + b1 + tail == lead + a + mid + b2 + tail ==> b1 == b2
    ensures lead + a + mid + b1 + mid' + c1 + tail == lead + a + mid + b2 + mid' + c2 + tail && |b1| == |b2|
      ==> b1 == b2 && c1 == c2
  {
    Layout(lead, a, mid, b1, tail);
    Layout(lead, a, mid, b2, tail);
    Layout7(lead, a, mid, b1, mid', c1, tail);
    Layout7(lead, a, mid, b2, mid', c2, tail);
  }

  /** Given the history, the LLM prompt determines the question, and the RAG prompt also the content. */
  lemma PromptsAreInjective(t: Template, history: string, q1: string, q2: string, c1: string, c2: string)
    ensures LlmPrompt(t, history, q1) == LlmPrompt(t, history, q2) ==> q1 == q2
    ensures RagPrompt(t, history, q1, c1) == RagPrompt(t, history, q2, c2) && |q1| == |q2| ==> q1 == q2 && c1 == c2
  {
    LayoutInjective(t.system + t.historyHeader, history, t.questionHeader, q1, q2,
                    t.referenceHeader, c1, c2, t.llmClosing);
    LayoutInjective(t.system + t.historyHeader, history, t.questionHeader, q1, q2,
                    t.referenceHeader, c1, c2, t.ragClosing);
  }
}
