# Medical chat: the answer-routing machine

This project models the part of the medical chat bot that answers one
question: the graph of agents a turn passes through, and the pure helpers
around it.

- **Graph.** A turn starts at the memory node and goes to the keyword
  planner. From there it goes to the LLM agent or the document retriever.
  When those fail it falls back to Wikipedia and then Tavily, and it always
  ends at the executor. The executor writes the final answer and appends
  the question and the answer to the conversation history.
- **Helpers.** Prompt assembly, the JSON knowledge-base loader, the
  evaluation script's accuracy metric and aggregate scores, and the HTTP
  response envelope.

The turn state is a value record, `State.AgentState`. A key that the code
reads with `.get` and that may be absent is an `Option`. An absent boolean
flag reads as false, through `State.Flag`.

Each agent the source shows (planner, LLM agent, executor) is a `method`
that follows the source's statements and loops. Each method is proved equal
to a specification function (`PlannerSpec`, `LlmAgentSpec`,
`ExecutorSpec`), and the properties the code promises are lemmas about
those functions.

Runs of the graph (`Workflow.Run`) are defined over any record of node
functions that keeps the routing's guarantees (`Workflow.Behaves`).
`Workflow.System` plugs in:

- the three agent specifications;
- oracles for the memory, retriever, Wikipedia and Tavily nodes, whose
  bodies are not part of this model.

The language model is a deterministic oracle from prompt to reply, or to an
exception (`State.LlmClient`, `State.Reply`). The transliteration
`unidecode` is a parameter `normalize`. The planner's weights are doubled to
integers: disease 6, symptom and medical term 4, body part 2, generic 1,
threshold 5. This decides exactly as the source's 3/2/2/1/0.5 weights with
threshold 2.5 do. The evaluation metrics use `real`.

The prompt texts and the executor's fallback answer are passed as
parameters, a `Prompts.Template` and a `fallback` string. Every lemma holds
for any texts. `Generate`, `Execute` and `Workflow.System` supply the
source's constants, `Prompts.MedicalTemplate` and
`ExecutorAgent.FallbackResponse`, and the lemmas about their content are
proved on those constants.

Two consequences of the planner's code are easy to miss:

- "hôm nay thời tiết thế nào" (a weather question) scores 1 in the
  source's weights (2 doubled), not 0: its token "nao" is a body-part
  keyword. It still routes to the LLM agent.
- "sốt cao, đau đầu, mệt mỏi" scores 8 in the source's weights (16
  doubled): the tokens "sot" and "dau" score as symptoms, and the phrases
  "dau dau" and "met moi" add a symptom weight each.

Without any assumption about flag resets at turn start, the LLM agent runs
at most once per turn and every turn ends at the executor. The retriever
runs at most once only under the assumption that it records
`rag_attempted`. `Workflow.RetrieverRepeatsWithoutMark` shows a run that
enters it twice without that assumption.

## Model

| member | source | states |
|---|---|---|
| Workflow.RouteAfterPlanner | core/langgraph_workflow.py:12-15 | "retriever" exactly when `current_tool` is "retriever", "llm_agent" for every other value |
| Workflow.RouteAfterLlm | core/langgraph_workflow.py:18-25 | "executor" iff `llm_success`; "retriever" iff not `llm_success` and not `rag_attempted`; "wikipedia" iff not `llm_success` and `rag_attempted` |
| Workflow.RouteAfterRag | core/langgraph_workflow.py:28-35 | "executor" iff `rag_success`; "llm_agent" iff not `rag_success` and not `llm_attempted`; "wikipedia" otherwise, both directions |
| Workflow.RouteAfterWiki | core/langgraph_workflow.py:38-41 | "executor" iff `wiki_success`, otherwise "tavily" |
| Workflow.RouteAfterTavily | core/langgraph_workflow.py:44-45 | always "executor" |
| Workflow.RoutersReadAbsentAsFalse | core/langgraph_workflow.py:19-39 | every router answers the same for an absent flag as for a false one |
| Workflow.NodeNamed | core/langgraph_workflow.py:52-58 | a name that is found belongs to the node found |
| Workflow.NamesIdentifyNodes | core/langgraph_workflow.py:52-58 | the seven registered names are distinct: each node is found again by its name |
| Workflow.Edges | core/langgraph_workflow.py:60-115 | only the executor leads to the end, only memory and the executor have direct edges, and every conditional edge map sends each label to the node registered under it |
| Workflow.Successor | core/langgraph_workflow.py:12-115 | the next node after each node: the end exactly after the executor, the planner exactly after memory, and memory never |
| Workflow.EdgeMapsFollowNames | core/langgraph_workflow.py:65-113 | every entry of every conditional edge map leads to the node registered under its label |
| Workflow.GraphShape | core/langgraph_workflow.py:60-115 | entry is memory, memory leads unconditionally to the planner, and the executor is the only node that leads to the end |
| Workflow.Route | core/langgraph_workflow.py:12-113 | no router returns a label outside its node's edge map |
| Workflow.EdgeTableAgrees | core/langgraph_workflow.py:12-115 | following a router's label through the edge table gives the same next node as the flag-based successor function |
| Workflow.Retrieve | core/langgraph_workflow.py:55 | the retriever node changes only the answer, documents and retrieval flags, and marks `rag_attempted` exactly when its oracle says so |
| Workflow.LookUp | core/langgraph_workflow.py:56 | the Wikipedia node changes only the answer and sets `wiki_success` |
| Workflow.WithAnswer | core/langgraph_workflow.py:57 | the Tavily node changes only `generation` and `source`, to the attribution it found |
| Workflow.SystemBehaves | core/langgraph_workflow.py:52-58 | the real nodes keep the question, the LLM agent always records its attempt, and neither strategy agent touches the other's flag |
| Workflow.SystemAnswers | core/langgraph_workflow.py:52-58 | only memory and executor write the history; the executor always answers non-empty and appends the question/answer pair |
| Workflow.Run | core/langgraph_workflow.py:60-115 | every run ends at the executor, visits it only at the end, and is bounded by the node's rank |
| Workflow.RunFromEntry | core/langgraph_workflow.py:60-115 | a run from the entry point visits memory, then the planner, and ends at the executor after 3 to 8 nodes |
| Workflow.TurnReachesExecutor | core/langgraph_workflow.py:60-115 | every turn of the real system reaches the executor, in 3 to 8 nodes |
| Workflow.LlmAtMostOnce | core/langgraph_workflow.py:18-94 | from any node, a run enters the LLM agent at most once |
| Workflow.TurnCallsLlmAtMostOnce | core/langgraph_workflow.py:64-115 | a turn of the real system enters the LLM agent at most once |
| Workflow.RunAppendsPair | core/langgraph_workflow.py:64-115 | a run from the planner onward ends with a non-empty answer and exactly the question/answer pair appended to the history |
| Workflow.TurnAppendsPair | core/langgraph_workflow.py:60-115 | a turn's final history is the memory node's history plus the question and the non-empty final answer |
| Workflow.MarkedRunLength | core/langgraph_workflow.py:18-115 | when the retriever records its attempt, runs obey the tighter rank bound |
| Workflow.RetrieverAtMostOnce | core/langgraph_workflow.py:18-115 | when the retriever records its attempt, a run enters it at most once |
| Workflow.TurnWhenRetrieverMarks | core/langgraph_workflow.py:64-115 | under that assumption a turn enters the retriever at most once, visits at most 7 nodes, and at most 5 follow the planner |
| Workflow.SilentFailuresPath | core/langgraph_workflow.py:18-104 | with no LLM client, a retriever that finds nothing and does not mark, and a Wikipedia lookup that finds nothing but reports success, the run from the retriever is retriever, LLM, retriever, Wikipedia, executor |
| Workflow.RetrieverRepeatsWithoutMark | core/langgraph_workflow.py:18-94 | without the marking assumption the retriever can be entered twice |
| PlannerAgent.MatchPhrase | agents/planner_agent.py:76-80 | the running score grows by the phrase-stage sum over the given keyword set |
| PlannerAgent.PlanWith | agents/planner_agent.py:67-107 | the planner's loops produce exactly `PlannerSpec` over the given keyword sets |
| PlannerAgent.Plan | agents/planner_agent.py:7-107 | the planner over the source's keyword sets produces `PlannerSpec(Keywords, …)` |
| PlannerAgent.Decide | agents/planner_agent.py:100-102 | the tool is "retriever" or "llm_agent", and "retriever" iff the score reaches the threshold |
| PlannerAgent.PlannerContract | agents/planner_agent.py:100-107 | `current_tool` is retriever iff score ≥ threshold, otherwise llm_agent; `retry_count` is kept if present and 0 otherwise; no other field changes |
| PlannerAgent.SetSumOfHits | agents/planner_agent.py:78-80 | the phrase stage adds the weight once per multi-word keyword that occurs in the question |
| PlannerAgent.PhraseScoreCounts | agents/planner_agent.py:76-84 | the phrase score is the weighted count of matching symptom, disease and medical-term phrases only |
| PlannerAgent.PhraseScoreNeedsSpace | agents/planner_agent.py:79 | a question without a space gets no phrase score |
| PlannerAgent.MultiWordGenericNotPhraseScored | agents/planner_agent.py:47-84 | "suc khoe" and "bac si" are generic keywords only, so the phrase stage never scores them |
| PlannerAgent.TokenWeightIsFirstMatch | agents/planner_agent.py:87-97 | a token's weight is that of the first category containing it, in the order disease, symptom, medical term, body part, generic |
| PlannerAgent.SampleTokenWeights | agents/planner_agent.py:7-97 | "nao" scores as a body part, "sot" as a symptom, "gi" scores nothing |
| PlannerAgent.ScoreNonNegative | agents/planner_agent.py:73-97 | the score is never negative |
| PlannerAgent.NoKeywordScoresZero | agents/planner_agent.py:73-102 | a question with no matching phrase or token scores 0 and is routed to llm_agent |
| PlannerAgent.PlannerIgnoresCase | agents/planner_agent.py:68-69 | the decision is the same for a question and its lower-cased form; a missing question is treated as "" |
| State.AcceptedAnswer | agents/llm_agent.py:24-27 | an answer is used iff the reply is not an exception and its stripped text is longer than 10 characters; then it is the stripped text |
| History.BuildContext | agents/llm_agent.py:15-20 | the loop renders exactly the last `window` history entries, in order |
| History.RenderSkipsOtherRoles | agents/llm_agent.py:17-20 | entries whose role is neither user nor assistant contribute nothing to the context |
| History.RenderAppend | agents/llm_agent.py:16-20 | rendering a concatenation is the concatenation of the renderings |
| LlmAgent.AskLlm | agents/llm_agent.py:22-38 | the call inside the handler gives exactly `LlmOutcome`: the stripped reply when it is longer than 10 characters, nothing on an exception or a short reply |
| LlmAgent.GenerateWith | agents/llm_agent.py:5-41 | the agent's steps produce exactly `LlmAgentSpec` over the given prompt texts |
| LlmAgent.Generate | agents/llm_agent.py:5-41 | the agent over the source's prompt texts produces `LlmAgentSpec(MedicalTemplate, …)` |
| LlmAgent.LlmAgentOutcome | agents/llm_agent.py:9-40 | `llm_attempted` is always set; success iff a client exists, the question is present and the stripped reply is longer than 10 characters; on success the answer and the source "AI Medical Knowledge" are written |
| LlmAgent.LlmAgentFailureKeepsAnswer | agents/llm_agent.py:11-40 | on failure only the two flags change; `generation` and `source` stay as they were |
| LlmAgent.LlmAgentFrame | agents/llm_agent.py:5-41 | the question, history, documents, retrieval and Wikipedia flags, tool and retry count are untouched |
| LlmAgent.LlmAgentSeesLastFive | agents/llm_agent.py:16 | entries older than the last five do not affect the outcome |
| ExecutorAgent.AddToHistory | agents/executor_agent.py:7-17 | prior entries unchanged, then the user entry with the question, then the assistant entry with the answer and its source |
| ExecutorAgent.Passages | agents/executor_agent.py:45 | one passage per document among the first three, each the first 1000 characters |
| ExecutorAgent.RagContentUsesFirstThree | agents/executor_agent.py:45 | documents after the third do not change the content; three passages of at most 1000 characters each |
| ExecutorAgent.RagContentBounded | agents/executor_agent.py:45 | the content is at most three passages plus two separators long |
| ExecutorAgent.AskWithDocuments | agents/executor_agent.py:38-60 | the retrieval-augmented call gives exactly `RagAnswer`: the stripped reply when it is long enough, nothing when there are no documents, no client, an exception or a short reply |
| ExecutorAgent.ExecuteWith | agents/executor_agent.py:19-68 | the executor's steps produce exactly `ExecutorSpec` over the given prompt texts and fallback |
| ExecutorAgent.Execute | agents/executor_agent.py:5-68 | the executor over the source's texts produces `ExecutorSpec(MedicalTemplate, FallbackResponse, …)` |
| ExecutorAgent.ExecutorAppendsPair | agents/executor_agent.py:7-66 | on every path the history gains exactly the question and the final answer with its source |
| ExecutorAgent.ExecutorKeepsLlmAnswer | agents/executor_agent.py:32-36 | an earlier successful non-empty LLM answer is kept with its source, and the client is not consulted |
| ExecutorAgent.ExecutorRagBranch | agents/executor_agent.py:21-56 | any answer other than the fallback comes from documents and a long-enough reply, with the earlier source or "Unknown"; and such a reply is always used |
| ExecutorAgent.ExecutorFallback | agents/executor_agent.py:38-66 | no documents, no client, or a failed or short reply gives the fallback answer with source "System Message" |
| ExecutorAgent.ExecutorOverwritesUnvetted | agents/executor_agent.py:32-66 | an answer set upstream without `llm_success` and without documents is replaced by the fallback |
| ExecutorAgent.ExecutorAnswerNonEmpty | agents/executor_agent.py:32-66 | with a non-empty fallback the executor's answer is never empty |
| ExecutorAgent.ExecutorSeesLastTen | agents/executor_agent.py:24-29 | entries older than the last ten do not affect the retrieval-augmented prompt |
| ExecutorAgent.FallbackEndsWithDisclaimer | agents/executor_agent.py:5 | the fallback answer ends with the mandatory disclaimer sentence |
| ExecutorAgent.FallbackNonEmpty | agents/executor_agent.py:5 | the fallback answer is not empty |
| Prompts.LlmPrompt | core/prompts.py:31-43 | `get_llm_prompt`: begins with the system prompt |
| Prompts.RagPrompt | core/prompts.py:46-61 | `get_rag_prompt`: begins with the system prompt |
| Prompts.SystemPromptHasDisclaimer | core/prompts.py:20-22 | the system prompt contains the disclaimer sentence |
| Prompts.PromptsBeginWithPolicy | core/prompts.py:31-48 | both prompts begin with the system prompt |
| Prompts.PolicyTextInPrompts | core/prompts.py:31-61 | any text inside the system prompt is inside both prompts |
| Prompts.PromptsCarryDisclaimer | core/prompts.py:5-61 | both prompts built from the source's texts contain the disclaimer sentence |
| Prompts.PromptsAgreeThroughQuestion | core/prompts.py:31-61 | the two prompts agree up to and including the question; the LLM prompt then closes, and the other adds the reference header, the content and its closing line |
| Prompts.LlmPromptQuotesVerbatim | core/prompts.py:31-43 | the history and the question appear verbatim in the LLM prompt, at their fixed positions |
| Prompts.RagPromptQuotesVerbatim | core/prompts.py:46-61 | the history, the question and the content appear verbatim in the retrieval prompt, at their fixed positions |
| Prompts.PromptsAreInjective | core/prompts.py:31-61 | with the same history, different questions give different LLM prompts; same-length questions with different contents give different retrieval prompts |
| DataLoader.Lookup | tools/data_loader.py:41-54 | a key is found iff the entry has it, and the value found is that key's value |
| DataLoader.Header | tools/data_loader.py:41-42 | there is a title line iff the entry has `ten_benh` |
| DataLoader.EntryMetadata | tools/data_loader.py:52-55 | the metadata holds exactly `source` and `title`, defaulting to "Medical JSON Database" and "Unknown Disease" |
| DataLoader.ContentParts | tools/data_loader.py:38-47 | the loop collects the title line, then the "key: value" parts of the described fields |
| DataLoader.BuildDocument | tools/data_loader.py:38-57 | one entry becomes the document with the joined parts and the metadata |
| DataLoader.LoadJson | tools/data_loader.py:25-63 | the loader returns exactly `JsonDocuments` of the file |
| DataLoader.OneDocumentPerEntry | tools/data_loader.py:35-57 | a decoded list of objects gives one document per entry, in entry order |
| DataLoader.FailuresGiveNothing | tools/data_loader.py:27-63 | a missing file, an undecodable file, or an entry that is not an object gives no documents |
| DataLoader.ContentStartsWithTitle | tools/data_loader.py:41-49 | with a `ten_benh` key, the content starts with "Bệnh: " and its value |
| DataLoader.FieldPartsComeFromFields | tools/data_loader.py:45-47 | every part comes from a string-valued field other than `ten_benh` and `url_nguon` |
| DataLoader.FieldPartsAppend | tools/data_loader.py:45-47 | fields are taken in entry order |
| DataLoader.ProcessData | tools/data_loader.py:78-94 | the steps produce exactly `ProcessedDocuments` |
| DataLoader.PdfBeforeJson | tools/data_loader.py:80-94 | PDF documents precede JSON documents, an absent or empty path is skipped, and nothing is split when no document is loaded |
| Evaluation.CalculateAccuracy | evaluation/run_evaluation.py:125-132 | `calculate_accuracy`: 0 for an empty response or keyword list (its range and its 100 case are `Evaluation.AccuracyRange`) |
| Evaluation.CountMatched | evaluation/run_evaluation.py:130 | no more matches than keywords |
| Evaluation.CountMatchedAll | evaluation/run_evaluation.py:130 | every keyword matches iff the count equals the number of keywords |
| Evaluation.AccuracyRange | evaluation/run_evaluation.py:125-132 | 0 for an empty response or keyword list; always within [0, 100]; exactly 100 iff both are non-empty and every keyword occurs in the lower-cased response |
| Evaluation.CapitalizedKeywordCapsAccuracy | evaluation/run_evaluation.py:129-130 | keywords are not lower-cased, so one with a capital letter keeps the accuracy below 100 |
| Evaluation.Record | evaluation/run_evaluation.py:175-222 | success iff the response is longer than 20 characters; an exception gives response "", source "error", accuracy 0 and the message; a missing source reads "unknown" |
| Evaluation.TallyQuestion | evaluation/run_evaluation.py:170-222 | one iteration updates the counters as `AddOutcome` does and builds the record |
| Evaluation.Evaluate | evaluation/run_evaluation.py:135-257 | the metrics are those of the tally over all questions, and result k is the record of question k |
| Evaluation.TallyBounds | evaluation/run_evaluation.py:170-197 | each counter is at most the number of questions, and the accuracy sum is at most 100 per question |
| Evaluation.TallyAgreesWithRecords | evaluation/run_evaluation.py:178-206 | the success counter and accuracy sum agree with the records |
| Evaluation.MetricsInRange | evaluation/run_evaluation.py:230-244 | every rate, the average accuracy and the quality score lie in [0, 100] |
| Response.Value | core/response.py:6-17 | every code's wire value is five characters starting "100" |
| Response.ValueRoundTrip | core/response.py:6-17 | a wire value names its code back, and only that code's value does |
| Response.ValuesDistinct | core/response.py:6-17 | different codes have different values |
| Response.CreateResponse | core/response.py:20-49 | status is the requested one; the body keys are exactly success, message and code, plus data iff data is given |
| Response.ReadBodyRoundTrip | core/response.py:40-47 | reading the body back gives exactly the success flag, message, code and data it was built from |
| Response.CreateCarries | core/response.py:40-44 | the body carries the success flag, the message and the code's value |
| Response.SuccessResponse | core/response.py:52-60 | success true, code "10000", status 200 |
| Response.ErrorResponse | core/response.py:63-76 | success false, with the given code and status |
| Response.ErrorDefaults | core/response.py:63-76 | by default code "10001" and status 400 |
| Response.ValidationErrorResponse | core/response.py:79-86 | code "10008", status 400 |
| Response.NotFoundError | core/response.py:89-96 | code "10007", status 404 |
| Response.InternalErrorResponse | core/response.py:99-106 | code "10009", status 500 |
| Response.BadRequestResponse | core/response.py:109-116 | code "10010", status 400 |

## Left out

- core/state.py, agents/memory_agent, retriever_agent, wikipedia_agent and tavily_agent are not part of this model.
  - Their nodes are oracles in `Workflow.Environment`.
  - Each is assumed to change only its own fields: the history for memory; the answer, documents and retrieval flags for the retriever; the answer and `wiki_success` for Wikipedia; the answer for Tavily.
  - That the retriever records `rag_attempted` is an explicit assumption, `Workflow.RetrieverMarksAttempted`, and not a proven fact.
  - `reset_query_state` and `initialize_conversation_state` are not modelled. None of the routing lemmas needs flags reset at turn start.
- The state dictionary is modelled as a value. The agents' in-place writes to it, and any aliasing between the returned state and the caller's, are not captured.
  - The history list the executor appends to in place is a `seq` in the returned record.
  - Router functions cannot modify the state: Dafny functions are pure.
- The LLM client is a deterministic function from prompt to reply or exception; `LLMClient.get_llm` is whether a client exists. Network, rate limits and retries are left out.
- `hasattr(response, 'content')` is not modelled: a reply is its text or an exception.
- `unidecode` is the parameter `normalize`. `str.lower`, `str.strip`, `str.split` and `\w` are modelled on ASCII only: `Lower` leaves Vietnamese capitals unchanged, and Unicode whitespace, as well as the ASCII separators `\x1c`-`\x1f` that Python's `str.split` and `str.strip` also treat as whitespace, is not whitespace for `StringOps.Strip` and `Evaluation.WordCount`. This affects `Evaluation.CalculateAccuracy` ("Đau đầu" in a response does not match the keyword "đau đầu", where Python's `lower` makes it match), `Evaluation.HasDisclaimer` and `Evaluation.IsComplete` for capitalised Vietnamese text, and the planner's `Normalized`: its lowering of capitals such as "Đ" is correct only if `normalize` lowers them.
- `PlannerAgent.Score`: the 0.5 generic weight and the 2.5 threshold are doubled to integers. Floating-point summation is not modelled.
- `Evaluation.CalculateAccuracy` and the metrics use exact `real` arithmetic. Floating point and `round()` are left out.
- The PDF loader, `json.load` and the tiktoken text splitter are the parameters `loadPdf`, `readJson` and `split` of `DataLoader.ProcessData`. `os.path.exists` is part of what `readJson` reports.
- `DataLoader.Lookup` takes the first of duplicate keys; decoded JSON objects have distinct keys.
- `str(value)` for a non-string `ten_benh` or `url_nguon` is the text carried by `JOther`.
- `ExecutorAgent.Execute` requires a question, because the source reads `state["question"]` outside any handler and raises without one. In `Workflow.System`, a state without a question is passed through unchanged by the executor node, where the source raises `KeyError`: a turn is assumed to start with a question.
- `State.AgentState.conversationHistory` is a sequence that is always present. The source's `_add_to_history` indexes `state["conversation_history"]` and raises `KeyError` when the key is absent, whereas the LLM agent reads it with `.get(..., [])`; that error path is not modelled.
- History entries always have a role and content. The `.get('content', '')` default is not modelled.
- `Evaluation.Evaluate` takes each question's outcome of the graph as input. The threading of the conversation state between questions is not modelled.
- Evaluation.Evaluate: requires at least one question. On an empty question list the source raises `ZeroDivisionError` at `success_count / total`; that error path is not modelled.
- Workflow.Successor: sends a state without `current_tool` from the planner to the LLM agent, where the source's `route_after_planner` raises `KeyError`. The planner always sets it (`PlannerAgent.PlannerContract`), and `Workflow.EdgeTableAgrees` requires it, but `Workflow.Behaves` does not demand it of arbitrary agents.
- Wall-clock timing, `response_time`, `time.sleep`, printing, `print_results`, `save_results` and `main` are left out.
- app.py, main.py, core/database.py, tools/vector_store.py, tools/llm_client.py and `jsonify` are HTTP, I/O and library plumbing, and are left out. `create_response` returns the body map and the status.
- `split_documents`' chunk sizes and separators belong to the splitter and are not modelled.
