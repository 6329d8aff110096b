/**
 * The answer-routing graph of one turn: the five routers, the edge table,
 * the nodes' effects on the turn state, and runs of the graph from a node
 * to the end.
 */
module Workflow {
  import opened Wrappers
  import opened State
  import PlannerAgent
  import LlmAgent
  import ExecutorAgent
  import Prompts

  datatype Node = Memory | Planner | Llm | Retriever | Wikipedia | Tavily | Executor

  /** Where an edge leads: a node, or the end of the run. */
  datatype Target = ToNode(node: Node) | End

  /** The name a node is registered under; routers answer with these. */
  function Name(n: Node): string {
    match n
    case Memory => "memory"
    case Planner => "planner"
    case Llm => "llm_agent"
    case Retriever => "retriever"
    case Wikipedia => "wikipedia"
    case Tavily => "tavily"
    case Executor => "executor"
  }

  /** The node registered under a name, if any. */
  function NodeNamed(name: string): (n: Option<Node>)
    ensures n.Some? ==> Name(n.value) == name
  {
    if name == "memory" then Some(Memory)
    else if name == "planner" then Some(Planner)
    else if name == "llm_agent" then Some(Llm)
    else if name == "retriever" then Some(Retriever)
    else if name == "wikipedia" then Some(Wikipedia)
    else if name == "tavily" then Some(Tavily)
    else if name == "executor" then Some(Executor)
    else None
  }

  /** Node names are distinct: every node is found again by its name. */
  lemma NamesIdentifyNodes(n: Node)
    ensures NodeNamed(Name(n)) == Some(n)
  {
  }

  // ----- the routers -----

  /** `route_after_planner`; `state["current_tool"]` is read directly, so it must be set. */
  function RouteAfterPlanner(st: AgentState): (choice: string)
    requires st.currentTool.Some?
    ensures choice == "retriever" <==> st.currentTool == Some("retriever")
    ensures choice != "retriever" ==> choice == "llm_agent"
  {
    if st.currentTool.value == "retriever" then "retriever" else "llm_agent"
  }

  /** `route_after_llm`. */
  function RouteAfterLlm(st: AgentState): (choice: string)
    ensures choice == "executor" <==> Flag(st.llmSuccess)
    ensures choice == "retriever" <==> !Flag(st.llmSuccess) && !Flag(st.ragAttempted)
    ensures choice == "wikipedia" <==> !Flag(st.llmSuccess) && Flag(st.ragAttempted)
  {
    if Flag(st.llmSuccess) then "executor"
    else if !Flag(st.ragAttempted) then "retriever"
    else "wikipedia"
  }

  /** `route_after_rag`. */
  function RouteAfterRag(st: AgentState): (choice: string)
    ensures choice == "executor" <==> Flag(st.ragSuccess)
    ensures choice == "llm_agent" <==> !Flag(st.ragSuccess) && !Flag(st.llmAttempted)
    ensures choice == "wikipedia" <==> !Flag(st.ragSuccess) && Flag(st.llmAttempted)
  {
    if Flag(st.ragSuccess) then "executor"
    else if !Flag(st.llmAttempted) then "llm_agent"
    else "wikipedia"
  }

  /** `route_after_wiki`. */
  function RouteAfterWiki(st: AgentState): (choice: string)
    ensures choice == "executor" <==> Flag(st.wikiSuccess)
    ensures choice != "executor" ==> choice == "tavily"
  {
    if Flag(st.wikiSuccess) then "executor" else "tavily"
  }

  /** `route_after_tavily`. */
  function RouteAfterTavily(st: AgentState): (choice: string)
    ensures choice == "executor"
  {
    "executor"
  }

  /** A flag that is absent is read exactly like a flag that is false. */
  lemma RoutersReadAbsentAsFalse(st: AgentState)
    ensures RouteAfterLlm(st.(llmSuccess := None)) == RouteAfterLlm(st.(llmSuccess := Some(false)))
    ensures RouteAfterLlm(st.(ragAttempted := None)) == RouteAfterLlm(st.(ragAttempted := Some(false)))
    ensures RouteAfterRag(st.(ragSuccess := None)) == RouteAfterRag(st.(ragSuccess := Some(false)))
    ensures RouteAfterRag(st.(llmAttempted := None)) == RouteAfterRag(st.(llmAttempted := Some(false)))
    ensures RouteAfterWiki(st.(wikiSuccess := None)) == RouteAfterWiki(st.(wikiSuccess := Some(false)))
  {
  }

  // ----- the edge table of `create_workflow` -----

  /** An edge out of a node: fixed, or chosen by the node's router through a choice map. */
  datatype Edge = Direct(to: Target) | Conditional(paths: map<string, Node>)

  const EntryPoint := Memory

  function Edges(n: Node): (e: Edge)
    ensures e == Direct(End) <==> n == Executor
    ensures e.Direct? <==> n == Memory || n == Executor
    ensures e.Conditional? ==> forall choice :: choice in e.paths ==> Name(e.paths[choice]) == choice
  {
    match n
    case Memory => Direct(ToNode(Planner))
    case Planner => Conditional(map["retriever" := Retriever, "llm_agent" := Llm])
    case Llm => Conditional(map["executor" := Executor, "retriever" := Retriever, "wikipedia" := Wikipedia])
    case Retriever => Conditional(map["executor" := Executor, "llm_agent" := Llm, "wikipedia" := Wikipedia])
    case Wikipedia => Conditional(map["executor" := Executor, "tavily" := Tavily])
    case Tavily => Conditional(map["executor" := Executor])
    case Executor => Direct(End)
  }

  /** The edge maps send every choice to the node registered under it. */
  lemma EdgeMapsFollowNames(n: Node, choice: string)
    requires Edges(n).Conditional? && choice in Edges(n).paths
    ensures Name(Edges(n).paths[choice]) == choice
  {
  }

  /** Only the executor leads to the end, and the memory node leads straight to the planner. */
  lemma GraphShape(n: Node)
    ensures Edges(n) == Direct(End) <==> n == Executor
    ensures Edges(EntryPoint) == Direct(ToNode(Planner))
    ensures Edges(n).Direct? <==> n == Memory || n == Executor
  {
  }

  /** The choice chosen by the router of a conditional node; the planner's router needs `current_tool`. */
  function Route(n: Node, st: AgentState): (choice: string)
    requires Edges(n).Conditional?
    requires n == Planner ==> st.currentTool.Some?
    ensures choice in Edges(n).paths
  {
    match n
    case Planner => RouteAfterPlanner(st)
    case Llm => RouteAfterLlm(st)
    case Retriever => RouteAfterRag(st)
    case Wikipedia => RouteAfterWiki(st)
    case Tavily => RouteAfterTavily(st)
  }

  /** Where the run goes after `n` has produced `st`. */
  function Next(n: Node, st: AgentState): Target
    requires n == Planner ==> st.currentTool.Some?
  {
    match Edges(n)
    case Direct(t) => t
    case Conditional(paths) => ToNode(paths[Route(n, st)])
  }

  /** The same decisions stated on nodes and flags directly, without labels. */
  function Successor(n: Node, st: AgentState): (t: Target)
    ensures t == End <==> n == Executor
    ensures t == ToNode(Planner) <==> n == Memory
    ensures t != ToNode(Memory)
  {
    match n
    case Memory => ToNode(Planner)
    case Planner => if st.currentTool == Some("retriever") then ToNode(Retriever) else ToNode(Llm)
    case Llm =>
      if Flag(st.llmSuccess) then ToNode(Executor)
      else if !Flag(st.ragAttempted) then ToNode(Retriever)
      else ToNode(Wikipedia)
    case Retriever =>
      if Flag(st.ragSuccess) then ToNode(Executor)
      else if !Flag(st.llmAttempted) then ToNode(Llm)
      else ToNode(Wikipedia)
    case Wikipedia => if Flag(st.wikiSuccess) then ToNode(Executor) else ToNode(Tavily)
    case Tavily => ToNode(Executor)
    case Executor => End
  }

  /** Routing through the edge table with the routers' labels is the same as `Successor`. */
  lemma EdgeTableAgrees(n: Node, st: AgentState)
    requires n == Planner ==> st.currentTool.Some?
    ensures Next(n, st) == Successor(n, st)
  {
  }

  // ----- the nodes -----

  /** What a source of an answer text contributes: the text and where it came from. */
  datatype Attribution = Attribution(text: string, source: string)

  /**
   * What the retriever node does to the state: the documents it found, an
   * answer it may have written, whether it succeeded, and whether it
   * recorded that retrieval was attempted.
   */
  datatype Retrieval = Retrieval(documents: Option<seq<Document>>, answer: Option<Attribution>, success: bool, marksAttempted: bool)

  /** What the Wikipedia node does to the state. */
  datatype Lookup = Lookup(answer: Option<Attribution>, success: bool)

  /**
   * The parts of the system whose code is not part of this model: the
   * memory, retriever, Wikipedia and Tavily nodes, the transliteration the
   * planner uses, and the language-model client.
   */
  datatype Environment = Environment(
    hydrate: AgentState -> seq<Entry>,
    retrieve: AgentState -> Retrieval,
    wikipedia: AgentState -> Lookup,
    tavily: AgentState -> Option<Attribution>,
    normalize: string -> string,
    llm: LlmClient)

  /** The state with the answer fields set from `a`, when there is one. */
  function WithAnswer(st: AgentState, a: Option<Attribution>): (r: AgentState)
    ensures r.(generation := st.generation, source := st.source) == st
    ensures a.Some? ==> r.generation == Some(a.value.text) && r.source == Some(a.value.source)
  {
    match a
    case None => st
    case Some(Attribution(text, source)) => st.(generation := Some(text), source := Some(source))
  }

  /** The retriever node's effect: only the documents, the retrieval flags and possibly the answer change. */
  function Retrieve(find: AgentState -> Retrieval, st: AgentState): (r: AgentState)
    ensures r.(generation := st.generation, source := st.source, documents := st.documents,
               ragSuccess := st.ragSuccess, ragAttempted := st.ragAttempted) == st
    ensures r.ragAttempted == if find(st).marksAttempted then Some(true) else st.ragAttempted
  {
    var found := find(st);
    WithAnswer(st, found.answer).(
      documents := found.documents,
      ragSuccess := Some(found.success),
      ragAttempted := if found.marksAttempted then Some(true) else st.ragAttempted)
  }

  /** The Wikipedia node's effect: only its success flag and possibly the answer change. */
  function LookUp(find: AgentState -> Lookup, st: AgentState): (r: AgentState)
    ensures r.(generation := st.generation, source := st.source, wikiSuccess := st.wikiSuccess) == st
    ensures r.wikiSuccess == Some(find(st).success)
  {
    var found := find(st);
    WithAnswer(st, found.answer).(wikiSuccess := Some(found.success))
  }

  /** Each node's behaviour, as the state it returns for the state it is given. */
  datatype Agents = Agents(
    memory: AgentState -> AgentState,
    planner: AgentState -> AgentState,
    llm: AgentState -> AgentState,
    retriever: AgentState -> AgentState,
    wikipedia: AgentState -> AgentState,
    tavily: AgentState -> AgentState,
    executor: AgentState -> AgentState)

  /** The state after node `n` runs on `st`. */
  function Apply(a: Agents, n: Node, st: AgentState): AgentState {
    match n
    case Memory => a.memory(st)
    case Planner => a.planner(st)
    case Llm => a.llm(st)
    case Retriever => a.retriever(st)
    case Wikipedia => a.wikipedia(st)
    case Tavily => a.tavily(st)
    case Executor => a.executor(st)
  }

  /**
   * The guarantees the routing relies on: no node changes the question, the
   * LLM agent always records its attempt and leaves the retrieval flag
   * alone, and the retriever leaves the LLM flag alone.
   */
  ghost predicate Behaves(a: Agents) {
    && (forall n: Node, st: AgentState :: Apply(a, n, st).question == st.question)
    && (forall st: AgentState :: Flag(a.llm(st).llmAttempted) && a.llm(st).ragAttempted == st.ragAttempted)
    && (forall st: AgentState :: a.retriever(st).llmAttempted == st.llmAttempted)
  }

  /**
   * The guarantees about the answer: only the memory node and the executor
   * write the history, and the executor answers with a non-empty text,
   * appending the question and that answer.
   */
  ghost predicate Answers(a: Agents) {
    && (forall n: Node, st: AgentState :: n != Memory && n != Executor ==> Apply(a, n, st).conversationHistory == st.conversationHistory)
    && (forall st: AgentState :: st.question.Some? ==>
          var r := a.executor(st);
          && r.generation.Some? && r.generation.value != ""
          && r.conversationHistory == st.conversationHistory
               + [Entry("user", st.question.value, None),
                  Entry("assistant", r.generation.value, Some(r.source.GetOr(ExecutorAgent.UnknownSource)))])
  }

  /** The nodes of the system: the modelled agents, and the environment's oracles for the others. */
  ghost function System(env: Environment): Agents {
    Agents(
      (st: AgentState) => st.(conversationHistory := env.hydrate(st)),
      (st: AgentState) => PlannerAgent.PlannerSpec(PlannerAgent.Keywords, st, env.normalize),
      (st: AgentState) => LlmAgent.LlmAgentSpec(Prompts.MedicalTemplate, st, env.llm),
      (st: AgentState) => Retrieve(env.retrieve, st),
      (st: AgentState) => LookUp(env.wikipedia, st),
      (st: AgentState) => WithAnswer(st, env.tavily(st)),
      // A state without a question never reaches the executor: no node removes it.
      (st: AgentState) => if st.question.Some? then ExecutorAgent.ExecutorSpec(Prompts.MedicalTemplate, ExecutorAgent.FallbackResponse, st, env.llm) else st)
  }

  /** The system's nodes give the routing its guarantees. */
  lemma SystemBehaves(env: Environment)
    ensures Behaves(System(env))
  {
    var a := System(env);
    forall st: AgentState ensures Flag(a.llm(st).llmAttempted) && a.llm(st).ragAttempted == st.ragAttempted {
      LlmAgent.LlmAgentOutcome(Prompts.MedicalTemplate, st, env.llm);
      LlmAgent.LlmAgentFrame(Prompts.MedicalTemplate, st, env.llm);
    }
    forall n: Node, st: AgentState ensures Apply(a, n, st).question == st.question {
      match n
      case Planner =>
        PlannerAgent.PlannerContract(PlannerAgent.Keywords, st, env.normalize);
      case Llm =>
        LlmAgent.LlmAgentFrame(Prompts.MedicalTemplate, st, env.llm);
      case Executor =>
        assert a.executor(st) == if st.question.Some? then ExecutorAgent.ExecutorSpec(Prompts.MedicalTemplate, ExecutorAgent.FallbackResponse, st, env.llm) else st;
      case _ =>
    }
  }

  /** The system's nodes give the turn its answer. */
  lemma SystemAnswers(env: Environment)
    ensures Answers(System(env))
  {
    var a := System(env);
    forall n: Node, st: AgentState | n != Memory && n != Executor
      ensures Apply(a, n, st).conversationHistory == st.conversationHistory
    {
      match n
      case Planner =>
        PlannerAgent.PlannerContract(PlannerAgent.Keywords, st, env.normalize);
      case Llm =>
        LlmAgent.LlmAgentFrame(Prompts.MedicalTemplate, st, env.llm);
      case Retriever =>
        assert a.retriever(st) == Retrieve(env.retrieve, st);
      case Wikipedia =>
        assert a.wikipedia(st) == LookUp(env.wikipedia, st);
      case Tavily =>
        assert a.tavily(st) == WithAnswer(st, env.tavily(st));
    }
    forall st: AgentState | st.question.Some?
      ensures var r := a.executor(st);
        && r.generation.Some? && r.generation.value != ""
        && r.conversationHistory == st.conversationHistory
             + [Entry("user", st.question.value, None),
                Entry("assistant", r.generation.value, Some(r.source.GetOr(ExecutorAgent.UnknownSource)))]
    {
      assert a.executor(st) == ExecutorAgent.ExecutorSpec(Prompts.MedicalTemplate, ExecutorAgent.FallbackResponse, st, env.llm);
      ExecutorAgent.ExecutorAppendsPair(Prompts.MedicalTemplate, ExecutorAgent.FallbackResponse, st, env.llm);
      ExecutorAgent.FallbackNonEmpty();
      ExecutorAgent.ExecutorAnswerNonEmpty(Prompts.MedicalTemplate, ExecutorAgent.FallbackResponse, st, env.llm);
    }
  }

  // ----- runs -----

  /** A measure that every edge decreases: the LLM agent sets `llm_attempted`, which lowers the retriever. */
  function Rank(n: Node, st: AgentState): nat {
    match n
    case Executor => 0
    case Tavily => 1
    case Wikipedia => 2
    case Retriever => if Flag(st.llmAttempted) then 3 else 5
    case Llm => 4
    case Planner => 6
    case Memory => 7
  }

  /** The nodes a run visits, in order, and the state it ends with. */
  datatype RunResult = RunResult(visited: seq<Node>, final: AgentState)

  /**
   * The run of the graph from node `n` on state `st`. Every run ends at
   * the executor, which it visits only there, and no run is longer than
   * the node's rank allows.
   */
  ghost function Run(a: Agents, n: Node, st: AgentState): (r: RunResult)
    requires Behaves(a)
    ensures |r.visited| >= 1 && r.visited[0] == n
    ensures r.visited[|r.visited| - 1] == Executor
    ensures forall i :: 0 <= i < |r.visited| - 1 ==> r.visited[i] != Executor
    ensures |r.visited| <= Rank(n, st) + 1
    decreases Rank(n, st)
  {
    var st' := Apply(a, n, st);
    match Successor(n, st')
    case End => RunResult([n], st')
    case ToNode(m) =>
      var rest := Run(a, m, st');
      RunResult([n] + rest.visited, rest.final)
  }

  /** One step of a run: the node, then the run from its successor. */
  lemma RunStep(a: Agents, n: Node, st: AgentState, m: Node)
    requires Behaves(a) && Successor(n, Apply(a, n, st)) == ToNode(m)
    ensures Run(a, n, st).visited == [n] + Run(a, m, Apply(a, n, st)).visited
  {
  }

  /** The run of one turn of the system, from the entry point. */
  ghost function Turn(st: AgentState, env: Environment): RunResult {
    SystemBehaves(env);
    Run(System(env), EntryPoint, st)
  }

  /** The visits of a full turn: memory, then the planner, and the executor last, three to eight nodes in all. */
  predicate CompleteTurn(r: RunResult) {
    && 3 <= |r.visited| <= 8
    && r.visited[0] == Memory && r.visited[1] == Planner
    && r.visited[|r.visited| - 1] == Executor
  }

  /** A run from the entry point is a complete turn. */
  lemma RunFromEntry(a: Agents, st: AgentState)
    requires Behaves(a)
    ensures CompleteTurn(Run(a, EntryPoint, st))
  {
    var rest := Run(a, Planner, Apply(a, Memory, st));
    assert Run(a, EntryPoint, st).visited == [Memory] + rest.visited;
    assert rest.visited[0] == Planner != Executor;
  }

  /** A turn of the system starts at memory, then the planner, and ends at the executor after at most eight nodes. */
  lemma TurnReachesExecutor(st: AgentState, env: Environment)
    ensures CompleteTurn(Turn(st, env))
  {
    SystemBehaves(env);
    RunFromEntry(System(env), st);
  }

  /** How many times `x` occurs in `xs`. */
  function Count(xs: seq<Node>, x: Node): nat
    decreases |xs|
  {
    if xs == [] then 0 else (if xs[0] == x then 1 else 0) + Count(xs[1..], x)
  }

  lemma CountCons(x: Node, xs: seq<Node>, y: Node)
    ensures Count([x] + xs, y) == (if x == y then 1 else 0) + Count(xs, y)
  {
    assert ([x] + xs)[1..] == xs;
  }

  lemma {:induction false} CountAbsent(xs: seq<Node>, x: Node)
    requires x !in xs
    ensures Count(xs, x) == 0
    decreases |xs|
  {
    if xs != [] {
      CountAbsent(xs[1..], x);
    }
  }

  /** Nodes from which the LLM agent can no longer be reached. */
  predicate NoLlmAhead(n: Node, st: AgentState) {
    n == Wikipedia || n == Tavily || n == Executor || (n == Retriever && Flag(st.llmAttempted))
  }

  /** Once the LLM agent is out of reach, a run does not enter it. */
  lemma {:induction false} NoLlmAfterwards(a: Agents, n: Node, st: AgentState)
    requires Behaves(a) && NoLlmAhead(n, st)
    ensures Llm !in Run(a, n, st).visited
    decreases Rank(n, st)
  {
    var st' := Apply(a, n, st);
    match Successor(n, st')
    case End =>
    case ToNode(m) =>
      NoLlmAfterwards(a, m, st');
  }

  /** The LLM agent is entered at most once in any run. */
  lemma {:induction false} LlmAtMostOnce(a: Agents, n: Node, st: AgentState)
    requires Behaves(a)
    ensures Count(Run(a, n, st).visited, Llm) <= 1
    decreases Rank(n, st)
  {
    var st' := Apply(a, n, st);
    var r := Run(a, n, st);
    match Successor(n, st')
    case End =>
      assert r.visited == [n];
      assert Count([n], Llm) == (if n == Llm then 1 else 0) + Count([], Llm);
    case ToNode(m) =>
      var rest := Run(a, m, st').visited;
      assert r.visited == [n] + rest;
      assert ([n] + rest)[1..] == rest;
      if n == Llm {
        NoLlmAfterwards(a, m, st');
        CountAbsent(rest, Llm);
      } else {
        LlmAtMostOnce(a, m, st');
      }
  }

  /**
   * After the memory node, only the executor writes the history: a run ends
   * with a non-empty answer and with the history it started from plus the
   * question and that answer.
   */
  lemma {:induction false} RunAppendsPair(a: Agents, n: Node, st: AgentState)
    requires Behaves(a) && Answers(a) && st.question.Some? && n != Memory
    ensures var f := Run(a, n, st).final;
      && f.generation.Some? && f.generation.value != ""
      && f.conversationHistory == st.conversationHistory
           + [Entry("user", st.question.value, None),
              Entry("assistant", f.generation.value, Some(f.source.GetOr(ExecutorAgent.UnknownSource)))]
    decreases Rank(n, st)
  {
    var st' := Apply(a, n, st);
    match Successor(n, st')
    case End =>
    case ToNode(m) =>
      RunAppendsPair(a, m, st');
  }

  /** A turn of the system ends with a non-empty answer appended, with the question, to the history the memory node loaded. */
  lemma TurnAppendsPair(st: AgentState, env: Environment)
    requires st.question.Some?
    ensures var f := Turn(st, env).final;
      && f.generation.Some? && f.generation.value != ""
      && f.conversationHistory == env.hydrate(st)
           + [Entry("user", st.question.value, None),
              Entry("assistant", f.generation.value, Some(f.source.GetOr(ExecutorAgent.UnknownSource)))]
  {
    SystemBehaves(env);
    SystemAnswers(env);
    var a := System(env);
    RunAppendsPair(a, Planner, Apply(a, Memory, st));
  }

  /** The LLM agent is entered at most once in a turn of the system. */
  lemma TurnCallsLlmAtMostOnce(st: AgentState, env: Environment)
    ensures Count(Turn(st, env).visited, Llm) <= 1
  {
    SystemBehaves(env);
    LlmAtMostOnce(System(env), EntryPoint, st);
  }

  // ----- the retriever, under the assumption that it records its attempt -----

  /** The retriever node always sets `rag_attempted`; its code is not part of this model, so this is an assumption. */
  ghost predicate RetrieverMarksAttempted(env: Environment) {
    forall st :: env.retrieve(st).marksAttempted
  }

  /** A tighter measure that holds when the retriever records its attempt. */
  function MarkedRank(n: Node, st: AgentState): nat {
    match n
    case Executor => 0
    case Tavily => 1
    case Wikipedia => 2
    case Llm => if Flag(st.ragAttempted) then 3 else 4
    case Retriever => if Flag(st.llmAttempted) then 3 else 4
    case Planner => 5
    case Memory => 6
  }

  /** Nodes from which the retriever can no longer be reached. */
  predicate NoRetrieverAhead(n: Node, st: AgentState) {
    n == Wikipedia || n == Tavily || n == Executor || (n == Llm && Flag(st.ragAttempted))
  }

  /** The retriever records its attempt on every state. */
  ghost predicate MarksRetrieval(a: Agents) {
    forall st: AgentState :: Flag(a.retriever(st).ragAttempted)
  }

  /** If the retriever records its attempt, a run is no longer than the tighter measure allows. */
  lemma {:induction false} MarkedRunLength(a: Agents, n: Node, st: AgentState)
    requires Behaves(a) && MarksRetrieval(a)
    ensures |Run(a, n, st).visited| <= MarkedRank(n, st) + 1
    decreases Rank(n, st)
  {
    var st' := Apply(a, n, st);
    match Successor(n, st')
    case End =>
    case ToNode(m) =>
      MarkedRunLength(a, m, st');
  }

  /** If the retriever records its attempt, once it is out of reach a run does not enter it. */
  lemma {:induction false} NoRetrieverAfterwards(a: Agents, n: Node, st: AgentState)
    requires Behaves(a) && MarksRetrieval(a) && NoRetrieverAhead(n, st)
    ensures Retriever !in Run(a, n, st).visited
    decreases Rank(n, st)
  {
    var st' := Apply(a, n, st);
    match Successor(n, st')
    case End =>
    case ToNode(m) =>
      NoRetrieverAfterwards(a, m, st');
  }

  /** If the retriever records its attempt, it is entered at most once in any run. */
  lemma {:induction false} RetrieverAtMostOnce(a: Agents, n: Node, st: AgentState)
    requires Behaves(a) && MarksRetrieval(a)
    ensures Count(Run(a, n, st).visited, Retriever) <= 1
    decreases Rank(n, st)
  {
    var st' := Apply(a, n, st);
    var r := Run(a, n, st);
    match Successor(n, st')
    case End =>
      assert r.visited == [n];
      assert Count([n], Retriever) == (if n == Retriever then 1 else 0) + Count([], Retriever);
    case ToNode(m) =>
      var rest := Run(a, m, st').visited;
      assert r.visited == [n] + rest;
      assert ([n] + rest)[1..] == rest;
      if n == Retriever {
        NoRetrieverAfterwards(a, m, st');
        CountAbsent(rest, Retriever);
      } else {
        RetrieverAtMostOnce(a, m, st');
      }
  }

  /**
   * If the system's retriever records its attempt, a turn enters it at most
   * once and visits at most seven nodes: at most five follow the planner.
   */
  lemma TurnWhenRetrieverMarks(st: AgentState, env: Environment)
    requires RetrieverMarksAttempted(env)
    ensures Count(Turn(st, env).visited, Retriever) <= 1
    ensures |Turn(st, env).visited| <= 7
    ensures |Turn(st, env).visited[2..]| <= 5
  {
    SystemBehaves(env);
    var a := System(env);
    forall s: AgentState ensures Flag(a.retriever(s).ragAttempted) {
      assert env.retrieve(s).marksAttempted;
    }
    RetrieverAtMostOnce(a, EntryPoint, st);
    MarkedRunLength(a, EntryPoint, st);
    TurnReachesExecutor(st, env);
  }

  /** No LLM client, a retriever that finds nothing and does not record its attempt, and a Wikipedia lookup that finds nothing but reports success. */
  ghost predicate SilentFailures(st: AgentState, env: Environment) {
    && (forall s: AgentState :: env.retrieve(s) == Retrieval(None, None, false, false))
    && (forall s: AgentState :: env.wikipedia(s) == Lookup(None, true))
    && env.llm.Unavailable?
    && !Flag(st.llmAttempted) && !Flag(st.ragAttempted)
  }

  /** The run of `RetrieverRepeatsWithoutMark`, node by node. */
  lemma SilentFailuresPath(st: AgentState, env: Environment)
    requires SilentFailures(st, env)
    ensures Behaves(System(env))
    ensures Run(System(env), Retriever, st).visited == [Retriever, Llm, Retriever, Wikipedia, Executor]
  {
    SystemBehaves(env);
    var a := System(env);
    var s1 := Retrieve(env.retrieve, st);
    assert Apply(a, Retriever, st) == s1;
    var s2 := s1.(llmSuccess := Some(false), llmAttempted := Some(true));
    assert Apply(a, Llm, s1) == s2;
    var s3 := Retrieve(env.retrieve, s2);
    assert Apply(a, Retriever, s2) == s3;
    var s4 := LookUp(env.wikipedia, s3);
    assert Apply(a, Wikipedia, s3) == s4;
    RunStep(a, Retriever, st, Llm);
    RunStep(a, Llm, s1, Retriever);
    RunStep(a, Retriever, s2, Wikipedia);
    RunStep(a, Wikipedia, s3, Executor);
    assert Run(a, Executor, s4).visited == [Executor];
  }

  /**
   * The assumption is needed: a retriever that finds nothing and does not
   * record its attempt, with no language-model client, is entered twice.
   */
  lemma RetrieverRepeatsWithoutMark(st: AgentState, env: Environment)
    requires SilentFailures(st, env)
    ensures Behaves(System(env))
    ensures Count(Run(System(env), Retriever, st).visited, Retriever) == 2
  {
    SilentFailuresPath(st, env);
    CountCons(Executor, [], Retriever);
    CountCons(Wikipedia, [Executor], Retriever);
    CountCons(Retriever, [Wikipedia, Executor], Retriever);
    CountCons(Llm, [Retriever, Wikipedia, Executor], Retriever);
    CountCons(Retriever, [Llm, Retriever, Wikipedia, Executor], Retriever);
  }
}
