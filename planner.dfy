/**
 * The planner: scores the normalised question against weighted medical
 * keyword sets and routes it to retrieval or to the direct LLM answer.
 *
 * Weights and threshold are doubled so that every score is a whole number
 * (3, 2, 2, 1, 0.5 become 6, 4, 4, 2, 1 and the threshold 2.5 becomes 5);
 * doubling preserves every comparison of a sum against the threshold.
 */
module PlannerAgent {
  import opened Wrappers
  import opened StringOps
  import opened State

  const SymptomKeywords: set<string> := {
    "fever", "pain", "headache", "nausea", "vomiting", "diarrhea", "cough",
    "shortness of breath", "chest pain", "dizziness", "fatigue", "seizure",
    "bleeding", "weight loss", "insomnia",
    "sot", "dau", "dau dau", "buon non", "non", "tieu chay", "ho",
    "kho tho", "dau nguc", "chong mat", "met moi", "co giat",
    "chay mau", "sut can", "mat ngu"
  }

  const DiseaseKeywords: set<string> := {
    "cancer", "diabetes", "hypertension", "heart disease", "stroke",
    "asthma", "copd", "pneumonia", "covid", "epilepsy",
    "ung thu", "tieu duong", "cao huyet ap", "benh tim", "dot quy",
    "hen suyen", "viem phoi", "dong kinh"
  }

  const MedicalTermKeywords: set<string> := {
    "diagnosis", "treatment", "medication", "surgery", "prescription",
    "side effects", "vaccine", "rehabilitation",
    "chan doan", "dieu tri", "thuoc", "phau thuat",
    "tac dung phu", "vac xin", "phuc hoi"
  }

  const BodyPartKeywords: set<string> := {
    "heart", "lung", "brain", "liver", "kidney",
    "tim", "phoi", "nao", "gan", "than"
  }

  const GenericMedicalKeywords: set<string> := {
    "benh", "suc khoe", "y te", "kham", "bac si", "benh vien"
  }

  /** The five keyword sets of the planner, gathered so that the scoring can be stated over any of them. */
  datatype Lexicon = Lexicon(
    symptoms: set<string>,
    diseases: set<string>,
    medicalTerms: set<string>,
    bodyParts: set<string>,
    generic: set<string>)

  const Keywords: Lexicon := Lexicon(
    SymptomKeywords, DiseaseKeywords, MedicalTermKeywords, BodyPartKeywords, GenericMedicalKeywords)

  const DiseaseWeight := 6
  const SymptomWeight := 4
  const MedicalTermWeight := 4
  const BodyPartWeight := 2
  const GenericWeight := 1

  /** `MEDICAL_SCORE_THRESHOLD`, doubled. */
  const ScoreThreshold := 5

  const RetrieverTool := "retriever"
  const LlmTool := "llm_agent"

  // ----- sums over a set, in whatever order the set is walked -----

  /** The sum of `f` over the elements of `s`, one term per element. */
  ghost function SetSum(s: set<string>, f: string -> int): int
    decreases s
  {
    if s == {} then 0 else var x :| x in s; f(x) + SetSum(s - {x}, f)
  }

  /** The sum does not depend on which element is taken first. */
  lemma {:induction false} SetSumRemove(s: set<string>, y: string, f: string -> int)
    requires y in s
    ensures SetSum(s, f) == f(y) + SetSum(s - {y}, f)
    decreases s
  {
    var x :| x in s && SetSum(s, f) == f(x) + SetSum(s - {x}, f);
    if x != y {
      SetSumRemove(s - {x}, y, f);
      SetSumRemove(s - {y}, x, f);
      assert s - {x} - {y} == s - {y} - {x};
    }
  }

  lemma {:induction false} SetSumNonNegative(s: set<string>, f: string -> int)
    requires forall x :: x in s ==> f(x) >= 0
    ensures SetSum(s, f) >= 0
    decreases s
  {
    if s != {} {
      var x :| x in s;
      SetSumRemove(s, x, f);
      SetSumNonNegative(s - {x}, f);
    }
  }

  lemma {:induction false} SetSumOfZeros(s: set<string>, f: string -> int)
    requires forall x :: x in s ==> f(x) == 0
    ensures SetSum(s, f) == 0
    decreases s
  {
    if s != {} {
      var x :| x in s;
      SetSumRemove(s, x, f);
      SetSumOfZeros(s - {x}, f);
    }
  }

  // ----- phrase stage -----

  /** The phrase test of `match_phrase`: the keyword has a space and occurs in the question. */
  predicate PhraseHit(qn: string, p: string) {
    ' ' in p && IsSubstring(p, qn)
  }

  /** What `match_phrase` adds for one keyword. */
  function PhraseGain(qn: string, weight: int): string -> int {
    p => if PhraseHit(qn, p) then weight else 0
  }

  /** The keywords of `phrases` that the phrase stage scores. */
  function Hits(phrases: set<string>, qn: string): set<string> {
    set p | p in phrases && PhraseHit(qn, p)
  }

  /** Score of the phrase stage: symptom, disease and medical-term phrases only. */
  ghost function PhraseScore(lex: Lexicon, qn: string): int {
    SetSum(lex.symptoms, PhraseGain(qn, SymptomWeight))
    + SetSum(lex.diseases, PhraseGain(qn, DiseaseWeight))
    + SetSum(lex.medicalTerms, PhraseGain(qn, MedicalTermWeight))
  }

  lemma HitsRemove(phrases: set<string>, x: string, qn: string)
    requires x in phrases
    ensures |Hits(phrases, qn)| == |Hits(phrases - {x}, qn)| + (if PhraseHit(qn, x) then 1 else 0)
  {
    var rest := phrases - {x};
    if PhraseHit(qn, x) {
      assert Hits(phrases, qn) == Hits(rest, qn) + {x};
    } else {
      assert Hits(phrases, qn) == Hits(rest, qn);
    }
  }

  /** A phrase set adds its weight once for each distinct keyword that occurs. */
  lemma {:induction false} SetSumOfHits(phrases: set<string>, qn: string, weight: int)
    ensures SetSum(phrases, PhraseGain(qn, weight)) == weight * |Hits(phrases, qn)|
    decreases phrases
  {
    if phrases == {} {
      assert Hits(phrases, qn) == {};
    } else {
      var x :| x in phrases;
      var rest := phrases - {x};
      SetSumRemove(phrases, x, PhraseGain(qn, weight));
      SetSumOfHits(rest, qn, weight);
      HitsRemove(phrases, x, qn);
      var n := |Hits(rest, qn)|;
      if PhraseHit(qn, x) {
        assert PhraseGain(qn, weight)(x) == weight;
        assert |Hits(phrases, qn)| == n + 1;
        MulSucc(weight, n);
      } else {
        assert PhraseGain(qn, weight)(x) == 0;
      }
    }
  }

  lemma MulSucc(w: int, n: int)
    ensures w * (n + 1) == w * n + w
  {
  }

  /** The phrase stage, in terms of the keywords that occur in the question. */
  lemma PhraseScoreCounts(lex: Lexicon, qn: string)
    ensures PhraseScore(lex, qn) ==
      SymptomWeight * |Hits(lex.symptoms, qn)|
      + DiseaseWeight * |Hits(lex.diseases, qn)|
      + MedicalTermWeight * |Hits(lex.medicalTerms, qn)|
  {
    SetSumOfHits(lex.symptoms, qn, SymptomWeight);
    SetSumOfHits(lex.diseases, qn, DiseaseWeight);
    SetSumOfHits(lex.medicalTerms, qn, MedicalTermWeight);
  }

  /** Only keywords with a space are phrase-scored, so a question without a space gets nothing from this stage. */
  lemma PhraseScoreNeedsSpace(lex: Lexicon, qn: string)
    requires ' ' !in qn
    ensures PhraseScore(lex, qn) == 0
  {
    forall p | true ensures !PhraseHit(qn, p) {
      if PhraseHit(qn, p) {
        SubstringChars(p, qn, ' ');
      }
    }
    SetSumOfZeros(lex.symptoms, PhraseGain(qn, SymptomWeight));
    SetSumOfZeros(lex.diseases, PhraseGain(qn, DiseaseWeight));
    SetSumOfZeros(lex.medicalTerms, PhraseGain(qn, MedicalTermWeight));
  }

  // ----- token stage -----

  /** The weight of a single token: that of the first set containing it, disease first. */
  function TokenWeight(lex: Lexicon, token: string): int {
    if token in lex.diseases then DiseaseWeight
    else if token in lex.symptoms then SymptomWeight
    else if token in lex.medicalTerms then MedicalTermWeight
    else if token in lex.bodyParts then BodyPartWeight
    else if token in lex.generic then GenericWeight
    else 0
  }

  /** One weighted keyword set, for stating the precedence order as data. */
  datatype Category = Category(keywords: set<string>, weight: int)

  /** The categories in the order the token loop tries them. */
  function Precedence(lex: Lexicon): seq<Category> {
    [ Category(lex.diseases, DiseaseWeight),
      Category(lex.symptoms, SymptomWeight),
      Category(lex.medicalTerms, MedicalTermWeight),
      Category(lex.bodyParts, BodyPartWeight),
      Category(lex.generic, GenericWeight) ]
  }

  /** The weight of the first category in `cats` that contains `token`, or 0. */
  function FirstMatchWeight(cats: seq<Category>, token: string): int
    decreases |cats|
  {
    if cats == [] then 0
    else if token in cats[0].keywords then cats[0].weight
    else FirstMatchWeight(cats[1..], token)
  }

  /** The if-chain of the token loop is first-match over disease > symptom > medical term > body part > generic. */
  lemma TokenWeightIsFirstMatch(lex: Lexicon, token: string)
    ensures TokenWeight(lex, token) == FirstMatchWeight(Precedence(lex), token)
  {
    var p := Precedence(lex);
    var generic := [Category(lex.generic, GenericWeight)];
    var bodyParts := [Category(lex.bodyParts, BodyPartWeight)] + generic;
    var medicalTerms := [Category(lex.medicalTerms, MedicalTermWeight)] + bodyParts;
    var symptoms := [Category(lex.symptoms, SymptomWeight)] + medicalTerms;
    assert p == [Category(lex.diseases, DiseaseWeight)] + symptoms;
    assert p[1..] == symptoms && symptoms[1..] == medicalTerms;
    assert medicalTerms[1..] == bodyParts && bodyParts[1..] == generic && generic[1..] == [];
    assert FirstMatchWeight(generic, token) == if token in lex.generic then GenericWeight else 0;
    assert FirstMatchWeight(bodyParts, token)
        == if token in lex.bodyParts then BodyPartWeight else FirstMatchWeight(generic, token);
    assert FirstMatchWeight(medicalTerms, token)
        == if token in lex.medicalTerms then MedicalTermWeight else FirstMatchWeight(bodyParts, token);
    assert FirstMatchWeight(symptoms, token)
        == if token in lex.symptoms then SymptomWeight else FirstMatchWeight(medicalTerms, token);
  }

  /** The distinct `\w+` tokens of the normalised question. */
  function Tokenize(qn: string): set<string> {
    set t | t in Runs(qn, IsWordChar)
  }

  /** Score of the token stage: one weight per distinct token. */
  ghost function TokenScore(lex: Lexicon, qn: string): int {
    SetSum(Tokenize(qn), t => TokenWeight(lex, t))
  }

  // ----- the whole score and the routing decision -----

  ghost function Score(lex: Lexicon, qn: string): int {
    PhraseScore(lex, qn) + TokenScore(lex, qn)
  }

  /** The question lower-cased, then passed through the transliteration `normalize`; a missing question is "". */
  function Normalized(question: Option<string>, normalize: string -> string): string {
    normalize(Lower(question.GetOr("")))
  }

  /** The routing decision for a score. */
  function Decide(score: int): (tool: string)
    ensures tool == RetrieverTool || tool == LlmTool
    ensures tool == RetrieverTool <==> score >= ScoreThreshold
  {
    if score >= ScoreThreshold then RetrieverTool else LlmTool
  }

  /** The state after the planner: `current_tool` decided, `retry_count` defaulted to 0. */
  ghost function PlannerSpec(lex: Lexicon, st: AgentState, normalize: string -> string): AgentState {
    st.(currentTool := Some(Decide(Score(lex, Normalized(st.question, normalize)))),
        retryCount := Some(st.retryCount.GetOr(0)))
  }

  /** `match_phrase(phrases, weight)`: adds `weight` to the running score for each phrase that occurs. */
  method MatchPhrase(phrases: set<string>, weight: int, qn: string, score: int) returns (score': int)
    ensures score' == score + SetSum(phrases, PhraseGain(qn, weight))
  {
    score' := score;
    var rest := phrases;
    while rest != {}
      invariant rest <= phrases
      invariant score' + SetSum(rest, PhraseGain(qn, weight)) == score + SetSum(phrases, PhraseGain(qn, weight))
      decreases rest
    {
      var p :| p in rest;
      if ' ' in p && IsSubstring(p, qn) {
        score' := score' + weight;
      }
      SetSumRemove(rest, p, PhraseGain(qn, weight));
      rest := rest - {p};
    }
  }

  /** The body of `PlannerAgent`, over the keyword sets `lex`. */
  method PlanWith(lex: Lexicon, st: AgentState, normalize: string -> string) returns (st': AgentState)
    ensures st' == PlannerSpec(lex, st, normalize)
  {
    var question := Lower(st.question.GetOr(""));
    var qn := normalize(question);
    var tokens := set t | t in Runs(qn, IsWordChar);
    var score := 0;
    score := MatchPhrase(lex.symptoms, SymptomWeight, qn, score);
    score := MatchPhrase(lex.diseases, DiseaseWeight, qn, score);
    score := MatchPhrase(lex.medicalTerms, MedicalTermWeight, qn, score);
    ghost var weight := t => TokenWeight(lex, t);
    var rest := tokens;
    while rest != {}
      invariant rest <= tokens
      invariant score + SetSum(rest, weight) == PhraseScore(lex, qn) + SetSum(tokens, weight)
      decreases rest
    {
      var token :| token in rest;
      if token in lex.diseases {
        score := score + DiseaseWeight;
      } else if token in lex.symptoms {
        score := score + SymptomWeight;
      } else if token in lex.medicalTerms {
        score := score + MedicalTermWeight;
      } else if token in lex.bodyParts {
        score := score + BodyPartWeight;
      } else if token in lex.generic {
        score := score + GenericWeight;
      }
      SetSumRemove(rest, token, weight);
      rest := rest - {token};
    }
    st' := st.(currentTool := Some(if score >= ScoreThreshold then RetrieverTool else LlmTool));
    if st'.retryCount.None? {
      st' := st'.(retryCount := Some(0));
    }
  }

  /** `PlannerAgent(state)`, with the planner's own keyword sets. */
  method Plan(st: AgentState, normalize: string -> string) returns (st': AgentState)
    ensures st' == PlannerSpec(Keywords, st, normalize)
  {
    st' := PlanWith(Keywords, st, normalize);
  }

  // ----- properties of the planner -----

  /**
   * The planner always picks one of the two tools, the retriever exactly
   * when the score reaches the threshold; `retry_count` keeps a value it
   * already has and is otherwise 0; nothing else in the state changes.
   */
  lemma PlannerContract(lex: Lexicon, st: AgentState, normalize: string -> string)
    ensures var r := PlannerSpec(lex, st, normalize);
      && (r.currentTool == Some(RetrieverTool) || r.currentTool == Some(LlmTool))
      && (r.currentTool == Some(RetrieverTool) <==> Score(lex, Normalized(st.question, normalize)) >= ScoreThreshold)
      && (st.retryCount.Some? ==> r.retryCount == st.retryCount)
      && (st.retryCount.None? ==> r.retryCount == Some(0))
      && r.(currentTool := st.currentTool, retryCount := st.retryCount) == st
  {
  }

  /** Scores are never negative. */
  lemma ScoreNonNegative(lex: Lexicon, qn: string)
    ensures Score(lex, qn) >= 0
  {
    PhraseScoreCounts(lex, qn);
    SetSumNonNegative(Tokenize(qn), t => TokenWeight(lex, t));
  }

  /** A question in which no phrase occurs and no token is a keyword scores 0 and goes to the LLM agent. */
  lemma NoKeywordScoresZero(lex: Lexicon, qn: string)
    requires forall p :: p in lex.symptoms + lex.diseases + lex.medicalTerms ==> !PhraseHit(qn, p)
    requires forall t :: t in Tokenize(qn) ==> TokenWeight(lex, t) == 0
    ensures Score(lex, qn) == 0 && Decide(Score(lex, qn)) == LlmTool
  {
    SetSumOfZeros(lex.symptoms, PhraseGain(qn, SymptomWeight));
    SetSumOfZeros(lex.diseases, PhraseGain(qn, DiseaseWeight));
    SetSumOfZeros(lex.medicalTerms, PhraseGain(qn, MedicalTermWeight));
    SetSumOfZeros(Tokenize(qn), t => TokenWeight(lex, t));
  }

  /** Matching ignores letter case: the question is lower-cased before anything is matched. */
  lemma PlannerIgnoresCase(lex: Lexicon, st: AgentState, q: string, normalize: string -> string)
    ensures PlannerSpec(lex, st.(question := Some(q)), normalize)
         == PlannerSpec(lex, st.(question := Some(Lower(q))), normalize).(question := Some(q))
    ensures Normalized(None, normalize) == Normalized(Some(""), normalize)
  {
    LowerIdempotent(q);
  }

  /** The two-word generic keywords lie outside the three phrase-scored sets, so the phrase stage never scores them. */
  lemma MultiWordGenericNotPhraseScored()
    ensures "suc khoe" in Keywords.generic && "bac si" in Keywords.generic
    ensures "suc khoe" !in Keywords.symptoms && "bac si" !in Keywords.symptoms
    ensures "suc khoe" !in Keywords.diseases && "bac si" !in Keywords.diseases
    ensures "suc khoe" !in Keywords.medicalTerms && "bac si" !in Keywords.medicalTerms
  {
  }

  /** Token weights used by the worked examples: "nao" (brain) is a body part, "sot" (fever) a symptom, "gi" nothing. */
  lemma SampleTokenWeights()
    ensures TokenWeight(Keywords, "nao") == BodyPartWeight
    ensures TokenWeight(Keywords, "sot") == SymptomWeight
    ensures TokenWeight(Keywords, "gi") == 0
  {
  }
}
