/**
 * The offline evaluation of the chatbot: the keyword accuracy of one
 * answer, the classification of each answer, and the aggregate metrics
 * over a list of test questions.
 */
module Evaluation {
  import opened Wrappers
  import opened StringOps

  // ----- accuracy of one answer -----

  /** How many of `keywords` (repetitions included) occur in `text`. */
  function CountMatched(text: string, keywords: seq<string>): (n: nat)
    ensures n <= |keywords|
    decreases |keywords|
  {
    if keywords == [] then 0
    else (if IsSubstring(keywords[0], text) then 1 else 0) + CountMatched(text, keywords[1..])
  }

  /** `calculate_accuracy`: the percentage of keywords found in the lower-cased response. */
  function CalculateAccuracy(response: string, keywords: seq<string>): (acc: real)
    ensures response == [] || keywords == [] ==> acc == 0.0
  {
    if response == [] || keywords == [] then 0.0
    else (CountMatched(Lower(response), keywords) as real) / (|keywords| as real) * 100.0
  }

  lemma {:induction false} CountMatchedAll(text: string, keywords: seq<string>)
    ensures CountMatched(text, keywords) == |keywords| <==>
            forall i :: 0 <= i < |keywords| ==> IsSubstring(keywords[i], text)
    decreases |keywords|
  {
    if keywords != [] {
      var rest := keywords[1..];
      CountMatchedAll(text, rest);
      assert forall i :: 0 <= i < |rest| ==> rest[i] == keywords[i + 1];
      if CountMatched(text, keywords) == |keywords| {
        assert IsSubstring(keywords[0], text) && CountMatched(text, rest) == |rest|;
        forall i | 0 <= i < |keywords| ensures IsSubstring(keywords[i], text) {
          if i > 0 { assert keywords[i] == rest[i - 1]; }
        }
      }
      if forall i :: 0 <= i < |keywords| ==> IsSubstring(keywords[i], text) {
        assert IsSubstring(keywords[0], text);
        forall i | 0 <= i < |rest| ensures IsSubstring(rest[i], text) {
          assert rest[i] == keywords[i + 1];
        }
      }
    }
  }

  /** Keyword lists are counted with their repetitions: the count is additive over concatenation. */
  lemma {:induction false} CountMatchedAppend(text: string, a: seq<string>, b: seq<string>)
    ensures CountMatched(text, a + b) == CountMatched(text, a) + CountMatched(text, b)
    decreases |a|
  {
    if a != [] {
      assert (a + b)[1..] == a[1..] + b;
      CountMatchedAppend(text, a[1..], b);
    } else {
      assert a + b == b;
    }
  }

  lemma PositiveFactor(a: real, b: real)
    requires b > 0.0 && a * b >= 0.0
    ensures a >= 0.0
  {
  }

  lemma ZeroFactor(a: real, b: real)
    requires b > 0.0 && a * b == 0.0
    ensures a == 0.0
  {
  }

  /** A quotient of a non-negative number by a larger positive one lies in [0, 1], and is 1 only for equal ones. */
  lemma Fraction(x: real, y: real)
    requires 0.0 <= x <= y && 0.0 < y
    ensures 0.0 <= x / y <= 1.0
    ensures x / y == 1.0 <==> x == y
  {
    var z := x / y;
    assert z * y == x;
    assert (1.0 - z) * y == y - x;
    PositiveFactor(z, y);
    PositiveFactor(1.0 - z, y);
    if x == y {
      assert (z - 1.0) * y == 0.0;
      ZeroFactor(z - 1.0, y);
    }
  }

  lemma RatioBounds(m: nat, n: nat)
    requires 0 < n && m <= n
    ensures 0.0 <= (m as real) / (n as real) * 100.0 <= 100.0
    ensures (m as real) / (n as real) * 100.0 == 100.0 <==> m == n
  {
    Fraction(m as real, n as real);
  }

  /**
   * The accuracy is 0 for an empty response or keyword list, lies between 0
   * and 100, and is 100 exactly when every keyword occurs in the
   * lower-cased response.
   */
  lemma AccuracyRange(response: string, keywords: seq<string>)
    ensures response == [] || keywords == [] ==> CalculateAccuracy(response, keywords) == 0.0
    ensures 0.0 <= CalculateAccuracy(response, keywords) <= 100.0
    ensures CalculateAccuracy(response, keywords) == 100.0 <==>
      response != [] && keywords != [] && forall i :: 0 <= i < |keywords| ==> IsSubstring(keywords[i], Lower(response))
  {
    if response != [] && keywords != [] {
      RatioBounds(CountMatched(Lower(response), keywords), |keywords|);
      CountMatchedAll(Lower(response), keywords);
    }
  }

  /** Keywords are not lower-cased: one holding an ASCII capital never occurs in the lower-cased response. */
  lemma CapitalizedKeywordNeverMatches(response: string, keyword: string, c: char)
    requires c in keyword && 'A' <= c <= 'Z'
    ensures !IsSubstring(keyword, Lower(response))
  {
    var text := Lower(response);
    if IsSubstring(keyword, text) {
      SubstringChars(keyword, text, c);
      assert false;
    }
  }

  /** Hence a keyword list holding a capitalized keyword never scores 100. */
  lemma CapitalizedKeywordCapsAccuracy(response: string, keywords: seq<string>, k: nat, c: char)
    requires k < |keywords| && c in keywords[k] && 'A' <= c <= 'Z'
    ensures CalculateAccuracy(response, keywords) < 100.0
  {
    CapitalizedKeywordNeverMatches(response, keywords[k], c);
    AccuracyRange(response, keywords);
  }

  // ----- classification of one answer -----

  /** A response longer than 20 characters counts as a success. */
  const SuccessLength := 20

  const DisclaimerKeywords: seq<string> := ["tham khảo", "bác sĩ", "chuyên gia", "y tế"]
  const UnsureAdmissions: seq<string> := ["tôi không biết", "không chắc"]
  /** Sources that do not count as an attribution. */
  const UnattributedSources: seq<string> := ["unknown", "error", "System Message"]

  predicate IsSuccess(response: string) {
    |response| > SuccessLength
  }

  /** Some disclaimer keyword occurs in the lower-cased response. */
  predicate HasDisclaimer(response: string) {
    exists i :: 0 <= i < |DisclaimerKeywords| && IsSubstring(DisclaimerKeywords[i], Lower(response))
  }

  /** No admission of not knowing occurs in the lower-cased response. */
  predicate IsComplete(response: string) {
    forall i :: 0 <= i < |UnsureAdmissions| ==> !IsSubstring(UnsureAdmissions[i], Lower(response))
  }

  predicate HasSource(source: string) {
    source !in UnattributedSources
  }

  /** `len(response.split())`. */
  function WordCount(response: string): nat {
    |Runs(response, c => !IsWhitespace(c))|
  }

  // ----- one test question -----

  datatype TestCase = TestCase(question: string, keywords: seq<string>)

  /** What invoking the graph on a test question gave: the final state's answer fields, or an exception. */
  datatype Outcome = Returned(generation: Option<string>, source: Option<string>) | Raised(message: string)

  /** One entry of `results`. */
  datatype EvalRecord = EvalRecord(
    question: string,
    keywords: seq<string>,
    response: string,
    source: string,
    accuracy: real,
    success: bool,
    error: Option<string>)

  function Response(o: Outcome): string {
    if o.Returned? then o.generation.GetOr("") else ""
  }

  function Record(c: TestCase, o: Outcome): (r: EvalRecord)
    ensures r.question == c.question && r.keywords == c.keywords
    ensures r.success <==> o.Returned? && |o.generation.GetOr("")| > SuccessLength
    ensures o.Raised? ==> r.response == "" && r.source == "error" && r.accuracy == 0.0 && r.error == Some(o.message)
    ensures o.Returned? ==> r.source == o.source.GetOr("unknown") && r.error.None?
  {
    match o
    case Raised(message) => EvalRecord(c.question, c.keywords, "", "error", 0.0, false, Some(message))
    case Returned(generation, source) =>
      var response := generation.GetOr("");
      EvalRecord(c.question, c.keywords, response, source.GetOr("unknown"),
                 CalculateAccuracy(response, c.keywords), IsSuccess(response), None)
  }

  // ----- the aggregate -----

  /** The counters of the evaluation loop. */
  datatype Tally = Tally(
    successes: nat, words: nat, accuracy: real,
    disclaimers: nat, complete: nat, sourced: nat)

  /** The counters after one more question; a question whose run raised adds nothing. */
  function AddOutcome(t: Tally, c: TestCase, o: Outcome): Tally {
    match o
    case Raised(_) => t
    case Returned(generation, source) =>
      var response := generation.GetOr("");
      Tally(
        t.successes + (if IsSuccess(response) then 1 else 0),
        t.words + WordCount(response),
        t.accuracy + CalculateAccuracy(response, c.keywords),
        t.disclaimers + (if HasDisclaimer(response) then 1 else 0),
        t.complete + (if IsComplete(response) then 1 else 0),
        t.sourced + (if HasSource(source.GetOr("unknown")) then 1 else 0))
  }

  function TallyOf(cases: seq<TestCase>, outcomes: seq<Outcome>): Tally
    requires |cases| == |outcomes|
    decreases |cases|
  {
    if cases == [] then Tally(0, 0, 0.0, 0, 0, 0)
    else
      var n := |cases| - 1;
      AddOutcome(TallyOf(cases[..n], outcomes[..n]), cases[n], outcomes[n])
  }

  datatype Metrics = Metrics(
    successRate: real, avgAccuracy: real, avgWordCount: real,
    disclaimerRate: real, completenessRate: real, sourceAttribution: real,
    qualityScore: real)

  /** A count as a percentage of the questions. */
  function Rate(count: nat, total: nat): real
    requires total > 0
  {
    (count as real) / (total as real) * 100.0
  }

  function MetricsOf(t: Tally, total: nat): Metrics
    requires total > 0
  {
    var avgAccuracy := t.accuracy / (total as real);
    var disclaimerRate := Rate(t.disclaimers, total);
    var completenessRate := Rate(t.complete, total);
    var sourceRate := Rate(t.sourced, total);
    Metrics(
      Rate(t.successes, total),
      avgAccuracy,
      if t.successes > 0 then (t.words as real) / (total as real) else 0.0,
      disclaimerRate, completenessRate, sourceRate,
      avgAccuracy * 0.4 + disclaimerRate * 0.2 + completenessRate * 0.2 + sourceRate * 0.2)
  }

  /** Each counter counts at most one per question, and the accuracies sum to at most 100 per question. */
  lemma {:induction false} TallyBounds(cases: seq<TestCase>, outcomes: seq<Outcome>)
    requires |cases| == |outcomes|
    ensures var t := TallyOf(cases, outcomes);
      && t.successes <= |cases| && t.disclaimers <= |cases|
      && t.complete <= |cases| && t.sourced <= |cases|
      && 0.0 <= t.accuracy <= 100.0 * (|cases| as real)
    decreases |cases|
  {
    if cases != [] {
      var n := |cases| - 1;
      TallyBounds(cases[..n], outcomes[..n]);
      AccuracyRange(Response(outcomes[n]), cases[n].keywords);
    }
  }

  lemma RateBounds(count: nat, total: nat)
    requires 0 < total && count <= total
    ensures 0.0 <= Rate(count, total) <= 100.0
  {
    Fraction(count as real, total as real);
  }

  lemma AverageBounds(sum: real, total: nat)
    requires 0 < total && 0.0 <= sum <= 100.0 * (total as real)
    ensures 0.0 <= sum / (total as real) <= 100.0
  {
    var y := total as real;
    var z := sum / y;
    assert z * y == sum;
    assert (100.0 - z) * y == 100.0 * y - sum;
    PositiveFactor(z, y);
    PositiveFactor(100.0 - z, y);
  }

  /** The rates and the quality score of an evaluation all lie between 0 and 100. */
  lemma MetricsInRange(cases: seq<TestCase>, outcomes: seq<Outcome>)
    requires |cases| > 0 && |cases| == |outcomes|
    ensures var m := MetricsOf(TallyOf(cases, outcomes), |cases|);
      && 0.0 <= m.successRate <= 100.0
      && 0.0 <= m.avgAccuracy <= 100.0
      && 0.0 <= m.disclaimerRate <= 100.0
      && 0.0 <= m.completenessRate <= 100.0
      && 0.0 <= m.sourceAttribution <= 100.0
      && 0.0 <= m.qualityScore <= 100.0
  {
    var t := TallyOf(cases, outcomes);
    var n := |cases|;
    TallyBounds(cases, outcomes);
    RateBounds(t.successes, n);
    RateBounds(t.disclaimers, n);
    RateBounds(t.complete, n);
    RateBounds(t.sourced, n);
    AverageBounds(t.accuracy, n);
  }

  /** The number of records marked as a success. */
  function Successes(records: seq<EvalRecord>): nat
    decreases |records|
  {
    if records == [] then 0
    else Successes(records[..|records| - 1]) + (if records[|records| - 1].success then 1 else 0)
  }

  /** The sum of the records' accuracies. */
  function AccuracySum(records: seq<EvalRecord>): real
    decreases |records|
  {
    if records == [] then 0.0
    else AccuracySum(records[..|records| - 1]) + records[|records| - 1].accuracy
  }

  /**
   * The counters agree with the records: the success count is the number of
   * records marked as a success, and the accuracy total is the sum of the
   * records' accuracies (a raised question's record has accuracy 0).
   */
  lemma {:induction false} TallyAgreesWithRecords(cases: seq<TestCase>, outcomes: seq<Outcome>, results: seq<EvalRecord>)
    requires |cases| == |outcomes| == |results|
    requires forall k :: 0 <= k < |cases| ==> results[k] == Record(cases[k], outcomes[k])
    ensures TallyOf(cases, outcomes).successes == Successes(results)
    ensures TallyOf(cases, outcomes).accuracy == AccuracySum(results)
    decreases |cases|
  {
    if cases != [] {
      var n := |cases| - 1;
      var rs := results[..n];
      assert forall k :: 0 <= k < n ==> rs[k] == Record(cases[..n][k], outcomes[..n][k]);
      TallyAgreesWithRecords(cases[..n], outcomes[..n], rs);
      assert results[n] == Record(cases[n], outcomes[n]);
    }
  }

  /** The body of the evaluation loop: one question's counters and record. */
  method TallyQuestion(t: Tally, q: TestCase, o: Outcome) returns (t': Tally, record: EvalRecord)
    ensures t' == AddOutcome(t, q, o) && record == Record(q, o)
  {
    var successCount, totalWords, totalAccuracy := t.successes, t.words, t.accuracy;
    var hasDisclaimer, isComplete, hasSource := t.disclaimers, t.complete, t.sourced;
    match o {
      case Returned(generation, src) =>
        var response := generation.GetOr("");
        var source := src.GetOr("unknown");
        var accuracy := CalculateAccuracy(response, q.keywords);
        totalAccuracy := totalAccuracy + accuracy;
        if response != [] && |response| > SuccessLength {
          successCount := successCount + 1;
        }
        totalWords := totalWords + (if response != [] then WordCount(response) else 0);
        if HasDisclaimer(response) {
          hasDisclaimer := hasDisclaimer + 1;
        }
        if IsComplete(response) {
          isComplete := isComplete + 1;
        }
        if HasSource(source) {
          hasSource := hasSource + 1;
        }
        record := EvalRecord(q.question, q.keywords, response, source, accuracy, IsSuccess(response), None);
      case Raised(message) =>
        record := EvalRecord(q.question, q.keywords, "", "error", 0.0, false, Some(message));
    }
    t' := Tally(successCount, totalWords, totalAccuracy, hasDisclaimer, isComplete, hasSource);
  }

  /** `evaluate_medical_ai(app, questions)`, with the graph's outcome for each question given; no questions divides by zero. */
  method Evaluate(cases: seq<TestCase>, outcomes: seq<Outcome>) returns (metrics: Metrics, results: seq<EvalRecord>)
    requires |cases| > 0 && |outcomes| == |cases|
    ensures metrics == MetricsOf(TallyOf(cases, outcomes), |cases|)
    ensures |results| == |cases|
    ensures forall k :: 0 <= k < |cases| ==> results[k] == Record(cases[k], outcomes[k])
  {
    var total := |cases|;
    var tally := Tally(0, 0, 0.0, 0, 0, 0);
    results := [];
    var i := 0;
    while i < total
      invariant 0 <= i <= total
      invariant tally == TallyOf(cases[..i], outcomes[..i])
      invariant |results| == i
      invariant forall k :: 0 <= k < i ==> results[k] == Record(cases[k], outcomes[k])
    {
      assert cases[..i + 1][..i] == cases[..i];
      assert outcomes[..i + 1][..i] == outcomes[..i];
      var record;
      tally, record := TallyQuestion(tally, cases[i], outcomes[i]);
      results := results + [record];
      i := i + 1;
    }
    assert cases[..i] == cases && outcomes[..i] == outcomes;
    var successRate := (tally.successes as real) / (total as real) * 100.0;
    var avgWords := if tally.successes > 0 then (tally.words as real) / (total as real) else 0.0;
    var avgAccuracy := tally.accuracy / (total as real);
    var disclaimerRate := (tally.disclaimers as real) / (total as real) * 100.0;
    var completenessRate := (tally.complete as real) / (total as real) * 100.0;
    var sourceRate := (tally.sourced as real) / (total as real) * 100.0;
    var qualityScore := avgAccuracy * 0.4 + disclaimerRate * 0.2 + completenessRate * 0.2 + sourceRate * 0.2;
    metrics := Metrics(successRate, avgAccuracy, avgWords, disclaimerRate, completenessRate, sourceRate, qualityScore);
  }
}
