/** The assessment server that scores each answer with a local five-class text
    classifier (`assess_depression` and `DepressionDetector.predict_depression_level`
    in backend.py).

    Tokenisation, the forward pass and the softmax are abstracted into a
    `Classifier`: a function from the analysed text to the five class
    probabilities, or to the message of the exception it raised. */
module ClassifierBackend {
  import opened Common

  /** `num_labels`: the classifier's number of severity classes. */
  const NUM_LABELS: nat := 5

  type Probabilities = p: seq<real> | |p| == NUM_LABELS witness [0.0, 0.0, 0.0, 0.0, 0.0]

  type Classifier = string -> Result<Probabilities, string>

  /** `user_type` is never read by this server. */
  datatype Request = Request(responses: Option<seq<JsonObject>>)

  datatype StudentResponse = StudentResponse(questionNumber: Value, questionText: Value, responseText: Value)

  function RawItems(req: Request): seq<JsonObject>
  {
    if req.responses.Some? then req.responses.value else []
  }

  /** The request items with every missing field defaulted; the answer is read
      from the key `response_text`. */
  function Normalise(req: Request): (items: seq<StudentResponse>)
    ensures req.responses.None? ==> items == []
    ensures |items| == |RawItems(req)|
  {
    var raw := RawItems(req);
    seq(|raw|, i requires 0 <= i < |raw| =>
      StudentResponse(
        Get(raw[i], "question_number", Num(0)),
        Get(raw[i], "question_text", Text("")),
        Get(raw[i], "response_text", Text(""))))
  }

  /** Item by item, a field present in the request is copied and a missing one
      takes its default: number 0, empty question, empty answer. */
  lemma NormaliseDefaults(req: Request)
    ensures
      var raw, items := RawItems(req), Normalise(req);
      forall i :: 0 <= i < |items| ==>
        && Defaulted(raw[i], "question_number", Num(0), items[i].questionNumber)
        && Defaulted(raw[i], "question_text", Text(""), items[i].questionText)
        && Defaulted(raw[i], "response_text", Text(""), items[i].responseText)
  {
  }

  /** The text handed to the classifier for one item. */
  function AnalysisText(r: StudentResponse): string
  {
    "Question: " + Render(r.questionText) + " Answer: " + Render(r.responseText)
  }

  /** `argmax`: the index of the first largest entry. */
  function Argmax(p: seq<real>): (k: nat)
    requires |p| > 0
    ensures k < |p|
    ensures forall j :: 0 <= j < |p| ==> p[j] <= p[k]
    ensures forall j :: 0 <= j < k ==> p[j] < p[k]
  {
    if |p| == 1 then 0
    else
      var k := Argmax(p[..|p| - 1]);
      if p[|p| - 1] > p[k] then |p| - 1 else k
  }

  datatype Prediction = Prediction(depressionScore: int, confidence: real)

  /** The most probable class on a 1-based scale, with its probability as a
      percentage. */
  function PredictDepressionLevel(p: Probabilities): (r: Prediction)
    ensures 1 <= r.depressionScore <= NUM_LABELS
    ensures r.confidence == p[r.depressionScore - 1] * 100.0
  {
    var k := Argmax(p);
    Prediction(k + 1, p[k] * 100.0)
  }

  /** The reported class is the first most probable one. */
  lemma PredictionIsMostLikely(p: Probabilities)
    ensures
      var k := PredictDepressionLevel(p).depressionScore - 1;
      && (forall j :: 0 <= j < NUM_LABELS ==> p[j] <= p[k])
      && (forall j :: 0 <= j < k ==> p[j] < p[k])
  {
  }

  datatype ScoredResponse = ScoredResponse(
    questionNumber: Value,
    questionText: Value,
    responseText: Value,
    depressionScore: int,
    confidence: real)

  function Scored(r: StudentResponse, p: Prediction): ScoredResponse
  {
    ScoredResponse(r.questionNumber, r.questionText, r.responseText, p.depressionScore, p.confidence)
  }

  /** `total_score`, accumulated from the first item on. */
  function TotalScore(rs: seq<ScoredResponse>): int
  {
    if |rs| == 0 then 0 else TotalScore(rs[..|rs| - 1]) + rs[|rs| - 1].depressionScore
  }

  /** `avg_score`: the mean of `count` scores summing to `total`, 0 without items. */
  function Average(total: int, count: nat): (avg: real)
    ensures count == 0 ==> avg == 0.0
    ensures count > 0 ==> avg * (count as real) == total as real
  {
    if count > 0 then (total as real) / (count as real) else 0.0
  }

  datatype Risk = MinimalRisk | LowRisk | ModerateRisk | HighRisk

  /** The risk band of an average; every threshold is inclusive. */
  function RiskOf(avg: real): (r: Risk)
    ensures r == HighRisk <==> avg >= 4.0
    ensures r == ModerateRisk <==> 3.0 <= avg < 4.0
    ensures r == LowRisk <==> 2.0 <= avg < 3.0
    ensures r == MinimalRisk <==> avg < 2.0
  {
    if avg >= 4.0 then HighRisk
    else if avg >= 3.0 then ModerateRisk
    else if avg >= 2.0 then LowRisk
    else MinimalRisk
  }

  /** `risk_level`. */
  function RiskLabel(r: Risk): string
  {
    match r
    case HighRisk => "High Risk"
    case ModerateRisk => "Moderate Risk"
    case LowRisk => "Low Risk"
    case MinimalRisk => "Minimal Risk"
  }

  /** The JSON body on success. `averageScore` is the unrounded average; the body
      reports it rounded to two decimals as `overall_depression_score`. */
  datatype AssessmentResult = AssessmentResult(
    responses: seq<ScoredResponse>,
    averageScore: real,
    riskLevel: string)

  /** The keys of that body. */
  const RESULT_KEYS: set<string> := {"responses", "overall_depression_score", "risk_level"}

  /** Success, or the `{error: message}` body sent with status 500. */
  datatype Outcome = Assessed(result: AssessmentResult) | ErrorResponse(message: string)

  /** One pass of the handler's loop: classify the item's analysis text and
      build its entry, or the message of the exception the classifier raised. */
  function ScoreItem(item: StudentResponse, classify: Classifier): (r: Result<ScoredResponse, string>)
    ensures r.Failure? <==> classify(AnalysisText(item)).Failure?
    ensures r.Failure? ==> r.error == classify(AnalysisText(item)).error
    ensures r.Success? ==>
      var p := PredictDepressionLevel(classify(AnalysisText(item)).value);
      && r.value.questionNumber == item.questionNumber
      && r.value.questionText == item.questionText
      && r.value.responseText == item.responseText
      && r.value.depressionScore == p.depressionScore
      && r.value.confidence == p.confidence
  {
    match classify(AnalysisText(item))
    case Failure(message) => Failure(message)
    case Success(p) => Success(Scored(item, PredictDepressionLevel(p)))
  }

  /** The outcome of `ScoreItem` for every item, in order. */
  function ItemResults(items: seq<StudentResponse>, classify: Classifier): (rs: seq<Result<ScoredResponse, string>>)
    ensures |rs| == |items|
  {
    if |items| == 0 then []
    else ItemResults(items[..|items| - 1], classify) + [ScoreItem(items[|items| - 1], classify)]
  }

  lemma {:induction false} ItemResultsAt(items: seq<StudentResponse>, classify: Classifier)
    ensures forall i :: 0 <= i < |items| ==> ItemResults(items, classify)[i] == ScoreItem(items[i], classify)
  {
    if |items| > 0 {
      var init := items[..|items| - 1];
      ItemResultsAt(init, classify);
      forall i | 0 <= i < |items| ensures ItemResults(items, classify)[i] == ScoreItem(items[i], classify) {
        if i < |init| {
          assert items[i] == init[i];
        }
      }
    }
  }

  /** The entries of outcomes that all succeeded. The `ensures` is an
      index-level fact for the solver, not a property of the source. */
  function Values(rs: seq<Result<ScoredResponse, string>>): (out: seq<ScoredResponse>)
    requires forall i :: 0 <= i < |rs| ==> rs[i].Success?
    ensures |out| == |rs|
    ensures forall i :: 0 <= i < |rs| ==> out[i] == rs[i].value
  {
    seq(|rs|, i requires 0 <= i < |rs| => rs[i].value)
  }

  /** What the handler's loop answers for the defaulted items, given the
      classifier. */
  function AssessItems(items: seq<StudentResponse>, classify: Classifier): Outcome
  {
    var rs := ItemResults(items, classify);
    var k := FirstFailure(rs);
    if k < |rs| then
      ErrorResponse(rs[k].error)
    else
      var responses := Values(rs);
      var avg := Average(TotalScore(responses), |responses|);
      Assessed(AssessmentResult(responses, avg, RiskLabel(RiskOf(avg))))
  }

  /** What the handler answers for a request, given the classifier. */
  function Assess(req: Request, classify: Classifier): Outcome
  {
    AssessItems(Normalise(req), classify)
  }

  /** The handler answers with an error exactly when classifying some item
      raised, and the message is that of the first such item: no partial result
      is returned. */
  lemma {:induction false} AssessFails(req: Request, classify: Classifier)
    ensures
      var items := Normalise(req);
      Assess(req, classify).ErrorResponse? <==>
        exists i :: 0 <= i < |items| && classify(AnalysisText(items[i])).Failure?
    ensures
      var items, out := Normalise(req), Assess(req, classify);
      out.ErrorResponse? ==>
        exists i :: 0 <= i < |items| && classify(AnalysisText(items[i])) == Failure(out.message) &&
          forall j :: 0 <= j < i ==> classify(AnalysisText(items[j])).Success?
  {
    var items := Normalise(req);
    var rs := ItemResults(items, classify);
    ItemResultsAt(items, classify);
    var k := FirstFailure(rs);
    if k < |rs| {
      assert classify(AnalysisText(items[k])) == Failure(Assess(req, classify).message);
    } else {
      assert forall i :: 0 <= i < |items| ==> rs[i].Success?;
    }
  }

  /** On success there is one entry per input item, in input order: the
      successful `ScoreItem` of that item (its fields, and the prediction for its
      analysis text); the average is over those scores and the risk level is the
      unrounded average's band. */
  lemma {:induction false} AssessResponses(req: Request, classify: Classifier)
    requires Assess(req, classify).Assessed?
    ensures
      var result, items := Assess(req, classify).result, Normalise(req);
      && |result.responses| == |items|
      && (forall i :: 0 <= i < |items| ==> ScoreItem(items[i], classify) == Success(result.responses[i]))
      && result.averageScore == Average(TotalScore(result.responses), |result.responses|)
      && result.riskLevel == RiskLabel(RiskOf(result.averageScore))
  {
    var items := Normalise(req);
    var rs := ItemResults(items, classify);
    ItemResultsAt(items, classify);
    FirstFailureAtEnd(rs);
  }

  lemma {:induction false} AssessStopsAt(items: seq<StudentResponse>, classify: Classifier, i: nat)
    requires i < |items|
    requires forall j :: 0 <= j < i ==> ItemResults(items, classify)[j].Success?
    requires ItemResults(items, classify)[i].Failure?
    ensures AssessItems(items, classify) == ErrorResponse(ItemResults(items, classify)[i].error)
  {
  }

  lemma {:induction false} AssessCompletes(items: seq<StudentResponse>, classify: Classifier, responses: seq<ScoredResponse>)
    requires |items| == |responses|
    requires forall j :: 0 <= j < |responses| ==>
      var rs := ItemResults(items, classify);
      rs[j].Success? && responses[j] == rs[j].value
    ensures
      var avg := Average(TotalScore(responses), |responses|);
      AssessItems(items, classify) == Assessed(AssessmentResult(responses, avg, RiskLabel(RiskOf(avg))))
  {
    var rs := ItemResults(items, classify);
    assert responses == Values(rs);
  }

  /** One pass of the handler's loop, on item `i`. */
  method ScoreAt(items: seq<StudentResponse>, classify: Classifier, i: nat) returns (r: Result<ScoredResponse, string>)
    requires i < |items|
    ensures r == ItemResults(items, classify)[i]
  {
    r := ScoreItem(items[i], classify);
    ItemResultsAt(items, classify);
  }

  /** The handler's loop: the items are classified, appended and summed in
      order; the first exception abandons the partial result. */
  method ScoreResponses(items: seq<StudentResponse>, classify: Classifier) returns (out: Outcome)
    ensures out == AssessItems(items, classify)
  {
    ghost var rs := ItemResults(items, classify);
    var responses: seq<ScoredResponse> := [];
    var totalScore := 0;
    var i := 0;
    while i < |items|
      invariant 0 <= i <= |items|
      invariant |responses| == i
      invariant forall j :: 0 <= j < i ==> rs[j].Success? && responses[j] == rs[j].value
      invariant totalScore == TotalScore(responses)
    {
      var scored := ScoreAt(items, classify, i);
      if scored.Failure? {
        AssessStopsAt(items, classify, i);
        return ErrorResponse(scored.error);
      }
      ghost var before := responses;
      responses := responses + [scored.value];
      assert responses[..i] == before;
      totalScore := totalScore + scored.value.depressionScore;
      i := i + 1;
    }
    var avg := if |items| > 0 then (totalScore as real) / (|items| as real) else 0.0;
    AssessCompletes(items, classify, responses);
    out := Assessed(AssessmentResult(responses, avg, RiskLabel(RiskOf(avg))));
  }

  /** The handler: the request's items are defaulted, then scored. */
  method AssessDepression(req: Request, classify: Classifier) returns (out: Outcome)
    ensures out == Assess(req, classify)
  {
    var items := Normalise(req);
    out := ScoreResponses(items, classify);
  }

  lemma {:induction false} TotalScoreBetween(rs: seq<ScoredResponse>)
    requires forall i :: 0 <= i < |rs| ==> 1 <= rs[i].depressionScore <= NUM_LABELS
    ensures |rs| <= TotalScore(rs) <= NUM_LABELS * |rs|
  {
    if |rs| > 0 {
      TotalScoreBetween(rs[..|rs| - 1]);
    }
  }

  /** For a non-empty request that was assessed, the average lies in [1, 5]. */
  lemma {:induction false} AverageInRange(req: Request, classify: Classifier)
    requires Assess(req, classify).Assessed?
    requires |Normalise(req)| > 0
    ensures 1.0 <= Assess(req, classify).result.averageScore <= NUM_LABELS as real
  {
    AssessResponses(req, classify);
    var rs := Assess(req, classify).result.responses;
    TotalScoreBetween(rs);
    AverageBounds(TotalScore(rs), |rs|);
  }

  lemma AverageBounds(total: int, count: nat)
    requires 0 < count <= total <= NUM_LABELS * count
    ensures 1.0 <= Average(total, count) <= NUM_LABELS as real
  {
    AtLeast(total, count, 1);
    AtMost(total, count, NUM_LABELS);
  }

  /** Scores are integers, so each threshold on the average is a threshold on
      the total: `avg >= k` exactly when `total >= k * count`. */
  lemma AtLeast(total: int, count: nat, k: int)
    requires count > 0
    ensures Average(total, count) >= k as real <==> total >= k * count
  {
    var avg := Average(total, count);
    var c := count as real;
    assert avg * c == total as real;
    if avg >= k as real {
      assert avg * c >= (k as real) * c;
    } else {
      assert avg * c < (k as real) * c;
    }
  }

  lemma AtMost(total: int, count: nat, k: int)
    requires count > 0
    ensures Average(total, count) <= k as real <==> total <= k * count
  {
    var avg := Average(total, count);
    var c := count as real;
    assert avg * c == total as real;
    if avg <= k as real {
      assert avg * c <= (k as real) * c;
    } else {
      assert avg * c > (k as real) * c;
    }
  }

  /** The risk band of a non-empty request in terms of its integer total. */
  lemma RiskFromTotal(total: int, count: nat)
    requires count > 0
    ensures RiskOf(Average(total, count)) == HighRisk <==> total >= 4 * count
    ensures RiskOf(Average(total, count)) == ModerateRisk <==> 3 * count <= total < 4 * count
    ensures RiskOf(Average(total, count)) == LowRisk <==> 2 * count <= total < 3 * count
    ensures RiskOf(Average(total, count)) == MinimalRisk <==> total < 2 * count
  {
    AtLeast(total, count, 4);
    AtLeast(total, count, 3);
    AtLeast(total, count, 2);
  }

  /** No items: no division, average 0, the lowest band. */
  lemma {:induction false} EmptyRequest(req: Request, classify: Classifier)
    requires Normalise(req) == []
    ensures Assess(req, classify) == Assessed(AssessmentResult([], 0.0, "Minimal Risk"))
  {
  }

  /** Class index 4 with probability 0.81 is reported as score 5 at 81 percent. */
  lemma TopClassExample()
    ensures PredictDepressionLevel([0.01, 0.02, 0.06, 0.10, 0.81]) == Prediction(5, 81.0)
  {
    var p: Probabilities := [0.01, 0.02, 0.06, 0.10, 0.81];
    var k := Argmax(p);
    assert p[4] == 0.81;
    assert k == 4;
  }
}
