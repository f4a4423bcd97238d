/** The assessment server that asks a chat model for a score per answer
    (`assess_depression` in back.py).

    The chat call and the JSON decoding of its reply are abstracted into one
    uninterpreted `Reply` per item, in the order the items are processed. */
module LlmBackend {
  import opened Common

  /** The request body: both top-level keys are optional. */
  datatype Request = Request(userType: Option<Value>, responses: Option<seq<JsonObject>>)

  /** The `QuestionResponse` record an input item is normalised into. */
  datatype QuestionResponse = QuestionResponse(questionNumber: Value, questionText: Value, studentResponse: Value)

  datatype Normalised = Normalised(userType: Value, items: seq<QuestionResponse>)

  /** `data.get('responses', [])`. */
  function RawItems(req: Request): seq<JsonObject>
  {
    if req.responses.Some? then req.responses.value else []
  }

  /** The request with every missing field replaced by its default. */
  function Normalise(req: Request): (n: Normalised)
    ensures req.userType.None? ==> n.userType == Text("Student")
    ensures req.userType.Some? ==> n.userType == req.userType.value
    ensures req.responses.None? ==> n.items == []
    ensures |n.items| == |RawItems(req)|
  {
    var raw := RawItems(req);
    Normalised(
      if req.userType.Some? then req.userType.value else Text("Student"),
      seq(|raw|, i requires 0 <= i < |raw| =>
        QuestionResponse(
          Get(raw[i], "question_number", Num(0)),
          Get(raw[i], "question_text", Text("")),
          Get(raw[i], "student_response", Text("")))))
  }

  /** Item by item, a field present in the request is copied and a missing one
      takes its default: number 0, empty question, empty answer. */
  lemma NormaliseDefaults(req: Request)
    ensures
      var raw, items := RawItems(req), Normalise(req).items;
      forall i :: 0 <= i < |items| ==>
        && Defaulted(raw[i], "question_number", Num(0), items[i].questionNumber)
        && Defaulted(raw[i], "question_text", Text(""), items[i].questionText)
        && Defaulted(raw[i], "student_response", Text(""), items[i].studentResponse)
  {
  }

  /** What `float(...)` makes of the `depression_score` field of a decoded reply. */
  datatype ScoreField = Numeric(value: real) | NonNumeric

  /** One chat call and the decoding of its answer, as the handler meets them.
      `NoContent`: the call raised, or its answer has no `message.content`; the
      handler reads that field for its log line before the `try` opens, so the
      exception is not caught. `Unparseable`: the content is not valid JSON, which
      the `try` catches. `NonObject`: the content decodes to a JSON value that is
      not an object, whose `.get` raises an exception the `try` does not catch.
      `Object`: the decoded object's `depression_score` and `notes` fields, each
      possibly absent. */
  datatype Reply =
    | NoContent
    | Unparseable
    | NonObject
    | Object(score: Option<ScoreField>, notes: Option<Value>)

  /** Why a reply makes the handler raise an exception nothing catches. */
  datatype Fault = ChatFailed | NotAnObject | ScoreNotNumeric

  datatype Assessment = Assessment(score: real, notes: Value)

  const DEFAULT_SCORE: real := 5.0
  const ERROR_NOTES: Value := Text("Error in assessment")
  const MISSING_NOTES: Value := Text("No specific notes")

  /** The score and notes one reply yields, or the fault it raises. */
  function Interpret(reply: Reply): (r: Result<Assessment, Fault>)
    ensures r.Failure? <==> reply.NoContent? || reply.NonObject? || (reply.Object? && reply.score == Some(NonNumeric))
    ensures reply.NoContent? ==> r == Failure(ChatFailed)
    ensures reply.NonObject? ==> r == Failure(NotAnObject)
    ensures reply.Object? && reply.score == Some(NonNumeric) ==> r == Failure(ScoreNotNumeric)
    ensures reply.Unparseable? ==> r == Success(Assessment(DEFAULT_SCORE, ERROR_NOTES))
    ensures reply.Object? && reply.score.None? ==> r.Success? && r.value.score == DEFAULT_SCORE
    ensures reply.Object? && reply.score.Some? && reply.score.value.Numeric? ==>
      r.Success? && r.value.score == reply.score.value.value
    ensures reply.Object? && r.Success? ==>
      r.value.notes == (if reply.notes.Some? then reply.notes.value else MISSING_NOTES)
  {
    match reply
    case NoContent => Failure(ChatFailed)
    case Unparseable => Success(Assessment(DEFAULT_SCORE, ERROR_NOTES))
    case NonObject => Failure(NotAnObject)
    case Object(score, notes) =>
      var n := if notes.Some? then notes.value else MISSING_NOTES;
      if score.None? then Success(Assessment(DEFAULT_SCORE, n))
      else if score.value.NonNumeric? then Failure(ScoreNotNumeric)
      else Success(Assessment(score.value.value, n))
  }

  datatype ScoredResponse = ScoredResponse(
    questionNumber: Value,
    questionText: Value,
    studentResponse: Value,
    depressionScore: real,
    notes: Value)

  function Scored(q: QuestionResponse, a: Assessment): ScoredResponse
  {
    ScoredResponse(q.questionNumber, q.questionText, q.studentResponse, a.score, a.notes)
  }

  /** Sum of the item scores, accumulated from the first item on. */
  function Total(rs: seq<ScoredResponse>): real
  {
    if |rs| == 0 then 0.0 else Total(rs[..|rs| - 1]) + rs[|rs| - 1].depressionScore
  }

  /** `overall_depression_scale`: the mean item score, 0 without items. */
  function Mean(rs: seq<ScoredResponse>): (m: real)
    ensures |rs| == 0 ==> m == 0.0
    ensures |rs| > 0 ==> m * (|rs| as real) == Total(rs)
  {
    if |rs| > 0 then Total(rs) / (|rs| as real) else 0.0
  }

  datatype Status = Low | Moderate | High

  /** The risk band of an overall scale; both thresholds are strict. */
  function StatusOf(scale: real): (s: Status)
    ensures s == High <==> scale > 7.0
    ensures s == Moderate <==> 4.0 < scale <= 7.0
    ensures s == Low <==> scale <= 4.0
  {
    if scale > 7.0 then High else if scale > 4.0 then Moderate else Low
  }

  /** `depression_status`. */
  function Label(s: Status): string
  {
    match s
    case High => "High depression risk"
    case Moderate => "Moderate depression risk"
    case Low => "Low depression risk"
  }

  function Rank(s: Status): nat
  {
    match s
    case Low => 0
    case Moderate => 1
    case High => 2
  }

  /** The JSON body on success. */
  datatype AssessmentResult = AssessmentResult(
    responses: seq<ScoredResponse>,
    overallDepressionScale: real,
    depressionStatus: string)

  /** The keys of that body. */
  const RESULT_KEYS: set<string> := {"responses", "overall_depression_scale", "depression_status"}

  /** An exception nothing catches becomes the framework's internal server
      error; the model records which item raised and why. */
  datatype Outcome = Assessed(result: AssessmentResult) | InternalServerError(item: nat, fault: Fault)

  /** What each reply yields, in order. The `ensures` is an index-level fact for
      the solver, not a property of the source. */
  function Interpretations(replies: seq<Reply>): (rs: seq<Result<Assessment, Fault>>)
    ensures |rs| == |replies|
    ensures forall i :: 0 <= i < |replies| ==> rs[i] == Interpret(replies[i])
  {
    seq(|replies|, i requires 0 <= i < |replies| => Interpret(replies[i]))
  }

  /** The scored entries, in input order, once every reply was usable. The
      `ensures` is an index-level fact for the solver, not a property of the
      source. */
  function ScoredItems(items: seq<QuestionResponse>, rs: seq<Result<Assessment, Fault>>): (out: seq<ScoredResponse>)
    requires |rs| == |items|
    requires forall i :: 0 <= i < |rs| ==> rs[i].Success?
    ensures |out| == |items|
    ensures forall i :: 0 <= i < |items| ==> out[i] == Scored(items[i], rs[i].value)
  {
    seq(|items|, i requires 0 <= i < |items| => Scored(items[i], rs[i].value))
  }

  /** What the handler's loop answers for the defaulted items, given the chat
      reply for each item in order. */
  function AssessItems(items: seq<QuestionResponse>, replies: seq<Reply>): Outcome
    requires |replies| == |items|
  {
    var rs := Interpretations(replies);
    var k := FirstFailure(rs);
    if k < |rs| then
      InternalServerError(k, rs[k].error)
    else
      var responses := ScoredItems(items, rs);
      var scale := Mean(responses);
      Assessed(AssessmentResult(responses, scale, Label(StatusOf(scale))))
  }

  /** What the handler answers for a request. */
  function Assess(req: Request, replies: seq<Reply>): Outcome
    requires |replies| == |Normalise(req).items|
  {
    AssessItems(Normalise(req).items, replies)
  }

  /** The handler fails exactly when some reply raises an exception the `try`
      does not catch, and then it fails at the first such item. */
  lemma {:induction false} AssessFails(req: Request, replies: seq<Reply>)
    requires |replies| == |Normalise(req).items|
    ensures Assess(req, replies).InternalServerError? <==>
      exists i :: 0 <= i < |replies| && Interpret(replies[i]).Failure?
    ensures
      var out := Assess(req, replies);
      out.InternalServerError? ==>
        && out.item < |replies|
        && Interpret(replies[out.item]) == Failure(out.fault)
        && forall j :: 0 <= j < out.item ==> Interpret(replies[j]).Success?
  {
    var rs := Interpretations(replies);
    if FirstFailure(rs) == |rs| {
      assert forall i :: 0 <= i < |replies| ==> rs[i].Success?;
    }
  }

  /** On success there is one entry per input item, in input order, copying the
      item's fields and carrying its reply's score and notes; the scale is their
      mean and the status is the scale's band. */
  lemma {:induction false} AssessResponses(req: Request, replies: seq<Reply>)
    requires |replies| == |Normalise(req).items|
    requires Assess(req, replies).Assessed?
    ensures
      var result, items := Assess(req, replies).result, Normalise(req).items;
      && |result.responses| == |items|
      && (forall i :: 0 <= i < |items| ==>
        var a := Interpret(replies[i]).value;
        && result.responses[i].questionNumber == items[i].questionNumber
        && result.responses[i].questionText == items[i].questionText
        && result.responses[i].studentResponse == items[i].studentResponse
        && result.responses[i].depressionScore == a.score
        && result.responses[i].notes == a.notes)
      && result.overallDepressionScale == Mean(result.responses)
      && result.depressionStatus == Label(StatusOf(result.overallDepressionScale))
  {
    AssessFails(req, replies);
  }

  lemma {:induction false} AssessStopsAt(items: seq<QuestionResponse>, replies: seq<Reply>, i: nat)
    requires |replies| == |items|
    requires i < |replies|
    requires forall j :: 0 <= j < i ==> Interpret(replies[j]).Success?
    requires Interpret(replies[i]).Failure?
    ensures AssessItems(items, replies) == InternalServerError(i, Interpret(replies[i]).error)
  {
  }

  lemma {:induction false} AssessCompletes(items: seq<QuestionResponse>, replies: seq<Reply>, responses: seq<ScoredResponse>)
    requires |replies| == |items| == |responses|
    requires forall j :: 0 <= j < |replies| ==>
      Interpretations(replies)[j].Success? &&
      responses[j] == Scored(items[j], Interpretations(replies)[j].value)
    ensures
      var scale := Mean(responses);
      AssessItems(items, replies) == Assessed(AssessmentResult(responses, scale, Label(StatusOf(scale))))
  {
    var rs := Interpretations(replies);
    assert FirstFailure(rs) == |rs|;
    assert responses == ScoredItems(items, rs);
  }

  /** The handler's loop: one reply per item, appended and summed in order; an
      exception escaping the `try` abandons the partial result. */
  method ScoreResponses(items: seq<QuestionResponse>, replies: seq<Reply>) returns (out: Outcome)
    requires |replies| == |items|
    ensures out == AssessItems(items, replies)
  {
    ghost var rs := Interpretations(replies);
    var responses: seq<ScoredResponse> := [];
    var overall := 0.0;
    var i := 0;
    while i < |items|
      invariant 0 <= i <= |items|
      invariant |responses| == i
      invariant forall j :: 0 <= j < i ==> rs[j].Success? && responses[j] == Scored(items[j], rs[j].value)
      invariant overall == Total(responses)
    {
      var r := Interpret(replies[i]);
      assert r == rs[i];
      if r.Failure? {
        AssessStopsAt(items, replies, i);
        return InternalServerError(i, r.error);
      }
      ghost var before := responses;
      responses := responses + [Scored(items[i], r.value)];
      assert responses[..i] == before;
      forall j | 0 <= j < i + 1
        ensures rs[j].Success? && responses[j] == Scored(items[j], rs[j].value)
      {
        if j < i {
          assert responses[j] == before[j];
        }
      }
      overall := overall + r.value.score;
      i := i + 1;
    }
    var scale := if |items| > 0 then overall / (|items| as real) else 0.0;
    AssessCompletes(items, replies, responses);
    out := Assessed(AssessmentResult(responses, scale, Label(StatusOf(scale))));
  }

  /** The handler: the request's items are defaulted, then scored. */
  method AssessDepression(req: Request, replies: seq<Reply>) returns (out: Outcome)
    requires |replies| == |Normalise(req).items|
    ensures out == Assess(req, replies)
  {
    var items := Normalise(req).items;
    out := ScoreResponses(items, replies);
  }

  /** A larger scale never gives a lower risk band. */
  lemma StatusMonotone(a: real, b: real)
    requires a <= b
    ensures Rank(StatusOf(a)) <= Rank(StatusOf(b))
  {
  }

  lemma {:induction false} TotalBetween(rs: seq<ScoredResponse>, lo: real, hi: real)
    requires forall i :: 0 <= i < |rs| ==> lo <= rs[i].depressionScore <= hi
    ensures (|rs| as real) * lo <= Total(rs) <= (|rs| as real) * hi
  {
    if |rs| > 0 {
      TotalBetween(rs[..|rs| - 1], lo, hi);
    }
  }

  /** The scale lies between the smallest and the largest item score. */
  lemma {:induction false} MeanBetween(rs: seq<ScoredResponse>, lo: real, hi: real)
    requires |rs| > 0
    requires forall i :: 0 <= i < |rs| ==> lo <= rs[i].depressionScore <= hi
    ensures lo <= Mean(rs) <= hi
  {
    TotalBetween(rs, lo, hi);
  }

  /** If every item scored `s`, the scale is `s`. */
  lemma {:induction false} MeanOfConstant(rs: seq<ScoredResponse>, s: real)
    requires |rs| > 0
    requires forall i :: 0 <= i < |rs| ==> rs[i].depressionScore == s
    ensures Mean(rs) == s
  {
    MeanBetween(rs, s, s);
  }

  /** No items: no division, scale 0, the lowest band. */
  lemma {:induction false} EmptyRequest(req: Request)
    requires Normalise(req).items == []
    ensures Assess(req, []) == Assessed(AssessmentResult([], 0.0, "Low depression risk"))
  {
  }

  /** Replacing one item's reply by an unparseable one changes that item alone. */
  lemma {:induction false} UnparseableReplyIsLocal(req: Request, replies: seq<Reply>, j: nat)
    requires |replies| == |Normalise(req).items|
    requires j < |replies|
    requires Assess(req, replies).Assessed?
    ensures Assess(req, replies[j := Unparseable]).Assessed?
    ensures Assess(req, replies[j := Unparseable]).result.responses
         == Assess(req, replies).result.responses[j := Scored(Normalise(req).items[j], Assessment(DEFAULT_SCORE, ERROR_NOTES))]
  {
    var updated := replies[j := Unparseable];
    var before, after := Assess(req, replies).result.responses, Assess(req, updated).result.responses;
    assert forall i :: 0 <= i < |updated| ==> Interpret(updated[i]).Success?;
    assert |after| == |before[j := Scored(Normalise(req).items[j], Assessment(DEFAULT_SCORE, ERROR_NOTES))]|;
  }

  /** One item answered "I feel fine" and scored 2 by the model. */
  lemma SingleItemExample()
    ensures
      var item := map["question_number" := Num(1), "question_text" := Text("Q1"), "student_response" := Text("I feel fine")];
      var out := Assess(Request(None, Some([item])), [Object(Some(Numeric(2.0)), Some(Text("ok")))]);
      && out.Assessed?
      && out.result.overallDepressionScale == 2.0
      && out.result.depressionStatus == "Low depression risk"
  {
    var item := map["question_number" := Num(1), "question_text" := Text("Q1"), "student_response" := Text("I feel fine")];
    var out := Assess(Request(None, Some([item])), [Object(Some(Numeric(2.0)), Some(Text("ok")))]);
    MeanOfConstant(out.result.responses, 2.0);
  }
}
