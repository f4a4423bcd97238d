/** How the form's submission meets the two assessment servers: the JSON body it
    posts, what each server reads out of it, and which keys of each server's reply
    the result page relies on. */
module Integration {
  import opened Common
  import LlmBackend
  import ClassifierBackend
  import opened Form

  /** One record of the posted `responses` array. */
  function EntryObject(e: FormEntry): JsonObject
  {
    map["question_number" := Num(e.questionNumber),
        "question_text" := Text(e.questionText),
        "student_response" := Text(e.studentResponse)]
  }

  /** The posted `responses` array. The `ensures` is an index-level fact for the
      solver, not a property of the source. */
  function PayloadItems(rs: seq<FormEntry>): (items: seq<JsonObject>)
    ensures |items| == |rs|
    ensures forall i :: 0 <= i < |rs| ==> items[i] == EntryObject(rs[i])
  {
    seq(|rs|, i requires 0 <= i < |rs| => EntryObject(rs[i]))
  }

  /** The body posted to the chat-model server: the selected user type and the
      form's records. */
  function LlmPayload(userType: string, rs: seq<FormEntry>): LlmBackend.Request
  {
    LlmBackend.Request(Some(Text(userType)), Some(PayloadItems(rs)))
  }

  /** The same body as the classifier server sees it: it has no use for the
      user type. */
  function ClassifierPayload(rs: seq<FormEntry>): ClassifierBackend.Request
  {
    ClassifierBackend.Request(Some(PayloadItems(rs)))
  }

  /** The chat-model server reads back every field the form sent, unchanged. */
  lemma {:induction false} LlmReadsForm(userType: string, rs: seq<FormEntry>)
    ensures
      var n := LlmBackend.Normalise(LlmPayload(userType, rs));
      && n.userType == Text(userType)
      && |n.items| == |rs|
      && forall i :: 0 <= i < |rs| ==>
        n.items[i] == LlmBackend.QuestionResponse(Num(rs[i].questionNumber), Text(rs[i].questionText), Text(rs[i].studentResponse))
  {
    var req := LlmPayload(userType, rs);
    var n := LlmBackend.Normalise(req);
    LlmBackend.NormaliseDefaults(req);
    forall i | 0 <= i < |rs|
      ensures n.items[i] == LlmBackend.QuestionResponse(Num(rs[i].questionNumber), Text(rs[i].questionText), Text(rs[i].studentResponse))
    {
      var obj := EntryObject(rs[i]);
      assert obj == LlmBackend.RawItems(req)[i];
    }
  }

  /** The classifier server looks for the answer under a key the form does not
      send, so every answer reaches it as the empty text and the classifier sees
      only the question. */
  lemma {:induction false} ClassifierDropsAnswers(rs: seq<FormEntry>)
    ensures
      var items := ClassifierBackend.Normalise(ClassifierPayload(rs));
      && |items| == |rs|
      && forall i :: 0 <= i < |rs| ==>
        && items[i] == ClassifierBackend.StudentResponse(Num(rs[i].questionNumber), Text(rs[i].questionText), Text(""))
        && ClassifierBackend.AnalysisText(items[i]) == "Question: " + rs[i].questionText + " Answer: "
  {
    var req := ClassifierPayload(rs);
    var items := ClassifierBackend.Normalise(req);
    ClassifierBackend.NormaliseDefaults(req);
    forall i | 0 <= i < |rs|
      ensures items[i] == ClassifierBackend.StudentResponse(Num(rs[i].questionNumber), Text(rs[i].questionText), Text(""))
      ensures ClassifierBackend.AnalysisText(items[i]) == "Question: " + rs[i].questionText + " Answer: "
    {
      var obj := EntryObject(rs[i]);
      assert obj == ClassifierBackend.RawItems(req)[i];
      assert "response_text" !in obj;
      assert "Question: " + rs[i].questionText + " Answer: " + "" == "Question: " + rs[i].questionText + " Answer: ";
    }
  }

  /** After the chat-model server assesses a submitted form, row `j` of the
      result column of category `c` is that category's question `j`: it shows
      number `j + 1`, the question's text, the answer given to it and the score
      of the reply for it. */
  lemma {:induction false} ResultColumnsMatchForm(
    userType: string, bank: QuestionBank, answers: (Category, nat) -> string,
    replies: seq<LlmBackend.Reply>, c: Category, j: nat)
    requires |replies| == |Responses(bank, answers)|
    requires LlmBackend.Assess(LlmPayload(userType, Responses(bank, answers)), replies).Assessed?
    requires j < |Questions(bank, c)|
    ensures
      var result := LlmBackend.Assess(LlmPayload(userType, Responses(bank, answers)), replies).result;
      var row := Column(DisplayColumns(result.responses, bank), c);
      && j < |row|
      && row[j].questionNumber == Num(j + 1)
      && row[j].questionText == Text(Questions(bank, c)[j])
      && row[j].studentResponse == Text(answers(c, j))
      && row[j].depressionScore == LlmBackend.Interpret(replies[Offset(bank, c) + j]).value.score
  {
    var rs := Responses(bank, answers);
    var req := LlmPayload(userType, rs);
    ResponsesLength(bank, answers);
    ResponseAt(bank, answers, c, j);
    LlmReadsForm(userType, rs);
    LlmBackend.AssessResponses(req, replies);
    var result := LlmBackend.Assess(req, replies).result;
    ColumnsAligned(result.responses, bank);
  }

  /** Every status the chat-model server can report has an icon on the result
      page. */
  lemma LlmStatusHasIcon(s: LlmBackend.Status)
    ensures LlmBackend.Label(s) in STATUS_COLOR
    ensures StatusIcon(LlmBackend.Label(s)) != ""
  {
  }

  /** No risk level the classifier server reports has an icon. */
  lemma ClassifierRiskHasNoIcon(r: ClassifierBackend.Risk)
    ensures ClassifierBackend.RiskLabel(r) !in STATUS_COLOR
    ensures StatusIcon(ClassifierBackend.RiskLabel(r)) == ""
  {
  }

  /** The keys of the reply body the result page reads. */
  const PAGE_KEYS: set<string> := {"responses", "overall_depression_scale", "depression_status"}

  /** The chat-model server's reply carries every key the page reads; the
      classifier server's carries only the list of responses. */
  lemma PageKeys()
    ensures PAGE_KEYS <= LlmBackend.RESULT_KEYS
    ensures PAGE_KEYS * ClassifierBackend.RESULT_KEYS == {"responses"}
  {
  }
}
