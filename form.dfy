/** The assessment form (front.py): the question banks, the response records the
    form builds from the text areas, the progress figure, the submit gate, the
    three result columns and the status icon.

    The text areas are abstracted into `answers`: the text entered under the key
    `{category}_{i}`, which is "" for an untouched area. */
module Form {

  datatype Category = Emotional | Academic | Social

  /** The tabs, in display order. */
  const CATEGORIES: seq<Category> := [Emotional, Academic, Social]

  datatype QuestionBank = QuestionBank(emotional: seq<string>, academic: seq<string>, social: seq<string>)

  function Questions(bank: QuestionBank, c: Category): seq<string>
  {
    match c
    case Emotional => bank.emotional
    case Academic => bank.academic
    case Social => bank.social
  }

  const STUDENT_QUESTIONS: QuestionBank := QuestionBank(
    [ "How often do you feel overwhelmed by academic pressure?",
      "How frequently do you experience difficulty sleeping?",
      "How often do you feel lonely or isolated at collage?",
      "How would you rate your ability to concentrate in class?",
      "How often do you feel hopeless about your academic future?" ],
    [ "How satisfied are you with your current academic performance?",
      "How well can you keep up with assignment deadlines?",
      "How often do you participate in class discussions?",
      "How comfortable are you asking teachers for help?",
      "How well can you maintain your study schedule?" ],
    [ "How often do you engage in extracurricular activities?",
      "How comfortable are you working in group projects?",
      "How strong is your support system at collage?",
      "How often do you interact with classmates outside of class?",
      "How well do you handle academic competition?" ])

  const FACULTY_QUESTIONS: QuestionBank := QuestionBank(
    [ "How often do you feel overwhelmed by your workload?",
      "How frequently do you experience burnout symptoms?",
      "How often do you feel unsupported by your peers or administration?",
      "How would you rate your job satisfaction?",
      "How often do you feel stressed about your teaching performance?" ],
    [ "How satisfied are you with your students' academic progress?",
      "How well do you manage your class schedules?",
      "How often do you engage in professional development activities?",
      "How comfortable are you with current teaching methods?",
      "How well do you balance teaching and research responsibilities?" ],
    [ "How often do you participate in faculty meetings?",
      "How comfortable are you collaborating with other faculty members?",
      "How strong is your support system at work?",
      "How often do you engage in social activities with colleagues?",
      "How well do you handle administrative pressures?" ])

  /** The bank shown for the user type picked in the sidebar: anything other
      than "Student" gets the faculty questions. Whichever it is, it asks five
      questions per category, fifteen in all. */
  function SelectBank(userType: string): (bank: QuestionBank)
    ensures bank == STUDENT_QUESTIONS || bank == FACULTY_QUESTIONS
    ensures |bank.emotional| == 5 && |bank.academic| == 5 && |bank.social| == 5
    ensures TotalQuestions(bank) == 15
  {
    if userType == "Student" then STUDENT_QUESTIONS else FACULTY_QUESTIONS
  }

  /** `total_questions`: the number of questions over all categories. */
  function TotalQuestions(bank: QuestionBank): nat
  {
    |bank.emotional| + |bank.academic| + |bank.social|
  }

  /** One record of the `responses` list. */
  datatype FormEntry = FormEntry(questionNumber: int, questionText: string, studentResponse: string)

  /** The records of one category, numbered from 1. The `ensures` is an
      index-level fact for the solver, not a property of the source. */
  function CategoryEntries(bank: QuestionBank, answers: (Category, nat) -> string, c: Category): (es: seq<FormEntry>)
    ensures |es| == |Questions(bank, c)|
    ensures forall i :: 0 <= i < |es| ==> es[i] == FormEntry(i + 1, Questions(bank, c)[i], answers(c, i))
  {
    seq(|Questions(bank, c)|, i requires 0 <= i < |Questions(bank, c)| => FormEntry(i + 1, Questions(bank, c)[i], answers(c, i)))
  }

  /** The records of the first `k` tabs, in tab order. */
  function EntriesUpTo(bank: QuestionBank, answers: (Category, nat) -> string, k: nat): seq<FormEntry>
    requires k <= |CATEGORIES|
  {
    if k == 0 then [] else EntriesUpTo(bank, answers, k - 1) + CategoryEntries(bank, answers, CATEGORIES[k - 1])
  }

  /** The complete `responses` list. */
  function Responses(bank: QuestionBank, answers: (Category, nat) -> string): seq<FormEntry>
  {
    EntriesUpTo(bank, answers, |CATEGORIES|)
  }

  /** Where a category's records start in the list. */
  function Offset(bank: QuestionBank, c: Category): nat
  {
    match c
    case Emotional => 0
    case Academic => |bank.emotional|
    case Social => |bank.emotional| + |bank.academic|
  }

  /** The list holds the emotional, then the academic, then the social records. */
  lemma {:induction false} ResponsesConcat(bank: QuestionBank, answers: (Category, nat) -> string)
    ensures Responses(bank, answers)
      == CategoryEntries(bank, answers, Emotional)
       + CategoryEntries(bank, answers, Academic)
       + CategoryEntries(bank, answers, Social)
  {
    var e, a := CategoryEntries(bank, answers, Emotional), CategoryEntries(bank, answers, Academic);
    assert EntriesUpTo(bank, answers, 1) == e;
    assert EntriesUpTo(bank, answers, 2) == e + a;
  }

  /** The record of question `i` of category `c` sits at `Offset(c) + i` and
      carries number `i + 1`: numbering restarts in every category. */
  lemma {:induction false} ResponseAt(bank: QuestionBank, answers: (Category, nat) -> string, c: Category, i: nat)
    requires i < |Questions(bank, c)|
    ensures Offset(bank, c) + i < |Responses(bank, answers)|
    ensures Responses(bank, answers)[Offset(bank, c) + i] == FormEntry(i + 1, Questions(bank, c)[i], answers(c, i))
  {
    ResponsesConcat(bank, answers);
    var e, a, s := CategoryEntries(bank, answers, Emotional), CategoryEntries(bank, answers, Academic),
      CategoryEntries(bank, answers, Social);
    match c
    case Emotional => assert (e + a + s)[i] == e[i];
    case Academic => assert (e + a + s)[|e| + i] == a[i];
    case Social => assert (e + a + s)[|e| + |a| + i] == s[i];
  }

  /** One record per question, `TotalQuestions` in all. */
  lemma {:induction false} ResponsesLength(bank: QuestionBank, answers: (Category, nat) -> string)
    ensures |Responses(bank, answers)| == TotalQuestions(bank)
  {
    ResponsesConcat(bank, answers);
  }

  /** The form's nested loops: for every tab in order, one record per question,
      appended as the text areas are laid out. */
  method BuildResponses(bank: QuestionBank, answers: (Category, nat) -> string) returns (responses: seq<FormEntry>)
    ensures responses == Responses(bank, answers)
  {
    responses := [];
    var k := 0;
    while k < |CATEGORIES|
      invariant 0 <= k <= |CATEGORIES|
      invariant responses == EntriesUpTo(bank, answers, k)
    {
      responses := AppendCategory(responses, bank, answers, CATEGORIES[k]);
      k := k + 1;
    }
  }

  /** The inner loop of the form: one record per question of tab `c`. */
  method AppendCategory(done: seq<FormEntry>, bank: QuestionBank, answers: (Category, nat) -> string, c: Category)
    returns (responses: seq<FormEntry>)
    ensures responses == done + CategoryEntries(bank, answers, c)
  {
    var questions := Questions(bank, c);
    ghost var entries := CategoryEntries(bank, answers, c);
    responses := done;
    var i := 0;
    while i < |questions|
      invariant 0 <= i <= |questions|
      invariant responses == done + entries[..i]
    {
      responses := responses + [FormEntry(i + 1, questions[i], answers(c, i))];
      assert entries[..i + 1] == entries[..i] + [entries[i]];
      i := i + 1;
    }
    assert entries[..i] == entries;
  }

  /** The characters Python's `str.strip()` removes (`str.isspace`). */
  predicate IsWhitespace(c: char)
  {
    || ('\U{0009}' <= c <= '\U{000D}')
    || ('\U{001C}' <= c <= '\U{0020}')
    || c == '\U{0085}' || c == '\U{00A0}' || c == '\U{1680}'
    || ('\U{2000}' <= c <= '\U{200A}')
    || c == '\U{2028}' || c == '\U{2029}' || c == '\U{202F}' || c == '\U{205F}' || c == '\U{3000}'
  }

  /** `s` with its leading whitespace removed. */
  function TrimStart(s: string): (t: string)
    ensures |t| <= |s| && t == s[|s| - |t|..]
    ensures forall i :: 0 <= i < |s| - |t| ==> IsWhitespace(s[i])
    ensures |t| > 0 ==> !IsWhitespace(t[0])
  {
    if |s| > 0 && IsWhitespace(s[0]) then TrimStart(s[1..]) else s
  }

  /** `s` with its trailing whitespace removed. */
  function TrimEnd(s: string): (t: string)
    ensures |t| <= |s| && t == s[..|t|]
    ensures forall i :: |t| <= i < |s| ==> IsWhitespace(s[i])
    ensures |t| > 0 ==> !IsWhitespace(t[|t| - 1])
  {
    if |s| > 0 && IsWhitespace(s[|s| - 1]) then TrimEnd(s[..|s| - 1]) else s
  }

  /** `s.strip()`. */
  function Strip(s: string): string
  {
    TrimEnd(TrimStart(s))
  }

  /** Every character of `s` is whitespace. */
  predicate Blank(s: string)
  {
    forall i :: 0 <= i < |s| ==> IsWhitespace(s[i])
  }

  /** `s.strip() == ""` exactly when `s` is blank. */
  lemma StripEmptyIffBlank(s: string)
    ensures Strip(s) == "" <==> Blank(s)
  {
  }

  /** A record counts as answered when its response does not strip to "" (by
      `StripEmptyIffBlank`, when it is not blank). */
  predicate Answered(e: FormEntry)
  {
    !Blank(e.studentResponse)
  }

  /** `all_answered`. */
  predicate AllAnswered(rs: seq<FormEntry>)
  {
    forall i :: 0 <= i < |rs| ==> Answered(rs[i])
  }

  /** `answered` in `calculate_progress`: how many records are answered. */
  function CountAnswered(rs: seq<FormEntry>): (n: nat)
    ensures n <= |rs|
    ensures n == |rs| <==> AllAnswered(rs)
    ensures n == 0 <==> forall i :: 0 <= i < |rs| ==> !Answered(rs[i])
  {
    if |rs| == 0 then 0
    else CountAnswered(rs[..|rs| - 1]) + (if Answered(rs[|rs| - 1]) then 1 else 0)
  }

  /** `calculate_progress`: the answered share of all questions, in percent. */
  function Progress(rs: seq<FormEntry>, total: nat): (p: real)
    requires total > 0
    ensures 0.0 <= p
    ensures |rs| <= total ==> p <= 100.0
    ensures p == 100.0 <==> CountAnswered(rs) == total
    ensures p == 0.0 <==> CountAnswered(rs) == 0
  {
    Ratio(CountAnswered(rs), total);
    (CountAnswered(rs) as real / total as real) * 100.0
  }

  lemma Ratio(n: nat, t: nat)
    requires t > 0
    ensures 0.0 <= (n as real / t as real) * 100.0
    ensures n <= t ==> (n as real / t as real) * 100.0 <= 100.0
    ensures (n as real / t as real) * 100.0 == 100.0 <==> n == t
    ensures (n as real / t as real) * 100.0 == 0.0 <==> n == 0
  {
    var q := n as real / t as real;
    assert q * (t as real) == n as real;
    if n <= t {
      assert q <= 1.0;
    }
  }

  /** Before any record exists the bar is empty. */
  lemma ProgressInitial(total: nat)
    requires total > 0
    ensures Progress([], total) == 0.0
  {
  }

  /** With one record per question, the bar is full exactly when every record is
      answered, and empty exactly when none is. */
  lemma ProgressComplete(rs: seq<FormEntry>, total: nat)
    requires total > 0
    requires |rs| == total
    ensures Progress(rs, total) == 100.0 <==> AllAnswered(rs)
    ensures Progress(rs, total) == 0.0 <==> forall i :: 0 <= i < |rs| ==> !Answered(rs[i])
  {
  }

  /** The `if all_answered:` that shows the submit button holds exactly when
      every stripped answer is non-empty, and for a complete form exactly when
      the progress reads 100. */
  lemma SubmitGate(bank: QuestionBank, answers: (Category, nat) -> string)
    requires TotalQuestions(bank) > 0
    ensures
      var rs := Responses(bank, answers);
      && (AllAnswered(rs) <==> forall i :: 0 <= i < |rs| ==> Strip(rs[i].studentResponse) != "")
      && (AllAnswered(rs) <==> Progress(rs, TotalQuestions(bank)) == 100.0)
  {
    var rs := Responses(bank, answers);
    ResponsesLength(bank, answers);
    forall i | 0 <= i < |rs| ensures Answered(rs[i]) <==> Strip(rs[i].studentResponse) != "" {
      StripEmptyIffBlank(rs[i].studentResponse);
    }
    ProgressComplete(rs, TotalQuestions(bank));
  }

  /** A text-area left blank blocks submission. */
  lemma BlankAnswerBlocksSubmit(bank: QuestionBank, answers: (Category, nat) -> string, c: Category, i: nat)
    requires i < |Questions(bank, c)|
    requires Strip(answers(c, i)) == ""
    ensures !AllAnswered(Responses(bank, answers))
  {
    ResponseAt(bank, answers, c, i);
    StripEmptyIffBlank(answers(c, i));
    assert !Answered(Responses(bank, answers)[Offset(bank, c) + i]);
  }

  /** `s[lo:hi]` for non-negative bounds: both are clamped to the length, and a
      range with `lo >= hi` is empty. */
  function PySlice<T>(s: seq<T>, lo: nat, hi: nat): (r: seq<T>)
    ensures |r| == if lo <= hi && lo <= |s| then (if hi <= |s| then hi else |s|) - lo else 0
    ensures forall j :: 0 <= j < |r| ==> r[j] == s[lo + j]
  {
    var hi' := if hi <= |s| then hi else |s|;
    if lo <= hi' then s[lo..hi'] else []
  }

  /** The three result columns. */
  datatype Columns<T> = Columns(emotional: seq<T>, academic: seq<T>, social: seq<T>)

  function Column<T>(cols: Columns<T>, c: Category): seq<T>
  {
    match c
    case Emotional => cols.emotional
    case Academic => cols.academic
    case Social => cols.social
  }

  /** The result list cut at the category lengths: `[:e]`, `[e:e+a]` and
      `[e+a:]`. */
  function DisplayColumns<T>(results: seq<T>, bank: QuestionBank): Columns<T>
  {
    var e, a := |bank.emotional|, |bank.academic|;
    Columns(PySlice(results, 0, e), PySlice(results, e, e + a), PySlice(results, e + a, |results|))
  }

  /** Whatever the result list's length, the columns are contiguous, do not
      overlap and together give back the list in order. */
  lemma ColumnsPartition<T>(results: seq<T>, bank: QuestionBank)
    ensures
      var cols := DisplayColumns(results, bank);
      cols.emotional + cols.academic + cols.social == results
  {
    var cols := DisplayColumns(results, bank);
    var e, a := |bank.emotional|, |bank.academic|;
    if e + a <= |results| {
      assert cols.emotional == results[..e];
      assert cols.academic == results[e..e + a];
      assert cols.social == results[e + a..];
      assert results == results[..e] + results[e..e + a] + results[e + a..];
    } else if e <= |results| {
      assert cols.emotional == results[..e];
      assert cols.academic == results[e..];
      assert results == results[..e] + results[e..];
    } else {
      assert cols.emotional == results;
    }
  }

  /** With one result per question, every column holds exactly its category's
      results, in order. */
  lemma ColumnsAligned<T>(results: seq<T>, bank: QuestionBank)
    requires |results| == TotalQuestions(bank)
    ensures forall c: Category :: |Column(DisplayColumns(results, bank), c)| == |Questions(bank, c)|
    ensures forall c: Category, j :: 0 <= j < |Questions(bank, c)| ==>
      Column(DisplayColumns(results, bank), c)[j] == results[Offset(bank, c) + j]
  {
  }

  /** `status_color`. */
  const STATUS_COLOR: map<string, string> := map[
    "High depression risk" := "\U{1F534}",
    "Moderate depression risk" := "\U{1F7E1}",
    "Low depression risk" := "\U{1F7E2}"]

  /** `status_color.get(status, '')`: a status without a colour gets no icon
      instead of an error. */
  function StatusIcon(status: string): (icon: string)
    ensures status in STATUS_COLOR ==> icon == STATUS_COLOR[status] && icon != ""
    ensures status !in STATUS_COLOR ==> icon == ""
  {
    if status in STATUS_COLOR then STATUS_COLOR[status] else ""
  }
}
