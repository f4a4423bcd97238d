# Depression analyser — a Dafny model of its request handling and form logic

The system is a questionnaire about a student's mental health. A Streamlit form
(`front.py`) asks fifteen questions in three tabs: emotional health, academic
performance and social integration. The questions come from one of two banks,
chosen by user type (student or faculty). The form tracks progress, offers the
submit button only once every answer is non-blank, and posts the answers as JSON
to `/assess_depression`. Two interchangeable Flask servers implement that route:

- `back.py` asks a chat model for a 1–10 score per answer. It averages the
  scores into `overall_depression_scale` and reports one of three
  `depression_status` bands.
- `backend.py` runs a five-class text classifier on "Question: … Answer: …". The
  class with the highest probability, 1-based, is the item's score. The average
  of these scores is reported with a four-band `risk_level`.

The model has five modules:

- `Common` (`common.dfy`) holds optional values, results, and the JSON scalars
  (`Num`, `Text`) carried in a request item. It also holds `FirstFailure`, the
  position where a handler that processes items in order stops.
- `LlmBackend` (`llm_backend.dfy`) is `back.py`'s handler. The chat call and the
  `json.loads` of its answer are one uninterpreted `Reply` per item, given in
  processing order. `Interpret` says what the handler does with each kind of
  reply:
  - content that is not valid JSON gets the default score and notes;
  - some replies raise an exception the `try` does not catch, and the request
    then ends as an internal server error. These are: a chat call that raises or
    has no `message.content`, which is read for the log line before the `try`
    opens; content that decodes to a non-object, whose `.get` raises an error
    missing from the `except` list; and a score `float()` rejects, which is
    converted after the `try`.

  The handler is a loop (`ScoreResponses`) proved equal to the function
  `AssessItems`. Properties are proved about that function.
- `ClassifierBackend` (`classifier_backend.dfy`) is `backend.py`'s handler. The
  tokenizer, the model and the softmax are one function from the analysis text
  to five probabilities, or to the message of the exception it raised.
  `PredictDepressionLevel` is the argmax + 1 step. The handler loop
  (`ScoreResponses`) is again proved equal to a function, `AssessItems`. Any
  exception in the loop becomes `{error: message}` with status 500.
- `Form` (`form.dfy`) is the form's bookkeeping. It covers:
  - the two question banks, verbatim;
  - the `responses` list built by the nested tab/question loops
    (`BuildResponses`);
  - Python's `str.strip` (its `isspace` character set);
  - `calculate_progress` and the `all_answered` gate;
  - the three result slices, with Python's clamping slice semantics;
  - the status-icon lookup.

  The text areas are a function `answers(category, index)`.
- `Integration` (`integration.dfy`) covers the JSON body the form posts, and what
  each server makes of it. It also states which keys of each server's reply the
  result page reads.

## Cross-file contract

The form posts each answer under `student_response` (front.py:95). It reads
`overall_depression_scale` and `depression_status` from the reply (front.py:121,
front.py:129). Only `back.py` matches that contract:

- it reads `student_response` (back.py:25);
- it returns those two keys (back.py:106-107).

`backend.py` differs in three ways:

- It reads the answer from `response_text` (backend.py:71). For the form's
  payload that key is missing, so every answer arrives as the empty string and
  the classifier sees only the question (`Integration.ClassifierDropsAnswers`).
- It replies with `overall_depression_score` and `risk_level` (backend.py:102,
  backend.py:106-112). These are not keys the page reads
  (`Integration.PageKeys`).
- None of its risk labels has an icon (`Integration.ClassifierRiskHasNoIcon`).

The form's expectations are therefore proved against `back.py` only
(`Integration.LlmReadsForm`, `Integration.ResultColumnsMatchForm`,
`Integration.LlmStatusHasIcon`). The mismatch with `backend.py` is stated as
lemmas rather than repaired.

## Model

| member | source | states |
|---|---|---|
| `LlmBackend.Normalise` | back.py:20-28 | a missing `user_type` becomes "Student", a present one is kept; one item per request entry; no `responses` key gives no items |
| `LlmBackend.NormaliseDefaults` | back.py:21-28 | each item field is copied when present and otherwise defaults to 0, "" and "" |
| `LlmBackend.Interpret` | back.py:64-90 | the reply raises an uncaught exception exactly when the chat call failed or left no content, the content is a non-object, or its score is not numeric; content that is not JSON gives score 5 with "Error in assessment"; a missing score gives 5; a numeric score is kept; notes are copied as they are, and missing notes give "No specific notes" |
| `LlmBackend.Mean` | back.py:96-97 | with no items the scale is 0; otherwise scale × count equals the sum of the scores |
| `LlmBackend.StatusOf` | back.py:99-104 | High exactly above 7, Moderate exactly in (4, 7], Low exactly at or below 4 |
| `Common.FirstFailure` | back.py:37-92 | the position where a loop that stops at the first exception stops: every earlier item succeeded, and the item there failed unless every item succeeded |
| `LlmBackend.AssessItems` | back.py:30-107 | the handler's answer for the defaulted items: the error of the first reply that raises, or the entries with their mean and band |
| `LlmBackend.Assess` | back.py:18-109 | the handler's answer for a request: its items defaulted, then `AssessItems` |
| `LlmBackend.Scored` | back.py:86-92 | the record appended per item: its number, question and answer, with the reply's score and notes |
| `LlmBackend.Total` | back.py:94 | `overall_depression`: the item scores summed in order |
| `LlmBackend.Label` | back.py:99-104 | the three `depression_status` strings |
| `LlmBackend.AssessFails` | back.py:37-92 | the request fails exactly when some reply raises, and then at the first such item with that item's fault |
| `LlmBackend.AssessResponses` | back.py:30-107 | on success: one entry per item in input order with the item's fields and its reply's score and notes; the scale is their mean; the status is the scale's band |
| `LlmBackend.AssessStopsAt` | back.py:37-92 | if item `i` is the first whose reply raises, the outcome is an error at `i` |
| `LlmBackend.AssessCompletes` | back.py:37-107 | if every reply is usable, the accumulated entries with their mean and band are the result |
| `LlmBackend.ScoreResponses` | back.py:30-107 | the handler's loop, appending and summing in order, computes exactly `AssessItems` |
| `LlmBackend.AssessDepression` | back.py:18-109 | the whole handler equals `Assess`: defaulting, then the loop |
| `LlmBackend.StatusMonotone` | back.py:99-104 | a larger scale never gives a lower band |
| `LlmBackend.TotalBetween` | back.py:94 | a sum of scores in [lo, hi] lies in [n·lo, n·hi] |
| `LlmBackend.MeanBetween` | back.py:96-97 | for a non-empty list, the scale lies between the least and the greatest score |
| `LlmBackend.MeanOfConstant` | back.py:96-97 | if every item scored `s`, the scale is `s` |
| `LlmBackend.EmptyRequest` | back.py:96-104 | no items gives no division, scale 0 and "Low depression risk" |
| `LlmBackend.UnparseableReplyIsLocal` | back.py:81-84 | making one reply unparseable replaces that item's entry by the default one and changes nothing else |
| `LlmBackend.SingleItemExample` | back.py:18-109 | one item scored 2 gives scale 2 and "Low depression risk" |
| `ClassifierBackend.Normalise` | backend.py:67-74 | one item per request entry; no `responses` key gives no items |
| `ClassifierBackend.NormaliseDefaults` | backend.py:67-74 | each item field is copied when present and otherwise defaults to 0, "" and "", the answer being read from `response_text` |
| `ClassifierBackend.AnalysisText` | backend.py:85 | the text classified for an item: "Question: " + question + " Answer: " + answer |
| `ClassifierBackend.Argmax` | backend.py:52 | the index of the first largest probability |
| `ClassifierBackend.PredictDepressionLevel` | backend.py:46-58 | the score lies in 1..5 and the confidence is 100 × the probability of the class reported |
| `ClassifierBackend.PredictionIsMostLikely` | backend.py:51-56 | the reported class has the largest probability, and no earlier class ties it |
| `ClassifierBackend.Average` | backend.py:101 | with no items the average is 0; otherwise average × count equals the total |
| `ClassifierBackend.RiskOf` | backend.py:104-112 | High exactly at or above 4, Moderate in [3, 4), Low in [2, 3), Minimal below 2 |
| `ClassifierBackend.ScoreItem` | backend.py:84-96 | one loop pass fails exactly when the classifier raises, with its message; otherwise the entry copies the item and carries the prediction for its analysis text |
| `ClassifierBackend.ItemResults` | backend.py:83-96 | one outcome per item |
| `ClassifierBackend.ItemResultsAt` | backend.py:83-96 | the outcome at position `i` is that of item `i` |
| `ClassifierBackend.Scored` | backend.py:90-96 | the record appended per item: its number, question and answer text, with the predicted score and confidence |
| `ClassifierBackend.TotalScore` | backend.py:98 | `total_score`: the item scores summed in order |
| `ClassifierBackend.RiskLabel` | backend.py:104-112 | the four `risk_level` strings |
| `ClassifierBackend.AssessItems` | backend.py:76-118 | the handler's answer for the defaulted items: the message of the first item whose classification raised, or the entries with their average and band |
| `ClassifierBackend.Assess` | backend.py:63-118 | the handler's answer for a request: its items defaulted, then `AssessItems` |
| `ClassifierBackend.AssessFails` | backend.py:83-118 | the reply is an error exactly when classifying some item raised, and it carries the first such item's message |
| `ClassifierBackend.AssessResponses` | backend.py:76-114 | on success: one entry per item in input order, each the item's successful pass; the average is over those scores; the risk level is the unrounded average's band |
| `ClassifierBackend.AssessStopsAt` | backend.py:83-118 | if item `i` is the first to raise, the outcome is the error with its message |
| `ClassifierBackend.AssessCompletes` | backend.py:83-114 | if every item succeeds, the accumulated entries with their average and band are the result |
| `ClassifierBackend.ScoreAt` | backend.py:84-96 | one loop pass on item `i` gives the `i`-th outcome |
| `ClassifierBackend.ScoreResponses` | backend.py:76-118 | the handler's loop, appending and summing in order, computes exactly `AssessItems` |
| `ClassifierBackend.AssessDepression` | backend.py:63-118 | the whole handler equals `Assess` |
| `ClassifierBackend.TotalScoreBetween` | backend.py:98 | `n` scores in 1..5 sum to between n and 5n |
| `ClassifierBackend.AverageInRange` | backend.py:98-101 | an assessed non-empty request has an average in [1, 5] |
| `ClassifierBackend.AverageBounds` | backend.py:101 | a total between n and 5n averages to within [1, 5] |
| `ClassifierBackend.AtLeast` | backend.py:105-111 | average ≥ k exactly when total ≥ k·count |
| `ClassifierBackend.AtMost` | backend.py:105-111 | average ≤ k exactly when total ≤ k·count |
| `ClassifierBackend.RiskFromTotal` | backend.py:104-112 | each risk band is an exact range of the integer total |
| `ClassifierBackend.EmptyRequest` | backend.py:101-112 | no items gives average 0 and "Minimal Risk" |
| `ClassifierBackend.TopClassExample` | backend.py:46-58 | probabilities with 0.81 on the fifth class give score 5 at 81 percent |
| `Form.SelectBank` | front.py:18-78 | the bank selected for any user type is the student or the faculty bank, and asks five questions per category, fifteen in all |
| `Form.TotalQuestions` | front.py:78 | `total_questions`: the sum of the category lengths |
| `Form.Responses` | front.py:71-96 | the `responses` list: the records of every tab, in tab order |
| `Form.ResponsesConcat` | front.py:86-96 | the list is the emotional, then the academic, then the social records |
| `Form.ResponseAt` | front.py:86-96 | question `i` of category `c` sits at the category's offset + `i` and carries number `i + 1`, so numbering restarts per category |
| `Form.ResponsesLength` | front.py:78-96 | the list has `total_questions` records |
| `Form.BuildResponses` | front.py:71-96 | the nested loops build exactly `Responses` |
| `Form.AppendCategory` | front.py:89-96 | the inner loop appends exactly the category's records |
| `Form.TrimStart` | front.py:14 | removes a prefix made only of whitespace, and what remains starts with a non-space |
| `Form.TrimEnd` | front.py:14 | removes a suffix made only of whitespace, and what remains ends with a non-space |
| `Form.Strip` | front.py:14 | `str.strip()`: leading, then trailing whitespace removed |
| `Form.IsWhitespace` | front.py:14 | the characters `str.strip()` removes, those for which `str.isspace` holds |
| `Form.Blank` | front.py:14 | every character of the text is whitespace |
| `Form.Answered` | front.py:14 | a record counts as answered when its response is not blank, that is, does not strip to "" |
| `Form.StripEmptyIffBlank` | front.py:14 | `strip()` gives "" exactly when every character is whitespace |
| `Form.CountAnswered` | front.py:14 | at most one per record; all records exactly when all are answered; zero exactly when none is |
| `Form.Progress` | front.py:13-15 | non-negative; at most 100 when there are at most `total` records; 100 exactly when `total` records are answered; 0 exactly when none is |
| `Form.Ratio` | front.py:15 | `(n / t) × 100` is non-negative, at most 100 for n ≤ t, 100 exactly when n = t, 0 exactly when n = 0 |
| `Form.ProgressInitial` | front.py:71-79 | the bar starts at 0 |
| `Form.ProgressComplete` | front.py:99-100 | with one record per question, progress is 100 exactly when all are answered and 0 exactly when none is |
| `Form.AllAnswered` | front.py:103-104 | `all_answered`, which shows the submit button: every record is answered |
| `Form.SubmitGate` | front.py:99-105 | submit is offered exactly when every stripped answer is non-empty, and exactly when progress is 100 |
| `Form.BlankAnswerBlocksSubmit` | front.py:103-105 | one blank text area hides the submit button |
| `Form.PySlice` | front.py:139-149 | Python slice length with clamped bounds, and element `j` is element `lo + j` |
| `Form.DisplayColumns` | front.py:139-149 | the three result columns: the slices `[:e]`, `[e:e+a]` and `[e+a:]` |
| `Form.ColumnsPartition` | front.py:139-149 | for any result length the three columns concatenate to the whole list |
| `Form.ColumnsAligned` | front.py:139-149 | with one result per question, each column has its category's length and holds the results at its offset |
| `Form.StatusIcon` | front.py:124-129 | a known status gets its non-empty icon; an unknown one gets "" instead of an error |
| `Integration.EntryObject` | front.py:92-96 | one posted record: `question_number`, `question_text` and `student_response` |
| `Integration.LlmPayload` | front.py:108-111 | the posted body: `user_type` and the `responses` records |
| `Integration.ClassifierPayload` | front.py:108-111 | the same body as `backend.py` reads it, without the user type it ignores |
| `Integration.LlmReadsForm` | back.py:20-28 | `back.py` reads back the user type and every record's number, question and answer unchanged |
| `Integration.ClassifierDropsAnswers` | backend.py:67-85 | `backend.py` reads every answer of the form's payload as "", so it classifies "Question: q Answer: " |
| `Integration.ResultColumnsMatchForm` | front.py:137-150 | after `back.py` assesses a submitted form, row `j` of category `c`'s column shows number `j + 1`, that question, its answer and its reply's score |
| `Integration.LlmStatusHasIcon` | front.py:124-129 | every status `back.py` reports has a non-empty icon |
| `Integration.ClassifierRiskHasNoIcon` | backend.py:104-112 | no risk level `backend.py` reports has an icon |
| `Integration.PageKeys` | front.py:121-129 | `back.py`'s reply has every key the page reads; `backend.py`'s shares only `responses` |

## Left out

- The chat-model call, its prompt and the console output (back.py:38-71, back.py:82). Each call's outcome, with its content after `json.loads`, is a `Reply` parameter. A failed call and a missing `message.content` are one `Reply` (`NoContent`). Both raise before the `try` and end the request as an internal server error.
- JSON values in a chat reply's `notes` other than integers and strings (floats, lists, objects, null, booleans). They are copied into the result as they are, but the model's `Value` has only integers and strings.
- Tokenizer, model loading, the forward pass and the softmax (backend.py:12-51). These are a classifier parameter that returns five probabilities or an error message. `DepressionDetector` has no state that its methods update, so it is not a class in the model.
- `ClassifierBackend.PredictDepressionLevel`: does not model `round(confidence * 100, 2)` (backend.py:57). The confidence is the exact percentage, because decimal rounding of binary floats is outside the model.
- `ClassifierBackend.AssessResponses`: states the unrounded average. The reply reports `round(avg_score, 2)` (backend.py:102), which is not modelled. The risk band uses the unrounded average, as the source does.
- Floating point: scores, averages and probabilities are exact reals. `float()` of the model's score is abstracted into numeric or not numeric, and the numeric value is taken as given.
- JSON values other than integers and strings in request fields. Request bodies that are not JSON objects (`request.get_json()` returning `None`) are also not modelled.
- Malformed `responses` values: null, a number, a boolean, a non-empty string or object, or an array with an element that is not an object. An empty string or an empty object iterates as no items, so both servers answer as for an empty list (scale 0 with "Low depression risk", or average 0 with "Minimal Risk"). For the other shapes, `back.py` raises an uncaught exception while building its items (back.py:21-28), an internal server error. `backend.py` raises inside its `try` (backend.py:67-74) and answers `{error}` with status 500. The `Request` types cannot express these shapes, so `LlmBackend.AssessFails` and `ClassifierBackend.AssessFails` describe the errors of well-formed requests only.
- Flask routing, `jsonify`, HTTP, logging (backend.py:116-118 keeps only the message and status 500). Also out: Streamlit widgets, reruns, layout, the `.2f` score display, and the HTTP error branch of the form (front.py:112-153 apart from the slices and the icon lookup).
- `Form.Progress`: requires `total > 0`. With zero questions Python raises `ZeroDivisionError`, which neither bank can cause (`Form.SelectBank`).
- `dataset.py`, `dataset copy.py` and `training.py` (data preparation and training) are not part of this model.
