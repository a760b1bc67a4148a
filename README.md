# Answer-sheet grading: tolerant grade extraction and response shaping

A Dafny model of the part of the answer-sheet grading service that has logic of its own.
An answer sheet is uploaded; its text is recognised and sent to a language model; the model's reply is parsed for a grade; the result record is stored and returned.

- `process_answer_sheet` (`app/services/logic.py`) turns the model's reply into a result record.
  It strips the reply and cuts out the text from the first `{` through the last `}`.
  That text goes to `json.loads`.
  The record's score is `"<score>/10"` and its review is the feedback, each with a default.
  A reply with no brace pair gets the default grade.
  Any exception gives the fixed fallback record, with a `note` holding the error.
  The model is the pure function `Logic.ProcessAnswerSheet`.
- `convert_objectid_to_str` (`app/routes.py`) replaces every MongoDB `ObjectId` in a value tree by its string form.
  It is the recursive function `Routes.Convert`.
- `POST /evaluate` (`evaluate_answer`) stores the record, rebinds it to its converted copy, or, when storing fails, writes a `note` into the dict in place.
  It always answers with status 200.
  The in-place update is modelled by the class `Routes.DictObject` and the method `Routes.EvaluateAnswer`.
  That method is proved equal to the response function `Routes.EvaluateResponse`.
  `GET /results` is `Routes.GetResults`.

Files:

- `wrappers.dfy`: `Option` and `Result`. `Err` carries the text `str(e)` of a raised exception.
- `pytext.dfy`: the Python `str` operations used (`strip`, `find`, `rfind`, slicing, `str(int)`).
- `pyvalue.dfy`: Python values as a datatype, and dicts as sequences of items in insertion order.
  It has `d.get`, `d[k] = v`, "holds no ObjectId", and `str()`.
- `logic.dfy`: `process_answer_sheet`.
- `routes.dfy`: `convert_objectid_to_str`, `evaluate_answer`, `get_results`.

Everything outside the repository is a parameter:

- Saving the image, OCR and the model call, through `Logic.Stages`.
  Each one fails with an error text, or, for the model, gives a reply.
- `json.loads`, as `Logic.Decoder`.
  It returns an object or an error text.
  `json.loads("")` is fixed: it raises `Expecting value: line 1 column 1 (char 0)`.
- `str()` of a list, dict or ObjectId score.
- `str(ObjectId)`.
- What `insert_result` did (`Routes.InsertOutcome`).
  This says whether the driver wrote an `_id` into the dict, and whether the call raised.
- What `fetch_all_results` returned.
- The traceback text.

## Model

| member | source | states |
|---|---|---|
| PyText.Strip | app/services/logic.py:47 | the stripped reply does not start or end with whitespace; it is the input after its leading whitespace, with only whitespace cut from its end |
| PyText.StripIdempotent | app/services/logic.py:47 | stripping a stripped reply changes nothing |
| PyText.Find | app/services/logic.py:51 | `find("{")` is -1 exactly when there is no `{`; otherwise it is the index of a `{` with none before it |
| PyText.RFind | app/services/logic.py:52 | `rfind("}")` is -1 exactly when there is no `}`; otherwise it is the index of a `}` with none after it |
| PyText.Slice | app/services/logic.py:54 | a Python slice with non-negative bounds is clipped to the length: `s[i:j]` is `s[i..min(j, len(s))]` when the start is before both, and empty otherwise |
| PyText.NatToDecimal | app/services/logic.py:61 | `str(n)` is a non-empty string of decimal digits, with no leading zero unless it is "0" |
| PyText.IntToDecimal | app/services/logic.py:61 | `str(i)` is non-empty; it is the decimal digits of `i` when `i >= 0`, and "-" followed by the digits of `-i` otherwise |
| PyText.DecimalRoundTrip | app/services/logic.py:61 | reading back the digits of `str(n)` gives `n` |
| PyText.IntDecimalRoundTrip | app/services/logic.py:61 | `str(i)` of a negative integer is "-" followed by the digits of `-i`; reading back gives `i` for every integer |
| PyValue.Lookup | app/services/logic.py:61-62 | a key is found exactly when it is among the dict's keys, and the value found is the one stored under it |
| PyValue.Get | app/services/logic.py:61-62 | `d.get(k, default)` is the default exactly when `k` is absent; otherwise it is the stored value |
| PyValue.LookupFirst | app/services/logic.py:61-62 | the first item carrying a key is the one `d[k]` finds |
| PyValue.Put | app/routes.py:45 | `d[k] = v` keeps the length when `k` is present and adds one item when it is new |
| PyValue.PutLookup | app/routes.py:45 | after `d[k] = v`, `d[k]` is `v` and every other key maps to what it did before |
| PyValue.PutKeys | app/routes.py:45 | `d[k] = v` keeps the keys in order, and a new key goes last |
| PyValue.PutKeepsOthers | app/routes.py:45 | every item whose key is not `k` stays where it was |
| PyValue.PutNewKey | app/routes.py:45 | storing under a new key appends exactly that item |
| PyValue.PutNoObjectId | app/routes.py:45 | storing a value with no ObjectId into a dict with none leaves the dict free of ObjectIds |
| PyValue.PyStr | app/services/logic.py:61 | `str()` of an integer is its decimal form, and of a string is the string itself |
| Logic.JsonText | app/services/logic.py:51-56 | nothing goes to the decoder exactly when `{` or `}` is missing. Otherwise the text runs from the first `{` through the last `}`; it starts with `{` and ends with `}` when that `{` comes first, and is empty when the `}` comes first |
| Logic.JsonLoads | app/services/logic.py:54 | an empty text always fails with the empty-document error; any other text is decoded by the decoder |
| Logic.Reply | app/services/logic.py:24-46 | the reply is available exactly when the save, OCR and model call all succeeded, and it is then the model's reply |
| Logic.FailedStageStopsPipeline | app/services/logic.py:24-46 | a failed save raises its error whatever OCR and the model would have done, and a failed OCR raises its error whatever the model would have done |
| Logic.MarksRendered | app/services/logic.py:61 | the default score 9 and the total 10 print as "9" and "10" |
| Logic.GradedRecord | app/services/logic.py:58-63 | the success record has exactly the keys student_id, file_name, score, review in that order, and echoes the student and the file name |
| Logic.FallbackRecord | app/services/logic.py:69-75 | the fallback record has those four keys plus `note`, echoes the student and the file name, and its note starts with "Fallback due to unexpected error: " |
| Logic.ProcessAnswerSheet | app/services/logic.py:21-75 | every path returns a record with the student and file name echoed. Its keys are the four record keys, or those plus `note`. A note comes only with score "9/10", review "Good Marks" and the fallback prefix |
| Logic.NoteOnlyOnException | app/services/logic.py:58-75 | the record has a `note` exactly when the `try` block raised; otherwise it has exactly the four keys |
| Logic.StageFailureFallsBack | app/services/logic.py:22-46 | a failing save, OCR or model call yields exactly the fallback record carrying the error of the first stage that failed |
| Logic.MissingBraceGivesDefault | app/services/logic.py:51-63 | a stripped reply without `{` or without `}` gives score "9/10" and review "Good Marks", with no note, whatever the decoder would do |
| Logic.DecodeErrorFallsBack | app/services/logic.py:51-75 | with both braces present and a failed decoding, the record is the fallback with note "Fallback due to unexpected error: " plus the decoder's error |
| Logic.DecodedReplyTakesGradedBranch | app/services/logic.py:47-63 | a reply whose brace-delimited text decodes yields exactly the graded record built from the decoded dict |
| Logic.GradedRecordFields | app/services/logic.py:58-63 | the graded record's score is `str(score)` + "/10", or "9/10" when `score` is absent, and its review is `feedback`, or "Good Marks" when absent |
| Logic.ReversedBracesFallBack | app/services/logic.py:51-75 | when every `}` comes before every `{`, the slice is empty and `json.loads` raises. For every decoder, the result is the fallback with the empty-document error |
| Logic.DecodedReplyGraded | app/services/logic.py:54-63 | on successful decoding, the score is `str(score)` + "/10", or "9/10" when `score` is absent. The review is `feedback`, or "Good Marks" when it is absent. The record has the four keys |
| Logic.ScoreNotRangeChecked | app/services/logic.py:58-61 | a decoded integer score `n` gives `str(n)` + "/10" whatever its size; there is no range check |
| Logic.FifteenOutOfTen | app/services/logic.py:58-61 | a decoded score of 15 is recorded as "15/10"; nothing caps it at `total_marks` |
| Logic.WholeReplyDecoded | app/services/logic.py:47-54 | a stripped reply that starts with `{` and ends with `}` goes to the decoder whole |
| Logic.GradedExample | app/services/logic.py:21-65 | a worked example: a reply decoding to score 7 and its feedback gives exactly the record {S1, sheet1.png, "7/10", that feedback} |
| Logic.RecordHasNoObjectId | app/services/logic.py:58-75 | when the decoder yields JSON only, no record holds an ObjectId |
| Logic.GradedRecordNoObjectId | app/services/logic.py:58-63 | a record graded from a dict without ObjectIds holds none |
| Logic.RecordNoteIsText | app/services/logic.py:58-75 | no record has an `_id`, and a record's note, if present, is a string |
| Logic.NoteIsText | app/services/logic.py:58-75 | a record with the four keys, or those plus a string `note`, has no `_id` and its note reads as a string |
| Routes.Convert | app/routes.py:17-26 | the result holds no ObjectId, and a value without one comes back unchanged. A dict stays a dict with the same keys in order, and a list stays a list of the same length. An ObjectId becomes `str(oid)`, and any other scalar is kept |
| Routes.ConvertIdempotent | app/routes.py:17-26 | converting twice equals converting once |
| Routes.ConvertDictItem | app/routes.py:19-20 | item `i` of a converted dict is item `i`'s key with its value converted |
| Routes.ConvertListItem | app/routes.py:21-22 | element `i` of a converted list is element `i` converted |
| Routes.ConvertLookup | app/routes.py:19-20 | after conversion a key maps to the converted value it mapped to before, and absent keys stay absent |
| Routes.DictObject.Set | app/routes.py:45 | the dict object's items become those of `d[k] = v` on its old items |
| Routes.TypeName | app/routes.py:45 | the type name Python prints is "str" exactly for a string and "list" exactly for a list |
| Routes.ConcatError | app/routes.py:45 | the TypeError text of appending the suffix to a non-string note: the list message exactly for a list note, otherwise the unsupported-operand message naming the note's type |
| Routes.AnnotateNote | app/routes.py:45 | the note becomes the previous note (or "") followed by the suffix `INSERT_FAILED_NOTE` (" DB insertion failed." after a bar). Every other key keeps its value, and the keys keep their order. A note that is not a string makes the concatenation raise its TypeError |
| Routes.AnnotateInsertFailure | app/routes.py:43-45 | on the dict object, in place: the items become the annotated items, or stay unchanged with the TypeError reported |
| Routes.RespondSuccess | app/routes.py:47-62 | status 200. The content is `{"status": "success", "result": result}` exactly when the result holds no ObjectId. Otherwise it is the error envelope of the serialisation error |
| Routes.Stamped | app/routes.py:35 | what `insert_result` leaves in the dict: unchanged when the driver wrote no `_id`; otherwise `_id` maps to the ObjectId, appended at the end when the record had no `_id` |
| Routes.EvaluateAnswer | app/routes.py:28-62 | the method, with its in-place updates, returns exactly the response `EvaluateResponse` describes for the record of the pipeline |
| Routes.EvaluateResponse | app/routes.py:30-62 | `/evaluate` always answers 200, with content whose first item is `status`, "success" or "error" |
| Routes.StoredRecordSucceeds | app/routes.py:34-50 | a stored record without ObjectIds and without `_id` is answered 200 with the success envelope of the record followed by the string form of the `_id` the driver added |
| Routes.EvaluateSucceedsWhenStored | app/routes.py:34-50 | after a successful insertion the answer is the success envelope of the pipeline's record, followed by the string form of any `_id` the driver added |
| Routes.EvaluateAnnotatesWhenNotStored | app/routes.py:43-50 | a failed insertion that left the dict untouched is still answered 200 with the success envelope of the annotated record |
| Routes.EvaluateFailsWhenStampedButNotStored | app/routes.py:35-62 | a failed insertion after the driver wrote `_id` into the dict leaves an ObjectId in the answer. The answer is then the error envelope "Object of type ObjectId is not JSON serializable" |
| Routes.StampedRecordKeepsObjectId | app/routes.py:43-45 | annotating a record stamped with an `_id` succeeds and keeps the ObjectId |
| Routes.FixedEvaluateSucceeds | app/routes.py:43-50 | with the conversion also applied after a failed insertion, the answer is the success envelope with no ObjectId. After a failed insertion, the result's note is the previous note plus the suffix |
| Routes.FixedEvaluateAlwaysSucceeds | app/routes.py:43-50 | with that fix, every record of the pipeline is answered with the success envelope, whatever the insertion did |
| Routes.GetResults | app/routes.py:64-70 | `/results` answers 200, with the fetched list, or exactly `{"status": "error", "message": "Cannot fetch results"}` when fetching failed |

## Left out

- OCR (`app/services/OCRService.py`) is not part of this model. It is a wrapper over image libraries, and its text only feeds the model call, whose reply is an arbitrary input here.
- The language-model client and the prompt template (app/services/logic.py:15-19, 37-46) are foreign library calls. The reply `result.content` is taken to be a string.
- File saving and environment configuration (app/services/logic.py:11-12, 24-26) are I/O. A failed save is one of the stage failures.
- `json.loads` is an uninterpreted decoder. A successful decoding is taken to be an object, because every non-empty text handed to it starts with `{`.
- `str()` of a list or dict score, `str(ObjectId)` and the traceback text are parameters.
- Routes.RespondSuccess: counts every float as serialisable, so "success exactly when the result holds no ObjectId" is weaker than the code for NaN or Infinity feedback. Floats are carried by their Python text form; json.loads accepts `NaN` and `Infinity`, and `JSONResponse` refuses to serialise such a float.
- A decoded dict's keys are taken to be distinct. For a repeated key `json.loads` keeps the last value, whereas `PyValue.Lookup` on the decoder's items takes the first.
- `app/services/db.py` (pymongo) is an oracle. `insert_result` either returns or raises, and may first write an `_id` into the record. `fetch_all_results` returns records or raises.
- `if inserted:` (app/routes.py:40-41) is not modelled: `insert_result` returns None, so that branch never runs.
- `file.filename` is taken to be a string. FastAPI allows it to be None, in which case the path join would raise.
- FastAPI routing, async/await, the duplicated imports and router, `print` logging, `app/services/PromptInput.py` and the commented-out code are not modelled.
- Serialising the list that `get_results` returns happens outside its `try`, in the framework. It is not modelled.
- The code neither range-checks the score against `total_marks` nor checks that the first `{` precedes the last `}`; the model follows the code (`Logic.ScoreNotRangeChecked`, `Logic.ReversedBracesFallBack`).

## Findings

| source | as written | input that shows it | evidently intended | confidence | as-written member | corrected member |
|---|---|---|---|---|---|---|
| app/routes.py:43-48 | after a failed insertion, the record is annotated but not converted, so an `_id` ObjectId the driver wrote into the dict before failing reaches `JSONResponse`. That raises, and the client gets the error envelope | pymongo's `insert_one` adds `_id` to the dict, then raises because the server is unreachable | storage failure still returns the success envelope with the annotated record | medium, not executed; it rests on pymongo writing `_id` into the dict before contacting the server | Routes.EvaluateFailsWhenStampedButNotStored | Routes.FixedEvaluateAlwaysSucceeds |
