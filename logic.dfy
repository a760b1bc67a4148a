/** `process_answer_sheet`: the grading pipeline of one uploaded answer sheet.
    Saving the image, OCR and the language-model call are oracles: each either
    fails with the text of its exception or, for the model, yields its reply.
    `json.loads` is an oracle as well. */
module Logic {
  import opened Wrappers
  import opened PyText
  import opened PyValue

  const TOTAL_MARKS := 10
  const DEFAULT_SCORE := 9
  const DEFAULT_FEEDBACK := "Good Marks"
  const FALLBACK_PREFIX := "Fallback due to unexpected error: "
  /** What `json.loads("")` raises: an empty document is not JSON. */
  const EMPTY_DOCUMENT_ERROR := "Expecting value: line 1 column 1 (char 0)"

  /** How the stages before parsing went: a failure carries `str(e)`,
      the model call its reply `result.content`. */
  datatype Stages = Stages(saveError: Option<string>, ocrError: Option<string>, llm: Result<string>)

  /** `json.loads` on the texts the pipeline hands it. Each non-empty one starts
      with `{`, so a successful decoding is an object, given by its items. */
  type Decoder = string -> Result<Entries>

  /** The reply of the model, or the exception of the first stage that failed:
      the pipeline goes on only while every earlier stage succeeded. */
  function Reply(stages: Stages): (r: Result<string>)
    ensures r.Ok? <==> stages.saveError.None? && stages.ocrError.None? && stages.llm.Ok?
    ensures r.Ok? ==> r.value == stages.llm.value
  {
    if stages.saveError.Some? then Err(stages.saveError.value)
    else if stages.ocrError.Some? then Err(stages.ocrError.value)
    else stages.llm
  }

  /** A failed stage stops the pipeline: what the later stages would have done does not
      matter, and its error is the one raised. */
  lemma FailedStageStopsPipeline(stages: Stages, ocrError: Option<string>, llm: Result<string>)
    ensures stages.saveError.Some? ==>
      Reply(Stages(stages.saveError, ocrError, llm)) == Err(stages.saveError.value)
    ensures stages.saveError.None? && stages.ocrError.Some? ==>
      Reply(Stages(None, stages.ocrError, llm)) == Err(stages.ocrError.value)
  {
  }

  /** The text handed to `json.loads`: from the first `{` through the last `}`,
      or None when either brace is missing. */
  function JsonText(aiText: string): (r: Option<string>)
    ensures r.None? <==> '{' !in aiText || '}' !in aiText
    ensures r.Some? ==>
      var a, b := Find(aiText, '{'), RFind(aiText, '}');
      && 0 <= a < |aiText| && 0 <= b < |aiText|
      && '{' !in aiText[..a] && '}' !in aiText[b + 1..]
      && (a <= b ==> r.value == aiText[a..b + 1] && r.value[0] == '{' && r.value[|r.value| - 1] == '}')
      && (b < a ==> r.value == "")
  {
    var start := Find(aiText, '{');
    var end := RFind(aiText, '}');
    if start != -1 && end != -1 then Some(Slice(aiText, start, end + 1)) else None
  }

  /** `json.loads(text)`: an empty text never decodes; any other is up to the decoder. */
  function JsonLoads(loads: Decoder, text: string): (r: Result<Entries>)
    ensures text == "" ==> r == Err(EMPTY_DOCUMENT_ERROR)
    ensures text != "" ==> r == loads(text)
  {
    if text == "" then Err(EMPTY_DOCUMENT_ERROR) else loads(text)
  }

  /** The dict the pipeline uses when the reply holds no brace pair. */
  function DefaultParsed(): Entries
  {
    [("score", Int(DEFAULT_SCORE)), ("feedback", Str(DEFAULT_FEEDBACK))]
  }

  /** The keys of a graded record, in order. */
  function RecordKeys(): seq<string>
  {
    ["student_id", "file_name", "score", "review"]
  }

  /** The record carries the given student and file name. */
  predicate Echoes(r: Entries, studentId: string, fileName: string)
  {
    |r| >= 2 && r[0] == ("student_id", Str(studentId)) && r[1] == ("file_name", Str(fileName))
  }

  /** Python renders the default score and the total as "9" and "10". */
  lemma MarksRendered(composite: Value -> string)
    ensures PyStr(Int(DEFAULT_SCORE), composite) == "9"
    ensures PyStr(Int(TOTAL_MARKS), composite) == "10"
  {
    assert NatToDecimal(1) == "1";
    assert NatToDecimal(0) == "0";
  }

  /** The record assembled from a decoded dict. */
  function GradedRecord(studentId: string, fileName: string, parsed: Entries, composite: Value -> string): (r: Entries)
    ensures Keys(r) == RecordKeys()
    ensures Echoes(r, studentId, fileName)
  {
    var r := [ ("student_id", Str(studentId)),
      ("file_name", Str(fileName)),
      ("score", Str(PyStr(Get(parsed, "score", Int(DEFAULT_SCORE)), composite) + "/" + PyStr(Int(TOTAL_MARKS), composite))),
      ("review", Get(parsed, "feedback", Str(DEFAULT_FEEDBACK))) ];
    assert Keys(r) == RecordKeys();
    r
  }

  /** The record returned from the `except` branch. */
  function FallbackRecord(studentId: string, fileName: string, error: string): (r: Entries)
    ensures Keys(r) == RecordKeys() + ["note"]
    ensures Echoes(r, studentId, fileName)
    ensures r[4].1.Str? && FALLBACK_PREFIX <= r[4].1.s
  {
    var r := [ ("student_id", Str(studentId)),
      ("file_name", Str(fileName)),
      ("score", Str("9/10")),
      ("review", Str(DEFAULT_FEEDBACK)),
      ("note", Str(FALLBACK_PREFIX + error)) ];
    assert Keys(r) == RecordKeys() + ["note"];
    r
  }

  /** `process_answer_sheet(file, student_id)`: never raises; every failure becomes the fallback record.
      `composite` renders `str()` of a list or dict score. */
  function ProcessAnswerSheet(studentId: string, fileName: string, stages: Stages,
                              loads: Decoder, composite: Value -> string): (r: Entries)
    ensures Echoes(r, studentId, fileName)
    ensures Keys(r) == RecordKeys() || Keys(r) == RecordKeys() + ["note"]
    ensures "note" in Keys(r) ==>
      r[2] == ("score", Str("9/10")) && r[3] == ("review", Str(DEFAULT_FEEDBACK))
      && r[4].1.Str? && FALLBACK_PREFIX <= r[4].1.s
  {
    match Reply(stages)
    case Err(e) => FallbackRecord(studentId, fileName, e)
    case Ok(content) =>
      var aiText := Strip(content);
      match JsonText(aiText)
      case None => GradedRecord(studentId, fileName, DefaultParsed(), composite)
      case Some(text) =>
        match JsonLoads(loads, text)
        case Err(e) => FallbackRecord(studentId, fileName, e)
        case Ok(parsed) => GradedRecord(studentId, fileName, parsed, composite)
  }

  /** True when the `try` block of `process_answer_sheet` raises: a stage fails,
      or the braces are there and decoding fails. */
  predicate Raises(stages: Stages, loads: Decoder)
  {
    || Reply(stages).Err?
    || (var t := JsonText(Strip(Reply(stages).value));
        t.Some? && JsonLoads(loads, t.value).Err?)
  }

  /** Only the exception path adds `note`; every other record has exactly the four keys. */
  lemma NoteOnlyOnException(studentId: string, fileName: string, stages: Stages,
                            loads: Decoder, composite: Value -> string)
    ensures var r := ProcessAnswerSheet(studentId, fileName, stages, loads, composite);
      && ("note" in Keys(r) <==> Raises(stages, loads))
      && (!Raises(stages, loads) ==> Keys(r) == RecordKeys())
  {
    assert "note" !in RecordKeys();
  }

  /** A failing save, OCR or model call yields the fallback record with that stage's error. */
  lemma StageFailureFallsBack(studentId: string, fileName: string, stages: Stages,
                              loads: Decoder, composite: Value -> string)
    requires stages.saveError.Some? || stages.ocrError.Some? || stages.llm.Err?
    ensures ProcessAnswerSheet(studentId, fileName, stages, loads, composite)
            == FallbackRecord(studentId, fileName, Reply(stages).message)
  {
  }

  /** Without a `{` or without a `}` in the stripped reply, the record is the default grade
      and carries no note, whatever the decoder would have said. */
  lemma MissingBraceGivesDefault(studentId: string, fileName: string, reply: string,
                                 loads: Decoder, composite: Value -> string)
    requires var t := Strip(reply); '{' !in t || '}' !in t
    ensures ProcessAnswerSheet(studentId, fileName, Stages(None, None, Ok(reply)), loads, composite)
            == [("student_id", Str(studentId)), ("file_name", Str(fileName)),
                ("score", Str("9/10")), ("review", Str("Good Marks"))]
  {
    MarksRendered(composite);
    var d := DefaultParsed();
    assert Lookup(d, "score") == Some(Int(DEFAULT_SCORE));
    assert Lookup(d[1..], "feedback") == Some(Str(DEFAULT_FEEDBACK));
    assert Get(d, "score", Int(DEFAULT_SCORE)) == Int(DEFAULT_SCORE);
    assert Get(d, "feedback", Str(DEFAULT_FEEDBACK)) == Str(DEFAULT_FEEDBACK);
    var stages := Stages(None, None, Ok(reply));
    assert Reply(stages) == Ok(reply);
    assert JsonText(Strip(reply)) == None;
    assert ProcessAnswerSheet(studentId, fileName, stages, loads, composite)
           == GradedRecord(studentId, fileName, d, composite);
    assert "9" + "/" + "10" == "9/10";
  }

  /** Both braces present but the text between them does not decode: the fallback record,
      whose note starts with the fallback prefix and ends with the decoder's error. */
  lemma DecodeErrorFallsBack(studentId: string, fileName: string, reply: string,
                             loads: Decoder, composite: Value -> string)
    requires var t := Strip(reply); '{' in t && '}' in t && JsonLoads(loads, JsonText(t).value).Err?
    ensures var e := JsonLoads(loads, JsonText(Strip(reply)).value).message;
      ProcessAnswerSheet(studentId, fileName, Stages(None, None, Ok(reply)), loads, composite)
      == [("student_id", Str(studentId)), ("file_name", Str(fileName)),
          ("score", Str("9/10")), ("review", Str("Good Marks")),
          ("note", Str("Fallback due to unexpected error: " + e))]
  {
  }

  /** When every `}` of the stripped reply comes before every `{`, the slice is empty,
      `json.loads` raises on it, and the fallback record results for any decoder. */
  lemma ReversedBracesFallBack(studentId: string, fileName: string, reply: string,
                               loads: Decoder, composite: Value -> string)
    requires var t := Strip(reply);
      && '{' in t && '}' in t
      && forall i, j :: 0 <= i < |t| && 0 <= j < |t| && t[i] == '{' && t[j] == '}' ==> j < i
    ensures ProcessAnswerSheet(studentId, fileName, Stages(None, None, Ok(reply)), loads, composite)
            == FallbackRecord(studentId, fileName, EMPTY_DOCUMENT_ERROR)
  {
    var t := Strip(reply);
    var a, b := Find(t, '{'), RFind(t, '}');
    assert t[a] == '{' && t[b] == '}';
    assert JsonText(t) == Some("");
  }

  /** A reply that the decoder accepts takes the graded branch. */
  lemma DecodedReplyTakesGradedBranch(studentId: string, fileName: string, reply: string,
                                      loads: Decoder, composite: Value -> string, parsed: Entries)
    requires var t := Strip(reply); '{' in t && '}' in t && JsonLoads(loads, JsonText(t).value) == Ok(parsed)
    ensures ProcessAnswerSheet(studentId, fileName, Stages(None, None, Ok(reply)), loads, composite)
         == GradedRecord(studentId, fileName, parsed, composite)
  {
    assert Reply(Stages(None, None, Ok(reply))) == Ok(reply);
  }

  /** The graded record's score is `str(score)` followed by "/10" (9 when the key is absent)
      and its review is `feedback` ("Good Marks" when absent). */
  lemma GradedRecordFields(studentId: string, fileName: string, parsed: Entries, composite: Value -> string)
    ensures var r := GradedRecord(studentId, fileName, parsed, composite);
      && r[2] == ("score", Str(
           (if "score" in Keys(parsed) then PyStr(Lookup(parsed, "score").value, composite) else "9") + "/10"))
      && r[3] == ("review", if "feedback" in Keys(parsed) then Lookup(parsed, "feedback").value
                            else Str("Good Marks"))
  {
    MarksRendered(composite);
    var score := Get(parsed, "score", Int(DEFAULT_SCORE));
    assert score == if "score" in Keys(parsed) then Lookup(parsed, "score").value else Int(DEFAULT_SCORE);
    assert PyStr(score, composite) + "/" + "10" == PyStr(score, composite) + "/10";
    if "score" !in Keys(parsed) {
      assert PyStr(score, composite) + "/10" == "9/10";
    }
  }

  /** A decoded reply gives the score `str(score)` followed by "/10" (9 when the key is absent,
      with no range check) and the review `feedback` ("Good Marks" when absent). */
  lemma DecodedReplyGraded(studentId: string, fileName: string, reply: string,
                           loads: Decoder, composite: Value -> string, parsed: Entries)
    requires var t := Strip(reply); '{' in t && '}' in t && JsonLoads(loads, JsonText(t).value) == Ok(parsed)
    ensures var r := ProcessAnswerSheet(studentId, fileName, Stages(None, None, Ok(reply)), loads, composite);
      && Keys(r) == RecordKeys()
      && Echoes(r, studentId, fileName)
      && r[2] == ("score", Str(
           (if "score" in Keys(parsed) then PyStr(Lookup(parsed, "score").value, composite) else "9") + "/10"))
      && r[3] == ("review", if "feedback" in Keys(parsed) then Lookup(parsed, "feedback").value
                            else Str("Good Marks"))
  {
    DecodedReplyTakesGradedBranch(studentId, fileName, reply, loads, composite, parsed);
    GradedRecordFields(studentId, fileName, parsed, composite);
  }

  /** An integer score is rendered in decimal whatever its size (15 gives "15/10"),
      and the review defaults when `feedback` is absent. */
  lemma ScoreNotRangeChecked(studentId: string, fileName: string, reply: string,
                             loads: Decoder, composite: Value -> string, parsed: Entries, n: int)
    requires var t := Strip(reply); '{' in t && '}' in t && JsonLoads(loads, JsonText(t).value) == Ok(parsed)
    requires Lookup(parsed, "score") == Some(Int(n))
    ensures var r := ProcessAnswerSheet(studentId, fileName, Stages(None, None, Ok(reply)), loads, composite);
      r[2] == ("score", Str(IntToDecimal(n) + "/10"))
  {
    DecodedReplyGraded(studentId, fileName, reply, loads, composite, parsed);
  }

  /** A decoded score of 15 is recorded as "15/10": nothing caps it at the total. */
  lemma FifteenOutOfTen(studentId: string, fileName: string, reply: string,
                        loads: Decoder, composite: Value -> string, parsed: Entries)
    requires var t := Strip(reply); '{' in t && '}' in t && JsonLoads(loads, JsonText(t).value) == Ok(parsed)
    requires Lookup(parsed, "score") == Some(Int(15))
    ensures var r := ProcessAnswerSheet(studentId, fileName, Stages(None, None, Ok(reply)), loads, composite);
      r[2] == ("score", Str("15/10"))
  {
    ScoreNotRangeChecked(studentId, fileName, reply, loads, composite, parsed, 15);
    FifteenRendered();
  }

  lemma FifteenRendered()
    ensures IntToDecimal(15) + "/10" == "15/10"
  {
    assert NatToDecimal(1) == "1";
    assert NatToDecimal(15) == "15";
  }

  /** A stripped reply that is a whole object, from its first to its last character,
      is handed to the decoder as it stands. */
  lemma WholeReplyDecoded(reply: string)
    requires var t := Strip(reply); |t| >= 2 && t[0] == '{' && t[|t| - 1] == '}'
    ensures JsonText(Strip(reply)) == Some(Strip(reply))
  {
    var t := Strip(reply);
    assert Find(t, '{') == 0;
    assert RFind(t, '}') == |t| - 1;
    assert t[0..|t|] == t;
  }

  /** The decoded object of the worked example below. */
  function ExampleParsed(): Entries
  {
    [("score", Int(7)), ("feedback", Str("Correct core idea, missing detail"))]
  }

  /** The fields the pipeline reads from the object of the worked example. */
  lemma ExampleFields(composite: Value -> string)
    ensures "score" in Keys(ExampleParsed()) && "feedback" in Keys(ExampleParsed())
    ensures PyStr(Lookup(ExampleParsed(), "score").value, composite) + "/10" == "7/10"
    ensures Lookup(ExampleParsed(), "feedback") == Some(Str("Correct core idea, missing detail"))
  {
    var parsed := ExampleParsed();
    assert Keys(parsed) == ["score", "feedback"];
    assert Lookup(parsed[1..], "feedback") == Some(Str("Correct core idea, missing detail"));
    assert NatToDecimal(7) == "7";
  }

  /** A worked example: the model replies with an object of score 7 and
      feedback "Correct core idea, missing detail", and the record carries "7/10" and that feedback. */
  lemma GradedExample(reply: string, loads: Decoder, composite: Value -> string)
    requires var t := Strip(reply); |t| >= 2 && t[0] == '{' && t[|t| - 1] == '}'
    requires loads(Strip(reply)) == Ok(ExampleParsed())
    ensures ProcessAnswerSheet("S1", "sheet1.png", Stages(None, None, Ok(reply)), loads, composite)
            == [("student_id", Str("S1")), ("file_name", Str("sheet1.png")),
                ("score", Str("7/10")), ("review", Str("Correct core idea, missing detail"))]
  {
    WholeReplyDecoded(reply);
    ExampleFields(composite);
    DecodedReplyGraded("S1", "sheet1.png", reply, loads, composite, ExampleParsed());
  }

  /** The decoder only ever produces JSON, so no `ObjectId`. */
  ghost predicate JsonDecoder(loads: Decoder)
  {
    forall text :: loads(text).Ok? ==> NoObjectIdIn(loads(text).value)
  }

  /** A record assembled from a dict without ObjectIds holds none. */
  lemma GradedRecordNoObjectId(studentId: string, fileName: string, parsed: Entries, composite: Value -> string)
    requires NoObjectIdIn(parsed)
    ensures NoObjectIdIn(GradedRecord(studentId, fileName, parsed, composite))
  {
    GetNoObjectId(parsed, "feedback", Str(DEFAULT_FEEDBACK));
  }

  /** A record built from JSON holds no `ObjectId`. */
  lemma RecordHasNoObjectId(studentId: string, fileName: string, stages: Stages,
                            loads: Decoder, composite: Value -> string)
    requires JsonDecoder(loads)
    ensures NoObjectIdIn(ProcessAnswerSheet(studentId, fileName, stages, loads, composite))
  {
    if Reply(stages).Ok? {
      var t := JsonText(Strip(Reply(stages).value));
      if t.None? {
        GradedRecordNoObjectId(studentId, fileName, DefaultParsed(), composite);
      } else if JsonLoads(loads, t.value).Ok? {
        assert t.value != "" && JsonLoads(loads, t.value) == loads(t.value);
        GradedRecordNoObjectId(studentId, fileName, JsonLoads(loads, t.value).value, composite);
      }
    }
  }

  /** In a record with the fallback keys, `note` is the fifth item. */
  lemma FallbackNoteLookup(r: Entries)
    requires Keys(r) == RecordKeys() + ["note"]
    ensures Lookup(r, "note") == Some(r[4].1)
  {
    assert Keys(r)[..4] == RecordKeys();
    assert Keys(r[..4]) == Keys(r)[..4];
    assert r[4].0 == Keys(r)[4] == "note";
    assert "note" !in RecordKeys();
    LookupFirst(r, 4);
  }

  /** The record shapes `process_answer_sheet` builds carry no `_id` and a text note, if any. */
  lemma NoteIsText(r: Entries)
    requires Keys(r) == RecordKeys() || (Keys(r) == RecordKeys() + ["note"] && r[4].1.Str?)
    ensures "_id" !in Keys(r) && Get(r, "note", Str("")).Str?
  {
    if Keys(r) != RecordKeys() {
      FallbackNoteLookup(r);
    }
  }

  /** A record holds no `_id`, and its note, if any, is a string. */
  lemma RecordNoteIsText(studentId: string, fileName: string, stages: Stages,
                         loads: Decoder, composite: Value -> string)
    ensures var r := ProcessAnswerSheet(studentId, fileName, stages, loads, composite);
      "_id" !in Keys(r) && Get(r, "note", Str("")).Str?
  {
    var r := ProcessAnswerSheet(studentId, fileName, stages, loads, composite);
    NoteIsText(r);
  }
}
