/** The HTTP layer: `convert_objectid_to_str`, the control logic of `POST /evaluate`
    and of `GET /results`. Storage is an oracle (see `InsertOutcome`, `FetchOutcome`),
    the traceback text of an unexpected error a parameter. */
module Routes {
  import opened Wrappers
  import opened PyValue
  import Logic

  /** `convert_objectid_to_str(data)`: every `ObjectId` becomes `str(oid)`, given by `oidStr`;
      dicts and lists are rebuilt item by item, every other value is kept. */
  function Convert(v: Value, oidStr: seq<bv8> -> string): (r: Value)
    ensures NoObjectId(r)
    ensures NoObjectId(v) ==> r == v
    ensures v.Dict? ==> r.Dict? && Keys(r.entries) == Keys(v.entries)
    ensures v.List? ==> r.List? && |r.items| == |v.items|
    ensures v.ObjectId? ==> r == Str(oidStr(v.id))
    ensures IsPlainScalar(v) ==> r == v
    decreases v
  {
    match v
    case Dict(es) =>
      var cs := seq(|es|, i requires 0 <= i < |es| => (es[i].0, Convert(es[i].1, oidStr)));
      assert Keys(cs) == Keys(es);
      assert NoObjectId(v) ==> cs == es;
      Dict(cs)
    case List(xs) =>
      var cs := seq(|xs|, i requires 0 <= i < |xs| => Convert(xs[i], oidStr));
      assert NoObjectId(v) ==> cs == xs;
      List(cs)
    case ObjectId(id) => Str(oidStr(id))
    case _ => v
  }

  /** Converting twice is converting once: the result holds no `ObjectId` left to convert. */
  lemma ConvertIdempotent(v: Value, oidStr: seq<bv8> -> string)
    ensures Convert(Convert(v, oidStr), oidStr) == Convert(v, oidStr)
  {
  }

  /** A dict keeps its keys in order; each value is converted on its own. */
  lemma ConvertDictItem(es: Entries, oidStr: seq<bv8> -> string, i: nat)
    requires i < |es|
    ensures var r := Convert(Dict(es), oidStr);
      r.Dict? && |r.entries| == |es| && r.entries[i] == (es[i].0, Convert(es[i].1, oidStr))
  {
  }

  /** A list keeps its length and order; each element is converted on its own. */
  lemma ConvertListItem(xs: seq<Value>, oidStr: seq<bv8> -> string, i: nat)
    requires i < |xs|
    ensures var r := Convert(List(xs), oidStr);
      r.List? && |r.items| == |xs| && r.items[i] == Convert(xs[i], oidStr)
  {
  }

  /** A Python dict object, updated in place through `d[k] = v`. */
  class DictObject {
    var entries: Entries

    constructor (es: Entries)
      ensures entries == es
    {
      entries := es;
    }

    /** `d.get(k, default)`. */
    function Get(k: string, default: Value): Value
      reads this
    {
      PyValue.Get(entries, k, default)
    }

    /** `d[k] = v`. */
    method Set(k: string, v: Value)
      modifies this
      ensures entries == Put(old(entries), k, v)
    {
      entries := Put(entries, k, v);
    }
  }

  const INSERT_FAILED_NOTE := " | DB insertion failed."
  /** What `list + str` raises. */
  const LIST_CONCAT_ERROR := "can only concatenate list (not " + "\"str\"" + ") to list"
  /** How the `TypeError` of any other operand type begins. */
  const UNSUPPORTED_OPERAND := "unsupported operand type(s) for +: '"

  /** Python's name for the type of `v`, as error messages print it. */
  function TypeName(v: Value): (r: string)
    ensures r == "str" <==> v.Str?
    ensures r == "list" <==> v.List?
  {
    match v
    case Null => "NoneType"
    case Bool(_) => "bool"
    case Int(_) => "int"
    case Float(_) => "float"
    case Str(_) => "str"
    case List(_) => "list"
    case Dict(_) => "dict"
    case ObjectId(_) => "ObjectId"
  }

  /** `str(e)` of the `TypeError` raised by `v + " | DB insertion failed."` when `v` is no string. */
  function ConcatError(v: Value): (r: string)
    ensures v.List? <==> r == LIST_CONCAT_ERROR
    ensures !v.List? ==> r == UNSUPPORTED_OPERAND + TypeName(v) + "' and 'str'"
  {
    if v.List? then LIST_CONCAT_ERROR
    else
      var r := UNSUPPORTED_OPERAND + TypeName(v) + "' and 'str'";
      assert r[0] == 'u';
      assert LIST_CONCAT_ERROR[0] == 'c';
      r
  }

  /** `result["note"] = result.get("note", "") + " | DB insertion failed."` on a dict value:
      the note becomes the previous note (or "") followed by the suffix and nothing else changes;
      a note that is not a string makes the concatenation raise. */
  function AnnotateNote(es: Entries): (r: Result<Entries>)
    ensures var prior := PyValue.Get(es, "note", Str(""));
      && (prior.Str? <==> r.Ok?)
      && (r.Err? ==> r.message == ConcatError(prior))
      && (r.Ok? ==>
            && Lookup(r.value, "note") == Some(Str(prior.s + INSERT_FAILED_NOTE))
            && (forall k :: k != "note" ==> Lookup(r.value, k) == Lookup(es, k))
            && Keys(r.value) == if "note" in Keys(es) then Keys(es) else Keys(es) + ["note"])
  {
    var prior := PyValue.Get(es, "note", Str(""));
    if prior.Str? then
      var note := Str(prior.s + INSERT_FAILED_NOTE);
      PutKeys(es, "note", note);
      assert forall k :: Lookup(Put(es, "note", note), k) == if k == "note" then Some(note) else Lookup(es, k) by {
        forall k { PutLookup(es, "note", note, k); }
      }
      Ok(Put(es, "note", note))
    else Err(ConcatError(prior))
  }

  /** The note annotation of the `except` branch, on the dict object itself. */
  method AnnotateInsertFailure(result: DictObject) returns (error: Option<string>)
    modifies result
    ensures match AnnotateNote(old(result.entries))
      case Ok(es) => error.None? && result.entries == es
      case Err(m) => error == Some(m) && result.entries == old(result.entries)
  {
    var prior := result.Get("note", Str(""));
    if prior.Str? {
      result.Set("note", Str(prior.s + INSERT_FAILED_NOTE));
      error := None;
    } else {
      error := Some(ConcatError(prior));
    }
  }

  /** What `insert_result(result)` did: the `_id` the driver wrote into the dict in place
      before sending it (a MongoDB driver adds one to a document that has none), and the
      text of the exception when the insertion raised. */
  datatype InsertOutcome = InsertOutcome(stampedId: Option<seq<bv8>>, error: Option<string>)

  /** What `fetch_all_results()` returned, or the text of what it raised. */
  type FetchOutcome = Result<seq<Value>>

  /** An HTTP response: its status code and its JSON content. */
  datatype Response = Response(statusCode: int, content: Value)

  /** What `JSONResponse` raises for a value holding an `ObjectId`. */
  const NOT_SERIALIZABLE := "Object of type ObjectId is not JSON serializable"

  function SuccessEnvelope(result: Entries): Value
  {
    Dict([("status", Str("success")), ("result", Dict(result))])
  }

  function ErrorEnvelope(message: string, trace: string): Value
  {
    Dict([("status", Str("error")), ("message", Str(message)), ("trace", Str(trace))])
  }

  /** `JSONResponse({"status": "success", "result": result}, 200)` inside the outer `try`:
      a result that cannot be serialised is answered by the outer `except`. */
  function RespondSuccess(result: Entries, trace: string): (r: Response)
    ensures r.statusCode == 200
    ensures NoObjectIdIn(result) <==> r.content == SuccessEnvelope(result)
    ensures !NoObjectIdIn(result) <==> r.content == ErrorEnvelope(NOT_SERIALIZABLE, trace)
  {
    var body := SuccessEnvelope(result);
    assert NoObjectId(body) <==> NoObjectIdIn(result) by {
      assert body.entries[1].1 == Dict(result);
    }
    if NoObjectId(body) then Response(200, body) else Response(200, ErrorEnvelope(NOT_SERIALIZABLE, trace))
  }

  /** The record after the driver's in-place `_id`, if any. */
  function Stamped(record: Entries, insert: InsertOutcome): (r: Entries)
    ensures insert.stampedId.None? ==> r == record
    ensures insert.stampedId.Some? ==> Lookup(r, "_id") == Some(ObjectId(insert.stampedId.value))
    ensures insert.stampedId.Some? && "_id" !in Keys(record) ==>
      r == record + [("_id", ObjectId(insert.stampedId.value))]
  {
    if insert.stampedId.Some? then
      var oid := ObjectId(insert.stampedId.value);
      PutLookup(record, "_id", oid, "_id");
      if "_id" !in Keys(record) then PutNewKey(record, "_id", oid); Put(record, "_id", oid)
      else Put(record, "_id", oid)
    else record
  }

  /** The response of `evaluate_answer` for the record `process_answer_sheet` returned:
      always 200, with the success envelope or an error envelope. */
  function EvaluateResponse(record: Entries, insert: InsertOutcome, oidStr: seq<bv8> -> string,
                            trace: string): (r: Response)
    ensures r.statusCode == 200
    ensures r.content.Dict? && |r.content.entries| >= 2 && r.content.entries[0].0 == "status"
    ensures r.content.entries[0].1 == Str("success") || r.content.entries[0].1 == Str("error")
  {
    var stamped := Stamped(record, insert);
    if insert.error.None? then RespondSuccess(Convert(Dict(stamped), oidStr).entries, trace)
    else
      match AnnotateNote(stamped)
      case Err(m) => Response(200, ErrorEnvelope(m, trace))
      case Ok(annotated) => RespondSuccess(annotated, trace)
  }

  /** `POST /evaluate`. */
  method EvaluateAnswer(studentId: string, fileName: string, stages: Logic.Stages,
                        loads: Logic.Decoder, composite: Value -> string,
                        insert: InsertOutcome, oidStr: seq<bv8> -> string, trace: string)
    returns (response: Response)
    ensures response == EvaluateResponse(Logic.ProcessAnswerSheet(studentId, fileName, stages, loads, composite),
                                         insert, oidStr, trace)
  {
    var result := new DictObject(Logic.ProcessAnswerSheet(studentId, fileName, stages, loads, composite));
    if insert.stampedId.Some? {
      result.Set("_id", ObjectId(insert.stampedId.value));
    }
    if insert.error.None? {
      result := new DictObject(Convert(Dict(result.entries), oidStr).entries);
    } else {
      var error := AnnotateInsertFailure(result);
      if error.Some? {
        response := Response(200, ErrorEnvelope(error.value, trace));
        return;
      }
    }
    response := RespondSuccess(result.entries, trace);
  }

  /** `GET /results`: the stored records, or the fixed error envelope; status 200 either way. */
  function GetResults(fetch: FetchOutcome): (r: Response)
    ensures r.statusCode == 200
    ensures fetch.Ok? ==> r.content == List(fetch.value)
    ensures fetch.Err? <==> r.content == Dict([("status", Str("error")), ("message", Str("Cannot fetch results"))])
  {
    match fetch
    case Ok(records) => Response(200, List(records))
    case Err(_) => Response(200, Dict([("status", Str("error")), ("message", Str("Cannot fetch results"))]))
  }

  /** The driver's `_id`, as the record carries it after the insertion. */
  function StampedIdItem(insert: InsertOutcome, oidStr: seq<bv8> -> string): Entries
  {
    if insert.stampedId.Some? then [("_id", Str(oidStr(insert.stampedId.value)))] else []
  }

  /** A stored record without ObjectIds or `_id` is answered with the success envelope:
      the record followed by the string form of the `_id` the driver gave it. */
  lemma StoredRecordSucceeds(record: Entries, insert: InsertOutcome, oidStr: seq<bv8> -> string, trace: string)
    requires NoObjectIdIn(record) && "_id" !in Keys(record) && insert.error.None?
    ensures EvaluateResponse(record, insert, oidStr, trace)
            == Response(200, SuccessEnvelope(record + StampedIdItem(insert, oidStr)))
  {
    var stamped := Stamped(record, insert);
    var expected := record + StampedIdItem(insert, oidStr);
    if insert.stampedId.Some? {
      PutNewKey(record, "_id", ObjectId(insert.stampedId.value));
    }
    var converted := Convert(Dict(stamped), oidStr).entries;
    forall i | 0 <= i < |expected| ensures converted[i] == expected[i] {
      ConvertDictItem(stamped, oidStr, i);
      if i < |record| {
        assert NoObjectId(record[i].1);
      }
    }
    assert converted == expected;
  }

  /** A stored record of the pipeline is answered with the success envelope: the record,
      followed by the string form of the `_id` the driver gave it. */
  lemma EvaluateSucceedsWhenStored(studentId: string, fileName: string, stages: Logic.Stages,
                                   loads: Logic.Decoder, composite: Value -> string,
                                   insert: InsertOutcome, oidStr: seq<bv8> -> string, trace: string)
    requires Logic.JsonDecoder(loads) && insert.error.None?
    ensures var record := Logic.ProcessAnswerSheet(studentId, fileName, stages, loads, composite);
      EvaluateResponse(record, insert, oidStr, trace)
      == Response(200, SuccessEnvelope(record + StampedIdItem(insert, oidStr)))
  {
    Logic.RecordHasNoObjectId(studentId, fileName, stages, loads, composite);
    Logic.RecordNoteIsText(studentId, fileName, stages, loads, composite);
    StoredRecordSucceeds(Logic.ProcessAnswerSheet(studentId, fileName, stages, loads, composite),
                         insert, oidStr, trace);
  }

  /** A failed insertion that left the record untouched is still answered with the success
      envelope, the record carrying the note of the failure. */
  lemma EvaluateAnnotatesWhenNotStored(studentId: string, fileName: string, stages: Logic.Stages,
                                       loads: Logic.Decoder, composite: Value -> string,
                                       insert: InsertOutcome, oidStr: seq<bv8> -> string, trace: string)
    requires Logic.JsonDecoder(loads) && insert.error.Some? && insert.stampedId.None?
    ensures var record := Logic.ProcessAnswerSheet(studentId, fileName, stages, loads, composite);
      && AnnotateNote(record).Ok?
      && EvaluateResponse(record, insert, oidStr, trace)
         == Response(200, SuccessEnvelope(AnnotateNote(record).value))
  {
    var record := Logic.ProcessAnswerSheet(studentId, fileName, stages, loads, composite);
    Logic.RecordHasNoObjectId(studentId, fileName, stages, loads, composite);
    Logic.RecordNoteIsText(studentId, fileName, stages, loads, composite);
    var prior := PyValue.Get(record, "note", Str(""));
    PutNoObjectId(record, "note", Str(prior.s + INSERT_FAILED_NOTE));
  }

  /** A failed insertion after the driver stamped `_id` in place: the note is added, but the
      unconverted `ObjectId` cannot be serialised, so the outer `except` answers with the
      error envelope instead of the result. */
  lemma EvaluateFailsWhenStampedButNotStored(studentId: string, fileName: string, stages: Logic.Stages,
                                             loads: Logic.Decoder, composite: Value -> string,
                                             insert: InsertOutcome, oidStr: seq<bv8> -> string, trace: string)
    requires insert.error.Some? && insert.stampedId.Some?
    ensures var record := Logic.ProcessAnswerSheet(studentId, fileName, stages, loads, composite);
      EvaluateResponse(record, insert, oidStr, trace) == Response(200, ErrorEnvelope(NOT_SERIALIZABLE, trace))
  {
    var record := Logic.ProcessAnswerSheet(studentId, fileName, stages, loads, composite);
    Logic.RecordNoteIsText(studentId, fileName, stages, loads, composite);
    StampedRecordKeepsObjectId(record, insert.stampedId.value);
  }

  /** Annotating a record stamped with an `_id` succeeds and keeps the `ObjectId`. */
  lemma StampedRecordKeepsObjectId(record: Entries, id: seq<bv8>)
    requires PyValue.Get(record, "note", Str("")).Str?
    ensures var annotated := AnnotateNote(Put(record, "_id", ObjectId(id)));
      annotated.Ok? && !NoObjectIdIn(annotated.value)
  {
    var oid := ObjectId(id);
    var stamped := Put(record, "_id", oid);
    PutLookup(record, "_id", oid, "note");
    var prior := PyValue.Get(stamped, "note", Str(""));
    assert prior.Str?;
    var annotated := Put(stamped, "note", Str(prior.s + INSERT_FAILED_NOTE));
    assert AnnotateNote(stamped) == Ok(annotated);
    PutLookup(stamped, "note", Str(prior.s + INSERT_FAILED_NOTE), "_id");
    PutLookup(record, "_id", oid, "_id");
    LookupObjectId(annotated, "_id", id);
  }

  /** A dict in which some key gives an `ObjectId` is not free of them. */
  lemma LookupObjectId(es: Entries, k: string, id: seq<bv8>)
    requires Lookup(es, k) == Some(ObjectId(id))
    ensures !NoObjectIdIn(es)
  {
    var i :| 0 <= i < |es| && es[i] == (k, ObjectId(id)) && k !in Keys(es[..i]);
    assert !NoObjectId(es[i].1);
  }

  /** Looking a key up after conversion gives the converted value stored under it. */
  lemma {:induction false} ConvertLookup(es: Entries, oidStr: seq<bv8> -> string, k: string)
    ensures var c := Convert(Dict(es), oidStr).entries;
      Lookup(c, k) == if k in Keys(es) then Some(Convert(Lookup(es, k).value, oidStr)) else None
  {
    if es != [] {
      ConvertDictTail(es, oidStr);
      ConvertDictItem(es, oidStr, 0);
      assert Keys(es) == [es[0].0] + Keys(es[1..]);
      ConvertLookup(es[1..], oidStr, k);
    }
  }

  /** Converting a dict and dropping its first item is converting the rest of it. */
  lemma ConvertDictTail(es: Entries, oidStr: seq<bv8> -> string)
    requires es != []
    ensures Convert(Dict(es), oidStr).entries[1..] == Convert(Dict(es[1..]), oidStr).entries
  {
    var c := Convert(Dict(es), oidStr).entries;
    var rest := Convert(Dict(es[1..]), oidStr).entries;
    forall i | 0 <= i < |rest| ensures c[1..][i] == rest[i] {
      ConvertDictItem(es, oidStr, i + 1);
      ConvertDictItem(es[1..], oidStr, i);
    }
  }

  /** `evaluate_answer` with the conversion applied in the `except` branch as well,
      so that the annotated record is serialised without its `ObjectId`. */
  function EvaluateResponseFixed(record: Entries, insert: InsertOutcome, oidStr: seq<bv8> -> string,
                                 trace: string): Response
  {
    var stamped := Stamped(record, insert);
    if insert.error.None? then RespondSuccess(Convert(Dict(stamped), oidStr).entries, trace)
    else
      match AnnotateNote(stamped)
      case Err(m) => Response(200, ErrorEnvelope(m, trace))
      case Ok(annotated) => RespondSuccess(Convert(Dict(annotated), oidStr).entries, trace)
  }

  /** The success envelope of a converted dict. */
  predicate IsConvertedSuccess(r: Response)
  {
    && r.statusCode == 200
    && r.content.Dict? && |r.content.entries| == 2
    && r.content.entries[0] == ("status", Str("success"))
    && r.content.entries[1].0 == "result" && r.content.entries[1].1.Dict?
    && NoObjectId(r.content.entries[1].1)
  }

  /** Sending a converted dict always succeeds. */
  lemma RespondConverted(es: Entries, oidStr: seq<bv8> -> string, trace: string)
    ensures var c := Convert(Dict(es), oidStr).entries;
      IsConvertedSuccess(RespondSuccess(c, trace)) && RespondSuccess(c, trace).content.entries[1].1 == Dict(c)
  {
    var c := Convert(Dict(es), oidStr).entries;
    assert NoObjectId(Dict(c));
  }

  /** With the fix, every record whose note is text is answered with the success envelope,
      whatever the insertion did; after a failed insertion the record carries the note. */
  lemma FixedEvaluateSucceeds(record: Entries, insert: InsertOutcome, oidStr: seq<bv8> -> string, trace: string)
    requires PyValue.Get(record, "note", Str("")).Str?
    ensures var r := EvaluateResponseFixed(record, insert, oidStr, trace);
      && IsConvertedSuccess(r)
      && (insert.error.Some? ==>
            Lookup(r.content.entries[1].1.entries, "note")
            == Some(Str(PyValue.Get(record, "note", Str("")).s + INSERT_FAILED_NOTE)))
  {
    var stamped := Stamped(record, insert);
    if insert.stampedId.Some? {
      PutLookup(record, "_id", ObjectId(insert.stampedId.value), "note");
    }
    assert Lookup(stamped, "note") == Lookup(record, "note");
    if insert.error.Some? {
      var annotated := AnnotateNote(stamped).value;
      ConvertLookup(annotated, oidStr, "note");
      RespondConverted(annotated, oidStr, trace);
    } else {
      RespondConverted(stamped, oidStr, trace);
    }
  }

  /** With the fix, `/evaluate` answers every record of the pipeline with the success envelope. */
  lemma FixedEvaluateAlwaysSucceeds(studentId: string, fileName: string, stages: Logic.Stages,
                                    loads: Logic.Decoder, composite: Value -> string,
                                    insert: InsertOutcome, oidStr: seq<bv8> -> string, trace: string)
    ensures var record := Logic.ProcessAnswerSheet(studentId, fileName, stages, loads, composite);
      IsConvertedSuccess(EvaluateResponseFixed(record, insert, oidStr, trace))
  {
    Logic.RecordNoteIsText(studentId, fileName, stages, loads, composite);
    FixedEvaluateSucceeds(Logic.ProcessAnswerSheet(studentId, fileName, stages, loads, composite),
                          insert, oidStr, trace);
  }
}
