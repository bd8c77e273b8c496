/** The unified training-record format every data stream writes. */
module Schema {
  import opened Wrappers
  import PyStr
  import Json

  /** One training example; every field but the context snippet is required. */
  datatype DataRecord = DataRecord(
    id: string,
    source: string,
    sourceUrl: string,
    license: string,
    taskType: string,
    inputText: string,
    outputDot: string,
    verificationStatus: string,
    scrapedAt: string,
    contextSnippet: Option<string>)

  /** The fields `validate` checks, in the order it checks them. */
  datatype Field = Id | Source | SourceUrl | License | TaskType | InputText | OutputDot | VerificationStatus | ScrapedAt

  const CheckOrder: seq<Field> := [Id, Source, SourceUrl, License, TaskType, InputText, OutputDot, VerificationStatus, ScrapedAt]

  /** The JSON key of a checked field. */
  function FieldKey(f: Field): string {
    match f
    case Id => "id"
    case Source => "source"
    case SourceUrl => "source_url"
    case License => "license"
    case TaskType => "task_type"
    case InputText => "input_text"
    case OutputDot => "output_dot"
    case VerificationStatus => "verification_status"
    case ScrapedAt => "scraped_at"
  }

  const ContextKey := "context_snippet"

  /** Every key of a serialised record. */
  const RecordKeys: set<string> := {"id", "source", "source_url", "license", "task_type", "input_text",
    "output_dot", "verification_status", "scraped_at", "context_snippet"}

  const TaskTypes: set<string> := {"NL_TO_DOT", "CODE_TO_DOT"}
  const Statuses: set<string> := {"passed_compiler", "failed_compiler"}

  /** Whether `datetime.fromisoformat` accepts a text is a parameter of the model;
      the schema hands it the timestamp with a trailing 'Z' spelled "+00:00". */
  function IsoInput(scrapedAt: string): string {
    PyStr.ReplaceAll(scrapedAt, "Z", "+00:00")
  }

  /** The acceptance rule for one field. */
  predicate FieldOk(r: DataRecord, f: Field, isoParses: string -> bool) {
    match f
    case Id => r.id != ""
    case Source => r.source != ""
    case SourceUrl => r.sourceUrl != ""
    case License => r.license != ""
    case TaskType => r.taskType in TaskTypes
    case InputText => r.inputText != ""
    case OutputDot => r.outputDot != ""
    case VerificationStatus => r.verificationStatus in Statuses
    case ScrapedAt => isoParses(IsoInput(r.scrapedAt))
  }

  /** Every field is checked. */
  lemma EveryFieldChecked()
    ensures forall f: Field :: f in CheckOrder
  {
    forall f: Field ensures f in CheckOrder {
      match f
      case Id => assert CheckOrder[0] == f;
      case Source => assert CheckOrder[1] == f;
      case SourceUrl => assert CheckOrder[2] == f;
      case License => assert CheckOrder[3] == f;
      case TaskType => assert CheckOrder[4] == f;
      case InputText => assert CheckOrder[5] == f;
      case OutputDot => assert CheckOrder[6] == f;
      case VerificationStatus => assert CheckOrder[7] == f;
      case ScrapedAt => assert CheckOrder[8] == f;
    }
  }

  /** What the message says about field `f` after naming it. */
  function Complaint(r: DataRecord, f: Field): string {
    match f
    case TaskType => "must be NL_TO_DOT or CODE_TO_DOT, got " + r.taskType
    case VerificationStatus => "must be passed_compiler or failed_compiler, got " + r.verificationStatus
    case ScrapedAt => "must be valid ISO 8601 timestamp, got " + r.scrapedAt
    case _ => "cannot be empty"
  }

  /** The message reported when field `f` is rejected: it starts with the
      field's key. */
  function Message(r: DataRecord, f: Field): (m: string)
    ensures PyStr.StartsWith(m, FieldKey(f) + " ")
  {
    PyStr.StartsWithConcat(FieldKey(f) + " ", Complaint(r, f));
    FieldKey(f) + " " + Complaint(r, f)
  }

  /** Check number `k` is the first, in check order, that the record fails. */
  predicate RejectedFirst(r: DataRecord, k: int, isoParses: string -> bool) {
    0 <= k < |CheckOrder| && !FieldOk(r, CheckOrder[k], isoParses)
    && forall j :: 0 <= j < k ==> FieldOk(r, CheckOrder[j], isoParses)
  }

  /** At most one check is the first to fail. */
  lemma RejectedFirstUnique(r: DataRecord, k1: int, k2: int, isoParses: string -> bool)
    requires RejectedFirst(r, k1, isoParses) && RejectedFirst(r, k2, isoParses)
    ensures k1 == k2
  {
  }

  /** `DataRecord.validate()`: the field checks in order, stopping at the
      first failure. */
  function Validate(r: DataRecord, isoParses: string -> bool): (res: (bool, Option<string>))
    ensures res.0 <==> res.1 == None
  {
    if r.id == "" then (false, Some(Message(r, Id)))
    else if r.source == "" then (false, Some(Message(r, Source)))
    else if r.sourceUrl == "" then (false, Some(Message(r, SourceUrl)))
    else if r.license == "" then (false, Some(Message(r, License)))
    else if r.taskType !in TaskTypes then (false, Some(Message(r, TaskType)))
    else if r.inputText == "" then (false, Some(Message(r, InputText)))
    else if r.outputDot == "" then (false, Some(Message(r, OutputDot)))
    else if r.verificationStatus !in Statuses then (false, Some(Message(r, VerificationStatus)))
    else if !isoParses(IsoInput(r.scrapedAt)) then (false, Some(Message(r, ScrapedAt)))
    else (true, None)
  }

  /** A record is accepted exactly when every field passes its rule; otherwise
      the message is the one for the first field, in check order, that fails. */
  lemma ValidateMeaning(r: DataRecord, isoParses: string -> bool)
    ensures Validate(r, isoParses).0 <==> forall f: Field :: FieldOk(r, f, isoParses)
    ensures !Validate(r, isoParses).0 ==>
      exists k :: RejectedFirst(r, k, isoParses) && Validate(r, isoParses).1 == Some(Message(r, CheckOrder[k]))
  {
    if !Validate(r, isoParses).0 {
      var k := ValidateRejectsFirst(r, isoParses);
      assert !FieldOk(r, CheckOrder[k], isoParses);
    }
  }

  /** A rejected record fails some check, and the message names the first
      check it fails. */
  lemma ValidateRejectsFirst(r: DataRecord, isoParses: string -> bool) returns (k: nat)
    requires !Validate(r, isoParses).0
    ensures RejectedFirst(r, k, isoParses) && Validate(r, isoParses).1 == Some(Message(r, CheckOrder[k]))
  {
    if r.id == "" || r.source == "" || r.sourceUrl == "" || r.license == "" {
      k := RejectsEarly(r, isoParses);
    } else {
      k := RejectsLate(r, isoParses);
    }
  }

  /** A record with an empty id, source, URL or licence fails there first. */
  lemma RejectsEarly(r: DataRecord, isoParses: string -> bool) returns (k: nat)
    requires r.id == "" || r.source == "" || r.sourceUrl == "" || r.license == ""
    ensures RejectedFirst(r, k, isoParses) && Validate(r, isoParses).1 == Some(Message(r, CheckOrder[k]))
  {
    k := if r.id == "" then 0
      else if r.source == "" then 1
      else if r.sourceUrl == "" then 2
      else 3;
  }

  /** A rejected record that passes the first four checks fails a later one
      first. */
  lemma RejectsLate(r: DataRecord, isoParses: string -> bool) returns (k: nat)
    requires r.id != "" && r.source != "" && r.sourceUrl != "" && r.license != ""
    requires !Validate(r, isoParses).0
    ensures RejectedFirst(r, k, isoParses) && Validate(r, isoParses).1 == Some(Message(r, CheckOrder[k]))
  {
    PassesFirstFour(r, isoParses);
    if r.taskType !in TaskTypes {
      k := 4;
    } else if r.inputText == "" {
      PassesStep(r, 4, isoParses);
      k := 5;
    } else {
      k := RejectsLast(r, isoParses);
    }
  }

  /** A rejected record that passes the first six checks fails one of the
      last three first. */
  lemma RejectsLast(r: DataRecord, isoParses: string -> bool) returns (k: nat)
    requires r.id != "" && r.source != "" && r.sourceUrl != "" && r.license != ""
    requires r.taskType in TaskTypes && r.inputText != ""
    requires !Validate(r, isoParses).0
    ensures RejectedFirst(r, k, isoParses) && Validate(r, isoParses).1 == Some(Message(r, CheckOrder[k]))
  {
    PassesFirstSix(r, isoParses);
    if r.outputDot == "" {
      k := 6;
    } else if r.verificationStatus !in Statuses {
      PassesStep(r, 6, isoParses);
      k := 7;
    } else {
      PassesStep(r, 6, isoParses);
      PassesStep(r, 7, isoParses);
      k := 8;
    }
  }

  /** A record whose first six fields pass passes the first six checks. */
  lemma PassesFirstSix(r: DataRecord, isoParses: string -> bool)
    requires r.id != "" && r.source != "" && r.sourceUrl != "" && r.license != ""
    requires r.taskType in TaskTypes && r.inputText != ""
    ensures forall j :: 0 <= j < 6 ==> FieldOk(r, CheckOrder[j], isoParses)
  {
    PassesFirstFour(r, isoParses);
    PassesStep(r, 4, isoParses);
    PassesStep(r, 5, isoParses);
  }

  /** A record whose first four fields are not empty passes the first four
      checks. */
  lemma PassesFirstFour(r: DataRecord, isoParses: string -> bool)
    requires r.id != "" && r.source != "" && r.sourceUrl != "" && r.license != ""
    ensures forall j :: 0 <= j < 4 ==> FieldOk(r, CheckOrder[j], isoParses)
  {
    PassesStep(r, 0, isoParses);
    PassesStep(r, 1, isoParses);
    PassesStep(r, 2, isoParses);
    PassesStep(r, 3, isoParses);
  }

  /** Passing the checks before `k` and check `k` is passing those before `k + 1`. */
  lemma PassesStep(r: DataRecord, k: nat, isoParses: string -> bool)
    requires k < |CheckOrder| && FieldOk(r, CheckOrder[k], isoParses)
    requires forall j :: 0 <= j < k ==> FieldOk(r, CheckOrder[j], isoParses)
    ensures forall j :: 0 <= j < k + 1 ==> FieldOk(r, CheckOrder[j], isoParses)
  {
  }

  /** `to_dict()`: every field under its key, an absent snippet as null. */
  function ToDict(r: DataRecord): map<string, Json.Value> {
    map["id" := Json.JString(r.id), "source" := Json.JString(r.source),
        "source_url" := Json.JString(r.sourceUrl), "license" := Json.JString(r.license),
        "task_type" := Json.JString(r.taskType), "input_text" := Json.JString(r.inputText),
        "output_dot" := Json.JString(r.outputDot),
        "verification_status" := Json.JString(r.verificationStatus),
        "scraped_at" := Json.JString(r.scrapedAt),
        "context_snippet" := match r.contextSnippet case Some(s) => Json.JString(s) case None => Json.JNull]
  }

  /** A serialised record has exactly the record's keys, and its id and DOT
      text are strings. */
  lemma ToDictShape(r: DataRecord)
    ensures ToDict(r).Keys == RecordKeys
    ensures ToDict(r)["id"] == Json.JString(r.id) && ToDict(r)["output_dot"] == Json.JString(r.outputDot)
  {
  }

  /** What `json.loads` gives back for the line `to_json()` produces. */
  function ToJsonLine(r: DataRecord): Json.Line {
    Json.Decoded(Json.Object(ToDict(r)))
  }

  /** The text of a required key, when it holds a string. */
  function TextAt(d: map<string, Json.Value>, key: string): Option<string> {
    if key in d && d[key].JString? then Some(d[key].str) else None
  }

  /** `DataRecord.from_dict(data)`, i.e. `DataRecord(**data)`: a key the record
      does not declare, or a missing required key, makes the constructor raise. */
  function FromDict(d: map<string, Json.Value>): (r: Result<DataRecord, string>)
    ensures !(d.Keys <= RecordKeys) ==> r.Err?
    ensures !(RecordKeys - {ContextKey} <= d.Keys) ==> r.Err?
    ensures r.Ok? ==> ToDict(r.value) == d[ContextKey := ToDict(r.value)[ContextKey]]
  {
    if !(d.Keys <= RecordKeys) then Err("got an unexpected keyword argument")
    else if !(RecordKeys - {ContextKey} <= d.Keys) then Err("missing a required argument")
    else
      if TextAt(d, "id").None? || TextAt(d, "source").None? || TextAt(d, "source_url").None?
         || TextAt(d, "license").None? || TextAt(d, "task_type").None? || TextAt(d, "input_text").None?
         || TextAt(d, "output_dot").None? || TextAt(d, "verification_status").None?
         || TextAt(d, "scraped_at").None? || SnippetAt(d).None?
      then Err("a field holds a value that is not text")
      else
        Ok(DataRecord(TextAt(d, "id").value, TextAt(d, "source").value, TextAt(d, "source_url").value,
                      TextAt(d, "license").value, TextAt(d, "task_type").value, TextAt(d, "input_text").value,
                      TextAt(d, "output_dot").value, TextAt(d, "verification_status").value,
                      TextAt(d, "scraped_at").value, SnippetAt(d).value))
  }

  /** The optional snippet: absent or null reads as no snippet, text as the
      snippet, anything else as a value that is not text. */
  function SnippetAt(d: map<string, Json.Value>): Option<Option<string>> {
    if ContextKey !in d || d[ContextKey] == Json.JNull then Some(None)
    else if d[ContextKey].JString? then Some(Some(d[ContextKey].str))
    else None
  }

  /** One key the record does not declare is enough to make the constructor
      raise, whatever the other keys hold. */
  lemma FromDictRejectsUnknownKey(d: map<string, Json.Value>, key: string)
    requires key in d && key !in RecordKeys
    ensures FromDict(d).Err?
  {
    assert !(d.Keys <= RecordKeys);
  }

  /** A dictionary given an `instruction_confidence` entry is rejected. */
  lemma FromDictRejectsConfidence(d: map<string, Json.Value>, v: Json.Value)
    ensures FromDict(d["instruction_confidence" := v]).Err?
  {
    FromDictRejectsUnknownKey(d["instruction_confidence" := v], "instruction_confidence");
  }

  /** Serialising a record and constructing it back from the dictionary gives
      the same record. */
  lemma FromDictInvertsToDict(r: DataRecord)
    ensures FromDict(ToDict(r)) == Ok(r)
  {
    ToDictShape(r);
    ToDictFieldsFirst(r);
    ToDictFieldsLast(r);
  }

  /** The first serialised fields read back as text. */
  lemma ToDictFieldsFirst(r: DataRecord)
    ensures TextAt(ToDict(r), "id") == Some(r.id) && TextAt(ToDict(r), "source") == Some(r.source)
    ensures TextAt(ToDict(r), "source_url") == Some(r.sourceUrl) && TextAt(ToDict(r), "license") == Some(r.license)
    ensures TextAt(ToDict(r), "task_type") == Some(r.taskType)
  {
  }

  /** The remaining serialised fields read back as text, and the snippet as
      itself. */
  lemma ToDictFieldsLast(r: DataRecord)
    ensures TextAt(ToDict(r), "input_text") == Some(r.inputText) && TextAt(ToDict(r), "output_dot") == Some(r.outputDot)
    ensures TextAt(ToDict(r), "verification_status") == Some(r.verificationStatus)
    ensures TextAt(ToDict(r), "scraped_at") == Some(r.scrapedAt)
    ensures SnippetAt(ToDict(r)) == Some(r.contextSnippet)
  {
  }

  /** `validate_record(data)`: construction failures are reported as invalid
      fields, otherwise the record's own `validate()` decides. */
  function ValidateRecord(d: map<string, Json.Value>, isoParses: string -> bool): (res: (bool, Option<string>))
    ensures FromDict(d).Err? ==> !res.0 && res.1.Some? && PyStr.StartsWith(res.1.value, "Missing or invalid fields: ")
    ensures FromDict(d).Ok? ==> res == Validate(FromDict(d).value, isoParses)
  {
    match FromDict(d)
    case Err(e) => (false, Some("Missing or invalid fields: " + e))
    case Ok(r) => Validate(r, isoParses)
  }

  /** Validating a serialised record gives the same verdict as validating the
      record itself. */
  lemma ValidateRecordAgreesWithValidate(r: DataRecord, isoParses: string -> bool)
    ensures ValidateRecord(ToDict(r), isoParses) == Validate(r, isoParses)
  {
    FromDictInvertsToDict(r);
  }
}
