/** The JSON Lines writer every scraper appends records through; it refuses
    records whose id it has already seen in the file or written itself. */
module Writer {
  import opened Wrappers
  import Json
  import Schema

  /** The output file as the writer finds it: missing, or present with its lines;
      `readable` is false when reading it raises part-way (an OS or decoding
      error), which discards every id read so far. */
  datatype SinkFile = Absent | Present(lines: seq<Json.Line>, readable: bool)

  /** What one line contributes while priming: nothing, an id, or an exception
      that abandons priming (`in`/indexing on an unsuitable document, or an
      unhashable id value). */
  datatype LineEffect = Skip | AddId(id: Json.Value) | Abort

  function EffectOf(line: Json.Line): (e: LineEffect)
    ensures line.Decoded? && line.doc.Object? && "id" in line.doc.fields && !line.doc.fields["id"].JComposite?
            ==> e == AddId(line.doc.fields["id"])
  {
    match line
    case Blank => Skip
    case Undecodable => Skip
    case Decoded(doc) =>
      match Json.HasKey(doc, "id")
      case Err(_) => Abort
      case Ok(false) => Skip
      case Ok(true) =>
        match Json.Index(doc, "id")
        case Err(_) => Abort
        case Ok(v) => if v.JComposite? then Abort else AddId(v)
  }

  /** The ids collected from `lines` read in order, or `None` when some line
      abandons priming. */
  function ScanIds(lines: seq<Json.Line>): Option<set<Json.Value>>
    decreases |lines|
  {
    if lines == [] then Some({})
    else
      match ScanIds(lines[..|lines| - 1])
      case None => None
      case Some(ids) =>
        match EffectOf(lines[|lines| - 1])
        case Skip => Some(ids)
        case AddId(v) => Some(ids + {v})
        case Abort => None
  }

  /** Priming the id set keeps exactly the ids of the lines that carry one, and
      keeps nothing at all when any line makes it raise. */
  lemma {:induction false} ScanIdsMeaning(lines: seq<Json.Line>)
    ensures ScanIds(lines).None? <==> exists i :: 0 <= i < |lines| && EffectOf(lines[i]).Abort?
    ensures ScanIds(lines).Some? ==>
      ScanIds(lines).value == set i | 0 <= i < |lines| && EffectOf(lines[i]).AddId? :: EffectOf(lines[i]).id
    decreases |lines|
  {
    if lines != [] {
      var init := lines[..|lines| - 1];
      ScanIdsMeaning(init);
      assert forall i :: 0 <= i < |init| ==> init[i] == lines[i];
      if ScanIds(lines).Some? {
        var n := |lines| - 1;
        assert (set i | 0 <= i < |lines| && EffectOf(lines[i]).AddId? :: EffectOf(lines[i]).id)
            == (set i | 0 <= i < |init| && EffectOf(init[i]).AddId? :: EffectOf(init[i]).id)
               + (if EffectOf(lines[n]).AddId? then {EffectOf(lines[n]).id} else {});
      }
    }
  }

  /** The id set a new writer starts from. */
  function PrimedIds(file: SinkFile): set<Json.Value> {
    match file
    case Absent => {}
    case Present(lines, readable) => if readable then ScanIds(lines).GetOr({}) else {}
  }

  function FileLines(file: SinkFile): seq<Json.Line> {
    match file
    case Absent => []
    case Present(lines, _) => lines
  }

  /** The lines the records serialise to, in order. */
  function RecordLines(rs: seq<Schema.DataRecord>): (ls: seq<Json.Line>)
    ensures |ls| == |rs|
    ensures forall i :: 0 <= i < |rs| ==> ls[i] == Schema.ToJsonLine(rs[i])
  {
    if rs == [] then [] else RecordLines(rs[..|rs| - 1]) + [Schema.ToJsonLine(rs[|rs| - 1])]
  }

  /** Every record of `rs` passes `validate()`. */
  predicate AllValid(rs: seq<Schema.DataRecord>, isoParses: string -> bool) {
    rs == [] || (AllValid(rs[..|rs| - 1], isoParses) && Schema.Validate(rs[|rs| - 1], isoParses).0)
  }

  /** How `append` ended: written (True), skipped as a duplicate (False), or one
      of its exceptions: `ValueError` for an invalid record, `IOError` when the
      write fails. */
  datatype AppendOutcome = Written | Duplicate | Rejected(message: string) | WriteFailed

  /** `JSONLWriter`: the output file's lines and the ids it will refuse. */
  class JsonlWriter {
    var existingIds: set<Json.Value>
    var lines: seq<Json.Line>
    /** `datetime.fromisoformat` succeeding on a text. */
    const isoParses: string -> bool
    ghost const initial: seq<Json.Line>
    /** The records this writer appended, in order. */
    ghost var written: seq<Schema.DataRecord>

    /** The file is what was there plus the records written, each of which is
        valid, known to the id set and written once. */
    ghost predicate Valid()
      reads this
    {
      lines == initial + RecordLines(written)
      && (forall i :: 0 <= i < |written| ==> Json.JString(written[i].id) in existingIds)
      && AllValid(written, isoParses)
      && (forall i, j :: 0 <= i < j < |written| ==> written[i].id != written[j].id)
    }

    /** `JSONLWriter(output_path)`: load the ids of an existing file. */
    constructor(file: SinkFile, isoParses: string -> bool)
      ensures Valid()
      ensures existingIds == PrimedIds(file) && lines == FileLines(file) && written == []
      ensures this.isoParses == isoParses
    {
      existingIds := {};
      lines := FileLines(file);
      initial := FileLines(file);
      written := [];
      this.isoParses := isoParses;
      new;
      if file.Present? {
        LoadExistingIds(file.readable);
      }
    }

    /** `_load_existing_ids`: read the file line by line collecting ids; any
        exception other than a decoding error empties the set. */
    method LoadExistingIds(readable: bool)
      requires written == []
      modifies this
      ensures existingIds == (if readable then ScanIds(lines).GetOr({}) else {})
      ensures lines == old(lines) && written == old(written)
    {
      if !readable {
        existingIds := {};
        return;
      }
      var ids: set<Json.Value> := {};
      var i := 0;
      while i < |lines|
        invariant 0 <= i <= |lines|
        invariant ScanIds(lines[..i]) == Some(ids)
      {
        assert lines[..i + 1][..i] == lines[..i];
        match EffectOf(lines[i]) {
          case Skip =>
          case AddId(v) => ids := ids + {v};
          case Abort =>
            existingIds := {};
            NoRecoveryAfterAbort(lines, i + 1);
            return;
        }
        i := i + 1;
      }
      assert lines[..i] == lines;
      existingIds := ids;
    }

    /** `is_duplicate(record_id)` */
    function IsDuplicate(id: string): (r: bool)
      reads this
      ensures r <==> Json.JString(id) in existingIds
    {
      Json.JString(id) in existingIds
    }

    /** `count_existing()` */
    function CountExisting(): (n: nat)
      reads this
      ensures n == |existingIds|
    {
      |existingIds|
    }

    /** `append(record)`: a known id is skipped, an invalid record raises
        `ValueError` and nothing is written; otherwise the record's JSON line is
        appended and its id remembered, so the same id is never written twice. */
    method Append(record: Schema.DataRecord, writeFails: bool) returns (outcome: AppendOutcome)
      requires Valid()
      modifies this
      ensures Valid()
      ensures Json.JString(record.id) in old(existingIds) ==> outcome == Duplicate && unchanged(this)
      ensures Json.JString(record.id) !in old(existingIds) && !Schema.Validate(record, isoParses).0 ==>
        outcome == Rejected("Invalid record: " + Schema.Validate(record, isoParses).1.value) && unchanged(this)
      ensures Json.JString(record.id) !in old(existingIds) && Schema.Validate(record, isoParses).0 && writeFails ==>
        outcome == WriteFailed && unchanged(this)
      ensures Json.JString(record.id) !in old(existingIds) && Schema.Validate(record, isoParses).0 && !writeFails ==>
        outcome == Written && lines == old(lines) + [Schema.ToJsonLine(record)]
        && existingIds == old(existingIds) + {Json.JString(record.id)} && written == old(written) + [record]
    {
      if IsDuplicate(record.id) {
        return Duplicate;
      }
      var verdict := Schema.Validate(record, isoParses);
      if !verdict.0 {
        return Rejected("Invalid record: " + verdict.1.value);
      }
      if writeFails {
        return WriteFailed;
      }
      Commit(record);
      outcome := Written;
    }

    /** Append the line of a new, valid record and remember its id. */
    method Commit(record: Schema.DataRecord)
      requires Valid() && Json.JString(record.id) !in existingIds && Schema.Validate(record, isoParses).0
      modifies this
      ensures Valid()
      ensures lines == old(lines) + [Schema.ToJsonLine(record)]
      ensures existingIds == old(existingIds) + {Json.JString(record.id)} && written == old(written) + [record]
    {
      DistinctSnoc(written, record, existingIds);
      AllValidSnoc(written, record, isoParses);
      RecordLinesSnoc(written, record);
      lines := lines + [Schema.ToJsonLine(record)];
      existingIds := existingIds + {Json.JString(record.id)};
      written := written + [record];
    }
  }

  /** Appending a record whose id is not among the remembered ones keeps the
      ids distinct and remembered. */
  lemma DistinctSnoc(written: seq<Schema.DataRecord>, record: Schema.DataRecord, ids: set<Json.Value>)
    requires forall i :: 0 <= i < |written| ==> Json.JString(written[i].id) in ids
    requires Json.JString(record.id) !in ids
    requires forall i, j :: 0 <= i < j < |written| ==> written[i].id != written[j].id
    ensures forall i :: 0 <= i < |written| + 1 ==> Json.JString((written + [record])[i].id) in ids + {Json.JString(record.id)}
    ensures forall i, j :: 0 <= i < j < |written| + 1 ==> (written + [record])[i].id != (written + [record])[j].id
  {
    var w := written + [record];
    forall i, j | 0 <= i < j < |w| ensures w[i].id != w[j].id {
      if j == |written| {
        assert Json.JString(written[i].id) in ids;
      } else {
        assert w[i] == written[i] && w[j] == written[j];
      }
    }
  }

  lemma AllValidSnoc(rs: seq<Schema.DataRecord>, r: Schema.DataRecord, isoParses: string -> bool)
    requires AllValid(rs, isoParses) && Schema.Validate(r, isoParses).0
    ensures AllValid(rs + [r], isoParses)
  {
    assert (rs + [r])[..|rs|] == rs;
  }

  lemma RecordLinesSnoc(rs: seq<Schema.DataRecord>, r: Schema.DataRecord)
    ensures RecordLines(rs + [r]) == RecordLines(rs) + [Schema.ToJsonLine(r)]
  {
    assert (rs + [r])[..|rs|] == rs;
  }

  /** Once a line abandons priming, scanning further lines cannot bring ids back. */
  lemma {:induction false} NoRecoveryAfterAbort(lines: seq<Json.Line>, k: nat)
    requires 0 < k <= |lines| && ScanIds(lines[..k]).None?
    ensures ScanIds(lines).None?
    decreases |lines| - k
  {
    if k < |lines| {
      assert lines[..k + 1][..k] == lines[..k];
      NoRecoveryAfterAbort(lines, k + 1);
    } else {
      assert lines[..k] == lines;
    }
  }
}
