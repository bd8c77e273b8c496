/** The training-set loader: pairs read from the state-machine pairs file and
    the JSON Lines streams, filtered, formatted as instruction prompts and
    split into training and validation parts; and the per-source statistics. */
module Dataset {
  import opened Wrappers
  import Json
  import PyStr
  import Lists

  /** A loaded pair. Its fields hold whatever JSON values the file had. */
  datatype Pair = Pair(inputText: Json.Value, outputDot: Json.Value, source: Json.Value)

  /** The stream files read, in this order, from the data directory. */
  const StreamFiles: seq<string> := [
    "synthetic-stream.jsonl",
    "logic-stream.jsonl",
    "documentation-stream.jsonl",
    "attribute-docs-stream.jsonl",
    "error-correction-stream.jsonl"
  ]

  /** What reading one element contributes: nothing, a pair, or a `TypeError`
      that ends loading. */
  type Reading = Result<Option<Pair>, Json.TypeError>

  /** The pairs read from a sequence of elements in order, or the first
      `TypeError`. */
  function ReadAll<T>(s: seq<T>, read: T -> Reading): (r: Result<seq<Pair>, Json.TypeError>)
    ensures r.Ok? ==> |r.value| <= |s|
    decreases |s|
  {
    if s == [] then Ok([])
    else
      var init := ReadAll(s[..|s| - 1], read);
      if init.Err? then init
      else
        match read(s[|s| - 1])
        case Err(e) => Err(e)
        case Ok(None) => init
        case Ok(Some(p)) => Ok(init.value + [p])
  }

  /** Reading one more element extends the pairs read so far. */
  lemma ReadAllStep<T>(s: seq<T>, read: T -> Reading, i: nat)
    requires i < |s| && ReadAll(s[..i], read).Ok?
    ensures ReadAll(s[..i + 1], read)
            == match read(s[i])
               case Err(e) => Err(e)
               case Ok(None) => ReadAll(s[..i], read)
               case Ok(Some(p)) => Ok(ReadAll(s[..i], read).value + [p])
  {
    assert s[..i + 1][..i] == s[..i];
  }

  /** Once an element raises, reading the rest does not change the error. */
  lemma {:induction false} ReadAllErrorSticks<T>(s: seq<T>, read: T -> Reading, i: nat)
    requires i <= |s| && ReadAll(s[..i], read).Err?
    ensures ReadAll(s, read) == ReadAll(s[..i], read)
    decreases |s| - i
  {
    if i < |s| {
      assert s[..i + 1][..i] == s[..i];
      ReadAllErrorSticks(s, read, i + 1);
    } else {
      assert s[..i] == s;
    }
  }

  /** A pair comes from an element that reads as that pair, and the pairs keep
      the elements' order. */
  lemma {:induction false} ReadAllMeaning<T>(s: seq<T>, read: T -> Reading)
    requires ReadAll(s, read).Ok?
    ensures forall i :: 0 <= i < |s| ==> read(s[i]).Ok?
    ensures forall p :: p in ReadAll(s, read).value <==> exists i :: 0 <= i < |s| && read(s[i]) == Ok(Some(p))
    decreases |s|
  {
    if s != [] {
      var init := s[..|s| - 1];
      ReadAllMeaning(init, read);
      assert forall i :: 0 <= i < |init| ==> init[i] == s[i];
    }
  }

  /** A line of a stream file: `json.loads(line)`, then a pair when the
      document has both `input_text` and `output_dot`. A blank or undecodable
      line is skipped; `in` or indexing on a document that is not an object
      raises. The source defaults to the stream's file name. */
  function PairOfLine(line: Json.Line, streamFile: string): (r: Reading)
    ensures line.Blank? || line.Undecodable? ==> r == Ok(None)
    ensures line.Decoded? && line.doc.Object? ==>
      r.Ok? && (r.value.Some? <==> "input_text" in line.doc.fields && "output_dot" in line.doc.fields)
    ensures r.Ok? && r.value.Some? ==>
      line.Decoded? && line.doc.Object?
      && r.value.value.inputText == line.doc.fields["input_text"]
      && r.value.value.outputDot == line.doc.fields["output_dot"]
      && r.value.value.source
         == (if "source" in line.doc.fields then line.doc.fields["source"] else Json.JString(streamFile))
  {
    match line
    case Blank => Ok(None)
    case Undecodable => Ok(None)
    case Decoded(doc) =>
      var hasInput := Json.HasKey(doc, "input_text");
      if hasInput.Err? then Err(hasInput.error)
      else if !hasInput.value || !Json.HasKey(doc, "output_dot").value then Ok(None)
      else
        var input := Json.Index(doc, "input_text");
        if input.Err? then Err(input.error)
        else
          var source := if "source" in doc.fields then doc.fields["source"] else Json.JString(streamFile);
          Ok(Some(Pair(input.value, doc.fields["output_dot"], source)))
  }

  /** An item of the pairs file: a pair, marked as from `statemachine_cat`,
      when the item has both `code` and `dot`. */
  function PairOfItem(item: Json.Doc): (r: Reading)
    ensures item.Object? ==> r.Ok? && (r.value.Some? <==> "code" in item.fields && "dot" in item.fields)
    ensures r.Ok? && r.value.Some? ==>
      item.Object? && r.value.value == Pair(item.fields["code"], item.fields["dot"], Json.JString("statemachine_cat"))
  {
    var hasCode := Json.HasKey(item, "code");
    if hasCode.Err? then Err(hasCode.error)
    else if !hasCode.value || !Json.HasKey(item, "dot").value then Ok(None)
    else
      var code := Json.Index(item, "code");
      if code.Err? then Err(code.error)
      else Ok(Some(Pair(code.value, item.fields["dot"], Json.JString("statemachine_cat"))))
  }

  /** The pairs of all stream files present, file after file. */
  function StreamPairs(names: seq<string>, files: map<string, seq<Json.Line>>): Result<seq<Pair>, Json.TypeError>
    decreases |names|
  {
    if names == [] then Ok([])
    else
      var init := StreamPairs(names[..|names| - 1], files);
      var name := names[|names| - 1];
      if init.Err? || name !in files then init
      else
        var more := ReadAll(files[name], (l: Json.Line) => PairOfLine(l, name));
        if more.Err? then more else Ok(init.value + more.value)
  }

  /** The loop over one stream file's lines. */
  method LoadStream(lines: seq<Json.Line>, streamFile: string) returns (r: Result<seq<Pair>, Json.TypeError>)
    ensures r == ReadAll(lines, (l: Json.Line) => PairOfLine(l, streamFile))
  {
    ghost var read := (l: Json.Line) => PairOfLine(l, streamFile);
    var pairs: seq<Pair> := [];
    for j := 0 to |lines|
      invariant ReadAll(lines[..j], read) == Ok(pairs)
    {
      ReadAllStep(lines, read, j);
      var item := PairOfLine(lines[j], streamFile);
      if item.Err? {
        ReadAllErrorSticks(lines, read, j + 1);
        return Err(item.error);
      }
      if item.value.Some? {
        pairs := pairs + [item.value.value];
      }
    }
    assert lines[..|lines|] == lines;
    return Ok(pairs);
  }

  /** `load_jsonl_streams()`: the pairs of the stream files present (a file is
      present when it is in `files`), in file order and line order; a line
      whose document is not an object but passes the membership tests raises
      and ends loading. */
  method LoadJsonlStreams(files: map<string, seq<Json.Line>>) returns (r: Result<seq<Pair>, Json.TypeError>)
    ensures r == StreamPairs(StreamFiles, files)
  {
    var pairs: seq<Pair> := [];
    for k := 0 to |StreamFiles|
      invariant StreamPairs(StreamFiles[..k], files) == Ok(pairs)
    {
      var streamFile := StreamFiles[k];
      assert StreamFiles[..k + 1][..k] == StreamFiles[..k];
      if streamFile in files {
        var more := LoadStream(files[streamFile], streamFile);
        if more.Err? {
          StreamPairsErrorSticks(StreamFiles, files, k + 1);
          return more;
        }
        pairs := pairs + more.value;
      }
    }
    assert StreamFiles[..|StreamFiles|] == StreamFiles;
    return Ok(pairs);
  }

  lemma {:induction false} StreamPairsErrorSticks(names: seq<string>, files: map<string, seq<Json.Line>>, i: nat)
    requires i <= |names| && StreamPairs(names[..i], files).Err?
    ensures StreamPairs(names, files) == StreamPairs(names[..i], files)
    decreases |names| - i
  {
    if i < |names| {
      assert names[..i + 1][..i] == names[..i];
      StreamPairsErrorSticks(names, files, i + 1);
    } else {
      assert names[..i] == names;
    }
  }

  /** `load_pairs_json()`: no pairs when the file is missing, otherwise the
      pairs of its items that have both `code` and `dot`. */
  method LoadPairsJson(file: Option<seq<Json.Doc>>) returns (r: Result<seq<Pair>, Json.TypeError>)
    ensures file.None? ==> r == Ok([])
    ensures file.Some? ==> r == ReadAll(file.value, PairOfItem)
  {
    if file.None? {
      return Ok([]);
    }
    var data := file.value;
    var pairs: seq<Pair> := [];
    for i := 0 to |data|
      invariant ReadAll(data[..i], PairOfItem) == Ok(pairs)
    {
      ReadAllStep(data, PairOfItem, i);
      var item := PairOfItem(data[i]);
      if item.Err? {
        ReadAllErrorSticks(data, PairOfItem, i + 1);
        return Err(item.error);
      }
      if item.value.Some? {
        pairs := pairs + [item.value.value];
      }
    }
    assert data[..|data|] == data;
    return Ok(pairs);
  }

  /** `load_all()` before its shuffle: the pairs file's pairs, then the
      streams' pairs; an error in either ends loading. */
  method LoadAll(file: Option<seq<Json.Doc>>, files: map<string, seq<Json.Line>>)
    returns (r: Result<seq<Pair>, Json.TypeError>)
    ensures var first := if file.None? then Ok([]) else ReadAll(file.value, PairOfItem);
      r == if first.Err? then first
           else if StreamPairs(StreamFiles, files).Err? then StreamPairs(StreamFiles, files)
           else Ok(first.value + StreamPairs(StreamFiles, files).value)
  {
    var pairs := LoadPairsJson(file);
    if pairs.Err? {
      return pairs;
    }
    var streams := LoadJsonlStreams(files);
    if streams.Err? {
      return streams;
    }
    return Ok(pairs.value + streams.value);
  }

  /** A stream line is kept exactly when it decodes to an object with both
      fields, and its source falls back to the stream's name. */
  lemma StreamLineKept(fields: map<string, Json.Value>, streamFile: string)
    ensures PairOfLine(Json.Decoded(Json.Object(fields)), streamFile).Ok?
    ensures PairOfLine(Json.Decoded(Json.Object(fields)), streamFile).value.Some?
            <==> "input_text" in fields && "output_dot" in fields
    ensures "input_text" in fields && "output_dot" in fields && "source" !in fields ==>
      PairOfLine(Json.Decoded(Json.Object(fields)), streamFile).value.value.source == Json.JString(streamFile)
  {
  }

  /** `p.get("input_text") and p.get("output_dot")`: both fields truthy. */
  predicate IsValid(p: Pair) {
    Json.Truthy(p.inputText) && Json.Truthy(p.outputDot)
  }

  /** The valid pairs in order. */
  function ValidPairs(pairs: seq<Pair>): (r: seq<Pair>)
    ensures |r| <= |pairs|
  {
    Lists.Select(pairs, IsValid, (p: Pair) => p)
  }

  /** The fallback instruction format (used when no chat template is given). */
  function FormatInstruction(input: string, output: string): string {
    "<bos><start_of_turn>user\n" + input + "<end_of_turn>\n<start_of_turn>model\n" + output
  }

  /** The user turn of a formatted instruction carries the input and the model
      turn ends with the output. */
  lemma FormatInstructionShape(input: string, output: string)
    ensures PyStr.StartsWith(FormatInstruction(input, output), "<bos><start_of_turn>user\n" + input + "<end_of_turn>\n")
    ensures PyStr.EndsWith(FormatInstruction(input, output), "<start_of_turn>model\n" + output)
  {
    var a := "<bos><start_of_turn>user\n" + input + "<end_of_turn>\n";
    var b := "<start_of_turn>model\n" + output;
    assert FormatInstruction(input, output) == a + b;
    PyStr.StartsWithConcat(a, b);
    assert (a + b)[|a + b| - |b|..] == b;
  }

  /** A formatted training example. */
  datatype Example = Example(text: string, inputText: Json.Value, outputDot: Json.Value, source: Json.Value)

  /** The two parts of the data set. */
  datatype Splits = Splits(train: seq<Example>, validation: seq<Example>)

  /** `str(value)` for the f-string: a string is inserted as it is; how other
      JSON values print is given by `show`. */
  function Text(v: Json.Value, show: Json.Value -> string): string {
    if v.JString? then v.str else show(v)
  }

  function Formatted(valid: seq<Pair>, show: Json.Value -> string): (r: seq<Example>)
    ensures |r| == |valid|
  {
    seq(|valid|, i requires 0 <= i < |valid| =>
      Example(FormatInstruction(Text(valid[i].inputText, show), Text(valid[i].outputDot, show)),
              valid[i].inputText, valid[i].outputDot, valid[i].source))
  }

  /** Every source can be put in a set or used as a dictionary key, which a
      JSON list or object cannot. */
  predicate HashableSources(pairs: seq<Pair>) {
    forall i :: 0 <= i < |pairs| ==> !pairs[i].source.JComposite?
  }

  const UnhashableSource := "TypeError: unhashable type"

  /** `create_dataset(train_val_split, None)` on the loaded (shuffled) pairs,
      with the split fraction `num / den`: errors when nothing was loaded or
      nothing is valid, and raises when the set of sources is built over a
      list or object source; otherwise the formatted valid pairs cut at
      `int(len * split)`. */
  function CreateDataset(allPairs: seq<Pair>, num: int, den: nat, show: Json.Value -> string): (r: Result<Splits, string>)
    requires den > 0
    ensures r.Err? <==> ValidPairs(allPairs) == [] || !HashableSources(ValidPairs(allPairs))
    ensures allPairs == [] ==> r == Err("ValueError: No training pairs found in data directory")
    ensures allPairs != [] && ValidPairs(allPairs) == [] ==> r == Err("ValueError: No valid pairs found (all have None values)")
    ensures ValidPairs(allPairs) != [] && !HashableSources(ValidPairs(allPairs)) ==> r == Err(UnhashableSource)
    ensures r.Ok? ==> r.value.train + r.value.validation == Formatted(ValidPairs(allPairs), show)
  {
    if allPairs == [] then Err("ValueError: No training pairs found in data directory")
    else
      var valid := ValidPairs(allPairs);
      if valid == [] then Err("ValueError: No valid pairs found (all have None values)")
      else if !HashableSources(valid) then Err(UnhashableSource)
      else
        var formatted := Formatted(valid, show);
        var splitIdx := PyStr.ScaledInt(|formatted|, num, den);
        assert PyStr.Take(formatted, splitIdx) + PyStr.Drop(formatted, splitIdx) == formatted;
        Ok(Splits(PyStr.Take(formatted, splitIdx), PyStr.Drop(formatted, splitIdx)))
  }

  /** For a split fraction in [0, 1], the training part holds the first
      `floor(n * num / den)` of the `n` formatted examples. */
  lemma CreateDatasetSplit(allPairs: seq<Pair>, num: int, den: nat, show: Json.Value -> string)
    requires den > 0 && 0 <= num <= den
    requires CreateDataset(allPairs, num, den, show).Ok?
    ensures var s := CreateDataset(allPairs, num, den, show).value;
      var n := |ValidPairs(allPairs)|;
      |s.train| * den <= n * num < (|s.train| + 1) * den && |s.validation| == n - |s.train|
  {
    var n := |ValidPairs(allPairs)|;
    PyStr.ScaledIntWithin(n, num, den);
  }

  /** Every example comes from a valid loaded pair and carries its fields. */
  lemma CreateDatasetExamples(allPairs: seq<Pair>, num: int, den: nat, show: Json.Value -> string)
    requires den > 0 && CreateDataset(allPairs, num, den, show).Ok?
    ensures var s := CreateDataset(allPairs, num, den, show).value;
      forall e :: e in s.train + s.validation ==>
        (exists p :: p in allPairs && IsValid(p) && e.inputText == p.inputText && e.outputDot == p.outputDot
           && e.source == p.source
           && e.text == FormatInstruction(Text(p.inputText, show), Text(p.outputDot, show)))
  {
    var valid := ValidPairs(allPairs);
    Lists.SelectMeaning(allPairs, IsValid, (p: Pair) => p);
    var s := CreateDataset(allPairs, num, den, show).value;
    forall e | e in s.train + s.validation
      ensures exists p :: (p in allPairs && IsValid(p) && e.inputText == p.inputText && e.outputDot == p.outputDot
          && e.source == p.source
          && e.text == FormatInstruction(Text(p.inputText, show), Text(p.outputDot, show)))
    {
      var i :| 0 <= i < |valid| && Formatted(valid, show)[i] == e;
      assert valid[i] in valid;
    }
  }

  /** The source counts: each source mapped to how many times it occurs. */
  function Tally(sources: seq<Json.Value>): map<Json.Value, nat>
    decreases |sources|
  {
    if sources == [] then map[]
    else
      var m := Tally(sources[..|sources| - 1]);
      var s := sources[|sources| - 1];
      m[s := (if s in m then m[s] else 0) + 1]
  }

  /** Each source is counted exactly as often as it occurs, and nothing else
      is counted. */
  lemma {:induction false} TallyMeaning(sources: seq<Json.Value>)
    ensures forall v :: v in Tally(sources) <==> v in sources
    ensures forall v :: v in Tally(sources) ==> Tally(sources)[v] == multiset(sources)[v]
    decreases |sources|
  {
    if sources != [] {
      var init := sources[..|sources| - 1];
      TallyMeaning(init);
      assert sources == init + [sources[|sources| - 1]];
    }
  }

  /** The counts do not depend on the order of the pairs, so the shuffle
      before counting does not change them. */
  lemma TallyIgnoresOrder(a: seq<Json.Value>, b: seq<Json.Value>)
    requires multiset(a) == multiset(b)
    ensures Tally(a) == Tally(b)
  {
    TallyMeaning(a);
    TallyMeaning(b);
    forall v | v in a ensures v in b {
      assert multiset(a)[v] > 0;
    }
    forall v | v in b ensures v in a {
      assert multiset(b)[v] > 0;
    }
  }

  /** The sum of the counts of the given keys. */
  function SumOver(keys: seq<Json.Value>, m: map<Json.Value, nat>): nat
    requires forall k :: k in keys ==> k in m
    decreases |keys|
  {
    if keys == [] then 0 else SumOver(keys[..|keys| - 1], m) + m[keys[|keys| - 1]]
  }

  lemma {:induction false} SumOverOther(keys: seq<Json.Value>, m: map<Json.Value, nat>, x: Json.Value, c: nat)
    requires forall k :: k in keys ==> k in m
    requires x !in keys
    ensures SumOver(keys, m[x := c]) == SumOver(keys, m)
    decreases |keys|
  {
    if keys != [] {
      SumOverOther(keys[..|keys| - 1], m, x, c);
    }
  }

  lemma {:induction false} SumOverBump(keys: seq<Json.Value>, m: map<Json.Value, nat>, x: Json.Value)
    requires forall k :: k in keys ==> k in m
    requires Lists.NoDuplicates(keys) && x in keys
    ensures SumOver(keys, m[x := m[x] + 1]) == SumOver(keys, m) + 1
    decreases |keys|
  {
    var init := keys[..|keys| - 1];
    var last := keys[|keys| - 1];
    if last == x {
      assert x !in init by {
        forall i | 0 <= i < |init| ensures init[i] != x {
          assert init[i] == keys[i];
        }
      }
      SumOverOther(init, m, x, m[x] + 1);
    } else {
      assert x in init by {
        var i :| 0 <= i < |keys| && keys[i] == x;
        assert init[i] == x;
      }
      SumOverBump(init, m, x);
    }
  }

  /** The counts of the distinct sources add up to the number of pairs
      counted. */
  lemma {:induction false} TallySum(sources: seq<Json.Value>)
    ensures forall k :: k in Lists.Dedup(sources) ==> k in Tally(sources)
    ensures SumOver(Lists.Dedup(sources), Tally(sources)) == |sources|
    decreases |sources|
  {
    TallyMeaning(sources);
    Lists.DedupMeaning(sources);
    if sources != [] {
      var init := sources[..|sources| - 1];
      var x := sources[|sources| - 1];
      TallySum(init);
      TallyMeaning(init);
      Lists.DedupMeaning(init);
      var m := Tally(init);
      var d := Lists.Dedup(init);
      if x in init {
        assert x in d && Lists.Dedup(sources) == d;
        SumOverBump(d, m, x);
      } else {
        assert x !in d && Lists.Dedup(sources) == d + [x];
        SumOverOther(d, m, x, 1);
        assert (d + [x])[..|d|] == d;
      }
    }
  }

  /** The run's statistics: the number of valid pairs and their sources. */
  datatype Statistics = Statistics(totalPairs: nat, sources: map<Json.Value, nat>)

  function SourcesOf(pairs: seq<Pair>): (r: seq<Json.Value>)
    ensures |r| == |pairs|
  {
    seq(|pairs|, i requires 0 <= i < |pairs| => pairs[i].source)
  }

  /** A JSON value that `len()` accepts: a text, a list or an object. */
  predicate Sized(v: Json.Value) {
    v.JString? || v.JComposite?
  }

  /** Every pair's input and DOT can be measured with `len()`. */
  predicate Measurable(pairs: seq<Pair>) {
    forall i :: 0 <= i < |pairs| ==> Sized(pairs[i].inputText) && Sized(pairs[i].outputDot)
  }

  const NoLength := "TypeError: object has no len()"

  /** The two length lists of `get_statistics()`: every input is measured,
      then every DOT; the answer is whether none of them raised. */
  method MeasureLengths(pairs: seq<Pair>) returns (measurable: bool)
    ensures measurable <==> Measurable(pairs)
  {
    for i := 0 to |pairs|
      invariant forall j :: 0 <= j < i ==> Sized(pairs[j].inputText)
    {
      if !Sized(pairs[i].inputText) {
        return false;
      }
    }
    for i := 0 to |pairs|
      invariant forall j :: 0 <= j < i ==> Sized(pairs[j].outputDot)
    {
      if !Sized(pairs[i].outputDot) {
        return false;
      }
    }
    return true;
  }

  /** `get_statistics()` on the loaded pairs: an error entry when nothing was
      loaded or nothing is valid; a `TypeError` when a valid pair's input or
      DOT is a number or `true`, which has no length, or else when a list or
      object source is used as a key; otherwise the number of valid pairs and
      the count of each source among them. */
  method GetStatistics(pairs: seq<Pair>) returns (r: Result<Statistics, string>)
    ensures pairs == [] ==> r == Err("No pairs found")
    ensures pairs != [] && ValidPairs(pairs) == [] ==> r == Err("No valid pairs found (all have None values)")
    ensures ValidPairs(pairs) != [] && !Measurable(ValidPairs(pairs)) ==> r == Err(NoLength)
    ensures ValidPairs(pairs) != [] && Measurable(ValidPairs(pairs)) && !HashableSources(ValidPairs(pairs)) ==>
      r == Err(UnhashableSource)
    ensures ValidPairs(pairs) != [] && Measurable(ValidPairs(pairs)) && HashableSources(ValidPairs(pairs)) ==>
      r == Ok(Statistics(|ValidPairs(pairs)|, Tally(SourcesOf(ValidPairs(pairs)))))
  {
    if pairs == [] {
      return Err("No pairs found");
    }
    var validPairs := ValidPairs(pairs);
    if validPairs == [] {
      return Err("No valid pairs found (all have None values)");
    }
    var measurable := MeasureLengths(validPairs);
    if !measurable {
      return Err(NoLength);
    }
    var sources: map<Json.Value, nat> := map[];
    for i := 0 to |validPairs|
      invariant sources == Tally(SourcesOf(validPairs[..i]))
      invariant forall j :: 0 <= j < i ==> !validPairs[j].source.JComposite?
    {
      assert SourcesOf(validPairs[..i + 1])[..i] == SourcesOf(validPairs[..i]);
      var source := validPairs[i].source;
      if source.JComposite? {
        return Err(UnhashableSource);
      }
      sources := sources[source := (if source in sources then sources[source] else 0) + 1];
    }
    assert validPairs[..|validPairs|] == validPairs;
    return Ok(Statistics(|validPairs|, sources));
  }

  /** The per-source counts add up to the total, and their keys are exactly
      the sources of the valid pairs. */
  lemma StatisticsSumToTotal(pairs: seq<Pair>)
    ensures var srcs := SourcesOf(ValidPairs(pairs));
      (forall v :: v in Tally(srcs) <==> v in srcs)
      && SumOver(Lists.Dedup(srcs), Tally(srcs)) == |ValidPairs(pairs)|
  {
    var srcs := SourcesOf(ValidPairs(pairs));
    TallyMeaning(srcs);
    TallySum(srcs);
  }
}
