/** The Graphviz attribute-documentation scraper's per-page logic: which links
    lead to attribute pages, which code blocks of a page look like DOT and are kept, how an instruction is
    phrased from the attribute's description and how confident that phrasing
    is, and the gate each example passes. Confidence scores are whole
    hundredths. Fetching pages and reading HTML are outside the model. */
module AttributeDocs {
  import opened Wrappers
  import PyStr
  import Lists
  import Json
  import IdGenerator
  import Schema
  import DotValidator
  import Writer
  import Metrics
  import ScraperGate

  const MinConfidence := 60
  const HighConfidence := 80
  const MediumConfidence := 65

  /** `AttributeExample`: one DOT block of an attribute page. */
  datatype AttributeExample = AttributeExample(url: string, attributeName: string, description: Option<string>,
                                               dotCode: string, confidence: int, index: nat)

  function Identity(s: string): string {
    s
  }

  /** A comma-separated part of a "type: ..." description that says more than
      the type or the default. */
  predicate IsMeaningfulPart(part: string) {
    !PyStr.StartsWith(PyStr.Strip(part), "type:") && !PyStr.StartsWith(PyStr.Strip(part), "default:")
  }

  predicate IsSentenceEnd(c: char) {
    c == '.' || c == '!' || c == '?'
  }

  /** Index of the first '.', '!' or '?', or the length when there is none. */
  function SentenceEnd(s: string): (k: nat)
    ensures k <= |s|
    ensures k < |s| ==> IsSentenceEnd(s[k])
    ensures forall j :: 0 <= j < k ==> !IsSentenceEnd(s[j])
  {
    if s == [] || IsSentenceEnd(s[0]) then 0 else 1 + SentenceEnd(s[1..])
  }

  /** `re.split(r'[.!?]', desc)[0] + '.'` */
  function FirstSentence(s: string): (r: string)
    ensures |r| >= 1 && r[|r| - 1] == '.'
    ensures r[..|r| - 1] == s[..SentenceEnd(s)]
  {
    s[..SentenceEnd(s)] + "."
  }

  /** The description `to_instruction` works from: stripped; a "type: ..."
      description reduced to its meaningful comma-parts (none left: no
      description); and a text over 150 characters cut to its first sentence. */
  function CleanDescription(description: Option<string>): Option<string> {
    if description.None? || description.value == "" then None
    else
      var desc := PyStr.Strip(description.value);
      var reduced: Option<string> :=
        if PyStr.StartsWith(desc, "type:") then
          var meaningful := Lists.Select(PyStr.Split(desc, ","), IsMeaningfulPart, Identity);
          if meaningful != [] then Some(PyStr.Strip(PyStr.Join(" ", meaningful))) else None
        else Some(desc);
      if reduced.Some? && |reduced.value| > 150 then Some(FirstSentence(reduced.value)) else reduced
  }

  /** No description gives none; a plain short one is only stripped; a
      "type: ..." one made only of type and default parts gives none. */
  lemma CleanDescriptionMeaning(description: Option<string>)
    ensures description.None? || description == Some("") ==> CleanDescription(description).None?
    ensures description.Some? && description.value != "" && !PyStr.StartsWith(PyStr.Strip(description.value), "type:")
            && |PyStr.Strip(description.value)| <= 150 ==>
      CleanDescription(description) == Some(PyStr.Strip(description.value))
    ensures description.Some? && description.value != "" && PyStr.StartsWith(PyStr.Strip(description.value), "type:")
            && (forall p :: p in PyStr.Split(PyStr.Strip(description.value), ",") ==> !IsMeaningfulPart(p)) ==>
      CleanDescription(description).None?
    ensures CleanDescription(description).Some? && |CleanDescription(description).value| > 150 ==>
      CleanDescription(description).value[|CleanDescription(description).value| - 1] == '.'
  {
    if description.Some? && description.value != "" {
      var desc := PyStr.Strip(description.value);
      if PyStr.StartsWith(desc, "type:") {
        var parts := PyStr.Split(desc, ",");
        if forall p :: p in parts ==> !IsMeaningfulPart(p) {
          forall i | 0 <= i < |parts|
            ensures !IsMeaningfulPart(parts[i])
          {
            assert parts[i] in parts;
          }
          Lists.SelectNoneKept(parts, IsMeaningfulPart, Identity);
        }
      }
    }
  }

  /** The instruction that quotes the whole description. */
  function FullTemplate(attr: string, desc: string): (s: string)
    ensures |s| > |desc| && s[0] == 'D' && s[|s| - |desc|..] == desc
  {
    var head := "Demonstrate the '" + attr + "' attribute. ";
    assert (head + desc)[|head|..] == desc;
    head + desc
  }

  /** The instruction that quotes the first 80 characters of the description. */
  function ShortTemplate(attr: string, desc: string): (s: string)
    ensures |s| >= 3 && s[0] == 'D' && s[|s| - 3..] == "..."
    ensures |s| <= |attr| + 131
  {
    var head := "Demonstrate the '" + attr + "' attribute usage in Graphviz. ";
    var quoted := PyStr.Take(desc, 80);
    assert |quoted| <= 80;
    assert (head + quoted + "...")[|head| + |quoted|..] == "...";
    head + quoted + "..."
  }

  /** The instruction for an attribute without a usable description. */
  function GenericTemplate(attr: string): (s: string)
    ensures s != [] && s[0] == 'S'
  {
    "Show how to use the '" + attr + "' attribute in a Graphviz graph"
  }

  /** `to_instruction()`: the full template for a cleaned description of 31 to
      149 characters, the shortened one (80 characters and an ellipsis) for any
      other non-empty description, and the generic sentence otherwise. */
  function ToInstruction(e: AttributeExample): (s: string)
    ensures var d := CleanDescription(e.description);
            (d.None? || d.value == "" <==> s == GenericTemplate(e.attributeName))
            && (d.Some? && 30 < |d.value| < 150 ==> s == FullTemplate(e.attributeName, d.value)
                                                    && s[|s| - |d.value|..] == d.value)
            && (d.Some? && d.value != "" && !(30 < |d.value| < 150) ==>
                  s == ShortTemplate(e.attributeName, d.value) && s[|s| - 3..] == "..."
                  && |s| <= |e.attributeName| + 131)
  {
    var attr := e.attributeName;
    var desc := CleanDescription(e.description);
    if desc.Some? && 30 < |desc.value| < 150 then FullTemplate(attr, desc.value)
    else if desc.Some? && desc.value != "" then ShortTemplate(attr, desc.value)
    else GenericTemplate(attr)
  }

  /** Where the first ',' or newline after the start falls, when it is a ','. */
  function CommaBeforeNewline(s: string): (k: int)
    ensures k == -1 || (0 <= k < |s| && s[k] == ',')
    ensures k >= 0 ==> forall j :: 0 <= j < k ==> s[j] != ',' && s[j] != '\n'
  {
    if s == [] || s[0] == '\n' then -1
    else if s[0] == ',' then 0
    else
      var k := CommaBeforeNewline(s[1..]);
      if k < 0 then -1 else k + 1
  }

  /** `re.sub(tag + '.*?,', '', s)`: every `tag` that is followed on its line by
      a ',' is removed together with everything up to that comma, scanning left
      to right. */
  function SubTagged(s: string, tag: string): (r: string)
    requires tag != []
    ensures |r| <= |s|
    decreases |s|
  {
    if s == [] then []
    else if PyStr.StartsWith(s, tag) && CommaBeforeNewline(s[|tag|..]) >= 0 then
      SubTagged(s[|tag| + CommaBeforeNewline(s[|tag|..]) + 1..], tag)
    else [s[0]] + SubTagged(s[1..], tag)
  }

  /** A text in which the tag occurs nowhere is kept as it is. */
  lemma {:induction false} SubTaggedKeeps(s: string, tag: string)
    requires tag != []
    requires forall k :: 0 <= k < |s| ==> !PyStr.StartsWith(s[k..], tag)
    ensures SubTagged(s, tag) == s
    decreases |s|
  {
    if s != [] {
      assert s[0..] == s;
      forall k | 0 <= k < |s| - 1 ensures !PyStr.StartsWith(s[1..][k..], tag) {
        assert s[1..][k..] == s[k + 1..];
      }
      SubTaggedKeeps(s[1..], tag);
      assert s == [s[0]] + s[1..];
    }
  }

  /** The first ',' of a text whose start holds neither ',' nor newline. */
  lemma {:induction false} CommaAfter(x: string, rest: string)
    requires ',' !in x && '\n' !in x
    ensures CommaBeforeNewline(x + "," + rest) == |x|
    decreases |x|
  {
    if x != [] {
      assert (x + "," + rest)[1..] == x[1..] + "," + rest;
      CommaAfter(x[1..], rest);
    }
  }

  /** A tag followed on its line by a ',' is removed with everything up to
      and including that comma, and the removal goes on after it. */
  lemma SubTaggedDropsClause(tag: string, x: string, rest: string)
    requires tag != [] && ',' !in x && '\n' !in x
    ensures SubTagged(tag + x + "," + rest, tag) == SubTagged(rest, tag)
  {
    var s := tag + x + "," + rest;
    assert s[|tag|..] == x + "," + rest;
    CommaAfter(x, rest);
    PyStr.StartsWithConcat(tag, x + "," + rest);
    assert tag + (x + "," + rest) == s;
    assert s[|tag| + |x| + 1..] == rest;
  }

  /** The description with its "type: ...," and "default: ...," clauses removed. */
  function ScoredDescription(description: string): string {
    if PyStr.Contains(description, "type:") || PyStr.Contains(description, "default:") then
      SubTagged(SubTagged(description, "type:"), "default:")
    else description
  }

  /** The score a description earns before penalties. */
  function BaseScore(description: Option<string>): (score: int)
    ensures score == MediumConfidence || score == MediumConfidence + 5 || score == HighConfidence
    ensures description.None? || description == Some("") ==> score == MediumConfidence
  {
    if description.None? || description.value == "" then MediumConfidence
    else
      var n := |PyStr.Strip(ScoredDescription(description.value))|;
      if 30 < n < 200 then HighConfidence
      else if n > 10 then MediumConfidence + 5
      else MediumConfidence
  }

  /** Attributes whose short examples are too plain to teach much. */
  predicate IsTrivialExample(attr: string, dot: string) {
    PyStr.Lower(attr) in ["label", "color", "style"] && |dot| < 100
  }

  /** `calculate_confidence`: the description's score, less 0.05 for DOT text
      over 2000 characters and 0.10 for a short example of a trivial
      attribute, clamped to [0.6, 1.0]. */
  function CalculateConfidence(attr: string, description: Option<string>, dot: string): (score: int)
    ensures MinConfidence <= score <= HighConfidence
    ensures |dot| <= 2000 && !IsTrivialExample(attr, dot) ==> score == BaseScore(description)
    ensures |dot| > 2000 && !IsTrivialExample(attr, dot) ==> score == BaseScore(description) - 5
    ensures score < BaseScore(description) <==> |dot| > 2000 || IsTrivialExample(attr, dot)
  {
    var score := BaseScore(description);
    var score := if |dot| > 2000 then score - 5 else score;
    var score := if IsTrivialExample(attr, dot) then score - 10 else score;
    if score < MinConfidence then MinConfidence else if score > 100 then 100 else score
  }

  /** A link target that names an attribute page. */
  predicate IsAttributeHref(href: string) {
    PyStr.Contains(href, "/docs/attrs/") && PyStr.EndsWith(href, "/")
  }

  /** `extract_attribute_links`: the absolute URLs (`join` is `urljoin`
      against the site) of the attribute links, each once, in page order. */
  method ExtractAttributeLinks(hrefs: seq<string>, join: string -> string) returns (unique: seq<string>)
    ensures unique == Lists.Dedup(Lists.Select(hrefs, IsAttributeHref, join))
  {
    var links: seq<string> := [];
    for i := 0 to |hrefs|
      invariant links == Lists.Select(hrefs[..i], IsAttributeHref, join)
    {
      assert hrefs[..i + 1][..i] == hrefs[..i];
      if IsAttributeHref(hrefs[i]) {
        links := links + [join(hrefs[i])];
      }
    }
    assert hrefs[..|hrefs|] == hrefs;
    unique := Lists.DedupInOrder(links);
  }

  /** The link list holds every attribute link of the page exactly once,
      ordered by first appearance, and nothing else. */
  lemma AttributeLinksMeaning(hrefs: seq<string>, join: string -> string)
    ensures var links := Lists.Select(hrefs, IsAttributeHref, join);
            var unique := Lists.Dedup(links);
            Lists.NoDuplicates(unique)
            && (forall u :: u in unique <==> exists i :: 0 <= i < |hrefs| && IsAttributeHref(hrefs[i]) && join(hrefs[i]) == u)
            && (forall i, j :: 0 <= i < j < |unique| ==> Lists.FirstAt(links, unique[i]) < Lists.FirstAt(links, unique[j]))
  {
    Lists.SelectMeaning(hrefs, IsAttributeHref, join);
    Lists.DedupMeaning(Lists.Select(hrefs, IsAttributeHref, join));
  }

  /** `s.rstrip('/')` */
  function TrimSlashes(s: string): (r: string)
    ensures |r| <= |s| && r == s[..|r|]
    ensures r == [] || r[|r| - 1] != '/'
    ensures forall j :: |r| <= j < |s| ==> s[j] == '/'
  {
    if s != [] && s[|s| - 1] == '/' then TrimSlashes(s[..|s| - 1]) else s
  }

  /** `url.rstrip('/').split('/')[-1]`: the last path segment. */
  function AttributeNameOf(url: string): (name: string)
    ensures '/' !in name
  {
    var u := TrimSlashes(url);
    var k := Lists.LastIndex(u, '/');
    u[k + 1..]
  }

  /** An attribute page's URL ends with the attribute's name and a slash. */
  lemma AttributeNameOfPage(base: string, name: string)
    requires name != [] && '/' !in name
    ensures AttributeNameOf(base + "/" + name + "/") == name
  {
    var url := base + "/" + name + "/";
    var u := base + "/" + name;
    assert url[..|u|] == u;
    assert TrimSlashes(url) == TrimSlashes(u);
    assert u[|u| - 1] == name[|name| - 1];
    assert TrimSlashes(u) == u;
    assert forall j :: |base| < j < |u| ==> u[j] == name[j - |base| - 1];
    Lists.LastIndexAt(u, '/', |base|);
    assert u[|base| + 1..] == name;
  }

  /** A block the cleaning loop keeps: no shell command, at least 20 characters. */
  predicate IsUsableBlock(code: string) {
    !ScraperGate.IsShellBlock(code) && |code| >= 20
  }

  /** The page's example codes: the usable blocks, each once, in order. */
  function CleanCodes(blocks: seq<string>): seq<string> {
    Lists.Dedup(Lists.Select(blocks, IsUsableBlock, Identity))
  }

  /** The example codes are distinct, none is a shell command or shorter than
      20 characters, and every usable block is among them. */
  lemma CleanCodesMeaning(blocks: seq<string>)
    ensures Lists.NoDuplicates(CleanCodes(blocks))
    ensures forall c :: c in CleanCodes(blocks) <==> c in blocks && IsUsableBlock(c)
  {
    Lists.SelectMeaning(blocks, IsUsableBlock, Identity);
    Lists.DedupMeaning(Lists.Select(blocks, IsUsableBlock, Identity));
    forall c ensures c in Lists.Select(blocks, IsUsableBlock, Identity) <==> c in blocks && IsUsableBlock(c) {
      if c in blocks && IsUsableBlock(c) {
        var i :| 0 <= i < |blocks| && blocks[i] == c;
        assert IsUsableBlock(blocks[i]) && Identity(blocks[i]) == c;
      }
    }
  }

  /** The cleaning loop of `extract_attribute_content`: shell commands and
      blocks under 20 characters are skipped, and a `seen` set drops repeats. */
  method CleanBlocks(blocks: seq<string>) returns (cleanCodes: seq<string>)
    ensures cleanCodes == CleanCodes(blocks)
  {
    cleanCodes := [];
    var seen: set<string> := {};
    for i := 0 to |blocks|
      invariant cleanCodes == Lists.Dedup(Lists.Select(blocks[..i], IsUsableBlock, Identity))
      invariant forall x :: x in seen <==> x in cleanCodes
    {
      var code := blocks[i];
      ghost var sel := Lists.Select(blocks[..i], IsUsableBlock, Identity);
      Lists.SelectSnoc(blocks, i, IsUsableBlock, Identity);
      if !ScraperGate.IsShellBlock(code) && |code| >= 20 {
        Lists.DedupSnoc(sel, code);
        if code !in seen {
          seen := seen + {code};
          cleanCodes := cleanCodes + [code];
        }
      } else {
        assert sel + [] == sel;
      }
    }
    assert blocks[..|blocks|] == blocks;
  }

  /** The example of the `i`-th example code of a page. */
  function Scored(url: string, attrName: string, description: Option<string>, code: string, i: nat): (e: AttributeExample)
    ensures e.dotCode == code && e.index == i && e.url == url && e.attributeName == attrName
    ensures MinConfidence <= e.confidence <= HighConfidence
  {
    AttributeExample(url, attrName, description, code, CalculateConfidence(attrName, description, code), i)
  }

  /** The examples of the given codes, numbered from 0. */
  function ScoredAll(url: string, attrName: string, description: Option<string>, codes: seq<string>): (r: seq<AttributeExample>)
    ensures |r| == |codes|
    decreases |codes|
  {
    if codes == [] then []
    else
      var n := |codes| - 1;
      ScoredAll(url, attrName, description, codes[..n]) + [Scored(url, attrName, description, codes[n], n)]
  }

  /** The `i`-th example is the scored `i`-th code. */
  lemma {:induction false} ScoredAllAt(url: string, attrName: string, description: Option<string>, codes: seq<string>, i: nat)
    requires i < |codes|
    ensures ScoredAll(url, attrName, description, codes)[i] == Scored(url, attrName, description, codes[i], i)
    decreases |codes|
  {
    var n := |codes| - 1;
    if i < n {
      ScoredAllAt(url, attrName, description, codes[..n], i);
      assert codes[..n][i] == codes[i];
    }
  }

  /** The scoring loop of `extract_attribute_content`: every code becomes an
      example, numbered by its position; the confidence filter never drops
      one, since every score is at least the minimum. */
  method ScoreExamples(url: string, attrName: string, description: Option<string>, codes: seq<string>)
    returns (examples: seq<AttributeExample>)
    ensures examples == ScoredAll(url, attrName, description, codes)
  {
    examples := [];
    for idx := 0 to |codes|
      invariant examples == ScoredAll(url, attrName, description, codes[..idx])
    {
      assert codes[..idx + 1][..idx] == codes[..idx];
      var example := Scored(url, attrName, description, codes[idx], idx);
      if example.confidence >= MinConfidence {
        examples := examples + [example];
      } else {
        assert false;
      }
    }
    assert codes[..|codes|] == codes;
  }

  /** The example codes of a page whose `<pre>` elements have the texts `pres`
      and whose `<code>` elements outside any `<pre>` have the texts `codes`. */
  function PageCodes(pres: seq<string>, codes: seq<string>): seq<string> {
    CleanCodes(ScraperGate.CandidateBlocks(pres, codes))
  }

  /** A page's example codes are distinct, and a text is one of them exactly
      when it is usable and is the stripped text of a `<pre>` that looks like
      DOT or of a standalone `<code>` that starts like a graph. */
  lemma PageCodesMeaning(pres: seq<string>, codes: seq<string>)
    ensures Lists.NoDuplicates(PageCodes(pres, codes))
    ensures forall c :: c in PageCodes(pres, codes) <==>
      (IsUsableBlock(c) &&
         ((exists i :: 0 <= i < |pres| && PyStr.Strip(pres[i]) == c && ScraperGate.LooksLikeDotPre(c))
          || (exists i :: 0 <= i < |codes| && PyStr.Strip(codes[i]) == c && ScraperGate.LooksLikeDotCode(c))))
  {
    CleanCodesMeaning(ScraperGate.CandidateBlocks(pres, codes));
    ScraperGate.CandidateBlocksMeaning(pres, codes);
  }

  /** The example-building part of `extract_attribute_content`: one scored
      example per example code of the page, in order. */
  method ExtractAttributeContent(url: string, description: Option<string>, pres: seq<string>, codes: seq<string>)
    returns (examples: seq<AttributeExample>)
    ensures |examples| == |PageCodes(pres, codes)|
    ensures forall i :: 0 <= i < |examples| ==>
      var code := PageCodes(pres, codes)[i];
      examples[i] == AttributeExample(url, AttributeNameOf(url), description, code,
                                      CalculateConfidence(AttributeNameOf(url), description, code), i)
  {
    var codeBlocks := ScraperGate.CollectCandidates(pres, codes);
    var cleanCodes := CleanBlocks(codeBlocks);
    examples := ScoreExamples(url, AttributeNameOf(url), description, cleanCodes);
    forall i | 0 <= i < |examples| {
      ScoredAllAt(url, AttributeNameOf(url), description, cleanCodes, i);
    }
  }

  const IdPrefix := "attr-docs"

  /** The record id of an example: the content id under the attribute-docs
      prefix, with the block's position appended for every block but the first. */
  function AttributeId(code: string, index: nat, sha256: string -> IdGenerator.Sha256Hex): string {
    var id := IdGenerator.GenerateId(code, IdPrefix, sha256);
    if index > 0 then id + "-" + PyStr.NatToString(index) else id
  }

  /** Ids carry the content hash at a fixed place, and two blocks of the same
      text at different positions get different ids. */
  lemma AttributeIdMeaning(code: string, i: nat, j: nat, sha256: string -> IdGenerator.Sha256Hex)
    ensures |AttributeId(code, i, sha256)| >= 26
    ensures AttributeId(code, i, sha256)[..10] == IdPrefix + "-"
    ensures AttributeId(code, i, sha256)[10..26] == sha256(code)[..16]
    ensures i != j ==> AttributeId(code, i, sha256) != AttributeId(code, j, sha256)
  {
    var base := IdGenerator.GenerateId(code, IdPrefix, sha256);
    assert |base| == 26 && base[..10] == IdPrefix + "-" && base[10..26] == sha256(code)[..16];
    var a := AttributeId(code, i, sha256);
    var b := AttributeId(code, j, sha256);
    assert a[..26] == base;
    if i != j && a == b {
      if i > 0 && j > 0 {
        assert a[27..] == PyStr.NatToString(i);
        assert b[27..] == PyStr.NatToString(j);
        PyStr.NatToStringInjective(i, j);
      }
    }
  }

  /** The record an example that compiled should become; `clock` is
      `datetime.utcnow().isoformat()`. */
  function AttributeRecord(e: AttributeExample, v: DotValidator.ValidationResult,
                           sha256: string -> IdGenerator.Sha256Hex, clock: string): Schema.DataRecord {
    Schema.DataRecord(
      AttributeId(e.dotCode, e.index, sha256),
      "attribute_docs",
      e.url,
      "EPL-2.0",
      "NL_TO_DOT",
      ToInstruction(e),
      e.dotCode,
      DotValidator.ToSchemaStatus(v),
      clock + "Z",
      None)
  }

  /** The keyword arguments `_process_example` passes to the record
      constructor: the nine record fields and the example's confidence. */
  function RecordArguments(e: AttributeExample, v: DotValidator.ValidationResult,
                           sha256: string -> IdGenerator.Sha256Hex, clock: string): map<string, Json.Value> {
    WithConfidence(Schema.ToDict(AttributeRecord(e, v, sha256, clock)) - {Schema.ContextKey}, e.confidence)
  }

  /** The keyword arguments with `instruction_confidence` added. */
  function WithConfidence(d: map<string, Json.Value>, confidence: int): map<string, Json.Value> {
    d["instruction_confidence" := Json.JNumber(confidence as real / 100.0)]
  }

  /** The record has no `instruction_confidence` field, so building it raises
      `TypeError` for every example that compiled. */
  lemma RecordArgumentsRejected(e: AttributeExample, v: DotValidator.ValidationResult,
                                sha256: string -> IdGenerator.Sha256Hex, clock: string)
    ensures Schema.FromDict(RecordArguments(e, v, sha256, clock)).Err?
  {
    WithConfidenceRejected(Schema.ToDict(AttributeRecord(e, v, sha256, clock)) - {Schema.ContextKey}, e.confidence);
  }

  lemma WithConfidenceRejected(d: map<string, Json.Value>, confidence: int)
    ensures Schema.FromDict(WithConfidence(d, confidence)).Err?
  {
    Schema.FromDictRejectsConfidence(d, Json.JNumber(confidence as real / 100.0));
  }

  /** `AttributeDocsScraper`: the run's counters and, outside a dry run, the
      writer of the output file. */
  class AttributeDocsScraper {
    const dryRun: bool
    const writer: Writer.JsonlWriter?
    const metrics: Metrics.ScraperMetrics

    ghost predicate Valid()
      reads this, writer
    {
      ScraperGate.Ready(metrics, writer, dryRun)
    }

    /** A dry run has no writer; otherwise the writer is primed from the file
        already at the output path. `clock` stamps the start of the run. */
    constructor(dryRun: bool, output: Writer.SinkFile, isoParses: string -> bool, clock: string)
      ensures Valid() && this.dryRun == dryRun
      ensures writer != null ==> writer.existingIds == Writer.PrimedIds(output) && writer.written == []
      ensures forall c :: c in Metrics.Counters ==> metrics.Counter(c) == 0
    {
      this.dryRun := dryRun;
      if dryRun {
        writer := null;
      } else {
        writer := new Writer.JsonlWriter(output, isoParses);
      }
      metrics := new Metrics.ScraperMetrics("", clock);
    }

    /** `_process_example` as written: an example that does not compile is
        counted as a failure; one that compiles is counted as passed, and then
        building its record raises, so nothing is ever written or counted as
        written. */
    method ProcessExampleAsWritten(example: AttributeExample, validate: string -> DotValidator.Outcome,
                                   sha256: string -> IdGenerator.Sha256Hex, clock: string, writeFails: bool)
      returns (gate: ScraperGate.Gate)
      requires Valid()
      modifies metrics, writer
      ensures Valid()
      ensures validate(example.dotCode).GraphvizNotFound? ==>
        gate == ScraperGate.CompilerMissing && metrics.Counts() == old(metrics.Counts())
      ensures validate(example.dotCode).Returned? && !validate(example.dotCode).result.isValid ==>
        gate == ScraperGate.ValidationFailed && metrics.Counts() == Metrics.Bump(old(metrics.Counts()), "validation_failed", 1)
      ensures validate(example.dotCode).Returned? && validate(example.dotCode).result.isValid ==>
        gate == ScraperGate.Raised("TypeError")
        && metrics.Counts() == Metrics.Bump(old(metrics.Counts()), "validation_passed", 1)
      ensures !dryRun ==> unchanged(writer)
    {
      var outcome := validate(example.dotCode);
      if outcome.GraphvizNotFound? {
        return ScraperGate.CompilerMissing;
      }
      var result := outcome.result;
      if !result.isValid {
        var _ := metrics.Increment("validation_failed", 1);
        return ScraperGate.ValidationFailed;
      }
      var _ := metrics.Increment("validation_passed", 1);
      // `DataRecord(**arguments)` raises before the record exists.
      RecordArgumentsRejected(example, result, sha256, clock);
      gate := ScraperGate.Raised("TypeError");
    }

    /** `_process_example` with the record built from its own fields only: an
        example that does not compile is counted as a failure and nothing is
        written; one that compiles is counted as passed and its record is
        written under its content id (or only counted in a dry run), a
        duplicate id being counted as skipped. */
    method ProcessExample(example: AttributeExample, validate: string -> DotValidator.Outcome,
                          sha256: string -> IdGenerator.Sha256Hex, clock: string, writeFails: bool)
      returns (gate: ScraperGate.Gate)
      requires Valid()
      modifies metrics, writer
      ensures Valid()
      ensures validate(example.dotCode).GraphvizNotFound? ==>
        gate == ScraperGate.CompilerMissing && metrics.Counts() == old(metrics.Counts())
        && (!dryRun ==> unchanged(writer))
      ensures validate(example.dotCode).Returned? && !validate(example.dotCode).result.isValid ==>
        gate == ScraperGate.ValidationFailed && (!dryRun ==> unchanged(writer))
        && metrics.Counts() == Metrics.Bump(old(metrics.Counts()), "validation_failed", 1)
      ensures validate(example.dotCode).Returned? && validate(example.dotCode).result.isValid ==>
        var record := AttributeRecord(example, validate(example.dotCode).result, sha256, clock);
        var passed := Metrics.Bump(old(metrics.Counts()), "validation_passed", 1);
        (dryRun ==> gate == ScraperGate.DryRunCounted && metrics.Counts() == Metrics.Bump(passed, "examples_written", 1))
        && (!dryRun && Json.JString(record.id) in old(writer.existingIds) ==>
              gate == ScraperGate.DuplicateSkipped && unchanged(writer)
              && metrics.Counts() == Metrics.Bump(passed, "duplicates_skipped", 1))
        && (!dryRun && Json.JString(record.id) !in old(writer.existingIds) && !Schema.Validate(record, writer.isoParses).0 ==>
              gate == ScraperGate.Raised("ValueError") && unchanged(writer) && metrics.Counts() == passed)
        && (!dryRun && Json.JString(record.id) !in old(writer.existingIds) && Schema.Validate(record, writer.isoParses).0 ==>
              if writeFails then gate == ScraperGate.Raised("IOError") && unchanged(writer) && metrics.Counts() == passed
              else gate == ScraperGate.Written && metrics.Counts() == Metrics.Bump(passed, "examples_written", 1)
                   && writer.lines == old(writer.lines) + [Schema.ToJsonLine(record)]
                   && writer.existingIds == old(writer.existingIds) + {Json.JString(record.id)})
    {
      var outcome := validate(example.dotCode);
      if outcome.GraphvizNotFound? {
        return ScraperGate.CompilerMissing;
      }
      var result := outcome.result;
      if !result.isValid {
        var _ := metrics.Increment("validation_failed", 1);
        return ScraperGate.ValidationFailed;
      }
      var _ := metrics.Increment("validation_passed", 1);
      var record := AttributeRecord(example, result, sha256, clock);
      gate := ScraperGate.Publish(metrics, writer, dryRun, record, writeFails);
    }
  }
}
