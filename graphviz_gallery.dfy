/** The Graphviz Gallery scraper's per-page logic: which links lead to example
    pages, which code blocks of a page count as DOT examples, and the gate each
    example passes on its way to the documentation stream. Fetching pages and
    reading HTML are outside the model: a page arrives as its link targets, or
    as its title, description, the texts of its `<pre>` elements and the
    texts of its `<code>` elements outside every `<pre>`. */
module GraphvizGallery {
  import opened Wrappers
  import PyStr
  import Lists
  import IdGenerator
  import Schema
  import DotValidator
  import Writer
  import Metrics
  import ScraperGate
  import Json

  /** `GalleryExample`: one DOT block of an example page. */
  datatype GalleryExample = GalleryExample(url: string, title: string, description: Option<string>,
                                           dotCode: string, index: nat)

  /** `to_instruction()`: the title, followed by ". " and the description when
      there is a non-empty one. */
  function ToInstruction(e: GalleryExample): (s: string)
    ensures |s| >= |e.title| && s[..|e.title|] == e.title
    ensures s == e.title <==> e.description.None? || e.description.value == ""
    ensures s != e.title ==> s[|e.title|..] == ". " + e.description.value
  {
    if e.description.Some? && e.description.value != "" then e.title + ". " + e.description.value else e.title
  }

  /** A link target that names an example page. */
  predicate IsExampleHref(href: string) {
    PyStr.Contains(href, "/Gallery/") && PyStr.EndsWith(href, ".html")
  }

  /** `extract_example_links`: the absolute URLs (`join` is `urljoin` against
      the gallery URL) of the example links, each once, in page order. */
  method ExtractExampleLinks(hrefs: seq<string>, join: string -> string) returns (unique: seq<string>)
    ensures unique == Lists.Dedup(Lists.Select(hrefs, IsExampleHref, join))
  {
    var links: seq<string> := [];
    for i := 0 to |hrefs|
      invariant links == Lists.Select(hrefs[..i], IsExampleHref, join)
    {
      assert hrefs[..i + 1][..i] == hrefs[..i];
      if IsExampleHref(hrefs[i]) {
        links := links + [join(hrefs[i])];
      }
    }
    assert hrefs[..|hrefs|] == hrefs;
    unique := Lists.DedupInOrder(links);
  }

  /** The link list holds every example link of the page exactly once, ordered
      by first appearance, and nothing else. */
  lemma ExampleLinksMeaning(hrefs: seq<string>, join: string -> string)
    ensures var links := Lists.Select(hrefs, IsExampleHref, join);
            var unique := Lists.Dedup(links);
            Lists.NoDuplicates(unique)
            && (forall u :: u in unique <==> exists i :: 0 <= i < |hrefs| && IsExampleHref(hrefs[i]) && join(hrefs[i]) == u)
            && (forall i, j :: 0 <= i < j < |unique| ==> Lists.FirstAt(links, unique[i]) < Lists.FirstAt(links, unique[j]))
  {
    Lists.SelectMeaning(hrefs, IsExampleHref, join);
    Lists.DedupMeaning(Lists.Select(hrefs, IsExampleHref, join));
  }

  /** `code.find(c, from)` for a start inside the text. */
  function FindCharFrom(s: string, c: char, from: nat): (r: int)
    requires from <= |s|
    ensures r == -1 || (from <= r < |s| && s[r] == c)
    ensures forall j :: from <= j < |s| && (r == -1 || j < r) ==> s[j] != c
  {
    var k := PyStr.FindChar(s[from..], c);
    if k < 0 then -1
    else
      assert forall j :: from <= j < from + k ==> s[j] == s[from..][j - from];
      from + k
  }

  /** The text between the quote that opens `"digraph` and the next quote,
      when both are there. */
  function QuotedDigraph(code: string): Option<string> {
    if PyStr.Find(code, "\"digraph") < 0 then None
    else QuotedFrom(code, PyStr.Find(code, "\"digraph"))
  }

  /** The text between the quote at `start` and the next quote, if any. */
  function QuotedFrom(code: string, start: nat): Option<string>
    requires start < |code|
  {
    if FindCharFrom(code, '"', start + 1) > start then Some(code[start + 1..FindCharFrom(code, '"', start + 1)])
    else None
  }

  /** `t` stands between two quotes at position `k` of `code`. */
  predicate QuotedAt(code: string, t: string, k: int) {
    0 <= k && k + |t| + 2 <= |code| && code[k..k + |t| + 2] == "\"" + t + "\""
  }

  /** The extracted text starts with "digraph", holds no quote, and stood
      quoted in the block. */
  lemma QuotedDigraphMeaning(code: string)
    ensures QuotedDigraph(code).Some? ==>
      var t := QuotedDigraph(code).value;
      PyStr.StartsWith(t, "digraph") && '"' !in t && exists k :: QuotedAt(code, t, k)
  {
    if PyStr.Find(code, "\"digraph") >= 0
       && FindCharFrom(code, '"', PyStr.Find(code, "\"digraph") + 1) > PyStr.Find(code, "\"digraph") {
      QuotedBetween(code, PyStr.Find(code, "\"digraph"), FindCharFrom(code, '"', PyStr.Find(code, "\"digraph") + 1));
    }
  }

  lemma QuotedBetween(code: string, start: nat, end: nat)
    requires start < end < |code| && code[end] == '"'
    requires PyStr.StartsWith(code[start..], "\"digraph")
    requires forall j :: start + 1 <= j < end ==> code[j] != '"'
    ensures var t := code[start + 1..end];
            PyStr.StartsWith(t, "digraph") && '"' !in t && QuotedAt(code, t, start)
  {
    var t := code[start + 1..end];
    assert code[start..][..8] == "\"digraph";
    assert code[start..start + 8] == "\"digraph";
    var word := code[start + 1..start + 8];
    assert word == "digraph";
    assert forall j :: start + 1 <= j < start + 8 ==> code[j] == word[j - start - 1];
    assert end >= start + 8;
    assert t[..7] == word;
    assert code[start..end + 1] == [code[start]] + t + [code[end]];
    assert code[start] == '"';
  }

  /** What the cleaning loop keeps of one block: from a shell command, the
      quoted text that starts `"digraph`, up to the next quote; from anything
      else, the block itself when it opens with "digraph", "graph" or
      "strict". */
  function CleanBlock(code: string): Option<string> {
    if ScraperGate.IsShellBlock(code) then
      if PyStr.Contains(code, "digraph") && PyStr.Contains(code, "\"digraph") then QuotedDigraph(code) else None
    else if PyStr.StartsWith(code, "digraph") || PyStr.StartsWith(code, "graph") || PyStr.StartsWith(code, "strict") then
      Some(code)
    else None
  }

  /** A shell block gives at most a quote-free text that starts with "digraph"
      and stood between two quotes in the block; any other block is kept
      whole, exactly when it opens with one of the three keywords. */
  lemma CleanBlockMeaning(code: string)
    ensures ScraperGate.IsShellBlock(code) && CleanBlock(code).Some? ==>
      var t := CleanBlock(code).value;
      PyStr.StartsWith(t, "digraph") && '"' !in t && exists k :: QuotedAt(code, t, k)
    ensures ScraperGate.IsShellBlock(code) && !PyStr.Contains(code, "\"digraph") ==> CleanBlock(code).None?
    ensures !ScraperGate.IsShellBlock(code) ==>
      (CleanBlock(code) == Some(code) <==>
         PyStr.StartsWith(code, "digraph") || PyStr.StartsWith(code, "graph") || PyStr.StartsWith(code, "strict"))
    ensures !ScraperGate.IsShellBlock(code) ==> CleanBlock(code).None? || CleanBlock(code) == Some(code)
  {
    QuotedDigraphMeaning(code);
  }

  /** The cleaned texts of the blocks, in block order. */
  function CleanedCodes(blocks: seq<string>): seq<string> {
    Lists.Collect(blocks, CleanBlock)
  }

  predicate LongerThanTen(code: string) {
    |code| > 10
  }

  function Identity(code: string): string {
    code
  }

  /** The page's example codes: the cleaned texts longer than ten characters,
      each once, in order of first appearance. */
  function UniqueCodes(blocks: seq<string>): seq<string> {
    Lists.Dedup(Lists.Select(CleanedCodes(blocks), LongerThanTen, Identity))
  }

  /** The example codes of a page are distinct, each longer than ten
      characters, and they are exactly the long cleaned blocks. */
  lemma UniqueCodesMeaning(blocks: seq<string>)
    ensures Lists.NoDuplicates(UniqueCodes(blocks))
    ensures forall c :: c in UniqueCodes(blocks) <==>
      |c| > 10 && exists i :: 0 <= i < |blocks| && CleanBlock(blocks[i]) == Some(c)
    ensures forall c :: c in UniqueCodes(blocks) <==> |c| > 10 && c in CleanedCodes(blocks)
  {
    var cleaned := CleanedCodes(blocks);
    Lists.CollectMeaning(blocks, CleanBlock);
    Lists.SelectMeaning(cleaned, LongerThanTen, Identity);
    Lists.DedupMeaning(Lists.Select(cleaned, LongerThanTen, Identity));
    forall c ensures c in Lists.Select(cleaned, LongerThanTen, Identity) <==> |c| > 10 && c in cleaned {
      if |c| > 10 && c in cleaned {
        var i :| 0 <= i < |cleaned| && cleaned[i] == c;
        assert LongerThanTen(cleaned[i]) && Identity(cleaned[i]) == c;
      }
    }
  }

  /** The cleaning loop of `extract_example_content`: each block's cleaned
      text, in block order, the blocks that yield none left out. */
  method CleanAll(blocks: seq<string>) returns (cleanCodes: seq<string>)
    ensures cleanCodes == CleanedCodes(blocks)
  {
    cleanCodes := [];
    for i := 0 to |blocks|
      invariant cleanCodes == Lists.Collect(blocks[..i], CleanBlock)
    {
      Lists.CollectSnoc(blocks, i, CleanBlock);
      var c := CleanBlock(blocks[i]);
      if c.Some? {
        cleanCodes := cleanCodes + [c.value];
      }
    }
    assert blocks[..|blocks|] == blocks;
  }

  /** The de-duplicating loop of `extract_example_content`: the codes longer
      than ten characters, each once, in order of first appearance. */
  method UniqueLongCodes(cleanCodes: seq<string>) returns (uniqueCodes: seq<string>)
    ensures uniqueCodes == Lists.Dedup(Lists.Select(cleanCodes, LongerThanTen, Identity))
  {
    uniqueCodes := [];
    var seenCodes: set<string> := {};
    for i := 0 to |cleanCodes|
      invariant uniqueCodes == Lists.Dedup(Lists.Select(cleanCodes[..i], LongerThanTen, Identity))
      invariant forall x :: x in seenCodes <==> x in uniqueCodes
    {
      var code := cleanCodes[i];
      ghost var sel := Lists.Select(cleanCodes[..i], LongerThanTen, Identity);
      Lists.SelectSnoc(cleanCodes, i, LongerThanTen, Identity);
      if |code| > 10 {
        Lists.DedupSnoc(sel, code);
        if code !in seenCodes {
          seenCodes := seenCodes + {code};
          uniqueCodes := uniqueCodes + [code];
        }
      } else {
        assert sel + [] == sel;
      }
    }
    assert cleanCodes[..|cleanCodes|] == cleanCodes;
  }

  /** The example codes of a page whose `<pre>` elements have the texts `pres`
      and whose `<code>` elements outside any `<pre>` have the texts `codes`. */
  function PageCodes(pres: seq<string>, codes: seq<string>): seq<string> {
    UniqueCodes(ScraperGate.CandidateBlocks(pres, codes))
  }

  /** A page's example codes are distinct and longer than ten characters, and
      each is the cleaned text of a `<pre>` that looks like DOT or of a
      standalone `<code>` that starts like a graph; every such cleaned text
      longer than ten characters is one of them. */
  lemma PageCodesMeaning(pres: seq<string>, codes: seq<string>)
    ensures Lists.NoDuplicates(PageCodes(pres, codes))
    ensures forall c :: c in PageCodes(pres, codes) <==>
      (|c| > 10 &&
         ((exists i :: 0 <= i < |pres| && ScraperGate.IsDotPre(pres[i]) && CleanBlock(PyStr.Strip(pres[i])) == Some(c))
          || (exists i :: 0 <= i < |codes| && ScraperGate.IsDotCode(codes[i]) && CleanBlock(PyStr.Strip(codes[i])) == Some(c))))
  {
    UniqueCodesMeaning(ScraperGate.CandidateBlocks(pres, codes));
    forall c {
      Lists.CollectSelectBoth(pres, codes, ScraperGate.IsDotPre, ScraperGate.IsDotCode, PyStr.Strip, CleanBlock, c);
    }
  }

  /** The code-cleaning part of `extract_example_content`: the examples of a
      page, one per example code, numbered by position. */
  method ExtractExampleContent(url: string, title: string, description: Option<string>,
                               pres: seq<string>, codes: seq<string>)
    returns (examples: seq<GalleryExample>)
    ensures |examples| == |PageCodes(pres, codes)|
    ensures forall i :: 0 <= i < |examples| ==>
      examples[i] == GalleryExample(url, title, description, PageCodes(pres, codes)[i], i)
  {
    var codeBlocks := ScraperGate.CollectCandidates(pres, codes);
    var cleanCodes := CleanAll(codeBlocks);
    var uniqueCodes := UniqueLongCodes(cleanCodes);
    examples := NumberExamples(url, title, description, uniqueCodes);
  }

  /** The numbering loop of `extract_example_content`: one example per code,
      numbered by its position. */
  method NumberExamples(url: string, title: string, description: Option<string>, codes: seq<string>)
    returns (examples: seq<GalleryExample>)
    ensures |examples| == |codes|
    ensures forall i :: 0 <= i < |examples| ==> examples[i] == GalleryExample(url, title, description, codes[i], i)
  {
    examples := [];
    for idx := 0 to |codes|
      invariant |examples| == idx
      invariant forall i :: 0 <= i < idx ==> examples[i] == GalleryExample(url, title, description, codes[i], i)
    {
      examples := examples + [GalleryExample(url, title, description, codes[idx], idx)];
    }
  }

  const IdPrefix := "graphviz-gallery"

  /** The record id of an example: the content id under the gallery prefix,
      with the block's position appended for every block but the first. */
  function GalleryId(code: string, index: nat, sha256: string -> IdGenerator.Sha256Hex): string {
    var id := IdGenerator.GenerateId(code, IdPrefix, sha256);
    if index > 0 then id + "-" + PyStr.NatToString(index) else id
  }

  /** Ids carry the content hash at a fixed place, and two blocks of the same
      text at different positions get different ids. */
  lemma GalleryIdMeaning(code: string, i: nat, j: nat, sha256: string -> IdGenerator.Sha256Hex)
    ensures |GalleryId(code, i, sha256)| >= 33
    ensures GalleryId(code, i, sha256)[..17] == IdPrefix + "-"
    ensures GalleryId(code, i, sha256)[17..33] == sha256(code)[..16]
    ensures i != j ==> GalleryId(code, i, sha256) != GalleryId(code, j, sha256)
  {
    var base := IdGenerator.GenerateId(code, IdPrefix, sha256);
    assert |base| == 33 && base[..17] == IdPrefix + "-" && base[17..33] == sha256(code)[..16];
    var a := GalleryId(code, i, sha256);
    var b := GalleryId(code, j, sha256);
    assert a[..33] == base;
    if i != j && a == b {
      if i > 0 && j > 0 {
        assert a[34..] == PyStr.NatToString(i);
        assert b[34..] == PyStr.NatToString(j);
        PyStr.NatToStringInjective(i, j);
      }
    }
  }

  /** The record `_process_example` builds for an example that compiled;
      `clock` is `datetime.utcnow().isoformat()`. */
  function GalleryRecord(e: GalleryExample, v: DotValidator.ValidationResult, sha256: string -> IdGenerator.Sha256Hex,
                         clock: string): Schema.DataRecord {
    Schema.DataRecord(
      GalleryId(e.dotCode, e.index, sha256),
      "graphviz_gallery",
      e.url,
      "EPL-2.0",
      "NL_TO_DOT",
      ToInstruction(e),
      e.dotCode,
      DotValidator.ToSchemaStatus(v),
      clock + "Z",
      None)
  }

  /** Only compiled examples become records, so every gallery record is filed
      as passed_compiler. */
  lemma GalleryRecordPassed(e: GalleryExample, v: DotValidator.ValidationResult,
                            sha256: string -> IdGenerator.Sha256Hex, clock: string)
    requires v.isValid
    ensures GalleryRecord(e, v, sha256, clock).verificationStatus == "passed_compiler"
    ensures GalleryRecord(e, v, sha256, clock).taskType in Schema.TaskTypes
  {
  }

  /** `GraphvizGalleryScraper`: the run's counters and, outside a dry run,
      the writer of the output file. */
  class GraphvizGalleryScraper {
    const dryRun: bool
    const writer: Writer.JsonlWriter?
    const metrics: Metrics.ScraperMetrics

    ghost predicate Valid()
      reads this, writer
    {
      ScraperGate.Ready(metrics, writer, dryRun)
    }

    /** A dry run has no writer; otherwise the writer is primed from the file
        already at the output path. `clock` stamps the start of the run. */
    constructor(dryRun: bool, output: Writer.SinkFile, isoParses: string -> bool, clock: string)
      ensures Valid() && this.dryRun == dryRun
      ensures writer != null ==> writer.existingIds == Writer.PrimedIds(output) && writer.written == []
      ensures forall c :: c in Metrics.Counters ==> metrics.Counter(c) == 0
    {
      this.dryRun := dryRun;
      if dryRun {
        writer := null;
      } else {
        writer := new Writer.JsonlWriter(output, isoParses);
      }
      metrics := new Metrics.ScraperMetrics("", clock);
    }

    /** `_process_example`: an example that does not compile is counted as a
        failure and nothing is written; one that compiles is counted as passed
        and its record is written under its content id (or only counted in a
        dry run), a duplicate id being counted as skipped. A missing Graphviz
        binary raises before anything changes. */
    method ProcessExample(example: GalleryExample, validate: string -> DotValidator.Outcome,
                          sha256: string -> IdGenerator.Sha256Hex, clock: string, writeFails: bool)
      returns (gate: ScraperGate.Gate)
      requires Valid()
      modifies metrics, writer
      ensures Valid()
      ensures validate(example.dotCode).GraphvizNotFound? ==>
        gate == ScraperGate.CompilerMissing && metrics.Counts() == old(metrics.Counts())
        && (!dryRun ==> unchanged(writer))
      ensures validate(example.dotCode).Returned? && !validate(example.dotCode).result.isValid ==>
        gate == ScraperGate.ValidationFailed && (!dryRun ==> unchanged(writer))
        && metrics.Counts() == Metrics.Bump(old(metrics.Counts()), "validation_failed", 1)
      ensures validate(example.dotCode).Returned? && validate(example.dotCode).result.isValid ==>
        var record := GalleryRecord(example, validate(example.dotCode).result, sha256, clock);
        var passed := Metrics.Bump(old(metrics.Counts()), "validation_passed", 1);
        (dryRun ==> gate == ScraperGate.DryRunCounted && metrics.Counts() == Metrics.Bump(passed, "examples_written", 1))
        && (!dryRun && Json.JString(record.id) in old(writer.existingIds) ==>
              gate == ScraperGate.DuplicateSkipped && unchanged(writer)
              && metrics.Counts() == Metrics.Bump(passed, "duplicates_skipped", 1))
        && (!dryRun && Json.JString(record.id) !in old(writer.existingIds) && !Schema.Validate(record, writer.isoParses).0 ==>
              gate == ScraperGate.Raised("ValueError") && unchanged(writer) && metrics.Counts() == passed)
        && (!dryRun && Json.JString(record.id) !in old(writer.existingIds) && Schema.Validate(record, writer.isoParses).0 ==>
              if writeFails then gate == ScraperGate.Raised("IOError") && unchanged(writer) && metrics.Counts() == passed
              else gate == ScraperGate.Written && metrics.Counts() == Metrics.Bump(passed, "examples_written", 1)
                   && writer.lines == old(writer.lines) + [Schema.ToJsonLine(record)]
                   && writer.existingIds == old(writer.existingIds) + {Json.JString(record.id)})
    {
      var outcome := validate(example.dotCode);
      if outcome.GraphvizNotFound? {
        return ScraperGate.CompilerMissing;
      }
      var result := outcome.result;
      if !result.isValid {
        var _ := metrics.Increment("validation_failed", 1);
        return ScraperGate.ValidationFailed;
      }
      var _ := metrics.Increment("validation_passed", 1);
      var record := GalleryRecord(example, result, sha256, clock);
      gate := ScraperGate.Publish(metrics, writer, dryRun, record, writeFails);
    }
  }
}
