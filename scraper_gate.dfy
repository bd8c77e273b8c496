/** What the two documentation scrapers share: which code blocks of a page
    look like DOT, the shell-command test on code blocks, and the last step for an example that compiled, where the record is
    written through the de-duplicating writer (or only counted in a dry run)
    and the run counters record which way it went. */
module ScraperGate {
  import Json
  import PyStr
  import Schema
  import Writer
  import Metrics
  import Lists

  /** A stripped `<pre>` text that looks like DOT: it starts with `digraph` or
      `graph`, or `digraph` or `graph {` occurs in its first 50 characters. */
  predicate LooksLikeDotPre(code: string) {
    code != [] && (PyStr.StartsWith(code, "digraph") || PyStr.StartsWith(code, "graph")
      || PyStr.Contains(PyStr.Take(code, 50), "digraph") || PyStr.Contains(PyStr.Take(code, 50), "graph {"))
  }

  /** A stripped `<code>` text outside every `<pre>` that looks like DOT: it
      starts with `digraph` or `graph`. */
  predicate LooksLikeDotCode(code: string) {
    code != [] && (PyStr.StartsWith(code, "digraph") || PyStr.StartsWith(code, "graph"))
  }

  predicate IsDotPre(raw: string) {
    LooksLikeDotPre(PyStr.Strip(raw))
  }

  predicate IsDotCode(raw: string) {
    LooksLikeDotCode(PyStr.Strip(raw))
  }

  /** `code_blocks` of a page whose `<pre>` elements have the texts `pres` and
      whose `<code>` elements outside any `<pre>` have the texts `codes`: the
      stripped `<pre>` texts that look like DOT, then the stripped `<code>`
      texts that do, each group in page order. */
  function CandidateBlocks(pres: seq<string>, codes: seq<string>): seq<string> {
    Lists.Select(pres, IsDotPre, PyStr.Strip) + Lists.Select(codes, IsDotCode, PyStr.Strip)
  }

  /** A `<code>` text that passes passes as a `<pre>` text as well: the test
      for a `<pre>` is the looser one. */
  lemma CodeRuleStricter(code: string)
    ensures LooksLikeDotCode(code) ==> LooksLikeDotPre(code)
  {
  }

  /** `graph {` after the start of a `<pre>` text counts ... */
  lemma PreTakesLateGraph()
    ensures LooksLikeDotPre("a graph {}")
  {
    var s := "a " + "graph {" + "}";
    assert s == "a graph {}";
    assert PyStr.Take(s, 50) == s;
    PyStr.ContainsInside("a ", "graph {", "}");
  }

  /** ... but not in a standalone `<code>` text. */
  lemma CodeRefusesLateGraph()
    ensures !LooksLikeDotCode("a graph {}")
  {
    var s := "a graph {}";
    assert s[..5][0] == 'a';
    assert s[..7][0] == 'a';
  }

  /** The candidate blocks are the stripped `<pre>` texts that look like DOT,
      all before the stripped standalone `<code>` texts that do. */
  lemma CandidateBlocksMeaning(pres: seq<string>, codes: seq<string>)
    ensures |CandidateBlocks(pres, codes)| <= |pres| + |codes|
    ensures forall c :: c in Lists.Select(pres, IsDotPre, PyStr.Strip) <==>
      exists i :: 0 <= i < |pres| && PyStr.Strip(pres[i]) == c && LooksLikeDotPre(c)
    ensures forall c :: c in Lists.Select(codes, IsDotCode, PyStr.Strip) <==>
      exists i :: 0 <= i < |codes| && PyStr.Strip(codes[i]) == c && LooksLikeDotCode(c)
    ensures forall c :: c in CandidateBlocks(pres, codes) ==> LooksLikeDotPre(c)
  {
    Lists.SelectMeaning(pres, IsDotPre, PyStr.Strip);
    Lists.SelectMeaning(codes, IsDotCode, PyStr.Strip);
    forall c | c in Lists.Select(codes, IsDotCode, PyStr.Strip)
      ensures LooksLikeDotPre(c)
    {
      CodeRuleStricter(c);
    }
  }

  /** The loop over the `<pre>` elements that gathers `code_blocks`. */
  method DotPreBlocks(pres: seq<string>) returns (codeBlocks: seq<string>)
    ensures codeBlocks == Lists.Select(pres, IsDotPre, PyStr.Strip)
  {
    codeBlocks := [];
    for i := 0 to |pres|
      invariant codeBlocks == Lists.Select(pres[..i], IsDotPre, PyStr.Strip)
    {
      Lists.SelectSnoc(pres, i, IsDotPre, PyStr.Strip);
      if IsDotPre(pres[i]) {
        codeBlocks := codeBlocks + [PyStr.Strip(pres[i])];
      }
    }
    assert pres[..|pres|] == pres;
  }

  /** The loop over the `<code>` elements outside every `<pre>` that adds to
      `code_blocks`. */
  method DotCodeBlocks(codes: seq<string>) returns (codeBlocks: seq<string>)
    ensures codeBlocks == Lists.Select(codes, IsDotCode, PyStr.Strip)
  {
    codeBlocks := [];
    for i := 0 to |codes|
      invariant codeBlocks == Lists.Select(codes[..i], IsDotCode, PyStr.Strip)
    {
      Lists.SelectSnoc(codes, i, IsDotCode, PyStr.Strip);
      if IsDotCode(codes[i]) {
        codeBlocks := codeBlocks + [PyStr.Strip(codes[i])];
      }
    }
    assert codes[..|codes|] == codes;
  }

  /** The two loops of `extract_attribute_content` and `extract_example_content`
      that gather `code_blocks`: first over the `<pre>` elements, then over the
      `<code>` elements outside them. */
  method CollectCandidates(pres: seq<string>, codes: seq<string>) returns (codeBlocks: seq<string>)
    ensures codeBlocks == CandidateBlocks(pres, codes)
  {
    var fromPres := DotPreBlocks(pres);
    var fromCodes := DotCodeBlocks(codes);
    codeBlocks := fromPres + fromCodes;
  }

  /** A block holding one of the shell-command markers. */
  predicate IsShellBlock(code: string) {
    PyStr.Contains(code, "echo ") || PyStr.Contains(code, "| dot")
    || PyStr.Contains(code, "> ") || PyStr.Contains(code, "< ")
  }

  /** How handling one example ended. `Raised` is an exception leaving
      `_process_example`: the writer's `ValueError` for an invalid record, an
      `IOError` from the file, or a `TypeError` building the record. */
  datatype Gate = ValidationFailed | CompilerMissing | DryRunCounted | Written | DuplicateSkipped | Raised(error: string)

  /** The scraper's state: the writer exists exactly when the run is not a dry
      run, and it keeps its own invariant. */
  ghost predicate Ready(metrics: Metrics.ScraperMetrics, writer: Writer.JsonlWriter?, dryRun: bool)
    reads writer
  {
    (dryRun <==> writer == null) && (writer != null ==> writer.Valid())
  }

  /** Write (or in a dry run only count) a record: a fresh valid record is
      appended and counted as written, a known id is counted as a duplicate,
      and a record the writer refuses or cannot write raises with the counters
      untouched. The run's timestamps never change. */
  method Publish(metrics: Metrics.ScraperMetrics, writer: Writer.JsonlWriter?, dryRun: bool,
                 record: Schema.DataRecord, writeFails: bool) returns (gate: Gate)
    requires Ready(metrics, writer, dryRun)
    modifies metrics, writer
    ensures Ready(metrics, writer, dryRun)
    ensures metrics.startTime == old(metrics.startTime) && metrics.endTime == old(metrics.endTime)
    ensures dryRun ==>
      gate == DryRunCounted && metrics.Counts() == Metrics.Bump(old(metrics.Counts()), "examples_written", 1)
    ensures !dryRun && Json.JString(record.id) in old(writer.existingIds) ==>
      gate == DuplicateSkipped && metrics.Counts() == Metrics.Bump(old(metrics.Counts()), "duplicates_skipped", 1)
      && unchanged(writer)
    ensures !dryRun && Json.JString(record.id) !in old(writer.existingIds) && !Schema.Validate(record, writer.isoParses).0 ==>
      gate == Raised("ValueError") && metrics.Counts() == old(metrics.Counts()) && unchanged(writer)
    ensures !dryRun && Json.JString(record.id) !in old(writer.existingIds) && Schema.Validate(record, writer.isoParses).0
            && writeFails ==>
      gate == Raised("IOError") && metrics.Counts() == old(metrics.Counts()) && unchanged(writer)
    ensures !dryRun && Json.JString(record.id) !in old(writer.existingIds) && Schema.Validate(record, writer.isoParses).0
            && !writeFails ==>
      gate == Written && metrics.Counts() == Metrics.Bump(old(metrics.Counts()), "examples_written", 1)
      && writer.lines == old(writer.lines) + [Schema.ToJsonLine(record)]
      && writer.existingIds == old(writer.existingIds) + {Json.JString(record.id)}
  {
    if dryRun {
      var _ := metrics.Increment("examples_written", 1);
      return DryRunCounted;
    }
    var outcome := writer.Append(record, writeFails);
    match outcome {
      case Written =>
        var _ := metrics.Increment("examples_written", 1);
        gate := Written;
      case Duplicate =>
        var _ := metrics.Increment("duplicates_skipped", 1);
        gate := DuplicateSkipped;
      case Rejected(_) =>
        gate := Raised("ValueError");
      case WriteFailed =>
        gate := Raised("IOError");
    }
  }
}
