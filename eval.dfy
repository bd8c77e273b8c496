/** Pulling a DOT graph out of a model's free-text answer: strip chat-template
    markers, prefer a fenced code block, and otherwise take the first
    `digraph`/`graph` keyword up to the brace that balances its first '{'.
    Case-insensitive matching folds ASCII letters only, and a word character
    is an ASCII letter, digit or '_'. */
module Eval {
  import opened Wrappers
  import PyStr

  /** +1 for '{', -1 for '}', 0 otherwise. */
  function Delta(c: char): int {
    if c == '{' then 1 else if c == '}' then -1 else 0
  }

  /** The number of '{' less the number of '}' in `s`. */
  function Depth(s: string): int
    decreases |s|
  {
    if s == [] then 0 else Depth(s[..|s| - 1]) + Delta(s[|s| - 1])
  }

  /** The brace count of `text[start..end]`. */
  function DepthTo(text: string, start: nat, end: nat): int
    requires start <= end <= |text|
  {
    Depth(text[start..end])
  }

  /** One more character changes the count by its own `Delta`. */
  lemma DepthStep(text: string, start: nat, e: nat)
    requires start <= e < |text|
    ensures DepthTo(text, start, e + 1) == DepthTo(text, start, e) + Delta(text[e])
  {
    assert text[start..e + 1][..e - start] == text[start..e];
  }

  /** The first `end` from `from` on at which `text[start..end]` is balanced,
      or -1. */
  function FirstBalanced(text: string, start: nat, from: nat): (end: int)
    requires start < from <= |text|
    ensures end == -1 || (from <= end <= |text| && DepthTo(text, start, end) == 0)
    ensures forall e :: from <= e <= |text| && (end == -1 || e < end) ==> DepthTo(text, start, e) != 0
    decreases |text| - from
  {
    if DepthTo(text, start, from) == 0 then from
    else if from == |text| then -1
    else FirstBalanced(text, start, from + 1)
  }

  /** The stripped text up to the '}' that balances the '{' at `start`, or
      nothing. */
  function BlockText(text: string, start: nat): Option<string>
    requires start < |text|
  {
    if FirstBalanced(text, start, start + 1) < 0 then None
    else Some(PyStr.Strip(text[..FirstBalanced(text, start, start + 1)]))
  }

  /** `extract_balanced_braces` as a value: the stripped text up to the '}'
      that balances the first '{', or nothing. */
  function BalancedBraces(text: string): Option<string> {
    if PyStr.FindChar(text, '{') < 0 then None
    else BlockText(text, PyStr.FindChar(text, '{'))
  }

  /** `text[start..end]` is the block opened at `start`: it is balanced and
      none of its shorter non-empty beginnings is. */
  predicate ClosesAt(text: string, start: int, end: int) {
    0 <= start < end <= |text| && DepthTo(text, start, end) == 0
    && forall e :: start < e < end ==> DepthTo(text, start, e) > 0
  }

  /** Until the count first returns to zero it stays above zero. */
  lemma {:induction false} DepthStaysPositive(text: string, start: nat, end: nat)
    requires start < end <= |text| && text[start] == '{'
    requires forall e :: start < e <= end ==> DepthTo(text, start, e) != 0
    ensures forall e :: start < e <= end ==> DepthTo(text, start, e) > 0
    decreases end - start
  {
    DepthStep(text, start, start);
    if end > start + 1 {
      DepthStaysPositive(text, start, end - 1);
      DepthStep(text, start, end - 1);
    }
  }

  /** Stripping a text that ends with a '}' and has a '{' at `start` keeps
      everything from `start` on. */
  lemma StripKeepsTail(s: string, start: nat)
    requires start < |s| && s[start] == '{' && s[|s| - 1] == '}'
    ensures var r := PyStr.Strip(s);
            |r| >= |s| - start && r[|r| - (|s| - start)..] == s[start..] && r[|r| - 1] == '}'
  {
    PyStr.StripOfRightTrimmed(s);
    PyStr.LStripKeepsFrom(s, start);
  }

  /** Without a '{' there is nothing to extract. */
  lemma BalancedBracesNeedsBrace(text: string)
    ensures '{' !in text ==> BalancedBraces(text).None?
  {
  }

  /** A result is the text through the '}' that balances the first '{',
      stripped: it ends with that '}' and with the whole balanced block. */
  lemma BalancedBracesFound(text: string)
    requires BalancedBraces(text).Some?
    ensures exists end :: BlockResult(text, PyStr.FindChar(text, '{'), end, BalancedBraces(text).value)
  {
    var start := PyStr.FindChar(text, '{');
    var end := FirstBalanced(text, start, start + 1);
    BalancedSome(text, start, end);
    BlockCloses(text, start, end);
  }

  /** Nothing comes back for a '{' that is never balanced: every later count
      stays above zero. */
  lemma BalancedBracesUnclosed(text: string)
    requires '{' in text && BalancedBraces(text).None?
    ensures var start := PyStr.FindChar(text, '{');
            forall e :: start < e <= |text| ==> DepthTo(text, start, e) > 0
  {
    var start := PyStr.FindChar(text, '{');
    DepthStaysPositive(text, start, |text|);
  }

  lemma {:induction false} BalancedSome(text: string, start: nat, end: int)
    requires start == PyStr.FindChar(text, '{') && end == FirstBalanced(text, start, start + 1) && end >= 0
    ensures BalancedBraces(text) == Some(PyStr.Strip(text[..end]))
  {
  }

  /** `r` is `text` through `end` stripped, where `text[start..end]` is the
      block opened at `start`: `r` ends with that block and so with '}'. */
  predicate BlockResult(text: string, start: int, end: int, r: string) {
    ClosesAt(text, start, end) && r == PyStr.Strip(text[..end])
    && |r| >= end - start && r[|r| - (end - start)..] == text[start..end] && r != [] && r[|r| - 1] == '}'
  }

  /** The first balanced point after a '{' closes its block with a '}', and
      stripping the text through it keeps the block whole. */
  lemma BlockCloses(text: string, start: nat, end: nat)
    requires start < |text| && text[start] == '{'
    requires start < end <= |text| && DepthTo(text, start, end) == 0
    requires forall e :: start < e < end ==> DepthTo(text, start, e) != 0
    ensures BlockResult(text, start, end, PyStr.Strip(text[..end]))
  {
    DepthStep(text, start, start);
    if end > start + 1 {
      DepthStaysPositive(text, start, end - 1);
    }
    DepthStep(text, start, end - 1);
    var s := text[..end];
    StripKeepsTail(s, start);
    assert s[start..] == text[start..end];
  }

  /** `extract_balanced_braces(text)`: count braces from the first '{' and
      stop at the first '}' that brings the count back to zero. */
  method ExtractBalancedBraces(text: string) returns (r: Option<string>)
    ensures r == BalancedBraces(text)
  {
    var braceCount := 0;
    var startIdx := PyStr.FindChar(text, '{');
    if startIdx == -1 {
      return None;
    }
    for i := startIdx to |text|
      invariant braceCount == DepthTo(text, startIdx, i)
      invariant i > startIdx ==> braceCount > 0
      invariant i > startIdx ==> FirstBalanced(text, startIdx, startIdx + 1) == FirstBalanced(text, startIdx, i)
    {
      DepthStep(text, startIdx, i);
      if text[i] == '{' {
        braceCount := braceCount + 1;
      } else if text[i] == '}' {
        braceCount := braceCount - 1;
        if braceCount == 0 {
          return Some(PyStr.Strip(text[..i + 1]));
        }
      }
    }
    return None;
  }

  /** `s.split(sep)[-1]`: what follows the last occurrence of `sep`. */
  function AfterLast(s: string, sep: string): (r: string)
    requires sep != []
    ensures PyStr.IsSuffix(r, s)
    ensures !PyStr.Contains(r, sep)
    decreases |s|
  {
    if PyStr.Find(s, sep) < 0 then s
    else
      PyStr.SuffixTrans(AfterLast(s[PyStr.Find(s, sep) + |sep|..], sep), s, PyStr.Find(s, sep) + |sep|);
      AfterLast(s[PyStr.Find(s, sep) + |sep|..], sep)
  }

  /** The last of a non-empty list of parts. */
  function LastPart(parts: seq<string>): string
    requires parts != []
  {
    parts[|parts| - 1]
  }

  /** `AfterLast` gives the last part `split` yields. */
  predicate IsLastPart(s: string, sep: string)
    requires sep != []
  {
    AfterLast(s, sep) == LastPart(PyStr.Split(s, sep))
  }

  /** `AfterLast` is the last part `split` yields. */
  lemma {:induction false} AfterLastIsLastPart(s: string, sep: string)
    requires sep != []
    ensures IsLastPart(s, sep)
    decreases |s|
  {
    if PyStr.Find(s, sep) < 0 {
      NotFoundIsLastPart(s, sep);
    } else {
      AfterLastIsLastPart(s[PyStr.Find(s, sep) + |sep|..], sep);
      FoundIsLastPart(s, sep);
    }
  }

  /** Where `sep` is found, the last part of the text is the last part of
      what follows it. */
  lemma FoundIsLastPart(s: string, sep: string)
    requires sep != [] && PyStr.Find(s, sep) >= 0
    requires IsLastPart(s[PyStr.Find(s, sep) + |sep|..], sep)
    ensures IsLastPart(s, sep)
  {
    AfterLastAtFound(s, sep);
    SplitLastPart(s, sep);
  }

  /** Without `sep`, the text is its own last part. */
  lemma NotFoundIsLastPart(s: string, sep: string)
    requires sep != [] && PyStr.Find(s, sep) < 0
    ensures IsLastPart(s, sep)
  {
    assert PyStr.Split(s, sep) == [s];
  }

  /** Where `sep` is found, the last part is taken from what follows it. */
  lemma AfterLastAtFound(s: string, sep: string)
    requires sep != [] && PyStr.Find(s, sep) >= 0
    ensures AfterLast(s, sep) == AfterLast(s[PyStr.Find(s, sep) + |sep|..], sep)
  {
  }

  /** Splitting at a found separator leaves the last part of the rest last. */
  lemma SplitLastPart(s: string, sep: string)
    requires sep != [] && PyStr.Find(s, sep) >= 0
    ensures LastPart(PyStr.Split(s, sep)) == LastPart(PyStr.Split(s[PyStr.Find(s, sep) + |sep|..], sep))
  {
    var k := PyStr.Find(s, sep);
    var q := PyStr.Split(s[k + |sep|..], sep);
    PyStr.SplitAtFound(s, sep);
    LastOfCons(s[..k], q);
  }

  lemma LastOfCons(a: string, q: seq<string>)
    requires q != []
    ensures LastPart([a] + q) == LastPart(q)
  {
  }

  /** The text after each marker of `ps` in turn was handled: a marker that
      occurs cuts the text down to what follows its last occurrence. */
  function StripMarkers(s: string, ps: seq<string>): (r: string)
    requires forall i :: 0 <= i < |ps| ==> ps[i] != []
    ensures PyStr.IsSuffix(r, s)
    decreases |ps|
  {
    if ps == [] then s
    else if PyStr.Contains(StripMarkers(s, ps[..|ps| - 1]), ps[|ps| - 1]) then
      PyStr.SuffixTrans(AfterLast(StripMarkers(s, ps[..|ps| - 1]), ps[|ps| - 1]), s,
                        |s| - |StripMarkers(s, ps[..|ps| - 1])|);
      AfterLast(StripMarkers(s, ps[..|ps| - 1]), ps[|ps| - 1])
    else StripMarkers(s, ps[..|ps| - 1])
  }

  /** A text without `sep` has no suffix with `sep` in it. */
  lemma SuffixKeepsAbsence(s: string, k: nat, sep: string)
    requires k <= |s| && !PyStr.Contains(s, sep)
    ensures !PyStr.Contains(s[k..], sep)
  {
    PyStr.FindIsFirst(s, sep);
    var r := PyStr.Find(s[k..], sep);
    if r >= 0 {
      assert s[k..][r..] == s[k + r..];
    }
  }

  /** Once the markers were handled none of them occurs in the text. */
  lemma {:induction false} StripMarkersRemovesThem(s: string, ps: seq<string>)
    requires forall i :: 0 <= i < |ps| ==> ps[i] != []
    ensures forall i :: 0 <= i < |ps| ==> !PyStr.Contains(StripMarkers(s, ps), ps[i])
    decreases |ps|
  {
    if ps != [] {
      var init := ps[..|ps| - 1];
      StripMarkersRemovesThem(s, init);
      var t := StripMarkers(s, init);
      var r := StripMarkers(s, ps);
      assert r == t[|t| - |r|..];
      forall i | 0 <= i < |ps| - 1
        ensures !PyStr.Contains(r, ps[i])
      {
        assert init[i] == ps[i];
        SuffixKeepsAbsence(t, |t| - |r|, ps[i]);
      }
    }
  }

  /** The chat-template markers removed from an answer, in the order tried. */
  const ResponsePrefixes: seq<string> := ["<start_of_turn>model", "<|assistant|>", "model\n", "user\n"]

  /** The marker-stripping loop of `extract_dot_from_response`, over the
      markers `ps`. */
  method StripMarkersInOrder(response: string, ps: seq<string>) returns (cleaned: string)
    requires forall i :: 0 <= i < |ps| ==> ps[i] != []
    ensures cleaned == StripMarkers(response, ps)
  {
    cleaned := response;
    for n := 0 to |ps|
      invariant cleaned == StripMarkers(response, ps[..n])
    {
      assert ps[..n + 1][..n] == ps[..n];
      var prefix := ps[n];
      if PyStr.Contains(cleaned, prefix) {
        cleaned := AfterLast(cleaned, prefix);
      }
    }
    assert ps[..|ps|] == ps;
  }

  /** The loop run over the four chat-template markers. */
  method CleanResponse(response: string) returns (cleaned: string)
    ensures cleaned == StripMarkers(response, ResponsePrefixes)
    ensures forall i :: 0 <= i < |ResponsePrefixes| ==> !PyStr.Contains(cleaned, ResponsePrefixes[i])
  {
    cleaned := StripMarkersInOrder(response, ResponsePrefixes);
    StripMarkersRemovesThem(response, ResponsePrefixes);
  }

  /** A fenced-block pattern: the text that opens it (matched without regard
      to ASCII case) and how many of its characters precede the captured
      group. */
  datatype Fence = Fence(lead: string, skip: nat)

  /** `'```dot\n(.*?)```'`, `'```\n(digraph.*?)```'`, `'```\n(graph.*?)```'` */
  const Fences: seq<Fence> := [Fence("```dot\n", 7), Fence("```\ndigraph", 4), Fence("```\ngraph", 4)]

  /** `re.search(pattern, s, re.DOTALL | re.IGNORECASE).group(1).strip()`:
      the leftmost opening decides, since a later one can only have less
      text after it in which to find the closing fence. */
  function FencedBody(s: string, f: Fence): Option<string>
    requires f.skip <= |f.lead|
  {
    var i := PyStr.Find(PyStr.Lower(s), f.lead);
    if i < 0 then None
    else
      var k := PyStr.Find(s[i + |f.lead|..], "```");
      if k < 0 then None else Some(PyStr.Strip(s[i + f.skip..i + |f.lead| + k]))
  }

  /** The first fenced pattern from the `n`-th on that matches. */
  function FirstFenced(s: string, n: nat): (r: Option<string>)
    requires n <= |Fences|
    ensures r.None? <==> forall m :: n <= m < |Fences| ==> FencedBody(s, Fences[m]).None?
    decreases |Fences| - n
  {
    if n == |Fences| then None
    else
      if FencedBody(s, Fences[n]).Some? then FencedBody(s, Fences[n]) else FirstFenced(s, n + 1)
  }

  /** `w` (in lower case) stands as a whole word at `i` of `s`. */
  predicate WordAt(s: string, w: string, i: nat) {
    i + |w| <= |s| && PyStr.Lower(s[i..i + |w|]) == w
    && (i == 0 || !PyStr.IsWordChar(s[i - 1])) && (i + |w| == |s| || !PyStr.IsWordChar(s[i + |w|]))
  }

  /** `re.search(r'\b' + w + r'\b', s, re.IGNORECASE).start()` searched from
      `from` on, or -1. */
  function FindWord(s: string, w: string, from: nat): (k: int)
    ensures k == -1 || (from <= k && WordAt(s, w, k))
    ensures forall j :: from <= j <= |s| && (k == -1 || j < k) ==> !WordAt(s, w, j)
    decreases |s| - from
  {
    if from > |s| then -1
    else if WordAt(s, w, from) then from
    else FindWord(s, w, from + 1)
  }

  /** The balanced graph that starts at the first whole word `w`, if any. */
  function KeywordGraph(s: string, w: string): Option<string> {
    var k := FindWord(s, w, 0);
    if k < 0 then None else BalancedBraces(s[k..])
  }

  /** What `extract_dot_from_response` does once the markers are gone. */
  function DotFromCleaned(cleaned: string): Option<string> {
    var fenced := FirstFenced(cleaned, 0);
    if fenced.Some? then fenced
    else
      var g := KeywordGraph(cleaned, "digraph");
      if g.Some? then g else KeywordGraph(cleaned, "graph")
  }

  /** `extract_dot_from_response(response)` */
  function ExtractDotFromResponse(response: string): Option<string> {
    DotFromCleaned(StripMarkers(response, ResponsePrefixes))
  }

  /** A result, if there is one, is a text ending with the '}' that closes it. */
  predicate EndsWithBrace(r: Option<string>) {
    r.Some? ==> r.value != [] && r.value[|r.value| - 1] == '}'
  }

  /** Without a '{' no keyword yields a graph, and a keyword graph ends with
      the '}' that closes it. */
  lemma KeywordGraphMeaning(s: string, w: string)
    ensures '{' !in s ==> KeywordGraph(s, w).None?
    ensures EndsWithBrace(KeywordGraph(s, w))
  {
    var k := FindWord(s, w, 0);
    if k >= 0 && KeywordGraph(s, w).Some? {
      BalancedBracesFound(s[k..]);
      var end :| BlockResult(s[k..], PyStr.FindChar(s[k..], '{'), end, KeywordGraph(s, w).value);
    }
    if k >= 0 {
      if '{' !in s {
        assert forall c :: c in s[k..] ==> c in s;
      }
    }
  }

  /** The answer is read with the markers gone; a fenced block wins, the
      first of the three patterns that matches; without a fenced block a
      result is a keyword graph ending with its closing '}'; and an answer
      with neither a fenced block nor a '{' yields nothing. */
  lemma ExtractDotMeaning(response: string)
    ensures var cleaned := StripMarkers(response, ResponsePrefixes);
            forall i :: 0 <= i < |ResponsePrefixes| ==> !PyStr.Contains(cleaned, ResponsePrefixes[i])
    ensures var cleaned := StripMarkers(response, ResponsePrefixes);
            ExtractDotFromResponse(response) == DotFromCleaned(cleaned)
  {
    StripMarkersRemovesThem(response, ResponsePrefixes);
  }

  /** The choice among fenced blocks and keyword graphs in a cleaned answer. */
  lemma DotFromCleanedMeaning(cleaned: string)
    ensures FencedBody(cleaned, Fences[0]).Some? ==> DotFromCleaned(cleaned) == FencedBody(cleaned, Fences[0])
    ensures FirstFenced(cleaned, 0).Some? ==> DotFromCleaned(cleaned) == FirstFenced(cleaned, 0)
    ensures FirstFenced(cleaned, 0).None? ==> EndsWithBrace(DotFromCleaned(cleaned))
    ensures FirstFenced(cleaned, 0).None? && '{' !in cleaned ==> DotFromCleaned(cleaned).None?
  {
    FirstFenceWins(cleaned);
    KeywordGraphMeaning(cleaned, "digraph");
    KeywordGraphMeaning(cleaned, "graph");
  }

  /** The first pattern, when it matches, is the one used. */
  lemma FirstFenceWins(s: string)
    ensures FencedBody(s, Fences[0]).Some? ==> FirstFenced(s, 0) == FencedBody(s, Fences[0])
  {
  }
}
