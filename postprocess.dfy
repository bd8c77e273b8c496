/** Repairs applied to a generated DOT graph before it is compiled: backticks
    around the graph name become quotes, a stray `\l` at the end of a label
    goes, `--` between names becomes `->` in a digraph, missing closing braces
    are appended, an odd quote is closed before the last '}', and unclosed
    HTML tables are closed before `>]`. Each regular expression is written
    out as a scan that tries every position from left to right, as `re.sub`
    does; `\s` is `str.isspace()` and `\w` an ASCII letter, digit or '_'. */
module Postprocess {
  import opened Wrappers
  import PyStr

  /** A match of a pattern at some position: where it ends and its
      replacement. */
  datatype Match = Match(end: nat, replacement: string)

  /** `re.sub` from position `i` on, for the pattern whose match at a
      position `m` reports; `left` is the number of replacements still
      allowed (`None`: no limit). */
  function SubFrom(s: string, i: nat, m: (string, nat) -> Option<Match>, left: Option<nat>): string
    requires i <= |s|
    decreases |s| - i
  {
    if i == |s| then []
    else if left == Some(0) then s[i..]
    else
      var hit := m(s, i);
      if hit.Some? && i < hit.value.end <= |s| then
        hit.value.replacement + SubFrom(s, hit.value.end, m, if left.Some? then Some(left.value - 1) else None)
      else [s[i]] + SubFrom(s, i + 1, m, left)
  }

  /** `len(re.findall(pattern, s))` from position `i` on. */
  function CountFrom(s: string, i: nat, m: (string, nat) -> Option<Match>): nat
    requires i <= |s|
    decreases |s| - i
  {
    if i == |s| then 0
    else
      var hit := m(s, i);
      if hit.Some? && i < hit.value.end <= |s| then 1 + CountFrom(s, hit.value.end, m)
      else CountFrom(s, i + 1, m)
  }

  /** Where a run of characters satisfying `p` that starts at `i` ends. */
  function RunEnd(s: string, i: nat, p: char -> bool): (e: nat)
    requires i <= |s|
    ensures i <= e <= |s|
    ensures forall j :: i <= j < e ==> p(s[j])
    ensures e < |s| ==> !p(s[e])
    decreases |s| - i
  {
    if i == |s| || !p(s[i]) then i else RunEnd(s, i + 1, p)
  }

  /** Where a run of whitespace that starts at `i` ends. */
  function SpaceEnd(s: string, i: nat): (e: nat)
    requires i <= |s|
    ensures i <= e <= |s| && SpacesBetween(s, i, e)
    ensures e < |s| ==> !PyStr.IsSpace(s[e])
    decreases |s| - i
  {
    if i == |s| || !PyStr.IsSpace(s[i]) then i else SpaceEnd(s, i + 1)
  }

  /** The first position from `i` on holding `x`, or the length of `s`. */
  function CharEnd(s: string, i: nat, x: char): (e: nat)
    requires i <= |s|
    ensures i <= e <= |s| && (e < |s| ==> s[e] == x)
    ensures forall j :: i <= j < e ==> s[j] != x
    decreases |s| - i
  {
    if i == |s| || s[i] == x then i else CharEnd(s, i + 1, x)
  }

  predicate IsWordOrSpace(c: char) { PyStr.IsWordChar(c) || PyStr.IsSpace(c) }

  /** Two texts hold as many '{' and as many '}' as each other. */
  predicate SameBraces(a: string, b: string) {
    Occurrences(a, '{') == Occurrences(b, '{') && Occurrences(a, '}') == Occurrences(b, '}')
  }

  /** The number of times `x` occurs in `s`. */
  function Occurrences(s: string, x: char): nat
    decreases |s|
  {
    if s == [] then 0 else (if s[|s| - 1] == x then 1 else 0) + Occurrences(s[..|s| - 1], x)
  }

  /** A match lies inside the text, and its replacement holds the braces of
      the matched text. */
  predicate Faithful(s: string, i: nat, r: Option<Match>) {
    r.Some? ==> i < r.value.end <= |s| && SameBraces(r.value.replacement, s[i..r.value.end])
  }

  /** Fix 1, `(digraph|graph)\s+`([^`]+)`` replaced by `\1 "\2"`. */
  function BacktickAt(s: string, i: nat): (r: Option<Match>)
    ensures Faithful(s, i, r)
  {
    var kw := GraphKeyword(s, i);
    if kw == 0 then None
    else
      var b := SpaceEnd(s, i + kw);
      if b == i + kw || b == |s| || s[b] != '`' then None
      else
        var c := CharEnd(s, b + 1, '`');
        if c == b + 1 || c == |s| then None
        else Some(BacktickMatch(s, i, i + kw, b, c))
  }

  /** The replacement of fix 1: the keyword, one space, and the name between
      the backticks in quotes. */
  function BacktickMatch(s: string, i: nat, a: nat, b: nat, c: nat): (m: Match)
    requires i <= a <= b < c < |s| && SpacesBetween(s, a, b) && s[b] == '`' && s[c] == '`'
    ensures m.end == c + 1 && SameBraces(m.replacement, s[i..m.end])
  {
    BacktickSwapKeeps(s, i, a, b, c);
    Match(c + 1, s[i..a] + " \"" + s[b + 1..c] + "\"")
  }

  /** The length of the `(digraph|graph)` at `i`, or 0. */
  function GraphKeyword(s: string, i: nat): (k: nat)
    ensures k == 0 || i + k <= |s|
  {
    if i > |s| then 0
    else if PyStr.StartsWith(s[i..], "digraph") then 7
    else if PyStr.StartsWith(s[i..], "graph") then 5
    else 0
  }

  /** The lazy `([^"]*?)\\l\s*"` of fix 2: the first `j` from `from` on,
      with no '"' between `from` and `j`, where a backslash, an 'l', spaces
      and a '"' follow; or -1. */
  function EscapeEnd(s: string, from: nat): (j: int)
    requires from <= |s|
    ensures j == -1 || (from <= j && j + 2 <= |s| && s[j] == '\\' && s[j + 1] == 'l'
                        && SpaceEnd(s, j + 2) < |s| && s[SpaceEnd(s, j + 2)] == '"'
                        && forall q :: from <= q < j ==> s[q] != '"')
    decreases |s| - from
  {
    if from == |s| || s[from] == '"' then -1
    else if from + 2 <= |s| && s[from] == '\\' && s[from + 1] == 'l' && SpaceEnd(s, from + 2) < |s|
            && s[SpaceEnd(s, from + 2)] == '"' then from
    else EscapeEnd(s, from + 1)
  }

  /** Fix 2, `label="([^"]*?)\\l\s*"` replaced by `label="\1"`. */
  function EscapeAt(s: string, i: nat): (r: Option<Match>)
    ensures Faithful(s, i, r)
  {
    if i > |s| || !PyStr.StartsWith(s[i..], "label=\"") then None
    else
      var j := EscapeEnd(s, i + 7);
      if j < 0 then None
      else Some(EscapeMatch(s, i, j, SpaceEnd(s, j + 2)))
  }

  /** The replacement of fix 2: the label up to the `\l`, closed by its
      quote; `s[i..j]` starts with `label="`. */
  function EscapeMatch(s: string, i: nat, j: nat, k: nat): (m: Match)
    requires i <= j && j + 2 <= k < |s| && s[j] == '\\' && s[j + 1] == 'l'
    requires SpacesBetween(s, j + 2, k) && s[k] == '"'
    ensures m.end == k + 1 && SameBraces(m.replacement, s[i..m.end])
  {
    EscapeDropKeeps(s, i, j, k);
    Match(k + 1, s[i..j] + "\"")
  }

  /** The first half of fix 3, `(\w+)\s+--\s+(\w+)` replaced by `\1 -> \2`. */
  function EdgeWordsAt(s: string, i: nat): (r: Option<Match>)
    ensures Faithful(s, i, r)
    ensures r.Some? ==> PyStr.Contains(s, "--")
  {
    if i >= |s| || !PyStr.IsWordChar(s[i]) then None
    else
      var a := RunEnd(s, i, PyStr.IsWordChar);
      var b := SpaceEnd(s, a);
      if b == a || !PyStr.StartsWith(s[b..], "--") then None
      else
        var c := SpaceEnd(s, b + 2);
        if c == b + 2 then None
        else
          var d := RunEnd(s, c, PyStr.IsWordChar);
          if d == c then None
          else
            Some(ArrowMatch(s, i, a, b, c, d))
  }

  /** The replacement of fix 3: the text before the spaces, " -> ", and the
      text after them; the "--" between shows that the text contains one. */
  function ArrowMatch(s: string, i: nat, a: nat, b: nat, c: nat, d: nat): (m: Match)
    requires i <= a <= b && b + 2 <= c <= d <= |s| && PyStr.StartsWith(s[b..], "--")
    requires SpacesBetween(s, a, b) && SpacesBetween(s, b + 2, c)
    ensures m.end == d && SameBraces(m.replacement, s[i..d])
    ensures PyStr.Contains(s, "--")
  {
    assert s[b..b + 2] == s[b..][..2];
    ArrowSwapKeeps(s, i, a, b, c, d);
    PyStr.ContainsAt(s, "--", b);
    Match(d, s[i..a] + " -> " + s[c..d])
  }

  /** Where `"[\w\s]+"` matched at `i` ends, or -1. */
  function QuotedEnd(s: string, i: nat): (q: int)
    ensures q == -1 || (i + 3 <= q <= |s| && s[i] == '"' && s[q - 1] == '"'
                        && forall j :: i < j < q - 1 ==> IsWordOrSpace(s[j]))
  {
    if i >= |s| || s[i] != '"' then -1
    else
      var a := RunEnd(s, i + 1, IsWordOrSpace);
      if a == i + 1 || a == |s| || s[a] != '"' then -1 else a + 1
  }

  /** The second half of fix 3, `("[\w\s]+")\s+--\s+("[\w\s]+")` replaced
      by `\1 -> \2`. */
  function EdgeQuotedAt(s: string, i: nat): (r: Option<Match>)
    ensures Faithful(s, i, r)
    ensures r.Some? ==> PyStr.Contains(s, "--")
  {
    var q := QuotedEnd(s, i);
    if q < 0 then None
    else
      var b := SpaceEnd(s, q);
      if b == q || !PyStr.StartsWith(s[b..], "--") then None
      else
        var c := SpaceEnd(s, b + 2);
        if c == b + 2 then None
        else
          var d := QuotedEnd(s, c);
          if d < 0 then None
          else
            Some(ArrowMatch(s, i, q, b, c, d))
  }

  /** A run of whitespace holds no brace. */
  lemma SpaceHasNoBraces(s: string)
    requires PyStr.AllSpace(s)
    ensures multiset(s)['{'] == 0 && multiset(s)['}'] == 0
  {
  }

  /** Spaces between `from` and `to`. */
  ghost predicate SpacesBetween(s: string, from: nat, to: nat)
    requires from <= to <= |s|
  {
    forall j :: from <= j < to ==> PyStr.IsSpace(s[j])
  }

  /** Fix 1 drops spaces and turns two backticks into quotes. */
  lemma BacktickSwapKeeps(s: string, i: nat, a: nat, b: nat, c: nat)
    requires i <= a <= b < c < |s| && SpacesBetween(s, a, b) && s[b] == '`' && s[c] == '`'
    ensures SameBraces(s[i..a] + " \"" + s[b + 1..c] + "\"", s[i..c + 1])
  {
    assert s[i..c + 1] == s[i..a] + s[a..b] + [s[b]] + s[b + 1..c] + [s[c]];
    assert PyStr.AllSpace(s[a..b]);
    SpaceHasNoBraces(s[a..b]);
    SameBracesMultiset(s[i..a] + " \"" + s[b + 1..c] + "\"", s[i..c + 1]);
  }

  /** Fix 2 drops a backslash, an 'l' and spaces. */
  lemma EscapeDropKeeps(s: string, i: nat, j: nat, k: nat)
    requires i <= j && j + 2 <= k < |s| && s[j] == '\\' && s[j + 1] == 'l'
    requires SpacesBetween(s, j + 2, k) && s[k] == '"'
    ensures SameBraces(s[i..j] + "\"", s[i..k + 1])
  {
    assert s[i..k + 1] == s[i..j] + [s[j], s[j + 1]] + s[j + 2..k] + [s[k]];
    assert PyStr.AllSpace(s[j + 2..k]);
    SpaceHasNoBraces(s[j + 2..k]);
    SameBracesMultiset(s[i..j] + "\"", s[i..k + 1]);
  }

  /** Fix 3 turns spaces, "--" and spaces into " -> ". */
  lemma ArrowSwapKeeps(s: string, i: nat, a: nat, b: nat, c: nat, d: nat)
    requires i <= a <= b && b + 2 <= c <= d <= |s| && s[b..b + 2] == "--"
    requires SpacesBetween(s, a, b) && SpacesBetween(s, b + 2, c)
    ensures SameBraces(s[i..a] + " -> " + s[c..d], s[i..d])
  {
    assert s[i..d] == s[i..a] + s[a..c] + s[c..d];
    assert s[a..c] == s[a..b] + s[b..b + 2] + s[b + 2..c];
    assert PyStr.AllSpace(s[a..b]) && PyStr.AllSpace(s[b + 2..c]);
    SpaceHasNoBraces(s[a..b]);
    SpaceHasNoBraces(s[b + 2..c]);
    assert multiset(s[a..c]) == multiset(s[a..b]) + multiset(s[b..b + 2]) + multiset(s[b + 2..c]);
    SwapNoBraces(s[i..a], s[a..c], s[c..d], " -> ");
  }

  /** Replacing a middle part without braces by another keeps the braces. */
  lemma SwapNoBraces(p: string, m: string, q: string, m2: string)
    requires multiset(m)['{'] == 0 && multiset(m)['}'] == 0
    requires multiset(m2)['{'] == 0 && multiset(m2)['}'] == 0
    ensures SameBraces(p + m2 + q, p + m + q)
  {
    assert multiset(p + m + q) == multiset(p) + multiset(m) + multiset(q);
    assert multiset(p + m2 + q) == multiset(p) + multiset(m2) + multiset(q);
    SameBracesMultiset(p + m2 + q, p + m + q);
  }

  /** Fix of the HTML labels puts `</table>` before a match. */
  lemma TagKeeps(t: string)
    ensures SameBraces("</table>" + t, t)
  {
    NoBracesKeeps("</table>", t);
  }

  /** Text without braces put in front of `t` adds none. */
  lemma NoBracesKeeps(x: string, t: string)
    requires '{' !in x && '}' !in x
    ensures SameBraces(x + t, t)
  {
    assert multiset(x + t) == multiset(x) + multiset(t);
    SameBracesMultiset(x + t, t);
  }

  function FixBackticks(s: string): string { SubFrom(s, 0, BacktickAt, None) }

  function FixEscapes(s: string): string { SubFrom(s, 0, EscapeAt, None) }

  /** Fix 3: only a text whose stripped form starts with "digraph" has its
      `--` edges rewritten. */
  function FixEdges(s: string): (r: string)
    ensures !PyStr.StartsWith(PyStr.Strip(s), "digraph") ==> r == s
  {
    if PyStr.StartsWith(PyStr.Strip(s), "digraph") then
      SubFrom(SubFrom(s, 0, EdgeWordsAt, None), 0, EdgeQuotedAt, None)
    else s
  }

  /** `n` copies of `c`. */
  function Repeat(c: char, n: nat): (r: string)
    ensures |r| == n && forall i :: 0 <= i < n ==> r[i] == c
  {
    seq(n, _ => c)
  }

  /** Fix 4: as many '}' as are missing, on a line of their own. */
  function FixBraces(s: string): string {
    if '{' in s && PyStr.Count(s, "{") != PyStr.Count(s, "}") then
      var open := PyStr.Count(s, "{");
      var close := PyStr.Count(s, "}");
      if open > close then s + "\n" + Repeat('}', open - close) else s
    else s
  }

  /** `fixed.count('"') - fixed.count('\\"')` */
  function QuoteCount(s: string): int {
    PyStr.Count(s, "\"") - PyStr.Count(s, "\\\"")
  }

  /** Fix 5: an odd quote count closes a quote before the last '}'. */
  function FixQuotes(s: string): string {
    if QuoteCount(s) % 2 != 0 then
      var r := PyStr.RStrip(s);
      if PyStr.EndsWith(r, "}") then r[..|r| - 1] + "\"\n}" else s
    else s
  }

  /** `fix_common_syntax_errors(dot_code)`: the five fixes in order; an empty
      text comes back as it is. */
  function FixCommonSyntaxErrors(s: string): (r: string)
    ensures s == [] ==> r == s
  {
    if s == [] then s
    else FixQuotes(FixBraces(FixEdges(FixEscapes(FixBackticks(s)))))
  }

  /** `<table[^>]*>` */
  function TableOpenAt(s: string, i: nat): Option<Match> {
    if i > |s| || !PyStr.StartsWith(s[i..], "<table") then None
    else
      var e := CharEnd(s, i + 6, '>');
      if e == |s| then None else Some(Match(e + 1, s[i..e + 1]))
  }

  /** `(\s+>])` replaced by `</table>\1`. */
  function CloseTableAt(s: string, i: nat): (r: Option<Match>)
    ensures Faithful(s, i, r)
    ensures Grows(s, i, r, 8)
  {
    if i >= |s| || !PyStr.IsSpace(s[i]) then None
    else
      var a := SpaceEnd(s, i);
      if a + 1 < |s| && s[a] == '>' && s[a + 1] == ']' then Some(CloseTableMatch(s, i, a + 2))
      else None
  }

  /** The replacement of the HTML fix: `</table>` before the matched text. */
  function CloseTableMatch(s: string, i: nat, e: nat): (m: Match)
    requires i < e <= |s|
    ensures m.end == e && SameBraces(m.replacement, s[i..e]) && |m.replacement| == e - i + 8
  {
    TagKeeps(s[i..e]);
    Match(e, "</table>" + s[i..e])
  }

  /** The number of tables the HTML fix counts as left open. */
  function Unclosed(s: string): int {
    var lowered := PyStr.Lower(s);
    CountFrom(lowered, 0, TableOpenAt) - PyStr.Count(lowered, "</table>")
  }

  /** `fix_html_label_errors(dot_code)`: when a text mentions a table, a
      `</table>` goes before the first `>]` markers, one for each table
      opened and not closed. */
  function FixHtmlLabelErrors(s: string): (r: string)
    ensures (s == [] || !PyStr.Contains(PyStr.Lower(s), "<table")) ==> r == s
  {
    if s == [] || !PyStr.Contains(PyStr.Lower(s), "<table") then s
    else
      var unclosed := Unclosed(s);
      if unclosed > 0 then SubFrom(s, 0, CloseTableAt, Some(unclosed)) else s
  }

  /** `postprocess_dot(dot_code)` */
  function PostprocessDot(s: string): (r: string)
    ensures s == [] ==> r == s
  {
    if s == [] then s else FixHtmlLabelErrors(FixCommonSyntaxErrors(s))
  }

  // ---------------------------------------------------------------------
  // Counting characters

  /** `s.count(c)` for one character is the number of its occurrences. */
  lemma {:induction false} CountIsOccurrences(s: string, c: char)
    ensures PyStr.Count(s, [c]) == multiset(s)[c]
    decreases |s|
  {
    if s != [] {
      CountIsOccurrences(s[1..], c);
      assert s == [s[0]] + s[1..];
    }
  }

  /** `Occurrences` counts what the multiset of the text counts. */
  lemma {:induction false} OccurrencesAreMultiset(s: string, x: char)
    ensures Occurrences(s, x) == multiset(s)[x]
    decreases |s|
  {
    if s != [] {
      OccurrencesAreMultiset(s[..|s| - 1], x);
      assert s == s[..|s| - 1] + [s[|s| - 1]];
    }
  }

  /** Two texts have the same braces exactly when their multisets hold as
      many of each brace. */
  lemma SameBracesMultiset(a: string, b: string)
    ensures SameBraces(a, b) <==>
      multiset(a)['{'] == multiset(b)['{'] && multiset(a)['}'] == multiset(b)['}']
  {
    OccurrencesAreMultiset(a, '{');
    OccurrencesAreMultiset(a, '}');
    OccurrencesAreMultiset(b, '{');
    OccurrencesAreMultiset(b, '}');
  }

  lemma RepeatOccurrences(c: char, n: nat, x: char)
    ensures multiset(Repeat(c, n))[x] == if x == c then n else 0
    decreases n
  {
    if n > 0 {
      RepeatOccurrences(c, n - 1, x);
      assert Repeat(c, n) == Repeat(c, n - 1) + [c];
    }
  }

  // ---------------------------------------------------------------------
  // Brace counts through the substitutions

  /** A substitution whose every match is faithful keeps the brace counts
      of the whole text. */
  lemma {:induction false} SubFromKeeps(s: string, i: nat, m: (string, nat) -> Option<Match>, left: Option<nat>)
    requires i <= |s|
    requires forall j :: i <= j < |s| ==> Faithful(s, j, m(s, j))
    ensures SameBraces(SubFrom(s, i, m, left), s[i..])
    decreases |s| - i
  {
    if i < |s| && left != Some(0) {
      var hit := m(s, i);
      assert Faithful(s, i, hit);
      if hit.Some? && i < hit.value.end <= |s| {
        var next := if left.Some? then Some(left.value - 1) else None;
        SubFromKeeps(s, hit.value.end, m, next);
        KeepsAtHit(s, i, m, left, next);
      } else {
        SubFromKeeps(s, i + 1, m, left);
        KeepsAtCopy(s, i, m, left);
      }
    }
  }

  /** The step of `SubFromKeeps` at a match. */
  lemma KeepsAtHit(s: string, i: nat, m: (string, nat) -> Option<Match>, left: Option<nat>, next: Option<nat>)
    requires i < |s| && left != Some(0) && next == (if left.Some? then Some(left.value - 1) else None)
    requires m(s, i).Some? && i < m(s, i).value.end <= |s| && Faithful(s, i, m(s, i))
    requires SameBraces(SubFrom(s, m(s, i).value.end, m, next), s[m(s, i).value.end..])
    ensures SameBraces(SubFrom(s, i, m, left), s[i..])
  {
    assert s[i..] == s[i..m(s, i).value.end] + s[m(s, i).value.end..];
    SameBracesConcat(m(s, i).value.replacement, SubFrom(s, m(s, i).value.end, m, next),
                     s[i..m(s, i).value.end], s[m(s, i).value.end..]);
  }

  /** The step of `SubFromKeeps` where one character is copied. */
  lemma KeepsAtCopy(s: string, i: nat, m: (string, nat) -> Option<Match>, left: Option<nat>)
    requires i < |s| && left != Some(0)
    requires !(m(s, i).Some? && i < m(s, i).value.end <= |s|)
    requires SameBraces(SubFrom(s, i + 1, m, left), s[i + 1..])
    ensures SameBraces(SubFrom(s, i, m, left), s[i..])
  {
    assert s[i..] == [s[i]] + s[i + 1..];
    SameBracesConcat([s[i]], SubFrom(s, i + 1, m, left), [s[i]], s[i + 1..]);
  }

  /** Texts with the same braces, put together, have the same braces. */
  lemma SameBracesConcat(a: string, b: string, c: string, d: string)
    requires SameBraces(a, c) && SameBraces(b, d)
    ensures SameBraces(a + b, c + d)
  {
    SameBracesMultiset(a, c);
    SameBracesMultiset(b, d);
    assert multiset(a + b) == multiset(a) + multiset(b);
    assert multiset(c + d) == multiset(c) + multiset(d);
    SameBracesMultiset(a + b, c + d);
  }

  /** Fixes 1 to 3 move no brace: the counts of '{' and '}' are those of
      the input. */
  lemma RewritesKeepBraces(s: string)
    ensures SameBraces(FixEdges(FixEscapes(FixBackticks(s))), s)
  {
    SubFromKeeps(s, 0, BacktickAt, None);
    var t1 := FixBackticks(s);
    SubFromKeeps(t1, 0, EscapeAt, None);
    var t2 := FixEscapes(t1);
    if PyStr.StartsWith(PyStr.Strip(t2), "digraph") {
      SubFromKeeps(t2, 0, EdgeWordsAt, None);
      var t3 := SubFrom(t2, 0, EdgeWordsAt, None);
      SubFromKeeps(t3, 0, EdgeQuotedAt, None);
      assert t3[0..] == t3;
    }
    assert s[0..] == s;
    assert t1[0..] == t1;
    assert t2[0..] == t2;
  }

  // ---------------------------------------------------------------------
  // Fixes 4 and 5

  /** Fix 4 leaves a text with no '{', or with at least as many '}' as '{',
      alone; otherwise it appends a newline and exactly the missing '}', after
      which the counts are equal. */
  lemma FixBracesMeaning(s: string)
    ensures var open := PyStr.Count(s, "{"); var close := PyStr.Count(s, "}");
            ('{' !in s || open <= close ==> FixBraces(s) == s)
            && ('{' in s && open > close ==>
                  FixBraces(s) == s + "\n" + Repeat('}', open - close)
                  && PyStr.Count(FixBraces(s), "{") == PyStr.Count(FixBraces(s), "}"))
  {
    var open := PyStr.Count(s, "{");
    var close := PyStr.Count(s, "}");
    if '{' in s && open > close {
      var r := FixBraces(s);
      assert r == s + "\n" + Repeat('}', open - close);
      CountIsOccurrences(s, '{');
      CountIsOccurrences(s, '}');
      CountIsOccurrences(r, '{');
      CountIsOccurrences(r, '}');
      RepeatOccurrences('}', open - close, '{');
      RepeatOccurrences('}', open - close, '}');
    }
  }

  /** Fix 4 never leaves more '{' than '}'. */
  lemma FixBracesBalances(s: string)
    ensures PyStr.Count(FixBraces(s), "{") <= PyStr.Count(FixBraces(s), "}")
  {
    FixBracesMeaning(s);
    if '{' !in s {
      CountIsOccurrences(s, '{');
      assert multiset(s)['{'] == 0;
    }
  }

  /** `rstrip` drops only whitespace, which holds no braces. */
  lemma RStripDropsNoBraces(s: string)
    ensures |PyStr.RStrip(s)| <= |s| && s == PyStr.RStrip(s) + s[|PyStr.RStrip(s)|..]
    ensures multiset(s[|PyStr.RStrip(s)|..])['{'] == 0 && multiset(s[|PyStr.RStrip(s)|..])['}'] == 0
  {
    PyStr.RStripDropsSpace(s);
    SpaceHasNoBraces(s[|PyStr.RStrip(s)|..]);
  }

  /** Re-closing a final brace after a quote, and dropping trailing text
      without braces, keeps the braces. */
  lemma ClosingQuoteKeeps(r: string, tail: string)
    requires PyStr.EndsWith(r, "}") && multiset(tail)['{'] == 0 && multiset(tail)['}'] == 0
    ensures SameBraces(r[..|r| - 1] + "\"\n}", r + tail)
  {
    assert r == r[..|r| - 1] + "}";
    assert multiset(r + tail) == multiset(r[..|r| - 1]) + multiset("}") + multiset(tail);
    assert multiset(r[..|r| - 1] + "\"\n}") == multiset(r[..|r| - 1]) + multiset("\"\n}");
    SameBracesMultiset(r[..|r| - 1] + "\"\n}", r + tail);
  }

  /** Fix 5 acts only on an odd quote count and a text whose right-stripped
      form ends with '}': that '}' becomes `"\n}`, and the brace counts do not
      change. In every other case the text is left alone. */
  lemma FixQuotesMeaning(s: string)
    ensures var r := PyStr.RStrip(s);
            (QuoteCount(s) % 2 != 0 && PyStr.EndsWith(r, "}") ==> FixQuotes(s) == r[..|r| - 1] + "\"\n}")
            && (QuoteCount(s) % 2 == 0 || !PyStr.EndsWith(r, "}") ==> FixQuotes(s) == s)
    ensures PyStr.Count(FixQuotes(s), "{") == PyStr.Count(s, "{")
    ensures PyStr.Count(FixQuotes(s), "}") == PyStr.Count(s, "}")
  {
    CountIsOccurrences(s, '{');
    CountIsOccurrences(s, '}');
    CountIsOccurrences(FixQuotes(s), '{');
    CountIsOccurrences(FixQuotes(s), '}');
    if QuoteCount(s) % 2 != 0 && PyStr.EndsWith(PyStr.RStrip(s), "}") {
      RStripDropsNoBraces(s);
      var r := PyStr.RStrip(s);
      ClosingQuoteKeeps(r, s[|r|..]);
      SameBracesMultiset(r[..|r| - 1] + "\"\n}", r + s[|r|..]);
    }
  }

  /** After `fix_common_syntax_errors` a text never has more '{' than '}':
      fixes 1 to 3 and 5 move no brace, and fix 4 supplies the missing ones. */
  lemma FixCommonBalancesBraces(s: string)
    ensures PyStr.Count(FixCommonSyntaxErrors(s), "{") <= PyStr.Count(FixCommonSyntaxErrors(s), "}")
  {
    if s != [] {
      var t := FixEdges(FixEscapes(FixBackticks(s)));
      var u := FixBraces(t);
      FixBracesBalances(t);
      FixQuotesMeaning(u);
    } else {
      assert PyStr.Count(s, "{") == 0;
    }
  }

  // ---------------------------------------------------------------------
  // What fixes 1 and 2 match

  /** ``(digraph|graph)\s+`name` `` at `i`: the keyword, whitespace up to the
      backtick at `b`, and a non-empty name without backticks up to the
      backtick at `c`. */
  predicate BacktickSpan(s: string, i: nat, b: nat, c: nat) {
    var kw := GraphKeyword(s, i);
    kw > 0 && i + kw < b && b + 1 < c < |s| && s[b] == '`' && s[c] == '`'
    && (forall j :: i + kw <= j < b ==> PyStr.IsSpace(s[j]))
    && (forall j :: b < j < c ==> s[j] != '`')
  }

  /** A match of fix 1 spans a keyword, whitespace and a name in backticks. */
  lemma BacktickAtSpan(s: string, i: nat)
    requires BacktickAt(s, i).Some?
    ensures BacktickSpan(s, i, SpaceEnd(s, i + GraphKeyword(s, i)),
                         CharEnd(s, SpaceEnd(s, i + GraphKeyword(s, i)) + 1, '`'))
  {
  }

  /** Where a keyword is followed by a name in backticks, fix 1 matches and
      puts the name in double quotes. */
  lemma BacktickSpanMatch(s: string, i: nat, b: nat, c: nat)
    requires BacktickSpan(s, i, b, c)
    ensures BacktickAt(s, i) == Some(Match(c + 1, s[i..i + GraphKeyword(s, i)] + " \"" + s[b + 1..c] + "\""))
  {
    var kw := GraphKeyword(s, i);
    assert SpaceEnd(s, i + kw) == b;
    assert CharEnd(s, b + 1, '`') == c;
    BacktickAtParts(s, i, b, c);
  }

  /** Fix 1's match, once its keyword and its two backticks are found. */
  lemma BacktickAtParts(s: string, i: nat, b: nat, c: nat)
    requires GraphKeyword(s, i) > 0 && SpaceEnd(s, i + GraphKeyword(s, i)) == b
    requires i + GraphKeyword(s, i) < b && b + 1 < c < |s| && s[b] == '`'
    requires CharEnd(s, b + 1, '`') == c
    ensures BacktickAt(s, i) == Some(Match(c + 1, s[i..i + GraphKeyword(s, i)] + " \"" + s[b + 1..c] + "\""))
  {
  }

  /** Fix 1 matches exactly where a graph keyword is followed by a name in
      backticks, and its replacement is the keyword, one space and the name in
      double quotes. */
  lemma BacktickAtMeaning(s: string, i: nat)
    ensures BacktickAt(s, i).Some? <==> exists b: nat, c: nat :: BacktickSpan(s, i, b, c)
    ensures forall b: nat, c: nat :: BacktickSpan(s, i, b, c) ==>
      BacktickAt(s, i) == Some(Match(c + 1, s[i..i + GraphKeyword(s, i)] + " \"" + s[b + 1..c] + "\""))
  {
    if BacktickAt(s, i).Some? {
      BacktickAtSpan(s, i);
    }
    forall b: nat, c: nat | BacktickSpan(s, i, b, c)
      ensures BacktickAt(s, i) == Some(Match(c + 1, s[i..i + GraphKeyword(s, i)] + " \"" + s[b + 1..c] + "\""))
    {
      BacktickSpanMatch(s, i, b, c);
    }
  }

  /** `label="..."` at `i` whose text ends, before the closing quote at `k`,
      in a `\l` at `j` and whitespace, with no quote before the `\l`. */
  predicate EscapeSpan(s: string, i: nat, j: nat, k: nat) {
    i + 7 <= j && j + 2 <= k < |s| && PyStr.StartsWith(s[i..], "label=\"")
    && s[j] == '\\' && s[j + 1] == 'l' && s[k] == '"'
    && (forall q :: j + 2 <= q < k ==> PyStr.IsSpace(s[q]))
    && (forall q :: i + 7 <= q < j ==> s[q] != '"')
  }

  /** No `\l` before the one at `j` is followed by whitespace and a quote,
      when no quote comes before `j`. */
  lemma NoEarlierEscape(s: string, from: nat, j: nat)
    requires from < j && j + 2 <= |s| && s[j] == '\\' && s[j + 1] == 'l'
    requires forall q :: from <= q < j ==> s[q] != '"'
    ensures !(s[from] == '\\' && s[from + 1] == 'l' && SpaceEnd(s, from + 2) < |s| && s[SpaceEnd(s, from + 2)] == '"')
  {
    var e := SpaceEnd(s, from + 2);
    if j == from + 1 {
      assert s[from + 1] == '\\';
    } else {
      assert forall q :: from + 2 <= q < e ==> PyStr.IsSpace(s[q]);
      assert !PyStr.IsSpace(s[j]);
      assert e <= j;
    }
  }

  /** The lazy scan stops at the `\l` of a span: no earlier `\l` can reach a
      quote, since a quote would have come first. */
  lemma {:induction false} EscapeEndAt(s: string, from: nat, j: nat, k: nat)
    requires from <= j && j + 2 <= k < |s| && s[j] == '\\' && s[j + 1] == 'l' && s[k] == '"'
    requires forall q :: j + 2 <= q < k ==> PyStr.IsSpace(s[q])
    requires forall q :: from <= q < j ==> s[q] != '"'
    ensures EscapeEnd(s, from) == j
    decreases j - from
  {
    if from < j {
      NoEarlierEscape(s, from, j);
      EscapeEndAt(s, from + 1, j, k);
    } else {
      assert SpaceEnd(s, j + 2) == k;
    }
  }

  /** A match of fix 2 spans a label ending in `\l` and whitespace. */
  lemma EscapeAtSpan(s: string, i: nat)
    requires EscapeAt(s, i).Some?
    ensures EscapeEnd(s, i + 7) >= 0
    ensures EscapeSpan(s, i, EscapeEnd(s, i + 7), SpaceEnd(s, EscapeEnd(s, i + 7) + 2))
  {
  }

  /** At a label ending in `\l` and whitespace, fix 2 matches and drops
      them. */
  lemma EscapeSpanMatch(s: string, i: nat, j: nat, k: nat)
    requires EscapeSpan(s, i, j, k)
    ensures EscapeAt(s, i) == Some(Match(k + 1, s[i..j] + "\""))
  {
    EscapeEndAt(s, i + 7, j, k);
    assert SpaceEnd(s, j + 2) == k;
    EscapeAtParts(s, i, j, k);
  }

  /** Fix 2's match, once its label, its `\l` and its closing quote are
      found. */
  lemma EscapeAtParts(s: string, i: nat, j: nat, k: nat)
    requires i <= |s| && PyStr.StartsWith(s[i..], "label=\"")
    requires EscapeEnd(s, i + 7) == j && SpaceEnd(s, j + 2) == k
    ensures EscapeAt(s, i) == Some(Match(k + 1, s[i..j] + "\""))
  {
  }

  /** Fix 2 matches exactly at a label whose text ends in `\l` and whitespace,
      and its replacement is the label without them. */
  lemma EscapeAtMeaning(s: string, i: nat)
    ensures EscapeAt(s, i).Some? <==> exists j: nat, k: nat :: EscapeSpan(s, i, j, k)
    ensures forall j: nat, k: nat :: EscapeSpan(s, i, j, k) ==> EscapeAt(s, i) == Some(Match(k + 1, s[i..j] + "\""))
  {
    if EscapeAt(s, i).Some? {
      EscapeAtSpan(s, i);
    }
    forall j: nat, k: nat | EscapeSpan(s, i, j, k)
      ensures EscapeAt(s, i) == Some(Match(k + 1, s[i..j] + "\""))
    {
      EscapeSpanMatch(s, i, j, k);
    }
  }

  /** Positions where the pattern does not match are copied. */
  lemma {:induction false} SubFromCopies(s: string, i: nat, j: nat, m: (string, nat) -> Option<Match>, left: Option<nat>)
    requires i <= j <= |s| && left != Some(0)
    requires forall k :: i <= k < j ==> m(s, k).None?
    ensures SubFrom(s, i, m, left) == s[i..j] + SubFrom(s, j, m, left)
    decreases j - i
  {
    if i < j {
      var rest := SubFrom(s, j, m, left);
      calc {
        SubFrom(s, i, m, left);
      == { SubFromSkip(s, i, m, left); }
        [s[i]] + SubFrom(s, i + 1, m, left);
      == { SubFromCopies(s, i + 1, j, m, left); }
        [s[i]] + (s[i + 1..j] + rest);
      == { assert s[i..j] == [s[i]] + s[i + 1..j]; }
        s[i..j] + rest;
      }
    }
  }

  /** Where nothing matches, the character is copied. */
  lemma SubFromSkip(s: string, i: nat, m: (string, nat) -> Option<Match>, left: Option<nat>)
    requires i < |s| && left != Some(0) && m(s, i).None?
    ensures SubFrom(s, i, m, left) == [s[i]] + SubFrom(s, i + 1, m, left)
  {
  }

  /** Where the pattern matches, its replacement is put in and the search
      goes on after the match. */
  lemma SubFromHit(s: string, i: nat, m: (string, nat) -> Option<Match>, e: nat, r: string)
    requires i < e <= |s| && m(s, i) == Some(Match(e, r))
    ensures SubFrom(s, i, m, None) == r + SubFrom(s, e, m, None)
  {
  }

  /** A text without a backtick is left alone by fix 1, and one without a
      `\l` by fix 2. */
  lemma FixesWithoutMarks(s: string)
    ensures '`' !in s ==> FixBackticks(s) == s
    ensures (forall q :: 0 <= q && q + 1 < |s| ==> s[q] != '\\' || s[q + 1] != 'l') ==> FixEscapes(s) == s
  {
    if '`' !in s {
      forall k | 0 <= k < |s| ensures BacktickAt(s, k).None? {
        BacktickAtMeaning(s, k);
      }
      SubFromNoMatch(s, 0, BacktickAt, None);
    }
    if forall q :: 0 <= q && q + 1 < |s| ==> s[q] != '\\' || s[q + 1] != 'l' {
      forall k | 0 <= k < |s| ensures EscapeAt(s, k).None? {
        EscapeAtMeaning(s, k);
      }
      SubFromNoMatch(s, 0, EscapeAt, None);
    }
    assert s[0..] == s;
  }

  // ---------------------------------------------------------------------
  // Fix 3 and the HTML fix

  /** A substitution that matches nowhere from `i` on copies the text. */
  lemma {:induction false} SubFromNoMatch(s: string, i: nat, m: (string, nat) -> Option<Match>, left: Option<nat>)
    requires i <= |s|
    requires forall j :: i <= j < |s| ==> m(s, j).None?
    ensures SubFrom(s, i, m, left) == s[i..]
    decreases |s| - i
  {
    if i < |s| && left != Some(0) {
      SubFromNoMatch(s, i + 1, m, left);
      assert s[i..] == [s[i]] + s[i + 1..];
    }
  }

  /** Fix 3 changes nothing in a text that is not a digraph or has no "--". */
  lemma FixEdgesMeaning(s: string)
    ensures !PyStr.StartsWith(PyStr.Strip(s), "digraph") || !PyStr.Contains(s, "--") ==> FixEdges(s) == s
  {
    if !PyStr.Contains(s, "--") {
      SubFromNoMatch(s, 0, EdgeWordsAt, None);
      SubFromNoMatch(s, 0, EdgeQuotedAt, None);
      assert s[0..] == s;
    }
  }

  /** The number of replacements `SubFrom` makes. */
  function Replacements(s: string, i: nat, m: (string, nat) -> Option<Match>, left: Option<nat>): nat
    requires i <= |s|
    decreases |s| - i
  {
    if i == |s| || left == Some(0) then 0
    else
      var hit := m(s, i);
      if hit.Some? && i < hit.value.end <= |s| then
        1 + Replacements(s, hit.value.end, m, if left.Some? then Some(left.value - 1) else None)
      else Replacements(s, i + 1, m, left)
  }

  /** A match whose replacement is `n` characters longer than the matched
      text. */
  predicate Grows(s: string, i: nat, r: Option<Match>, n: nat) {
    r.Some? ==> |r.value.replacement| == r.value.end - i + n
  }

  /** A substitution whose every match grows the text by `n` characters
      grows it by `n` per replacement, and makes no more replacements than
      allowed. */
  lemma {:induction false} SubFromGrowth(s: string, i: nat, m: (string, nat) -> Option<Match>, left: Option<nat>, n: nat)
    requires i <= |s|
    requires forall j :: i <= j < |s| ==> Grows(s, j, m(s, j), n)
    ensures |SubFrom(s, i, m, left)| == |s| - i + n * Replacements(s, i, m, left)
    decreases |s| - i
  {
    if i < |s| && left != Some(0) {
      var hit := m(s, i);
      assert Grows(s, i, hit, n);
      if hit.Some? && i < hit.value.end <= |s| {
        var next := if left.Some? then Some(left.value - 1) else None;
        SubFromGrowth(s, hit.value.end, m, next, n);
        GrowthAtHit(s, i, m, left, next, n);
      } else {
        SubFromGrowth(s, i + 1, m, left, n);
      }
    }
  }

  /** The step of `SubFromGrowth` at a match. */
  lemma GrowthAtHit(s: string, i: nat, m: (string, nat) -> Option<Match>, left: Option<nat>, next: Option<nat>, n: nat)
    requires i < |s| && left != Some(0) && next == (if left.Some? then Some(left.value - 1) else None)
    requires m(s, i).Some? && i < m(s, i).value.end <= |s| && Grows(s, i, m(s, i), n)
    requires |SubFrom(s, m(s, i).value.end, m, next)| == |s| - m(s, i).value.end + n * Replacements(s, m(s, i).value.end, m, next)
    ensures |SubFrom(s, i, m, left)| == |s| - i + n * Replacements(s, i, m, left)
  {
    var e := m(s, i).value.end;
    var r := m(s, i).value.replacement;
    var k := Replacements(s, e, m, next);
    assert SubFrom(s, i, m, left) == r + SubFrom(s, e, m, next);
    assert Replacements(s, i, m, left) == 1 + k;
    MulSucc(n, k);
  }

  lemma MulSucc(n: nat, k: nat)
    ensures n * (1 + k) == n + n * k
  {
  }

  /** A substitution makes no more replacements than allowed. */
  lemma {:induction false} ReplacementsBounded(s: string, i: nat, m: (string, nat) -> Option<Match>, left: Option<nat>)
    requires i <= |s|
    ensures left.Some? ==> Replacements(s, i, m, left) <= left.value
    decreases |s| - i
  {
    if i < |s| && left != Some(0) {
      var hit := m(s, i);
      if hit.Some? && i < hit.value.end <= |s| {
        ReplacementsBounded(s, hit.value.end, m, if left.Some? then Some(left.value - 1) else None);
      } else {
        ReplacementsBounded(s, i + 1, m, left);
      }
    }
  }

  /** The HTML fix inserts `</table>` at most once per unclosed table and
      changes nothing else about the length. */
  lemma FixHtmlLength(s: string)
    ensures exists k: nat :: k <= (if Unclosed(s) > 0 then Unclosed(s) else 0)
                             && |FixHtmlLabelErrors(s)| == |s| + 8 * k
  {
    var r := FixHtmlLabelErrors(s);
    if s != [] && PyStr.Contains(PyStr.Lower(s), "<table") && Unclosed(s) > 0 {
      SubFromGrowth(s, 0, CloseTableAt, Some(Unclosed(s)), 8);
      ReplacementsBounded(s, 0, CloseTableAt, Some(Unclosed(s)));
      var k := Replacements(s, 0, CloseTableAt, Some(Unclosed(s)));
      assert |r| == |s| + 8 * k;
    } else {
      assert |r| == |s| + 8 * 0;
    }
  }

  /** The HTML fix moves no brace. */
  lemma FixHtmlBraces(s: string)
    ensures PyStr.Count(FixHtmlLabelErrors(s), "{") == PyStr.Count(s, "{")
    ensures PyStr.Count(FixHtmlLabelErrors(s), "}") == PyStr.Count(s, "}")
  {
    var r := FixHtmlLabelErrors(s);
    CountIsOccurrences(s, '{');
    CountIsOccurrences(s, '}');
    CountIsOccurrences(r, '{');
    CountIsOccurrences(r, '}');
    if s != [] && PyStr.Contains(PyStr.Lower(s), "<table") && Unclosed(s) > 0 {
      SubFromKeeps(s, 0, CloseTableAt, Some(Unclosed(s)));
      assert s[0..] == s;
      SameBracesMultiset(r, s);
    }
  }

  /** `postprocess_dot` is the HTML fix after the syntax fixes, for every
      text including the empty one, and its result never has more '{' than
      '}'. */
  lemma PostprocessMeaning(s: string)
    ensures PostprocessDot(s) == FixHtmlLabelErrors(FixCommonSyntaxErrors(s))
    ensures PyStr.Count(PostprocessDot(s), "{") <= PyStr.Count(PostprocessDot(s), "}")
  {
    FixCommonBalancesBraces(s);
    FixHtmlBraces(FixCommonSyntaxErrors(s));
  }
}
