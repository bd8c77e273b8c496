/** Error injection for data augmentation: four ways of breaking a valid DOT
    graph (backticks around the graph name, `--` edges in a digraph, a missing
    final '}', a stray `\l` at the end of a label), a random combination of
    them, the error-correction training pair built from the broken text, and
    the loop that makes such pairs from a dataset. Every random draw is an
    explicit input: `randint` and `random.sample` results, and one coin per
    line or per label for the `random.random() < p` tests. */
module ErrorInjection {
  import opened Wrappers
  import PyStr
  import Lists
  import Postprocess
  import PostprocessCases

  // ---------------------------------------------------------------------
  // Substitutions limited to one replacement

  /** Whether the pattern `m` matches at `j`, as `re.sub` would use it. */
  predicate Hit(s: string, j: nat, m: (string, nat) -> Option<Postprocess.Match>) {
    var h := m(s, j);
    h.Some? && j < h.value.end <= |s|
  }

  /** The first position from `i` on where `m` matches, or -1. */
  function FirstHit(s: string, i: nat, m: (string, nat) -> Option<Postprocess.Match>): (j: int)
    requires i <= |s|
    ensures j == -1 || (i <= j < |s| && Hit(s, j, m))
    ensures forall k :: i <= k < |s| && (j == -1 || k < j) ==> !Hit(s, k, m)
    decreases |s| - i
  {
    if i == |s| then -1
    else if Hit(s, i, m) then i
    else FirstHit(s, i + 1, m)
  }

  /** `re.sub(..., count=1)` replaces the first match and nothing else, and
      copies a text in which the pattern never matches. */
  lemma {:induction false} SubOnce(s: string, i: nat, m: (string, nat) -> Option<Postprocess.Match>)
    requires i <= |s|
    ensures var j := FirstHit(s, i, m);
            Postprocess.SubFrom(s, i, m, Some(1))
            == if j < 0 then s[i..] else s[i..j] + m(s, j).value.replacement + s[m(s, j).value.end..]
    decreases |s| - i
  {
    if i < |s| {
      if Hit(s, i, m) {
        SubOnceHere(s, i, m);
      } else {
        SubOnce(s, i + 1, m);
        SubOnceSkip(s, i, m);
      }
    }
  }

  /** A match at `i` is the one replaced. */
  lemma SubOnceHere(s: string, i: nat, m: (string, nat) -> Option<Postprocess.Match>)
    requires i < |s| && Hit(s, i, m)
    ensures Postprocess.SubFrom(s, i, m, Some(1)) == m(s, i).value.replacement + s[m(s, i).value.end..]
  {
    var e := m(s, i).value.end;
    assert Postprocess.SubFrom(s, e, m, Some(0)) == s[e..];
  }

  /** Without a match at `i` the character there is copied. */
  lemma SubOnceSkip(s: string, i: nat, m: (string, nat) -> Option<Postprocess.Match>)
    requires i < |s| && !Hit(s, i, m)
    ensures var j := FirstHit(s, i + 1, m);
            var rest := Postprocess.SubFrom(s, i + 1, m, Some(1));
            Postprocess.SubFrom(s, i, m, Some(1)) == [s[i]] + rest
            && (j >= 0 ==> s[i..j] == [s[i]] + s[i + 1..j])
            && s[i..] == [s[i]] + s[i + 1..]
  {
  }

  /** A substitution whose every match copies the matched text changes
      nothing. */
  lemma {:induction false} SubIdentity(s: string, i: nat, m: (string, nat) -> Option<Postprocess.Match>, left: Option<nat>)
    requires i <= |s|
    requires forall j :: i <= j < |s| && Hit(s, j, m) ==> m(s, j).value.replacement == s[j..m(s, j).value.end]
    ensures Postprocess.SubFrom(s, i, m, left) == s[i..]
    decreases |s| - i
  {
    if i < |s| && left != Some(0) {
      if Hit(s, i, m) {
        var e := m(s, i).value.end;
        SubIdentity(s, e, m, if left.Some? then Some(left.value - 1) else None);
        assert s[i..] == s[i..e] + s[e..];
      } else {
        SubIdentity(s, i + 1, m, left);
        assert s[i..] == [s[i]] + s[i + 1..];
      }
    }
  }

  // ---------------------------------------------------------------------
  // Backticks

  /** `(digraph|graph)\s+"([^"]+)"` at `i`, replaced by `\1 `\2``. */
  function QuotedNameAt(s: string, i: nat): (r: Option<Postprocess.Match>)
    ensures Postprocess.Faithful(s, i, r)
  {
    var kw := Postprocess.GraphKeyword(s, i);
    if kw == 0 then None
    else
      var b := Postprocess.SpaceEnd(s, i + kw);
      if b == i + kw || b == |s| || s[b] != '"' then None
      else
        var c := Postprocess.CharEnd(s, b + 1, '"');
        if c == b + 1 || c == |s| then None
        else Some(BacktickNameMatch(s, i, i + kw, b, c))
  }

  /** The replacement: the keyword, one space, and the name in backticks. */
  function BacktickNameMatch(s: string, i: nat, a: nat, b: nat, c: nat): (m: Postprocess.Match)
    requires i <= a <= b < c < |s| && Postprocess.SpacesBetween(s, a, b) && s[b] == '"' && s[c] == '"'
    ensures m.end == c + 1 && Postprocess.SameBraces(m.replacement, s[i..m.end])
  {
    QuoteSwapKeeps(s, i, a, b, c);
    Postprocess.Match(c + 1, s[i..a] + " `" + s[b + 1..c] + "`")
  }

  lemma QuoteSwapKeeps(s: string, i: nat, a: nat, b: nat, c: nat)
    requires i <= a <= b < c < |s| && Postprocess.SpacesBetween(s, a, b) && s[b] == '"' && s[c] == '"'
    ensures Postprocess.SameBraces(s[i..a] + " `" + s[b + 1..c] + "`", s[i..c + 1])
  {
    assert s[i..c + 1] == s[i..a] + s[a..b] + [s[b]] + s[b + 1..c] + [s[c]];
    assert PyStr.AllSpace(s[a..b]);
    Postprocess.SpaceHasNoBraces(s[a..b]);
    Postprocess.SameBracesMultiset(s[i..a] + " `" + s[b + 1..c] + "`", s[i..c + 1]);
  }

  /** `inject_backtick_error(dot_code)` */
  function InjectBacktickError(s: string): string {
    Postprocess.SubFrom(s, 0, QuotedNameAt, Some(1))
  }

  /** Only the first quoted graph name is rewritten: the text before it and
      after it is copied, and a text without one comes back unchanged. */
  lemma BacktickMeaning(s: string)
    ensures var j := FirstHit(s, 0, QuotedNameAt);
            (j < 0 ==> InjectBacktickError(s) == s)
            && (j >= 0 ==> exists m :: QuotedNameAt(s, j) == Some(m) && j < m.end <= |s|
                                        && InjectBacktickError(s) == s[..j] + m.replacement + s[m.end..])
    ensures Postprocess.SameBraces(InjectBacktickError(s), s)
  {
    SubOnce(s, 0, QuotedNameAt);
    Postprocess.SubFromKeeps(s, 0, QuotedNameAt, Some(1));
    assert s[0..] == s;
    var j := FirstHit(s, 0, QuotedNameAt);
    if j >= 0 {
      assert s[0..j] == s[..j];
    }
  }

  // ---------------------------------------------------------------------
  // Edge operators

  /** The loop of `inject_edge_operator_error` over the lines before
      `|lines|`: the new lines and the replacements made. A line's coin is
      `heads` at its index. */
  function EdgePass(lines: seq<string>, max: nat, heads: nat -> bool): (seq<string>, nat)
    decreases |lines|
  {
    if lines == [] then ([], 0)
    else
      var k := |lines| - 1;
      EdgeStep(EdgePass(lines[..k], max, heads), lines[k], k, max, heads)
  }

  /** One round of that loop: line `k` is rewritten when it has "->", fewer
      than `max` replacements were made and its coin came up. */
  function EdgeStep(acc: (seq<string>, nat), line: string, k: nat, max: nat, heads: nat -> bool): (seq<string>, nat) {
    if PyStr.Contains(line, "->") && acc.1 < max && heads(k) then (acc.0 + [PyStr.ReplaceFirst(line, "->", "--")], acc.1 + 1)
    else (acc.0 + [line], acc.1)
  }

  lemma EdgePassStep(lines: seq<string>, i: nat, max: nat, heads: nat -> bool)
    requires i < |lines|
    ensures EdgePass(lines[..i + 1], max, heads) == EdgeStep(EdgePass(lines[..i], max, heads), lines[i], i, max, heads)
  {
    assert lines[..i + 1][..i] == lines[..i];
  }

  /** The number of positions at which two equally long lists differ. */
  function Changed(a: seq<string>, b: seq<string>): nat
    requires |a| == |b|
    decreases |a|
  {
    if a == [] then 0
    else Changed(a[..|a| - 1], b[..|b| - 1]) + (if a[|a| - 1] != b[|b| - 1] then 1 else 0)
  }

  lemma {:induction false} ChangedSelf(a: seq<string>)
    ensures Changed(a, a) == 0
    decreases |a|
  {
    if a != [] {
      ChangedSelf(a[..|a| - 1]);
    }
  }

  /** Replacing the first "->" changes a line that has one. */
  lemma ReplaceChanges(line: string)
    requires PyStr.Contains(line, "->")
    ensures PyStr.ReplaceFirst(line, "->", "--") != line
  {
    var k := PyStr.Find(line, "->");
    var r := PyStr.ReplaceFirst(line, "->", "--");
    assert line[k + 1] == line[k..][1] == '>';
    assert r[k + 1] == '-';
  }

  /** Replacing "->" by "--" adds no line break. */
  lemma ReplaceKeepsLineFree(line: string)
    requires '\n' !in line
    ensures '\n' !in PyStr.ReplaceFirst(line, "->", "--")
  {
    var k := PyStr.Find(line, "->");
    if k >= 0 {
      var r := PyStr.ReplaceFirst(line, "->", "--");
      assert r == line[..k] + "--" + line[k + 2..];
      assert forall x :: x in r ==> x in line[..k] || x == '-' || x in line[k + 2..];
    }
  }

  /** Line `k` came out of the pass unchanged, or it has "->", its coin came
      up and its first "->" became "--". */
  predicate Rewritten(line: string, out: string, k: nat, heads: nat -> bool) {
    out == line || (PyStr.Contains(line, "->") && heads(k) && out == PyStr.ReplaceFirst(line, "->", "--"))
  }

  /** Every line is kept or has its first "->" replaced; a line is changed
      only where it has "->" and its coin came up; as many lines change as
      replacements are counted, and never more than `max`. */
  lemma EdgePassMeaning(lines: seq<string>, max: nat, heads: nat -> bool)
    ensures var (r, n) := EdgePass(lines, max, heads);
            |r| == |lines| && n <= max && n == Changed(r, lines)
            && forall k :: 0 <= k < |lines| ==> Rewritten(lines[k], r[k], k, heads)
  {
    EdgePassCount(lines, max, heads);
    EdgePassLines(lines, max, heads);
  }

  /** The pass counts exactly the lines it changes, and at most `max`. */
  lemma {:induction false} EdgePassCount(lines: seq<string>, max: nat, heads: nat -> bool)
    ensures var (r, n) := EdgePass(lines, max, heads); |r| == |lines| && n <= max && n == Changed(r, lines)
    decreases |lines|
  {
    if lines != [] {
      var k := |lines| - 1;
      EdgePassCount(lines[..k], max, heads);
      var (prev, n) := EdgePass(lines[..k], max, heads);
      var (r, n') := EdgePass(lines, max, heads);
      assert r[..k] == prev;
      assert lines[..k] == lines[..|lines| - 1];
      if PyStr.Contains(lines[k], "->") {
        ReplaceChanges(lines[k]);
      }
    }
  }

  /** Each line is kept or rewritten as `Rewritten` says. */
  lemma {:induction false} EdgePassLines(lines: seq<string>, max: nat, heads: nat -> bool)
    ensures var r := EdgePass(lines, max, heads).0;
            |r| == |lines| && forall k :: 0 <= k < |lines| ==> Rewritten(lines[k], r[k], k, heads)
    decreases |lines|
  {
    if lines != [] {
      var k := |lines| - 1;
      EdgePassLines(lines[..k], max, heads);
      var prev := EdgePass(lines[..k], max, heads).0;
      var r := EdgePass(lines, max, heads).0;
      assert r[..k] == prev;
      forall j | 0 <= j < k ensures Rewritten(lines[j], r[j], j, heads) {
        assert r[j] == prev[j] && lines[..k][j] == lines[j];
      }
    }
  }

  /** `inject_edge_operator_error(dot_code)` with `max` the `randint(1, 3)`
      draw and `heads(k)` the coin of line `k`. */
  function EdgeOperatorError(s: string, max: nat, heads: nat -> bool): string {
    if !PyStr.StartsWith(PyStr.Strip(s), "digraph") then s
    else PyStr.Join("\n", EdgePass(PyStr.Split(s, "\n"), max, heads).0)
  }

  /** `inject_edge_operator_error(dot_code)` itself. */
  method InjectEdgeOperatorError(s: string, max: nat, heads: nat -> bool) returns (r: string)
    requires 1 <= max <= 3
    ensures r == EdgeOperatorError(s, max, heads)
  {
    if !PyStr.StartsWith(PyStr.Strip(s), "digraph") {
      return s;
    }
    var modified := RewriteEdgeLines(PyStr.Split(s, "\n"), max, heads);
    r := PyStr.Join("\n", modified);
  }

  /** Its loop over the lines, counting the replacements. */
  method RewriteEdgeLines(lines: seq<string>, max: nat, heads: nat -> bool) returns (modified: seq<string>)
    ensures modified == EdgePass(lines, max, heads).0
  {
    modified := [];
    var replacements := 0;
    for i := 0 to |lines|
      invariant modified == EdgePass(lines[..i], max, heads).0
      invariant replacements == EdgePass(lines[..i], max, heads).1
    {
      EdgePassStep(lines, i, max, heads);
      var line := lines[i];
      if PyStr.Contains(line, "->") && replacements < max && heads(i) {
        line := PyStr.ReplaceFirst(line, "->", "--");
        replacements := replacements + 1;
      }
      modified := modified + [line];
    }
    assert lines[..|lines|] == lines;
  }

  /** The edge error leaves text that is not a digraph alone, keeps the
      number of lines, and changes at most `max` of them, each only by its
      first "->" becoming "--". */
  lemma EdgeOperatorMeaning(s: string, max: nat, heads: nat -> bool)
    ensures !PyStr.StartsWith(PyStr.Strip(s), "digraph") ==> EdgeOperatorError(s, max, heads) == s
    ensures var before := PyStr.Split(s, "\n");
            var after := PyStr.Split(EdgeOperatorError(s, max, heads), "\n");
            |after| == |before| && Changed(after, before) <= max
            && forall k :: 0 <= k < |before| ==>
                 after[k] == before[k] || after[k] == PyStr.ReplaceFirst(before[k], "->", "--")
  {
    if !PyStr.StartsWith(PyStr.Strip(s), "digraph") {
      ChangedSelf(PyStr.Split(s, "\n"));
    } else {
      var lines := PyStr.Split(s, "\n");
      EdgePassMeaning(lines, max, heads);
      var r := EdgePass(lines, max, heads).0;
      PyStr.SplitPartsFree(s, '\n');
      forall k | 0 <= k < |r| ensures '\n' !in r[k] {
        if r[k] != lines[k] { ReplaceKeepsLineFree(lines[k]); }
      }
      PyStr.SplitJoin(r, '\n');
    }
  }

  // ---------------------------------------------------------------------
  // Missing brace

  /** `inject_missing_brace_error(dot_code)` */
  function InjectMissingBraceError(s: string): string {
    var t := PyStr.RStrip(s);
    if PyStr.EndsWith(t, "}") then PyStr.RStrip(t[..|t| - 1]) else s
  }

  /** A text ending (before trailing whitespace) in '}' loses that '}' and
      the whitespace around it, so one '}' fewer and the same '{'; any other
      text is unchanged. The result is a prefix of the input. */
  lemma MissingBraceMeaning(s: string)
    ensures var r := InjectMissingBraceError(s);
            PyStr.StartsWith(s, r)
            && (!PyStr.EndsWith(PyStr.RStrip(s), "}") ==> r == s)
            && (PyStr.EndsWith(PyStr.RStrip(s), "}") ==>
                  multiset(r)['}'] + 1 == multiset(s)['}'] && multiset(r)['{'] == multiset(s)['{']
                  && (r == [] || !PyStr.IsSpace(r[|r| - 1])))
  {
    var t := PyStr.RStrip(s);
    if PyStr.EndsWith(t, "}") {
      var u := t[..|t| - 1];
      var r := PyStr.RStrip(u);
      var w1, w2 := u[|r|..], s[|t|..];
      PyStr.RStripSplit(s);
      PyStr.RStripSplit(u);
      assert t == u + ['}'] by { assert t[|t| - 1..] == "}"; }
      assert s == r + w1 + ['}'] + w2 by {
        assert s == t + w2 && t == (r + w1) + ['}'];
      }
      MissingBraceParts(s, r, w1, w2);
    }
  }

  /** The pieces the missing-brace error cuts a text into: the kept prefix,
      whitespace, the '}', and whitespace. */
  lemma MissingBraceParts(s: string, r: string, w1: string, w2: string)
    requires s == r + w1 + ['}'] + w2 && PyStr.AllSpace(w1) && PyStr.AllSpace(w2)
    ensures PyStr.StartsWith(s, r)
    ensures multiset(r)['}'] + 1 == multiset(s)['}'] && multiset(r)['{'] == multiset(s)['{']
  {
    assert s[..|r|] == r;
    Postprocess.SpaceHasNoBraces(w1);
    Postprocess.SpaceHasNoBraces(w2);
    assert multiset(s) == multiset(r) + multiset(w1) + multiset(['}']) + multiset(w2);
  }

  /** The missing-brace error is what fix 4 of the post-processing repairs:
      in a text with as many '{' as '}', at least one of them, the '}' taken
      away comes back on a line of its own. */
  lemma FixBracesRepairsMissingBrace(s: string)
    requires PyStr.EndsWith(PyStr.RStrip(s), "}") && PyStr.Count(s, "{") == PyStr.Count(s, "}")
    ensures Postprocess.FixBraces(InjectMissingBraceError(s)) == InjectMissingBraceError(s) + "\n}"
  {
    var r := InjectMissingBraceError(s);
    MissingBraceMeaning(s);
    Postprocess.CountIsOccurrences(s, '{');
    Postprocess.CountIsOccurrences(s, '}');
    Postprocess.CountIsOccurrences(r, '{');
    Postprocess.CountIsOccurrences(r, '}');
    var t := PyStr.RStrip(s);
    assert s[|t| - 1] == '}' by {
      assert t[|t| - 1] == '}' && t == s[..|t|];
    }
    assert multiset(s)['}'] >= 1;
    assert '{' in multiset(r);
    OneBraceShort(r);
  }

  /** A text with one '{' more than '}' gets one '}' back on its own line. */
  lemma OneBraceShort(r: string)
    requires '{' in multiset(r) && PyStr.Count(r, "{") == PyStr.Count(r, "}") + 1
    ensures Postprocess.FixBraces(r) == r + "\n}"
  {
    assert '{' in r;
    Postprocess.FixBracesMeaning(r);
    assert Postprocess.Repeat('}', 1) == "}";
    assert "\n" + "}" == "\n}";
  }

  // ---------------------------------------------------------------------
  // Escape sequences

  /** `label="([^"]+)"` at `i`; with the label's coin up it becomes
      `label="\1\l"`, otherwise the match is kept as it is. */
  function LabelAt(s: string, i: nat, heads: nat -> bool): (r: Option<Postprocess.Match>)
    ensures Postprocess.Faithful(s, i, r)
    ensures r.Some? && !heads(i) ==> r.value.replacement == s[i..r.value.end]
  {
    if i > |s| || !PyStr.StartsWith(s[i..], "label=\"") then None
    else
      var c := Postprocess.CharEnd(s, i + 7, '"');
      if c == i + 7 || c == |s| then None
      else if heads(i) then Some(EscapeAddMatch(s, i, c))
      else Some(Postprocess.Match(c + 1, s[i..c + 1]))
  }

  /** The replacement with the coin up: `\l` before the closing quote. */
  function EscapeAddMatch(s: string, i: nat, c: nat): (m: Postprocess.Match)
    requires i < c < |s| && s[c] == '"'
    ensures m.end == c + 1 && Postprocess.SameBraces(m.replacement, s[i..m.end])
  {
    assert s[i..c + 1] == s[i..c] + [s[c]];
    assert multiset(s[i..c] + "\\l\"") == multiset(s[i..c]) + multiset("\\l\"");
    Postprocess.SameBracesMultiset(s[i..c] + "\\l\"", s[i..c + 1]);
    Postprocess.Match(c + 1, s[i..c] + "\\l\"")
  }

  /** `inject_escape_sequence_error(dot_code)` with `heads(i)` the coin of
      the label found at `i`. */
  function InjectEscapeSequenceError(s: string, heads: nat -> bool): string {
    Postprocess.SubFrom(s, 0, LabelMatcher(heads), None)
  }

  /** The pattern of the escape error, with the labels' coins fixed. */
  function LabelMatcher(heads: nat -> bool): (string, nat) -> Option<Postprocess.Match> {
    (t: string, i: nat) => LabelAt(t, i, heads)
  }

  /** The escape error moves no brace, and with every coin down it changes
      nothing. */
  lemma EscapeMeaning(s: string, heads: nat -> bool)
    ensures Postprocess.SameBraces(InjectEscapeSequenceError(s, heads), s)
    ensures (forall i :: !heads(i)) ==> InjectEscapeSequenceError(s, heads) == s
  {
    var m := LabelMatcher(heads);
    Postprocess.SubFromKeeps(s, 0, m, None);
    if forall i :: !heads(i) {
      SubIdentity(s, 0, m, None);
    }
    assert s[0..] == s;
  }

  /** `label="..."` at `i` with a non-empty text and its closing quote at
      `c`. */
  predicate LabelSpan(s: string, i: nat, c: nat) {
    i + 7 < c < |s| && PyStr.StartsWith(s[i..], "label=\"") && s[c] == '"'
    && forall q :: i + 7 <= q < c ==> s[q] != '"'
  }

  /** The escape error matches exactly at a label with a non-empty text; with
      the label's coin up a `\l` goes before its closing quote, with the coin
      down the label is kept. */
  lemma LabelAtMeaning(s: string, i: nat, heads: nat -> bool)
    ensures LabelAt(s, i, heads).Some? <==> exists c: nat :: LabelSpan(s, i, c)
    ensures forall c: nat :: LabelSpan(s, i, c) ==>
              LabelAt(s, i, heads)
              == Some(Postprocess.Match(c + 1, if heads(i) then s[i..c] + "\\l\"" else s[i..c + 1]))
  {
    if LabelAt(s, i, heads).Some? {
      assert LabelSpan(s, i, Postprocess.CharEnd(s, i + 7, '"'));
    }
    forall c: nat | LabelSpan(s, i, c)
      ensures LabelAt(s, i, heads)
              == Some(Postprocess.Match(c + 1, if heads(i) then s[i..c] + "\\l\"" else s[i..c + 1]))
    {
      LabelEnd(s, i, c);
    }
  }

  /** The closing quote of a label is the first quote after `label="`. */
  lemma LabelEnd(s: string, i: nat, c: nat)
    requires LabelSpan(s, i, c)
    ensures Postprocess.CharEnd(s, i + 7, '"') == c
  {
  }

  /** Fix 2 undoes the escape error on one label: the `\l` put before the
      closing quote is dropped again and the label comes back as it was. */
  lemma EscapeFixUndoesLabel(s: string, i: nat, c: nat)
    requires LabelSpan(s, i, c)
    ensures var t := s[i..c] + "\\l\"";
            Postprocess.EscapeAt(t, 0) == Some(Postprocess.Match(|t|, s[i..c + 1]))
  {
    var t := s[i..c] + "\\l\"";
    var j := c - i;
    assert t[..7] == s[i..][..7];
    assert forall q :: 7 <= q < j ==> t[q] == s[i + q];
    assert t[j] == '\\' && t[j + 1] == 'l' && t[j + 2] == '"';
    assert Postprocess.EscapeSpan(t, 0, j, j + 2);
    Postprocess.EscapeSpanMatch(t, 0, j, j + 2);
    assert t[0..j] + "\"" == s[i..c + 1];
  }

  /** The escape error matches only where an 'l' is. */
  lemma LabelStartsWithL(s: string, i: nat, heads: nat -> bool)
    ensures LabelAt(s, i, heads).Some? ==> i < |s| && s[i] == 'l'
  {
    if LabelAt(s, i, heads).Some? {
      assert s[i..][..7] == "label=\"";
      assert s[i..][0] == 'l';
    }
  }

  /** The escape error copies the text between `from` and `to` when no 'l'
      is there. */
  lemma LabelsNoneBetween(s: string, from: nat, to: nat, heads: nat -> bool)
    requires from <= to <= |s| && forall q :: from <= q < to ==> s[q] != 'l'
    ensures forall k :: from <= k < to ==> LabelAt(s, k, heads).None?
  {
    forall k | from <= k < to ensures LabelAt(s, k, heads).None? {
      LabelStartsWithL(s, k, heads);
    }
  }

  /** The escape error on a text with one label, from `i` to `c + 1`, whose
      coin is up, and no other 'l': the `\l` goes before the label's closing
      quote and nothing else changes. */
  lemma EscapeInjectOnce(s: string, i: nat, c: nat, heads: nat -> bool)
    requires LabelSpan(s, i, c) && heads(i)
    requires forall q :: 0 <= q < i ==> s[q] != 'l'
    requires forall q :: c + 1 <= q < |s| ==> s[q] != 'l'
    ensures InjectEscapeSequenceError(s, heads) == s[..i] + (s[i..c] + "\\l\"" + s[c + 1..])
  {
    var m := LabelMatcher(heads);
    LabelsNoneBetween(s, 0, i, heads);
    Postprocess.SubFromCopies(s, 0, i, m, None);
    assert s[0..i] == s[..i];
    EscapeInjectAt(s, i, c, heads);
  }

  /** From a label whose coin is up, with no 'l' after it, the escape error
      puts in the `\l` and copies the rest. */
  lemma EscapeInjectAt(s: string, i: nat, c: nat, heads: nat -> bool)
    requires LabelSpan(s, i, c) && heads(i)
    requires forall q :: c + 1 <= q < |s| ==> s[q] != 'l'
    ensures Postprocess.SubFrom(s, i, LabelMatcher(heads), None)
            == s[i..c] + "\\l\"" + s[c + 1..]
  {
    var m := LabelMatcher(heads);
    LabelAtMeaning(s, i, heads);
    Postprocess.SubFromHit(s, i, m, c + 1, s[i..c] + "\\l\"");
    LabelsNoneBetween(s, c + 1, |s|, heads);
    Postprocess.SubFromNoMatch(s, c + 1, m, None);
  }

  /** The parts of a text holding one label. */
  lemma LabelSplit(s: string, pre: string, body: string, post: string)
    requires s == pre + "label=\"" + body + "\"" + post
    requires body != [] && '"' !in body
    ensures var i := |pre|; var c := i + 7 + |body|;
            LabelSpan(s, i, c) && s[..i] == pre && s[i..c] == "label=\"" + body && s[c + 1..] == post
    ensures forall q :: 0 <= q < |pre| ==> s[q] == pre[q]
    ensures forall q :: |pre| + 8 + |body| <= q < |s| ==> s[q] == post[q - |pre| - 8 - |body|]
  {
    var i := |pre|;
    var c := i + 7 + |body|;
    assert s[i..][..7] == "label=\"";
    assert forall q :: i + 7 <= q < c ==> s[q] == body[q - i - 7];
  }

  /** On a text with one label whose coin is up, and no other 'l', fix 2 of
      the post-processing undoes the escape error: the broken text has `\l`
      before the label's closing quote, and fixing it gives the text back. */
  lemma EscapeInjectThenFix(pre: string, body: string, post: string, heads: nat -> bool)
    requires body != [] && '"' !in body && 'l' !in pre && 'l' !in post && heads(|pre|)
    ensures var s := pre + "label=\"" + body + "\"" + post;
            var broken := InjectEscapeSequenceError(s, heads);
            broken == pre + "label=\"" + body + "\\l\"" + post
            && Postprocess.FixEscapes(broken) == s
  {
    var s := pre + "label=\"" + body + "\"" + post;
    var broken := pre + "label=\"" + body + "\\l\"" + post;
    EscapeInjectLabel(s, pre, body, post, heads);
    PostprocessCases.EscapeLabelOnce(broken, pre, body, post);
    LabelRegroup(pre, "label=\"" + body + "\"", post);
  }

  /** The escape error on a text with one label whose coin is up, and no
      other 'l'. */
  lemma EscapeInjectLabel(s: string, pre: string, body: string, post: string, heads: nat -> bool)
    requires s == pre + "label=\"" + body + "\"" + post
    requires body != [] && '"' !in body && 'l' !in pre && 'l' !in post && heads(|pre|)
    ensures InjectEscapeSequenceError(s, heads) == pre + "label=\"" + body + "\\l\"" + post
  {
    var i := |pre|;
    var c := i + 7 + |body|;
    LabelSplit(s, pre, body, post);
    EscapeInjectOnce(s, i, c, heads);
    LabelRegroup(pre, "label=\"" + body + "\\l\"", post);
  }

  /** Regrouping the parts of a text around its label. */
  lemma LabelRegroup(pre: string, mid: string, post: string)
    ensures pre + (mid + post) == pre + mid + post
  {
  }

  // ---------------------------------------------------------------------
  // Random combinations

  /** The four kinds of error, in the order of `error_functions`. */
  datatype ErrorKind = Backtick | EdgeOperator | MissingBrace | EscapeSequence

  /** The name recorded for each kind. */
  function KindName(k: ErrorKind): string {
    match k
    case Backtick => "backtick_in_graph_name"
    case EdgeOperator => "wrong_edge_operator"
    case MissingBrace => "missing_closing_brace"
    case EscapeSequence => "invalid_escape_sequence"
  }

  /** The random draws the error functions make: the `randint(1, 3)` of the
      edge error, the coin of each line for it, and the coin of each label
      for the escape error. */
  datatype Draws = Draws(edgeMax: nat, edgeHeads: nat -> bool, escapeHeads: nat -> bool)

  predicate ValidDraws(d: Draws) {
    1 <= d.edgeMax <= 3
  }

  /** One error applied to a text. */
  function Inject(k: ErrorKind, s: string, d: Draws): string {
    match k
    case Backtick => InjectBacktickError(s)
    case EdgeOperator => EdgeOperatorError(s, d.edgeMax, d.edgeHeads)
    case MissingBrace => InjectMissingBraceError(s)
    case EscapeSequence => InjectEscapeSequenceError(s, d.escapeHeads)
  }

  /** The errors of `picks` applied in order. */
  function InjectAll(s: string, picks: seq<ErrorKind>, d: Draws): string
    decreases |picks|
  {
    if picks == [] then s
    else Inject(picks[|picks| - 1], InjectAll(s, picks[..|picks| - 1], d), d)
  }

  lemma InjectAllStep(s: string, picks: seq<ErrorKind>, i: nat, d: Draws)
    requires i < |picks|
    ensures InjectAll(s, picks[..i + 1], d) == Inject(picks[i], InjectAll(s, picks[..i], d), d)
  {
    assert picks[..i + 1][..i] == picks[..i];
  }

  /** `error_func(broken_code)` for the error function of kind `k`. */
  method ApplyError(k: ErrorKind, s: string, d: Draws) returns (r: string)
    requires ValidDraws(d)
    ensures r == Inject(k, s, d)
  {
    match k
    case Backtick => r := InjectBacktickError(s);
    case EdgeOperator => r := InjectEdgeOperatorError(s, d.edgeMax, d.edgeHeads);
    case MissingBrace => r := InjectMissingBraceError(s);
    case EscapeSequence => r := InjectEscapeSequenceError(s, d.escapeHeads);
  }

  function Min(a: int, b: int): int { if a < b then a else b }

  /** A broken text and the names of the errors it holds. */
  datatype Injected = Injected(broken: string, names: seq<string>)

  /** `inject_random_errors(dot_code, num_errors)` with `picks` the
      `random.sample` draw: a negative count makes the sample raise. */
  method InjectRandomErrors(s: string, numErrors: int, picks: seq<ErrorKind>, d: Draws) returns (r: Result<Injected, string>)
    requires ValidDraws(d)
    requires numErrors >= 0 ==> |picks| == Min(numErrors, 4) && Lists.NoDuplicates(picks)
    ensures numErrors < 0 <==> r.Err?
    ensures r.Err? ==> r.error == "ValueError"
    ensures r.Ok? ==> r.value.broken == InjectAll(s, picks, d)
    ensures r.Ok? ==> r.value.names == Names(picks)
  {
    if numErrors < 0 {
      return Err("ValueError");
    }
    var broken, names := ApplyErrors(s, picks, d);
    return Ok(Injected(broken, names));
  }

  /** The loop of `inject_random_errors` over the sampled error functions. */
  method ApplyErrors(s: string, picks: seq<ErrorKind>, d: Draws) returns (broken: string, names: seq<string>)
    requires ValidDraws(d)
    ensures broken == InjectAll(s, picks, d)
    ensures names == Names(picks)
  {
    broken := s;
    names := [];
    for i := 0 to |picks|
      invariant broken == InjectAll(s, picks[..i], d)
      invariant names == Names(picks[..i])
    {
      InjectAllStep(s, picks, i, d);
      NamesStep(picks, i);
      broken := ApplyError(picks[i], broken, d);
      names := names + [KindName(picks[i])];
    }
    assert picks[..|picks|] == picks;
  }

  lemma NamesStep(picks: seq<ErrorKind>, i: nat)
    requires i < |picks|
    ensures Names(picks[..i + 1]) == Names(picks[..i]) + [KindName(picks[i])]
  {
    assert picks[..i + 1][..i] == picks[..i];
  }

  /** The names of the kinds in `picks`, in order. */
  function Names(picks: seq<ErrorKind>): (r: seq<string>)
    ensures |r| == |picks| && forall k :: 0 <= k < |picks| ==> r[k] == KindName(picks[k])
  {
    seq(|picks|, k requires 0 <= k < |picks| => KindName(picks[k]))
  }

  /** Different kinds are recorded under different names. */
  lemma KindNameInjective(a: ErrorKind, b: ErrorKind)
    requires KindName(a) == KindName(b)
    ensures a == b
  {
    assert KindName(a)[0] == KindName(b)[0];
    if KindName(a)[0] == 'i' || KindName(a)[0] == 'b' {
      assert a == b;
    } else {
      assert KindName(a)[0] == KindName(b)[0] && KindName(a)[1] == KindName(b)[1];
    }
  }

  /** The sampled kinds being distinct, so are the names recorded. */
  lemma NamesDistinct(picks: seq<ErrorKind>)
    requires Lists.NoDuplicates(picks)
    ensures Lists.NoDuplicates(Names(picks))
  {
    forall i, j | 0 <= i < j < |picks| ensures KindName(picks[i]) != KindName(picks[j]) {
      if KindName(picks[i]) == KindName(picks[j]) {
        KindNameInjective(picks[i], picks[j]);
      }
    }
  }

  // ---------------------------------------------------------------------
  // Training pairs

  /** The pair `create_error_correction_pair` returns. */
  datatype CorrectionPair = CorrectionPair(taskType: string, inputText: string, outputDot: string,
                                           errorsInjected: seq<string>, brokenDot: string)

  const FixHeader := "Fix the syntax errors in this DOT graph:\n\n"

  /** The prompt for a broken text, with the original intent when a
      non-empty description is given. */
  function CorrectionPrompt(broken: string, description: Option<string>): (p: string)
    ensures PyStr.StartsWith(p, FixHeader + broken)
    ensures (description.None? || description.value == []) <==> p == FixHeader + broken
  {
    if description.Some? && description.value != [] then FixHeader + broken + "\n\nOriginal intent: " + description.value
    else FixHeader + broken
  }

  /** The random draws of one pair: `randint(1, 2)`, the sample and the
      draws of the error functions. */
  datatype PairDraws = PairDraws(numErrors: int, picks: seq<ErrorKind>, draws: Draws)

  predicate ValidPairDraws(p: PairDraws) {
    1 <= p.numErrors <= 2 && |p.picks| == p.numErrors && Lists.NoDuplicates(p.picks) && ValidDraws(p.draws)
  }

  /** `create_error_correction_pair(dot_code, description)`: the target is
      the original text, the broken text is in the prompt. */
  method CreateErrorCorrectionPair(dot: string, description: Option<string>, p: PairDraws) returns (pair: CorrectionPair)
    requires ValidPairDraws(p)
    ensures pair == CorrectionPairOf(dot, description, p)
  {
    var r := InjectRandomErrors(dot, p.numErrors, p.picks, p.draws);
    pair := CorrectionPair("ERROR_CORRECTION", CorrectionPrompt(r.value.broken, description), dot, r.value.names, r.value.broken);
  }

  /** The pair made from `dot` with the draws `p`: the target is the original
      text, and the broken text, the names of its errors in the order they
      were applied, and the prompt holding the broken text. */
  function CorrectionPairOf(dot: string, description: Option<string>, p: PairDraws): (pair: CorrectionPair)
    ensures pair.taskType == "ERROR_CORRECTION" && pair.outputDot == dot
    ensures pair.brokenDot == InjectAll(dot, p.picks, p.draws)
    ensures PyStr.StartsWith(pair.inputText, FixHeader + pair.brokenDot)
    ensures |pair.errorsInjected| == |p.picks| && forall k :: 0 <= k < |p.picks| ==> pair.errorsInjected[k] == KindName(p.picks[k])
  {
    var broken := InjectAll(dot, p.picks, p.draws);
    CorrectionPair("ERROR_CORRECTION", CorrectionPrompt(broken, description), dot, Names(p.picks), broken)
  }

  /** A metadata field of an original pair: absent, JSON `null`, or a string. */
  datatype MetaField = Missing | Null | Text(s: string)

  /** The fields of an original pair `augment_dataset_with_errors` reads; a
      `null` DOT text or input reads like an absent one, as both are falsy. */
  datatype SourcePair = SourcePair(outputDot: Option<string>, inputText: Option<string>,
                                   source: MetaField, license: MetaField)

  /** An error pair with the metadata taken from its original; a licence of
      `None` is the `null` copied over. */
  datatype ErrorPair = ErrorPair(pair: CorrectionPair, id: string, source: string, license: Option<string>,
                                 contextSnippet: string, verificationStatus: string)

  /** `f"{original.get('source', 'unknown')}"`: a `null` source prints as "None". */
  function SourceText(f: MetaField): string {
    match f
    case Missing => "unknown"
    case Null => "None"
    case Text(s) => s
  }

  /** `original.get('license', 'synthetic-generated')`: a `null` licence is kept. */
  function LicenseOf(f: MetaField): Option<string> {
    match f
    case Missing => Some("synthetic-generated")
    case Null => None
    case Text(s) => Some(s)
  }

  /** The id of the pair made in round `i`. */
  function ErrorPairId(i: nat): string {
    "error_correction_" + PyStr.ZeroPad(i, 4)
  }

  /** The pair made in round `i` from original `o`. */
  function MakeErrorPair(i: nat, o: SourcePair, p: PairDraws): ErrorPair {
    ErrorPair(CorrectionPairOf(o.outputDot.GetOr(""), o.inputText, p), ErrorPairId(i), "synthetic_error_from_" + SourceText(o.source),
              LicenseOf(o.license), "Error correction variant of original pair", "passed_compiler")
  }

  /** The pairs made in the first `n` rounds: round `i` takes original
      `pick(i)` and skips it when its DOT text is empty. */
  function Augmented(originals: seq<SourcePair>, n: nat, pick: nat -> nat, draws: nat -> PairDraws): seq<ErrorPair>
    requires forall i :: 0 <= i < n ==> pick(i) < |originals|
    decreases n
  {
    if n == 0 then []
    else if originals[pick(n - 1)].outputDot.GetOr("") == [] then Augmented(originals, n - 1, pick, draws)
    else Augmented(originals, n - 1, pick, draws) + [MakeErrorPair(n - 1, originals[pick(n - 1)], draws(n - 1))]
  }

  /** Round `i` adds the variant of its pick, unless the pick has no DOT. */
  lemma AugmentedStep(originals: seq<SourcePair>, i: nat, pick: nat -> nat, draws: nat -> PairDraws)
    requires forall j :: 0 <= j < i + 1 ==> pick(j) < |originals|
    ensures Augmented(originals, i + 1, pick, draws)
            == Augmented(originals, i, pick, draws)
               + (if originals[pick(i)].outputDot.GetOr("") == [] then [] else [MakeErrorPair(i, originals[pick(i)], draws(i))])
  {
  }

  /** `augment_dataset_with_errors(original_pairs, num / den)` with `pick(i)`
      the `random.choice` of round `i` and `draws(i)` its other draws. */
  method AugmentDatasetWithErrors(originals: seq<SourcePair>, num: int, den: nat,
                                  pick: nat -> nat, draws: nat -> PairDraws) returns (pairs: seq<ErrorPair>)
    requires den > 0
    requires forall i :: 0 <= i < PyStr.ScaledInt(|originals|, num, den) ==> pick(i) < |originals| && ValidPairDraws(draws(i))
    ensures pairs == Augmented(originals, if PyStr.ScaledInt(|originals|, num, den) > 0 then PyStr.ScaledInt(|originals|, num, den) else 0, pick, draws)
  {
    var total := PyStr.ScaledInt(|originals|, num, den);
    pairs := [];
    if total <= 0 {
      return;
    }
    for i := 0 to total
      invariant pairs == Augmented(originals, i, pick, draws)
    {
      AugmentedStep(originals, i, pick, draws);
      var original := originals[pick(i)];
      var dot := original.outputDot.GetOr("");
      if dot == [] {
        continue;
      }
      var pair := CreateErrorCorrectionPair(dot, original.inputText, draws(i));
      var errorPair := ErrorPair(pair, ErrorPairId(i),
                                 "synthetic_error_from_" + SourceText(original.source),
                                 LicenseOf(original.license),
                                 "Error correction variant of original pair", "passed_compiler");
      pairs := pairs + [errorPair];
    }
  }

  /** The rounds before `n` that made a pair. */
  function Rounds(originals: seq<SourcePair>, n: nat, pick: nat -> nat): seq<nat>
    requires forall i :: 0 <= i < n ==> pick(i) < |originals|
    decreases n
  {
    if n == 0 then []
    else
      var prev := Rounds(originals, n - 1, pick);
      if originals[pick(n - 1)].outputDot.GetOr("") == [] then prev else prev + [n - 1]
  }

  /** The pair made in round `i` names that round in its id, has the DOT
      text of its original as its target, and is marked as compiled. */
  lemma MakeErrorPairFields(i: nat, o: SourcePair, p: PairDraws)
    ensures MakeErrorPair(i, o, p).id == ErrorPairId(i)
    ensures MakeErrorPair(i, o, p).pair.outputDot == o.outputDot.GetOr("")
    ensures MakeErrorPair(i, o, p).verificationStatus == "passed_compiler"
    ensures PyStr.StartsWith(MakeErrorPair(i, o, p).source, "synthetic_error_from_")
    ensures o.source.Missing? ==> MakeErrorPair(i, o, p).source == "synthetic_error_from_unknown"
    ensures o.source.Null? ==> MakeErrorPair(i, o, p).source == "synthetic_error_from_None"
    ensures o.license.Missing? ==> MakeErrorPair(i, o, p).license == Some("synthetic-generated")
    ensures MakeErrorPair(i, o, p).license.None? <==> o.license.Null?
    ensures o.license.Text? ==> MakeErrorPair(i, o, p).license == Some(o.license.s)
  {
    PyStr.StartsWithConcat("synthetic_error_from_", SourceText(o.source));
  }

  /** The pairs are those of the rounds `Rounds` lists, which increase and
      come before `n`; every pair has a non-empty target and is marked as
      passing the compiler. */
  lemma {:induction false} AugmentedRounds(originals: seq<SourcePair>, n: nat, pick: nat -> nat, draws: nat -> PairDraws)
    requires forall i :: 0 <= i < n ==> pick(i) < |originals|
    ensures var r := Augmented(originals, n, pick, draws);
            var rounds := Rounds(originals, n, pick);
            |rounds| == |r| <= n
            && (forall k :: 0 <= k < |r| ==> rounds[k] < n && r[k].id == ErrorPairId(rounds[k])
                                             && r[k].pair.outputDot != [] && r[k].verificationStatus == "passed_compiler")
            && (forall k, l :: 0 <= k < l < |r| ==> rounds[k] < rounds[l])
    decreases n
  {
    if n > 0 {
      AugmentedRounds(originals, n - 1, pick, draws);
      var o := originals[pick(n - 1)];
      MakeErrorPairFields(n - 1, o, draws(n - 1));
    }
  }

  /** At most one pair per round; every pair has a non-empty target, is
      marked as passing the compiler, and no two pairs share an id. */
  lemma AugmentedMeaning(originals: seq<SourcePair>, n: nat, pick: nat -> nat, draws: nat -> PairDraws)
    requires forall i :: 0 <= i < n ==> pick(i) < |originals|
    ensures var r := Augmented(originals, n, pick, draws);
            |r| <= n
            && (forall k :: 0 <= k < |r| ==> r[k].pair.outputDot != [] && r[k].verificationStatus == "passed_compiler")
            && (forall k, l :: 0 <= k < l < |r| ==> r[k].id != r[l].id)
  {
    AugmentedRounds(originals, n, pick, draws);
    var r := Augmented(originals, n, pick, draws);
    var rounds := Rounds(originals, n, pick);
    forall k, l | 0 <= k < l < |r| ensures r[k].id != r[l].id {
      if r[k].id == r[l].id {
        ErrorPairIdInjective(rounds[k], rounds[l]);
      }
    }
  }

  /** Different rounds give different ids. */
  lemma ErrorPairIdInjective(a: nat, b: nat)
    requires ErrorPairId(a) == ErrorPairId(b)
    ensures a == b
  {
    var p := "error_correction_";
    assert ErrorPairId(a)[|p|..] == PyStr.ZeroPad(a, 4);
    assert ErrorPairId(b)[|p|..] == PyStr.ZeroPad(b, 4);
    PyStr.ZeroPadInjective(a, b, 4);
  }
}
