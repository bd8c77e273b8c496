/** The four repairs the post-processing module checks itself against, each
    proved of the whole `postprocess_dot` pipeline, together with the facts
    about texts without marks that they rest on. */
module PostprocessCases {
  import opened Postprocess
  import PyStr
  import opened Wrappers

  /** No two '-' in a row. */
  predicate NoDoubleDash(s: string) {
    forall q :: 0 <= q && q + 1 < |s| ==> s[q] != '-' || s[q + 1] != '-'
  }

  /** A text holding "--" has two '-' in a row. */
  lemma DoubleDashFound(t: string)
    ensures PyStr.Contains(t, "--") ==> !NoDoubleDash(t)
  {
    var k := PyStr.Find(t, "--");
    if k >= 0 {
      assert t[k..][..2] == "--";
      assert t[k] == '-' && t[k + 1] == '-';
    }
  }

  /** A text whose lower-case form holds `<table` holds a '<'. */
  lemma TableNeedsAngle(t: string)
    ensures PyStr.Contains(PyStr.Lower(t), "<table") ==> '<' in t
  {
    var lowered := PyStr.Lower(t);
    var k := PyStr.Find(lowered, "<table");
    if k >= 0 {
      assert lowered[k..][..6] == "<table";
      assert PyStr.LowerChar(t[k]) == '<';
    }
  }

  /** A pattern whose first character a text lacks occurs in it zero times. */
  lemma {:induction false} CountAbsent(s: string, sub: string)
    requires sub != [] && sub[0] !in s
    ensures PyStr.Count(s, sub) == 0
    decreases |s|
  {
    if |s| >= |sub| {
      assert s[0] != sub[0];
      CountAbsent(s[1..], sub);
    }
  }

  /** Fixes 2 and 3 leave alone a text without a backslash and without
      "--". */
  lemma EscapesEdgesKeep(t: string)
    requires '\\' !in t && NoDoubleDash(t)
    ensures FixEdges(FixEscapes(t)) == t
  {
    FixesWithoutMarks(t);
    DoubleDashFound(t);
    FixEdgesMeaning(t);
  }

  /** One '{' and one '}': fix 4 leaves the text alone. */
  lemma OneBlockKeep(t: string, a: string, b: string, c: string)
    requires t == a + "{" + b + "}" + c
    requires '{' !in a && '{' !in b && '{' !in c && '}' !in a && '}' !in b && '}' !in c
    ensures FixBraces(t) == t
  {
    assert multiset(t) == multiset(a) + multiset("{") + multiset(b) + multiset("}") + multiset(c);
    CountIsOccurrences(t, '{');
    CountIsOccurrences(t, '}');
    FixBracesMeaning(t);
  }

  /** One '{' and no '}': fix 4 closes the block on a line of its own. */
  lemma OpenBlockCloses(t: string, a: string, b: string)
    requires t == a + "{" + b
    requires '{' !in a && '{' !in b && '}' !in a && '}' !in b
    ensures FixBraces(t) == t + "\n}"
  {
    assert multiset(t) == multiset(a) + multiset("{") + multiset(b);
    CountIsOccurrences(t, '{');
    CountIsOccurrences(t, '}');
    FixBracesMeaning(t);
    assert Repeat('}', 1) == "}";
  }

  /** No quote, backslash or '<': fix 5 and the HTML fix leave the text
      alone. */
  lemma UnquotedKeep(t: string)
    requires '"' !in t && '\\' !in t && '<' !in t
    ensures FixHtmlLabelErrors(FixQuotes(t)) == t
  {
    NoQuotes(t);
    assert FixQuotes(t) == t;
    TableNeedsAngle(t);
  }

  /** No quote and no backslash: the quote count is zero. */
  lemma NoQuotes(t: string)
    requires '"' !in t && '\\' !in t
    ensures QuoteCount(t) == 0
  {
    CountAbsent(t, "\"");
    CountAbsent(t, "\\\"");
  }

  /** Two quotes, no backslash and no '<': fix 5 and the HTML fix leave the
      text alone. */
  lemma QuotedKeep(t: string, a: string, b: string, c: string)
    requires t == a + "\"" + b + "\"" + c
    requires '"' !in a && '"' !in b && '"' !in c
    requires '\\' !in t && '<' !in t
    ensures FixHtmlLabelErrors(FixQuotes(t)) == t
  {
    EvenQuotes(t, a, b, c);
    assert FixQuotes(t) == t;
    TableNeedsAngle(t);
  }

  /** Two quotes and no backslash make an even quote count. */
  lemma EvenQuotes(t: string, a: string, b: string, c: string)
    requires t == a + "\"" + b + "\"" + c
    requires '"' !in a && '"' !in b && '"' !in c
    requires '\\' !in t
    ensures QuoteCount(t) == 2
  {
    TwoQuotes(t, a, b, c);
    CountAbsent(t, "\\\"");
  }

  /** A text built around two quotes holds two of them. */
  lemma TwoQuotes(t: string, a: string, b: string, c: string)
    requires t == a + "\"" + b + "\"" + c
    requires '"' !in a && '"' !in b && '"' !in c
    ensures PyStr.Count(t, "\"") == 2
  {
    assert multiset(t) == multiset(a) + multiset("\"") + multiset(b) + multiset("\"") + multiset(c);
    CountIsOccurrences(t, '"');
  }

  /** Fix 1 copies a text from `from` on when no backtick follows. */
  lemma BackticksNoneFrom(s: string, from: nat)
    requires from <= |s| && forall q :: from <= q < |s| ==> s[q] != '`'
    ensures SubFrom(s, from, BacktickAt, None) == s[from..]
  {
    forall k | from <= k < |s| ensures BacktickAt(s, k).None? {
      BacktickAtMeaning(s, k);
    }
    SubFromNoMatch(s, from, BacktickAt, None);
  }

  /** A match of fix 2 starts at the 'l' of `label="`. */
  lemma EscapeStartsLabel(s: string, i: nat)
    ensures EscapeAt(s, i).Some? ==> i < |s| && s[i] == 'l'
  {
    if EscapeAt(s, i).Some? {
      assert s[i..][..7] == "label=\"";
      assert s[i..][0] == 'l';
    }
  }

  /** Fix 2 matches nowhere between `from` and `to` when no 'l' is there. */
  lemma EscapesNoneBetween(s: string, from: nat, to: nat)
    requires from <= to <= |s| && forall q :: from <= q < to ==> s[q] != 'l'
    ensures forall k :: from <= k < to ==> EscapeAt(s, k).None?
  {
    forall k | from <= k < to ensures EscapeAt(s, k).None? {
      EscapeStartsLabel(s, k);
    }
  }

  /** The first half of fix 3 does not match at `i` when a character that is
      neither a word character, whitespace nor '-' comes at `stop` with no
      '-' before it. */
  lemma EdgeWordsStop(s: string, i: nat, stop: nat)
    requires i <= stop < |s| && !IsWordOrSpace(s[stop]) && s[stop] != '-'
    requires forall q :: i <= q < stop ==> s[q] != '-'
    ensures EdgeWordsAt(s, i).None?
  {
    if PyStr.IsWordChar(s[i]) {
      var a := RunEnd(s, i, PyStr.IsWordChar);
      assert a <= stop;
      var b := SpaceEnd(s, a);
      assert b <= stop;
      EdgeWordsNoDash(s, i);
    }
  }

  /** The first half of fix 3 does not match at a word followed by
      whitespace and something other than '-'. */
  lemma EdgeWordsNoDash(s: string, i: nat)
    requires i < |s| && PyStr.IsWordChar(s[i])
    requires var b := SpaceEnd(s, RunEnd(s, i, PyStr.IsWordChar)); b == |s| || s[b] != '-'
    ensures EdgeWordsAt(s, i).None?
  {
    var b := SpaceEnd(s, RunEnd(s, i, PyStr.IsWordChar));
    if b < |s| {
      assert s[b..][0] == s[b];
    }
    assert !PyStr.StartsWith(s[b..], "--");
  }

  /** The second half of fix 3 copies a text without quotes. */
  lemma QuotedEdgesNone(s: string)
    requires '"' !in s
    ensures SubFrom(s, 0, EdgeQuotedAt, None) == s
  {
    forall k | 0 <= k < |s| ensures EdgeQuotedAt(s, k).None? {
      assert s[k] != '"';
    }
    SubFromNoMatch(s, 0, EdgeQuotedAt, None);
    assert s[0..] == s;
  }

  // ---------------------------------------------------------------------
  // Test 1: backtick replacement

  /** Fix 1 on a digraph whose name stands in backticks right after the
      keyword: the name is put in double quotes and the rest is copied. */
  lemma BacktickNameQuoted(s: string, name: string, rest: string)
    requires s == "digraph `" + name + "`" + rest
    requires name != [] && '`' !in name && '`' !in rest
    ensures FixBackticks(s) == "digraph \"" + name + "\"" + rest
  {
    var c := 9 + |name|;
    BacktickNameParts(s, name, rest);
    BacktickSpanMatch(s, 0, 8, c);
    BackticksNoneFrom(s, c + 1);
  }

  /** Where the name in backticks of such a digraph stands. */
  lemma BacktickNameParts(s: string, name: string, rest: string)
    requires s == "digraph `" + name + "`" + rest
    requires name != [] && '`' !in name && '`' !in rest
    ensures var c := 9 + |name|;
            BacktickSpan(s, 0, 8, c) && GraphKeyword(s, 0) == 7
            && s[0..7] + " \"" + s[9..c] + "\"" == "digraph \"" + name + "\""
            && s[c + 1..] == rest && forall q :: c + 1 <= q < |s| ==> s[q] != '`'
  {
    var c := 9 + |name|;
    assert s[..7] == "digraph";
    assert s[7] == ' ' && s[8] == '`' && s[c] == '`';
    assert forall j :: 8 < j < c ==> s[j] == name[j - 9];
    assert s[9..c] == name;
    assert s[c + 1..] == rest;
  }

  lemma BacktickCaseInput()
    ensures "digraph `transitions` { a -> b; }" == "digraph `" + "transitions" + "`" + " { a -> b; }"
  {
  }

  lemma BacktickCaseQuoted()
    ensures "digraph \"transitions\" { a -> b; }" == "digraph \"" + "transitions" + "\"" + " { a -> b; }"
  {
  }

  /** Fix 1 on test 1: the graph name between backticks is put in double
      quotes. */
  lemma BacktickCaseFix()
    ensures FixBackticks("digraph `transitions` { a -> b; }") == "digraph \"transitions\" { a -> b; }"
  {
    BacktickCaseInput();
    BacktickCaseQuoted();
    BacktickNameQuoted("digraph `transitions` { a -> b; }", "transitions", " { a -> b; }");
  }

  lemma BacktickCaseMarks()
    ensures '\\' !in "digraph \"transitions\" { a -> b; }" && NoDoubleDash("digraph \"transitions\" { a -> b; }") && '<' !in "digraph \"transitions\" { a -> b; }"
  {
  }

  /** Fixes 2 and 3 on test 1 change nothing. */
  lemma BacktickCaseEdges()
    ensures FixEdges(FixEscapes("digraph \"transitions\" { a -> b; }")) == "digraph \"transitions\" { a -> b; }"
  {
    BacktickCaseMarks();
    EscapesEdgesKeep("digraph \"transitions\" { a -> b; }");
  }

  lemma BacktickCaseBlock()
    ensures "digraph \"transitions\" { a -> b; }" == "digraph \"transitions\" " + "{" + " a -> b; " + "}" + ""
  {
  }

  /** Fix 4 on test 1 changes nothing. */
  lemma BacktickCaseBraces()
    ensures FixBraces("digraph \"transitions\" { a -> b; }") == "digraph \"transitions\" { a -> b; }"
  {
    BacktickCaseBlock();
    OneBlockKeep("digraph \"transitions\" { a -> b; }", "digraph \"transitions\" ", " a -> b; ", "");
  }

  /** Fix 5 and the HTML fix on test 1 change nothing. */
  lemma BacktickCaseQuotes()
    ensures FixHtmlLabelErrors(FixQuotes("digraph \"transitions\" { a -> b; }")) == "digraph \"transitions\" { a -> b; }"
  {
    BacktickCaseMarks();
    BacktickCaseQuoted();
    QuotedKeep("digraph \"transitions\" { a -> b; }", "digraph ", "transitions", " { a -> b; }");
  }

  /** `digraph `transitions` { a -> b; }` has its graph name put in double
      quotes. */
  lemma BacktickReplacementCase()
    ensures PostprocessDot("digraph `transitions` { a -> b; }") == "digraph \"transitions\" { a -> b; }"
  {
    calc {
      PostprocessDot("digraph `transitions` { a -> b; }");
    ==
      FixHtmlLabelErrors(FixCommonSyntaxErrors("digraph `transitions` { a -> b; }"));
    ==
      FixHtmlLabelErrors(FixQuotes(FixBraces(FixEdges(FixEscapes(FixBackticks("digraph `transitions` { a -> b; }"))))));
    == { BacktickCaseFix(); }
      FixHtmlLabelErrors(FixQuotes(FixBraces(FixEdges(FixEscapes("digraph \"transitions\" { a -> b; }")))));
    == { BacktickCaseEdges(); }
      FixHtmlLabelErrors(FixQuotes(FixBraces("digraph \"transitions\" { a -> b; }")));
    == { BacktickCaseBraces(); }
      FixHtmlLabelErrors(FixQuotes("digraph \"transitions\" { a -> b; }"));
    == { BacktickCaseQuotes(); }
      "digraph \"transitions\" { a -> b; }";
    }
  }

  // ---------------------------------------------------------------------
  // Test 2: edge operator

  /** The first half of fix 3 matches nowhere before `start` when a
      character that is neither a word character, whitespace nor '-' comes at
      `stop`, no '-' comes before it, and only whitespace comes after it. */
  lemma EdgeWordsNoneBefore(s: string, stop: nat, start: nat)
    requires stop < start <= |s| && !IsWordOrSpace(s[stop]) && s[stop] != '-'
    requires forall q :: 0 <= q < stop ==> s[q] != '-'
    requires forall q :: stop < q < start ==> PyStr.IsSpace(s[q])
    ensures forall k :: 0 <= k < start ==> EdgeWordsAt(s, k).None?
  {
    forall k | 0 <= k < start ensures EdgeWordsAt(s, k).None? {
      if k <= stop {
        EdgeWordsStop(s, k, stop);
      }
    }
  }

  /** The first half of fix 3 at a one-letter node, a space, "--", a space
      and a one-letter node: the two nodes joined by " -> ". */
  lemma EdgeWordsArrowAt(s: string, i: nat)
    requires i + 6 <= |s| && PyStr.IsWordChar(s[i]) && PyStr.IsWordChar(s[i + 5])
    requires s[i + 1] == ' ' && s[i + 2] == '-' && s[i + 3] == '-' && s[i + 4] == ' '
    requires i + 6 < |s| ==> !PyStr.IsWordChar(s[i + 6])
    ensures EdgeWordsAt(s, i) == Some(Match(i + 6, [s[i]] + " -> " + [s[i + 5]]))
  {
    EdgeRuns(s, i);
    EdgeWordsAtParts(s, i, i + 1, i + 6);
    assert s[i..i + 1] == [s[i]] && s[i + 5..i + 6] == [s[i + 5]];
  }

  /** Where the runs of a one-letter edge end. */
  lemma EdgeRuns(s: string, i: nat)
    requires i + 6 <= |s| && PyStr.IsWordChar(s[i]) && PyStr.IsWordChar(s[i + 5])
    requires s[i + 1] == ' ' && s[i + 2] == '-' && s[i + 3] == '-' && s[i + 4] == ' '
    requires i + 6 < |s| ==> !PyStr.IsWordChar(s[i + 6])
    ensures RunEnd(s, i, PyStr.IsWordChar) == i + 1 && SpaceEnd(s, i + 1) == i + 2
    ensures PyStr.StartsWith(s[i + 2..], "--") && SpaceEnd(s, i + 4) == i + 5
    ensures RunEnd(s, i + 5, PyStr.IsWordChar) == i + 6
  {
    RunEndAt(s, i, i + 1, PyStr.IsWordChar);
    OneSpace(s, i + 1);
    assert s[i + 2..][..2] == "--";
    OneSpace(s, i + 4);
    RunEndAt(s, i + 5, i + 6, PyStr.IsWordChar);
  }

  /** The first half of fix 3 at `i`, once its word runs and the "--" between
      them are found. */
  lemma EdgeWordsAtParts(s: string, i: nat, a: nat, d: nat)
    requires i < a && a + 4 < d <= |s| && PyStr.IsWordChar(s[i])
    requires RunEnd(s, i, PyStr.IsWordChar) == a && SpaceEnd(s, a) == a + 1
    requires PyStr.StartsWith(s[a + 1..], "--") && SpaceEnd(s, a + 3) == a + 4
    requires RunEnd(s, a + 4, PyStr.IsWordChar) == d
    ensures EdgeWordsAt(s, i) == Some(Match(d, s[i..a] + " -> " + s[a + 4..d]))
  {
  }

  /** A run of characters with property `p` that ends where `p` fails. */
  lemma RunEndAt(s: string, i: nat, e: nat, p: char -> bool)
    requires i <= e <= |s|
    requires forall j :: i <= j < e ==> p(s[j])
    requires e < |s| ==> !p(s[e])
    ensures RunEnd(s, i, p) == e
  {
  }

  /** A single space followed by a character that is not whitespace. */
  lemma OneSpace(s: string, a: nat)
    requires a + 1 < |s| && s[a] == ' ' && !PyStr.IsSpace(s[a + 1])
    ensures SpaceEnd(s, a) == a + 1
  {
  }

  /** The first half of fix 3 matches nowhere from `from` on when no word
      character is there. */
  lemma EdgeWordsNoneFrom(s: string, from: nat)
    requires from <= |s| && forall q :: from <= q < |s| ==> !PyStr.IsWordChar(s[q])
    ensures SubFrom(s, from, EdgeWordsAt, None) == s[from..]
  {
    SubFromNoMatch(s, from, EdgeWordsAt, None);
  }

  /** The first half of fix 3 on a text holding one `x -- y` edge between
      one-letter nodes at `i`, after a character at `stop` that is not a word
      character nor '-' and then whitespace: the edge becomes `x -> y`. */
  lemma EdgeWordsOnce(s: string, stop: nat, i: nat)
    requires stop < i && i + 6 <= |s| && !IsWordOrSpace(s[stop]) && s[stop] != '-'
    requires forall q :: 0 <= q < stop ==> s[q] != '-'
    requires forall q :: stop < q < i ==> PyStr.IsSpace(s[q])
    requires PyStr.IsWordChar(s[i]) && PyStr.IsWordChar(s[i + 5])
    requires s[i + 1] == ' ' && s[i + 2] == '-' && s[i + 3] == '-' && s[i + 4] == ' '
    requires forall q :: i + 6 <= q < |s| ==> !PyStr.IsWordChar(s[q])
    ensures SubFrom(s, 0, EdgeWordsAt, None) == s[..i] + ([s[i]] + " -> " + [s[i + 5]] + s[i + 6..])
  {
    EdgeWordsOnceBefore(s, stop, i);
    EdgeWordsOnceAt(s, i);
  }

  /** Up to the edge, the first half of fix 3 copies the text. */
  lemma EdgeWordsOnceBefore(s: string, stop: nat, i: nat)
    requires stop < i <= |s| && !IsWordOrSpace(s[stop]) && s[stop] != '-'
    requires forall q :: 0 <= q < stop ==> s[q] != '-'
    requires forall q :: stop < q < i ==> PyStr.IsSpace(s[q])
    ensures SubFrom(s, 0, EdgeWordsAt, None) == s[..i] + SubFrom(s, i, EdgeWordsAt, None)
  {
    EdgeWordsNoneBefore(s, stop, i);
    SubFromCopies(s, 0, i, EdgeWordsAt, None);
    assert s[0..i] == s[..i];
  }

  /** From the edge on, the first half of fix 3 rewrites the edge and copies
      the rest. */
  lemma EdgeWordsOnceAt(s: string, i: nat)
    requires i + 6 <= |s| && PyStr.IsWordChar(s[i]) && PyStr.IsWordChar(s[i + 5])
    requires s[i + 1] == ' ' && s[i + 2] == '-' && s[i + 3] == '-' && s[i + 4] == ' '
    requires forall q :: i + 6 <= q < |s| ==> !PyStr.IsWordChar(s[q])
    ensures SubFrom(s, i, EdgeWordsAt, None) == [s[i]] + " -> " + [s[i + 5]] + s[i + 6..]
  {
    EdgeWordsArrowAt(s, i);
    SubFromHit(s, i, EdgeWordsAt, i + 6, [s[i]] + " -> " + [s[i + 5]]);
    EdgeWordsNoneFrom(s, i + 6);
  }

  /** The parts of a text built around one `x -- y` edge. */
  lemma EdgeSplit(s: string, pre: string, x: char, y: char, post: string)
    requires s == pre + [x] + " -- " + [y] + post
    ensures var i := |pre|; i + 6 <= |s| && s[..i] == pre && s[i + 6..] == post
    ensures var i := |pre|; s[i] == x && s[i + 1] == ' ' && s[i + 2] == '-' && s[i + 3] == '-' && s[i + 4] == ' ' && s[i + 5] == y
    ensures forall q :: 0 <= q < |pre| ==> s[q] == pre[q]
    ensures forall q :: |pre| + 6 <= q < |s| ==> s[q] == post[q - |pre| - 6]
  {
  }

  lemma EdgeCaseInput()
    ensures "digraph G { a -- b; }" == "digraph G { " + ['a'] + " -- " + ['b'] + "; }"
  {
  }

  lemma EdgeCaseOutput()
    ensures "digraph G { a -> b; }" == "digraph G { " + (['a'] + " -> " + ['b'] + "; }")
  {
  }

  lemma EdgeCasePieces()
    ensures var pre := "digraph G { ";
            |pre| == 12 && pre[10] == '{' && (forall q :: 0 <= q < 10 ==> pre[q] != '-') && PyStr.IsSpace(pre[11])
    ensures var post := "; }";
            forall q :: 0 <= q < |post| ==> !PyStr.IsWordChar(post[q])
    ensures PyStr.IsWordChar('a') && PyStr.IsWordChar('b')
  {
  }

  /** The first half of fix 3 on test 2 turns `a -- b` into `a -> b`. */
  lemma EdgeCaseWords()
    ensures SubFrom("digraph G { a -- b; }", 0, EdgeWordsAt, None) == "digraph G { a -> b; }"
  {
    var s := "digraph G { a -- b; }";
    EdgeCaseInput();
    EdgeCaseOutput();
    EdgeCasePieces();
    EdgeSplit(s, "digraph G { ", 'a', 'b', "; }");
    EdgeWordsOnce(s, 10, 12);
  }

  lemma EdgeCaseMarks()
    ensures '`' !in "digraph G { a -- b; }" && '\\' !in "digraph G { a -- b; }"
  {
  }

  lemma EdgeCaseOutMarks()
    ensures '"' !in "digraph G { a -> b; }" && '\\' !in "digraph G { a -> b; }" && '<' !in "digraph G { a -> b; }"
  {
  }

  lemma EdgeCaseDigraph()
    ensures PyStr.StartsWith(PyStr.Strip("digraph G { a -- b; }"), "digraph")
  {
    assert PyStr.RStrip("digraph G { a -- b; }") == "digraph G { a -- b; }";
    assert PyStr.LStrip("digraph G { a -- b; }") == "digraph G { a -- b; }";
  }

  /** Fixes 1 to 3 on test 2: only the edge changes. */
  lemma EdgeCaseEarlyFixes()
    ensures FixEdges(FixEscapes(FixBackticks("digraph G { a -- b; }"))) == "digraph G { a -> b; }"
  {
    EdgeCaseMarks();
    FixesWithoutMarks("digraph G { a -- b; }");
    EdgeCaseDigraph();
    EdgeCaseWords();
    EdgeCaseOutMarks();
    QuotedEdgesNone("digraph G { a -> b; }");
  }

  lemma EdgeCaseBlock()
    ensures "digraph G { a -> b; }" == "digraph G " + "{" + " a -> b; " + "}" + ""
  {
  }

  /** Fix 4 on test 2 changes nothing. */
  lemma EdgeCaseBraces()
    ensures FixBraces("digraph G { a -> b; }") == "digraph G { a -> b; }"
  {
    EdgeCaseBlock();
    OneBlockKeep("digraph G { a -> b; }", "digraph G ", " a -> b; ", "");
  }

  /** Fix 5 and the HTML fix on test 2 change nothing. */
  lemma EdgeCaseQuotes()
    ensures FixHtmlLabelErrors(FixQuotes("digraph G { a -> b; }")) == "digraph G { a -> b; }"
  {
    EdgeCaseOutMarks();
    UnquotedKeep("digraph G { a -> b; }");
  }

  /** `digraph G { a -- b; }` has its edge operator turned into `->`. */
  lemma EdgeOperatorCase()
    ensures PostprocessDot("digraph G { a -- b; }") == "digraph G { a -> b; }"
  {
    calc {
      PostprocessDot("digraph G { a -- b; }");
    ==
      FixHtmlLabelErrors(FixCommonSyntaxErrors("digraph G { a -- b; }"));
    ==
      FixHtmlLabelErrors(FixQuotes(FixBraces(FixEdges(FixEscapes(FixBackticks("digraph G { a -- b; }"))))));
    == { EdgeCaseEarlyFixes(); }
      FixHtmlLabelErrors(FixQuotes(FixBraces("digraph G { a -> b; }")));
    == { EdgeCaseBraces(); }
      FixHtmlLabelErrors(FixQuotes("digraph G { a -> b; }"));
    == { EdgeCaseQuotes(); }
      "digraph G { a -> b; }";
    }
  }

  // ---------------------------------------------------------------------
  // Test 3: missing brace

  lemma MissingBraceMarks()
    ensures '`' !in "digraph G { a -> b;" && '\\' !in "digraph G { a -> b;" && NoDoubleDash("digraph G { a -> b;")
  {
  }

  /** Fixes 1 to 3 on test 3 change nothing. */
  lemma MissingBraceEarlyFixes()
    ensures FixEdges(FixEscapes(FixBackticks("digraph G { a -> b;"))) == "digraph G { a -> b;"
  {
    MissingBraceMarks();
    FixesWithoutMarks("digraph G { a -> b;");
    EscapesEdgesKeep("digraph G { a -> b;");
  }

  lemma MissingBraceBlock()
    ensures "digraph G { a -> b;" == "digraph G " + "{" + " a -> b;"
    ensures "digraph G { a -> b;" + "\n}" == "digraph G { a -> b;\n}"
  {
  }

  /** Fix 4 on test 3 closes the block on a line of its own. */
  lemma MissingBraceBraces()
    ensures FixBraces("digraph G { a -> b;") == "digraph G { a -> b;\n}"
  {
    MissingBraceBlock();
    OpenBlockCloses("digraph G { a -> b;", "digraph G ", " a -> b;");
  }

  lemma MissingBraceOutMarks()
    ensures '"' !in "digraph G { a -> b;\n}" && '\\' !in "digraph G { a -> b;\n}" && '<' !in "digraph G { a -> b;\n}"
  {
  }

  /** Fix 5 and the HTML fix on test 3 change nothing. */
  lemma MissingBraceQuotes()
    ensures FixHtmlLabelErrors(FixQuotes("digraph G { a -> b;\n}")) == "digraph G { a -> b;\n}"
  {
    MissingBraceOutMarks();
    UnquotedKeep("digraph G { a -> b;\n}");
  }

  /** `digraph G { a -> b;` gains its closing brace on a line of its own. */
  lemma MissingBraceCase()
    ensures PostprocessDot("digraph G { a -> b;") == "digraph G { a -> b;\n}"
  {
    calc {
      PostprocessDot("digraph G { a -> b;");
    ==
      FixHtmlLabelErrors(FixCommonSyntaxErrors("digraph G { a -> b;"));
    ==
      FixHtmlLabelErrors(FixQuotes(FixBraces(FixEdges(FixEscapes(FixBackticks("digraph G { a -> b;"))))));
    == { MissingBraceEarlyFixes(); }
      FixHtmlLabelErrors(FixQuotes(FixBraces("digraph G { a -> b;")));
    == { MissingBraceBraces(); }
      FixHtmlLabelErrors(FixQuotes("digraph G { a -> b;\n}"));
    == { MissingBraceQuotes(); }
      "digraph G { a -> b;\n}";
    }
  }

  // ---------------------------------------------------------------------
  // Test 4: escape sequence

  /** Up to `i`, where no 'l' comes before, fix 2 copies the text. */
  lemma EscapeOnceBefore(s: string, i: nat)
    requires i <= |s| && forall q :: 0 <= q < i ==> s[q] != 'l'
    ensures FixEscapes(s) == s[..i] + SubFrom(s, i, EscapeAt, None)
  {
    EscapesNoneBetween(s, 0, i);
    SubFromCopies(s, 0, i, EscapeAt, None);
    assert s[0..i] == s[..i];
  }

  /** From a match of fix 2 on, with no 'l' after it, fix 2 puts in the
      replacement and copies the rest. */
  lemma EscapeOnceAt(s: string, i: nat, j: nat)
    requires i < j && j + 3 <= |s| && EscapeAt(s, i) == Some(Match(j + 3, s[i..j] + "\""))
    requires forall q :: j + 3 <= q < |s| ==> s[q] != 'l'
    ensures SubFrom(s, i, EscapeAt, None) == s[i..j] + "\"" + s[j + 3..]
  {
    SubFromHit(s, i, EscapeAt, j + 3, s[i..j] + "\"");
    EscapesNoneFrom(s, j + 3);
  }

  /** Fix 2 copies a text from `from` on when no 'l' is there. */
  lemma EscapesNoneFrom(s: string, from: nat)
    requires from <= |s| && forall q :: from <= q < |s| ==> s[q] != 'l'
    ensures SubFrom(s, from, EscapeAt, None) == s[from..]
  {
    EscapesNoneBetween(s, from, |s|);
    SubFromNoMatch(s, from, EscapeAt, None);
  }

  /** The parts of a text holding one label that ends in `\l`. */
  lemma EscapeSplit(s: string, pre: string, body: string, post: string)
    requires s == pre + "label=\"" + body + "\\l\"" + post
    ensures var i := |pre|; var j := i + 7 + |body|;
            j + 3 <= |s| && s[..i] == pre && s[i..j] == "label=\"" + body && s[j + 3..] == post
            && PyStr.StartsWith(s[i..], "label=\"") && s[j] == '\\' && s[j + 1] == 'l' && s[j + 2] == '"'
    ensures forall q :: 0 <= q < |pre| ==> s[q] == pre[q]
    ensures forall q :: |pre| + 7 <= q < |pre| + 7 + |body| ==> s[q] == body[q - |pre| - 7]
    ensures forall q :: |pre| + 10 + |body| <= q < |s| ==> s[q] == post[q - |pre| - 10 - |body|]
  {
    var i := |pre|;
    assert s[i..][..7] == "label=\"";
  }

  /** Fix 2 on a text holding one label that ends in `\l` right before its
      quote, with no other 'l' outside the label and no quote inside it: the
      `\l` is dropped. */
  lemma EscapeLabelOnce(s: string, pre: string, body: string, post: string)
    requires s == pre + "label=\"" + body + "\\l\"" + post
    requires 'l' !in pre && '"' !in body && 'l' !in post
    ensures FixEscapes(s) == pre + ("label=\"" + body + "\"" + post)
  {
    var i := |pre|;
    var j := i + 7 + |body|;
    EscapeSplit(s, pre, body, post);
    EscapeLabelMatch(s, pre, body, post);
    EscapeOnce(s, i, j);
  }

  /** Fix 2 on a text with one match, from `i` to `j + 3`, and no 'l'
      outside it. */
  lemma EscapeOnce(s: string, i: nat, j: nat)
    requires i < j && j + 3 <= |s| && EscapeAt(s, i) == Some(Match(j + 3, s[i..j] + "\""))
    requires forall q :: 0 <= q < i ==> s[q] != 'l'
    requires forall q :: j + 3 <= q < |s| ==> s[q] != 'l'
    ensures FixEscapes(s) == s[..i] + (s[i..j] + "\"" + s[j + 3..])
  {
    EscapeOnceBefore(s, i);
    EscapeOnceAt(s, i, j);
  }

  /** Fix 2 matches at such a label and drops its `\l`. */
  lemma EscapeLabelMatch(s: string, pre: string, body: string, post: string)
    requires s == pre + "label=\"" + body + "\\l\"" + post
    requires '"' !in body
    ensures var i := |pre|; var j := i + 7 + |body|;
            j + 3 <= |s| && EscapeAt(s, i) == Some(Match(j + 3, s[i..j] + "\""))
  {
    var i := |pre|;
    var j := i + 7 + |body|;
    EscapeSplit(s, pre, body, post);
    assert EscapeSpan(s, i, j, j + 2);
    EscapeSpanMatch(s, i, j, j + 2);
  }

  lemma EscapeCaseInput()
    ensures "digraph G { a [label=\"test\\l\"]; }" == "digraph G { a [" + "label=\"" + "test" + "\\l\"" + "]; }"
  {
  }

  lemma EscapeCaseOutput()
    ensures "digraph G { a [label=\"test\"]; }" == "digraph G { a [" + ("label=\"" + "test" + "\"" + "]; }")
  {
  }

  lemma EscapeCasePieces()
    ensures 'l' !in "digraph G { a [" && '"' !in "test" && 'l' !in "]; }"
  {
  }

  /** Fix 2 on test 4 drops the `\l` at the end of the label. */
  lemma EscapeCaseEscapes()
    ensures FixEscapes("digraph G { a [label=\"test\\l\"]; }") == "digraph G { a [label=\"test\"]; }"
  {
    EscapeCaseInput();
    EscapeCaseOutput();
    EscapeCasePieces();
    EscapeLabelOnce("digraph G { a [label=\"test\\l\"]; }", "digraph G { a [", "test", "]; }");
  }

  lemma EscapeCaseMarks()
    ensures '`' !in "digraph G { a [label=\"test\\l\"]; }"
  {
  }

  lemma EscapeCaseOutMarks()
    ensures NoDoubleDash("digraph G { a [label=\"test\"]; }") && '\\' !in "digraph G { a [label=\"test\"]; }" && '<' !in "digraph G { a [label=\"test\"]; }"
  {
  }

  /** Fixes 1 to 3 on test 4: only the escape is dropped. */
  lemma EscapeCaseEarlyFixes()
    ensures FixEdges(FixEscapes(FixBackticks("digraph G { a [label=\"test\\l\"]; }"))) == "digraph G { a [label=\"test\"]; }"
  {
    EscapeCaseMarks();
    FixesWithoutMarks("digraph G { a [label=\"test\\l\"]; }");
    EscapeCaseEscapes();
    EscapeCaseOutMarks();
    DoubleDashFound("digraph G { a [label=\"test\"]; }");
    FixEdgesMeaning("digraph G { a [label=\"test\"]; }");
  }

  lemma EscapeCaseBlock()
    ensures "digraph G { a [label=\"test\"]; }" == "digraph G " + "{" + " a [label=\"test\"]; " + "}" + ""
    ensures "digraph G { a [label=\"test\"]; }" == "digraph G { a [label=" + "\"" + "test" + "\"" + "]; }"
  {
  }

  /** Fix 4 on test 4 changes nothing. */
  lemma EscapeCaseBraces()
    ensures FixBraces("digraph G { a [label=\"test\"]; }") == "digraph G { a [label=\"test\"]; }"
  {
    EscapeCaseBlock();
    OneBlockKeep("digraph G { a [label=\"test\"]; }", "digraph G ", " a [label=\"test\"]; ", "");
  }

  /** Fix 5 and the HTML fix on test 4 change nothing. */
  lemma EscapeCaseQuotes()
    ensures FixHtmlLabelErrors(FixQuotes("digraph G { a [label=\"test\"]; }")) == "digraph G { a [label=\"test\"]; }"
  {
    EscapeCaseBlock();
    EscapeCaseOutMarks();
    QuotedKeep("digraph G { a [label=\"test\"]; }", "digraph G { a [label=", "test", "]; }");
  }

  /** `digraph G { a [label="test\l"]; }` loses the `\l` at the end of its
      label. */
  lemma EscapeSequenceCase()
    ensures PostprocessDot("digraph G { a [label=\"test\\l\"]; }") == "digraph G { a [label=\"test\"]; }"
  {
    calc {
      PostprocessDot("digraph G { a [label=\"test\\l\"]; }");
    ==
      FixHtmlLabelErrors(FixCommonSyntaxErrors("digraph G { a [label=\"test\\l\"]; }"));
    ==
      FixHtmlLabelErrors(FixQuotes(FixBraces(FixEdges(FixEscapes(FixBackticks("digraph G { a [label=\"test\\l\"]; }"))))));
    == { EscapeCaseEarlyFixes(); }
      FixHtmlLabelErrors(FixQuotes(FixBraces("digraph G { a [label=\"test\"]; }")));
    == { EscapeCaseBraces(); }
      FixHtmlLabelErrors(FixQuotes("digraph G { a [label=\"test\"]; }"));
    == { EscapeCaseQuotes(); }
      "digraph G { a [label=\"test\"]; }";
    }
  }
}
