/** Natural-language descriptions of state machines taken from Python source:
    a module's docstring, cleaned of separator lines and surplus whitespace,
    and a one-sentence description built from the `State(...)` assignments in
    its class bodies. The Python parser is not part of this model: a module
    arrives as its docstring, and a parsed tree as its class bodies. */
module NlExtractor {
  import opened Wrappers
  import PyStr
  import Lists

  /** A line made only of '-' and '=' once stripped (a heading underline). */
  predicate IsSeparator(line: string) {
    forall i :: 0 <= i < |PyStr.Strip(line)| ==> PyStr.Strip(line)[i] in "-="
  }

  /** A docstring line that survives cleanup: not blank and not a separator. */
  predicate KeepLine(line: string) {
    PyStr.Strip(line) != [] && !IsSeparator(line)
  }

  /** The stripped lines that survive cleanup, in order. */
  function CleanedLines(lines: seq<string>): seq<string> {
    Lists.Select(lines, KeepLine, PyStr.Strip)
  }

  /** `' '.join(s.split())`: whitespace runs collapsed to one space, none at
      either end. */
  function Collapse(s: string): string {
    PyStr.Join(" ", PyStr.Words(s))
  }

  /** The docstring cleanup in `extract_module_docstring`: the kept lines,
      stripped and joined with spaces, with the whitespace then collapsed. */
  method CleanDocstring(docstring: string) returns (cleaned: string)
    ensures cleaned == Collapse(PyStr.Join(" ", CleanedLines(PyStr.Split(docstring, "\n"))))
  {
    var lines := PyStr.Split(docstring, "\n");
    var cleanedLines: seq<string> := [];
    for i := 0 to |lines|
      invariant cleanedLines == CleanedLines(lines[..i])
    {
      assert lines[..i + 1][..i] == lines[..i];
      var line := lines[i];
      if PyStr.Strip(line) != [] && !IsSeparator(line) {
        cleanedLines := cleanedLines + [PyStr.Strip(line)];
      }
    }
    assert lines[..|lines|] == lines;
    cleaned := PyStr.Join(" ", cleanedLines);
    cleaned := Collapse(cleaned);
  }

  /** A module file as the extractor sees it: unreadable or unparsable, or
      parsed with the docstring `ast.get_docstring` returns (if any). */
  datatype ModuleFile = Unparsable | Parsed(docstring: Option<string>)

  /** `extract_module_docstring(file_path)`: `None` for a file that cannot be
      read or parsed and for a missing or empty docstring, otherwise the
      cleaned docstring. */
  method ExtractModuleDocstring(file: ModuleFile) returns (r: Option<string>)
    ensures r.None? <==> file.Unparsable? || file.docstring.None? || file.docstring.value == []
    ensures r.Some? ==> r.value == Collapse(PyStr.Join(" ", CleanedLines(PyStr.Split(file.docstring.value, "\n"))))
  {
    if file.Unparsable? || file.docstring.None? || file.docstring.value == [] {
      return None;
    }
    var cleaned := CleanDocstring(file.docstring.value);
    return Some(cleaned);
  }

  /** A run of words joined by single spaces: no whitespace but those
      spaces, none at either end and never two in a row. */
  predicate Normal(s: string) {
    (forall i :: 0 <= i < |s| && PyStr.IsSpace(s[i]) ==> s[i] == ' ')
    && (s != [] ==> s[0] != ' ' && s[|s| - 1] != ' ')
    && (forall i :: 0 <= i < |s| - 1 ==> !(s[i] == ' ' && s[i + 1] == ' '))
  }

  /** Words joined by single spaces form a normal string. */
  lemma {:induction false} JoinedWordsNormal(ws: seq<string>)
    requires forall i :: 0 <= i < |ws| ==> PyStr.IsWord(ws[i])
    ensures Normal(PyStr.Join(" ", ws))
    decreases |ws|
  {
    if |ws| > 1 {
      var w := ws[0];
      var t := PyStr.Join(" ", ws[1..]);
      JoinedWordsNormal(ws[1..]);
      JoinNonEmpty(ws[1..]);
      var s := w + " " + t;
      assert PyStr.Join(" ", ws) == s;
      forall i | 0 <= i < |s| - 1 ensures !(s[i] == ' ' && s[i + 1] == ' ') {
        if i < |w| - 1 {
          assert s[i] == w[i];
        } else if i == |w| - 1 {
          assert s[i] == w[i];
        } else if i == |w| {
          assert s[i + 1] == t[0];
        } else {
          assert s[i] == t[i - |w| - 1] && s[i + 1] == t[i - |w|];
        }
      }
      forall i | 0 <= i < |s| && PyStr.IsSpace(s[i]) ensures s[i] == ' ' {
        if i > |w| {
          assert s[i] == t[i - |w| - 1];
        }
      }
      assert s[|s| - 1] == t[|t| - 1];
    } else if |ws| == 1 {
      assert PyStr.Join(" ", ws) == ws[0];
    }
  }

  lemma JoinNonEmpty(ws: seq<string>)
    requires ws != [] && PyStr.IsWord(ws[0])
    ensures PyStr.Join(" ", ws) != [] && PyStr.Join(" ", ws)[0] == ws[0][0]
  {
  }

  /** Cleanup leaves single spaces between words and nothing at either end. */
  lemma CollapseNormal(s: string)
    ensures Normal(Collapse(s))
  {
    PyStr.WordsHaveNoSpace(s);
    JoinedWordsNormal(PyStr.Words(s));
  }

  /** Leading whitespace does not change the words. */
  lemma WordsAfterSpace(c: char, s: string)
    requires PyStr.IsSpace(c)
    ensures PyStr.Words([c] + s) == PyStr.Words(s)
  {
    assert ([c] + s)[1..] == s;
  }

  /** A word followed by a space and more text is the first word. */
  lemma WordsOfJoin(w: string, rest: string)
    requires PyStr.IsWord(w)
    requires rest == [] || PyStr.IsSpace(rest[0])
    ensures PyStr.Words(w + rest) == [w] + PyStr.Words(rest)
  {
    var s := w + rest;
    assert PyStr.LStrip(s) == s;
    WordEndOf(w, rest);
    assert s[..|w|] == w && s[|w|..] == rest;
  }

  lemma {:induction false} WordEndOf(w: string, rest: string)
    requires PyStr.IsWord(w)
    requires rest == [] || PyStr.IsSpace(rest[0])
    ensures PyStr.WordEnd(w + rest) == |w|
    decreases |w|
  {
    if |w| > 1 {
      assert (w + rest)[1..] == w[1..] + rest;
      WordEndOf(w[1..], rest);
    }
  }

  /** Splitting words joined by spaces gives the words back. */
  lemma {:induction false} WordsOfJoinedWords(ws: seq<string>)
    requires forall i :: 0 <= i < |ws| ==> PyStr.IsWord(ws[i])
    ensures PyStr.Words(PyStr.Join(" ", ws)) == ws
    decreases |ws|
  {
    if |ws| == 1 {
      WordsOfJoin(ws[0], []);
      assert ws[0] + [] == ws[0];
    } else if |ws| > 1 {
      WordsOfJoinedWords(ws[1..]);
      WordsOfJoinedCons(ws);
    }
  }

  /** The step of `WordsOfJoinedWords`: a word in front of joined words. */
  lemma WordsOfJoinedCons(ws: seq<string>)
    requires |ws| > 1 && PyStr.IsWord(ws[0]) && PyStr.Words(PyStr.Join(" ", ws[1..])) == ws[1..]
    ensures PyStr.Words(PyStr.Join(" ", ws)) == ws
  {
    WordsOfWordSpace(ws[0], PyStr.Join(" ", ws[1..]));
    JoinSpaceCons(ws);
    assert [ws[0]] + ws[1..] == ws;
  }

  lemma JoinSpaceCons(ws: seq<string>)
    requires |ws| > 1
    ensures PyStr.Join(" ", ws) == ws[0] + ([' '] + PyStr.Join(" ", ws[1..]))
  {
  }

  /** A word, a space and more text: that word, then the text's words. */
  lemma WordsOfWordSpace(w: string, t: string)
    requires PyStr.IsWord(w)
    ensures PyStr.Words(w + ([' '] + t)) == [w] + PyStr.Words(t)
  {
    WordsAfterSpace(' ', t);
    WordsOfJoin(w, [' '] + t);
  }

  /** Cleaning up an already clean text changes nothing. */
  lemma CollapseIdempotent(s: string)
    ensures Collapse(Collapse(s)) == Collapse(s)
  {
    var ws := PyStr.Words(s);
    PyStr.WordsHaveNoSpace(s);
    WordsOfJoinedWords(ws);
  }

  /** A docstring made only of blank lines and separator lines cleans up to
      the empty string. */
  lemma OnlySeparatorsCleanToEmpty(docstring: string)
    requires forall i :: 0 <= i < |PyStr.Split(docstring, "\n")| ==> !KeepLine(PyStr.Split(docstring, "\n")[i])
    ensures Collapse(PyStr.Join(" ", CleanedLines(PyStr.Split(docstring, "\n")))) == []
  {
    var lines := PyStr.Split(docstring, "\n");
    Lists.SelectNoneKept(lines, KeepLine, PyStr.Strip);
  }

  /** An assignment target: a plain name, or anything else (an attribute, a
      subscript, a tuple). */
  datatype Target = Name(id: string) | OtherTarget

  /** An assigned value: a call (with the `id` of its callee when the callee
      has one, as a bare name does) or any other expression. */
  datatype Expr = Call(funcId: Option<string>) | OtherExpr

  /** A statement of a class body. */
  datatype Stmt = Assign(targets: seq<Target>, value: Expr) | OtherStmt

  /** A call of the bare name `State`. */
  predicate MakesState(e: Expr) {
    e.Call? && e.funcId == Some("State")
  }

  /** The names among the targets, in order. */
  function TargetNames(targets: seq<Target>): seq<string>
    decreases |targets|
  {
    if targets == [] then []
    else
      var t := targets[|targets| - 1];
      TargetNames(targets[..|targets| - 1]) + (if t.Name? then [t.id] else [])
  }

  /** The states one statement declares. */
  function StmtStates(s: Stmt): seq<string> {
    if s.Assign? && MakesState(s.value) then TargetNames(s.targets) else []
  }

  /** The states a class body declares, in order. */
  function BodyStates(body: seq<Stmt>): seq<string>
    decreases |body|
  {
    if body == [] then [] else BodyStates(body[..|body| - 1]) + StmtStates(body[|body| - 1])
  }

  /** The states of all class bodies, in the order the tree walk visits them. */
  function TreeStates(classes: seq<seq<Stmt>>): seq<string>
    decreases |classes|
  {
    if classes == [] then [] else TreeStates(classes[..|classes| - 1]) + BodyStates(classes[|classes| - 1])
  }

  /** The state-collecting loop of `generate_nl_description_from_code`, over
      the class bodies in the tree walk's order. */
  method CollectStates(classes: seq<seq<Stmt>>) returns (states: seq<string>)
    ensures states == TreeStates(classes)
  {
    states := [];
    for c := 0 to |classes|
      invariant states == TreeStates(classes[..c])
    {
      assert classes[..c + 1][..c] == classes[..c];
      states := AppendBodyStates(states, classes[c]);
    }
    assert classes[..|classes|] == classes;
  }

  /** The loop over one class body's statements. */
  method AppendBodyStates(before: seq<string>, body: seq<Stmt>) returns (states: seq<string>)
    ensures states == before + BodyStates(body)
  {
    states := before;
    for k := 0 to |body|
      invariant states == before + BodyStates(body[..k])
    {
      assert body[..k + 1][..k] == body[..k];
      var item := body[k];
      if item.Assign? {
        states := AppendTargetStates(states, item.targets, item.value);
      }
    }
    assert body[..|body|] == body;
  }

  /** The loop over one assignment's targets: each plain name is a state
      when the value is a call of `State`. */
  method AppendTargetStates(before: seq<string>, targets: seq<Target>, value: Expr) returns (states: seq<string>)
    ensures states == before + StmtStates(Assign(targets, value))
  {
    states := before;
    for j := 0 to |targets|
      invariant states == before + (if MakesState(value) then TargetNames(targets[..j]) else [])
    {
      assert targets[..j + 1][..j] == targets[..j];
      var target := targets[j];
      if target.Name? {
        var stateName := target.id;
        if value.Call? && value.funcId == Some("State") {
          states := states + [stateName];
        }
      }
    }
    assert targets[..|targets|] == targets;
  }

  /** A name is collected exactly when some class body assigns `State(...)`
      to it. */
  lemma {:induction false} TreeStatesMeaning(classes: seq<seq<Stmt>>)
    ensures forall n :: n in TreeStates(classes) <==>
      exists c, k :: 0 <= c < |classes| && 0 <= k < |classes[c]| && n in StmtStates(classes[c][k])
    decreases |classes|
  {
    if classes != [] {
      var init := classes[..|classes| - 1];
      TreeStatesMeaning(init);
      BodyStatesMeaning(classes[|classes| - 1]);
      assert forall c :: 0 <= c < |init| ==> init[c] == classes[c];
    }
  }

  lemma {:induction false} BodyStatesMeaning(body: seq<Stmt>)
    ensures forall n :: n in BodyStates(body) <==> exists k :: 0 <= k < |body| && n in StmtStates(body[k])
    decreases |body|
  {
    if body != [] {
      var init := body[..|body| - 1];
      BodyStatesMeaning(init);
      assert forall k :: 0 <= k < |init| ==> init[k] == body[k];
    }
  }

  /** A statement declares the names it assigns a `State(...)` call to. */
  lemma {:induction false} TargetNamesMeaning(targets: seq<Target>)
    ensures forall n :: n in TargetNames(targets) <==> Name(n) in targets
    decreases |targets|
  {
    if targets != [] {
      var init := targets[..|targets| - 1];
      TargetNamesMeaning(init);
      assert targets == init + [targets[|targets| - 1]];
    }
  }

  /** The state list: one state as it is, more as "a, b and c". */
  function StateList(states: seq<string>): string
    requires states != []
  {
    if |states| > 1 then PyStr.Join(", ", states[..|states| - 1]) + " and " + states[|states| - 1]
    else states[0]
  }

  /** Every state appears in the state list. */
  lemma StateListNamesAll(states: seq<string>)
    requires states != []
    ensures forall i :: 0 <= i < |states| ==> PyStr.Contains(StateList(states), states[i])
  {
    forall i | 0 <= i < |states| ensures PyStr.Contains(StateList(states), states[i]) {
      if |states| == 1 {
        PyStr.ContainsAt(states[0], states[0], 0);
      } else {
        var init := PyStr.Join(", ", states[..|states| - 1]);
        var s := init + " and " + states[|states| - 1];
        if i < |states| - 1 {
          var k := JoinOffset(", ", states[..|states| - 1], i);
          assert s[k..][..|states[i]|] == init[k..][..|states[i]|];
          PyStr.ContainsAt(s, states[i], k);
        } else {
          assert s[|init| + 5..|init| + 5 + |states[i]|] == states[i];
          PyStr.ContainsAt(s, states[i], |init| + 5);
        }
      }
    }
  }

  /** Where the `i`-th part starts in the joined string. */
  lemma {:induction false} JoinOffset(sep: string, parts: seq<string>, i: nat) returns (k: nat)
    requires i < |parts|
    ensures k + |parts[i]| <= |PyStr.Join(sep, parts)|
    ensures PyStr.Join(sep, parts)[k..k + |parts[i]|] == parts[i]
    decreases |parts|
  {
    if |parts| == 1 {
      k := 0;
    } else if i == 0 {
      k := 0;
      assert PyStr.Join(sep, parts) == parts[0] + (sep + PyStr.Join(sep, parts[1..]));
    } else {
      var j := JoinOffset(sep, parts[1..], i - 1);
      var head := parts[0] + sep;
      assert PyStr.Join(sep, parts) == head + PyStr.Join(sep, parts[1..]);
      k := |head| + j;
    }
  }

  const Generic: string := "Create a state machine."

  /** `generate_nl_description_from_code(source, class_name)` for a parsed
      tree (`None` when the source does not parse): the states, with the
      class name when a non-empty one is given; the generic sentence when
      there are no states or the source does not parse. */
  method GenerateNlDescription(tree: Option<seq<seq<Stmt>>>, className: Option<string>) returns (d: string)
    ensures tree.None? || TreeStates(tree.value) == [] ==> d == Generic
    ensures tree.Some? && TreeStates(tree.value) != [] ==>
      d == Describe(TreeStates(tree.value), className)
  {
    if tree.None? {
      return Generic;
    }
    var states := CollectStates(tree.value);
    if states != [] && className.Some? && className.value != [] {
      var stateList := StateList(states);
      return "Create a state machine called " + className.value + " with states: " + stateList + ".";
    } else if states != [] {
      var stateList := StateList(states);
      return "Create a state machine with states: " + stateList + ".";
    }
    return Generic;
  }

  /** The sentence for a non-empty state list. */
  function Describe(states: seq<string>, className: Option<string>): string
    requires states != []
  {
    if className.Some? && className.value != [] then
      "Create a state machine called " + className.value + " with states: " + StateList(states) + "."
    else "Create a state machine with states: " + StateList(states) + "."
  }

  const CalledHead: string := "Create a state machine called "

  const UncalledHead: string := "Create a state machine with states: "

  /** The sentence reveals whether the class was named: it begins "Create a
      state machine called " exactly when a non-empty class name was given and
      there are states; it always ends with a full stop. */
  lemma DescribeMeaning(states: seq<string>, className: Option<string>)
    ensures var d := if states == [] then Generic else Describe(states, className);
      (PyStr.StartsWith(d, CalledHead) <==> states != [] && className.Some? && className.value != [])
      && PyStr.EndsWith(d, ".")
  {
    if states != [] {
      var list := StateList(states);
      if className.Some? && className.value != [] {
        CalledSentence(className.value, list);
      } else {
        UncalledSentence(list);
      }
    }
  }

  lemma CalledSentence(name: string, list: string)
    ensures var d := "Create a state machine called " + name + " with states: " + list + ".";
      PyStr.StartsWith(d, CalledHead) && PyStr.EndsWith(d, ".")
  {
    var tail := name + " with states: " + list + ".";
    PyStr.StartsWithConcat(CalledHead, tail);
    assert "Create a state machine called " + name + " with states: " + list + "." == CalledHead + tail;
  }

  lemma UncalledSentence(list: string)
    ensures var d := "Create a state machine with states: " + list + ".";
      !PyStr.StartsWith(d, CalledHead) && PyStr.EndsWith(d, ".")
  {
    var d := UncalledHead + (list + ".");
    assert d[23] == UncalledHead[23] == 'w';
    assert CalledHead[23] == 'c';
    assert "Create a state machine with states: " + list + "." == d;
  }

  /** Each state is named in the sentence. */
  lemma DescribeNamesStates(states: seq<string>, className: Option<string>)
    requires states != []
    ensures forall i :: 0 <= i < |states| ==> PyStr.Contains(Describe(states, className), states[i])
  {
    StateListNamesAll(states);
    var list := StateList(states);
    var d := Describe(states, className);
    var head := if className.Some? && className.value != [] then
      "Create a state machine called " + className.value + " with states: "
      else "Create a state machine with states: ";
    assert d == head + list + ".";
    forall i | 0 <= i < |states| ensures PyStr.Contains(d, states[i]) {
      PyStr.ContainsWithin(head, list, ".", states[i]);
    }
  }
}
