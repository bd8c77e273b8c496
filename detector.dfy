/** Detection of finite-state-machine library usage in Python source: an AST
    visitor that remembers which libraries were imported and records
    `StateMachine` subclasses and `Machine`/`GraphMachine` constructor calls,
    each with the source text needed to run it. The parser is outside the
    model: a parsed file is given as its nodes in the order the visitor
    reaches them. */
module Detector {
  import opened Wrappers
  import PyStr

  /** Python line numbers start at 1. */
  type LineNo = n: int | n >= 1 witness 1

  /** A base class expression: a bare name, or anything else (attribute, call...). */
  datatype Base = NamedBase(id: string) | OtherBase

  /** The called expression of a call: a bare name, or anything else. */
  datatype Callee = NamedCallee(id: string) | OtherCallee

  /** The AST nodes the visitor reacts to; `names` are the imported names. */
  datatype Node =
    | ImportFromNode(moduleName: Option<string>, names: seq<string>)
    | ClassDefNode(name: string, bases: seq<Base>, lineno: LineNo, endLineno: Option<LineNo>)
    | CallNode(callee: Callee, lineno: LineNo, endLineno: Option<LineNo>)
    | OtherNode

  /** `FSMMatch` */
  datatype FsmMatch = FsmMatch(
    library: string,
    className: Option<string>,
    startLine: int,
    endLine: int,
    sourceCode: string,
    hasGraphSupport: bool)

  /** The three import flags. */
  datatype Flags = Flags(statemachine: bool, transitions: bool, graphmachine: bool)

  /** A line that is neither blank nor a comment. */
  predicate IsCodeLine(line: string) {
    var s := PyStr.Strip(line);
    s != "" && !PyStr.StartsWith(s, "#")
  }

  /** Import lines kept in front of a `transitions` machine's context. */
  predicate IsTransitionsImport(line: string) {
    var s := PyStr.Strip(line);
    PyStr.StartsWith(s, "from transitions") || PyStr.StartsWith(s, "import transitions")
  }

  /** Import lines kept in front of a `StateMachine` class. */
  predicate IsFsmImport(line: string) {
    var s := PyStr.Strip(line);
    PyStr.StartsWith(s, "from statemachine import") || PyStr.StartsWith(s, "from transitions")
    || PyStr.StartsWith(s, "import statemachine") || PyStr.StartsWith(s, "import transitions")
  }

  /** The lines of `lines` that are `transitions` imports, in order. */
  function TransitionsImports(lines: seq<string>): (r: seq<string>)
    ensures |r| <= |lines|
    ensures forall i :: 0 <= i < |r| ==> r[i] in lines && IsTransitionsImport(r[i])
  {
    if lines == [] then []
    else
      var init := TransitionsImports(lines[..|lines| - 1]);
      if IsTransitionsImport(lines[|lines| - 1]) then init + [lines[|lines| - 1]] else init
  }

  /** The lines of `lines` that are FSM-library imports, in order. */
  function FsmImports(lines: seq<string>): (r: seq<string>)
    ensures |r| <= |lines|
    ensures forall i :: 0 <= i < |r| ==> r[i] in lines && IsFsmImport(r[i])
  {
    if lines == [] then []
    else
      var init := FsmImports(lines[..|lines| - 1]);
      if IsFsmImport(lines[|lines| - 1]) then init + [lines[|lines| - 1]] else init
  }

  lemma TransitionsImportsSnoc(lines: seq<string>, j: nat)
    requires j < |lines|
    ensures TransitionsImports(lines[..j + 1])
            == TransitionsImports(lines[..j]) + (if IsTransitionsImport(lines[j]) then [lines[j]] else [])
  {
    assert lines[..j + 1][..j] == lines[..j];
  }

  lemma FsmImportsSnoc(lines: seq<string>, j: nat)
    requires j < |lines|
    ensures FsmImports(lines[..j + 1]) == FsmImports(lines[..j]) + (if IsFsmImport(lines[j]) then [lines[j]] else [])
  {
    assert lines[..j + 1][..j] == lines[..j];
  }

  /** The import test of either extractor: any FSM library, or `transitions` only. */
  predicate Wanted(line: string, anyFsm: bool) {
    if anyFsm then IsFsmImport(line) else IsTransitionsImport(line)
  }

  /** The import lines either extractor keeps. */
  function ImportLines(lines: seq<string>, anyFsm: bool): seq<string> {
    if anyFsm then FsmImports(lines) else TransitionsImports(lines)
  }

  lemma ImportsSnoc(lines: seq<string>, j: nat, anyFsm: bool)
    requires j < |lines|
    ensures ImportLines(lines[..j + 1], anyFsm) == ImportLines(lines[..j], anyFsm) + (if Wanted(lines[j], anyFsm) then [lines[j]] else [])
  {
    if anyFsm { FsmImportsSnoc(lines, j); } else { TransitionsImportsSnoc(lines, j); }
  }

  /** Import lines, a blank line, then the body; just the body when there are
      no imports. */
  function WithImports(imports: seq<string>, body: seq<string>): string {
    if imports != [] then PyStr.Join("\n", imports) + "\n\n" + PyStr.Join("\n", body)
    else PyStr.Join("\n", body)
  }

  /** `end_lineno or lineno` */
  function LastLine(lineno: LineNo, endLineno: Option<LineNo>): LineNo {
    endLineno.GetOr(lineno)
  }

  /** The first line (0-based) of the 20-line window above a call on `lineno`. */
  function WindowStart(lineno: LineNo): nat {
    if lineno - 21 < 0 then 0 else lineno - 21
  }

  /** Which lines are code lines. */
  function CodeMask(lines: seq<string>): (mask: seq<bool>)
    ensures |mask| == |lines|
  {
    seq(|lines|, k requires 0 <= k < |lines| => IsCodeLine(lines[k]))
  }

  /** The backward scan for the context start over the code mask, from 0-based
      line `i` down to `start`, with `actual` the start found so far. */
  function ScanUp(mask: seq<bool>, i: int, start: nat, actual: nat): (a: nat)
    decreases i + 1 - start
  {
    if i < start then actual
    else if i < 0 || i >= |mask| then actual
    else if mask[i] then ScanUp(mask, i - 1, start, i)
    else actual
  }

  /** The line (0-based) where a call's context begins. */
  function ContextStart(lines: seq<string>, lineno: LineNo): nat {
    ScanUp(CodeMask(lines), lineno - 2, WindowStart(lineno), WindowStart(lineno))
  }

  /** Once line `i + 1` was taken as the start, the scan climbs through the
      code lines above it and stops at the top of that block, or at `start`. */
  lemma {:induction false} ScanUpClimbs(mask: seq<bool>, i: int, start: nat)
    requires start <= i + 1 <= |mask|
    ensures var a := ScanUp(mask, i, start, i + 1);
            start <= a <= i + 1
            && (forall k :: a <= k <= i ==> mask[k])
            && (a == start || !mask[a - 1])
    decreases i + 1 - start
  {
    if i >= start && mask[i] {
      ScanUpClimbs(mask, i - 1, start);
    }
  }

  /** `a` is where the context of a call at `lineno` may start: inside the
      20-line window and no later than the line above the call. When that
      line is code, `a` is the top of the block of code lines ending there,
      or the window start when the block reaches beyond the window; otherwise
      (blank or comment line above, or a call on the first line) it is the
      window start. */
  predicate ContextStartsAt(mask: seq<bool>, lineno: LineNo, a: int) {
    WindowStart(lineno) <= a && (lineno >= 2 ==> a <= lineno - 2)
    && (lineno >= 2 && lineno - 2 < |mask| && mask[lineno - 2] ==>
       (forall k :: a <= k <= lineno - 2 ==> mask[k])
       && (a == WindowStart(lineno) || !mask[a - 1]))
    && (!(lineno >= 2 && lineno - 2 < |mask| && mask[lineno - 2]) ==> a == WindowStart(lineno))
  }

  /** The context of a call starts where `ContextStartsAt` says. */
  lemma ContextStartMeaning(lines: seq<string>, lineno: LineNo)
    ensures ContextStartsAt(CodeMask(lines), lineno, ContextStart(lines, lineno))
  {
    ScanFromLineAbove(CodeMask(lines), lineno);
  }

  lemma ScanFromLineAbove(mask: seq<bool>, lineno: LineNo)
    ensures ContextStartsAt(mask, lineno, ScanUp(mask, lineno - 2, WindowStart(lineno), WindowStart(lineno)))
  {
    var start := WindowStart(lineno);
    var i := lineno - 2;
    if lineno >= 2 && i < |mask| && mask[i] {
      ScanUpClimbs(mask, i - 1, start);
    }
  }

  /** The text recorded for a `Machine`/`GraphMachine` call. */
  function CallContext(lines: seq<string>, lineno: LineNo, endLineno: Option<LineNo>): string {
    WithImports(TransitionsImports(PyStr.Take(lines, ContextStart(lines, lineno))),
                PyStr.Slice(lines, ContextStart(lines, lineno), LastLine(lineno, endLineno)))
  }

  /** The text recorded for a `StateMachine` class. */
  function NodeSource(lines: seq<string>, lineno: LineNo, endLineno: Option<LineNo>): string {
    WithImports(FsmImports(PyStr.Take(lines, lineno - 1)), PyStr.Slice(lines, lineno - 1, LastLine(lineno, endLineno)))
  }

  function ClassMatch(lines: seq<string>, name: string, lineno: LineNo, endLineno: Option<LineNo>): FsmMatch {
    FsmMatch("python-statemachine", Some(name), lineno, LastLine(lineno, endLineno),
             NodeSource(lines, lineno, endLineno), true)
  }

  function CallMatch(lines: seq<string>, lineno: LineNo, endLineno: Option<LineNo>, graph: bool): FsmMatch {
    FsmMatch("transitions", None, lineno, LastLine(lineno, endLineno), CallContext(lines, lineno, endLineno), graph)
  }

  /** How the import flags change on one node. */
  function FlagsAfter(f: Flags, node: Node): Flags {
    match node
    case ImportFromNode(m, names) =>
      if m == Some("statemachine") then f.(statemachine := true)
      else if m == Some("transitions") then f.(transitions := true)
      else if m == Some("transitions.extensions") && "GraphMachine" in names then f.(graphmachine := true)
      else f
    case _ => f
  }

  /** The match one node adds, given the flags in force when it is visited. */
  function MatchesAt(lines: seq<string>, f: Flags, node: Node): seq<FsmMatch> {
    match node
    case ClassDefNode(name, bases, ln, en) =>
      if f.statemachine && NamedBase("StateMachine") in bases then [ClassMatch(lines, name, ln, en)] else []
    case CallNode(NamedCallee(id), ln, en) =>
      if id == "Machine" && f.transitions then [CallMatch(lines, ln, en, false)]
      else if id == "GraphMachine" && f.graphmachine then [CallMatch(lines, ln, en, true)]
      else []
    case _ => []
  }

  /** The flags after visiting `nodes` in order. */
  function FlagsOf(nodes: seq<Node>): Flags
    decreases |nodes|
  {
    if nodes == [] then Flags(false, false, false)
    else FlagsAfter(FlagsOf(nodes[..|nodes| - 1]), nodes[|nodes| - 1])
  }

  /** The matches found by visiting `nodes` in order. */
  function Run(lines: seq<string>, nodes: seq<Node>): seq<FsmMatch>
    decreases |nodes|
  {
    if nodes == [] then []
    else
      var init := nodes[..|nodes| - 1];
      Run(lines, init) + MatchesAt(lines, FlagsOf(init), nodes[|nodes| - 1])
  }

  /** Node `n` imports `m` (for `transitions.extensions`, with `GraphMachine`). */
  predicate ImportsAt(n: Node, m: string) {
    n.ImportFromNode? && n.moduleName == Some(m) && (m == "transitions.extensions" ==> "GraphMachine" in n.names)
  }

  /** Some node of `nodes` imports from module `m` (and, for the extensions
      module, imports `GraphMachine`). */
  predicate Imports(nodes: seq<Node>, m: string) {
    exists j :: 0 <= j < |nodes| && ImportsAt(nodes[j], m)
  }

  /** Each flag is set exactly when a matching import has been visited. */
  lemma {:induction false} FlagsMeaning(nodes: seq<Node>)
    ensures FlagsOf(nodes).statemachine <==> Imports(nodes, "statemachine")
    ensures FlagsOf(nodes).transitions <==> Imports(nodes, "transitions")
    ensures FlagsOf(nodes).graphmachine <==> Imports(nodes, "transitions.extensions")
    decreases |nodes|
  {
    if nodes != [] {
      FlagsMeaning(nodes[..|nodes| - 1]);
      NodeImportsSnoc(nodes, "statemachine");
      NodeImportsSnoc(nodes, "transitions");
      NodeImportsSnoc(nodes, "transitions.extensions");
    }
  }

  /** The nodes import `m` when the earlier ones do or the last one does. */
  lemma NodeImportsSnoc(nodes: seq<Node>, m: string)
    requires nodes != []
    ensures Imports(nodes, m) <==> Imports(nodes[..|nodes| - 1], m) || ImportsAt(nodes[|nodes| - 1], m)
  {
    assert forall j :: 0 <= j < |nodes| - 1 ==> nodes[..|nodes| - 1][j] == nodes[j];
    if Imports(nodes, m) && !ImportsAt(nodes[|nodes| - 1], m) {
      var j :| 0 <= j < |nodes| && ImportsAt(nodes[j], m);
      assert j < |nodes| - 1;
    }
  }

  /** Match `m` is the one node `k` of `nodes` produces: a `StateMachine`
      subclass after a `statemachine` import, a bare `Machine(...)` call after a
      `transitions` import (no graph support), or a bare `GraphMachine(...)`
      call after importing it from `transitions.extensions`. */
  predicate Justified(lines: seq<string>, nodes: seq<Node>, k: int, m: FsmMatch) {
    0 <= k < |nodes| &&
    match nodes[k]
    case ClassDefNode(name, bases, ln, en) =>
      NamedBase("StateMachine") in bases && Imports(nodes[..k], "statemachine") && m == ClassMatch(lines, name, ln, en)
    case CallNode(NamedCallee(id), ln, en) =>
      (id == "Machine" && Imports(nodes[..k], "transitions") && m == CallMatch(lines, ln, en, false))
      || (id == "GraphMachine" && Imports(nodes[..k], "transitions.extensions") && m == CallMatch(lines, ln, en, true))
    case _ => false
  }

  /** Some node of `nodes` justifies match `m`. */
  predicate Explained(lines: seq<string>, nodes: seq<Node>, m: FsmMatch) {
    exists k :: 0 <= k < |nodes| && Justified(lines, nodes, k, m)
  }

  /** A justification stays valid when more nodes are visited afterwards. */
  lemma ExplainedExtends(lines: seq<string>, init: seq<Node>, nodes: seq<Node>, m: FsmMatch)
    requires |init| <= |nodes| && init == nodes[..|init|]
    requires Explained(lines, init, m)
    ensures Explained(lines, nodes, m)
  {
    var k :| 0 <= k < |init| && Justified(lines, init, k, m);
    assert nodes[..k] == init[..k] && nodes[k] == init[k];
    assert Justified(lines, nodes, k, m);
  }

  /** The match the last node adds is justified by that node. */
  lemma ExplainedByLast(lines: seq<string>, nodes: seq<Node>, m: FsmMatch)
    requires nodes != []
    requires m in MatchesAt(lines, FlagsOf(nodes[..|nodes| - 1]), nodes[|nodes| - 1])
    ensures Explained(lines, nodes, m)
  {
    var last := |nodes| - 1;
    FlagsMeaning(nodes[..last]);
    assert Justified(lines, nodes, last, m);
  }

  /** Every match is justified by a node visited after the import it needs,
      and no node contributes more than one match. */
  lemma {:induction false} MatchesJustified(lines: seq<string>, nodes: seq<Node>)
    ensures |Run(lines, nodes)| <= |nodes|
    ensures forall i :: 0 <= i < |Run(lines, nodes)| ==> Explained(lines, nodes, Run(lines, nodes)[i])
    decreases |nodes|
  {
    if nodes != [] {
      var init := nodes[..|nodes| - 1];
      MatchesJustified(lines, init);
      var ms := Run(lines, nodes);
      var before := Run(lines, init);
      var added := MatchesAt(lines, FlagsOf(init), nodes[|nodes| - 1]);
      assert ms == before + added;
      assert |added| <= 1;
      forall i | 0 <= i < |ms| ensures Explained(lines, nodes, ms[i]) {
        if i < |before| {
          ExplainedExtends(lines, init, nodes, before[i]);
        } else {
          assert ms[i] in added;
          ExplainedByLast(lines, nodes, ms[i]);
        }
      }
    }
  }

  /** What reading and parsing a file gives: an OS error (which propagates), a
      decoding error, a syntax error, or the text and its nodes in visit order. */
  datatype SourceFile = Unreadable | Undecodable | Unparsable(text: string) | Parsed(text: string, nodes: seq<Node>)

  /** `FSMDetector`: the visitor and what it has found so far. */
  class FsmDetector {
    const sourceLines: seq<string>
    var matches: seq<FsmMatch>
    var flags: Flags

    constructor(sourceCode: string)
      ensures sourceLines == PyStr.SplitLines(sourceCode)
      ensures matches == [] && flags == Flags(false, false, false)
    {
      sourceLines := PyStr.SplitLines(sourceCode);
      matches := [];
      flags := Flags(false, false, false);
    }

    /** `visit_ImportFrom` */
    method VisitImportFrom(moduleName: Option<string>, names: seq<string>)
      modifies this
      ensures flags == FlagsAfter(old(flags), ImportFromNode(moduleName, names)) && matches == old(matches)
    {
      if moduleName == Some("statemachine") {
        flags := flags.(statemachine := true);
      } else if moduleName == Some("transitions") {
        flags := flags.(transitions := true);
      } else if moduleName == Some("transitions.extensions") {
        for i := 0 to |names|
          invariant flags == if "GraphMachine" in names[..i] then old(flags).(graphmachine := true) else old(flags)
          invariant matches == old(matches)
        {
          if names[i] == "GraphMachine" {
            flags := flags.(graphmachine := true);
          }
          assert names[..i + 1] == names[..i] + [names[i]];
        }
        assert names[..|names|] == names;
      }
    }

    /** `visit_ClassDef`: at most one match per class, whatever its bases. */
    method VisitClassDef(name: string, bases: seq<Base>, lineno: LineNo, endLineno: Option<LineNo>)
      modifies this
      ensures flags == old(flags)
      ensures matches == old(matches) + MatchesAt(sourceLines, flags, ClassDefNode(name, bases, lineno, endLineno))
    {
      if flags.statemachine {
        var i := 0;
        while i < |bases|
          invariant 0 <= i <= |bases|
          invariant NamedBase("StateMachine") !in bases[..i]
          invariant matches == old(matches)
        {
          if bases[i] == NamedBase("StateMachine") {
            var source := ExtractNodeSource(lineno, endLineno);
            matches := matches + [FsmMatch("python-statemachine", Some(name), lineno,
                                           LastLine(lineno, endLineno), source, true)];
            return;
          }
          assert bases[..i + 1] == bases[..i] + [bases[i]];
          i := i + 1;
        }
        assert bases[..i] == bases;
      }
    }

    /** `visit_Call` */
    method VisitCall(callee: Callee, lineno: LineNo, endLineno: Option<LineNo>)
      modifies this
      ensures flags == old(flags)
      ensures matches == old(matches) + MatchesAt(sourceLines, flags, CallNode(callee, lineno, endLineno))
    {
      if callee.NamedCallee? {
        if callee.id == "Machine" && flags.transitions {
          var source := ExtractCallWithContext(lineno, endLineno);
          matches := matches + [FsmMatch("transitions", None, lineno, LastLine(lineno, endLineno), source, false)];
        } else if callee.id == "GraphMachine" && flags.graphmachine {
          var source := ExtractCallWithContext(lineno, endLineno);
          matches := matches + [FsmMatch("transitions", None, lineno, LastLine(lineno, endLineno), source, true)];
        }
      }
    }

    /** `visit(tree)`: every node in visit order. */
    method VisitAll(nodes: seq<Node>)
      requires matches == [] && flags == Flags(false, false, false)
      modifies this
      ensures flags == FlagsOf(nodes) && matches == Run(sourceLines, nodes)
    {
      var i := 0;
      while i < |nodes|
        invariant 0 <= i <= |nodes|
        invariant flags == FlagsOf(nodes[..i]) && matches == Run(sourceLines, nodes[..i])
      {
        assert nodes[..i + 1][..i] == nodes[..i];
        ghost var f := flags;
        ghost var ms := matches;
        assert FlagsOf(nodes[..i + 1]) == FlagsAfter(f, nodes[i]);
        assert Run(sourceLines, nodes[..i + 1]) == ms + MatchesAt(sourceLines, f, nodes[i]);
        match nodes[i] {
          case ImportFromNode(m, names) =>
            VisitImportFrom(m, names);
            assert matches == ms + [];
          case ClassDefNode(name, bases, ln, en) => VisitClassDef(name, bases, ln, en);
          case CallNode(callee, ln, en) => VisitCall(callee, ln, en);
          case OtherNode =>
            assert matches == ms + [];
        }
        i := i + 1;
      }
      assert nodes[..i] == nodes;
    }

    /** `_extract_call_with_context`: the call and the code lines just above
        it, preceded by the earlier `transitions` imports. */
    method ExtractCallWithContext(lineno: LineNo, endLineno: Option<LineNo>) returns (text: string)
      ensures text == CallContext(sourceLines, lineno, endLineno)
    {
      var actual := FindContextStart(lineno);
      var context := PyStr.Slice(sourceLines, actual, LastLine(lineno, endLineno));
      var imports := CollectImports(PyStr.Take(sourceLines, actual), false);
      text := WithImports(imports, context);
    }

    /** The backward scan over the lines above a call, at most twenty of them,
        while they are code lines. */
    method FindContextStart(lineno: LineNo) returns (actual: nat)
      ensures actual == ContextStart(sourceLines, lineno)
    {
      var start := WindowStart(lineno);
      actual := start;
      var i := lineno - 2;
      while i >= start
        invariant i < start ==> i == start - 1 || i == lineno - 2
        invariant ScanUp(CodeMask(sourceLines), i, start, actual) == ContextStart(sourceLines, lineno)
        decreases i + 1 - start
      {
        if i < 0 || i >= |sourceLines| {
          break;
        }
        if IsCodeLine(sourceLines[i]) {
          actual := i;
        } else {
          break;
        }
        i := i - 1;
      }
    }

    /** `_extract_node_source`: the node's own lines, preceded by the earlier
        FSM-library imports. */
    method ExtractNodeSource(lineno: LineNo, endLineno: Option<LineNo>) returns (text: string)
      ensures text == NodeSource(sourceLines, lineno, endLineno)
    {
      var nodeLines := PyStr.Slice(sourceLines, lineno - 1, LastLine(lineno, endLineno));
      var imports := CollectImports(PyStr.Take(sourceLines, lineno - 1), true);
      text := WithImports(imports, nodeLines);
    }

    /** The import loop shared by both extractors. */
    static method CollectImports(lines: seq<string>, anyFsm: bool) returns (imports: seq<string>)
      ensures imports == ImportLines(lines, anyFsm)
    {
      imports := [];
      for j := 0 to |lines|
        invariant imports == ImportLines(lines[..j], anyFsm)
      {
        ImportsSnoc(lines, j, anyFsm);
        if Wanted(lines[j], anyFsm) {
          imports := imports + [lines[j]];
        }
      }
      assert lines[..|lines|] == lines;
    }
  }

  /** `detect_fsm_patterns(file_path)`: no matches for undecodable or
      unparsable files; otherwise the matches of a fresh visitor. */
  method DetectFsmPatterns(file: SourceFile) returns (r: Result<seq<FsmMatch>, string>)
    ensures file.Unreadable? <==> r.Err?
    ensures file.Undecodable? || file.Unparsable? ==> r == Ok([])
    ensures file.Parsed? ==> r == Ok(Run(PyStr.SplitLines(file.text), file.nodes))
  {
    match file {
      case Unreadable => return Err("OSError");
      case Undecodable => return Ok([]);
      case Unparsable(_) => return Ok([]);
      case Parsed(text, nodes) =>
        var detector := new FsmDetector(text);
        detector.VisitAll(nodes);
        return Ok(detector.matches);
    }
  }

  /** `has_fsm_imports(file_path)`: a cheap textual pre-filter; an unreadable
      file (`None`) does not pass. */
  function HasFsmImports(content: Option<string>): (r: bool)
    ensures content.None? ==> !r
  {
    content.Some? &&
    (PyStr.Contains(content.value, "from statemachine import")
     || PyStr.Contains(content.value, "from transitions import")
     || PyStr.Contains(content.value, "from transitions.extensions import GraphMachine"))
  }
}
