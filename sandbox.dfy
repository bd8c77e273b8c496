/** The protocol between the FSM extractor and the child Python process that
    runs a candidate state machine: the wrapper code built around the candidate
    source, and how the child's captured output becomes a result. Launching the
    process, its temporary directory, environment and timeout are outside the
    model: the run is a function from the wrapper code to its outcome. */
module Sandbox {
  import opened Wrappers
  import PyStr
  import Lists

  const DotStart := "__DOT_START__"
  const DotEnd := "__DOT_END__"
  const ErrorMarker := "__ERROR__"

  /** `DotExtractionResult` */
  datatype DotExtractionResult = DotExtractionResult(
    success: bool,
    dotOutput: Option<string>,
    errorMessage: Option<string>,
    executionTime: real)

  /** How running the child process ended: it exited (any code) with the
      captured text, it ran past the timeout, or launching it raised. */
  datatype ProcessOutcome =
    | Completed(returnCode: int, stdout: string, stderr: string)
    | TimedOut
    | SandboxFailure(error: string)

  /** The two libraries the wrapper code can drive. */
  datatype FsmLibrary = Statemachine | Transitions

  /** A line made only of spaces and tabs. */
  predicate IsBlankIndent(line: string) {
    line != [] && forall i :: 0 <= i < |line| ==> line[i] == ' ' || line[i] == '\t'
  }

  /** A source line once indented by four spaces (lines that are all whitespace
      are left alone) and then dedented (lines of only spaces and tabs become
      empty). */
  function EmbedLine(line: string): string {
    if IsBlankIndent(line) then ""
    else if PyStr.AllSpace(line) then line
    else "    " + line
  }

  function EmbeddedSource(source: string): seq<string> {
    var src := PyStr.Split(source, "\n");
    seq(|src|, i requires 0 <= i < |src| => EmbedLine(src[i]))
  }

  const WrapperHead: seq<string> := ["", "import sys", "try:", "    # Original code"]

  /** The statemachine wrapper code lines after the embedded source. */
  const StatemachineTail: seq<string> := [
      "",
      "    # Try to instantiate and extract DOT",
      "    import inspect",
      "    from statemachine import StateMachine",
      "",
      "    # Find StateMachine subclasses",
      "    local_vars = dict(locals())",
      "    for name, obj in local_vars.items():",
      "        if inspect.isclass(obj) and issubclass(obj, StateMachine) and obj is not StateMachine:",
      "            try:",
      "                instance = obj()",
      "                graph = instance._graph()",
      "                dot_output = graph.to_string()",
      "                print(\"__DOT_START__\")",
      "                print(dot_output)",
      "                print(\"__DOT_END__\")",
      "                sys.exit(0)",
      "            except Exception as e:",
      "                print(f\"__ERROR__Failed to extract DOT: {e}\", file=sys.stderr)",
      "                sys.exit(1)",
      "",
      "    print(\"__ERROR__No StateMachine subclass found\", file=sys.stderr)",
      "    sys.exit(1)",
      "",
      "except Exception as e:",
      "    import traceback",
      "    print(f\"__ERROR__Execution failed: {e}\", file=sys.stderr)",
      "    traceback.print_exc(file=sys.stderr)",
      "    sys.exit(1)",
      ""]

  /** The transitions wrapper code lines after the embedded source. */
  const TransitionsTail: seq<string> := [
      "",
      "    # Try to find GraphMachine instances",
      "    from transitions.extensions import GraphMachine",
      "",
      "    # Look for machine variable",
      "    local_vars = dict(locals())",
      "    for name, obj in local_vars.items():",
      "        if isinstance(obj, GraphMachine):",
      "            try:",
      "                graph = obj.get_graph()",
      "                dot_output = graph.source",
      "                print(\"__DOT_START__\")",
      "                print(dot_output)",
      "                print(\"__DOT_END__\")",
      "                sys.exit(0)",
      "            except Exception as e:",
      "                import traceback",
      "                print(f\"__ERROR__Failed to extract DOT: {e}\", file=sys.stderr)",
      "                traceback.print_exc(file=sys.stderr)",
      "                sys.exit(1)",
      "",
      "    print(\"__ERROR__No GraphMachine instance found\", file=sys.stderr)",
      "    sys.exit(1)",
      "",
      "except Exception as e:",
      "    import traceback",
      "    print(f\"__ERROR__Execution failed: {e}\", file=sys.stderr)",
      "    traceback.print_exc(file=sys.stderr)",
      "    sys.exit(1)",
      ""]

  function WrapperTail(lib: FsmLibrary): seq<string> {
    match lib
    case Statemachine => StatemachineTail
    case Transitions => TransitionsTail
  }

  function WrapperLines(lib: FsmLibrary, source: string): seq<string> {
    WrapperHead + EmbeddedSource(source) + WrapperTail(lib)
  }

  /** The program the child process runs for `source`. */
  function WrapperCode(lib: FsmLibrary, source: string): string {
    PyStr.Join("\n", WrapperLines(lib, source))
  }

  /** The candidate source sits inside the `try:` block of the wrapper code: every line
      with a non-whitespace character appears, in order, indented by four
      spaces, and the handler that reports failures on stderr closes the
      block. */
  lemma WrapperEmbedsSource(lib: FsmLibrary, source: string)
    ensures var ls := WrapperLines(lib, source);
            var src := PyStr.Split(source, "\n");
            |ls| == |src| + 34
            && ls[2] == "try:"
            && (forall i :: 0 <= i < |src| && !PyStr.AllSpace(src[i]) ==> ls[4 + i] == "    " + src[i])
            && ls[|ls| - 6] == "except Exception as e:"
  {
    var src := PyStr.Split(source, "\n");
    var ls := WrapperLines(lib, source);
    forall i | 0 <= i < |src| && !PyStr.AllSpace(src[i]) ensures ls[4 + i] == "    " + src[i] {
      if IsBlankIndent(src[i]) {
        assert PyStr.AllSpace(src[i]);
      }
      assert ls[4 + i] == EmbeddedSource(source)[i];
    }
    assert ls[|ls| - 6] == WrapperTail(lib)[24];
  }

  /** The wrapper code prints the DOT text alone between a start-delimiter line and
      an end-delimiter line. */
  lemma WrapperPrintsBetweenDelimiters(lib: FsmLibrary)
    ensures exists j :: 0 <= j && j + 2 < |WrapperTail(lib)|
              && WrapperTail(lib)[j] == "                print(\"__DOT_START__\")"
              && WrapperTail(lib)[j + 1] == "                print(dot_output)"
              && WrapperTail(lib)[j + 2] == "                print(\"__DOT_END__\")"
  {
    var t := WrapperTail(lib);
    var j := if lib == Statemachine then 13 else 11;
    assert t[j] == "                print(\"__DOT_START__\")";
    assert t[j + 1] == "                print(dot_output)";
    assert t[j + 2] == "                print(\"__DOT_END__\")";
  }

  /** Index of the first line equal to `x`, or `|lines|`. */
  function FirstIndex(lines: seq<string>, x: string): (k: nat)
    ensures k <= |lines|
    ensures k < |lines| ==> lines[k] == x
    ensures forall j :: 0 <= j < k ==> lines[j] != x
  {
    if lines == [] || lines[0] == x then 0 else 1 + FirstIndex(lines[1..], x)
  }

  lemma {:induction false} FirstIndexAt(lines: seq<string>, x: string, k: nat)
    requires k <= |lines| && (k < |lines| ==> lines[k] == x)
    requires forall j :: 0 <= j < k ==> lines[j] != x
    ensures FirstIndex(lines, x) == k
  {
    if k > 0 {
      FirstIndexAt(lines[1..], x, k - 1);
    }
  }

  /** The DOT text between the last start line before the first end line and
      that end line, if the output has both in that order. */
  function DelimitedDot(lines: seq<string>): Option<string> {
    var e := FirstIndex(lines, DotEnd);
    var s := Lists.LastIndex(lines[..e], DotStart);
    if e < |lines| && s >= 0 then Some(PyStr.Join("\n", lines[s + 1..e])) else None
  }

  /** Output is delimited exactly when an end line exists and a start line
      comes before the first one; the DOT text is then the lines strictly
      between the last such start line and that end line. */
  lemma DelimitedDotMeaning(lines: seq<string>)
    ensures DelimitedDot(lines).Some? <==>
            DotEnd in lines && DotStart in lines[..FirstIndex(lines, DotEnd)]
    ensures DelimitedDot(lines).Some? ==>
            exists a, b :: 0 < a <= b < |lines| && lines[a - 1] == DotStart && lines[b] == DotEnd
              && DotEnd !in lines[..b] && DotStart !in lines[a..b]
              && DelimitedDot(lines).value == PyStr.Join("\n", lines[a..b])
  {
    var e := FirstIndex(lines, DotEnd);
    var s := Lists.LastIndex(lines[..e], DotStart);
    assert lines[..|lines|] == lines;
    assert lines[..e][0..] == lines[..e];
    if e < |lines| && s >= 0 {
      assert lines[..e][s + 1..] == lines[s + 1..e];
      assert lines[s] == DotStart;
    }
  }

  /** Which lines carry the error marker. */
  function MarkedLines(lines: seq<string>): (mask: seq<bool>)
    ensures |mask| == |lines|
  {
    seq(|lines|, k requires 0 <= k < |lines| => PyStr.Contains(lines[k], ErrorMarker))
  }

  /** Index of the first `true` in `mask`, or `|mask|`. */
  function FirstTrue(mask: seq<bool>): (k: nat)
    ensures k <= |mask|
    ensures k < |mask| ==> mask[k]
    ensures forall j :: 0 <= j < k ==> !mask[j]
  {
    if mask == [] || mask[0] then 0 else 1 + FirstTrue(mask[1..])
  }

  /** What remains of a marked stderr line once the markers are removed. */
  function MarkedLineMessage(line: string): string {
    PyStr.Strip(PyStr.ReplaceAll(line, ErrorMarker, ""))
  }

  /** The failure message read from stderr: the first line carrying the error
      marker, with every marker removed and whitespace stripped; else the first
      200 characters of stderr; else "Unknown error". */
  function StderrMessage(stderr: string): string {
    if PyStr.Contains(stderr, ErrorMarker) then
      var lines := PyStr.SplitLines(stderr);
      var k := FirstTrue(MarkedLines(lines));
      if k < |lines| then MarkedLineMessage(lines[k]) else "Unknown error"
    else if stderr != "" then PyStr.Take(stderr, 200)
    else "Unknown error"
  }

  /** The result for a run that ended with `outcome` after `elapsed` seconds. */
  function ExecutionResult(outcome: ProcessOutcome, timeout: int, elapsed: real): DotExtractionResult {
    match outcome
    case Completed(_, out, err) =>
      var dot := if PyStr.Contains(out, DotStart) then DelimitedDot(PyStr.SplitLines(out)) else None;
      if dot.Some? then DotExtractionResult(true, dot, None, elapsed)
      else DotExtractionResult(false, None, Some(StderrMessage(err)), elapsed)
    case TimedOut =>
      DotExtractionResult(false, None, Some("Execution timeout (" + PyStr.IntToString(timeout) + "s)"), elapsed)
    case SandboxFailure(e) =>
      DotExtractionResult(false, None, Some("Sandbox error: " + e), elapsed)
  }

  /** A success carries DOT text and no message, a failure a message and no DOT
      text; only a completed run whose stdout is delimited succeeds, and the
      exit code plays no part. */
  lemma ExecutionResultShape(outcome: ProcessOutcome, timeout: int, elapsed: real)
    ensures var r := ExecutionResult(outcome, timeout, elapsed);
            (r.success <==> r.dotOutput.Some?) && (r.success <==> r.errorMessage.None?)
            && r.executionTime == elapsed
            && (r.success <==> outcome.Completed? && PyStr.Contains(outcome.stdout, DotStart)
                                && DelimitedDot(PyStr.SplitLines(outcome.stdout)).Some?)
            && (outcome.TimedOut? ==> r.errorMessage == Some("Execution timeout (" + PyStr.IntToString(timeout) + "s)"))
            && (outcome.SandboxFailure? ==> r.errorMessage == Some("Sandbox error: " + outcome.error))
            && (outcome.Completed? ==> r == ExecutionResult(outcome.(returnCode := 0), timeout, elapsed))
  {
  }

  /** `FSMSandbox` */
  class FsmSandbox {
    const timeout: int

    constructor(timeout: int)
      ensures this.timeout == timeout
    {
      this.timeout := timeout;
    }

    /** `extract_dot_from_statemachine` */
    method ExtractDotFromStatemachine(source: string, run: string -> ProcessOutcome, elapsed: real)
      returns (r: DotExtractionResult)
      ensures r == ExecutionResult(run(WrapperCode(Statemachine, source)), timeout, elapsed)
    {
      r := ExecuteCode(WrapperCode(Statemachine, source), run, elapsed);
    }

    /** `extract_dot_from_transitions` */
    method ExtractDotFromTransitions(source: string, run: string -> ProcessOutcome, elapsed: real)
      returns (r: DotExtractionResult)
      ensures r == ExecutionResult(run(WrapperCode(Transitions, source)), timeout, elapsed)
    {
      r := ExecuteCode(WrapperCode(Transitions, source), run, elapsed);
    }

    /** `_execute_code`: never fails; the outcome of running `code` decides the
        result. */
    method ExecuteCode(code: string, run: string -> ProcessOutcome, elapsed: real)
      returns (r: DotExtractionResult)
      ensures r == ExecutionResult(run(code), timeout, elapsed)
    {
      var outcome := run(code);
      match outcome {
        case TimedOut =>
          return DotExtractionResult(false, None, Some("Execution timeout (" + PyStr.IntToString(timeout) + "s)"), elapsed);
        case SandboxFailure(e) =>
          return DotExtractionResult(false, None, Some("Sandbox error: " + e), elapsed);
        case Completed(_, out, err) =>
          if PyStr.Contains(out, DotStart) {
            var lines := PyStr.SplitLines(out);
            var startIdx, endIdx := ScanDelimiters(lines);
            if startIdx.Some? && endIdx.Some? {
              return DotExtractionResult(true, Some(PyStr.Join("\n", lines[startIdx.value..endIdx.value])), None, elapsed);
            }
          }
          var msg := ErrorMessage(err);
          return DotExtractionResult(false, None, Some(msg), elapsed);
      }
    }

    /** The stdout scan: the index after the last start line seen before the
        first end line, and the index of that end line. */
    static method ScanDelimiters(lines: seq<string>) returns (startIdx: Option<nat>, endIdx: Option<nat>)
      ensures var e := FirstIndex(lines, DotEnd);
              var s := Lists.LastIndex(lines[..e], DotStart);
              endIdx == (if e < |lines| then Some(e) else None)
              && startIdx == (if s >= 0 then Some(s + 1) else None)
              && (startIdx.Some? && endIdx.Some? ==> startIdx.value <= endIdx.value)
    {
      assert |DotStart| != |DotEnd|;
      startIdx, endIdx := None, None;
      var i := 0;
      while i < |lines|
        invariant 0 <= i <= |lines|
        invariant forall j :: 0 <= j < i ==> lines[j] != DotEnd
        invariant var s := Lists.LastIndex(lines[..i], DotStart);
                  startIdx == if s >= 0 then Some(s + 1) else None
      {
        assert lines[..i + 1][..i] == lines[..i];
        if lines[i] == DotStart {
          startIdx := Some(i + 1);
        } else if lines[i] == DotEnd {
          endIdx := Some(i);
          FirstIndexAt(lines, DotEnd, i);
          return;
        }
        i := i + 1;
      }
      assert lines[..i] == lines;
      FirstIndexAt(lines, DotEnd, i);
    }

    /** The stderr scan for the failure message. */
    static method ErrorMessage(stderr: string) returns (msg: string)
      ensures msg == StderrMessage(stderr)
    {
      msg := "Unknown error";
      if PyStr.Contains(stderr, ErrorMarker) {
        var lines := PyStr.SplitLines(stderr);
        var k := FirstMarkedLine(lines);
        if k < |lines| {
          msg := MarkedLineMessage(lines[k]);
        }
      } else if stderr != "" {
        msg := PyStr.Take(stderr, 200);
      }
    }

    /** The loop over stderr lines that stops at the first marked one. */
    static method FirstMarkedLine(lines: seq<string>) returns (k: nat)
      ensures k == FirstTrue(MarkedLines(lines))
    {
      ghost var mask := MarkedLines(lines);
      k := 0;
      while k < |lines|
        invariant k <= FirstTrue(mask)
      {
        if PyStr.Contains(lines[k], ErrorMarker) {
          assert mask[k];
          return;
        }
        assert !mask[k];
        k := k + 1;
      }
    }
  }
}
