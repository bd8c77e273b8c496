/** The per-file step of the FSM stream: each detected match with graph
    support is run in the sandbox, the DOT text it prints is validated, and a
    CODE_TO_DOT pair is yielded whether or not it compiled. Pair ids come from
    the match's location, not from the DOT text. */
module FsmExtractor {
  import opened Wrappers
  import PyStr
  import Lists
  import IdGenerator
  import Schema
  import DotValidator
  import Detector
  import Sandbox

  /** `TrainingPair` */
  datatype TrainingPair = TrainingPair(
    id: string,
    source: string,
    license: string,
    taskType: string,
    inputText: Option<string>,
    contextSnippet: string,
    outputDot: string,
    verificationStatus: string)

  /** What one file gives: the pairs yielded before the generator stopped, and
      whether it stopped by raising (an unreadable file, or no Graphviz binary
      for validation). */
  datatype Extraction = Extraction(pairs: seq<TrainingPair>, raised: bool)

  /** Everything outside the file that the step depends on: where the file
      comes from, the sandbox's timeout, the context limit, the child process,
      the DOT validator and the MD5 digest. */
  datatype Context = Context(
    fileName: string,
    repo: string,
    license: string,
    timeout: int,
    maxContextChars: int,
    run: string -> Sandbox.ProcessOutcome,
    elapsed: real,
    validate: string -> DotValidator.Outcome,
    md5: string -> IdGenerator.Md5Hex)

  const Ellipsis := "\n# ..."

  /** `_prepare_context`: the source itself when it fits, else its first
      `maxChars - 10` characters, cut back to the last newline when that falls
      beyond 80% of the limit, followed by an ellipsis comment line. */
  function PrepareContext(source: string, maxChars: int): string {
    if |source| <= maxChars then source
    else
      var truncated := PyStr.Take(source, maxChars - 10);
      var lastNewline := Lists.LastIndex(truncated, '\n');
      var kept := if 5 * lastNewline > 4 * maxChars then PyStr.Take(truncated, lastNewline) else truncated;
      kept + Ellipsis
  }

  /** A source that fits is kept whole; a longer one (for a limit of at least
      10) becomes a prefix of the source plus the ellipsis line, at most
      `maxChars - 4` characters in all, cut at a newline when one falls in the
      last fifth of the limit. */
  lemma PrepareContextBounds(source: string, maxChars: int)
    ensures |source| <= maxChars ==> PrepareContext(source, maxChars) == source
    ensures |source| > maxChars >= 10 ==>
              var r := PrepareContext(source, maxChars);
              |r| <= maxChars - 4 && |r| >= 6
              && r[|r| - 6..] == Ellipsis
              && r[..|r| - 6] == source[..|r| - 6]
              && (|r| - 6 < maxChars - 10 ==> source[|r| - 6] == '\n' && 5 * (|r| - 6) > 4 * maxChars)
  {
    if |source| > maxChars >= 10 {
      var truncated := source[..maxChars - 10];
      assert PyStr.Take(source, maxChars - 10) == truncated;
      var lastNewline := Lists.LastIndex(truncated, '\n');
      var kept := if 5 * lastNewline > 4 * maxChars then truncated[..lastNewline] else truncated;
      assert kept == source[..|kept|];
      var r := kept + Ellipsis;
      assert r == PrepareContext(source, maxChars);
      assert r[..|r| - 6] == kept;
      assert r[|r| - 6..] == Ellipsis;
    }
  }

  /** `_generate_pair_id`: "logic_stream_" and 8 hex digits of the MD5 of the
      file name, start line and library. */
  function PairId(fileName: string, startLine: int, library: string, md5: string -> IdGenerator.Md5Hex): (id: string)
    ensures |id| == 21 && id[..13] == "logic_stream_"
    ensures forall i :: 13 <= i < 21 ==> IdGenerator.IsLowerHex(id[i])
  {
    "logic_stream_" + md5(fileName + ":" + PyStr.IntToString(startLine) + ":" + library)[..8]
  }

  /** What the loop does with one match. */
  datatype Step = Skip | Yield(pair: TrainingPair) | Raise

  /** The library's wrapper code, for the two libraries the sandbox drives. */
  function LibraryOf(library: string): Option<Sandbox.FsmLibrary> {
    if library == "python-statemachine" then Some(Sandbox.Statemachine)
    else if library == "transitions" then Some(Sandbox.Transitions)
    else None
  }

  /** The sandbox's DOT text for a match, when the run succeeded with some. */
  function SandboxDot(m: Detector.FsmMatch, timeout: int, run: string -> Sandbox.ProcessOutcome, elapsed: real): Option<string> {
    var lib := LibraryOf(m.library);
    if lib.None? then None
    else
      var result := Sandbox.ExecutionResult(run(Sandbox.WrapperCode(lib.value, m.sourceCode)), timeout, elapsed);
      if !result.success || result.dotOutput.None? || result.dotOutput.value == "" then None
      else result.dotOutput
  }

  function PairFor(m: Detector.FsmMatch, ctx: Context, dot: string, v: DotValidator.ValidationResult): TrainingPair {
    TrainingPair(
      PairId(ctx.fileName, m.startLine, m.library, ctx.md5),
      ctx.repo + ":" + ctx.fileName + ":" + PyStr.IntToString(m.startLine),
      ctx.license,
      "CODE_TO_DOT",
      None,
      PrepareContext(m.sourceCode, ctx.maxContextChars),
      dot,
      DotValidator.ToSchemaStatus(v))
  }

  function MatchStep(m: Detector.FsmMatch, ctx: Context): Step {
    if !m.hasGraphSupport then Skip
    else
      var dot := SandboxDot(m, ctx.timeout, ctx.run, ctx.elapsed);
      if dot.None? then Skip
      else
        match ctx.validate(dot.value)
        case GraphvizNotFound => Raise
        case Returned(v) => Yield(PairFor(m, ctx, dot.value, v))
  }

  /** A match yields a pair exactly when it has graph support, comes from one
      of the two libraries, its sandbox run printed non-empty DOT text and the
      validator returned; the pair carries that text unchanged and the
      validator's status, failed_compiler included. */
  lemma MatchStepMeaning(m: Detector.FsmMatch, ctx: Context)
    ensures MatchStep(m, ctx).Yield? <==>
              m.hasGraphSupport && (m.library == "python-statemachine" || m.library == "transitions")
              && SandboxDot(m, ctx.timeout, ctx.run, ctx.elapsed).Some? && ctx.validate(SandboxDot(m, ctx.timeout, ctx.run, ctx.elapsed).value).Returned?
    ensures MatchStep(m, ctx).Raise? <==>
              m.hasGraphSupport && SandboxDot(m, ctx.timeout, ctx.run, ctx.elapsed).Some? && ctx.validate(SandboxDot(m, ctx.timeout, ctx.run, ctx.elapsed).value).GraphvizNotFound?
    ensures MatchStep(m, ctx).Yield? ==>
              var p := MatchStep(m, ctx).pair;
              var dot := SandboxDot(m, ctx.timeout, ctx.run, ctx.elapsed).value;
              p.outputDot == dot && p.outputDot != ""
              && p.verificationStatus == DotValidator.ToSchemaStatus(ctx.validate(dot).result)
              && (p.verificationStatus == "failed_compiler" <==> !ctx.validate(dot).result.isValid)
              && p.id == PairId(ctx.fileName, m.startLine, m.library, ctx.md5)
              && p.taskType == "CODE_TO_DOT" && p.inputText.None? && p.license == ctx.license
  {
  }

  /** The generator over a file's matches: pairs in match order, stopping at
      the first raise. */
  function Collect(ms: seq<Detector.FsmMatch>, ctx: Context): (ex: Extraction)
    ensures |ex.pairs| <= |ms|
    decreases |ms|
  {
    if ms == [] then Extraction([], false)
    else
      match MatchStep(ms[0], ctx)
      case Skip => Collect(ms[1..], ctx)
      case Raise => Extraction([], true)
      case Yield(p) =>
        var rest := Collect(ms[1..], ctx);
        Extraction([p] + rest.pairs, rest.raised)
  }

  /** `extract_from_file` as a whole: an unreadable file raises at once;
      undecodable and unparsable files give nothing. */
  function ExtractionOf(file: Detector.SourceFile, ctx: Context): Extraction {
    match file
    case Unreadable => Extraction([], true)
    case Undecodable => Extraction([], false)
    case Unparsable(_) => Extraction([], false)
    case Parsed(text, nodes) => Collect(Detector.Run(PyStr.SplitLines(text), nodes), ctx)
  }

  /** Every yielded pair is the pair of one of the file's matches that has
      graph support; it is a CODE_TO_DOT pair with no prompt, non-empty DOT
      text, a schema status and a location-based id. */
  lemma {:induction false} CollectedPairs(ms: seq<Detector.FsmMatch>, ctx: Context)
    ensures forall p :: p in Collect(ms, ctx).pairs ==>
              p.taskType == "CODE_TO_DOT" && p.inputText.None? && p.outputDot != ""
              && p.verificationStatus in Schema.Statuses && p.license == ctx.license
              && exists m :: m in ms && m.hasGraphSupport && MatchStep(m, ctx) == Yield(p)
    decreases |ms|
  {
    if ms != [] {
      CollectedPairs(ms[1..], ctx);
      MatchStepMeaning(ms[0], ctx);
      forall p | p in Collect(ms, ctx).pairs
        ensures exists m :: m in ms && m.hasGraphSupport && MatchStep(m, ctx) == Yield(p)
      {
        if p !in Collect(ms[1..], ctx).pairs {
          assert MatchStep(ms[0], ctx) == Yield(p);
        } else {
          var m :| m in ms[1..] && m.hasGraphSupport && MatchStep(m, ctx) == Yield(p);
          assert m in ms;
        }
      }
    }
  }

  /** `FSMExtractor` */
  class Extractor {
    const sandbox: Sandbox.FsmSandbox
    const maxContextChars: int

    /** Uses the given sandbox, or a fresh one with a 30-second timeout. */
    constructor(sandbox: Option<Sandbox.FsmSandbox>, maxContextChars: int)
      ensures sandbox.Some? ==> this.sandbox == sandbox.value
      ensures sandbox.None? ==> this.sandbox.timeout == 30
      ensures this.maxContextChars == maxContextChars
    {
      if sandbox.Some? {
        this.sandbox := sandbox.value;
      } else {
        this.sandbox := new Sandbox.FsmSandbox(30);
      }
      this.maxContextChars := maxContextChars;
    }

    /** The context this extractor works in for one file. */
    function ContextFor(fileName: string, repo: string, license: string,
                        run: string -> Sandbox.ProcessOutcome, elapsed: real,
                        validate: string -> DotValidator.Outcome,
                        md5: string -> IdGenerator.Md5Hex): Context
    {
      Context(fileName, repo, license, sandbox.timeout, maxContextChars, run, elapsed, validate, md5)
    }

    /** The sandbox run for one match: its DOT text when the run succeeded
        with non-empty output. */
    method RunSandbox(m: Detector.FsmMatch, run: string -> Sandbox.ProcessOutcome, elapsed: real)
      returns (dot: Option<string>)
      ensures dot == SandboxDot(m, sandbox.timeout, run, elapsed)
    {
      var result: Sandbox.DotExtractionResult;
      if m.library == "python-statemachine" {
        result := sandbox.ExtractDotFromStatemachine(m.sourceCode, run, elapsed);
      } else if m.library == "transitions" {
        result := sandbox.ExtractDotFromTransitions(m.sourceCode, run, elapsed);
      } else {
        return None;
      }
      if !result.success || result.dotOutput.None? || result.dotOutput.value == "" {
        return None;
      }
      return result.dotOutput;
    }

    /** The body of the loop over matches, for one match. */
    method ProcessMatch(m: Detector.FsmMatch, fileName: string, repo: string, license: string,
                        run: string -> Sandbox.ProcessOutcome, elapsed: real,
                        validate: string -> DotValidator.Outcome,
                        md5: string -> IdGenerator.Md5Hex)
      returns (step: Step)
      ensures step == MatchStep(m, ContextFor(fileName, repo, license, run, elapsed, validate, md5))
    {
      if !m.hasGraphSupport {
        return Skip;
      }
      var dot := RunSandbox(m, run, elapsed);
      if dot.None? {
        return Skip;
      }
      var validation := validate(dot.value);
      if validation.GraphvizNotFound? {
        return Raise;
      }
      var context := PrepareContext(m.sourceCode, maxContextChars);
      step := Yield(TrainingPair(
        PairId(fileName, m.startLine, m.library, md5),
        repo + ":" + fileName + ":" + PyStr.IntToString(m.startLine),
        license, "CODE_TO_DOT", None, context, dot.value,
        DotValidator.ToSchemaStatus(validation.result)));
    }

    /** `extract_from_file` */
    method ExtractFromFile(file: Detector.SourceFile, fileName: string, repo: string, license: string,
                           run: string -> Sandbox.ProcessOutcome, elapsed: real,
                           validate: string -> DotValidator.Outcome,
                           md5: string -> IdGenerator.Md5Hex)
      returns (ex: Extraction)
      ensures ex == ExtractionOf(file, ContextFor(fileName, repo, license, run, elapsed, validate, md5))
    {
      var detected := Detector.DetectFsmPatterns(file);
      if detected.Err? {
        return Extraction([], true);
      }
      ex := CollectPairs(detected.value, fileName, repo, license, run, elapsed, validate, md5);
    }

    /** The generator loop over the detected matches. */
    method CollectPairs(matches: seq<Detector.FsmMatch>, fileName: string, repo: string, license: string,
                        run: string -> Sandbox.ProcessOutcome, elapsed: real,
                        validate: string -> DotValidator.Outcome,
                        md5: string -> IdGenerator.Md5Hex)
      returns (ex: Extraction)
      ensures ex == Collect(matches, ContextFor(fileName, repo, license, run, elapsed, validate, md5))
    {
      ghost var ctx := ContextFor(fileName, repo, license, run, elapsed, validate, md5);
      var pairs: seq<TrainingPair> := [];
      var i := 0;
      while i < |matches|
        invariant 0 <= i <= |matches|
        invariant Collect(matches, ctx) == Extraction(pairs + Collect(matches[i..], ctx).pairs, Collect(matches[i..], ctx).raised)
      {
        assert matches[i..][1..] == matches[i + 1..];
        var step := ProcessMatch(matches[i], fileName, repo, license, run, elapsed, validate, md5);
        match step {
          case Skip =>
          case Raise => return Extraction(pairs, true);
          case Yield(pair) => pairs := pairs + [pair];
        }
        i := i + 1;
      }
      assert matches[i..] == [];
      return Extraction(pairs, false);
    }
  }
}
