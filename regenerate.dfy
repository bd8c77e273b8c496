/** Regeneration of the training pairs' prompts: each pair is classified as
    an error-correction, code-to-DOT or natural-language pair, counted, and
    (unless its input is blank) rebuilt with the instruction for its type. */
module Regenerate {
  import opened Wrappers
  import PyStr
  import Lists
  import opened PromptsV2

  /** A loaded pair: a field is `None` when the key is absent (for
      `input_text`, also when it is null). */
  datatype RawPair = RawPair(inputText: Option<string>, outputDot: Option<string>, source: Option<string>)

  /** A rebuilt pair with the four fields it is saved with. */
  datatype UpdatedPair = UpdatedPair(inputText: string, outputDot: string, source: string, taskType: TaskType)

  const ErrorSourcePrefix: string := "synthetic_error_from_"

  /** The sources whose pairs are code-to-DOT pairs whatever their input says. */
  const CodeSources: seq<string> := ["statemachine_cat", "pytransitions/transitions", "Quentin18/fsmdot"]

  /** An input holding one of the fragments `class `, `def `, `import ` or
      `from ` looks like Python code. */
  predicate LooksLikeCode(input: string) {
    PyStr.Contains(input, "class ") || PyStr.Contains(input, "def ")
    || PyStr.Contains(input, "import ") || PyStr.Contains(input, "from ")
  }

  /** `classify_task_type(pair)`: the error-source prefix decides first, then
      the code sources, then the look of the input; the rest is natural
      language. */
  function ClassifyTaskType(pair: RawPair): (t: TaskType)
    ensures t == ErrorCorrection <==> PyStr.StartsWith(pair.source.GetOr(""), ErrorSourcePrefix)
    ensures t == CodeToDot <==>
      !PyStr.StartsWith(pair.source.GetOr(""), ErrorSourcePrefix)
      && (pair.source.GetOr("") in CodeSources || LooksLikeCode(pair.inputText.GetOr("")))
  {
    var source := pair.source.GetOr("");
    if PyStr.StartsWith(source, ErrorSourcePrefix) then ErrorCorrection
    else if source in CodeSources then CodeToDot
    else if LooksLikeCode(pair.inputText.GetOr("")) then CodeToDot
    else NlToDot
  }

  /** A pair whose input is empty or only whitespace is dropped. */
  predicate Blank(pair: RawPair) {
    PyStr.Strip(pair.inputText.GetOr("")) == []
  }

  /** A pair rebuilt for task type `t`: the input formatted for that type, the
      DOT carried over (empty when absent) and the source defaulting to
      "unknown". */
  function Rebuild(pair: RawPair, t: TaskType): UpdatedPair {
    UpdatedPair(FormatPrompt(pair.inputText.GetOr(""), TaskName(t)),
                pair.outputDot.GetOr(""), pair.source.GetOr("unknown"), t)
  }

  /** What one pair becomes: nothing when its input is blank, otherwise the
      pair rebuilt for its class. */
  function UpdateOne(pair: RawPair): (u: Option<UpdatedPair>)
    ensures u.None? <==> Blank(pair)
  {
    if Blank(pair) then None else Some(Rebuild(pair, ClassifyTaskType(pair)))
  }

  /** The per-type counts the run reports. */
  datatype Stats = Stats(nlToDot: nat, codeToDot: nat, errorCorrection: nat) {
    function Total(): nat { nlToDot + codeToDot + errorCorrection }
  }

  function Bump(s: Stats, t: TaskType): (r: Stats)
    ensures r.Total() == s.Total() + 1
  {
    match t
    case NlToDot => s.(nlToDot := s.nlToDot + 1)
    case CodeToDot => s.(codeToDot := s.codeToDot + 1)
    case ErrorCorrection => s.(errorCorrection := s.errorCorrection + 1)
  }

  /** The counts after classifying every pair, blank ones included. */
  function StatsOf(pairs: seq<RawPair>): Stats
    decreases |pairs|
  {
    if pairs == [] then Stats(0, 0, 0)
    else Bump(StatsOf(pairs[..|pairs| - 1]), ClassifyTaskType(pairs[|pairs| - 1]))
  }

  /** `update_pair_prompts(pairs)`: the rebuilt pairs in input order with the
      blank ones left out, and the counts of every pair's type. */
  method UpdatePairPrompts(pairs: seq<RawPair>) returns (updated: seq<UpdatedPair>, stats: Stats)
    ensures updated == Lists.Collect(pairs, UpdateOne)
    ensures stats == StatsOf(pairs)
  {
    updated := [];
    stats := Stats(0, 0, 0);
    for i := 0 to |pairs|
      invariant updated == Lists.Collect(pairs[..i], UpdateOne)
      invariant stats == StatsOf(pairs[..i])
    {
      var pair := pairs[i];
      var taskType := ClassifyTaskType(pair);
      stats := Bump(stats, taskType);
      var originalInput := pair.inputText.GetOr("");
      UpdateStep(pairs, i);
      // Pairs with a blank input are counted but not kept.
      if PyStr.Strip(originalInput) != [] {
        var updatedPair := Rebuild(pair, taskType);
        updated := updated + [updatedPair];
      }
    }
    assert pairs[..|pairs|] == pairs;
  }

  /** One loop step: the next pair is counted under its type and, unless its
      input is blank, appended rebuilt. */
  lemma UpdateStep(pairs: seq<RawPair>, i: nat)
    requires i < |pairs|
    ensures StatsOf(pairs[..i + 1]) == Bump(StatsOf(pairs[..i]), ClassifyTaskType(pairs[i]))
    ensures Lists.Collect(pairs[..i + 1], UpdateOne)
            == Lists.Collect(pairs[..i], UpdateOne) + (if Blank(pairs[i]) then [] else [Rebuild(pairs[i], ClassifyTaskType(pairs[i]))])
  {
    assert pairs[..i + 1][..i] == pairs[..i];
  }

  /** Every pair is counted under exactly one type, dropped or not. */
  lemma {:induction false} StatsCountEveryPair(pairs: seq<RawPair>)
    ensures StatsOf(pairs).Total() == |pairs|
    decreases |pairs|
  {
    if pairs != [] {
      StatsCountEveryPair(pairs[..|pairs| - 1]);
    }
  }

  /** The number of pairs with a blank input. */
  function BlankCount(pairs: seq<RawPair>): (n: nat)
    ensures n <= |pairs|
    decreases |pairs|
  {
    if pairs == [] then 0
    else BlankCount(pairs[..|pairs| - 1]) + (if Blank(pairs[|pairs| - 1]) then 1 else 0)
  }

  /** Exactly the blank pairs are dropped. */
  lemma {:induction false} UpdatedDropsBlank(pairs: seq<RawPair>)
    ensures |Lists.Collect(pairs, UpdateOne)| == |pairs| - BlankCount(pairs)
    decreases |pairs|
  {
    if pairs != [] {
      UpdatedDropsBlank(pairs[..|pairs| - 1]);
    }
  }

  /** A rebuilt pair's task type can be read back from its prompt's prefix. */
  lemma RebuildReadable(pair: RawPair, t: TaskType)
    ensures TaskOfPrompt(Rebuild(pair, t).inputText) == t
  {
    FormatPromptRoundTrip(pair.inputText.GetOr(""), TaskName(t));
    TaskOfNameInvertsTaskName(t);
  }

  /** Each rebuilt pair comes from a non-blank pair: its prompt is that pair's
      input formatted for the pair's class, its DOT and source are carried
      over, and its task type can be read back from the prompt's prefix. */
  lemma UpdatedMeaning(pairs: seq<RawPair>)
    ensures forall u :: u in Lists.Collect(pairs, UpdateOne) ==> RebuiltFromSome(u, pairs)
    ensures forall u :: u in Lists.Collect(pairs, UpdateOne) ==> TaskOfPrompt(u.inputText) == u.taskType
  {
    forall u | u in Lists.Collect(pairs, UpdateOne)
      ensures RebuiltFromSome(u, pairs) && TaskOfPrompt(u.inputText) == u.taskType
    {
      var i := UpdatedSource(pairs, u);
      RebuildReadable(pairs[i], u.taskType);
    }
  }

  /** `u` is a non-blank pair of `pairs` rebuilt for its class: the prompt is
      that pair's input formatted for the class, and the DOT and the source
      are carried over. */
  predicate RebuiltFromSome(u: UpdatedPair, pairs: seq<RawPair>) {
    exists i :: 0 <= i < |pairs| && !Blank(pairs[i])
      && u.taskType == ClassifyTaskType(pairs[i])
      && u.inputText == FormatPrompt(pairs[i].inputText.GetOr(""), TaskName(u.taskType))
      && u.outputDot == pairs[i].outputDot.GetOr("")
      && u.source == pairs[i].source.GetOr("unknown")
  }

  /** The index of the pair a rebuilt pair comes from. */
  lemma UpdatedSource(pairs: seq<RawPair>, u: UpdatedPair) returns (i: nat)
    requires u in Lists.Collect(pairs, UpdateOne)
    ensures i < |pairs| && !Blank(pairs[i]) && u == Rebuild(pairs[i], ClassifyTaskType(pairs[i]))
    ensures RebuiltFromSome(u, pairs)
  {
    Lists.CollectMeaning(pairs, UpdateOne);
    i :| 0 <= i < |pairs| && UpdateOne(pairs[i]) == Some(u);
  }

  /** A pair from an error-derived source is an error-correction pair
      whatever its input looks like. */
  lemma ErrorSourceFirst(input: Option<string>, dot: Option<string>, tail: string)
    ensures ClassifyTaskType(RawPair(input, dot, Some(ErrorSourcePrefix + tail))) == ErrorCorrection
  {
    PyStr.StartsWithConcat(ErrorSourcePrefix, tail);
  }

  /** An input holding one of the code fragments makes a pair from any source
      outside the error-derived ones a code-to-DOT pair. */
  lemma CodeInputIsCode(pair: RawPair)
    requires PyStr.Contains(pair.inputText.GetOr(""), "def ")
    requires !PyStr.StartsWith(pair.source.GetOr(""), ErrorSourcePrefix)
    ensures ClassifyTaskType(pair) == CodeToDot
  {
  }
}
