/** The synthetic generator's output records: a generated DOT graph and its
    prompt become a training pair, and the API cost of a generation is
    estimated from its token counts. */
module SyntheticValidator {
  import opened Wrappers
  import PyStr
  import IdGenerator

  /** A training pair in the generator's output schema. */
  datatype TrainingPair = TrainingPair(
    id: string,
    source: string,
    license: string,
    taskType: string,
    inputText: string,
    contextSnippet: Option<string>,
    outputDot: string,
    verificationStatus: string)

  /** `create_training_pair(...)`: the pair's id is "synthetic_" and the first
      eight hex digits of the MD5 of prompt and DOT together (`md5` gives the
      hex digest); the source names provider and model; the status follows
      the compiler's verdict. */
  function CreateTrainingPair(prompt: string, dotOutput: string, provider: string, model: string,
                              validationPassed: bool, md5: string -> IdGenerator.Md5Hex): (p: TrainingPair)
    ensures p.inputText == prompt && p.outputDot == dotOutput && p.contextSnippet.None?
    ensures p.license == "synthetic-generated" && p.taskType == "NL_TO_DOT"
    ensures p.verificationStatus == "passed_compiler" <==> validationPassed
    ensures p.verificationStatus == "failed_compiler" <==> !validationPassed
    ensures |p.id| == 18 && PyStr.StartsWith(p.id, "synthetic_")
    ensures forall i :: 10 <= i < 18 ==> IdGenerator.IsLowerHex(p.id[i])
    ensures p.id[10..] == md5(prompt + dotOutput)[..8]
  {
    var content := prompt + dotOutput;
    var pairId := "synthetic_" + md5(content)[..8];
    PyStr.StartsWithConcat("synthetic_", md5(content)[..8]);
    TrainingPair(
      pairId,
      "synthetic-" + provider + "-" + model,
      "synthetic-generated",
      "NL_TO_DOT",
      prompt,
      None,
      dotOutput,
      if validationPassed then "passed_compiler" else "failed_compiler")
  }

  /** The source attribution starts with "synthetic-" and the provider, and
      ends with "-" and the model. */
  lemma SourceNamesProviderAndModel(prompt: string, dotOutput: string, provider: string, model: string,
                                    validationPassed: bool, md5: string -> IdGenerator.Md5Hex)
    ensures var s := CreateTrainingPair(prompt, dotOutput, provider, model, validationPassed, md5).source;
      PyStr.StartsWith(s, "synthetic-" + provider + "-") && PyStr.EndsWith(s, "-" + model)
  {
    var head := "synthetic-" + provider + "-";
    PyStr.StartsWithConcat(head, model);
    assert head + model == "synthetic-" + provider + ("-" + model);
    assert (head + model)[|head + model| - |"-" + model|..] == "-" + model;
  }

  /** The id depends only on the concatenation of prompt and DOT: the same
      generation filed under another provider, model or verdict gets the
      same id. */
  lemma IdIgnoresAttribution(prompt: string, dotOutput: string, provider1: string, model1: string, passed1: bool,
                             provider2: string, model2: string, passed2: bool, md5: string -> IdGenerator.Md5Hex)
    ensures CreateTrainingPair(prompt, dotOutput, provider1, model1, passed1, md5).id
            == CreateTrainingPair(prompt, dotOutput, provider2, model2, passed2, md5).id
  {
    var a := CreateTrainingPair(prompt, dotOutput, provider1, model1, passed1, md5).id;
    var b := CreateTrainingPair(prompt, dotOutput, provider2, model2, passed2, md5).id;
    assert a[..10] == "synthetic_" == b[..10];
    assert a == a[..10] + a[10..];
    assert b == b[..10] + b[10..];
  }

  /** The price of a thousand tokens of each kind. */
  datatype Rates = Rates(input: real, output: real)

  /** The pricing table of the Gemini models. */
  const Pricing: map<string, Rates> := map[
    "gemini-2.5-flash" := Rates(0.00001875, 0.000075),
    "gemini-2.5-pro" := Rates(0.00125, 0.005),
    "gemini-3-pro-preview" := Rates(0.00125, 0.005)
  ]

  /** `tokens_used.get(key, 0)` */
  function TokenCount(tokens: map<string, int>, key: string): int {
    if key in tokens then tokens[key] else 0
  }

  /** `calculate_cost(tokens_used, provider, model)`: free for local models,
      for missing or empty token counts and for models outside the pricing
      table; otherwise each thousand tokens at its kind's rate. */
  function CalculateCost(tokensUsed: Option<map<string, int>>, provider: string, model: string): (cost: real)
    ensures provider == "ollama" ==> cost == 0.0
    ensures tokensUsed.None? || tokensUsed == Some(map[]) ==> cost == 0.0
    ensures model !in Pricing ==> cost == 0.0
    ensures tokensUsed.Some? && TokenCount(tokensUsed.value, "input") >= 0 && TokenCount(tokensUsed.value, "output") >= 0
            ==> cost >= 0.0
  {
    if provider == "ollama" then 0.0
    else if tokensUsed.None? || tokensUsed.value == map[] then 0.0
    else if model !in Pricing then 0.0
    else
      var rates := Pricing[model];
      (TokenCount(tokensUsed.value, "input") as real / 1000.0) * rates.input
      + (TokenCount(tokensUsed.value, "output") as real / 1000.0) * rates.output
  }

  /** For a priced model, more tokens of either kind never cost less. */
  lemma CostMonotone(tokens: map<string, int>, more: map<string, int>, provider: string, model: string)
    requires tokens != map[] && more != map[]
    requires TokenCount(tokens, "input") <= TokenCount(more, "input")
    requires TokenCount(tokens, "output") <= TokenCount(more, "output")
    ensures CalculateCost(Some(tokens), provider, model) <= CalculateCost(Some(more), provider, model)
  {
    if provider != "ollama" && model in Pricing {
      var r := Pricing[model];
      assert r.input >= 0.0 && r.output >= 0.0;
      var di := (TokenCount(more, "input") - TokenCount(tokens, "input")) as real / 1000.0;
      var dout := (TokenCount(more, "output") - TokenCount(tokens, "output")) as real / 1000.0;
      assert di * r.input >= 0.0 && dout * r.output >= 0.0;
    }
  }
}
