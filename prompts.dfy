/** Fixed prompt templates for DOT generation: a template chosen by name, or
    the few-shot examples, followed by a blank line and the description. */
module Prompts {
  import PyStr

  /** The default template, with explicit rules against the common errors. */
  const ImprovedSystemPrompt: string :=
    "You are " + "a Graphviz DOT code generator. Generate ONLY valid DOT code.\n"
    + "\n"
    + "CRITICAL RULES:\n"
    + "1. Use double quotes (\") for all names and labels, NEVER backticks (`)\n"
    + "2. In digraph, use -> for edges (NOT --)\n"
    + "3. Complete the graph with closing brace }\n"
    + "4. Keep it simple - avoid complex HTML labels unless necessary\n"
    + "5. Output ONLY the DOT code, no explanations\n"
    + "\n"
    + "Example format:\n"
    + "digraph \"MyGraph\" {\n"
    + "  rankdir=LR;\n"
    + "  A [label=\"State A\"];\n"
    + "  B [label=\"State B\"];\n"
    + "  A -> B [label=\"transition\"];\n"
    + "}\n"
    + "\n"
    + "Now generate valid DOT code for:"

  /** A simpler template without HTML labels. */
  const SimplePrompt: string :=
    "Generate a valid " + "Graphviz DOT graph using this format:\n"
    + "\n"
    + "digraph \"GraphName\" {\n"
    + "  node [shape=rectangle style=\"rounded,filled\" fillcolor=lightblue];\n"
    + "  \n"
    + "  A [label=\"Label A\"];\n"
    + "  B [label=\"Label B\"];\n"
    + "  \n"
    + "  A -> B [label=\"edge label\"];\n"
    + "}\n"
    + "\n"
    + "Requirements:\n"
    + "- Use double quotes for names/labels\n"
    + "- Use -> for directed edges\n"
    + "- Include closing brace }\n"
    + "- Keep labels simple (no HTML)\n"
    + "\n"
    + "Task:"

  /** A template constrained to state machines. */
  const FsmPrompt: string :=
    "Generate a Graphviz " + "DOT state machine diagram.\n"
    + "\n"
    + "Format requirements:\n"
    + "- Start with: digraph \"StateMachineName\" {\n"
    + "- Nodes: StateName [label=\"Display Name\"];\n"
    + "- Edges: Source -> Target [label=\"transition\"];\n"
    + "- End with: }\n"
    + "\n"
    + "Use simple text labels only (no HTML/tables).\n"
    + "\n"
    + "State machine to generate:"

  /** Two good examples and one bad one, shown before the description. */
  const FewShotExamples: string :=
    "\n"
    + "GOOD EXAMPLE 1:\n"
    + "Task: Traffic light state machine\n"
    + "Output:\n"
    + "digraph \"TrafficLight\" {\n"
    + "  rankdir=LR;\n"
    + "  Green [label=\"Green Light\"];\n"
    + "  Yellow [label=\"Yellow Light\"];\n"
    + "  Red [label=\"Red Light\"];\n"
    + "  Green -> Yellow [label=\"timer\"];\n"
    + "  Yellow -> Red [label=\"timer\"];\n"
    + "  Red -> Green [label=\"timer\"];\n"
    + "}\n"
    + "\n"
    + "GOOD EXAMPLE 2:\n"
    + "Task: Login flow\n"
    + "Output:\n"
    + "digraph \"Login\" {\n"
    + "  LoggedOut [label=\"Logged Out\"];\n"
    + "  LoggingIn [label=\"Logging In\"];\n"
    + "  LoggedIn [label=\"Logged In\"];\n"
    + "  LoggedOut -> LoggingIn [label=\"submit credentials\"];\n"
    + "  LoggingIn -> LoggedIn [label=\"success\"];\n"
    + "  LoggingIn -> LoggedOut [label=\"failure\"];\n"
    + "}\n"
    + "\n"
    + "BAD EXAMPLE (DO NOT DO):\n"
    + "digraph `MyGraph` {  // WRONG: use \"MyGraph\" not `MyGraph`\n"
    + "  a -- b;  // WRONG: use -> not -- in digraph\n"
    + "  c [label=\"test\\l\"];  // WRONG: avoid \\l escape\n"
    + "// WRONG: missing closing }\n"
    + "\n"
    + "Now generate:"

  /** The templates selectable by name. */
  const Templates: map<string, string> := map["improved" := ImprovedSystemPrompt, "simple" := SimplePrompt, "fsm" := FsmPrompt]

  /** The template a prompt type selects: its entry, or the default for a
      name without one. */
  function Template(promptType: string): string {
    if promptType in Templates then Templates[promptType] else ImprovedSystemPrompt
  }

  /** The three named templates, and the default for every other name. */
  lemma TemplateCases(promptType: string)
    ensures Template(promptType)
            == if promptType == "simple" then SimplePrompt else if promptType == "fsm" then FsmPrompt else ImprovedSystemPrompt
  {
  }

  /** The characters that tell the templates apart. */
  lemma TemplateHeads()
    ensures |ImprovedSystemPrompt| > 11 && |SimplePrompt| > 11 && |FsmPrompt| > 11
    ensures ImprovedSystemPrompt[0] == 'Y' && SimplePrompt[0] == 'G' && FsmPrompt[0] == 'G'
    ensures SimplePrompt[11] == 'v' && FsmPrompt[11] == 'G'
  {
  }

  /** `get_improved_prompt(description, prompt_type)` */
  function GetImprovedPrompt(description: string, promptType: string): string {
    Template(promptType) + "\n\n" + description
  }

  /** `get_few_shot_prompt(description)` */
  function GetFewShotPrompt(description: string): string {
    FewShotExamples + "\n\n" + description
  }

  /** The name of the template a prompt was built from, read from its first
      characters. */
  function PromptTypeOf(prompt: string): string {
    if PyStr.StartsWith(prompt, SimplePrompt) then "simple"
    else if PyStr.StartsWith(prompt, FsmPrompt) then "fsm"
    else "improved"
  }

  /** The description a prompt built from `template` carries: everything after
      the template and the blank line. */
  function DescriptionOf(prompt: string, template: string): string {
    PyStr.Drop(prompt, |template| + 2)
  }

  /** A string that differs from `p` at `k` does not start with `p`. */
  lemma DiffersAt(s: string, p: string, k: nat)
    requires k < |s| && k < |p| && s[k] != p[k]
    ensures !PyStr.StartsWith(s, p)
  {
    if |p| <= |s| {
      assert s[..|p|][k] == s[k];
    }
  }

  /** Any text followed by a blank line and a description starts with that
      text, ends with the blank line and the description, and gives the
      description back when the text and the blank line are dropped. */
  lemma AroundBlankLine(t: string, description: string)
    ensures PyStr.StartsWith(t + "\n\n" + description, t)
    ensures PyStr.EndsWith(t + "\n\n" + description, "\n\n" + description)
    ensures DescriptionOf(t + "\n\n" + description, t) == description
  {
    var r := t + "\n\n" + description;
    assert r == t + ("\n\n" + description);
    PyStr.StartsWithConcat(t, "\n\n" + description);
    assert r[|r| - |"\n\n" + description|..] == "\n\n" + description;
    assert r[|t| + 2..] == description;
  }

  /** No template is a prefix of a prompt built from another: they differ in
      their first twelve characters. */
  lemma TemplatesDiffer(promptType: string, rest: string)
    ensures PromptTypeOf(Template(promptType) + rest) == (if promptType in {"simple", "fsm"} then promptType else "improved")
  {
    TemplateCases(promptType);
    TemplateHeads();
    var t := Template(promptType);
    if promptType == "simple" {
      PyStr.StartsWithConcat(SimplePrompt, rest);
    } else if promptType == "fsm" {
      DiffersAt(t + rest, SimplePrompt, 11);
      PyStr.StartsWithConcat(FsmPrompt, rest);
    } else {
      DiffersAt(t + rest, SimplePrompt, 0);
      DiffersAt(t + rest, FsmPrompt, 0);
    }
  }

  /** A prompt ends with the description, after a blank line that follows the
      selected template; both the template's name (an unknown name reads as
      "improved") and the description can be read back from it. */
  lemma GetImprovedPromptMeaning(description: string, promptType: string)
    ensures PyStr.EndsWith(GetImprovedPrompt(description, promptType), "\n\n" + description)
    ensures PyStr.StartsWith(GetImprovedPrompt(description, promptType), Template(promptType))
    ensures PromptTypeOf(GetImprovedPrompt(description, promptType))
            == (if promptType in {"simple", "fsm"} then promptType else "improved")
    ensures DescriptionOf(GetImprovedPrompt(description, promptType), Template(promptType)) == description
  {
    var t := Template(promptType);
    AroundBlankLine(t, description);
    assert t + "\n\n" + description == t + ("\n\n" + description);
    TemplatesDiffer(promptType, "\n\n" + description);
  }

  /** An unknown prompt type gives the same prompt as "improved". */
  lemma UnknownTypeFallsBack(description: string, promptType: string)
    requires promptType !in {"improved", "simple", "fsm"}
    ensures GetImprovedPrompt(description, promptType) == GetImprovedPrompt(description, "improved")
  {
    TemplateCases(promptType);
    TemplateCases("improved");
  }

  /** The few-shot prompt starts with the examples and ends with the
      description, which can be read back from it. */
  lemma GetFewShotPromptMeaning(description: string)
    ensures PyStr.StartsWith(GetFewShotPrompt(description), FewShotExamples + "\n\n")
    ensures PyStr.EndsWith(GetFewShotPrompt(description), description)
    ensures DescriptionOf(GetFewShotPrompt(description), FewShotExamples) == description
  {
    var r := FewShotExamples + "\n\n" + description;
    PyStr.StartsWithConcat(FewShotExamples + "\n\n", description);
    assert r[|FewShotExamples| + 2..] == description;
  }
}
