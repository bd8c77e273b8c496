/** The prompt template of the synthetic generator and its fixed list of
    simple test descriptions. */
module Templates {
  import opened Wrappers
  import PyStr

  /** One piece of a `str.format` template: literal text, or a named
      placeholder `{name}`. */
  datatype Piece = Lit(text: string) | Field(name: string)

  /** `template.format(**values)`: the pieces in order, each placeholder
      replaced by its value; `None` (a `KeyError`) when a placeholder has no
      value. Values are inserted as they are, never scanned for placeholders. */
  function Format(template: seq<Piece>, values: map<string, string>): (r: Option<string>)
    ensures r.None? <==> exists i :: 0 <= i < |template| && template[i].Field? && template[i].name !in values
    decreases |template|
  {
    if template == [] then Some("")
    else
      var init := template[..|template| - 1];
      var rest := Format(init, values);
      assert forall i :: 0 <= i < |init| ==> init[i] == template[i];
      match template[|template| - 1]
      case Lit(text) => if rest.Some? then Some(rest.value + text) else None
      case Field(name) => if rest.Some? && name in values then Some(rest.value + values[name]) else None
  }

  /** Formatting one more piece of a template appends that piece's text. */
  lemma FormatPrefix(template: seq<Piece>, values: map<string, string>, k: nat)
    requires k < |template|
    requires Format(template[..k], values).Some?
    requires template[k].Field? ==> template[k].name in values
    ensures Format(template[..k + 1], values)
            == Some(Format(template[..k], values).value
                    + (if template[k].Lit? then template[k].text else values[template[k].name]))
  {
    assert template[..k + 1][..k] == template[..k];
  }

  /** A worked example shown to the model before the request. */
  const FewShotExample: string :=
    "\n"
    + "Example 1 - Traffic Light State Machine:\n"
    + "\n"
    + "Input: \"A traffic light machine that cycles through green, yellow, and red states.\"\n"
    + "\n"
    + "Output DOT:\n"
    + "```dot\n"
    + "digraph TrafficLight {\n"
    + "    rankdir=LR;\n"
    + "    \n"
    + "    green [label=\"Green\", shape=rectangle, style=\"rounded,filled\", fillcolor=lightgreen];\n"
    + "    yellow [label=\"Yellow\", shape=rectangle, style=\"rounded,filled\", fillcolor=yellow];\n"
    + "    red [label=\"Red\", shape=rectangle, style=\"rounded,filled\", fillcolor=lightcoral];\n"
    + "    \n"
    + "    green -> yellow [label=\"timer\"];\n"
    + "    yellow -> red [label=\"timer\"];\n"
    + "    red -> green [label=\"timer\"];\n"
    + "}\n"
    + "```\n"

  /** The system prompt's text before the few-shot placeholder. */
  const SystemHead: string :=
    "You are a DOT graph generator. Given a description of a state machine or workflow, generate a valid Graphviz DOT file.\n"
    + "\n"
    + "RULES:\n"
    + "1. Use 'digraph' for directed graphs\n"
    + "2. Keep it simple: 2-10 nodes maximum\n"
    + "3. Use clear, descriptive node labels\n"
    + "4. Add basic styling (shapes, colors) where appropriate\n"
    + "5. Label all edges with transition names\n"
    + "6. Output ONLY the DOT code, no explanations\n"
    + "7. Ensure the DOT is valid and will compile\n"
    + "\n"
    + "STYLE PATTERNS TO USE:\n"
    + "- Node shapes: rectangle, ellipse, circle\n"
    + "- Node styles: \"rounded,filled\", \"filled\"\n"
    + "- Colors: lightblue, lightgreen, yellow, lightcoral, white\n"
    + "- Graph attributes: rankdir=LR (left to right layout)\n"
    + "\n"
    + "DO NOT USE:\n"
    + "- Subgraphs or clusters (too complex)\n"
    + "- More than 10 nodes (too large)\n"
    + "- Undirected graphs\n"
    + "- Advanced DOT features\n"
    + "\n"

  /** The system prompt's text between the two placeholders. */
  const SystemMiddle: string :=
    "\n"
    + "\n"
    + "Now generate a DOT graph for this description:\n"

  /** The system prompt's text after the description placeholder. */
  const SystemTail: string :=
    "\n"
    + "\n"
    + "Output only the DOT code:"

  /** The system prompt: rules, `{few_shot_examples}`, the request line,
      `{prompt}` and the closing line. */
  const SystemPrompt: seq<Piece> :=
    [Lit(SystemHead), Field("few_shot_examples"), Lit(SystemMiddle), Field("prompt"), Lit(SystemTail)]

  /** `get_prompt(description)`; the template's two placeholders are both
      supplied, so formatting never fails. */
  function GetPrompt(description: string): string {
    var values := map["few_shot_examples" := FewShotExample, "prompt" := description];
    assert forall i :: 0 <= i < |SystemPrompt| && SystemPrompt[i].Field? ==> SystemPrompt[i].name in values;
    Format(SystemPrompt, values).value
  }

  /** The ten simple descriptions used to test the generator. */
  const SimplePrompts: seq<string> := [
     "A door controller with states: closed, opening, open, closing. Include transitions for 'open_button', 'opened', 'close_button', and 'closed'.",
     "A light switch with two states: on and off. Include a 'toggle' transition between them.",
     "A player character state machine with states: idle, walking, running, jumping. Add appropriate transitions.",
     "An order status workflow with states: pending, processing, shipped, delivered. Include state transitions.",
     "A login authentication flow with states: logged_out, logging_in, logged_in, session_expired.",
     "A coffee machine with states: idle, brewing, ready, cleaning. Add transitions for making coffee.",
     "A phone call state machine: idle, ringing, active, on_hold, ended.",
     "An elevator controller with states: idle, moving_up, moving_down, doors_open, emergency_stop.",
     "A TCP connection state machine: closed, listen, syn_sent, established, close_wait.",
     "A vending machine with states: idle, item_selected, payment_pending, dispensing, change_returned."
  ]

  /** `get_test_prompts(count)`: `SIMPLE_PROMPTS[:min(count, len(SIMPLE_PROMPTS))]`,
      so a negative count drops that many prompts from the end. */
  function GetTestPrompts(count: int): seq<string> {
    PyStr.Take(SimplePrompts, if count < |SimplePrompts| then count else |SimplePrompts|)
  }

  /** A template of two placeholders between three literal texts formats to
      the texts with the two values in between. */
  lemma FormatTwoFields(head: string, first: string, middle: string, second: string, tail: string)
    ensures Format([Lit(head), Field("few_shot_examples"), Lit(middle), Field("prompt"), Lit(tail)],
                   map["few_shot_examples" := first, "prompt" := second])
            == Some(head + first + middle + second + tail)
  {
    var template := [Lit(head), Field("few_shot_examples"), Lit(middle), Field("prompt"), Lit(tail)];
    var values := map["few_shot_examples" := first, "prompt" := second];
    FormatPrefix(template, values, 0);
    assert "" + head == head;
    FormatPrefix(template, values, 1);
    FormatPrefix(template, values, 2);
    FormatPrefix(template, values, 3);
    FormatPrefix(template, values, 4);
    assert template[..5] == template;
  }

  /** The prompt is the system text with the few-shot example and the
      description in the two placeholders' places. */
  lemma GetPromptShape(description: string)
    ensures GetPrompt(description) == SystemHead + FewShotExample + SystemMiddle + description + SystemTail
  {
    FormatTwoFields(SystemHead, FewShotExample, SystemMiddle, description, SystemTail);
  }

  /** The prompt holds the description at a fixed offset, so it contains it
      and determines it. */
  lemma GetPromptMeaning(description: string)
    ensures var k := |SystemHead + FewShotExample + SystemMiddle|;
      k + |description| <= |GetPrompt(description)| && GetPrompt(description)[k..k + |description|] == description
    ensures PyStr.Contains(GetPrompt(description), description)
  {
    GetPromptShape(description);
    PyStr.ContainsInside(SystemHead + FewShotExample + SystemMiddle, description, SystemTail);
  }

  /** Different descriptions give different prompts. */
  lemma GetPromptInjective(a: string, b: string)
    requires GetPrompt(a) == GetPrompt(b)
    ensures a == b
  {
    GetPromptShape(a);
    GetPromptShape(b);
    PyStr.InsideInjective(SystemHead + FewShotExample + SystemMiddle, a, b, SystemTail);
  }

  /** The test prompts are always a prefix of the list: the first `count` of
      them (all ten when `count` exceeds ten) for a count that is not negative,
      and all but the last `-count` for a negative one. */
  lemma GetTestPromptsMeaning(count: int)
    ensures GetTestPrompts(count) == SimplePrompts[..|GetTestPrompts(count)|]
    ensures count >= 0 ==> |GetTestPrompts(count)| == (if count < 10 then count else 10)
    ensures count < 0 ==> |GetTestPrompts(count)| == (if count < -10 then 0 else 10 + count)
  {
  }
}
