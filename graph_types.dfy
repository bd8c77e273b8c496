/** The graph-type table of the synthetic generator and the prompt it
    builds for one type: a header naming the pattern, the type and its
    description, one requirement line per constraint, and fixed closing
    instructions. */
module GraphTypes {
  import opened Wrappers
  import PyStr

  /** A constraint's value in the table: a number, a flag or a word. */
  datatype ConstraintValue = IntValue(n: int) | BoolValue(b: bool) | StrValue(s: string)

  /** `str(value)` as an f-string renders it. */
  function ValueText(v: ConstraintValue): string {
    match v
    case IntValue(n) => PyStr.IntToString(n)
    case BoolValue(b) => if b then "True" else "False"
    case StrValue(s) => s
  }

  /** One entry of the table: a description, example patterns, and the
      constraints in the order they are listed. */
  datatype GraphType = GraphType(description: string, patterns: seq<string>, constraints: seq<(string, ConstraintValue)>)

  /** `GRAPH_TYPES` */
  const GraphTypes: map<string, GraphType> :=
    map[
      "finite_state_machine" := GraphType(
          "State machines with transitions and events",
          [ "Session lifecycle (login, active, idle, logout)",
            "Network protocol states (connecting, connected, disconnecting)",
            "Game states (menu, playing, paused, game_over)",
            "Order processing (pending, processing, shipped, delivered)",
            "Payment flow (initiated, authorized, captured, failed)"],
          [ ("min_states", IntValue(3)),
            ("max_states", IntValue(8)),
            ("has_start_state", BoolValue(true)),
            ("has_end_states", BoolValue(true)),
            ("labeled_transitions", BoolValue(true))]),
      "data_structure" := GraphType(
          "Binary trees, linked lists, graphs",
          [ "Binary search tree with values",
            "Linked list traversal",
            "Hash table with chaining",
            "Heap structure",
            "Trie for string storage"],
          [ ("min_nodes", IntValue(4)),
            ("max_nodes", IntValue(12)),
            ("hierarchical", BoolValue(true)),
            ("node_labels", StrValue("values"))]),
      "workflow" := GraphType(
          "Business processes and sequential flows",
          [ "Document approval workflow",
            "User registration process",
            "Bug triage and resolution",
            "CI/CD pipeline stages",
            "Customer onboarding"],
          [ ("min_steps", IntValue(4)),
            ("max_steps", IntValue(10)),
            ("has_decision_points", BoolValue(true)),
            ("has_parallel_paths", BoolValue(false)),
            ("sequential_flow", BoolValue(true))]),
      "architecture" := GraphType(
          "System architecture and component relationships",
          [ "Microservices architecture",
            "Layered application (presentation, business, data)",
            "Client-server topology",
            "Event-driven architecture",
            "Database replication setup"],
          [ ("min_components", IntValue(4)),
            ("max_components", IntValue(12)),
            ("show_connections", BoolValue(true)),
            ("undirected", BoolValue(false))]),
      "automaton" := GraphType(
          "DFA, NFA for formal language recognition",
          [ "Recognize strings ending in '01'",
            "Accept even number of 'a's",
            "Binary number divisible by 3",
            "Strings with alternating symbols",
            "Palindrome recognizer"],
          [ ("min_states", IntValue(2)),
            ("max_states", IntValue(6)),
            ("alphabet_size", IntValue(2)),
            ("has_accept_states", BoolValue(true)),
            ("formal_notation", BoolValue(true))]),
      "dependency_graph" := GraphType(
          "Package dependencies, build order, prerequisites",
          [ "Software package dependencies",
            "Course prerequisites",
            "Task dependencies in project",
            "Build system targets",
            "Module import relationships"],
          [ ("min_nodes", IntValue(5)),
            ("max_nodes", IntValue(15)),
            ("acyclic", BoolValue(true)),
            ("directed", BoolValue(true))]),
      "class_diagram" := GraphType(
          "Object-oriented relationships",
          [ "Inheritance hierarchy",
            "Composition relationships",
            "Interface implementation",
            "Design pattern structure (Factory, Observer, etc)",
            "Domain model"],
          [ ("min_classes", IntValue(3)),
            ("max_classes", IntValue(8)),
            ("show_relationship_types", BoolValue(true)),
            ("labeled_edges", BoolValue(true))]),
      "network_topology" := GraphType(
          "Network and communication structures",
          [ "Star network topology",
            "Ring topology",
            "Mesh network",
            "Client-server connections",
            "Peer-to-peer network"],
          [ ("min_nodes", IntValue(4)),
            ("max_nodes", IntValue(10)),
            ("undirected", BoolValue(true)),
            ("show_node_types", BoolValue(true))]),
      "decision_tree" := GraphType(
          "Decision making and classification trees",
          [ "Animal classification",
            "Loan approval decision",
            "Medical diagnosis tree",
            "Product recommendation",
            "Troubleshooting flowchart"],
          [ ("min_depth", IntValue(2)),
            ("max_depth", IntValue(4)),
            ("binary_splits", BoolValue(true)),
            ("leaf_labels", StrValue("decisions")),
            ("hierarchical", BoolValue(true))])
    ]

  /** The first line of a prompt, naming the pattern. */
  function PatternLine(pattern: string): string {
    "Generate a DOT format graph for: " + pattern + "\n"
  }

  /** The lines naming the graph type and its description, after a blank line. */
  function TypeLines(graphType: string, description: string): string {
    "\nGraph Type: " + graphType + "\nDescription: " + description + "\n"
  }

  /** The title of the requirement lines, after a blank line. */
  const RequirementsTitle: string := "\nRequirements:\n"

  /** The text before the requirement lines. */
  function Header(pattern: string, graphType: string, description: string): string {
    PatternLine(pattern) + TypeLines(graphType, description) + RequirementsTitle
  }

  /** The requirement line for one constraint, without its newline. */
  function RequirementLine(c: (string, ConstraintValue)): string {
    "- " + c.0 + ": " + ValueText(c.1)
  }

  /** The requirement lines for the constraints, in order, each ended by a
      newline. */
  function Requirements(cs: seq<(string, ConstraintValue)>): string
    decreases |cs|
  {
    if cs == [] then "" else Requirements(cs[..|cs| - 1]) + RequirementLine(cs[|cs| - 1]) + "\n"
  }

  /** The closing instructions. */
  const Footer: string :=
    "\nOutput only the DOT format code, starting with 'digraph' or 'graph'.\n"
    + "Use clear node and edge labels.\n"
    + "Make it realistic and meaningful.\n"

  /** The prompt for a known graph type. */
  function PromptFor(graphType: string, pattern: string): string
    requires graphType in GraphTypes
  {
    var info := GraphTypes[graphType];
    Header(pattern, graphType, info.description) + Requirements(info.constraints) + Footer
  }

  /** The loop adding one requirement line per constraint to the prompt. */
  method AppendRequirements(prompt: string, cs: seq<(string, ConstraintValue)>) returns (r: string)
    ensures r == prompt + Requirements(cs)
  {
    r := prompt;
    for i := 0 to |cs|
      invariant r == prompt + Requirements(cs[..i])
    {
      assert cs[..i + 1][..i] == cs[..i];
      r := r + RequirementLine(cs[i]) + "\n";
    }
    assert cs[..|cs|] == cs;
  }

  /** `get_prompt_for_type(graph_type, pattern)`: a `ValueError` for a type
      missing from the table, otherwise the prompt built line by line. */
  method GetPromptForType(graphType: string, pattern: string) returns (r: Result<string, string>)
    ensures r.Err? <==> graphType !in GraphTypes
    ensures r.Err? ==> r.error == "ValueError: Unknown graph type: " + graphType
    ensures r.Ok? ==> r.value == PromptFor(graphType, pattern)
  {
    if graphType !in GraphTypes {
      return Err("ValueError: Unknown graph type: " + graphType);
    }
    var info := GraphTypes[graphType];
    var prompt := Header(pattern, graphType, info.description);
    prompt := AppendRequirements(prompt, info.constraints);
    prompt := prompt + Footer;
    return Ok(prompt);
  }

  /** Text that follows a header starts with its pattern line, then names the
      type and the description. */
  lemma HeaderLeads(pattern: string, graphType: string, description: string, rest: string)
    ensures PyStr.StartsWith(Header(pattern, graphType, description) + rest, PatternLine(pattern))
    ensures PyStr.StartsWith(Header(pattern, graphType, description) + rest,
                             PatternLine(pattern) + TypeLines(graphType, description))
  {
    PyStr.PrefixesOf(PatternLine(pattern), TypeLines(graphType, description), RequirementsTitle + rest);
    assert Header(pattern, graphType, description) + rest
        == PatternLine(pattern) + TypeLines(graphType, description) + (RequirementsTitle + rest);
  }

  /** The prompt starts with the pattern line, then names the type and its
      description, and ends with the closing instructions. */
  lemma PromptShape(graphType: string, pattern: string)
    requires graphType in GraphTypes
    ensures PyStr.StartsWith(PromptFor(graphType, pattern), PatternLine(pattern))
    ensures PyStr.StartsWith(PromptFor(graphType, pattern),
                             PatternLine(pattern) + TypeLines(graphType, GraphTypes[graphType].description))
    ensures PyStr.EndsWith(PromptFor(graphType, pattern), Footer)
  {
    PromptOfShape(pattern, graphType, GraphTypes[graphType].description, Requirements(GraphTypes[graphType].constraints));
  }

  lemma PromptOfShape(pattern: string, graphType: string, description: string, requirements: string)
    ensures PyStr.StartsWith(Header(pattern, graphType, description) + requirements + Footer, PatternLine(pattern))
    ensures PyStr.StartsWith(Header(pattern, graphType, description) + requirements + Footer,
                             PatternLine(pattern) + TypeLines(graphType, description))
    ensures PyStr.EndsWith(Header(pattern, graphType, description) + requirements + Footer, Footer)
  {
    assert Header(pattern, graphType, description) + requirements + Footer
        == Header(pattern, graphType, description) + (requirements + Footer);
    HeaderLeads(pattern, graphType, description, requirements + Footer);
    PyStr.EndsWithConcat(Header(pattern, graphType, description) + requirements, Footer);
  }

  /** The requirement lines terminated one by one, folded from the front. */
  function Terminated(lines: seq<string>): string
    decreases |lines|
  {
    if lines == [] then "" else lines[0] + "\n" + Terminated(lines[1..])
  }

  lemma {:induction false} TerminatedSnoc(lines: seq<string>, x: string)
    ensures Terminated(lines + [x]) == Terminated(lines) + x + "\n"
    decreases |lines|
  {
    if lines != [] {
      assert (lines + [x])[1..] == lines[1..] + [x];
      TerminatedSnoc(lines[1..], x);
    }
  }

  lemma {:induction false} TerminatedIsJoin(lines: seq<string>)
    ensures Terminated(lines) == PyStr.Join("\n", lines + [""])
    decreases |lines|
  {
    if lines != [] {
      assert (lines + [""])[1..] == lines[1..] + [""];
      TerminatedIsJoin(lines[1..]);
    }
  }

  /** The requirement lines without their newlines. */
  function RequirementLines(cs: seq<(string, ConstraintValue)>): (ls: seq<string>)
    ensures |ls| == |cs|
  {
    seq(|cs|, i requires 0 <= i < |cs| => RequirementLine(cs[i]))
  }

  lemma {:induction false} RequirementsTerminated(cs: seq<(string, ConstraintValue)>)
    ensures Requirements(cs) == Terminated(RequirementLines(cs))
    decreases |cs|
  {
    if cs != [] {
      var init := cs[..|cs| - 1];
      RequirementsTerminated(init);
      assert RequirementLines(cs) == RequirementLines(init) + [RequirementLine(cs[|cs| - 1])];
      TerminatedSnoc(RequirementLines(init), RequirementLine(cs[|cs| - 1]));
    }
  }

  /** A requirement line holds a newline only if its name or value does. */
  lemma LineFree(c: (string, ConstraintValue))
    requires '\n' !in c.0 && '\n' !in ValueText(c.1)
    ensures '\n' !in RequirementLine(c)
  {
    var l := RequirementLine(c);
    forall j | 0 <= j < |l| ensures l[j] != '\n' {
      if j < 2 + |c.0| + 2 {
        if j >= 2 && j < 2 + |c.0| { assert l[j] == c.0[j - 2]; }
      } else {
        assert l[j] == ValueText(c.1)[j - 4 - |c.0|];
      }
    }
  }

  /** When no constraint's name or value holds a newline, splitting the
      requirement block at newlines gives exactly one line per constraint, in
      table order (and the empty text after the last newline). */
  lemma RequirementsOnePerLine(cs: seq<(string, ConstraintValue)>)
    requires forall i :: 0 <= i < |cs| ==> '\n' !in cs[i].0 && '\n' !in ValueText(cs[i].1)
    ensures PyStr.Split(Requirements(cs), "\n") == RequirementLines(cs) + [""]
  {
    RequirementsAsJoin(cs);
    RequirementPartsFree(cs);
    PyStr.SplitJoin(RequirementLines(cs) + [""], '\n');
  }

  /** The requirement block is its lines joined by newlines, with an empty
      last part for the final newline. */
  lemma RequirementsAsJoin(cs: seq<(string, ConstraintValue)>)
    ensures Requirements(cs) == PyStr.Join("\n", RequirementLines(cs) + [""])
  {
    RequirementsTerminated(cs);
    TerminatedIsJoin(RequirementLines(cs));
  }

  /** No part of the block holds a newline when no constraint does. */
  lemma RequirementPartsFree(cs: seq<(string, ConstraintValue)>)
    requires forall i :: 0 <= i < |cs| ==> '\n' !in cs[i].0 && '\n' !in ValueText(cs[i].1)
    ensures forall i :: 0 <= i < |cs| + 1 ==> '\n' !in (RequirementLines(cs) + [""])[i]
  {
    var parts := RequirementLines(cs) + [""];
    forall i | 0 <= i < |cs| ensures '\n' !in parts[i] {
      LineFree(cs[i]);
    }
    assert '\n' !in parts[|cs|];
  }
}
