/** The instruction prefixes that training prompts are regenerated with: a
    request is prefixed by the instruction for its task type. */
module PromptsV2 {
  import PyStr

  /** The instruction placed before natural-language requests (and any other
      task type). */
  const BaseInstruction: string :=
    "Generate valid " + "Graphviz DOT code for the described state machine.\n\n"
    + "Requirements:\n"
    + "- Output ONLY the DOT code, no explanations or comments\n"
    + "- Use simple node and edge declarations\n"
    + "- Do not add labels, colors, or styling unless specified\n"
    + "- Ensure all mentioned states and transitions are included\n"
    + "- Use standard DOT syntax only\n\n"
    + "Example format:\n"
    + "digraph name {\n"
    + "  StateA -> StateB;\n"
    + "  StateB -> StateC;\n"
    + "}\n\n"
    + "Task: "

  /** The instruction placed before source code to be turned into a diagram. */
  const CodeToDotInstruction: string :=
    "Generate a DOT " + "state diagram representing the state machine in this code.\n\n"
    + "Requirements:\n"
    + "- Extract states and transitions only\n"
    + "- Use simple DOT syntax\n"
    + "- No styling unless the code specifies it\n\n"
    + "Code:\n"

  /** The instruction placed before broken DOT code. */
  const ErrorCorrectionInstruction: string := "Fix the syntax errors in this DOT code:\n\n"

  /** The three task types the regenerated data set distinguishes. */
  datatype TaskType = NlToDot | CodeToDot | ErrorCorrection

  /** The task type's name as it is stored in a pair's `task_type` field. */
  function TaskName(t: TaskType): string {
    match t
    case NlToDot => "nl_to_dot"
    case CodeToDot => "code_to_dot"
    case ErrorCorrection => "error_correction"
  }

  /** How a `task_type` string is read: the two special names, and the
      natural-language default for every other string. */
  function TaskOfName(name: string): (t: TaskType)
    ensures t != NlToDot ==> TaskName(t) == name
  {
    if name == "code_to_dot" then CodeToDot
    else if name == "error_correction" then ErrorCorrection
    else NlToDot
  }

  /** Reading a task type's own name gives that task type back. */
  lemma TaskOfNameInvertsTaskName(t: TaskType)
    ensures TaskOfName(TaskName(t)) == t
  {
  }

  function Instruction(t: TaskType): string {
    match t
    case NlToDot => BaseInstruction
    case CodeToDot => CodeToDotInstruction
    case ErrorCorrection => ErrorCorrectionInstruction
  }

  /** `format_prompt(user_request, task_type)`: the request, unchanged, after
      the instruction selected by the task type. */
  function FormatPrompt(request: string, taskType: string): string {
    Instruction(TaskOfName(taskType)) + request
  }

  /** A formatted prompt is the selected instruction followed by the whole
      request: it starts with the one and ends with the other. */
  lemma FormatPromptShape(request: string, taskType: string)
    ensures PyStr.StartsWith(FormatPrompt(request, taskType), Instruction(TaskOfName(taskType)))
    ensures PyStr.EndsWith(FormatPrompt(request, taskType), request)
  {
    var p := Instruction(TaskOfName(taskType));
    assert (p + request)[|p|..] == request;
    PyStr.StartsWithConcat(p, request);
  }

  /** The task type a formatted prompt was built for, read back from its
      instruction prefix. */
  function TaskOfPrompt(prompt: string): (t: TaskType)
    ensures t != NlToDot ==> PyStr.StartsWith(prompt, Instruction(t))
  {
    if PyStr.StartsWith(prompt, CodeToDotInstruction) then CodeToDot
    else if PyStr.StartsWith(prompt, ErrorCorrectionInstruction) then ErrorCorrection
    else NlToDot
  }

  /** The request can be recovered from a formatted prompt and its task type. */
  function RequestOfPrompt(prompt: string, t: TaskType): string {
    PyStr.Drop(prompt, |Instruction(t)|)
  }

  /** No instruction prefix is also a prefix of a prompt built from another
      one: the instructions already differ within their first ten characters. */
  lemma InstructionsDiffer(t: TaskType, request: string)
    ensures TaskOfPrompt(Instruction(t) + request) == t
  {
    var r := Instruction(t) + request;
    match t {
      case NlToDot =>
        assert r[9] == 'v' && CodeToDotInstruction[9] == 'a';
        assert r[0] == 'G' && ErrorCorrectionInstruction[0] == 'F';
      case CodeToDot =>
        PyStr.StartsWithConcat(CodeToDotInstruction, request);
      case ErrorCorrection =>
        assert r[0] == 'F' && CodeToDotInstruction[0] == 'G';
        PyStr.StartsWithConcat(ErrorCorrectionInstruction, request);
    }
  }

  /** A formatted prompt determines both how its task type was read and the
      request it was built from. */
  lemma FormatPromptRoundTrip(request: string, taskType: string)
    ensures TaskOfPrompt(FormatPrompt(request, taskType)) == TaskOfName(taskType)
    ensures RequestOfPrompt(FormatPrompt(request, taskType), TaskOfName(taskType)) == request
  {
    var t := TaskOfName(taskType);
    InstructionsDiffer(t, request);
    assert (Instruction(t) + request)[|Instruction(t)|..] == request;
  }

  /** Two requests formatted for the same task type give the same prompt only
      when they are the same request. */
  lemma FormatPromptInjective(a: string, b: string, taskType: string)
    requires FormatPrompt(a, taskType) == FormatPrompt(b, taskType)
    ensures a == b
  {
    FormatPromptRoundTrip(a, taskType);
    FormatPromptRoundTrip(b, taskType);
  }
}
