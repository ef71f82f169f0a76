/** Data model of the Swarm turn engine: agents, messages, tool calls, tool
    results, the parameters of a completion request, streamed deltas, and the
    oracles that stand for the code this model does not contain. */
module Types {

  datatype Option<+T> = None | Some(value: T)

  /** A Python call that returns a value or raises. */
  datatype Outcome<+T> = Ok(value: T) | Err(error: Error)

  /** One answer of the chat client: a reply, or the exception it raised. */
  datatype Attempt<+T> = Answers(reply: T) | Fails(reason: string)

  /** The exceptions the engine raises or lets through, by Python class. */
  datatype Error =
    | ValueError(message: string)      // configuration errors raised by Swarm itself
    | TypeError(message: string)       // raised by the engine or by Python on a None value
    | ClientError(reason: string)      // the client's own exception, from the unguarded retry
    | ToolError(reason: string)        // an exception raised inside a tool function
    | RenderError(reason: string)      // an exception raised while formatting a tool's return value
    | JsonDecodeError(text: string)    // json.loads failed on this text
    | KeyError(key: string)            // function_map[name] with an unregistered name
    | AttributeError(message: string)  // an attribute read on None
    | IndexError(message: string)      // [-1] on an empty list

  /** Python's complaint about `args[name] = value` on a decoded list, number,
      string or None, and about `f(**args)` when `args` is not a dict. */
  const NoItemAssignment := "object does not support item assignment"
  const NotAMapping := "argument after ** must be a mapping"

  /** The name of the hidden parameter that carries the context variables. */
  const ContextVariablesName := "context_variables"

  const ModeRequired := "Please set mode (e.g., openai, gemini, ollama)."
  const GeminiKeyRequired := "Please provide GEMINI_API_KEY !"
  const ModelRequired := "Please provide either the agent model name or model_override that is compatible with the current mode."

  type NonEmptyString = s: string | s != [] witness "openai"

  /** `s` occurs in `t` as a contiguous piece: Python's `s in t` on strings. */
  predicate IsSubstring(s: string, t: string)
    decreases |t|
  {
    s <= t || (t != [] && IsSubstring(s, t[1..]))
  }

  /** The backend family, fixed at construction. The three tests below are the
      three different ways the engine inspects it. */
  datatype Mode = Mode(name: NonEmptyString) {
    /** `mode in ("ollama", "openai")`: membership in a tuple, so equality. */
    predicate ToolRole() { name == "openai" || name == "ollama" }

    /** `mode == "gemini"` */
    predicate Gemini() { name == "gemini" }

    /** `mode in ("gemini")`: the parentheses make a string, not a tuple, so
        this is a substring test ("gem" and "mini" pass it). */
    predicate GeminiLike() { IsSubstring(name, "gemini") }
  }

  /** A context value, by its text. */
  type Value = string
  type Ctx = map<string, Value>

  /** The descriptor that the introspector derives from a tool function. */
  datatype ToolSchema = ToolSchema(
    name: string,
    description: string,
    properties: map<string, string>,
    required: seq<string>)

  /** A registered tool function. `id` stands for the identity of the Python
      callable; `takesContext` says whether `context_variables` is among its
      variable names. */
  datatype AgentFunction = AgentFunction(
    id: nat,
    name: string,
    takesContext: bool,
    schema: ToolSchema)

  /** An agent's instructions: static text, or a callable (identified by `fn`)
      of the context variables. */
  datatype Instructions = Text(text: string) | Computed(fn: nat)

  datatype Agent = Agent(
    name: string,
    instructions: Instructions,
    model: Option<string>,
    functions: seq<AgentFunction>,
    toolChoice: Option<string>,
    parallelToolCalls: bool)

  datatype ToolCall = ToolCall(id: string, name: string, arguments: string, kind: string)

  /** An entry of the conversation history: a role/content message (assistant,
      user, system) or a tool-result message. */
  datatype Message =
    | ChatMessage(role: string, content: Option<string>, sender: Option<string>, toolCalls: Option<seq<ToolCall>>)
    | ToolMessage(toolCallId: string, toolName: string, result: string)

  /** `choices[0].message` of a buffered completion. */
  datatype ModelMessage = ModelMessage(role: string, content: Option<string>, toolCalls: Option<seq<ToolCall>>)

  /** The canonical outcome of a tool function. */
  datatype ToolResult = ToolResult(value: string, contextVariables: Ctx, agent: Option<Agent>)

  datatype Response = Response(messages: seq<Message>, agent: Option<Agent>, contextVariables: Ctx)

  /** A keyword argument of a tool call: decoded JSON, or the injected context. */
  datatype ArgValue = Json(text: string) | Context(ctx: Ctx)
  type Args = map<string, ArgValue>

  /** What `json.loads` makes of a tool call's arguments: a dict, some other
      JSON value (a list, a number, a string, true/false or null), or nothing. */
  datatype Decoded = Object(args: Args) | NotAnObject | Undecodable

  /** What `str(x)` or `format(x)` gives for a value, or the exception it raises. */
  datatype Rendering = Rendered(text: string) | RenderFails(reason: string)

  /** The value a tool function returns, resolved once into a tagged union. */
  datatype RawValue =
    | RawResult(result: ToolResult)
    | RawAgent(agent: Agent)
    | RawOther(str: Rendering, formatted: Rendering)

  /** Calling a tool function: it returns, or it raises. */
  datatype ToolOutcome = Returns(raw: RawValue) | Raises(reason: string)

  /** A value in the keyword arguments of `chat.completions.create`. */
  datatype Param =
    | PNone
    | ModelName(model: string)
    | Conversation(messages: seq<Message>)
    | ToolList(tools: seq<ToolSchema>)
    | ToolChoice(choice: string)
    | Flag(flag: bool)
    | Opaque(repr: string)
  type Params = map<string, Param>

  /** One streamed tool-call fragment, tagged with its position. */
  datatype ToolCallFragment = ToolCallFragment(
    index: nat,
    id: Option<string>,
    kind: Option<string>,
    name: Option<string>,
    arguments: Option<string>)

  /** The part of a delta that is merged into the message being built. */
  datatype DeltaBody = DeltaBody(content: Option<string>, toolCalls: Option<seq<ToolCallFragment>>)

  /** One streamed delta: its role and the rest. */
  datatype Delta = Delta(role: Option<string>, body: DeltaBody)

  /** A tool call being assembled from fragments. */
  datatype PartialToolCall = PartialToolCall(id: string, kind: string, name: string, arguments: string)

  /** An entry of the index-keyed tool-call table; the table is a sequence of
      entries in insertion order, like a Python dict. */
  datatype TableEntry = TableEntry(index: nat, call: PartialToolCall)

  /** The streamed message under construction: its content and its tool-call table. */
  datatype Accum = Accum(content: string, toolCalls: seq<TableEntry>)

  /** The code the engine calls but that is not part of this model. */
  datatype Env = Env(
    instructionsFor: (nat, Ctx) -> string,      // calling a callable agent.instructions
    parseArgs: string -> Decoded,              // json.loads of a tool call's arguments
    showArgs: Args -> string,                   // f"{args}"
    callTool: (AgentFunction, Args) -> ToolOutcome,  // function_map[name](**args)
    handoffJson: string -> string,              // json.dumps({"assistant": name})
    wrapGemini: Message -> string,              // the str(...).replace(...) encoding of a stored message
    unwrapGemini: string -> Option<string>,     // json.loads(content)["content"].strip(), if it succeeds
    mergeChunk: (Accum, DeltaBody) -> Accum)    // util.merge_chunk

  /** `not x` is false: present and not the empty string. */
  predicate Truthy(s: Option<string>)
  {
    s.Some? && s.value != ""
  }
}
