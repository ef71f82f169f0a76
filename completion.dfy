/** `get_chat_completion`: building the request for the active agent and
    sending it through the client, with the per-mode failure rules. */
module Completion {
  import opened Types

  const ModelKey := "model"
  const MessagesKey := "messages"
  const ToolsKey := "tools"
  const ToolChoiceKey := "tool_choice"
  const StreamKey := "stream"
  const ParallelKey := "parallel_tool_calls"

  /** Python's `list.remove` when the element is present: drops one
      occurrence (the first, as `RemoveFirstKeepsOrder` states). */
  function RemoveFirst(s: seq<string>, x: string): (r: seq<string>)
    ensures x !in s ==> r == s
    ensures x in s ==> |r| == |s| - 1
    ensures multiset(r) == multiset(s) - multiset{x}
  {
    if s == [] then []
    else
      assert s == [s[0]] + s[1..];
      if s[0] == x then s[1..] else [s[0]] + RemoveFirst(s[1..], x)
  }

  /** `list.remove` drops the first occurrence of `x` and keeps the other
      entries in their order. */
  lemma {:induction false} RemoveFirstKeepsOrder(s: seq<string>, x: string) returns (i: nat)
    requires x in s
    ensures i < |s| && s[i] == x && x !in s[..i]
    ensures RemoveFirst(s, x) == s[..i] + s[i + 1..]
  {
    if s[0] == x {
      i := 0;
    } else {
      var t := s[1..];
      var j := RemoveFirstKeepsOrder(t, x);
      i := j + 1;
      DropAfterHead(s, j);
    }
  }

  /** Cutting `s` around position `j + 1` is cutting its tail around `j`. */
  lemma DropAfterHead<T>(s: seq<T>, j: nat)
    requires j + 1 < |s|
    ensures s[..j + 1] == [s[0]] + s[1..][..j]
    ensures s[..j + 1] + s[j + 2..] == [s[0]] + (s[1..][..j] + s[1..][j + 1..])
  {
    assert s[j + 2..] == s[1..][j + 1..];
  }

  /** A descriptor with `context_variables` popped from its properties and
      removed (once) from its required list. */
  function HideContextVariables(schema: ToolSchema): (r: ToolSchema)
    ensures r.name == schema.name && r.description == schema.description
    ensures r.properties == schema.properties - {ContextVariablesName}
    ensures ContextVariablesName !in schema.required ==> r.required == schema.required
    ensures ContextVariablesName in schema.required ==> r.required == RemoveFirst(schema.required, ContextVariablesName)
  {
    var params := schema.(properties := schema.properties - {ContextVariablesName});
    if ContextVariablesName in params.required then
      params.(required := RemoveFirst(params.required, ContextVariablesName))
    else params
  }

  /** The required list loses exactly one `context_variables`, so none is
      left when the introspector listed it at most once. */
  lemma HiddenRequired(schema: ToolSchema)
    ensures var r := HideContextVariables(schema);
            && multiset(r.required) == multiset(schema.required) - multiset{ContextVariablesName}
            && (multiset(schema.required)[ContextVariablesName] <= 1 ==> ContextVariablesName !in r.required)
  {
    var r := HideContextVariables(schema);
    assert multiset(r.required) == multiset(schema.required) - multiset{ContextVariablesName};
    if ContextVariablesName in r.required {
      assert ContextVariablesName in multiset(r.required);
    }
  }

  /** The descriptors of the agent's functions, as transmitted. */
  function HiddenTools(agent: Agent): (r: seq<ToolSchema>)
    ensures |r| == |agent.functions|
  {
    seq(|agent.functions|, i requires 0 <= i < |agent.functions| => HideContextVariables(agent.functions[i].schema))
  }

  /** The instructions text: the static text, or the callable applied to the
      context variables. */
  function ResolveInstructions(agent: Agent, ctx: Ctx, env: Env): (text: string)
    ensures agent.instructions.Text? ==> text == agent.instructions.text
    ensures agent.instructions.Computed? ==> text == env.instructionsFor(agent.instructions.fn, ctx)
  {
    match agent.instructions
    case Text(text) => text
    case Computed(fn) => env.instructionsFor(fn, ctx)
  }

  function SystemMessage(instructions: string): Message
  {
    ChatMessage("system", Some(instructions), None, None)
  }

  /** Neither `not agent.model` nor `not model_override`... at least one model is given. */
  predicate HasModel(agent: Agent, modelOverride: Option<string>)
  {
    Truthy(agent.model) || Truthy(modelOverride)
  }

  /** `model_override or agent.model` */
  function ChosenModel(agent: Agent, modelOverride: Option<string>): (m: string)
    requires HasModel(agent, modelOverride)
    ensures m != ""
    ensures Truthy(modelOverride) ==> m == modelOverride.value
    ensures !Truthy(modelOverride) ==> m == agent.model.value
  {
    if Truthy(modelOverride) then modelOverride.value else agent.model.value
  }

  /** The `create_params` literal: `tools or None` for the tools. */
  function DefaultParams(agent: Agent, messages: seq<Message>, tools: seq<ToolSchema>, modelOverride: Option<string>,
                         stream: bool): Params
    requires HasModel(agent, modelOverride)
  {
    map[ModelKey := ModelName(ChosenModel(agent, modelOverride)),
        MessagesKey := Conversation(messages),
        ToolsKey := if |tools| > 0 then ToolList(tools) else PNone,
        ToolChoiceKey := if agent.toolChoice.Some? then ToolChoice(agent.toolChoice.value) else PNone,
        StreamKey := Flag(stream)]
  }

  /** `create_params` after `create_params.update(model_config)`. */
  function BaseParams(agent: Agent, history: seq<Message>, ctx: Ctx, modelOverride: Option<string>,
                      stream: bool, config: Params, env: Env): Params
    requires HasModel(agent, modelOverride)
  {
    DefaultParams(agent, [SystemMessage(ResolveInstructions(agent, ctx, env))] + history, HiddenTools(agent),
                  modelOverride, stream)
    + config
  }

  /** The request before the mode branches: the five default fields and the
      overlay's keys, every overlay entry winning over a default, and each
      default the overlay leaves alone as built: the hidden tools, None
      exactly when the agent has no function, and the agent's tool choice. */
  lemma BaseParamsFields(agent: Agent, history: seq<Message>, ctx: Ctx, modelOverride: Option<string>,
                         stream: bool, config: Params, env: Env)
    requires HasModel(agent, modelOverride)
    ensures var params := BaseParams(agent, history, ctx, modelOverride, stream, config, env);
            && params.Keys == {ModelKey, MessagesKey, ToolsKey, ToolChoiceKey, StreamKey} + config.Keys
            && (forall k :: k in config ==> params[k] == config[k])
            && (ModelKey !in config ==> params[ModelKey] == ModelName(ChosenModel(agent, modelOverride)))
            && (MessagesKey !in config ==>
                  params[MessagesKey] == Conversation([SystemMessage(ResolveInstructions(agent, ctx, env))] + history))
            && (ToolsKey !in config ==> (params[ToolsKey] == PNone <==> agent.functions == []))
            && (ToolsKey !in config && agent.functions != [] ==> params[ToolsKey] == ToolList(HiddenTools(agent)))
            && (ToolChoiceKey !in config ==>
                  params[ToolChoiceKey] == if agent.toolChoice.Some? then ToolChoice(agent.toolChoice.value) else PNone)
            && (StreamKey !in config ==> params[StreamKey] == Flag(stream))
  {
  }

  /** The first request in the openai/ollama modes: `parallel_tool_calls` is
      added when the agent has tools. */
  function WithParallel(params: Params, agent: Agent): Params
  {
    if |agent.functions| > 0 then params[ParallelKey := Flag(agent.parallelToolCalls)] else params
  }

  /** The retried request: tools and tool choice set to None. */
  function WithoutTools(params: Params): Params
  {
    params[ToolsKey := PNone][ToolChoiceKey := PNone]
  }

  const NoScriptedReply := "the client has no further reply"

  /** The client's answer to the next request; past the end of the script it fails. */
  function Head<T>(script: seq<Attempt<T>>): Attempt<T>
  {
    if script == [] then Fails(NoScriptedReply) else script[0]
  }

  function Tail<T>(script: seq<Attempt<T>>): seq<Attempt<T>>
  {
    if script == [] then [] else script[1..]
  }

  /** What a call of `get_chat_completion` does: its result (`Ok(None)` when
      it falls through every mode branch), the requests it sent, and the
      client's remaining script. */
  datatype Completion<T> = Completion(result: Outcome<Option<T>>, sent: seq<Params>, rest: seq<Attempt<T>>)

  ghost predicate IsSuffix<T>(rest: seq<T>, s: seq<T>)
  {
    |rest| <= |s| && rest == s[|s| - |rest|..]
  }

  /** openai/ollama: send `first`; when the client fails, send it again
      without tools, and let a second failure through as the client's own. */
  function SendWithRetry<T>(first: Params, script: seq<Attempt<T>>): (c: Completion<T>)
    ensures IsSuffix(c.rest, script) && |c.rest| + |c.sent| >= |script|
    ensures 1 <= |c.sent| <= 2 && c.sent[0] == first
    ensures |c.sent| == 2 <==> Head(script).Fails?
    ensures |c.sent| == 2 ==> c.sent[1] == WithoutTools(first)
    ensures c.result.Err? <==> Head(script).Fails? && Head(Tail(script)).Fails?
    ensures c.result.Err? ==> c.result.error == ClientError(Head(Tail(script)).reason)
    ensures c.result.Ok? ==>
              (c.result.value.Some? && |c.rest| < |script|
               && script[|script| - |c.rest| - 1] == Answers(c.result.value.value))
  {
    match Head(script)
    case Answers(m) => Completion(Ok(Some(m)), [first], Tail(script))
    case Fails(_) =>
      var retry := WithoutTools(first);
      match Head(Tail(script))
      case Answers(m) => Completion(Ok(Some(m)), [first, retry], Tail(Tail(script)))
      case Fails(reason) => Completion(Err(ClientError(reason)), [first, retry], Tail(Tail(script)))
  }

  /** gemini: send once; any failure becomes the ValueError. */
  function SendOnce<T>(params: Params, script: seq<Attempt<T>>): (c: Completion<T>)
    ensures IsSuffix(c.rest, script) && |c.rest| + |c.sent| >= |script|
    ensures c.sent == [params]
    ensures c.result.Err? <==> Head(script).Fails?
    ensures c.result.Err? ==> c.result.error == ValueError(ModelRequired)
    ensures c.result.Ok? ==>
              (c.result.value.Some? && |c.rest| < |script|
               && script[|script| - |c.rest| - 1] == Answers(c.result.value.value))
  {
    match Head(script)
    case Answers(m) => Completion(Ok(Some(m)), [params], Tail(script))
    case Fails(_) => Completion(Err(ValueError(ModelRequired)), [params], Tail(script))
  }

  function ChatCompletion<T>(mode: Mode, agent: Agent, history: seq<Message>, ctx: Ctx,
                                 modelOverride: Option<string>, stream: bool, config: Params, env: Env,
                                 script: seq<Attempt<T>>): (c: Completion<T>)
    ensures IsSuffix(c.rest, script) && |c.sent| <= 2
    // no model: the ValueError comes before any request, in every mode
    ensures !HasModel(agent, modelOverride) ==> c == Completion(Err(ValueError(ModelRequired)), [], script)
    // any other mode: no request, and None comes back
    ensures HasModel(agent, modelOverride) && !mode.ToolRole() && !mode.Gemini() ==>
              c == Completion(Ok(None), [], script)
    // a reply is the client's answer to the last request sent
    ensures c.result.Ok? && c.result.value.Some? ==>
              (mode.ToolRole() || mode.Gemini()) && |c.rest| < |script|
              && script[|script| - |c.rest| - 1] == Answers(c.result.value.value)
  {
    if !HasModel(agent, modelOverride) then Completion(Err(ValueError(ModelRequired)), [], script)
    else
      var params := BaseParams(agent, history, ctx, modelOverride, stream, config, env);
      if mode.ToolRole() then SendWithRetry(WithParallel(params, agent), script)
      else if mode.Gemini() then SendOnce(params, script)
      else Completion(Ok(None), [], script)
  }

  /** The loop over the descriptors: each one loses `context_variables` in place. */
  method HideInPlace(tools: array<ToolSchema>)
    modifies tools
    ensures forall j :: 0 <= j < tools.Length ==> tools[j] == HideContextVariables(old(tools[j]))
  {
    for i := 0 to tools.Length
      invariant forall j :: 0 <= j < i ==> tools[j] == HideContextVariables(old(tools[j]))
      invariant forall j :: i <= j < tools.Length ==> tools[j] == old(tools[j])
    {
      var params := tools[i];
      params := params.(properties := params.properties - {ContextVariablesName});
      if ContextVariablesName in params.required {
        params := params.(required := RemoveFirst(params.required, ContextVariablesName));
      }
      tools[i] := params;
    }
  }

  /** The imperative form: the descriptors are built in an array and stripped
      in place, the parameter dictionary is built and updated, and the client
      is called (twice at most). */
  method GetChatCompletion<T>(mode: Mode, agent: Agent, history: seq<Message>, ctx: Ctx,
                              modelOverride: Option<string>, stream: bool, config: Params, env: Env,
                              script: seq<Attempt<T>>)
    returns (result: Outcome<Option<T>>, sent: seq<Params>, rest: seq<Attempt<T>>)
    ensures Completion(result, sent, rest)
            == ChatCompletion(mode, agent, history, ctx, modelOverride, stream, config, env, script)
  {
    var instructions := ResolveInstructions(agent, ctx, env);
    var messages := [SystemMessage(instructions)] + history;
    var tools := TransmittedTools(agent);

    if !HasModel(agent, modelOverride) {
      return Err(ValueError(ModelRequired)), [], script;
    }
    var createParams := CreateParams(agent, messages, tools, modelOverride, stream, config);

    if mode.ToolRole() {
      if |tools| > 0 {
        createParams := createParams[ParallelKey := Flag(agent.parallelToolCalls)];
      }
      result, sent, rest := CreateWithRetry(createParams, script);
    } else if mode.Gemini() {
      result, sent, rest := CreateOrValueError(createParams, script);
    } else {
      result, sent, rest := Ok(None), [], script;
    }
  }

  /** `[function_to_json(f) for f in agent.functions]`, each descriptor then
      stripped of `context_variables` in place. */
  method TransmittedTools(agent: Agent) returns (tools: seq<ToolSchema>)
    ensures tools == HiddenTools(agent)
  {
    var fs := agent.functions;
    var descriptors := new ToolSchema[|fs|](i requires 0 <= i < |fs| => fs[i].schema);
    HideInPlace(descriptors);
    tools := descriptors[..];
  }

  /** The `create_params` dictionary, then `create_params.update(model_config)`. */
  method CreateParams(agent: Agent, messages: seq<Message>, tools: seq<ToolSchema>, modelOverride: Option<string>,
                      stream: bool, config: Params)
    returns (createParams: Params)
    requires HasModel(agent, modelOverride)
    ensures createParams == DefaultParams(agent, messages, tools, modelOverride, stream) + config
  {
    createParams := map[
      ModelKey := ModelName(ChosenModel(agent, modelOverride)),
      MessagesKey := Conversation(messages),
      ToolsKey := if |tools| > 0 then ToolList(tools) else PNone,
      ToolChoiceKey := if agent.toolChoice.Some? then ToolChoice(agent.toolChoice.value) else PNone,
      StreamKey := Flag(stream)];
    createParams := createParams + config;
  }

  /** The openai/ollama branch: `client.chat.completions.create`, and on any
      exception the same call with `tools` and `tool_choice` set to None,
      unguarded. */
  method CreateWithRetry<T>(createParams: Params, script: seq<Attempt<T>>)
    returns (result: Outcome<Option<T>>, sent: seq<Params>, rest: seq<Attempt<T>>)
    ensures Completion(result, sent, rest) == SendWithRetry(createParams, script)
  {
    var params := createParams;
    var reply := Head(script);
    sent, rest := [params], Tail(script);
    if reply.Answers? {
      return Ok(Some(reply.reply)), sent, rest;
    }
    params := params[ToolsKey := PNone];
    params := params[ToolChoiceKey := PNone];
    reply := Head(rest);
    sent, rest := sent + [params], Tail(rest);
    result := if reply.Answers? then Ok(Some(reply.reply)) else Err(ClientError(reply.reason));
  }

  /** The gemini branch: one call; any exception becomes the ValueError. */
  method CreateOrValueError<T>(createParams: Params, script: seq<Attempt<T>>)
    returns (result: Outcome<Option<T>>, sent: seq<Params>, rest: seq<Attempt<T>>)
    ensures Completion(result, sent, rest) == SendOnce(createParams, script)
  {
    var reply := Head(script);
    sent, rest := [createParams], Tail(script);
    result := if reply.Answers? then Ok(Some(reply.reply)) else Err(ValueError(ModelRequired));
  }

  /** Every descriptor that reaches the client lacks `context_variables` in
      its properties, and in its required list when the introspector listed it
      there at most once (unless `model_config` replaced the tools). */
  lemma {:induction false} TransmittedToolsHideContext<T>(mode: Mode, agent: Agent, history: seq<Message>, ctx: Ctx,
                                                          modelOverride: Option<string>, stream: bool, config: Params,
                                                          env: Env, script: seq<Attempt<T>>)
    requires ToolsKey !in config
    requires forall f :: f in agent.functions ==> multiset(f.schema.required)[ContextVariablesName] <= 1
    ensures var c := ChatCompletion(mode, agent, history, ctx, modelOverride, stream, config, env, script);
            forall p: Params :: p in c.sent ==>
              ToolsKey in p
              && (p[ToolsKey] == PNone || p[ToolsKey] == ToolList(HiddenTools(agent)))
              && (p[ToolsKey].ToolList? ==>
                    forall t: ToolSchema :: t in p[ToolsKey].tools ==>
                      ContextVariablesName !in t.properties && ContextVariablesName !in t.required)
  {
    var c := ChatCompletion(mode, agent, history, ctx, modelOverride, stream, config, env, script);
    var hidden := HiddenTools(agent);
    forall t | t in hidden
      ensures ContextVariablesName !in t.properties && ContextVariablesName !in t.required
    {
      var i :| 0 <= i < |hidden| && hidden[i] == t;
      assert agent.functions[i] in agent.functions;
      HiddenRequired(agent.functions[i].schema);
    }
    if HasModel(agent, modelOverride) {
      var base := BaseParams(agent, history, ctx, modelOverride, stream, config, env);
      assert base[ToolsKey] == PNone || base[ToolsKey] == ToolList(hidden);
    }
  }

  /** The request's fields: the chosen model and the system-prompted history
      unless `model_config` overrides them, and every `model_config` entry
      wins over the defaults (only `parallel_tool_calls` is set after it). */
  lemma FirstRequest<T>(mode: Mode, agent: Agent, history: seq<Message>, ctx: Ctx,
                        modelOverride: Option<string>, stream: bool, config: Params, env: Env,
                        script: seq<Attempt<T>>)
    requires HasModel(agent, modelOverride) && (mode.ToolRole() || mode.Gemini())
    ensures var c := ChatCompletion(mode, agent, history, ctx, modelOverride, stream, config, env, script);
            && |c.sent| >= 1
            && (ModelKey !in config ==>
                  c.sent[0][ModelKey] == ModelName(if Truthy(modelOverride) then modelOverride.value else agent.model.value))
            && (MessagesKey !in config ==>
                  c.sent[0][MessagesKey] == Conversation([SystemMessage(ResolveInstructions(agent, ctx, env))] + history))
            && (forall k :: k in config && k != ParallelKey ==> c.sent[0][k] == config[k])
            && (mode.ToolRole() && |agent.functions| > 0 ==> c.sent[0][ParallelKey] == Flag(agent.parallelToolCalls))
            && (!(mode.ToolRole() && |agent.functions| > 0) ==> (ParallelKey in c.sent[0] <==> ParallelKey in config))
  {
    var params := BaseParams(agent, history, ctx, modelOverride, stream, config, env);
    BaseParamsFields(agent, history, ctx, modelOverride, stream, config, env);
    var c := ChatCompletion(mode, agent, history, ctx, modelOverride, stream, config, env, script);
    assert c.sent[0] == if mode.ToolRole() then WithParallel(params, agent) else params;
  }
}
