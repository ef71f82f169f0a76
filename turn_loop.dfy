/** `run`: the buffered turn loop over the history, the context variables and
    the active agent, followed by the gemini post-processing of the last
    message. */
module TurnLoop {
  import opened Types
  import Completion
  import Dispatch

  const NoChoices := "'NoneType' object has no attribute 'choices'"
  const NoName := "'NoneType' object has no attribute 'name'"
  const EmptyHistory := "list index out of range"
  const NoContent := "the JSON object must be str, bytes or bytearray, not NoneType"

  /** The caller's options for a run. `maxTurns == None` is the default
      `float("inf")`; a negative bound behaves like 0, so `nat` loses nothing. */
  datatype Settings = Settings(
    mode: Mode,
    modelOverride: Option<string>,
    config: Params,
    maxTurns: Option<nat>,
    executeTools: bool,
    env: Env)

  /** `len(history) - init_len < max_turns` */
  predicate Below(count: nat, maxTurns: Option<nat>)
  {
    maxTurns.None? || count < maxTurns.value
  }

  /** The loop's variables: the history, the context variables, the active
      agent, the client's remaining script, and the number of completions
      received so far (a counter of the model, not a variable of the source). */
  datatype RunState<T> = RunState(
    history: seq<Message>,
    ctx: Ctx,
    active: Option<Agent>,
    script: seq<Attempt<T>>,
    turns: nat)

  /** `not message.tool_calls` */
  predicate NoToolCalls(m: ModelMessage)
  {
    m.toolCalls.None? || m.toolCalls.value == []
  }

  /** The reply with `sender` set to the active agent's name. */
  function Stamped(m: ModelMessage, agent: Agent): Message
  {
    ChatMessage(m.role, m.content, Some(agent.name), m.toolCalls)
  }

  /** What `run` appends for a reply: the stamped message itself in the
      openai/ollama modes, only its role and its wrapped text in the
      gemini-like modes, nothing otherwise. */
  function Record(mode: Mode, m: ModelMessage, agent: Agent, env: Env): (r: seq<Message>)
    ensures mode.ToolRole() ==> r == [Stamped(m, agent)]
    ensures mode.ToolRole() || mode.Gemini() ==> |r| == 1
    ensures !mode.ToolRole() && mode.GeminiLike() ==>
              r == [ChatMessage(m.role, Some(env.wrapGemini(Stamped(m, agent))), None, None)]
  {
    if mode.ToolRole() then [Stamped(m, agent)]
    else if mode.GeminiLike() then [ChatMessage(m.role, Some(env.wrapGemini(Stamped(m, agent))), None, None)]
    else []
  }

  /** How many more turns `max_turns` allows once the history has grown by
      `count` messages. */
  function Room(maxTurns: nat, count: nat): nat
  {
    if count < maxTurns then maxTurns - count else 0
  }

  /** `r` is a state the loop can reach from `st`: the history has only
      grown, the context has only gained keys, an active agent is still
      there, there were no more turns than new messages, and no more turns
      than `max_turns` leaves room for from where `st` stood. */
  predicate Reaches<T>(s: Settings, initLen: nat, st: RunState<T>, r: RunState<T>)
    requires initLen <= |st.history|
  {
    && |st.history| <= |r.history| && r.history[..|st.history|] == st.history
    && st.ctx.Keys <= r.ctx.Keys
    && (st.active.Some? ==> r.active.Some?)
    && st.turns <= r.turns && r.turns - st.turns <= |r.history| - |st.history|
    && (s.maxTurns.Some? ==> r.turns - st.turns <= Room(s.maxTurns.value, |st.history| - initLen))
    && |r.script| <= |st.script|
  }

  /** The loop of `run`, from a given state to the state it stops in, or the
      exception that ends it. It stops before a turn once the history has
      grown by `max_turns` messages or there is no active agent. */
  function Loop(s: Settings, initLen: nat, st: RunState<ModelMessage>): (r: Outcome<RunState<ModelMessage>>)
    requires initLen <= |st.history|
    ensures r.Ok? ==> Reaches(s, initLen, st, r.value)
    decreases |st.script|, 3
  {
    if !Below(|st.history| - initLen, s.maxTurns) || st.active.None? then Ok(st)
    else Turn(s, initLen, st)
  }

  /** One iteration of the loop of `run` and the rest of the loop after it:
      request a completion for the active agent, then carry on with the
      reply. A turn consumes a reply and adds at least one message. */
  function Turn(s: Settings, initLen: nat, st: RunState<ModelMessage>): (r: Outcome<RunState<ModelMessage>>)
    requires initLen <= |st.history| && Below(|st.history| - initLen, s.maxTurns) && st.active.Some?
    ensures r.Ok? ==> Reaches(s, initLen, st, r.value)
                      && |st.history| < |r.value.history| && |r.value.script| < |st.script|
    decreases |st.script|, 2
  {
    var c := Completion.ChatCompletion(s.mode, st.active.value, st.history, st.ctx, s.modelOverride, false,
                                       s.config, s.env, st.script);
    AfterReply(s, initLen, st, c)
  }

  /** A turn once the completion is back: a missing completion fails on
      `.choices`; the stamped reply is appended; the loop breaks when the
      reply asks for no tool call or tools are not executed; otherwise the
      tool calls are dispatched. */
  function AfterReply(s: Settings, initLen: nat, st: RunState<ModelMessage>, c: Completion.Completion<ModelMessage>)
    : (r: Outcome<RunState<ModelMessage>>)
    requires initLen <= |st.history| && Below(|st.history| - initLen, s.maxTurns) && st.active.Some?
    requires c.result.Ok? && c.result.value.Some? ==> (s.mode.ToolRole() || s.mode.Gemini()) && |c.rest| < |st.script|
    ensures r.Ok? ==> Reaches(s, initLen, st, r.value)
                      && |st.history| < |r.value.history| && |r.value.script| < |st.script|
    decreases |st.script|, 1
  {
    match c.result
    case Err(e) => Err(e)
    case Ok(None) => Err(AttributeError(NoChoices))
    case Ok(Some(message)) =>
      var agent := st.active.value;
      var history := st.history + Record(s.mode, message, agent, s.env);
      if NoToolCalls(message) || !s.executeTools then
        Ok(RunState(history, st.ctx, st.active, c.rest, st.turns + 1))
      else
        AfterDispatch(s, initLen, st, history, c.rest,
                      Dispatch.Dispatch(s.mode, message.toolCalls.value, agent.functions, st.ctx, s.env))
  }

  /** A turn that dispatched tool calls: their messages extend the history,
      their context updates are merged, their handoff agent, if any, becomes
      the active agent, and the loop goes on. */
  function AfterDispatch(s: Settings, initLen: nat, st: RunState<ModelMessage>, history: seq<Message>,
                         rest: seq<Attempt<ModelMessage>>, d: Outcome<Dispatch.Partial>)
    : (r: Outcome<RunState<ModelMessage>>)
    requires initLen <= |st.history| && Below(|st.history| - initLen, s.maxTurns) && st.active.Some?
    requires |st.history| < |history| && history[..|st.history|] == st.history && |rest| < |st.script|
    ensures d.Err? ==> r == Err(d.error)
    ensures r.Ok? ==> Reaches(s, initLen, st, r.value)
                      && |st.history| < |r.value.history| && |r.value.script| < |st.script|
    decreases |st.script|, 0
  {
    match d
    case Err(e) => Err(e)
    case Ok(p) =>
      var next := RunState(history + p.messages, st.ctx + p.contextVariables,
                           if p.agent.Some? then p.agent else st.active, rest, st.turns + 1);
      assert next.history[..|st.history|] == st.history;
      Loop(s, initLen, next)
  }

  /** A successful dispatch puts the batch's messages right after the
      recorded reply and merges its context keys into the final context. */
  lemma AfterDispatchExtends(s: Settings, initLen: nat, st: RunState<ModelMessage>, history: seq<Message>,
                             rest: seq<Attempt<ModelMessage>>, d: Outcome<Dispatch.Partial>)
    requires initLen <= |st.history| && Below(|st.history| - initLen, s.maxTurns) && st.active.Some?
    requires |st.history| < |history| && history[..|st.history|] == st.history && |rest| < |st.script|
    requires d.Ok?
    ensures var r := AfterDispatch(s, initLen, st, history, rest, d);
            r.Ok? ==>
              && |history| + |d.value.messages| <= |r.value.history|
              && r.value.history[..|history| + |d.value.messages|] == history + d.value.messages
              && (st.ctx + d.value.contextVariables).Keys <= r.value.ctx.Keys
  {
    var p := d.value;
    var next := RunState(history + p.messages, st.ctx + p.contextVariables,
                         if p.agent.Some? then p.agent else st.active, rest, st.turns + 1);
    assert AfterDispatch(s, initLen, st, history, rest, d) == Loop(s, initLen, next);
  }

  /** What the next turn runs on after a successful dispatch: the batch's
      messages appended, its updates merged over the context (last write
      wins across batches), and the handed-off agent if there is one, else
      the same agent. The next completion is requested on exactly that state
      when there is room for another turn; otherwise the loop stops in it. */
  lemma NextTurnAfterDispatch(s: Settings, initLen: nat, st: RunState<ModelMessage>, history: seq<Message>,
                              rest: seq<Attempt<ModelMessage>>, d: Outcome<Dispatch.Partial>)
    requires initLen <= |st.history| && Below(|st.history| - initLen, s.maxTurns) && st.active.Some?
    requires |st.history| < |history| && history[..|st.history|] == st.history && |rest| < |st.script|
    requires d.Ok?
    ensures var p := d.value;
            var agent := if p.agent.Some? then p.agent else st.active;
            var next := RunState(history + p.messages, st.ctx + p.contextVariables, agent, rest, st.turns + 1);
            var r := AfterDispatch(s, initLen, st, history, rest, d);
            && (Below(|next.history| - initLen, s.maxTurns) ==>
                  r == AfterReply(s, initLen, next,
                                  Completion.ChatCompletion(s.mode, agent.value, next.history, next.ctx,
                                                            s.modelOverride, false, s.config, s.env, rest)))
            && (!Below(|next.history| - initLen, s.maxTurns) ==> r == Ok(next))
  {
    var p := d.value;
    var agent := if p.agent.Some? then p.agent else st.active;
    var next := RunState(history + p.messages, st.ctx + p.contextVariables, agent, rest, st.turns + 1);
    assert AfterDispatch(s, initLen, st, history, rest, d) == Loop(s, initLen, next);
    if Below(|next.history| - initLen, s.maxTurns) {
      assert Loop(s, initLen, next) == Turn(s, initLen, next);
    }
  }

  /** A turn that gets a reply records it right after the history the
      completion was requested on. */
  lemma ReplyRecorded(s: Settings, initLen: nat, st: RunState<ModelMessage>, c: Completion.Completion<ModelMessage>)
    requires initLen <= |st.history| && Below(|st.history| - initLen, s.maxTurns) && st.active.Some?
    requires c.result.Ok? && c.result.value.Some? && (s.mode.ToolRole() || s.mode.Gemini()) && |c.rest| < |st.script|
    ensures var rec := Record(s.mode, c.result.value.value, st.active.value, s.env);
            var r := AfterReply(s, initLen, st, c);
            r.Ok? ==> |st.history| + |rec| <= |r.value.history|
                      && r.value.history[..|st.history| + |rec|] == st.history + rec
  {
    var message := c.result.value.value;
    var agent := st.active.value;
    var rec := Record(s.mode, message, agent, s.env);
    var history := st.history + rec;
    if !(NoToolCalls(message) || !s.executeTools) {
      var d := Dispatch.Dispatch(s.mode, message.toolCalls.value, agent.functions, st.ctx, s.env);
      assert AfterReply(s, initLen, st, c) == AfterDispatch(s, initLen, st, history, c.rest, d);
      assert history[..|st.history|] == st.history;
      if d.Ok? {
        AfterDispatchExtends(s, initLen, st, history, c.rest, d);
        var r := AfterReply(s, initLen, st, c);
        if r.Ok? {
          assert r.value.history[..|history|] == (history + d.value.messages)[..|history|];
        }
      }
    }
  }

  /** The content field of a stored message. */
  function ContentOf(m: Message): Option<string>
  {
    match m
    case ChatMessage(_, content, _, _) => content
    case ToolMessage(_, _, result) => Some(result)
  }

  /** The message with its content replaced; its role, sender and tool calls
      (or its call id and tool name) stay. */
  function WithContent(m: Message, text: string): (r: Message)
    ensures ContentOf(r) == Some(text)
    ensures m.ChatMessage? ==> r == m.(content := Some(text))
    ensures m.ToolMessage? ==> r == m.(result := text)
  {
    match m
    case ChatMessage(role, _, sender, toolCalls) => ChatMessage(role, Some(text), sender, toolCalls)
    case ToolMessage(id, name, _) => ToolMessage(id, name, text)
  }

  /** After the loop: in the gemini-like modes the last new message's content
      is decoded and stripped in place (with no new message, `[-1]` raises);
      the response holds the new messages, the active agent and the context. */
  function Finish(mode: Mode, initLen: nat, history: seq<Message>, active: Option<Agent>, ctx: Ctx, env: Env)
    : (r: Outcome<Response>)
    requires initLen <= |history|
    ensures !mode.GeminiLike() ==> r == Ok(Response(history[initLen..], active, ctx))
    ensures mode.GeminiLike() && |history| == initLen ==> r == Err(IndexError(EmptyHistory))
    // it fails exactly when there is no new message, or the last one has no content or does not decode
    ensures r.Err? <==> mode.GeminiLike()
                        && (|history| == initLen || ContentOf(history[|history| - 1]).None?
                            || env.unwrapGemini(ContentOf(history[|history| - 1]).value).None?)
    ensures r.Ok? ==> r.value.agent == active && r.value.contextVariables == ctx
    ensures r.Ok? ==> |r.value.messages| == |history| - initLen
    // only the last new message can change, and then to its decoded content
    ensures r.Ok? ==> forall i :: 0 <= i < |r.value.messages| - 1 ==> r.value.messages[i] == history[initLen + i]
    ensures r.Ok? && mode.GeminiLike() ==>
              var last := history[|history| - 1];
              ContentOf(last).Some? && Some(r.value.messages[|r.value.messages| - 1])
                == (match env.unwrapGemini(ContentOf(last).value)
                    case Some(text) => Some(WithContent(last, text))
                    case None => None)
  {
    if !mode.GeminiLike() then Ok(Response(history[initLen..], active, ctx))
    else if |history| == initLen then Err(IndexError(EmptyHistory))
    else
      var last := history[|history| - 1];
      match ContentOf(last)
      case None => Err(TypeError(NoContent))
      case Some(content) =>
        match env.unwrapGemini(content)
        case None => Err(JsonDecodeError(content))
        case Some(text) =>
          Ok(Response(history[|history| - 1 := WithContent(last, text)][initLen..], active, ctx))
  }

  function Start<T>(agent: Option<Agent>, messages: seq<Message>, ctx: Ctx, script: seq<Attempt<T>>): RunState<T>
  {
    RunState(messages, ctx, agent, script, 0)
  }

  /** `run(agent, messages, context_variables, ...)` with `stream` false: the
      response keeps every context key it was given, and an agent given is
      never lost; outside the gemini-like modes its messages are exactly the
      ones the loop appended to the caller's. */
  function RunSpec(s: Settings, agent: Option<Agent>, messages: seq<Message>, ctx: Ctx,
                   script: seq<Attempt<ModelMessage>>): (r: Outcome<Response>)
    ensures r.Ok? ==> ctx.Keys <= r.value.contextVariables.Keys
    ensures r.Ok? && agent.Some? ==> r.value.agent.Some?
    ensures r.Ok? && !s.mode.GeminiLike() ==>
              var l := Loop(s, |messages|, Start(agent, messages, ctx, script));
              l.Ok? && messages + r.value.messages == l.value.history
  {
    match Loop(s, |messages|, Start(agent, messages, ctx, script))
    case Err(e) => Err(e)
    case Ok(st) =>
      assert messages + st.history[|messages|..] == st.history by {
        assert st.history[..|messages|] == messages;
      }
      Finish(s.mode, |messages|, st.history, st.active, st.ctx, s.env)
  }

  /** One pass of the body of the loop of `run`: the completion, the stamped
      reply appended to the history, and, unless the loop breaks there, the
      dispatched tool calls merged in. */
  method RunTurn(s: Settings, ghost initLen: nat, history: seq<Message>, ctx: Ctx, active: Agent,
                 client: seq<Attempt<ModelMessage>>, ghost turns: nat)
    returns (raised: Option<Error>, broke: bool, newHistory: seq<Message>, newCtx: Ctx,
             newActive: Option<Agent>, rest: seq<Attempt<ModelMessage>>)
    requires initLen <= |history| && Below(|history| - initLen, s.maxTurns)
    ensures raised.None? ==> initLen <= |newHistory| && |rest| < |client|
    ensures Turn(s, initLen, RunState(history, ctx, Some(active), client, turns))
            == if raised.Some? then Err(raised.value)
               else if broke then Ok(RunState(newHistory, newCtx, newActive, rest, turns + 1))
               else Loop(s, initLen, RunState(newHistory, newCtx, newActive, rest, turns + 1))
  {
    newCtx, newActive := ctx, Some(active);
    var completion, sent;
    completion, sent, rest := Completion.GetChatCompletion(
      s.mode, active, history, ctx, s.modelOverride, false, s.config, s.env, client);
    ghost var st := RunState(history, ctx, Some(active), client, turns);
    assert Turn(s, initLen, st) == AfterReply(s, initLen, st, Completion.Completion(completion, sent, rest));
    if completion.Err? {
      return Some(completion.error), false, history, ctx, newActive, rest;
    }
    if completion.value.None? {
      return Some(AttributeError(NoChoices)), false, history, ctx, newActive, rest;
    }
    var message := completion.value.value;
    newHistory := history + Record(s.mode, message, active, s.env);

    if NoToolCalls(message) || !s.executeTools {
      return None, true, newHistory, newCtx, newActive, rest;
    }

    var partial := Dispatch.HandleToolCalls(s.mode, message.toolCalls.value, active.functions, ctx, s.env);
    assert Turn(s, initLen, st) == AfterDispatch(s, initLen, st, newHistory, rest, partial);
    if partial.Err? {
      return Some(partial.error), false, newHistory, newCtx, newActive, rest;
    }
    newHistory := newHistory + partial.value.messages;
    newCtx := newCtx + partial.value.contextVariables;
    if partial.value.agent.Some? {
      newActive := partial.value.agent;
    }
    raised, broke := None, false;
  }

  /** The gemini post-processing of the last output, on the history list. */
  method PostProcess(mode: Mode, initLen: nat, history: seq<Message>, activeAgent: Option<Agent>, ctx: Ctx, env: Env)
    returns (r: Outcome<Response>)
    requires initLen <= |history|
    ensures r == Finish(mode, initLen, history, activeAgent, ctx, env)
  {
    var output := history;
    if mode.GeminiLike() {
      if |output| == initLen {
        return Err(IndexError(EmptyHistory));
      }
      var last := output[|output| - 1];
      var content := ContentOf(last);
      if content.None? {
        return Err(TypeError(NoContent));
      }
      var lastContent := env.unwrapGemini(content.value);
      if lastContent.None? {
        return Err(JsonDecodeError(content.value));
      }
      output := output[|output| - 1 := WithContent(last, lastContent.value)];
    }
    return Ok(Response(output[initLen..], activeAgent, ctx));
  }

  /** The imperative loop of `run`. */
  method Run(s: Settings, agent: Option<Agent>, messages: seq<Message>, contextVariables: Ctx,
             script: seq<Attempt<ModelMessage>>)
    returns (r: Outcome<Response>)
    ensures r == RunSpec(s, agent, messages, contextVariables, script)
  {
    var activeAgent := agent;
    var ctx := contextVariables;
    var history := messages;
    var initLen := |messages|;
    var client := script;
    ghost var turns: nat := 0;
    ghost var start := Start(agent, messages, contextVariables, script);

    while Below(|history| - initLen, s.maxTurns) && activeAgent.Some?
      invariant initLen <= |history|
      invariant Loop(s, initLen, start) == Loop(s, initLen, RunState(history, ctx, activeAgent, client, turns))
      decreases |client|
    {
      var raised, broke, newHistory, newCtx, newActive, rest :=
        RunTurn(s, initLen, history, ctx, activeAgent.value, client, turns);
      if raised.Some? {
        return Err(raised.value);
      }
      history, ctx, activeAgent, client, turns := newHistory, newCtx, newActive, rest, turns + 1;
      if broke {
        break;
      }
    }
    assert Loop(s, initLen, start) == Ok(RunState(history, ctx, activeAgent, client, turns));
    r := PostProcess(s.mode, initLen, history, activeAgent, ctx, s.env);
  }

  /** The loop never takes more turns than `max_turns`. */
  lemma TurnsBounded(s: Settings, agent: Option<Agent>, messages: seq<Message>, ctx: Ctx,
                     script: seq<Attempt<ModelMessage>>)
    requires s.maxTurns.Some?
    ensures var r := Loop(s, |messages|, Start(agent, messages, ctx, script));
            r.Ok? ==> r.value.turns <= s.maxTurns.value && r.value.history[..|messages|] == messages
  {
  }

  /** With no room for a turn or no agent, `run` sends nothing: the
      openai/ollama modes return no messages, the input agent and the
      context; the gemini-like modes fail on the empty list. */
  lemma NoTurnTaken(s: Settings, agent: Option<Agent>, messages: seq<Message>, ctx: Ctx,
                    script: seq<Attempt<ModelMessage>>)
    requires s.maxTurns == Some(0) || agent.None?
    ensures Loop(s, |messages|, Start(agent, messages, ctx, script)) == Ok(Start(agent, messages, ctx, script))
    ensures !s.mode.GeminiLike() ==> RunSpec(s, agent, messages, ctx, script) == Ok(Response([], agent, ctx))
    ensures s.mode.GeminiLike() ==> RunSpec(s, agent, messages, ctx, script) == Err(IndexError(EmptyHistory))
  {
  }

  /** A turn whose reply asks for no tool call, or any turn when tools are
      not executed, ends the loop right after the reply is recorded. */
  lemma EndsWithoutToolCalls(s: Settings, initLen: nat, st: RunState<ModelMessage>, message: ModelMessage)
    requires initLen <= |st.history| && Below(|st.history| - initLen, s.maxTurns) && st.active.Some?
    requires var c := Completion.ChatCompletion(s.mode, st.active.value, st.history, st.ctx, s.modelOverride, false,
                                                s.config, s.env, st.script);
             c.result == Ok(Some(message))
    requires NoToolCalls(message) || !s.executeTools
    ensures var c := Completion.ChatCompletion(s.mode, st.active.value, st.history, st.ctx, s.modelOverride, false,
                                               s.config, s.env, st.script);
            Loop(s, initLen, st)
              == Ok(RunState(st.history + Record(s.mode, message, st.active.value, s.env), st.ctx, st.active,
                             c.rest, st.turns + 1))
  {
    var c := Completion.ChatCompletion(s.mode, st.active.value, st.history, st.ctx, s.modelOverride, false,
                                       s.config, s.env, st.script);
    assert Loop(s, initLen, st) == AfterReply(s, initLen, st, c);
  }

  /** Without tool execution the loop takes one turn at most. */
  lemma {:induction false} SingleTurnWithoutTools(s: Settings, initLen: nat, st: RunState<ModelMessage>)
    requires initLen <= |st.history| && !s.executeTools
    ensures Loop(s, initLen, st).Ok? ==> Loop(s, initLen, st).value.turns <= st.turns + 1
  {
    if Below(|st.history| - initLen, s.maxTurns) && st.active.Some? {
      var c := Completion.ChatCompletion(s.mode, st.active.value, st.history, st.ctx, s.modelOverride, false,
                                         s.config, s.env, st.script);
      assert Loop(s, initLen, st) == AfterReply(s, initLen, st, c);
    }
  }

  /** In the openai/ollama modes every message the loop adds is either a
      reply stamped with the name of the agent that produced it, or a tool
      result. */
  lemma {:induction false} RepliesAreSigned(s: Settings, initLen: nat, st: RunState<ModelMessage>)
    requires initLen <= |st.history| && s.mode.ToolRole()
    ensures var r := Loop(s, initLen, st);
            r.Ok? ==> Signed(r.value.history, |st.history|)
    decreases |st.script|, 1
  {
    if Below(|st.history| - initLen, s.maxTurns) && st.active.Some? {
      var agent := st.active.value;
      var c := Completion.ChatCompletion(s.mode, agent, st.history, st.ctx, s.modelOverride, false,
                                         s.config, s.env, st.script);
      assert Loop(s, initLen, st) == AfterReply(s, initLen, st, c);
      if c.result.Ok? && c.result.value.Some? {
        var message := c.result.value.value;
        var history := st.history + Record(s.mode, message, agent, s.env);
        if !(NoToolCalls(message) || !s.executeTools) {
          var calls := message.toolCalls.value;
          Dispatch.ToolRoleAnswersCalls(s.mode, calls, agent.functions, st.ctx, s.env);
          SignedAfterDispatch(s, initLen, st, history, c.rest,
                              Dispatch.Dispatch(s.mode, calls, agent.functions, st.ctx, s.env));
        }
      }
    }
  }

  /** Every message of `h` from index `from` on is a tool result or carries a
      sender. */
  predicate Signed(h: seq<Message>, from: nat)
  {
    forall i :: from <= i < |h| ==> h[i].ToolMessage? || h[i].sender.Some?
  }

  lemma {:induction false} SignedAfterDispatch(s: Settings, initLen: nat, st: RunState<ModelMessage>,
                                               history: seq<Message>, rest: seq<Attempt<ModelMessage>>,
                                               d: Outcome<Dispatch.Partial>)
    requires initLen <= |st.history| && Below(|st.history| - initLen, s.maxTurns) && st.active.Some?
    requires |st.history| < |history| && history[..|st.history|] == st.history && |rest| < |st.script|
    requires s.mode.ToolRole() && Signed(history, |st.history|)
    requires d.Ok? ==> forall m :: m in d.value.messages ==> m.ToolMessage?
    ensures var r := AfterDispatch(s, initLen, st, history, rest, d);
            r.Ok? ==> Signed(r.value.history, |st.history|)
    decreases |st.script|, 0
  {
    if d.Ok? {
      var p := d.value;
      var next := RunState(history + p.messages, st.ctx + p.contextVariables,
                           if p.agent.Some? then p.agent else st.active, rest, st.turns + 1);
      SignedExtended(history, p.messages, |st.history|);
      RepliesAreSigned(s, initLen, next);
    }
  }

  /** Appending tool results keeps a history signed. */
  lemma SignedExtended(history: seq<Message>, results: seq<Message>, from: nat)
    requires Signed(history, from) && forall m :: m in results ==> m.ToolMessage?
    ensures Signed(history + results, from)
  {
    forall i | from <= i < |history + results|
      ensures (history + results)[i].ToolMessage? || (history + results)[i].sender.Some?
    {
      if i >= |history| {
        assert (history + results)[i] == results[i - |history|];
      }
    }
  }
}
