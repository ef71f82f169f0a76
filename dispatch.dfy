/** `handle_tool_calls`: running one batch of tool calls against the active
    agent's functions. */
module Dispatch {
  import opened Types
  import Normalizer

  /** `{f.__name__: f for f in functions}`: later registrations win. */
  function FunctionMap(fs: seq<AgentFunction>): (m: map<string, AgentFunction>)
    ensures forall name :: name in m ==> m[name] in fs && m[name].name == name
  {
    if fs == [] then map[]
    else FunctionMap(fs[..|fs| - 1])[fs[|fs| - 1].name := fs[|fs| - 1]]
  }

  /** A name is registered exactly when some function carries it, and it maps
      to the last function registered under it. */
  lemma {:induction false} FunctionMapKeepsLast(fs: seq<AgentFunction>, i: nat)
    requires i < |fs|
    requires forall j :: i < j < |fs| ==> fs[j].name != fs[i].name
    ensures fs[i].name in FunctionMap(fs) && FunctionMap(fs)[fs[i].name] == fs[i]
    decreases |fs|
  {
    if i < |fs| - 1 {
      FunctionMapKeepsLast(fs[..|fs| - 1], i);
    }
  }

  /** A name is registered exactly when some function carries it. */
  lemma {:induction false} FunctionMapDomain(fs: seq<AgentFunction>, name: string)
    ensures name in FunctionMap(fs) <==> exists i :: 0 <= i < |fs| && fs[i].name == name
    decreases |fs|
  {
    if fs != [] {
      var init := fs[..|fs| - 1];
      FunctionMapDomain(init, name);
      assert forall i :: 0 <= i < |init| ==> init[i] == fs[i];
    }
  }

  function NotFound(name: string): string
  {
    "Error: Tool " + name + " not found."
  }

  /** The assistant-role text that reports a tool's result in gemini mode. */
  function GeminiReport(name: string, value: string, shownArgs: string): string
  {
    "Tool " + name + " returned: " + value + ". \nTool_call args: " + shownArgs
  }

  /** What one tool call contributes: at most one message, the context
      updates of its result, and its handoff agent if any. */
  datatype Step = Step(message: Option<Message>, update: Ctx, handoff: Option<Agent>)

  /** A message the dispatcher writes carries no sender. */
  predicate Unsigned(m: Message)
  {
    m.ToolMessage? || m.sender.None?
  }

  /** One iteration of the dispatch loop. A missing tool is reported in the
      openai/ollama and gemini-like modes; in any other mode it falls through
      to `json.loads` and to `function_map[name]`. Every call sees the context
      as it was when the batch started. */
  function HandleCall(mode: Mode, call: ToolCall, fmap: map<string, AgentFunction>, ctx: Ctx, env: Env): (r: Outcome<Step>)
    ensures r.Ok? && (mode.ToolRole() || mode.GeminiLike()) ==> r.value.message.Some?
    ensures r.Ok? && !mode.ToolRole() && !mode.GeminiLike() ==> r.value.message.None?
    ensures r.Ok? && r.value.message.Some? ==> Unsigned(r.value.message.value)
    ensures r.Ok? && mode.ToolRole() ==>
              r.value.message.value.ToolMessage?
              && r.value.message.value.toolCallId == call.id && r.value.message.value.toolName == call.name
    // a missing tool never aborts where the mode reports it, and always aborts elsewhere
    ensures call.name !in fmap && (mode.ToolRole() || mode.GeminiLike()) ==>
              r.Ok? && r.value.update == map[] && r.value.handoff.None?
              && (mode.ToolRole() ==> r.value.message.value.result == NotFound(call.name))
              && (!mode.ToolRole() ==> r.value.message.value == ChatMessage("assistant", Some(NotFound(call.name)), None, None))
    ensures call.name !in fmap && !mode.ToolRole() && !mode.GeminiLike() ==> r.Err?
    // a registered tool aborts the batch exactly through its arguments, its own exception or its return value
    ensures call.name in fmap ==>
              (r.Ok? <==>
                 && env.parseArgs(call.arguments).Object?
                 && env.callTool(fmap[call.name], ArgsFor(fmap[call.name], env.parseArgs(call.arguments).args, ctx)).Returns?
                 && Normalizer.HandleFunctionResult(
                      env.callTool(fmap[call.name], ArgsFor(fmap[call.name], env.parseArgs(call.arguments).args, ctx)).raw,
                      env.handoffJson).Ok?)
    // a registered tool that succeeds contributes its normalised result: the
    // result's context updates, its agent, and its value as the reported text
    ensures call.name in fmap && r.Ok? ==>
              var args := ArgsFor(fmap[call.name], env.parseArgs(call.arguments).args, ctx);
              var res := Normalizer.HandleFunctionResult(env.callTool(fmap[call.name], args).raw, env.handoffJson).value;
              && r.value.update == res.contextVariables
              && r.value.handoff == res.agent
              && (mode.ToolRole() ==> r.value.message == Some(ToolMessage(call.id, call.name, res.value)))
              && (!mode.ToolRole() && mode.GeminiLike() ==>
                    r.value.message == Some(ChatMessage("assistant", Some(GeminiReport(call.name, res.value, env.showArgs(args))), None, None)))
  {
    var name := call.name;
    if name !in fmap && mode.ToolRole() then
      Ok(Step(Some(ToolMessage(call.id, name, NotFound(name))), map[], None))
    else if name !in fmap && mode.GeminiLike() then
      Ok(Step(Some(ChatMessage("assistant", Some(NotFound(name)), None, None)), map[], None))
    else
      match env.parseArgs(call.arguments)
      case Undecodable => Err(JsonDecodeError(call.arguments))
      case NotAnObject =>
        if name !in fmap then Err(KeyError(name))
        else if fmap[name].takesContext then Err(TypeError(NoItemAssignment))
        else Err(TypeError(NotAMapping))
      case Object(parsed) =>
        if name !in fmap then Err(KeyError(name))
        else
          var f := fmap[name];
          var args := ArgsFor(f, parsed, ctx);
          match env.callTool(f, args)
          case Raises(reason) => Err(ToolError(reason))
          case Returns(raw) =>
            match Normalizer.HandleFunctionResult(raw, env.handoffJson)
            case Err(e) => Err(e)
            case Ok(result) =>
              var message :=
                if mode.ToolRole() then Some(ToolMessage(call.id, name, result.value))
                else if mode.GeminiLike() then
                  Some(ChatMessage("assistant", Some(GeminiReport(name, result.value, env.showArgs(args))), None, None))
                else None;
              Ok(Step(message, result.contextVariables, result.agent))
  }

  /** Which exception a failing call raises: the decoding error of its
      arguments; a `TypeError` when they decode to something other than a
      dict, from injecting the context or from `**args`; the tool's own
      exception, or the normaliser's, each unchanged. An unregistered name
      outside the reporting modes raises the decoding error or `KeyError`. */
  lemma HandleCallErrors(mode: Mode, call: ToolCall, fmap: map<string, AgentFunction>, ctx: Ctx, env: Env)
    ensures var r := HandleCall(mode, call, fmap, ctx, env);
            var parsed := env.parseArgs(call.arguments);
            && (call.name in fmap && parsed.Undecodable? ==> r == Err(JsonDecodeError(call.arguments)))
            && (call.name in fmap && parsed.NotAnObject? ==>
                  r == Err(TypeError(if fmap[call.name].takesContext then NoItemAssignment else NotAMapping)))
            && (call.name in fmap && parsed.Object? ==>
                  var f := fmap[call.name];
                  var returned := env.callTool(f, ArgsFor(f, parsed.args, ctx));
                  && (returned.Raises? ==> r == Err(ToolError(returned.reason)))
                  && (returned.Returns? && Normalizer.HandleFunctionResult(returned.raw, env.handoffJson).Err? ==>
                        r == Err(Normalizer.HandleFunctionResult(returned.raw, env.handoffJson).error)))
            && (call.name !in fmap && !mode.ToolRole() && !mode.GeminiLike() ==>
                  r == if parsed.Undecodable? then Err(JsonDecodeError(call.arguments)) else Err(KeyError(call.name)))
  {
  }

  /** The keyword arguments: the decoded ones, plus the context variables
      when the function asks for them. */
  function ArgsFor(f: AgentFunction, parsed: Args, ctx: Ctx): (args: Args)
    ensures f.takesContext ==> ContextVariablesName in args && args[ContextVariablesName] == Context(ctx)
    ensures !f.takesContext ==> args == parsed
    ensures forall k :: k in parsed && k != ContextVariablesName ==> k in args && args[k] == parsed[k]
  {
    if f.takesContext then parsed[ContextVariablesName := Context(ctx)] else parsed
  }

  /** What each call of a batch does on its own, in call order: every call
      runs against the context as it was when the batch started. */
  function Outcomes(mode: Mode, calls: seq<ToolCall>, fmap: map<string, AgentFunction>, ctx: Ctx, env: Env)
    : (rs: seq<Outcome<Step>>)
    ensures |rs| == |calls|
    ensures forall i :: 0 <= i < |calls| ==> rs[i] == HandleCall(mode, calls[i], fmap, ctx, env)
  {
    seq(|calls|, i requires 0 <= i < |calls| => HandleCall(mode, calls[i], fmap, ctx, env))
  }

  /** Running outcomes in order, as a loop whose body may raise: all the
      steps, or the first exception. */
  function Sequence(rs: seq<Outcome<Step>>): Outcome<seq<Step>>
  {
    if rs == [] then Ok([])
    else
      match Sequence(rs[..|rs| - 1])
      case Err(e) => Err(e)
      case Ok(done) =>
        match rs[|rs| - 1]
        case Err(e) => Err(e)
        case Ok(step) => Ok(done + [step])
  }

  /** `partial_response`: the messages, the merged context updates and the
      handoff agent of a batch. */
  datatype Partial = Partial(messages: seq<Message>, contextVariables: Ctx, agent: Option<Agent>)

  function MessagesOf(step: Step): seq<Message>
  {
    if step.message.Some? then [step.message.value] else []
  }

  /** The partial response after the given steps: messages appended, context
      updated with `update`, agent replaced when the result carries one. */
  function Combine(steps: seq<Step>): Partial
  {
    if steps == [] then Partial([], map[], None)
    else
      var p := Combine(steps[..|steps| - 1]);
      var step := steps[|steps| - 1];
      Partial(p.messages + MessagesOf(step),
              p.contextVariables + step.update,
              if step.handoff.Some? then step.handoff else p.agent)
  }

  /** The whole batch. */
  function Dispatch(mode: Mode, calls: seq<ToolCall>, functions: seq<AgentFunction>, ctx: Ctx, env: Env)
    : (r: Outcome<Partial>)
    ensures calls == [] ==> r == Ok(Partial([], map[], None))
  {
    match Sequence(Outcomes(mode, calls, FunctionMap(functions), ctx, env))
    case Err(e) => Err(e)
    case Ok(steps) => Ok(Combine(steps))
  }

  /** A sequence of outcomes succeeds exactly when each one does, and then
      it holds their steps in order. */
  lemma {:induction false} SequenceSucceeds(rs: seq<Outcome<Step>>)
    ensures Sequence(rs).Ok? <==> forall i :: 0 <= i < |rs| ==> rs[i].Ok?
    ensures Sequence(rs).Ok? ==>
              |Sequence(rs).value| == |rs| && forall i :: 0 <= i < |rs| ==> Sequence(rs).value[i] == rs[i].value
    decreases |rs|
  {
    if rs != [] {
      var init := rs[..|rs| - 1];
      SequenceSucceeds(init);
      assert forall i :: 0 <= i < |init| ==> init[i] == rs[i];
    }
  }

  /** A failing sequence fails with the error of its first failing outcome. */
  lemma {:induction false} SequenceFailsFirst(rs: seq<Outcome<Step>>)
    requires Sequence(rs).Err?
    ensures exists i :: 0 <= i < |rs| && rs[i] == Err(Sequence(rs).error)
                        && forall j :: 0 <= j < i ==> rs[j].Ok?
    decreases |rs|
  {
    var init := rs[..|rs| - 1];
    assert forall i :: 0 <= i < |init| ==> init[i] == rs[i];
    if Sequence(init).Err? {
      SequenceFailsFirst(init);
      var i :| 0 <= i < |init| && init[i] == Err(Sequence(init).error) && forall j :: 0 <= j < i ==> init[j].Ok?;
      assert rs[i] == Err(Sequence(rs).error);
    } else {
      SequenceSucceeds(init);
      var i := |rs| - 1;
      assert forall j :: 0 <= j < i ==> rs[j].Ok?;
    }
  }

  /** Once a prefix has failed, the whole sequence has failed the same way. */
  lemma {:induction false} SequenceFailureSticks(rs: seq<Outcome<Step>>, k: nat)
    requires k <= |rs|
    requires Sequence(rs[..k]).Err?
    ensures Sequence(rs) == Sequence(rs[..k])
    decreases |rs| - k
  {
    if k < |rs| {
      assert rs[..k + 1][..k] == rs[..k];
      SequenceFailureSticks(rs, k + 1);
    } else {
      assert rs[..k] == rs;
    }
  }

  /** A batch fails exactly when one of its calls does, and then with the
      error of the first call that fails; the calls before it succeeded. */
  lemma FirstFailureAborts(mode: Mode, calls: seq<ToolCall>, functions: seq<AgentFunction>, ctx: Ctx, env: Env)
    ensures var fmap := FunctionMap(functions);
            Dispatch(mode, calls, functions, ctx, env).Err? <==>
              exists i :: 0 <= i < |calls| && HandleCall(mode, calls[i], fmap, ctx, env).Err?
    ensures var fmap := FunctionMap(functions);
            var d := Dispatch(mode, calls, functions, ctx, env);
            d.Err? ==> exists i :: 0 <= i < |calls| && HandleCall(mode, calls[i], fmap, ctx, env) == Err(d.error)
                                   && forall j :: 0 <= j < i ==> HandleCall(mode, calls[j], fmap, ctx, env).Ok?
  {
    var rs := Outcomes(mode, calls, FunctionMap(functions), ctx, env);
    SequenceSucceeds(rs);
    if Sequence(rs).Err? {
      SequenceFailsFirst(rs);
    }
  }

  /** In the modes that report tools, every step writes one message, so the
      batch writes exactly one message per call, in call order. */
  lemma {:induction false} CombineMessages(steps: seq<Step>)
    requires forall i :: 0 <= i < |steps| ==> steps[i].message.Some?
    ensures |Combine(steps).messages| == |steps|
    ensures forall i :: 0 <= i < |steps| ==> Combine(steps).messages[i] == steps[i].message.value
    decreases |steps|
  {
    if steps != [] {
      CombineMessages(steps[..|steps| - 1]);
    }
  }

  /** In any other mode no step writes a message. */
  lemma {:induction false} CombineNoMessages(steps: seq<Step>)
    requires forall i :: 0 <= i < |steps| ==> steps[i].message.None?
    ensures Combine(steps).messages == []
    decreases |steps|
  {
    if steps != [] {
      CombineNoMessages(steps[..|steps| - 1]);
    }
  }

  /** Every message of the batch is one the dispatcher wrote without a sender. */
  lemma {:induction false} CombineUnsigned(steps: seq<Step>)
    requires forall i :: 0 <= i < |steps| ==> steps[i].message.Some? ==> Unsigned(steps[i].message.value)
    ensures forall m :: m in Combine(steps).messages ==> Unsigned(m)
    decreases |steps|
  {
    if steps != [] {
      CombineUnsigned(steps[..|steps| - 1]);
    }
  }

  /** Context updates merge last-write-wins in call order, starting from an
      empty map: a key is present iff some step updates it, and then it holds
      the value of the last step that does. */
  lemma {:induction false} CombineLastWriteWins(steps: seq<Step>, key: string)
    ensures key in Combine(steps).contextVariables <==> exists i :: 0 <= i < |steps| && key in steps[i].update
    ensures forall i :: 0 <= i < |steps| && key in steps[i].update
                        && (forall j :: i < j < |steps| ==> key !in steps[j].update) ==>
              Combine(steps).contextVariables[key] == steps[i].update[key]
    decreases |steps|
  {
    if steps != [] {
      var init := steps[..|steps| - 1];
      CombineLastWriteWins(init, key);
      assert forall i :: 0 <= i < |init| ==> init[i] == steps[i];
    }
  }

  /** The batch's agent is that of the last step carrying one, or None. */
  lemma {:induction false} CombineLastHandoff(steps: seq<Step>)
    ensures Combine(steps).agent.Some? <==> exists i :: 0 <= i < |steps| && steps[i].handoff.Some?
    ensures forall i :: 0 <= i < |steps| && steps[i].handoff.Some?
                        && (forall j :: i < j < |steps| ==> steps[j].handoff.None?) ==>
              Combine(steps).agent == steps[i].handoff
    decreases |steps|
  {
    if steps != [] {
      var init := steps[..|steps| - 1];
      CombineLastHandoff(init);
      assert forall i :: 0 <= i < |init| ==> init[i] == steps[i];
    }
  }

  /** The dispatcher's promises for the openai/ollama and gemini-like modes:
      the batch succeeds iff every call does (an unregistered name is a
      success that reports the error), and then it holds exactly one message
      per call, in call order, each written without a sender. */
  lemma OneMessagePerCall(mode: Mode, calls: seq<ToolCall>, functions: seq<AgentFunction>, ctx: Ctx, env: Env)
    requires mode.ToolRole() || mode.GeminiLike()
    ensures var fmap := FunctionMap(functions);
            Dispatch(mode, calls, functions, ctx, env).Ok? <==>
              forall i :: 0 <= i < |calls| && calls[i].name in fmap ==> HandleCall(mode, calls[i], fmap, ctx, env).Ok?
    ensures var fmap := FunctionMap(functions);
            var d := Dispatch(mode, calls, functions, ctx, env);
            d.Ok? ==>
              && |d.value.messages| == |calls|
              && (forall i :: 0 <= i < |calls| ==> d.value.messages[i] == HandleCall(mode, calls[i], fmap, ctx, env).value.message.value)
              && (forall m :: m in d.value.messages ==> Unsigned(m))
  {
    var fmap := FunctionMap(functions);
    SequenceSucceeds(Outcomes(mode, calls, fmap, ctx, env));
    var s := Sequence(Outcomes(mode, calls, fmap, ctx, env));
    if s.Ok? {
      CombineMessages(s.value);
      CombineUnsigned(s.value);
    }
  }

  /** In the openai/ollama modes the batch's messages are tool results that
      answer the batch's calls one by one, in order. */
  lemma ToolRoleAnswersCalls(mode: Mode, calls: seq<ToolCall>, functions: seq<AgentFunction>, ctx: Ctx, env: Env)
    requires mode.ToolRole()
    ensures var d := Dispatch(mode, calls, functions, ctx, env);
            d.Ok? ==> |d.value.messages| == |calls|
                      && forall i :: 0 <= i < |calls| ==>
                           d.value.messages[i].ToolMessage?
                           && d.value.messages[i].toolCallId == calls[i].id
                           && d.value.messages[i].toolName == calls[i].name
  {
    OneMessagePerCall(mode, calls, functions, ctx, env);
  }

  /** No message of a batch carries a sender, whatever the mode. */
  lemma DispatchUnsigned(mode: Mode, calls: seq<ToolCall>, functions: seq<AgentFunction>, ctx: Ctx, env: Env)
    ensures var d := Dispatch(mode, calls, functions, ctx, env);
            d.Ok? ==> forall m :: m in d.value.messages ==> Unsigned(m)
  {
    var rs := Outcomes(mode, calls, FunctionMap(functions), ctx, env);
    SequenceSucceeds(rs);
    if Sequence(rs).Ok? {
      CombineUnsigned(Sequence(rs).value);
    }
  }

  /** In any other mode the batch writes no message at all, and an
      unregistered name aborts it. */
  lemma NoMessagesInOtherModes(mode: Mode, calls: seq<ToolCall>, functions: seq<AgentFunction>, ctx: Ctx, env: Env)
    requires !mode.ToolRole() && !mode.GeminiLike()
    ensures var d := Dispatch(mode, calls, functions, ctx, env);
            d.Ok? ==> d.value.messages == [] && forall i :: 0 <= i < |calls| ==> calls[i].name in FunctionMap(functions)
  {
    var fmap := FunctionMap(functions);
    SequenceSucceeds(Outcomes(mode, calls, fmap, ctx, env));
    var s := Sequence(Outcomes(mode, calls, fmap, ctx, env));
    if s.Ok? {
      CombineNoMessages(s.value);
    }
  }

  /** The batch's context updates, stated against the calls' own results:
      a key is set iff some call sets it. */
  lemma ContextKeys(mode: Mode, calls: seq<ToolCall>, functions: seq<AgentFunction>, ctx: Ctx, env: Env, key: string)
    requires forall i :: 0 <= i < |calls| ==> HandleCall(mode, calls[i], FunctionMap(functions), ctx, env).Ok?
    ensures var d := Dispatch(mode, calls, functions, ctx, env);
            && d.Ok?
            && (key in d.value.contextVariables <==>
                  exists i :: 0 <= i < |calls| && key in HandleCall(mode, calls[i], FunctionMap(functions), ctx, env).value.update)
  {
    var rs := Outcomes(mode, calls, FunctionMap(functions), ctx, env);
    SequenceSucceeds(rs);
    CombineLastWriteWins(Sequence(rs).value, key);
  }

  /** The batch's context updates, stated against the calls' own results:
      a key holds the value given by the last call that sets it. */
  lemma ContextLastWriteWins(mode: Mode, calls: seq<ToolCall>, functions: seq<AgentFunction>, ctx: Ctx, env: Env,
                             key: string, i: nat)
    requires forall j :: 0 <= j < |calls| ==> HandleCall(mode, calls[j], FunctionMap(functions), ctx, env).Ok?
    requires i < |calls| && key in HandleCall(mode, calls[i], FunctionMap(functions), ctx, env).value.update
    requires forall j :: i < j < |calls| ==> key !in HandleCall(mode, calls[j], FunctionMap(functions), ctx, env).value.update
    ensures var d := Dispatch(mode, calls, functions, ctx, env);
            && d.Ok? && key in d.value.contextVariables
            && d.value.contextVariables[key] == HandleCall(mode, calls[i], FunctionMap(functions), ctx, env).value.update[key]
  {
    var rs := Outcomes(mode, calls, FunctionMap(functions), ctx, env);
    SequenceSucceeds(rs);
    CombineLastWriteWins(Sequence(rs).value, key);
  }

  /** The batch's agent, stated against the calls' own results: the agent of
      the last call that hands off. */
  lemma LastHandoffWins(mode: Mode, calls: seq<ToolCall>, functions: seq<AgentFunction>, ctx: Ctx, env: Env, i: nat)
    requires forall j :: 0 <= j < |calls| ==> HandleCall(mode, calls[j], FunctionMap(functions), ctx, env).Ok?
    requires i < |calls| && HandleCall(mode, calls[i], FunctionMap(functions), ctx, env).value.handoff.Some?
    requires forall j :: i < j < |calls| ==> HandleCall(mode, calls[j], FunctionMap(functions), ctx, env).value.handoff.None?
    ensures var d := Dispatch(mode, calls, functions, ctx, env);
            d.Ok? && d.value.agent == HandleCall(mode, calls[i], FunctionMap(functions), ctx, env).value.handoff
  {
    var rs := Outcomes(mode, calls, FunctionMap(functions), ctx, env);
    SequenceSucceeds(rs);
    CombineLastHandoff(Sequence(rs).value);
  }

  /** The batch has no agent exactly when no call hands off. */
  lemma NoHandoff(mode: Mode, calls: seq<ToolCall>, functions: seq<AgentFunction>, ctx: Ctx, env: Env)
    requires forall j :: 0 <= j < |calls| ==> HandleCall(mode, calls[j], FunctionMap(functions), ctx, env).Ok?
    ensures var d := Dispatch(mode, calls, functions, ctx, env);
            d.Ok? && (d.value.agent.None? <==>
                        forall j :: 0 <= j < |calls| ==> HandleCall(mode, calls[j], FunctionMap(functions), ctx, env).value.handoff.None?)
  {
    var rs := Outcomes(mode, calls, FunctionMap(functions), ctx, env);
    SequenceSucceeds(rs);
    CombineLastHandoff(Sequence(rs).value);
  }

  /** Running one more outcome after a successful prefix. */
  lemma SequenceStep(rs: seq<Outcome<Step>>, i: nat, done: seq<Step>)
    requires i < |rs| && Sequence(rs[..i]) == Ok(done)
    ensures Sequence(rs[..i + 1]) == if rs[i].Err? then Err(rs[i].error) else Ok(done + [rs[i].value])
  {
    assert rs[..i + 1][..i] == rs[..i];
  }

  /** Combining one more step appends its message, merges its update and
      takes its handoff. */
  lemma CombineStep(done: seq<Step>, step: Step)
    ensures var p := Combine(done);
            Combine(done + [step])
              == Partial(p.messages + MessagesOf(step), p.contextVariables + step.update,
                         if step.handoff.Some? then step.handoff else p.agent)
  {
    assert (done + [step])[..|done|] == done;
  }

  /** One more call of a batch whose earlier calls succeeded: a failure ends
      the batch with its error; a success extends the steps and the partial
      response. */
  lemma LoopStep(rs: seq<Outcome<Step>>, i: nat, done: seq<Step>, step: Outcome<Step>)
    requires i < |rs| && Sequence(rs[..i]) == Ok(done) && rs[i] == step
    ensures step.Err? ==> Sequence(rs) == Err(step.error)
    ensures step.Ok? ==>
              && Sequence(rs[..i + 1]) == Ok(done + [step.value])
              && var p := Combine(done);
                 Combine(done + [step.value])
                   == Partial(p.messages + MessagesOf(step.value), p.contextVariables + step.value.update,
                              if step.value.handoff.Some? then step.value.handoff else p.agent)
  {
    SequenceStep(rs, i, done);
    if step.Err? {
      SequenceFailureSticks(rs, i + 1);
    } else {
      CombineStep(done, step.value);
    }
  }

  /** One pass of the loop of `handle_tool_calls`. */
  method CallTool(mode: Mode, toolCall: ToolCall, functionMap: map<string, AgentFunction>, ctx: Ctx, env: Env)
    returns (r: Outcome<Step>)
    ensures r == HandleCall(mode, toolCall, functionMap, ctx, env)
  {
    var name := toolCall.name;
    if name !in functionMap {
      if mode.ToolRole() {
        return Ok(Step(Some(ToolMessage(toolCall.id, name, NotFound(name))), map[], None));
      } else if mode.GeminiLike() {
        return Ok(Step(Some(ChatMessage("assistant", Some(NotFound(name)), None, None)), map[], None));
      }
    }

    var parsed := env.parseArgs(toolCall.arguments);
    if parsed.Undecodable? {
      return Err(JsonDecodeError(toolCall.arguments));
    }
    if name !in functionMap {
      return Err(KeyError(name));
    }
    var func := functionMap[name];
    if parsed.NotAnObject? {
      if func.takesContext {
        return Err(TypeError(NoItemAssignment));
      }
      return Err(TypeError(NotAMapping));
    }
    var args := parsed.args;
    if func.takesContext {
      args := args[ContextVariablesName := Context(ctx)];
    }
    var rawResult := env.callTool(func, args);
    if rawResult.Raises? {
      return Err(ToolError(rawResult.reason));
    }
    var normalized := Normalizer.HandleFunctionResult(rawResult.raw, env.handoffJson);
    if normalized.Err? {
      return Err(normalized.error);
    }
    var result := normalized.value;
    var message: Option<Message> := None;
    if mode.ToolRole() {
      message := Some(ToolMessage(toolCall.id, name, result.value));
    } else if mode.GeminiLike() {
      message := Some(ChatMessage("assistant", Some(GeminiReport(name, result.value, env.showArgs(args))), None, None));
    }
    return Ok(Step(message, result.contextVariables, result.agent));
  }

  /** The loop of `handle_tool_calls`: messages appended, context updated and
      agent reassigned in place, returning at the first exception. */
  method HandleToolCalls(mode: Mode, toolCalls: seq<ToolCall>, functions: seq<AgentFunction>, ctx: Ctx, env: Env)
    returns (out: Outcome<Partial>)
    ensures out == Dispatch(mode, toolCalls, functions, ctx, env)
  {
    var functionMap := FunctionMap(functions);
    var messages: seq<Message> := [];
    var updates: Ctx := map[];
    var agent: Option<Agent> := None;
    ghost var done: seq<Step> := [];
    ghost var outcomes := Outcomes(mode, toolCalls, functionMap, ctx, env);

    for i := 0 to |toolCalls|
      invariant Sequence(outcomes[..i]) == Ok(done)
      invariant Partial(messages, updates, agent) == Combine(done)
    {
      var step := CallTool(mode, toolCalls[i], functionMap, ctx, env);
      LoopStep(outcomes, i, done, step);
      if step.Err? {
        return Err(step.error);
      }
      if step.value.message.Some? {
        messages := messages + [step.value.message.value];
      }
      updates := updates + step.value.update;
      if step.value.handoff.Some? {
        agent := step.value.handoff;
      }
      done := done + [step.value];
    }
    assert outcomes[..|toolCalls|] == outcomes;
    return Ok(Partial(messages, updates, agent));
  }
}
