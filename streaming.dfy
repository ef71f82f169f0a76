/** `run_and_stream`: the streamed turn loop, as the finite list of events the
    generator yields before it returns or raises. */
module Streaming {
  import opened Types
  import Completion
  import Dispatch
  import TurnLoop

  const NotIterable := "'NoneType' object is not iterable"
  const NoInstructions := "'NoneType' object has no attribute 'instructions'"

  /** What the generator yields. */
  datatype Event =
    | StartDelim                                                          // {"delim": "start"}
    | Chunk(role: Option<string>, sender: Option<string>, body: DeltaBody) // one delta, as yielded
    | EndDelim                                                            // {"delim": "end"}
    | Final(response: Response)                                           // {"response": Response(...)}

  /** The events yielded by a stretch of the loop, and the state it stops in
      or the exception that ends the generator. */
  datatype Stream = Stream(events: seq<Event>, outcome: Outcome<TurnLoop.RunState<seq<Delta>>>)

  /** Everything a consumer of the generator sees: the events, then either a
      normal end (`failure == None`) or the exception. */
  datatype Generated = Generated(events: seq<Event>, failure: Option<Error>)

  function Then(prefix: seq<Event>, r: Stream): Stream
  {
    Stream(prefix + r.events, r.outcome)
  }

  /** A delta as it is yielded: `sender` is added only when the role is
      "assistant", and then it names the agent active in this turn. */
  function Yielded(d: Delta, name: string): Event
  {
    Chunk(d.role, if d.role == Some("assistant") then Some(name) else None, d.body)
  }

  /** The events of the deltas of one completion, in the order they come. */
  function Forwarded(deltas: seq<Delta>, name: string): (r: seq<Event>)
    ensures |r| == |deltas|
    ensures forall i :: 0 <= i < |deltas| ==>
              r[i].Chunk? && r[i].role == deltas[i].role && r[i].body == deltas[i].body
              && (r[i].sender == Some(name) <==> deltas[i].role == Some("assistant"))
              && (r[i].sender.None? <==> deltas[i].role != Some("assistant"))
  {
    if deltas == [] then []
    else Forwarded(deltas[..|deltas| - 1], name) + [Yielded(deltas[|deltas| - 1], name)]
  }

  /** `merge_chunk` applied to every delta in turn, from the empty message. */
  function MergeAll(deltas: seq<Delta>, merge: (Accum, DeltaBody) -> Accum): Accum
  {
    if deltas == [] then Accum("", [])
    else merge(MergeAll(deltas[..|deltas| - 1], merge), deltas[|deltas| - 1].body)
  }

  function CallOf(p: PartialToolCall): ToolCall
  {
    ToolCall(p.id, p.name, p.arguments, p.kind)
  }

  /** The values of the tool-call table, in insertion order. */
  function CallsOf(table: seq<TableEntry>): (r: seq<ToolCall>)
    ensures |r| == |table|
  {
    seq(|table|, i requires 0 <= i < |table| => CallOf(table[i].call))
  }

  /** `list(tool_calls.values())`, or None when the table is empty. */
  function ToolCallsOf(table: seq<TableEntry>): (r: Option<seq<ToolCall>>)
    ensures r.None? <==> table == []
    ensures r.Some? ==> r.value == CallsOf(table)
  {
    if table == [] then None else Some(CallsOf(table))
  }

  /** The message a streamed completion leaves in the history. Its sender is
      the name of the agent the stream was started with, whatever agent is
      active by then. */
  function Assembled(acc: Accum, initialName: string): Message
  {
    ChatMessage("assistant", Some(acc.content), Some(initialName), ToolCallsOf(acc.toolCalls))
  }

  /** The loop of `run_and_stream` from a given state. There is no check of
      the active agent: a missing initial agent fails on `agent.name` before
      the first request. */
  function StreamLoop(s: TurnLoop.Settings, initial: Option<Agent>, initLen: nat, st: TurnLoop.RunState<seq<Delta>>)
    : (r: Stream)
    requires initLen <= |st.history|
    ensures r.outcome.Ok? ==> TurnLoop.Reaches(s, initLen, st, r.outcome.value)
    decreases |st.script|, 3
  {
    if !TurnLoop.Below(|st.history| - initLen, s.maxTurns) then Stream([], Ok(st))
    else if initial.None? then Stream([], Err(AttributeError(TurnLoop.NoName)))
    // From `RunAndStreamSpec` the active agent is never missing once the
    // initial one is present (a dispatch only ever installs an agent); the
    // branch keeps the function total, failing as `get_chat_completion`
    // would on `agent.instructions`.
    else if st.active.None? then Stream([], Err(AttributeError(NoInstructions)))
    else StreamTurn(s, initial.value, initLen, st)
  }

  /** One turn of the streamed loop and the rest of the loop after it. */
  function StreamTurn(s: TurnLoop.Settings, initial: Agent, initLen: nat, st: TurnLoop.RunState<seq<Delta>>)
    : (r: Stream)
    requires initLen <= |st.history| && TurnLoop.Below(|st.history| - initLen, s.maxTurns) && st.active.Some?
    ensures r.outcome.Ok? ==> TurnLoop.Reaches(s, initLen, st, r.outcome.value)
                              && |st.history| < |r.outcome.value.history|
                              && |r.outcome.value.script| < |st.script|
    decreases |st.script|, 2
  {
    var c := Completion.ChatCompletion(s.mode, st.active.value, st.history, st.ctx, s.modelOverride, true,
                                       s.config, s.env, st.script);
    StreamAfterReply(s, initial, initLen, st, c)
  }

  /** A streamed turn once the completion is back: a failed request yields
      nothing; a missing stream yields the start delimiter and then fails to
      iterate; otherwise every delta is yielded between the delimiters, the
      assembled message is appended, and the loop breaks or dispatches. */
  function StreamAfterReply(s: TurnLoop.Settings, initial: Agent, initLen: nat, st: TurnLoop.RunState<seq<Delta>>,
                            c: Completion.Completion<seq<Delta>>)
    : (r: Stream)
    requires initLen <= |st.history| && TurnLoop.Below(|st.history| - initLen, s.maxTurns) && st.active.Some?
    requires c.result.Ok? && c.result.value.Some? ==> |c.rest| < |st.script|
    ensures r.outcome.Ok? ==> TurnLoop.Reaches(s, initLen, st, r.outcome.value)
                              && |st.history| < |r.outcome.value.history|
                              && |r.outcome.value.script| < |st.script|
    decreases |st.script|, 1
  {
    match c.result
    case Err(e) => Stream([], Err(e))
    case Ok(None) => Stream([StartDelim], Err(TypeError(NotIterable)))
    case Ok(Some(deltas)) =>
      var agent := st.active.value;
      var message := Assembled(MergeAll(deltas, s.env.mergeChunk), initial.name);
      var events := [StartDelim] + Forwarded(deltas, agent.name) + [EndDelim];
      var history := st.history + [message];
      if message.toolCalls.None? || !s.executeTools then
        Stream(events, Ok(TurnLoop.RunState(history, st.ctx, st.active, c.rest, st.turns + 1)))
      else
        Then(events, StreamAfterDispatch(s, initial, initLen, st, history, c.rest,
                                         Dispatch.Dispatch(s.mode, message.toolCalls.value, agent.functions,
                                                           st.ctx, s.env)))
  }

  /** A streamed turn that dispatched tool calls: as in `run`, the results
      extend the history, the updates are merged, a handoff switches the
      active agent, and the loop goes on. */
  function StreamAfterDispatch(s: TurnLoop.Settings, initial: Agent, initLen: nat,
                               st: TurnLoop.RunState<seq<Delta>>, history: seq<Message>,
                               rest: seq<Attempt<seq<Delta>>>, d: Outcome<Dispatch.Partial>)
    : (r: Stream)
    requires initLen <= |st.history| && TurnLoop.Below(|st.history| - initLen, s.maxTurns) && st.active.Some?
    requires |st.history| < |history| && history[..|st.history|] == st.history && |rest| < |st.script|
    ensures d.Err? ==> r == Stream([], Err(d.error))
    ensures r.outcome.Ok? ==> TurnLoop.Reaches(s, initLen, st, r.outcome.value)
                              && |st.history| < |r.outcome.value.history|
                              && |r.outcome.value.script| < |st.script|
    decreases |st.script|, 0
  {
    match d
    case Err(e) => Stream([], Err(e))
    case Ok(p) =>
      var next := TurnLoop.RunState(history + p.messages, st.ctx + p.contextVariables,
                                    if p.agent.Some? then p.agent else st.active, rest, st.turns + 1);
      assert next.history[..|st.history|] == st.history;
      StreamLoop(s, Some(initial), initLen, next)
  }

  /** `run_and_stream(agent, messages, context_variables, ...)`: the loop's
      events followed, on a normal end, by the response. No gemini
      post-processing is done on this path: the response's messages are
      exactly the ones the loop appended, it keeps every context key it was
      given, and an agent given is never lost. */
  function RunAndStreamSpec(s: TurnLoop.Settings, agent: Option<Agent>, messages: seq<Message>, ctx: Ctx,
                            script: seq<Attempt<seq<Delta>>>): (g: Generated)
    ensures g.failure.None? ==>
              var l := StreamLoop(s, agent, |messages|, TurnLoop.Start(agent, messages, ctx, script));
              && l.outcome.Ok? && g.events != [] && g.events[|g.events| - 1].Final?
              && messages + g.events[|g.events| - 1].response.messages == l.outcome.value.history
              && ctx.Keys <= g.events[|g.events| - 1].response.contextVariables.Keys
              && (agent.Some? ==> g.events[|g.events| - 1].response.agent.Some?)
  {
    var r := StreamLoop(s, agent, |messages|, TurnLoop.Start(agent, messages, ctx, script));
    match r.outcome
    case Err(e) => Generated(r.events, Some(e))
    case Ok(st) =>
      assert messages + st.history[|messages|..] == st.history by {
        assert st.history[..|messages|] == messages;
      }
      Generated(r.events + [Final(Response(st.history[|messages|..], st.active, st.ctx))], None)
  }

  /** A streamed turn that gets its deltas stores the message assembled from
      them, under the initial agent's name, right after the history the
      completion was requested on. */
  lemma StreamStoresAssembled(s: TurnLoop.Settings, initial: Agent, initLen: nat, st: TurnLoop.RunState<seq<Delta>>,
                              c: Completion.Completion<seq<Delta>>)
    requires initLen <= |st.history| && TurnLoop.Below(|st.history| - initLen, s.maxTurns) && st.active.Some?
    requires c.result.Ok? && c.result.value.Some? && |c.rest| < |st.script|
    ensures var message := Assembled(MergeAll(c.result.value.value, s.env.mergeChunk), initial.name);
            var r := StreamAfterReply(s, initial, initLen, st, c);
            r.outcome.Ok? ==> |st.history| < |r.outcome.value.history|
                              && r.outcome.value.history[..|st.history| + 1] == st.history + [message]
  {
    var deltas := c.result.value.value;
    var message := Assembled(MergeAll(deltas, s.env.mergeChunk), initial.name);
    var history := st.history + [message];
    var events := [StartDelim] + Forwarded(deltas, st.active.value.name) + [EndDelim];
    if !(message.toolCalls.None? || !s.executeTools) {
      var d := Dispatch.Dispatch(s.mode, message.toolCalls.value, st.active.value.functions, st.ctx, s.env);
      assert StreamAfterReply(s, initial, initLen, st, c)
          == Then(events, StreamAfterDispatch(s, initial, initLen, st, history, c.rest, d));
      assert history[..|st.history|] == st.history;
      if d.Ok? {
        StreamAfterDispatchExtends(s, initial, initLen, st, history, c.rest, d);
        var r := StreamAfterReply(s, initial, initLen, st, c);
        if r.outcome.Ok? {
          assert r.outcome.value.history[..|history|] == (history + d.value.messages)[..|history|];
        }
      }
    }
  }

  /** As in `run`, a successful dispatch puts the batch's messages right
      after the stored message and merges its context keys. */
  lemma StreamAfterDispatchExtends(s: TurnLoop.Settings, initial: Agent, initLen: nat,
                                   st: TurnLoop.RunState<seq<Delta>>, history: seq<Message>,
                                   rest: seq<Attempt<seq<Delta>>>, d: Outcome<Dispatch.Partial>)
    requires initLen <= |st.history| && TurnLoop.Below(|st.history| - initLen, s.maxTurns) && st.active.Some?
    requires |st.history| < |history| && history[..|st.history|] == st.history && |rest| < |st.script|
    requires d.Ok?
    ensures var r := StreamAfterDispatch(s, initial, initLen, st, history, rest, d);
            r.outcome.Ok? ==>
              && |history| + |d.value.messages| <= |r.outcome.value.history|
              && r.outcome.value.history[..|history| + |d.value.messages|] == history + d.value.messages
              && (st.ctx + d.value.contextVariables).Keys <= r.outcome.value.ctx.Keys
  {
    var p := d.value;
    var next := TurnLoop.RunState(history + p.messages, st.ctx + p.contextVariables,
                                  if p.agent.Some? then p.agent else st.active, rest, st.turns + 1);
    assert StreamAfterDispatch(s, initial, initLen, st, history, rest, d) == StreamLoop(s, Some(initial), initLen, next);
  }

  /** As in `run`, the next streamed turn runs on the extended history, the
      context with the batch's updates merged over it, and the handed-off
      agent if there is one, else the same agent; with no room left the loop
      stops in that state. */
  lemma StreamNextTurnAfterDispatch(s: TurnLoop.Settings, initial: Agent, initLen: nat,
                                 st: TurnLoop.RunState<seq<Delta>>, history: seq<Message>,
                                 rest: seq<Attempt<seq<Delta>>>, d: Outcome<Dispatch.Partial>)
    requires initLen <= |st.history| && TurnLoop.Below(|st.history| - initLen, s.maxTurns) && st.active.Some?
    requires |st.history| < |history| && history[..|st.history|] == st.history && |rest| < |st.script|
    requires d.Ok?
    ensures var p := d.value;
            var agent := if p.agent.Some? then p.agent else st.active;
            var next := TurnLoop.RunState(history + p.messages, st.ctx + p.contextVariables, agent, rest, st.turns + 1);
            var r := StreamAfterDispatch(s, initial, initLen, st, history, rest, d);
            && (TurnLoop.Below(|next.history| - initLen, s.maxTurns) ==>
                  r == StreamAfterReply(s, initial, initLen, next,
                                        Completion.ChatCompletion(s.mode, agent.value, next.history, next.ctx,
                                                                  s.modelOverride, true, s.config, s.env, rest)))
            && (!TurnLoop.Below(|next.history| - initLen, s.maxTurns) ==> r == Stream([], Ok(next)))
  {
    var p := d.value;
    var agent := if p.agent.Some? then p.agent else st.active;
    var next := TurnLoop.RunState(history + p.messages, st.ctx + p.contextVariables, agent, rest, st.turns + 1);
    assert StreamAfterDispatch(s, initial, initLen, st, history, rest, d) == StreamLoop(s, Some(initial), initLen, next);
    if TurnLoop.Below(|next.history| - initLen, s.maxTurns) {
      assert StreamLoop(s, Some(initial), initLen, next) == StreamTurn(s, initial, initLen, next);
    }
  }

  /** The inner loop over the chunks of one completion: yield each delta,
      then merge it into the message under construction. */
  method Consume(deltas: seq<Delta>, activeName: string, merge: (Accum, DeltaBody) -> Accum)
    returns (chunks: seq<Event>, acc: Accum)
    ensures chunks == Forwarded(deltas, activeName)
    ensures acc == MergeAll(deltas, merge)
  {
    chunks, acc := [], Accum("", []);
    for j := 0 to |deltas|
      invariant chunks == Forwarded(deltas[..j], activeName)
      invariant acc == MergeAll(deltas[..j], merge)
    {
      assert deltas[..j + 1][..j] == deltas[..j];
      var delta := deltas[j];
      var sender := if delta.role == Some("assistant") then Some(activeName) else None;
      chunks := chunks + [Chunk(delta.role, sender, delta.body)];
      acc := merge(acc, delta.body);
    }
    assert deltas[..|deltas|] == deltas;
  }

  /** The conversion of the table's values into tool-call objects. */
  method ToToolCalls(table: seq<TableEntry>) returns (toolCalls: seq<ToolCall>)
    ensures toolCalls == CallsOf(table)
  {
    toolCalls := [];
    for k := 0 to |table|
      invariant toolCalls == CallsOf(table[..k])
    {
      var entry := table[k].call;
      toolCalls := toolCalls + [ToolCall(entry.id, entry.name, entry.arguments, entry.kind)];
    }
    assert table[..|table|] == table;
  }

  /** One pass of the body of the streamed loop, with the events it yields. */
  method StreamTurnBody(s: TurnLoop.Settings, initial: Agent, ghost initLen: nat, history: seq<Message>, ctx: Ctx,
                        active: Agent, client: seq<Attempt<seq<Delta>>>, ghost turns: nat)
    returns (turnEvents: seq<Event>, raised: Option<Error>, broke: bool, newHistory: seq<Message>, newCtx: Ctx,
             newActive: Option<Agent>, rest: seq<Attempt<seq<Delta>>>)
    requires initLen <= |history| && TurnLoop.Below(|history| - initLen, s.maxTurns)
    ensures raised.None? ==> initLen <= |newHistory| && |rest| < |client|
    ensures StreamTurn(s, initial, initLen, TurnLoop.RunState(history, ctx, Some(active), client, turns))
            == if raised.Some? then Stream(turnEvents, Err(raised.value))
               else if broke then Stream(turnEvents, Ok(TurnLoop.RunState(newHistory, newCtx, newActive, rest, turns + 1)))
               else Then(turnEvents, StreamLoop(s, Some(initial), initLen,
                                                TurnLoop.RunState(newHistory, newCtx, newActive, rest, turns + 1)))
  {
    newCtx, newActive := ctx, Some(active);
    var completion, sent;
    completion, sent, rest := Completion.GetChatCompletion(
      s.mode, active, history, ctx, s.modelOverride, true, s.config, s.env, client);
    ghost var st := TurnLoop.RunState(history, ctx, Some(active), client, turns);
    assert StreamTurn(s, initial, initLen, st)
        == StreamAfterReply(s, initial, initLen, st, Completion.Completion(completion, sent, rest));
    if completion.Err? {
      return [], Some(completion.error), false, history, ctx, newActive, rest;
    }
    turnEvents := [StartDelim];
    if completion.value.None? {
      return turnEvents, Some(TypeError(NotIterable)), false, history, ctx, newActive, rest;
    }
    var chunks, acc := Consume(completion.value.value, active.name, s.env.mergeChunk);
    turnEvents := turnEvents + chunks + [EndDelim];
    var message := ChatMessage("assistant", Some(acc.content), Some(initial.name), ToolCallsOf(acc.toolCalls));
    newHistory := history + [message];

    if message.toolCalls.None? || !s.executeTools {
      return turnEvents, None, true, newHistory, newCtx, newActive, rest;
    }

    var toolCalls := ToToolCalls(acc.toolCalls);
    var partial := Dispatch.HandleToolCalls(s.mode, toolCalls, active.functions, ctx, s.env);
    assert StreamTurn(s, initial, initLen, st)
        == Then(turnEvents, StreamAfterDispatch(s, initial, initLen, st, newHistory, rest, partial));
    if partial.Err? {
      return turnEvents, Some(partial.error), false, newHistory, newCtx, newActive, rest;
    }
    newHistory := newHistory + partial.value.messages;
    newCtx := newCtx + partial.value.contextVariables;
    if partial.value.agent.Some? {
      newActive := partial.value.agent;
    }
    raised, broke := None, false;
  }

  lemma ThenThen(a: seq<Event>, b: seq<Event>, r: Stream)
    ensures Then(a, Then(b, r)) == Then(a + b, r)
  {
    assert a + (b + r.events) == (a + b) + r.events;
  }

  /** The body of the streamed loop, from `message["sender"] = agent.name` on. */
  method StreamStep(s: TurnLoop.Settings, agent: Option<Agent>, ghost initLen: nat, history: seq<Message>, ctx: Ctx,
                    activeAgent: Option<Agent>, client: seq<Attempt<seq<Delta>>>, ghost turns: nat)
    returns (turnEvents: seq<Event>, raised: Option<Error>, broke: bool, newHistory: seq<Message>, newCtx: Ctx,
             newActive: Option<Agent>, rest: seq<Attempt<seq<Delta>>>)
    requires initLen <= |history| && TurnLoop.Below(|history| - initLen, s.maxTurns)
    ensures raised.None? ==> initLen <= |newHistory| && |rest| < |client|
    ensures StreamLoop(s, agent, initLen, TurnLoop.RunState(history, ctx, activeAgent, client, turns))
            == if raised.Some? then Stream(turnEvents, Err(raised.value))
               else if broke then Stream(turnEvents, Ok(TurnLoop.RunState(newHistory, newCtx, newActive, rest, turns + 1)))
               else Then(turnEvents, StreamLoop(s, agent, initLen,
                                                TurnLoop.RunState(newHistory, newCtx, newActive, rest, turns + 1)))
  {
    if agent.None? {
      return [], Some(AttributeError(TurnLoop.NoName)), false, history, ctx, activeAgent, client;
    }
    if activeAgent.None? {
      return [], Some(AttributeError(NoInstructions)), false, history, ctx, activeAgent, client;
    }
    turnEvents, raised, broke, newHistory, newCtx, newActive, rest :=
      StreamTurnBody(s, agent.value, initLen, history, ctx, activeAgent.value, client, turns);
  }

  /** The imperative generator: the events it yields, in order, and how it
      ends. */
  method RunAndStream(s: TurnLoop.Settings, agent: Option<Agent>, messages: seq<Message>, contextVariables: Ctx,
                      script: seq<Attempt<seq<Delta>>>)
    returns (events: seq<Event>, failure: Option<Error>)
    ensures Generated(events, failure) == RunAndStreamSpec(s, agent, messages, contextVariables, script)
  {
    var activeAgent := agent;
    var ctx := contextVariables;
    var history := messages;
    var initLen := |messages|;
    var client := script;
    ghost var turns: nat := 0;
    ghost var start := TurnLoop.Start(agent, messages, contextVariables, script);
    events := [];

    while TurnLoop.Below(|history| - initLen, s.maxTurns)
      invariant initLen <= |history|
      invariant StreamLoop(s, agent, initLen, start)
                == Then(events, StreamLoop(s, agent, initLen, TurnLoop.RunState(history, ctx, activeAgent, client, turns)))
      decreases |client|
    {
      var turnEvents, raised, broke, newHistory, newCtx, newActive, rest :=
        StreamStep(s, agent, initLen, history, ctx, activeAgent, client, turns);
      if raised.Some? {
        return events + turnEvents, raised;
      }
      ThenThen(events, turnEvents,
               StreamLoop(s, agent, initLen, TurnLoop.RunState(newHistory, newCtx, newActive, rest, turns + 1)));
      events := events + turnEvents;
      history, ctx, activeAgent, client, turns := newHistory, newCtx, newActive, rest, turns + 1;
      if broke {
        break;
      }
    }
    assert StreamLoop(s, agent, initLen, start)
        == Stream(events, Ok(TurnLoop.RunState(history, ctx, activeAgent, client, turns)));
    events := events + [Final(Response(history[initLen..], activeAgent, ctx))];
    failure := None;
  }

  /** Where a consumer of the events stands: between turns, inside the
      delimiters of a turn, or after the response. */
  datatype Phase = Between | InTurn | Finished

  /** The transitions a well-formed event sequence may take. */
  function Next(p: Phase, e: Event): Option<Phase>
  {
    match (p, e)
    case (Between, StartDelim) => Some(InTurn)
    case (InTurn, Chunk(_, _, _)) => Some(InTurn)
    case (InTurn, EndDelim) => Some(Between)
    case (Between, Final(_)) => Some(Finished)
    case _ => None
  }

  /** The phase reached after the events from `p`, or None at the first event
      out of place. */
  function Scan(events: seq<Event>, p: Phase): Option<Phase>
    decreases |events|
  {
    if events == [] then Some(p)
    else
      match Next(p, events[0])
      case None => None
      case Some(q) => Scan(events[1..], q)
  }

  lemma {:induction false} ScanAppend(a: seq<Event>, b: seq<Event>, p: Phase)
    ensures Scan(a + b, p) == match Scan(a, p) case None => None case Some(q) => Scan(b, q)
    decreases |a|
  {
    if a == [] {
      assert a + b == b;
    } else {
      assert (a + b)[0] == a[0] && (a + b)[1..] == a[1..] + b;
      match Next(p, a[0])
      case None =>
      case Some(q) => ScanAppend(a[1..], b, q);
    }
  }

  lemma {:induction false} ForwardedStaysInTurn(deltas: seq<Delta>, name: string)
    ensures Scan(Forwarded(deltas, name), InTurn) == Some(InTurn)
    decreases |deltas|
  {
    if deltas != [] {
      var init := deltas[..|deltas| - 1];
      ForwardedStaysInTurn(init, name);
      ScanAppend(Forwarded(init, name), [Yielded(deltas[|deltas| - 1], name)], InTurn);
    }
  }

  /** The events of one completed turn form one delimited block. */
  lemma TurnIsDelimited(deltas: seq<Delta>, name: string)
    ensures Scan([StartDelim] + Forwarded(deltas, name) + [EndDelim], Between) == Some(Between)
  {
    ForwardedStaysInTurn(deltas, name);
    ScanAppend([StartDelim] + Forwarded(deltas, name), [EndDelim], Between);
    ScanAppend([StartDelim], Forwarded(deltas, name), Between);
  }

  /** The events of the loop are whole turns, except that a failure may come
      right after a start delimiter, inside its turn. */
  lemma {:induction false} LoopIsDelimited(s: TurnLoop.Settings, initial: Option<Agent>, initLen: nat,
                                           st: TurnLoop.RunState<seq<Delta>>)
    requires initLen <= |st.history|
    ensures var r := StreamLoop(s, initial, initLen, st);
            Scan(r.events, Between) == Some(Between) || (r.outcome.Err? && Scan(r.events, Between) == Some(InTurn))
    decreases |st.script|, 1
  {
    if TurnLoop.Below(|st.history| - initLen, s.maxTurns) && initial.Some? && st.active.Some? {
      var agent := st.active.value;
      var c := Completion.ChatCompletion(s.mode, agent, st.history, st.ctx, s.modelOverride, true,
                                         s.config, s.env, st.script);
      assert StreamLoop(s, initial, initLen, st) == StreamAfterReply(s, initial.value, initLen, st, c);
      if c.result.Ok? && c.result.value.Some? {
        var deltas := c.result.value.value;
        var message := Assembled(MergeAll(deltas, s.env.mergeChunk), initial.value.name);
        var events := [StartDelim] + Forwarded(deltas, agent.name) + [EndDelim];
        TurnIsDelimited(deltas, agent.name);
        if !(message.toolCalls.None? || !s.executeTools) {
          var d := Dispatch.Dispatch(s.mode, message.toolCalls.value, agent.functions, st.ctx, s.env);
          var history := st.history + [message];
          DispatchIsDelimited(s, initial.value, initLen, st, history, c.rest, d);
          ScanAppend(events, StreamAfterDispatch(s, initial.value, initLen, st, history, c.rest, d).events, Between);
        }
      }
    }
  }

  lemma {:induction false} DispatchIsDelimited(s: TurnLoop.Settings, initial: Agent, initLen: nat,
                                               st: TurnLoop.RunState<seq<Delta>>, history: seq<Message>,
                                               rest: seq<Attempt<seq<Delta>>>, d: Outcome<Dispatch.Partial>)
    requires initLen <= |st.history| && TurnLoop.Below(|st.history| - initLen, s.maxTurns) && st.active.Some?
    requires |st.history| < |history| && history[..|st.history|] == st.history && |rest| < |st.script|
    ensures var r := StreamAfterDispatch(s, initial, initLen, st, history, rest, d);
            Scan(r.events, Between) == Some(Between) || (r.outcome.Err? && Scan(r.events, Between) == Some(InTurn))
    decreases |st.script|, 0
  {
    if d.Ok? {
      var p := d.value;
      var next := TurnLoop.RunState(history + p.messages, st.ctx + p.contextVariables,
                                    if p.agent.Some? then p.agent else st.active, rest, st.turns + 1);
      assert next.history[..|st.history|] == st.history;
      LoopIsDelimited(s, Some(initial), initLen, next);
    }
  }

  /** A scan that ends in the response phase saw the response last and only
      there. */
  lemma {:induction false} FinishedAtEnd(events: seq<Event>, p: Phase)
    requires p != Finished && Scan(events, p) == Some(Finished)
    ensures events != [] && events[|events| - 1].Final?
    ensures forall i :: 0 <= i < |events| - 1 ==> !events[i].Final?
    decreases |events|
  {
    var q := Next(p, events[0]).value;
    if q != Finished {
      FinishedAtEnd(events[1..], q);
    }
  }

  /** A scan that does not end in the response phase saw no response. */
  lemma {:induction false} UnfinishedHasNoFinal(events: seq<Event>, p: Phase)
    requires p != Finished && Scan(events, p).Some? && Scan(events, p) != Some(Finished)
    ensures forall i :: 0 <= i < |events| ==> !events[i].Final?
    decreases |events|
  {
    if events != [] {
      var q := Next(p, events[0]).value;
      if q != Finished {
        UnfinishedHasNoFinal(events[1..], q);
      }
    }
  }

  /** The shape of what the generator yields: delimited turns, then the
      response exactly once, as the last event, on a normal end; on an
      exception no response at all, and at most one turn left open. */
  lemma EventsAreFramed(s: TurnLoop.Settings, agent: Option<Agent>, messages: seq<Message>, ctx: Ctx,
                        script: seq<Attempt<seq<Delta>>>)
    ensures var g := RunAndStreamSpec(s, agent, messages, ctx, script);
            g.failure.None? ==> Scan(g.events, Between) == Some(Finished)
                                && g.events[|g.events| - 1].Final?
                                && forall i :: 0 <= i < |g.events| - 1 ==> !g.events[i].Final?
    ensures var g := RunAndStreamSpec(s, agent, messages, ctx, script);
            g.failure.Some? ==> (Scan(g.events, Between) == Some(Between) || Scan(g.events, Between) == Some(InTurn))
                                && forall i :: 0 <= i < |g.events| ==> !g.events[i].Final?
  {
    var start := TurnLoop.Start(agent, messages, ctx, script);
    var r := StreamLoop(s, agent, |messages|, start);
    LoopIsDelimited(s, agent, |messages|, start);
    var g := RunAndStreamSpec(s, agent, messages, ctx, script);
    if r.outcome.Ok? {
      ScanAppend(r.events, [g.events[|g.events| - 1]], Between);
      assert g.events == r.events + [g.events[|g.events| - 1]];
      FinishedAtEnd(g.events, Between);
    } else {
      UnfinishedHasNoFinal(g.events, Between);
    }
  }

  /** Every message of `h` from index `from` on that carries a sender names
      `name`. */
  predicate SentBy(h: seq<Message>, from: nat, name: string)
  {
    forall i :: from <= i < |h| && h[i].ChatMessage? && h[i].sender.Some? ==> h[i].sender == Some(name)
  }

  /** The messages the streamed loop stores carry the name of the agent the
      stream started with, even after a handoff, while the chunks of a turn
      carry the name of the agent active in it (see `Yielded`); tool results
      carry no sender. */
  lemma {:induction false} StoredUnderInitialName(s: TurnLoop.Settings, initial: Agent, initLen: nat,
                                                  st: TurnLoop.RunState<seq<Delta>>)
    requires initLen <= |st.history|
    ensures var r := StreamLoop(s, Some(initial), initLen, st);
            r.outcome.Ok? ==> SentBy(r.outcome.value.history, |st.history|, initial.name)
    decreases |st.script|, 1
  {
    if TurnLoop.Below(|st.history| - initLen, s.maxTurns) && st.active.Some? {
      var agent := st.active.value;
      var c := Completion.ChatCompletion(s.mode, agent, st.history, st.ctx, s.modelOverride, true,
                                         s.config, s.env, st.script);
      assert StreamLoop(s, Some(initial), initLen, st) == StreamAfterReply(s, initial, initLen, st, c);
      if c.result.Ok? && c.result.value.Some? {
        var deltas := c.result.value.value;
        var message := Assembled(MergeAll(deltas, s.env.mergeChunk), initial.name);
        var history := st.history + [message];
        if !(message.toolCalls.None? || !s.executeTools) {
          var calls := message.toolCalls.value;
          Dispatch.DispatchUnsigned(s.mode, calls, agent.functions, st.ctx, s.env);
          SentByAfterDispatch(s, initial, initLen, st, history, c.rest,
                              Dispatch.Dispatch(s.mode, calls, agent.functions, st.ctx, s.env));
        }
      }
    }
  }

  lemma {:induction false} SentByAfterDispatch(s: TurnLoop.Settings, initial: Agent, initLen: nat,
                                               st: TurnLoop.RunState<seq<Delta>>, history: seq<Message>,
                                               rest: seq<Attempt<seq<Delta>>>, d: Outcome<Dispatch.Partial>)
    requires initLen <= |st.history| && TurnLoop.Below(|st.history| - initLen, s.maxTurns) && st.active.Some?
    requires |st.history| < |history| && history[..|st.history|] == st.history && |rest| < |st.script|
    requires SentBy(history, |st.history|, initial.name)
    requires d.Ok? ==> forall m :: m in d.value.messages ==> Dispatch.Unsigned(m)
    ensures var r := StreamAfterDispatch(s, initial, initLen, st, history, rest, d);
            r.outcome.Ok? ==> SentBy(r.outcome.value.history, |st.history|, initial.name)
    decreases |st.script|, 0
  {
    if d.Ok? {
      var p := d.value;
      var next := TurnLoop.RunState(history + p.messages, st.ctx + p.contextVariables,
                                    if p.agent.Some? then p.agent else st.active, rest, st.turns + 1);
      forall i | |history| <= i < |next.history|
        ensures Dispatch.Unsigned(next.history[i])
      {
        assert next.history[i] in p.messages;
      }
      assert forall i :: 0 <= i < |history| ==> next.history[i] == history[i];
      StoredUnderInitialName(s, initial, initLen, next);
    }
  }

  /** With no room for a turn the generator yields only the response, with
      no message and the agent it was given, even a missing one; with room
      but no agent it fails before yielding anything. */
  lemma NoTurnStreamed(s: TurnLoop.Settings, agent: Option<Agent>, messages: seq<Message>, ctx: Ctx,
                       script: seq<Attempt<seq<Delta>>>)
    ensures s.maxTurns == Some(0) ==>
              RunAndStreamSpec(s, agent, messages, ctx, script) == Generated([Final(Response([], agent, ctx))], None)
    ensures s.maxTurns != Some(0) && agent.None? ==>
              RunAndStreamSpec(s, agent, messages, ctx, script) == Generated([], Some(AttributeError(TurnLoop.NoName)))
  {
    assert messages[|messages|..] == [];
  }

  /** The streamed loop never takes more turns than `max_turns`, and never
      alters the caller's messages. */
  lemma StreamTurnsBounded(s: TurnLoop.Settings, agent: Option<Agent>, messages: seq<Message>, ctx: Ctx,
                           script: seq<Attempt<seq<Delta>>>)
    ensures var r := StreamLoop(s, agent, |messages|, TurnLoop.Start(agent, messages, ctx, script));
            r.outcome.Ok? ==> (s.maxTurns.Some? ==> r.outcome.value.turns <= s.maxTurns.value)
                              && r.outcome.value.history[..|messages|] == messages
  {
  }
}
