# Swarm turn engine, modelled in Dafny

This project models the turn engine of the `Swarm` class of the multi-backend
Swarm fork (swarm/core.py). The engine drives a conversation between a user's
messages, a chat-completion client and the tool functions of the active
agent. Each turn it does three things:

- It builds a completion request for the active agent: the instructions as a
  system message, the tool descriptors with the hidden `context_variables`
  parameter removed, the chosen model, and the caller's `model_config`
  overlay.
- It sends the request with a per-mode failure rule. openai/ollama retry once
  without tools; gemini turns any failure into a `ValueError`; any other mode
  sends nothing.
- It records the reply and dispatches the tool calls the reply asks for. Each
  result is normalised, the context updates are merged last-write-wins, and a
  handed-off agent becomes the active agent.

The buffered loop (`run`) and the streamed loop (`run_and_stream`) both run
until no tool call is asked for, tools are not executed, or `max_turns` is
reached.

The files follow the source's structure:

- `types.dfy` (`Types`): the entities. These are agents, tool functions and
  their descriptors, messages, tool calls, tool results, responses, request
  parameters and streamed deltas. It also holds the three mode tests and the
  `Env` record of the code the engine calls but that is not modelled here:
  the instructions callables, `json.loads`/`json.dumps`, the argument repr,
  tool invocation, the gemini wrap/unwrap of a stored message and
  `merge_chunk`.
- `config.dfy` (`Config`): `Swarm.__init__`, the mode check and the choice of
  client.
- `completion.dfy` (`Completion`): `get_chat_completion`. Functions state what
  is sent and what comes back. The imperative method strips the descriptors
  in place in an array, builds and updates the parameter map, and calls the
  client. It is proved equal to the function.
- `normalizer.dfy` (`Normalizer`): `handle_function_result`, a pure match.
- `dispatch.dfy` (`Dispatch`): `handle_tool_calls`. `HandleCall` states one
  call and `Dispatch` the whole batch; the lemmas relate the two. The method
  `HandleToolCalls` is the source's loop, proved equal to `Dispatch`.
- `turn_loop.dfy` (`TurnLoop`): `run`. `Loop`, `Turn`, `AfterReply` and
  `AfterDispatch` are one mutually recursive specification of the loop.
  `Finish` is the gemini post-processing. The method `Run` is the `while`
  loop, proved equal to `RunSpec`.
- `streaming.dfy` (`Streaming`): `run_and_stream`. The generator is modelled
  as the finite list of events it yields (start delimiter, deltas, end
  delimiter, ..., response) together with how it ends. The method
  `RunAndStream` and its inner loops over the deltas and the tool-call table
  are proved equal to `RunAndStreamSpec`.

The chat client is a scripted sequence of answers (a reply, or an exception
with its text). The sequence is threaded through the loop, so every request
consumes one answer. A request past the end of the script fails. This also
bounds the loop when `max_turns` is infinite.

Three different mode tests are used, as in the source:

- `mode in ("ollama", "openai")` is tuple membership (`Mode.ToolRole`).
- `mode == "gemini"` is equality (`Mode.Gemini`).
- `mode in ("gemini")` is a substring test, because the parentheses make a
  string, not a tuple (`Mode.GeminiLike`). Modes such as "gem" take the gemini
  branches of `handle_tool_calls`, of the history recording and of the
  post-processing. They do not take the gemini branch of
  `get_chat_completion`, which sends nothing and returns None.

Where the code departs from what its names and messages suggest, the model
follows the code:

- The retry in the openai/ollama branch is unguarded. When the second request
  fails, the client's own exception propagates. The `except ValueError`
  clause after `except Exception` can never run.
- In gemini-like modes, `run` post-processes `history[init_len:][-1]` even
  when no message was added (for example `max_turns = 0`), so it raises
  `IndexError`.
- For an unrecognised mode, `get_chat_completion` returns None. `run` then
  fails on `.choices`, and the stream yields its start delimiter and then
  fails to iterate over None.
- The streamed loop has no `active_agent` test. A missing agent fails on
  `agent.name` when there is room for a turn; with `max_turns = 0` it yields
  the response holding that missing agent.
- The streamed loop stores every assembled message under the name of the
  agent the stream started with, even after a handoff. The yielded deltas
  name the agent active in their turn.
- The tool-call table becomes a list in insertion order (the order of the
  dict's values), not sorted by index.
- In a mode outside openai/ollama/gemini-like, an unregistered tool is not
  reported. It reaches `json.loads` of its arguments and then
  `function_map[name]`, which raises `KeyError`.
- Every call of a batch receives the context variables as they were when the
  batch started. Updates are merged only into the batch's own map.

## Model

| member | source | states |
|---|---|---|
| Config.NewSwarm | swarm/core.py:21-45 | construction fails exactly when the mode is empty (ValueError naming the modes) or when the mode is gemini with neither client nor API key (ValueError asking for the key); the stored mode is the given one; a supplied client is kept; otherwise ollama gets the local endpoint, gemini the Gemini endpoint with the key, openai the default client, and any other mode no client |
| Config.ModeTests | swarm/core.py:155 | the tuple test and the substring test never both hold for openai/ollama; exact "gemini" passes the substring test; "gem" passes the substring test but neither equality test |
| Completion.RemoveFirst | swarm/core.py:71-72 | `list.remove` drops exactly one occurrence when present and leaves the list alone otherwise (multiset difference) |
| Completion.RemoveFirstKeepsOrder | swarm/core.py:71-72 | the occurrence dropped is the first one, and the entries before and after it stay in their order |
| Completion.ResolveInstructions | swarm/core.py:57-62 | the system prompt is the static instructions text, or the instructions callable applied to the turn's context variables |
| Completion.HideContextVariables | swarm/core.py:68-72 | a descriptor keeps its name and description, loses `context_variables` from its properties, and loses its first `context_variables` from the required list when listed |
| Completion.HiddenRequired | swarm/core.py:70-72 | the required list loses exactly one `context_variables`, so none remains when the introspector listed it at most once |
| Completion.HiddenTools | swarm/core.py:66-72 | one transmitted descriptor per agent function |
| Completion.ChosenModel | swarm/core.py:74-78 | the model is `model_override` when it is non-empty, else `agent.model`, and never empty |
| Completion.SendWithRetry | swarm/core.py:86-101 | the first request is sent as built; it is retried exactly when the client fails, with tools and tool_choice None; the result fails exactly when both answers are failures, and then with the client's second exception; a reply is the client's answer to the last request sent |
| Completion.SendOnce | swarm/core.py:103-107 | one request, no retry; it fails exactly when the client fails, and then with the model ValueError |
| Completion.ChatCompletion | swarm/core.py:47-107 | no model gives the ValueError before any request in every mode; a mode other than openai/ollama/gemini sends nothing and returns None; a reply comes only in openai/ollama/gemini and is the client's answer to the last request sent; at most two requests |
| Completion.HideInPlace | swarm/core.py:68-72 | the loop over the descriptor array replaces each descriptor by its hidden form in place |
| Completion.TransmittedTools | swarm/core.py:66-72 | the descriptors built and stripped in place are exactly the hidden descriptors of the agent's functions |
| Completion.BaseParamsFields | swarm/core.py:77-84 | the request before the mode branches (`BaseParams`) holds exactly the five default fields and the `model_config` keys; every `model_config` entry wins; a default it leaves alone is the chosen model, the system-prompted history, the hidden tools (None exactly when the agent has no function), the agent's `tool_choice` (None when it has none) or the stream flag |
| Completion.CreateParams | swarm/core.py:77-84 | the dictionary built and updated in place is the `create_params` literal (`DefaultParams`) with the `model_config` entries written over it, the same request `BaseParamsFields` describes |
| Completion.CreateWithRetry | swarm/core.py:86-98 | the imperative try/retry gives the same result, requests and remaining script as `SendWithRetry` |
| Completion.CreateOrValueError | swarm/core.py:103-107 | the imperative gemini branch gives the same result, requests and remaining script as `SendOnce` |
| Completion.GetChatCompletion | swarm/core.py:47-107 | the imperative request building and sending gives exactly `ChatCompletion` |
| Completion.TransmittedToolsHideContext | swarm/core.py:66-90 | every request sent carries tools that are None or the hidden descriptors, and no transmitted descriptor mentions `context_variables` (when `model_config` does not replace the tools) |
| Completion.FirstRequest | swarm/core.py:74-90 | the first request carries the chosen model and the system-prompted history unless `model_config` overrides them; every other `model_config` entry wins; `parallel_tool_calls` is set exactly in openai/ollama mode with tools, after the overlay |
| Normalizer.HandleFunctionResult | swarm/core.py:109-125 | a Result passes through unchanged; an Agent becomes a Result with the handoff JSON text and that agent; anything else becomes its `str()` with no agent and no context; it fails exactly when `str()` raises, with the TypeError naming the value, or with the exception of formatting the value again |
| Normalizer.NormalizeIdempotent | swarm/core.py:110-112 | normalising a normalised result gives it back (a corollary of the pass-through case) |
| Dispatch.FunctionMap | swarm/core.py:134 | every entry of the name map is a registered function under its own name |
| Dispatch.FunctionMapKeepsLast | swarm/core.py:134 | on duplicate names the map keeps the last registered function |
| Dispatch.FunctionMapDomain | swarm/core.py:134 | a name is in the map exactly when some function carries it |
| Dispatch.HandleCall | swarm/core.py:138-196 | one call writes one message in openai/ollama and gemini-like modes and none otherwise; openai/ollama messages are tool messages answering the call's id and name; a missing tool is reported (`Error: Tool name not found.`) with no update and no handoff where the mode reports it, and aborts the batch otherwise; a registered tool succeeds exactly when its arguments decode to a dict, it returns, and its result normalises; it then contributes the normalised result's context updates and agent, and reports the result's value (as the tool message's content in openai/ollama, inside `Tool name returned: value. Tool_call args: args` in gemini-like modes) |
| Dispatch.HandleCallErrors | swarm/core.py:164-174 | a failing registered call raises, unchanged, the decoding error of its arguments; a `TypeError` when they decode to a JSON value that is not a dict (from the context injection when the function takes the context, from `**args` otherwise); or, unchanged, the tool's own exception or the normaliser's exception; an unregistered name outside the reporting modes raises the decoding error or `KeyError` |
| Dispatch.ArgsFor | swarm/core.py:169-171 | the context variables are injected exactly when the function takes them, and the decoded arguments are kept |
| Dispatch.Outcomes | swarm/core.py:138-174 | every call of a batch is handled against the context as it was when the batch started |
| Dispatch.SequenceSucceeds | swarm/core.py:138-174 | the loop (`Sequence`) completes exactly when every call succeeds, and then holds their steps in call order |
| Dispatch.SequenceFailsFirst | swarm/core.py:138-174 | a failing loop raises the exception of its first failing call |
| Dispatch.SequenceFailureSticks | swarm/core.py:138-174 | once a call has raised, the rest of the batch does not change the outcome |
| Dispatch.FirstFailureAborts | swarm/core.py:138-174 | a batch fails exactly when one of its calls does, with the error of the first failing call, all earlier calls having succeeded |
| Dispatch.CombineMessages | swarm/core.py:145-192 | when every step writes a message, the batch's messages (`Combine`) are those messages in call order |
| Dispatch.CombineNoMessages | swarm/core.py:176-192 | when no step writes a message, the batch has none |
| Dispatch.CombineUnsigned | swarm/core.py:145-192 | no message written by the dispatcher carries a sender |
| Dispatch.CombineLastWriteWins | swarm/core.py:194 | in the batch's merged update (`Combine`), a key is set exactly when some step updates it, and holds the value of the last step that does |
| Dispatch.CombineLastHandoff | swarm/core.py:195-196 | the batch's agent is present exactly when some step hands off, and is that of the last such step |
| Dispatch.OneMessagePerCall | swarm/core.py:138-192 | in openai/ollama and gemini-like modes a batch succeeds exactly when every registered call does; then it holds exactly one message per call, in call order, none with a sender |
| Dispatch.ToolRoleAnswersCalls | swarm/core.py:144-184 | in openai/ollama modes the i-th message is the tool message answering the i-th call's id and name |
| Dispatch.DispatchUnsigned | swarm/core.py:145-192 | in every mode no message of a batch carries a sender |
| Dispatch.NoMessagesInOtherModes | swarm/core.py:142-192 | in any other mode a successful batch writes no message and every name in it was registered |
| Dispatch.ContextKeys | swarm/core.py:134-198 | the batch's context updates hold a key exactly when some call's result sets it |
| Dispatch.ContextLastWriteWins | swarm/core.py:194 | a key of the batch's context updates holds the value given by the last call whose result sets it |
| Dispatch.LastHandoffWins | swarm/core.py:195-196 | the batch's agent is that of the last call whose result carries an agent |
| Dispatch.NoHandoff | swarm/core.py:135-196 | the batch's agent is None exactly when no call's result carries one |
| Dispatch.Dispatch | swarm/core.py:127-198 | an empty batch contributes no message, no update and no agent; the batch's other properties are the lemmas below |
| Dispatch.LoopStep | swarm/core.py:138-196 | after successful calls, one more call either ends the batch with its exception or appends its message, merges its update and takes its handoff |
| Dispatch.SequenceStep | swarm/core.py:138-174 | after successful calls, one more call either raises its exception or adds its step |
| Dispatch.CombineStep | swarm/core.py:145-196 | one more step appends its message, merges its update and, when it hands off, replaces the agent |
| Dispatch.CallTool | swarm/core.py:139-196 | the imperative loop body gives exactly `HandleCall` |
| Dispatch.HandleToolCalls | swarm/core.py:127-198 | the imperative loop gives exactly `Dispatch` |
| TurnLoop.Record | swarm/core.py:336-350 | openai/ollama append the reply stamped with the active agent's name; gemini-like modes append one message holding only the role and the wrapped stamped reply |
| TurnLoop.Loop | swarm/core.py:322-363 | a stopped loop has only extended the history, only gained context keys, kept an agent, and taken no more turns than new messages and than `max_turns` allows |
| TurnLoop.Turn | swarm/core.py:324-363 | a turn consumes a client answer and adds at least one message |
| TurnLoop.AfterReply | swarm/core.py:334-359 | the recorded reply extends the history and the loop stops or dispatches (`ReplyRecorded` places the reply) |
| TurnLoop.AfterDispatch | swarm/core.py:357-363 | a failed dispatch ends the run with its exception; otherwise the loop goes on from the extended state (`AfterDispatchExtends`, `NextTurnAfterDispatch` state what the dispatch leaves) |
| TurnLoop.ReplyRecorded | swarm/core.py:334-350 | the recorded reply sits right after the history the completion was requested on, whatever the rest of the run does |
| TurnLoop.AfterDispatchExtends | swarm/core.py:357-363 | the batch's messages follow the recorded reply in the final history, and the batch's context keys are in the final context |
| TurnLoop.NextTurnAfterDispatch | swarm/core.py:357-363 | after a successful dispatch the next completion is requested on the history extended by the batch's messages, the context with the batch's updates merged over it (last write wins across batches), and the handed-off agent if any, else the same agent; with no room left the loop stops in exactly that state |
| TurnLoop.WithContent | swarm/core.py:369 | the message's content is replaced by the decoded text; its role, sender and tool calls (or call id and tool name) stay |
| TurnLoop.Finish | swarm/core.py:365-375 | outside gemini-like modes the response is exactly the new messages, the active agent and the context; in gemini-like modes it fails exactly when there is no new message (IndexError), the last one has no content, or its content does not decode, and otherwise only the last new message changes, to its decoded content |
| TurnLoop.RunTurn | swarm/core.py:324-363 | the imperative loop body gives exactly the specified turn |
| TurnLoop.PostProcess | swarm/core.py:365-375 | the imperative post-processing gives exactly `Finish` |
| TurnLoop.RunSpec | swarm/core.py:317-375 | the response keeps every context key it was given and an agent given is never lost; outside gemini-like modes the caller's messages followed by the response's messages are exactly the loop's final history |
| TurnLoop.Run | swarm/core.py:317-375 | the imperative `run` gives exactly `RunSpec` |
| TurnLoop.TurnsBounded | swarm/core.py:318-322 | the loop takes at most `max_turns` turns and leaves the caller's messages as the history's prefix |
| TurnLoop.NoTurnTaken | swarm/core.py:322-375 | with `max_turns = 0` or no agent nothing is sent; openai/ollama return no messages, the input agent and the context; gemini-like modes raise IndexError |
| TurnLoop.EndsWithoutToolCalls | swarm/core.py:336-354 | a reply with no tool call, or any reply when tools are not executed, ends the loop right after it is recorded |
| TurnLoop.SingleTurnWithoutTools | swarm/core.py:352-354 | without tool execution the loop takes at most one turn |
| TurnLoop.RepliesAreSigned | swarm/core.py:336-363 | in openai/ollama modes every message the loop adds is a tool result or carries a sender |
| TurnLoop.SignedAfterDispatch | swarm/core.py:357-363 | the tool results added after a reply keep every new message a tool result or signed |
| Streaming.Forwarded | swarm/core.py:244-248 | one yielded event per delta, in order, with its role and body; it carries a sender exactly when the role is assistant, and then the active agent's name |
| Streaming.CallsOf | swarm/core.py:266-275 | one tool call per table entry |
| Streaming.ToolCallsOf | swarm/core.py:254-257 | the table's values in insertion order, and None exactly when the table is empty |
| Streaming.StreamLoop | swarm/core.py:216-284 | a stopped streamed loop has only extended the history, only gained context keys, and taken no more turns than `max_turns` allows |
| Streaming.StreamTurn | swarm/core.py:218-284 | a streamed turn consumes a client answer and adds at least one message |
| Streaming.StreamAfterReply | swarm/core.py:243-263 | a streamed reply appends the assembled message and stops or dispatches (`StreamStoresAssembled` places the message) |
| Streaming.StreamAfterDispatch | swarm/core.py:277-284 | a failed dispatch ends the generator with its exception; otherwise the loop goes on (`StreamAfterDispatchExtends`, `StreamNextTurnAfterDispatch` state what the dispatch leaves) |
| Streaming.StreamStoresAssembled | swarm/core.py:243-259 | the message merged from all the deltas (`Assembled(MergeAll(...))`), under the initial agent's name, sits right after the history the completion was requested on |
| Streaming.StreamAfterDispatchExtends | swarm/core.py:277-284 | the batch's messages follow the stored message in the final history, and the batch's context keys are in the final context |
| Streaming.StreamNextTurnAfterDispatch | swarm/core.py:277-284 | after a successful dispatch the next streamed completion is requested on the extended history, the context with the batch's updates merged over it, and the handed-off agent if any, else the same agent; with no room left the loop stops in exactly that state |
| Streaming.RunAndStreamSpec | swarm/core.py:200-292 | on a normal end the last event is the response, whose messages are exactly those the loop appended to the caller's, which keeps every context key it was given, and whose agent is present when one was given |
| Streaming.Consume | swarm/core.py:244-251 | the inner loop yields exactly the forwarded deltas and leaves exactly the merge of all deltas (`MergeAll`) |
| Streaming.ToToolCalls | swarm/core.py:266-275 | the conversion loop builds exactly one tool-call object per table entry, in order |
| Streaming.StreamTurnBody | swarm/core.py:218-284 | the imperative turn gives exactly the specified streamed turn and its events |
| Streaming.StreamStep | swarm/core.py:216-284 | the imperative loop body gives exactly the specified loop step, including the failure on a missing agent |
| Streaming.RunAndStream | swarm/core.py:200-292 | the imperative generator yields exactly the events of `RunAndStreamSpec` and ends the same way |
| Streaming.ForwardedStaysInTurn | swarm/core.py:244-251 | deltas never leave the delimited part of a turn |
| Streaming.TurnIsDelimited | swarm/core.py:243-252 | a completed turn's events are one start, the deltas, one end |
| Streaming.LoopIsDelimited | swarm/core.py:216-284 | the loop's events are whole turns, except that a failure may follow a start delimiter |
| Streaming.DispatchIsDelimited | swarm/core.py:277-284 | the rest of the loop after a dispatch keeps the events delimited |
| Streaming.EventsAreFramed | swarm/core.py:243-292 | on a normal end the response is yielded exactly once, as the last event, after whole turns; on an exception no response is yielded |
| Streaming.StoredUnderInitialName | swarm/core.py:218-259 | every stored message with a sender names the agent the stream started with, even after a handoff |
| Streaming.SentByAfterDispatch | swarm/core.py:277-284 | the tool results added after a streamed reply carry no sender |
| Streaming.NoTurnStreamed | swarm/core.py:216-292 | with `max_turns = 0` only the response is yielded, with no message and the given agent; with room but no agent the generator raises before yielding |
| Streaming.StreamTurnsBounded | swarm/core.py:211-216 | the streamed loop takes at most `max_turns` turns and leaves the caller's messages as the history's prefix |

## Left out

- Client construction and network calls: the client is a scripted sequence of answers. Past the end of the script a request fails like a client exception.
- `function_to_json`, `merge_chunk` and `debug_print`: swarm/util.py is not part of this model. A descriptor is a record with a properties map and a required list. `merge_chunk` is an abstract function of the message under construction and a delta body.
- The tool-call table's fresh entries with empty id, type, name and arguments (the `defaultdict` factory): only `merge_chunk` reads them, so they are not observable in this model.
- JSON and Python-repr encoding and decoding are abstract functions: the argument decoding (a dict, another JSON value, or a failure), the argument repr, the handoff JSON, and the gemini wrap and unwrap of a stored message. The gemini `str(...).replace` encoding is not a JSON encoder, so no round trip is claimed.
- Dispatch.HandleCall: the `TypeError` raised for arguments that decode to a list, number, string, boolean or null carries one fixed message per path, not Python's wording, which names the value's type.
- In the post-processing, `json.loads(...)["content"].strip()` failing in any way (bad JSON, no "content" key, not a string) is the one `JsonDecodeError` outcome.
- Python reflection and `**args` invocation: each tool function carries a `takesContext` flag, and calling it is an abstract function that returns or raises.
- Exceptions raised by an instructions callable, by pydantic conversions, or by a malformed chunk (`chunk.choices[0]`) are not modelled.
- The warning `print` and `debug_print` output.
- The generator's laziness and its early abandonment by a consumer: the events are the complete list a consumer would see by iterating to the end.
- Each delta is yielded and then has its role and sender popped from the same dict. A consumer that keeps the yielded dicts later sees them stripped. The events are recorded as they are at the moment they are yielded.
- `run(stream=True)` only returns the generator of `run_and_stream`; the model states the two separately.
- Tool functions that mutate the `context_variables` dict they receive: a call sees the context as a value.
- `max_turns` is an optional natural number, with None for `float("inf")`. A negative or fractional bound behaves like the next natural number up, so it is not modelled separately.
- `RunState.turns` counts completions received. It is a counter of the model, not a variable of the source, and is used only to state the turn bound.
- Completion.FirstRequest: states the first request only, when `model_config` does not replace the model or the messages; the retried request is stated by `Completion.SendWithRetry`.
- Completion.TransmittedToolsHideContext: assumes the introspector lists `context_variables` at most once in a required list and that `model_config` does not replace the tools.
