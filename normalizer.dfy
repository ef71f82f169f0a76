/** `handle_function_result`: a tool function's return value made canonical. */
module Normalizer {
  import opened Types

  /** The text of the TypeError raised when a value cannot be cast to a string. */
  function CastFailure(shown: string, reason: string): string
  {
    "Failed to cast response to string: " + shown
      + ". Make sure agent functions return a string or Result object. Error: " + reason
  }

  /** A Result passes through; an Agent becomes the handoff signal; any other
      value becomes its `str()`. When `str()` raises, the error message names
      the value by formatting it once more (`{result}`): if that formatting
      raises too, its exception propagates instead of the TypeError. */
  function HandleFunctionResult(raw: RawValue, handoffJson: string -> string): (r: Outcome<ToolResult>)
    ensures raw.RawResult? ==> r == Ok(raw.result)
    ensures raw.RawAgent? ==> r.Ok? && r.value.value == handoffJson(raw.agent.name)
    ensures r.Ok? ==> (r.value.agent.Some? <==> raw.RawAgent? || (raw.RawResult? && raw.result.agent.Some?))
    ensures r.Ok? && raw.RawAgent? ==> r.value.agent == Some(raw.agent)
    ensures !raw.RawResult? && r.Ok? ==> r.value.contextVariables == map[]
    ensures r.Err? <==> raw.RawOther? && raw.str.RenderFails?
    ensures raw.RawOther? && r.Ok? ==> r.value.value == raw.str.text
    ensures raw.RawOther? && raw.str.RenderFails? && raw.formatted.Rendered? ==>
              r == Err(TypeError(CastFailure(raw.formatted.text, raw.str.reason)))
    ensures raw.RawOther? && raw.str.RenderFails? && raw.formatted.RenderFails? ==>
              r == Err(RenderError(raw.formatted.reason))
  {
    match raw
    case RawResult(result) => Ok(result)
    case RawAgent(agent) => Ok(ToolResult(handoffJson(agent.name), map[], Some(agent)))
    case RawOther(str, formatted) =>
      match str
      case Rendered(text) => Ok(ToolResult(text, map[], None))
      case RenderFails(reason) =>
        match formatted
        case Rendered(shown) => Err(TypeError(CastFailure(shown, reason)))
        case RenderFails(again) => Err(RenderError(again))
  }

  /** Normalising is idempotent: a normalised result normalises to itself (a
      corollary of the pass-through case of `HandleFunctionResult`). */
  lemma NormalizeIdempotent(raw: RawValue, handoffJson: string -> string)
    requires HandleFunctionResult(raw, handoffJson).Ok?
    ensures var r := HandleFunctionResult(raw, handoffJson).value;
            HandleFunctionResult(RawResult(r), handoffJson) == Ok(r)
  {
  }
}
