/** `ModelService`: the endpoint probe and one reply of the model over the trailing
    window of the conversation. The serving call is a parameter: `serve(window)` is the
    `(message, usage)` pair it returns, or the text of the exception it raises. The
    endpoint list itself is `Endpoints.AvailableEndpoints`. */
module ModelService {
  import opened Wrappers
  import opened Json
  import opened Messages
  import Text
  import Seqs
  import ContextWindow
  import ServingUtils

  /** Python `v[:n]` on a value; `Err` carries the `TypeError` text. */
  function SlicePrefix(v: Value, n: nat): (r: Result<Value>)
    ensures v.Str? ==> r == Ok(Str(Seqs.Take(v.s, n)))
    ensures v.Arr? ==> r == Ok(Arr(Seqs.Take(v.items, n)))
    ensures r.Ok? <==> v.Str? || v.Arr?
  {
    match v
    case Str(s) => Ok(Str(Seqs.Take(s, n)))
    case Arr(items) => Ok(Arr(Seqs.Take(items, n)))
    case Obj(_) => Err("unhashable type: 'slice'")
    case _ => Err("'" + TypeName(v) + "' object is not subscriptable")
  }

  /** `test_endpoint`: an empty name is refused without a call; otherwise the first 40
      characters of the reply's content, `OK` when it has none, or the exception text. */
  function TestEndpoint(endpointName: string, outcome: Result<ServingUtils.Reply>)
    : (r: (bool, Value))
    ensures endpointName == "" ==> r == (false, Str("No endpoint specified"))
    ensures endpointName != "" && outcome.Err? ==> r == (false, Str(outcome.error))
    ensures r.0 ==> endpointName != "" && outcome.Ok? && outcome.value.message.Obj?
    ensures r.0 && r.1.Str? ==> |r.1.s| <= 40
    ensures r.0 && r.1.Arr? ==> |r.1.items| <= 40
    ensures endpointName != "" && outcome.Ok? && outcome.value.message.Obj?
            && !Has(outcome.value.message.fields, "content") ==>
      r == (true, Str("OK"))
  {
    if endpointName == "" then (false, Str("No endpoint specified"))
    else
      match outcome
      case Err(e) => (false, Str(e))
      case Ok(reply) =>
        match ServingUtils.GetAttr(reply.message, "content", Str("OK"))
        case Err(e) => (false, Str(e))
        case Ok(content) =>
          match SlicePrefix(content, 40)
          case Err(e) => (false, Str(e))
          case Ok(message) => (true, message)
  }

  /** A successful probe of a long text reports exactly its first 40 characters. */
  lemma TestEndpointTruncates(endpointName: string, message: Dict, text: string)
    requires endpointName != "" && Get(message, "content") == Some(Str(text))
    ensures TestEndpoint(endpointName, Ok(ServingUtils.Reply(Obj(message), Null)))
      == (true, Str(Seqs.Take(text, 40)))
    ensures |text| >= 40 ==> Seqs.Take(text, 40) == text[..40]
  {
  }

  const DEFAULT_MAX_TURNS := 12

  /** `int(os.getenv("MAX_TURNS", "12") or "12")`: unset and empty both mean 12. */
  function MaxTurns(setting: Option<string>): (r: Result<int>)
    ensures setting.None? || setting == Some("") ==> r == Ok(DEFAULT_MAX_TURNS)
    ensures setting.Some? && setting.value != "" ==> r == PyInt(Str(setting.value))
  {
    var s := if setting.None? || setting.value == "" then "12" else setting.value;
    assert s == "12" ==> s == Text.IntToString(12);
    Text.ParseIntToString(12);
    PyInt(Str(s))
  }

  /** The reply text, and the two token counts of `generate_response`. */
  datatype Generated = Generated(text: Value, tokensIn: int, tokensOut: int)

  /** `int(usage.get(key, 0)) if isinstance(usage, dict) else 0`. */
  function TokenCount(usage: Value, key: string): (r: Result<int>)
    ensures !usage.Obj? ==> r == Ok(0)
    ensures usage.Obj? && !Has(usage.fields, key) ==> r == Ok(0)
    ensures usage.Obj? && Has(usage.fields, key) && GetOr(usage.fields, key, Null).Int? ==>
      r == Ok(GetOr(usage.fields, key, Null).i)
  {
    if usage.Obj? then PyInt(GetOr(usage.fields, key, Int(0))) else Ok(0)
  }

  /** How the chat code reads a reply: the message's `content` (`""` when it has none) or
      the message as text when it is not a dictionary, then the two token counts; a count
      that `int()` refuses is the error. */
  function ReadReply(reply: ServingUtils.Reply): (r: Result<Generated>)
    ensures r.Ok? <==>
      TokenCount(reply.usage, "prompt_tokens").Ok? && TokenCount(reply.usage, "completion_tokens").Ok?
    ensures r.Ok? ==>
      r.value.tokensIn == TokenCount(reply.usage, "prompt_tokens").value
      && r.value.tokensOut == TokenCount(reply.usage, "completion_tokens").value
    ensures r.Ok? && reply.message.Obj? ==>
      r.value.text == GetOr(reply.message.fields, "content", Str(""))
    ensures r.Ok? && !reply.message.Obj? ==> r.value.text == Str(ToStr(reply.message))
  {
    var text := if reply.message.Obj? then GetOr(reply.message.fields, "content", Str(""))
                else Str(ToStr(reply.message));
    var tokensIn :- TokenCount(reply.usage, "prompt_tokens");
    var tokensOut :- TokenCount(reply.usage, "completion_tokens");
    Ok(Generated(text, tokensIn, tokensOut))
  }

  /** `generate_response`: refuses an empty endpoint name, sends the trailing `MAX_TURNS`
      messages (all of them when the setting is not positive) and reads the reply. */
  function GenerateResponse(endpointName: string, messages: seq<Message>,
                            maxTurnsSetting: Option<string>,
                            serve: seq<Message> -> Result<ServingUtils.Reply>)
    : (r: Result<Generated>)
    ensures endpointName == "" ==> r == Err("No endpoint configured")
    ensures endpointName != "" && MaxTurns(maxTurnsSetting).Err? ==>
      r == Err(MaxTurns(maxTurnsSetting).error)
    ensures endpointName != "" && MaxTurns(maxTurnsSetting).Ok?
            && serve(ContextWindow.Window(messages, MaxTurns(maxTurnsSetting).value)).Err? ==>
      r == Err(serve(ContextWindow.Window(messages, MaxTurns(maxTurnsSetting).value)).error)
    ensures endpointName != "" && MaxTurns(maxTurnsSetting).Ok?
            && serve(ContextWindow.Window(messages, MaxTurns(maxTurnsSetting).value)).Ok? ==>
      r == ReadReply(serve(ContextWindow.Window(messages, MaxTurns(maxTurnsSetting).value)).value)
    ensures r.Ok? ==>
      endpointName != "" && MaxTurns(maxTurnsSetting).Ok?
      && serve(ContextWindow.Window(messages, MaxTurns(maxTurnsSetting).value)).Ok?
    ensures r.Ok? ==>
      var reply := serve(ContextWindow.Window(messages, MaxTurns(maxTurnsSetting).value)).value;
      (reply.message.Obj? ==> r.value.text == GetOr(reply.message.fields, "content", Str("")))
      && (!reply.message.Obj? ==> r.value.text == Str(ToStr(reply.message)))
      && (!reply.usage.Obj? ==> r.value.tokensIn == 0 && r.value.tokensOut == 0)
  {
    if endpointName == "" then Err("No endpoint configured")
    else
      var maxTurns :- MaxTurns(maxTurnsSetting);
      var window := ContextWindow.Window(messages, maxTurns);
      var reply :- serve(window);
      ReadReply(reply)
  }

  /** With `MAX_TURNS` unset the model is served the last twelve messages, and always the
      newest one. */
  lemma GenerateResponseDefaultWindow(endpointName: string, messages: seq<Message>,
                                      serve: seq<Message> -> Result<ServingUtils.Reply>)
    requires endpointName != "" && messages != []
    ensures var w := ContextWindow.Window(messages, 12);
      GenerateResponse(endpointName, messages, None, serve)
        == (if serve(w).Ok? then ReadReply(serve(w).value) else Err(serve(w).error))
      && |w| == (if |messages| < 12 then |messages| else 12)
      && w[|w| - 1] == messages[|messages| - 1]
  {
    ContextWindow.WindowKeepsNewest(messages, 12);
  }
}
