/** `ModelServingClient` and the module-level helpers of the serving utilities: the
    request payload, the reading of an endpoint's reply, the error replies, the endpoint
    probe and the retry loop. */
module ServingUtils {
  import opened Wrappers
  import opened Json
  import opened Messages
  import Text

  /** The usage reported when the endpoint reported none or the call failed. */
  const ZERO_USAGE: Dict :=
    [Field("prompt_tokens", Int(0)), Field("completion_tokens", Int(0)),
     Field("total_tokens", Int(0))]

  /** The `(response_message, usage_info)` pair every query returns. */
  datatype Reply = Reply(message: Value, usage: Value)

  /** What `requests.post(...)`, `raise_for_status()` and `response.json()` produce: a
      `RequestException` with its text, or the decoded body. */
  datatype HttpOutcome = RequestFailed(error: string) | Received(body: Value)

  /** `{"role": "assistant", "content": content}`. */
  function AssistantMessage(content: Value): Value {
    Obj([Field("role", Str(ASSISTANT)), Field("content", content)])
  }

  /** The error replies, which list `content` before `role`. */
  function ErrorReply(text: string): (r: Reply)
    ensures r.usage == Obj(ZERO_USAGE)
    ensures r.message.Obj? && Get(r.message.fields, "content") == Some(Str(text))
    ensures Get(r.message.fields, "role") == Some(Str(ASSISTANT))
  {
    Reply(Obj([Field("content", Str(text)), Field("role", Str(ASSISTANT))]), Obj(ZERO_USAGE))
  }

  // ---------------------------------------------------------------------------
  // _prepare_payload

  /** A Python `dict` never holds a key twice. */
  predicate UniqueKeys(d: Dict) {
    forall i, j :: 0 <= i < j < |d| ==> d[i].key != d[j].key
  }

  /** `d.update(kw)`: each item of `kw` stored in turn. */
  function Update(d: Dict, kw: Dict): (r: Dict)
    ensures Keys(d) <= Keys(r)
    decreases kw
  {
    if kw == [] then d else Update(Put(d, kw[0].key, kw[0].val), kw[1..])
  }

  lemma {:induction false} HasIff(d: Dict, k: string)
    ensures Has(d, k) <==> exists i :: 0 <= i < |d| && d[i].key == k
  {
    if d != [] {
      HasIff(d[1..], k);
      if Has(d[1..], k) {
        var i :| 0 <= i < |d[1..]| && d[1..][i].key == k;
        assert d[i + 1].key == k;
      }
      if exists i :: 0 <= i < |d| && d[i].key == k {
        var i :| 0 <= i < |d| && d[i].key == k;
        if i > 0 {
          assert d[1..][i - 1].key == k;
        }
      }
    }
  }

  /** After the update a key reads the keyword value when the keywords hold it, and its
      earlier value otherwise. */
  lemma {:induction false} UpdateGet(d: Dict, kw: Dict, k: string)
    requires UniqueKeys(kw)
    ensures Get(Update(d, kw), k) == if Has(kw, k) then Get(kw, k) else Get(d, k)
    decreases kw
  {
    if kw != [] {
      var d' := Put(d, kw[0].key, kw[0].val);
      assert UniqueKeys(kw[1..]) by {
        forall i, j | 0 <= i < j < |kw[1..]| ensures kw[1..][i].key != kw[1..][j].key {
          assert kw[1..][i] == kw[i + 1] && kw[1..][j] == kw[j + 1];
        }
      }
      UpdateGet(d', kw[1..], k);
      if k == kw[0].key {
        HasIff(kw[1..], k);
        assert forall i :: 0 <= i < |kw[1..]| ==> kw[1..][i].key == kw[i + 1].key != k;
      }
    }
  }

  /** The body before the keyword arguments. */
  function PayloadBase(messages: Value, maxTokens: int, temperature: Value): (b: Dict)
    ensures Keys(b) == ["messages", "max_tokens", "temperature", "stream"]
    ensures Get(b, "messages") == Some(messages)
    ensures Get(b, "max_tokens") == Some(Int(maxTokens))
    ensures Get(b, "temperature") == Some(temperature)
    ensures Get(b, "stream") == Some(Bool(false))
    ensures forall k :: Has(b, k) <==> k in ["messages", "max_tokens", "temperature", "stream"]
  {
    var b := [Field("messages", messages), Field("max_tokens", Int(maxTokens)),
              Field("temperature", temperature), Field("stream", Bool(false))];
    assert b[1..][1..][1..][1..] == [];
    assert Keys(b[1..][1..][1..]) == ["stream"];
    assert Keys(b[1..][1..]) == ["temperature", "stream"];
    assert Keys(b[1..]) == ["max_tokens", "temperature", "stream"];
    assert Get(b[1..][1..][1..], "stream") == Some(Bool(false));
    assert Get(b[1..][1..], "temperature") == Some(temperature);
    assert Get(b[1..][1..], "stream") == Some(Bool(false));
    assert Get(b[1..], "stream") == Some(Bool(false));
    forall k ensures Has(b, k) <==> k in ["messages", "max_tokens", "temperature", "stream"] {
      assert Get(b[1..][1..][1..][1..], k) == None;
      assert Has(b[1..][1..][1..], k) <==> k == "stream";
      assert Has(b[1..][1..], k) <==> k == "temperature" || k == "stream";
      assert Has(b[1..], k) <==> k == "max_tokens" || k == "temperature" || k == "stream";
    }
    b
  }

  /** `_prepare_payload`: the OpenAI-style body with `stream` off, then the extra keyword
      arguments written over it. */
  function PreparePayload(messages: Value, maxTokens: int, temperature: Value, kwargs: Dict)
    : (p: Dict)
    requires UniqueKeys(kwargs)
    ensures ["messages", "max_tokens", "temperature", "stream"] <= Keys(p)
    ensures forall k :: Has(kwargs, k) ==> Get(p, k) == Get(kwargs, k)
    ensures !Has(kwargs, "messages") ==> Get(p, "messages") == Some(messages)
    ensures !Has(kwargs, "max_tokens") ==> Get(p, "max_tokens") == Some(Int(maxTokens))
    ensures !Has(kwargs, "temperature") ==> Get(p, "temperature") == Some(temperature)
    ensures !Has(kwargs, "stream") ==> Get(p, "stream") == Some(Bool(false))
  {
    var base := PayloadBase(messages, maxTokens, temperature);
    var p := Update(base, kwargs);
    UpdateGet(base, kwargs, "messages");
    UpdateGet(base, kwargs, "max_tokens");
    UpdateGet(base, kwargs, "temperature");
    UpdateGet(base, kwargs, "stream");
    forall k | Has(kwargs, k) ensures Get(p, k) == Get(kwargs, k) {
      UpdateGet(base, kwargs, k);
    }
    p
  }

  /** A payload carries exactly the keys of the body and of the keyword arguments. */
  lemma PayloadKeys(messages: Value, maxTokens: int, temperature: Value, kwargs: Dict,
                    k: string)
    requires UniqueKeys(kwargs)
    ensures Has(PreparePayload(messages, maxTokens, temperature, kwargs), k) <==>
      k in ["messages", "max_tokens", "temperature", "stream"] || Has(kwargs, k)
  {
    var base := PayloadBase(messages, maxTokens, temperature);
    UpdateGet(base, kwargs, k);
  }

  // ---------------------------------------------------------------------------
  // _parse_response

  /** `choices[0]`, with the error Python raises for each kind of value. Dictionaries
      decoded from JSON have string keys only, so `0` is never one of their keys. */
  function FirstChoice(choices: Value): (r: Result<Value>)
    ensures choices.Arr? && choices.items != [] ==> r == Ok(choices.items[0])
  {
    match choices
    case Arr(items) => if items == [] then Err("list index out of range") else Ok(items[0])
    case Obj(_) => Err("0")
    case Str(s) => if s == [] then Err("string index out of range") else Ok(Str(s[..1]))
    case _ => Err("'" + TypeName(choices) + "' object is not subscriptable")
  }

  /** `v.get(k, default)`, which only a dictionary has. */
  function GetAttr(v: Value, k: string, default: Value): (r: Result<Value>)
    ensures v.Obj? <==> r.Ok?
    ensures v.Obj? ==> r.value == GetOr(v.fields, k, default)
  {
    if v.Obj? then Ok(GetOr(v.fields, k, default))
    else Err("'" + TypeName(v) + "' object has no attribute 'get'")
  }

  /** The reply to a plain-text body. */
  function PlainReply(s: string): Reply {
    Reply(AssistantMessage(Str(s)), Obj(ZERO_USAGE))
  }

  /** The `TypeError` text of indexing a string by a string. */
  const STR_INDEX_ERROR := "string indices must be integers, not 'str'"

  /** Python `a or b or ... or default`: the first truthy value, else the default. */
  function FirstTruthy(vs: seq<Value>, default: Value): (r: Value)
    ensures (exists i :: 0 <= i < |vs| && Truthy(vs[i])) ==>
      exists i :: 0 <= i < |vs| && Truthy(vs[i]) && r == vs[i]
                  && forall j :: 0 <= j < i ==> !Truthy(vs[j])
    ensures (forall i :: 0 <= i < |vs| ==> !Truthy(vs[i])) ==> r == default
  {
    if vs == [] then default
    else if Truthy(vs[0]) then vs[0]
    else
      var r := FirstTruthy(vs[1..], default);
      assert forall i :: 1 <= i < |vs| && Truthy(vs[i]) ==> Truthy(vs[1..][i - 1]);
      r
  }

  /** `_parse_response` as written. The membership tests come first, so they run on
      whatever the body is: on a string they are substring tests, on a list element
      tests, and on a number or `None` they raise. */
  function ParseResponse(result: Value): (r: Result<Reply>)
    ensures r.Ok? ==> result.Obj? || result.Str?
    ensures result.Obj? && !Has(result.fields, "choices") ==> r.Ok?
    ensures result.Obj? && Has(result.fields, "choices") ==>
      (r.Ok? <==> exists c :: FirstChoice(GetOr(result.fields, "choices", Null)) == Ok(c) && c.Obj?)
    ensures result.Str? ==>
      (r.Ok? <==> !Text.HasSubstring(result.s, "choices") && !Text.HasSubstring(result.s, "response"))
    ensures r.Ok? && !(result.Obj? && Has(result.fields, "choices")) ==>
      r.value.message.Obj? && Get(r.value.message.fields, "role") == Some(Str(ASSISTANT))
    ensures result.Obj? && Has(result.fields, "choices")
            && FirstChoice(GetOr(result.fields, "choices", Null)).Ok?
            && FirstChoice(GetOr(result.fields, "choices", Null)).value.Obj? ==>
      r == Ok(Reply(GetOr(FirstChoice(GetOr(result.fields, "choices", Null)).value.fields, "message", Obj([])),
                    GetOr(result.fields, "usage", Obj([]))))
    ensures result.Obj? && !Has(result.fields, "choices") && Has(result.fields, "response") ==>
      r == Ok(Reply(AssistantMessage(GetOr(result.fields, "response", Null)),
                    GetOr(result.fields, "usage", Obj([]))))
    ensures result.Obj? && !Has(result.fields, "choices") && !Has(result.fields, "response") ==>
      r == Ok(Reply(AssistantMessage(FirstTruthy([GetOr(result.fields, "content", Null),
                                                   GetOr(result.fields, "text", Null),
                                                   GetOr(result.fields, "output", Null)],
                                                  Str(Repr(result)))),
                    GetOr(result.fields, "usage", Obj(ZERO_USAGE))))
    ensures result.Str? && r.Ok? ==> r.value == PlainReply(result.s)
  {
    match result
    case Obj(d) =>
      if Has(d, "choices") then
        var first :- FirstChoice(GetOr(d, "choices", Null));
        var message :- GetAttr(first, "message", Obj([]));
        Ok(Reply(message, GetOr(d, "usage", Obj([]))))
      else if Has(d, "response") then
        Ok(Reply(AssistantMessage(GetOr(d, "response", Null)), GetOr(d, "usage", Obj([]))))
      else
        var content :=
          FirstTruthy([GetOr(d, "content", Null), GetOr(d, "text", Null), GetOr(d, "output", Null)],
                      Str(Repr(result)));
        Ok(Reply(AssistantMessage(content), GetOr(d, "usage", Obj(ZERO_USAGE))))
    case Str(s) =>
      if Text.HasSubstring(s, "choices") || Text.HasSubstring(s, "response") then
        Err(STR_INDEX_ERROR)
      else
        Ok(PlainReply(s))
    case Arr(items) =>
      if Str("choices") in items || Str("response") in items then
        Err("list indices must be integers or slices, not str")
      else
        Err("'list' object has no attribute 'get'")
    case _ => Err("argument of type '" + TypeName(result) + "' is not iterable")
  }

  /** A plain-text reply that merely mentions the word "response" is rejected. */
  lemma PlainTextMentioningResponseFails()
    ensures ParseResponse(Str("my response")).Err?
    ensures ParseResponseFixed(Str("my response")) == Ok(PlainReply("my response"))
  {
    var s := "my response";
    assert s[3..3 + |"response"|] == "response";
    Text.HasSubstringOfSlice(s, "response", 3);
  }

  /** `_parse_response` with the plain-text test moved first, as its comments intend:
      every string is the assistant's text. */
  function ParseResponseFixed(result: Value): (r: Result<Reply>)
    ensures result.Str? ==> r == Ok(PlainReply(result.s))
    ensures !result.Str? ==> r == ParseResponse(result)
  {
    if result.Str? then Ok(PlainReply(result.s)) else ParseResponse(result)
  }

  /** The two readings differ only on strings that mention one of the two keys. */
  lemma ParseFixedAgrees(result: Value)
    requires !(result.Str? && (Text.HasSubstring(result.s, "choices")
                               || Text.HasSubstring(result.s, "response")))
    ensures ParseResponseFixed(result) == ParseResponse(result)
  {
  }

  /** A standard chat-completions body yields its first choice's message and its usage. */
  lemma ParseChatCompletion(message: Dict, rest: seq<Value>, usage: Value)
    ensures ParseResponseFixed(Obj([Field("choices", Arr([Obj([Field("message", Obj(message))])] + rest)),
                                    Field("usage", usage)]))
      == Ok(Reply(Obj(message), usage))
  {
    var d := [Field("choices", Arr([Obj([Field("message", Obj(message))])] + rest)),
              Field("usage", usage)];
    assert Get(d, "usage") == Get(d[1..], "usage");
  }

  // ---------------------------------------------------------------------------
  // query_endpoint

  /** `query_endpoint` as written: the reply `_parse_response` reads from the body, or an
      assistant message describing the failure with zero usage; it never raises. */
  function QueryEndpoint(outcome: HttpOutcome): (r: Reply)
    ensures outcome.RequestFailed? ==>
      r == ErrorReply("Error calling model endpoint: " + outcome.error)
    ensures outcome.Received? && ParseResponse(outcome.body).Ok? ==>
      r == ParseResponse(outcome.body).value
    ensures outcome.Received? && ParseResponse(outcome.body).Err? ==>
      r == ErrorReply("Unexpected error: " + ParseResponse(outcome.body).error)
  {
    match outcome
    case RequestFailed(e) => ErrorReply("Error calling model endpoint: " + e)
    case Received(body) =>
      match ParseResponse(body)
      case Ok(reply) => reply
      case Err(e) => ErrorReply("Unexpected error: " + e)
  }

  /** `query_endpoint` over the corrected parse: every plain-text body is the reply. */
  function QueryEndpointFixed(outcome: HttpOutcome): (r: Reply)
    ensures outcome.Received? && outcome.body.Str? ==> r == PlainReply(outcome.body.s)
    ensures !(outcome.Received? && outcome.body.Str?) ==> r == QueryEndpoint(outcome)
  {
    match outcome
    case RequestFailed(_) => QueryEndpoint(outcome)
    case Received(body) => if body.Str? then PlainReply(body.s) else QueryEndpoint(outcome)
  }

  /** A plain-text answer that mentions "response" is an error reply as written and the
      answer itself once corrected. */
  lemma QueryEndpointMentioningResponse()
    ensures QueryEndpoint(Received(Str("my response")))
      == ErrorReply("Unexpected error: " + STR_INDEX_ERROR)
    ensures QueryEndpointFixed(Received(Str("my response"))) == PlainReply("my response")
  {
    var s := "my response";
    assert s[3..3 + |"response"|] == "response";
    Text.HasSubstringOfSlice(s, "response", 3);
    assert ParseResponse(Str(s)) == Err(STR_INDEX_ERROR);
  }

  /** Every failed call still reads as an assistant message whose content is text. */
  lemma QueryFailureIsAssistantText(outcome: HttpOutcome)
    requires outcome.RequestFailed? || ParseResponse(outcome.body).Err?
    ensures QueryEndpoint(outcome).message.Obj?
    ensures Get(QueryEndpoint(outcome).message.fields, "role") == Some(Str(ASSISTANT))
    ensures QueryEndpoint(outcome).usage == Obj(ZERO_USAGE)
  {
  }

  // ---------------------------------------------------------------------------
  // test_endpoint

  /** `"content" in response and len(response["content"]) > 0`, with every `TypeError`
      read as `False`. */
  predicate HasContent(message: Value) {
    message.Obj? && Has(message.fields, "content")
    && var n := Len(GetOr(message.fields, "content", Null)); n.Some? && n.value > 0
  }

  /** `test_endpoint` as written: the probe reads the reply of `query_endpoint`, which
      has already turned every failure into a non-empty error message. */
  function TestEndpointAsWritten(outcome: HttpOutcome): (ok: bool)
    ensures outcome.RequestFailed? ==> ok
    ensures outcome.Received? && ParseResponse(outcome.body).Err? ==> ok
    ensures outcome.Received? && ParseResponse(outcome.body).Ok? ==>
      (ok <==> HasContent(ParseResponse(outcome.body).value.message))
  {
    HasContent(QueryEndpoint(outcome).message)
  }

  /** An unreachable endpoint passes the probe as written. */
  lemma UnreachableEndpointPasses(e: string)
    ensures TestEndpointAsWritten(RequestFailed(e))
    ensures !TestEndpointFixed(RequestFailed(e))
  {
  }

  /** `test_endpoint` as its documentation promises: `True` only when the endpoint
      answered with a readable reply whose content is non-empty. */
  function TestEndpointFixed(outcome: HttpOutcome): (ok: bool)
    ensures ok ==> outcome.Received? && ParseResponseFixed(outcome.body).Ok?
    ensures ok ==> TestEndpointAsWritten(outcome)
  {
    outcome.Received? && ParseResponseFixed(outcome.body).Ok?
    && HasContent(ParseResponseFixed(outcome.body).value.message)
  }

  /** On an endpoint that answers readably the two probes agree. */
  lemma TestEndpointAgreesOnAnswers(body: Value)
    requires ParseResponseFixed(body).Ok?
    ensures TestEndpointFixed(Received(body)) == TestEndpointAsWritten(Received(body))
  {
    if body.Str? && ParseResponse(body).Err? {
      assert Text.HasSubstring(body.s, "choices") || Text.HasSubstring(body.s, "response");
      assert body.s != [];
      var fields := AssistantMessage(Str(body.s)).fields;
      assert Get(fields, "content") == Get(fields[1..], "content") == Some(Str(body.s));
      assert HasContent(PlainReply(body.s).message);
      var e := ErrorReply("Unexpected error: " + ParseResponse(body).error);
      assert HasContent(e.message);
    }
  }

  // ---------------------------------------------------------------------------
  // format_messages_for_chat

  /** `msg.get("role") in ["user", "assistant", "system"]`. */
  predicate IsChatRole(role: Option<Value>) {
    role == Some(Str(USER)) || role == Some(Str(ASSISTANT)) || role == Some(Str(SYSTEM))
  }

  predicate IsChatRoleName(role: string) {
    role == USER || role == ASSISTANT || role == SYSTEM
  }

  /** The messages kept by `format_messages_for_chat`, in order: those with one of the
      three chat roles, with their content turned into text. */
  function FormatAll(history: seq<Dict>): (r: seq<Message>)
    ensures |r| <= |history|
    ensures forall k :: 0 <= k < |r| ==> IsChatRoleName(r[k].role)
  {
    if history == [] then []
    else
      var d := history[0];
      (if IsChatRole(Get(d, "role"))
       then [Message(Get(d, "role").value.s, ToStr(GetOr(d, "content", Str(""))))]
       else [])
      + FormatAll(history[1..])
  }

  lemma {:induction false} FormatAllAppend(a: seq<Dict>, b: seq<Dict>)
    ensures FormatAll(a + b) == FormatAll(a) + FormatAll(b)
  {
    if a == [] {
      assert a + b == b;
    } else {
      assert (a + b)[1..] == a[1..] + b;
      FormatAllAppend(a[1..], b);
    }
  }

  /** Messages that already have a chat role pass through unchanged; formatting is
      therefore idempotent. */
  lemma {:induction false} FormatChatMessages(ms: seq<Message>)
    requires forall k :: 0 <= k < |ms| ==> IsChatRoleName(ms[k].role)
    ensures FormatAll(ToDicts(ms)) == ms
  {
    if ms != [] {
      var ds := ToDicts(ms);
      assert ds[0] == ToDict(ms[0]) && ds[1..] == ToDicts(ms[1..]);
      FormatOfMessage(ms[0]);
      FormatChatMessages(ms[1..]);
    }
  }

  /** The dictionary of a message with a chat role formats back to the message. */
  lemma FormatOfMessage(m: Message)
    requires IsChatRoleName(m.role)
    ensures var d := ToDict(m);
      IsChatRole(Get(d, "role"))
      && Message(Get(d, "role").value.s, ToStr(GetOr(d, "content", Str("")))) == m
  {
    EntryFields(Str(m.role), Str(m.content));
  }

  lemma FormatIdempotent(history: seq<Dict>)
    ensures FormatAll(ToDicts(FormatAll(history))) == FormatAll(history)
  {
    FormatChatMessages(FormatAll(history));
  }

  /** A message without one of the three roles is dropped. */
  lemma FormatDropsOtherRoles(d: Dict)
    requires !IsChatRole(Get(d, "role"))
    ensures FormatAll([d]) == []
  {
  }

  /** `format_messages_for_chat`: the loop that appends one message per kept entry. */
  method FormatMessagesForChat(history: seq<Dict>) returns (formatted: seq<Message>)
    ensures formatted == FormatAll(history)
  {
    formatted := [];
    for k := 0 to |history|
      invariant formatted == FormatAll(history[..k])
    {
      var msg := history[k];
      FormatAllAppend(history[..k], [msg]);
      assert history[..k + 1] == history[..k] + [msg];
      if IsChatRole(Get(msg, "role")) {
        formatted := formatted + [Message(Get(msg, "role").value.s,
                                          ToStr(GetOr(msg, "content", Str(""))))];
      }
    }
    assert history[..|history|] == history;
  }

  // ---------------------------------------------------------------------------
  // add_system_message

  /** The conversation `add_system_message` returns: the system prompt first, replacing
      a leading system message or in front of the rest. */
  function WithSystem(msgs: seq<Message>, prompt: string): (r: seq<Message>)
    ensures r != [] && r[0] == Message(SYSTEM, prompt)
    ensures msgs != [] && msgs[0].role == SYSTEM ==> r[1..] == msgs[1..] && |r| == |msgs|
    ensures !(msgs != [] && msgs[0].role == SYSTEM) ==> r[1..] == msgs && |r| == |msgs| + 1
  {
    if msgs != [] && msgs[0].role == SYSTEM then [Message(SYSTEM, prompt)] + msgs[1..]
    else [Message(SYSTEM, prompt)] + msgs
  }

  /** Adding a system prompt twice leaves one system message, the later prompt. */
  lemma WithSystemTwice(msgs: seq<Message>, p: string, q: string)
    ensures WithSystem(WithSystem(msgs, p), q) == WithSystem(msgs, q)
  {
  }

  /** `add_system_message`: a leading system message is overwritten in the caller's
      list, which is returned; otherwise a new list is built with the prompt in front and
      the caller's list is left alone. */
  method AddSystemMessage(messages: array<Message>, prompt: string) returns (r: array<Message>)
    modifies messages
    ensures r[..] == WithSystem(old(messages[..]), prompt)
    ensures old(messages.Length > 0 && messages[0].role == SYSTEM) ==> r == messages
    ensures !old(messages.Length > 0 && messages[0].role == SYSTEM) ==>
      fresh(r) && messages[..] == old(messages[..])
  {
    var sys := Message(SYSTEM, prompt);
    if messages.Length > 0 && messages[0].role == SYSTEM {
      messages[0] := sys;
      assert messages[..] == [sys] + old(messages[..])[1..];
      return messages;
    }
    r := new Message[messages.Length + 1];
    r[0] := sys;
    for i := 0 to messages.Length
      invariant r[0] == sys
      invariant forall j :: 0 <= j < i ==> r[j + 1] == messages[j]
      invariant messages[..] == old(messages[..])
    {
      r[i + 1] := messages[i];
    }
    assert r[..] == [sys] + messages[..];
  }

  // ---------------------------------------------------------------------------
  // truncate_conversation

  /** `[msg for msg in messages if msg.get("role") == "system"]`. */
  function Systems(ms: seq<Message>): (r: seq<Message>)
    ensures forall k :: 0 <= k < |r| ==> r[k].role == SYSTEM
    ensures |r| <= |ms|
  {
    if ms == [] then []
    else (if ms[0].role == SYSTEM then [ms[0]] else []) + Systems(ms[1..])
  }

  /** `[msg for msg in messages if msg.get("role") != "system"]`. */
  function Others(ms: seq<Message>): (r: seq<Message>)
    ensures forall k :: 0 <= k < |r| ==> r[k].role != SYSTEM
    ensures |r| <= |ms|
  {
    if ms == [] then []
    else (if ms[0].role == SYSTEM then [] else [ms[0]]) + Others(ms[1..])
  }

  /** The two filters split the conversation: every message lands in exactly one. */
  lemma {:induction false} FiltersPartition(ms: seq<Message>)
    ensures |Systems(ms)| + |Others(ms)| == |ms|
    ensures ContentLength(Systems(ms)) + ContentLength(Others(ms)) == ContentLength(ms)
  {
    if ms != [] {
      FiltersPartition(ms[1..]);
      var s0: seq<Message> := if ms[0].role == SYSTEM then [ms[0]] else [];
      var o0: seq<Message> := if ms[0].role == SYSTEM then [] else [ms[0]];
      ContentLengthAppend(s0, Systems(ms[1..]));
      ContentLengthAppend(o0, Others(ms[1..]));
    }
  }

  /** The characters of content in `ms[lo..hi]`, counted from the front. */
  function Span(ms: seq<Message>, lo: nat, hi: nat): nat
    requires lo <= hi <= |ms|
    decreases hi - lo
  {
    if lo == hi then 0 else |ms[lo].content| + Span(ms, lo + 1, hi)
  }

  lemma {:induction false} SpanBack(ms: seq<Message>, lo: nat, hi: nat)
    requires lo <= hi < |ms|
    ensures Span(ms, lo, hi + 1) == Span(ms, lo, hi) + |ms[hi].content|
    decreases hi - lo
  {
    if lo < hi {
      SpanBack(ms, lo + 1, hi);
    }
  }

  lemma {:induction false} SpanIsContentLength(ms: seq<Message>, lo: nat, hi: nat)
    requires lo <= hi <= |ms|
    ensures Span(ms, lo, hi) == ContentLength(ms[lo..hi])
    decreases hi - lo
  {
    if lo < hi {
      assert ms[lo..hi][1..] == ms[lo + 1..hi];
      SpanIsContentLength(ms, lo + 1, hi);
    }
  }

  /** How many of the messages before position `j` fit a budget of `budget` characters,
      taking them newest first and stopping at the first that does not fit. */
  function Keep(ms: seq<Message>, j: nat, budget: int): (n: nat)
    requires j <= |ms|
    ensures n <= j
  {
    if j == 0 then 0
    else if |ms[j - 1].content| <= budget then
      1 + Keep(ms, j - 1, budget - |ms[j - 1].content|)
    else 0
  }

  /** The kept messages fit the budget, and the next older one would not. */
  lemma {:induction false} KeepFits(ms: seq<Message>, j: nat, budget: int)
    requires j <= |ms|
    ensures var n := Keep(ms, j, budget); n == 0 || Span(ms, j - n, j) <= budget
    ensures var n := Keep(ms, j, budget);
      n < j ==> Span(ms, j - n, j) + |ms[j - n - 1].content| > budget
  {
    if j > 0 && |ms[j - 1].content| <= budget {
      var b := budget - |ms[j - 1].content|;
      KeepFits(ms, j - 1, b);
      var m := Keep(ms, j - 1, b);
      SpanBack(ms, j - 1 - m, j - 1);
    }
  }

  /** Python `list.insert(i, x)` for an index in range. */
  function Insert<T>(s: seq<T>, i: nat, x: T): seq<T>
    requires i <= |s|
  {
    s[..i] + [x] + s[i..]
  }

  /** Python `list.insert(i, x)` for an index that may count from the end: a negative
      index `i` with `-i <= len(s)` inserts before position `len(s) + i`. */
  function InsertAt<T>(s: seq<T>, i: int, x: T): (r: seq<T>)
    requires -|s| <= i <= |s|
    ensures |r| == |s| + 1
  {
    Insert(s, if i < 0 then |s| + i else i, x)
  }

  /** `others[j:]` newest first. */
  function NewestFirst(others: seq<Message>, j: nat): (r: seq<Message>)
    requires j <= |others|
    ensures |r| == |others| - j
    decreases |others| - j
  {
    if j == |others| then [] else NewestFirst(others, j + 1) + [others[j]]
  }

  lemma {:induction false} NewestFirstAt(others: seq<Message>, j: nat, k: nat)
    requires j <= |others| && k < |others| - j
    ensures NewestFirst(others, j)[k] == others[|others| - 1 - k]
    decreases |others| - j
  {
    if k < |others| - j - 1 {
      NewestFirstAt(others, j + 1, k);
    }
  }

  /** The number of non-system messages `truncate_conversation` keeps. */
  function KeptCount(ms: seq<Message>, maxChars: int): (n: nat)
    ensures n <= |Others(ms)|
  {
    Keep(Others(ms), |Others(ms)|, maxChars - ContentLength(Systems(ms)))
  }

  /** The conversation `truncate_conversation` returns as written: the kept messages go
      in front of the system block, newest first. */
  function TruncatedAsWritten(ms: seq<Message>, maxChars: int): seq<Message> {
    var sys := Systems(ms);
    var others := Others(ms);
    var j := |others| - KeptCount(ms, maxChars);
    if sys == [] then others[j..] else NewestFirst(others, j) + sys
  }

  /** The conversation the function's comments describe: the system messages, then the
      newest messages that fit, oldest of them first. */
  function Truncated(ms: seq<Message>, maxChars: int): seq<Message> {
    var others := Others(ms);
    Systems(ms) + others[|others| - KeptCount(ms, maxChars)..]
  }

  /** The loop's account of the scan once the messages from `j` on are kept: the final
      count is those messages plus the count of the older ones on what is left. */
  predicate KeptFrom(others: seq<Message>, budget: int, j: nat)
    requires j <= |others|
  {
    Keep(others, |others|, budget)
      == |others| - j + Keep(others, j, budget - Span(others, j, |others|))
  }

  /** The scan stops when no older message is left or the next one does not fit; the
      messages kept by then are all that the count keeps. */
  lemma KeptFromStop(others: seq<Message>, budget: int, j: nat)
    requires j <= |others| && KeptFrom(others, budget, j)
    requires j == 0 || |others[j - 1].content| > budget - Span(others, j, |others|)
    ensures Keep(others, |others|, budget) == |others| - j
  {
  }

  /** One more older message that fits keeps the account of the scan. */
  lemma KeptFromStep(others: seq<Message>, budget: int, j: nat)
    requires 0 < j <= |others| && KeptFrom(others, budget, j)
    requires |others[j - 1].content| <= budget - Span(others, j, |others|)
    ensures KeptFrom(others, budget, j - 1)
  {
    var left := budget - Span(others, j, |others|);
    assert Keep(others, j, left) == 1 + Keep(others, j - 1, left - |others[j - 1].content|);
    assert Span(others, j - 1, |others|) == |others[j - 1].content| + Span(others, j, |others|);
  }

  /** The loop invariant of `truncate_conversation` with the intended insertion point. */
  predicate KeptState(sys: seq<Message>, others: seq<Message>, maxChars: int, j: nat,
                      total: int, result: seq<Message>)
  {
    j <= |others| && total == ContentLength(sys) + Span(others, j, |others|)
    && KeptFrom(others, maxChars - ContentLength(sys), j)
    && result == sys + others[j..]
  }

  /** One more message kept after the system block. */
  lemma KeptStep(sys: seq<Message>, others: seq<Message>, maxChars: int, j: nat,
                 total: int, result: seq<Message>)
    requires KeptState(sys, others, maxChars, j, total, result)
    requires 0 < j && total + |others[j - 1].content| <= maxChars
    ensures |sys| <= |result|
    ensures KeptState(sys, others, maxChars, j - 1, total + |others[j - 1].content|,
      Insert(result, |sys|, others[j - 1]))
  {
    KeptFromStep(others, maxChars - ContentLength(sys), j);
    InsertAfterBlock(sys, others, j);
    assert Span(others, j - 1, |others|) == |others[j - 1].content| + Span(others, j, |others|);
  }

  /** When the scan stops, the list built is the truncated conversation. */
  lemma KeptDone(messages: seq<Message>, maxChars: int, j: nat, total: int, result: seq<Message>)
    requires KeptState(Systems(messages), Others(messages), maxChars, j, total, result)
    requires j == 0 || total + |Others(messages)[j - 1].content| > maxChars
    ensures result == Truncated(messages, maxChars)
  {
    KeptFromStop(Others(messages), maxChars - ContentLength(Systems(messages)), j);
  }

  /** Inserting at `len(system_msgs)` extends the kept block by one older message. */
  lemma InsertAfterBlock(sys: seq<Message>, others: seq<Message>, j: nat)
    requires 0 < j <= |others|
    ensures Insert(sys + others[j..], |sys|, others[j - 1]) == sys + others[j - 1..]
  {
    assert others[j - 1..] == [others[j - 1]] + others[j..];
    assert (sys + others[j..])[..|sys|] == sys;
    assert (sys + others[j..])[|sys|..] == others[j..];
  }

  /** The list the loop as written has built once the messages from `j` on are kept. */
  function BuiltAsWritten(sys: seq<Message>, others: seq<Message>, j: nat): (r: seq<Message>)
    requires j <= |others|
    ensures |r| == |sys| + |others| - j
  {
    if sys == [] then others[j..] else NewestFirst(others, j) + sys
  }

  /** Inserting at `-len(system_msgs)` lands just before the system block, so the
      reversed kept block grows at its end; without system messages it lands in front. */
  lemma InsertBeforeBlock(sys: seq<Message>, others: seq<Message>, j: nat)
    requires 0 < j <= |others|
    ensures InsertAt(BuiltAsWritten(sys, others, j), -|sys|, others[j - 1])
      == BuiltAsWritten(sys, others, j - 1)
  {
    assert others[j - 1..] == [others[j - 1]] + others[j..];
    if sys != [] {
      var front := NewestFirst(others, j);
      assert (front + sys)[..|front|] == front && (front + sys)[|front|..] == sys;
    }
  }

  /** The loop invariant of the version as written. */
  predicate AsWrittenState(sys: seq<Message>, others: seq<Message>, maxChars: int, j: nat,
                           total: int, result: seq<Message>)
  {
    j <= |others| && total == ContentLength(sys) + Span(others, j, |others|)
    && KeptFrom(others, maxChars - ContentLength(sys), j)
    && result == BuiltAsWritten(sys, others, j)
  }

  /** One more message kept by the version as written. */
  lemma AsWrittenStep(sys: seq<Message>, others: seq<Message>, maxChars: int, j: nat,
                      total: int, result: seq<Message>)
    requires AsWrittenState(sys, others, maxChars, j, total, result)
    requires 0 < j && total + |others[j - 1].content| <= maxChars
    ensures |result| >= |sys|
    ensures AsWrittenState(sys, others, maxChars, j - 1, total + |others[j - 1].content|,
      InsertAt(result, -|sys|, others[j - 1]))
  {
    KeptFromStep(others, maxChars - ContentLength(sys), j);
    InsertBeforeBlock(sys, others, j);
    assert Span(others, j - 1, |others|) == |others[j - 1].content| + Span(others, j, |others|);
  }

  /** When the scan of the version as written stops, the list built is the result. */
  lemma AsWrittenDone(messages: seq<Message>, maxChars: int, j: nat, total: int,
                      result: seq<Message>)
    requires AsWrittenState(Systems(messages), Others(messages), maxChars, j, total, result)
    requires j == 0 || total + |Others(messages)[j - 1].content| > maxChars
    ensures result == TruncatedAsWritten(messages, maxChars)
  {
    var sys := Systems(messages);
    var others := Others(messages);
    assert j == |others| - KeptCount(messages, maxChars) by {
      KeptFromStop(others, maxChars - ContentLength(sys), j);
    }
    assert result == BuiltAsWritten(sys, others, j);
    assert TruncatedAsWritten(messages, maxChars) == BuiltAsWritten(sys, others, j);
  }

  /** `truncate_conversation` as written, with `max_chars` already computed: the newest
      messages are inserted at `-len(system_msgs)`, which places each one in front of
      the system block and so reverses them. */
  method TruncateConversationAsWritten(messages: seq<Message>, maxChars: int)
    returns (result: seq<Message>)
    ensures result == TruncatedAsWritten(messages, maxChars)
  {
    var sys := Systems(messages);
    var others := Others(messages);
    var total := ContentLength(sys);
    result := sys;
    var j := |others|;
    assert others[j..] == [];
    assert AsWrittenState(sys, others, maxChars, j, total, result);
    while j > 0 && total + |others[j - 1].content| <= maxChars
      invariant AsWrittenState(sys, others, maxChars, j, total, result)
    {
      var msg := others[j - 1];
      AsWrittenStep(sys, others, maxChars, j, total, result);
      result := InsertAt(result, -|sys|, msg);
      total := total + |msg.content|;
      j := j - 1;
    }
    AsWrittenDone(messages, maxChars, j, total, result);
  }

  /** `truncate_conversation` with the insertion point after the system block, as the
      comments intend. */
  method TruncateConversation(messages: seq<Message>, maxChars: int)
    returns (result: seq<Message>)
    ensures result == Truncated(messages, maxChars)
  {
    var sys := Systems(messages);
    var others := Others(messages);
    var total := ContentLength(sys);
    result := sys;
    var j := |others|;
    assert others[j..] == [];
    assert KeptState(sys, others, maxChars, j, total, result);
    while j > 0 && total + |others[j - 1].content| <= maxChars
      invariant KeptState(sys, others, maxChars, j, total, result)
    {
      var msg := others[j - 1];
      KeptStep(sys, others, maxChars, j, total, result);
      result := Insert(result, |sys|, msg);
      total := total + |msg.content|;
      j := j - 1;
    }
    KeptDone(messages, maxChars, j, total, result);
  }

  /** The truncated conversation keeps every system message, first and in order, then
      the newest other messages in order. */
  lemma TruncatedShape(ms: seq<Message>, maxChars: int)
    ensures var r := Truncated(ms, maxChars); var o := Others(ms);
      |Systems(ms)| <= |r| && r[..|Systems(ms)|] == Systems(ms)
      && r[|Systems(ms)|..] == o[|o| - (|r| - |Systems(ms)|)..]
  {
    var sys := Systems(ms);
    var o := Others(ms);
    var kept := o[|o| - KeptCount(ms, maxChars)..];
    assert (sys + kept)[..|sys|] == sys && (sys + kept)[|sys|..] == kept;
  }

  /** The truncated conversation fits the budget whenever the system messages do. */
  lemma TruncatedFits(ms: seq<Message>, maxChars: int)
    ensures ContentLength(Systems(ms)) <= maxChars ==>
      ContentLength(Truncated(ms, maxChars)) <= maxChars
  {
    var o := Others(ms);
    KeptFits(Systems(ms), o, maxChars, KeptCount(ms, maxChars), Truncated(ms, maxChars));
  }

  /** The truncation keeps as many messages as fit: the next older message would not. */
  lemma TruncatedMaximal(ms: seq<Message>, maxChars: int)
    ensures KeptCount(ms, maxChars) < |Others(ms)| ==>
      ContentLength(Truncated(ms, maxChars))
      + |Others(ms)[|Others(ms)| - KeptCount(ms, maxChars) - 1].content| > maxChars
  {
    KeptFits(Systems(ms), Others(ms), maxChars, KeptCount(ms, maxChars), Truncated(ms, maxChars));
  }

  lemma KeptFits(sys: seq<Message>, o: seq<Message>, maxChars: int, n: nat, r: seq<Message>)
    requires n == Keep(o, |o|, maxChars - ContentLength(sys)) && r == sys + o[|o| - n..]
    ensures ContentLength(sys) <= maxChars ==> ContentLength(r) <= maxChars
    ensures n < |o| ==> ContentLength(r) + |o[|o| - n - 1].content| > maxChars
  {
    var budget := maxChars - ContentLength(sys);
    assert ContentLength(r) == ContentLength(sys) + Span(o, |o| - n, |o|) by {
      var kept := o[|o| - n..];
      ContentLengthAppend(sys, kept);
      SpanIsContentLength(o, |o| - n, |o|);
      assert o[|o| - n..|o|] == kept;
    }
    KeepFits(o, |o|, budget);
  }

  /** With a system message the version as written returns `[b, a, S]` for the
      conversation `[S, a, b]`, where the intended result is the conversation itself. */

  lemma TruncateAsWrittenReorders()
    ensures var ms := [Message(SYSTEM, "S"), Message(USER, "a"), Message(ASSISTANT, "b")];
      TruncatedAsWritten(ms, 100) == [ms[2], ms[1], ms[0]]
      && Truncated(ms, 100) == ms
  {
    var ms := [Message(SYSTEM, "S"), Message(USER, "a"), Message(ASSISTANT, "b")];
    var t1 := ms[1..];
    var t2 := t1[1..];
    assert t2[1..] == [];
    assert Systems(t2) == [] && Others(t2) == [ms[2]];
    assert Systems(t1) == [] && Others(t1) == [ms[1], ms[2]];
    assert Systems(ms) == [ms[0]] && Others(ms) == [ms[1], ms[2]];
    var o := [ms[1], ms[2]];
    assert o[..1] == [ms[1]];
    assert ContentLength([ms[0]]) == 1;
    assert Keep(o, 0, 97) == 0;
    assert Keep(o, 1, 98) == 1;
    assert Keep(o, 2, 99) == 2;
    assert KeptCount(ms, 100) == 2;
    assert NewestFirst(o, 1) == [ms[2]];
    assert NewestFirst(o, 0) == [ms[2], ms[1]];
  }

  lemma TruncateVersionsAgreeWithoutSystem(ms: seq<Message>, maxChars: int)
    requires forall k :: 0 <= k < |ms| ==> ms[k].role != SYSTEM
    ensures Systems(ms) == []
    ensures TruncatedAsWritten(ms, maxChars) == Truncated(ms, maxChars)
  {
    NoSystems(ms);
  }

  lemma {:induction false} NoSystems(ms: seq<Message>)
    requires forall k :: 0 <= k < |ms| ==> ms[k].role != SYSTEM
    ensures Systems(ms) == []
  {
    if ms != [] {
      NoSystems(ms[1..]);
    }
  }

  // ---------------------------------------------------------------------------
  // get_optimal_parameters

  predicate GptFamily(l: string) {
    Text.HasSubstring(l, "gpt") || Text.HasSubstring(l, "openai")
  }

  predicate ClaudeFamily(l: string) {
    Text.HasSubstring(l, "claude") || Text.HasSubstring(l, "anthropic")
  }

  /** The three spellings the source lists; the first contains the other two. */
  predicate LlamaFamily(l: string) {
    Text.HasSubstring(l, "llama") || Text.HasSubstring(l, "llama2")
    || Text.HasSubstring(l, "llama-2")
  }

  predicate MixtralFamily(l: string) {
    Text.HasSubstring(l, "mixtral") || Text.HasSubstring(l, "mistral")
  }

  /** `"llama2"` and `"llama-2"` add nothing to the Llama test. */
  lemma LlamaFamilyIsLlama(l: string)
    ensures LlamaFamily(l) <==> Text.HasSubstring(l, "llama")
  {
    if Text.HasSubstring(l, "llama2") {
      Text.HasSubstringPrefix(l, "llama2", "llama");
    }
    if Text.HasSubstring(l, "llama-2") {
      Text.HasSubstringPrefix(l, "llama-2", "llama");
    }
  }

  /** `get_optimal_parameters`: the three defaults, then the extras of the first family
      whose marker occurs in the lower-cased endpoint name. */
  function GetOptimalParameters(endpointName: string): (p: Dict)
    ensures Get(p, "temperature") == Some(Float("0.7"))
    ensures Get(p, "max_tokens") == Some(Int(400))
    ensures Get(p, "top_p") == Some(Float("0.9"))
    ensures forall k :: k !in DEFAULT_KEYS ==> Get(p, k) == Get(FamilyExtras(Text.Lower(endpointName)), k)
    ensures |p| == 3 + |FamilyExtras(Text.Lower(endpointName))|
  {
    var extra := FamilyExtras(Text.Lower(endpointName));
    ParamsGet(DEFAULT_PARAMS, extra);
    DEFAULT_PARAMS + extra
  }

  const DEFAULT_KEYS := ["temperature", "max_tokens", "top_p"]
  const DEFAULT_PARAMS := [Field("temperature", Float("0.7")), Field("max_tokens", Int(400)),
                           Field("top_p", Float("0.9"))]

  /** The extras of the first family whose marker occurs in the lower-cased name. */
  function FamilyExtras(l: string): Dict {
    if GptFamily(l) then
      [Field("frequency_penalty", Float("0.0")), Field("presence_penalty", Float("0.0"))]
    else if ClaudeFamily(l) then [Field("top_k", Int(40))]
    else if LlamaFamily(l) then [Field("top_k", Int(50)), Field("repetition_penalty", Float("1.1"))]
    else if MixtralFamily(l) then [Field("top_k", Int(50))]
    else []
  }

  /** Which family-specific parameters an endpoint name gets: the penalties for GPT
      models, `top_k` 40 for Claude, `top_k` 50 (and a repetition penalty for Llama) for
      Llama and Mixtral, and only the three defaults otherwise. */
  lemma OptimalParametersByFamily(endpointName: string)
    ensures Has(GetOptimalParameters(endpointName), "frequency_penalty")
      <==> GptFamily(Text.Lower(endpointName))
    ensures Get(GetOptimalParameters(endpointName), "top_k") == Some(Int(40))
      <==> (!GptFamily(Text.Lower(endpointName)) && ClaudeFamily(Text.Lower(endpointName)))
    ensures Has(GetOptimalParameters(endpointName), "repetition_penalty")
      <==> (!GptFamily(Text.Lower(endpointName)) && !ClaudeFamily(Text.Lower(endpointName))
            && LlamaFamily(Text.Lower(endpointName)))
    ensures Get(GetOptimalParameters(endpointName), "top_k") == Some(Int(50))
      <==> (!GptFamily(Text.Lower(endpointName)) && !ClaudeFamily(Text.Lower(endpointName))
            && (LlamaFamily(Text.Lower(endpointName)) || MixtralFamily(Text.Lower(endpointName))))
    ensures !GptFamily(Text.Lower(endpointName)) && !ClaudeFamily(Text.Lower(endpointName))
      && !LlamaFamily(Text.Lower(endpointName)) && !MixtralFamily(Text.Lower(endpointName))
      ==> |GetOptimalParameters(endpointName)| == 3
  {
    var p := GetOptimalParameters(endpointName);
    var l := Text.Lower(endpointName);
    var extra := FamilyExtras(l);
    assert "frequency_penalty" !in DEFAULT_KEYS && "top_k" !in DEFAULT_KEYS
      && "repetition_penalty" !in DEFAULT_KEYS;
    assert Get(p, "frequency_penalty") == Get(extra, "frequency_penalty");
    assert Get(p, "top_k") == Get(extra, "top_k");
    assert Get(p, "repetition_penalty") == Get(extra, "repetition_penalty");
    FamilyExtrasKeys(l);
  }

  /** The three keys the lemma above reads, in each family's extras. */
  lemma FamilyExtrasKeys(l: string)
    ensures Has(FamilyExtras(l), "frequency_penalty") <==> GptFamily(l)
    ensures Get(FamilyExtras(l), "top_k") == Some(Int(40)) <==> !GptFamily(l) && ClaudeFamily(l)
    ensures Has(FamilyExtras(l), "repetition_penalty")
      <==> (!GptFamily(l) && !ClaudeFamily(l) && LlamaFamily(l))
    ensures Get(FamilyExtras(l), "top_k") == Some(Int(50))
      <==> (!GptFamily(l) && !ClaudeFamily(l) && (LlamaFamily(l) || MixtralFamily(l)))
    ensures !GptFamily(l) && !ClaudeFamily(l) && !LlamaFamily(l) && !MixtralFamily(l) ==>
      FamilyExtras(l) == []
  {
    var extra := FamilyExtras(l);
    if GptFamily(l) {
      var a := Field("frequency_penalty", Float("0.0"));
      var b := Field("presence_penalty", Float("0.0"));
      assert extra == [a] + [b];
      Fields1(b);
      GetCons(a, [b], "top_k");
      GetCons(a, [b], "frequency_penalty");
      GetCons(a, [b], "repetition_penalty");
    } else if ClaudeFamily(l) {
      Fields1(Field("top_k", Int(40)));
    } else if LlamaFamily(l) {
      var a := Field("top_k", Int(50));
      var b := Field("repetition_penalty", Float("1.1"));
      assert extra == [a] + [b];
      Fields1(b);
      GetCons(a, [b], "top_k");
      GetCons(a, [b], "frequency_penalty");
      GetCons(a, [b], "repetition_penalty");
    } else if MixtralFamily(l) {
      Fields1(Field("top_k", Int(50)));
    }
  }

  lemma ParamsGet(params: Dict, extra: Dict)
    requires params == DEFAULT_PARAMS
    ensures Get(params + extra, "temperature") == Some(Float("0.7"))
    ensures Get(params + extra, "max_tokens") == Some(Int(400))
    ensures Get(params + extra, "top_p") == Some(Float("0.9"))
    ensures forall k :: k !in DEFAULT_KEYS ==> Get(params + extra, k) == Get(extra, k)
  {
    var p := params + extra;
    assert p[1..] == params[1..] + extra;
    assert p[1..][1..] == params[1..][1..] + extra;
    assert p[1..][1..][1..] == extra;
    assert Get(p, "top_p") == Get(p[1..], "top_p") == Get(p[1..][1..], "top_p");
    forall k | k !in DEFAULT_KEYS
      ensures Get(p, k) == Get(extra, k)
    {
      assert Get(p, k) == Get(p[1..], k) == Get(p[1..][1..], k) == Get(p[1..][1..][1..], k);
    }
  }

  // ---------------------------------------------------------------------------
  // query_with_retry

  /** `range(max_retries + 1)` has this many attempts; none when it is negative. */
  function AttemptCount(maxRetries: int): nat {
    if maxRetries + 1 > 0 then maxRetries + 1 else 0
  }

  /** The reply after every attempt has raised; `None` prints when there was none. */
  function RetryFailure(maxRetries: int, lastError: Option<string>): Reply {
    ErrorReply("Failed to get response after " + Text.IntToString(maxRetries + 1)
               + " attempts: " + (if lastError.Some? then lastError.value else "None"))
  }

  /** `query_with_retry`: `call(i)` is what attempt `i` of `query_endpoint_with_usage`
      produces, a reply or the text of the exception it raised. The first reply is
      returned; when every attempt raises, an error reply naming the last exception.
      `attempts` is the number of calls made. */
  method QueryWithRetry(maxRetries: int, call: nat -> Result<Reply>)
    returns (reply: Reply, attempts: nat)
    ensures attempts <= AttemptCount(maxRetries)
    ensures forall i :: 0 <= i < attempts - 1 ==> call(i).Err?
    ensures attempts > 0 && call(attempts - 1).Ok? ==> reply == call(attempts - 1).value
    ensures attempts == 0 || call(attempts - 1).Err? ==>
      attempts == AttemptCount(maxRetries)
      && reply == RetryFailure(maxRetries,
                               if attempts == 0 then None else Some(call(attempts - 1).error))
  {
    var lastError: Option<string> := None;
    var n := AttemptCount(maxRetries);
    attempts := 0;
    while attempts < n
      invariant attempts <= n
      invariant forall i :: 0 <= i < attempts ==> call(i).Err?
      invariant lastError == if attempts == 0 then None else Some(call(attempts - 1).error)
    {
      var r := call(attempts);
      attempts := attempts + 1;
      if r.Ok? {
        reply := r.value;
        return;
      }
      lastError := Some(r.error);
    }
    reply := RetryFailure(maxRetries, lastError);
  }

  /** `query_endpoint` never raises, so a retry wrapped around it returns after its first
      attempt whenever there is one. */
  method QueryEndpointWithRetry(maxRetries: int, outcomes: nat -> HttpOutcome)
    returns (reply: Reply, attempts: nat)
    ensures maxRetries >= 0 ==> attempts == 1 && reply == QueryEndpoint(outcomes(0))
    ensures maxRetries < 0 ==> attempts == 0 && reply == RetryFailure(maxRetries, None)
  {
    var call := (i: nat) => Ok(QueryEndpoint(outcomes(i)));
    reply, attempts := QueryWithRetry(maxRetries, call);
    assert call(0).Ok?;
  }
}
