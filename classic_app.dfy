/** `ClassicApp`: the single-page chat script. It keeps the history, the conversation id
    and the selected endpoint in the session, reads identity headers from the request
    before the environment, and logs each turn to the warehouse on a best-effort basis.
    The request headers, the model call and the `current_user()` query are parameters. */
module ClassicApp {
  import opened Wrappers
  import opened Json
  import Env
  import Messages
  import SqlText
  import Db
  import Endpoints
  import ContextWindow
  import ServingUtils
  import ModelService
  import Seqs

  const NEW_CHAT := "New Chat"
  const ERROR_PREFIX := "\U{1F6A8} I encountered an error: "

  // ---- Header and identity helpers ----

  /** `_get_header(name)`: a non-empty request header first; otherwise the environment, as
      `db.py` reads it. `None` stands for a request context whose headers cannot be read. */
  function HeaderOf(request: Option<map<string, string>>, env: Env.Environ, name: string)
    : (r: Option<string>)
    ensures request.Some? && name in request.value && request.value[name] != "" ==>
      r == Some(request.value[name])
    ensures !(request.Some? && name in request.value && request.value[name] != "") ==>
      r == Db.GetHeader(env, name)
  {
    if request.Some? && name in request.value && request.value[name] != "" then
      Some(request.value[name])
    else Db.GetHeader(env, name)
  }

  function HeaderValuesOf(request: Option<map<string, string>>, env: Env.Environ,
                          keys: seq<string>): (vals: seq<Option<string>>)
    ensures |vals| == |keys|
    ensures forall i :: 0 <= i < |keys| ==> vals[i] == HeaderOf(request, env, keys[i])
  {
    seq(|keys|, i requires 0 <= i < |keys| => HeaderOf(request, env, keys[i]))
  }

  /** Without readable request headers the script resolves headers exactly as `db.py`. */
  lemma HeadersWithoutRequest(env: Env.Environ, keys: seq<string>)
    ensures HeaderValuesOf(None, env, keys) == Db.HeaderValues(env, keys)
  {
  }

  /** The loop of `get_forwarded_email` and `get_forwarded_token`: the first truthy header
      value in list order, else `None`. */
  method ForwardedHeader(request: Option<map<string, string>>, env: Env.Environ,
                         keys: seq<string>) returns (r: Option<string>)
    ensures r == Db.FirstGiven(HeaderValuesOf(request, env, keys))
  {
    var vals := HeaderValuesOf(request, env, keys);
    for k := 0 to |keys|
      invariant forall j :: 0 <= j < k ==> !SqlText.Given(vals[j])
    {
      var v := HeaderOf(request, env, keys[k]);
      if SqlText.Given(v) {
        Db.FirstGivenAt(vals, k);
        return v;
      }
    }
    return None;
  }

  /** A forwarded email on the request wins over every environment variable. */
  lemma RequestEmailWins(request: map<string, string>, env: Env.Environ)
    requires Db.EMAIL_HEADERS[0] in request && request[Db.EMAIL_HEADERS[0]] != ""
    ensures Db.FirstGiven(HeaderValuesOf(Some(request), env, Db.EMAIL_HEADERS))
      == Some(request[Db.EMAIL_HEADERS[0]])
  {
    var vals := HeaderValuesOf(Some(request), env, Db.EMAIL_HEADERS);
    Db.FirstGivenAt(vals, 0);
  }

  /** `sql_fetch_one`: `rows[0][0]` of the fetched rows, or `None` when logging is off, the
      query failed, no row came back or the first row is empty (the `IndexError` is
      caught with the rest). */
  function SqlFetchOne(connOk: bool, rows: Result<seq<seq<Value>>>): (r: Option<Value>)
    ensures r.Some? <==> connOk && rows.Ok? && rows.value != [] && rows.value[0] != []
    ensures r.Some? ==> r.value == rows.value[0][0]
  {
    if !connOk || rows.Err? || rows.value == [] || rows.value[0] == [] then None
    else Some(rows.value[0][0])
  }

  /** `current_user()`: the fetched value when truthy, else `unknown_user`. */
  function CurrentUser(fetched: Option<Value>): (r: Value)
    ensures Truthy(r)
    ensures fetched.Some? && Truthy(fetched.value) ==> r == fetched.value
    ensures !(fetched.Some? && Truthy(fetched.value)) ==> r == Str(Db.UNKNOWN_USER)
  {
    if fetched.Some? && Truthy(fetched.value) then fetched.value else Str(Db.UNKNOWN_USER)
  }

  /** A warehouse that answers with a user name gives that name; one that cannot be
      reached gives `unknown_user`. */
  lemma CurrentUserFromWarehouse(u: string, rest: seq<Value>, more: seq<seq<Value>>)
    requires u != ""
    ensures CurrentUser(SqlFetchOne(true, Ok([[Str(u)] + rest] + more))) == Str(u)
    ensures CurrentUser(SqlFetchOne(false, Ok([[Str(u)] + rest] + more))) == Str(Db.UNKNOWN_USER)
  {
  }

  /** `(s or "")` as the text `_esc` escapes: falsy values are empty, a string is itself,
      and any other value has no `replace`. */
  function EscapedText(v: Value): (r: Result<string>)
    ensures r.Ok? <==> !Truthy(v) || v.Str?
    ensures v.Str? ==> r == Ok(v.s)
  {
    if !Truthy(v) then Ok("")
    else if v.Str? then Ok(v.s)
    else Err("'" + TypeName(v) + "' object has no attribute 'replace'")
  }

  // ---- One reply ----

  /** The reply of one turn: the message's `content` (or the message as text when it is
      not a dictionary) and the two token counts; any exception on the way becomes the
      error text with no tokens. */
  function TurnReply(outcome: Result<ServingUtils.Reply>): (g: ModelService.Generated)
    ensures outcome.Err? ==> g == ModelService.Generated(Str(ERROR_PREFIX + outcome.error), 0, 0)
    ensures (outcome.Ok? && ModelService.TokenCount(outcome.value.usage, "prompt_tokens").Ok?
      && ModelService.TokenCount(outcome.value.usage, "completion_tokens").Ok?) ==>
        g.tokensIn == ModelService.TokenCount(outcome.value.usage, "prompt_tokens").value
        && g.tokensOut == ModelService.TokenCount(outcome.value.usage, "completion_tokens").value
        && (outcome.value.message.Obj? ==>
              g.text == GetOr(outcome.value.message.fields, "content", Str("")))
    ensures g.text.Str? || (outcome.Ok? && outcome.value.message.Obj?)
    ensures outcome.Ok? && ModelService.ReadReply(outcome.value).Err? ==>
      g == ModelService.Generated(Str(ERROR_PREFIX + ModelService.ReadReply(outcome.value).error), 0, 0)
    ensures outcome.Ok? && ModelService.ReadReply(outcome.value).Ok? && !outcome.value.message.Obj? ==>
      g.text == Str(ToStr(outcome.value.message))
  {
    match outcome
    case Err(e) => ModelService.Generated(Str(ERROR_PREFIX + e), 0, 0)
    case Ok(reply) =>
      match ModelService.ReadReply(reply)
      case Err(e) => ModelService.Generated(Str(ERROR_PREFIX + e), 0, 0)
      case Ok(g) => g
  }

  /** A chat-completions reply with a text answer and integer counts is shown and counted
      as it is. */
  lemma TurnReplyOfAnswer(answer: string, tokensIn: int, tokensOut: int)
    ensures var usage := Obj([Field("prompt_tokens", Int(tokensIn)),
                              Field("completion_tokens", Int(tokensOut))]);
      TurnReply(Ok(ServingUtils.Reply(Obj(Messages.Entry(Str("assistant"), Str(answer))), usage)))
        == ModelService.Generated(Str(answer), tokensIn, tokensOut)
  {
    var usage := [Field("prompt_tokens", Int(tokensIn)), Field("completion_tokens", Int(tokensOut))];
    assert usage[1..] == [Field("completion_tokens", Int(tokensOut))];
    assert Get(usage, "prompt_tokens") == Some(Int(tokensIn));
    assert Get(usage, "completion_tokens") == Some(Int(tokensOut));
    assert ModelService.TokenCount(Obj(usage), "prompt_tokens") == Ok(tokensIn);
    assert ModelService.TokenCount(Obj(usage), "completion_tokens") == Ok(tokensOut);
    Messages.EntryFields(Str("assistant"), Str(answer));
  }

  // ---- The endpoint picker ----

  /** Position of the last entry with a display name, or -1. */
  function LastNamed(allowed: seq<Endpoints.Endpoint>, name: string): (i: int)
    ensures -1 <= i < |allowed|
    ensures i >= 0 ==> allowed[i].name == name
    ensures forall j :: i < j < |allowed| ==> allowed[j].name != name
  {
    if allowed == [] then -1
    else if allowed[|allowed| - 1].name == name then |allowed| - 1
    else LastNamed(allowed[..|allowed| - 1], name)
  }

  /** `{m["name"]: m["id"] for m in allowed}[name]`: a later entry with the same name
      overwrites an earlier one. */
  function DisplayToId(allowed: seq<Endpoints.Endpoint>, name: string): (r: Option<string>)
    ensures r.None? <==> forall j :: 0 <= j < |allowed| ==> allowed[j].name != name
  {
    var i := LastNamed(allowed, name);
    if i >= 0 then Some(allowed[i].id) else None
  }

  /** With distinct display names, picking an entry's name selects that entry's id. */
  lemma DisplayToIdDistinct(allowed: seq<Endpoints.Endpoint>, k: nat)
    requires k < |allowed|
    requires forall i, j :: 0 <= i < j < |allowed| ==> allowed[i].name != allowed[j].name
    ensures DisplayToId(allowed, allowed[k].name) == Some(allowed[k].id)
  {
    var i := LastNamed(allowed, allowed[k].name);
    assert i == k;
  }

  /** Two entries sharing a display name both select the later entry's id. */
  lemma DisplayToIdSharedName(a: Endpoints.Endpoint, b: Endpoints.Endpoint)
    requires a.name == b.name
    ensures DisplayToId([a, b], a.name) == Some(b.id)
  {
  }

  function IdOf(e: Endpoints.Endpoint): string {
    e.id
  }

  /** Position of the first entry with an id, or `|allowed|`. */
  function FirstWithId(allowed: seq<Endpoints.Endpoint>, id: string): nat {
    Seqs.IndexOfKey(allowed, IdOf, id)
  }

  /** `[m["id"] for m in allowed].index(selected)`, falling back to the default position
      when the selection is not listed. */
  function CurrentIndex(allowed: seq<Endpoints.Endpoint>, selected: string, defaultIdx: nat)
    : (r: nat)
    requires defaultIdx < |allowed|
    ensures r < |allowed|
    ensures (exists j :: 0 <= j < |allowed| && allowed[j].id == selected) ==>
      allowed[r].id == selected && forall j :: 0 <= j < r ==> allowed[j].id != selected
    ensures (forall j :: 0 <= j < |allowed| ==> allowed[j].id != selected) ==> r == defaultIdx
  {
    var i := FirstWithId(allowed, selected);
    if i < |allowed| then i else defaultIdx
  }

  // ---- The session ----

  /** The session of the single-page script. */
  class ClassicChat {
    var messages: seq<Dict>
    var convId: string
    var selectedEndpoint: string
    const maxTurns: int

    /** The session keys of a fresh session: no messages, a fresh conversation id and the
        default endpoint. */
    constructor (allowed: seq<Endpoints.Endpoint>, defaultIdx: nat, freshId: string, maxTurns: int)
      requires defaultIdx < |allowed|
      ensures messages == [] && convId == freshId && selectedEndpoint == allowed[defaultIdx].id
      ensures this.maxTurns == maxTurns
    {
      messages := [];
      convId := freshId;
      selectedEndpoint := allowed[defaultIdx].id;
      this.maxTurns := maxTurns;
    }

    /** The model picker: the picked name's id becomes the selection, and only a change of
        endpoint updates the conversation's model in the warehouse. */
    method SwitchModel(w: Db.Warehouse, allowed: seq<Endpoints.Endpoint>, pickedName: string)
      requires exists j :: 0 <= j < |allowed| && allowed[j].name == pickedName
      modifies this, w
      ensures selectedEndpoint == DisplayToId(allowed, pickedName).value
      ensures messages == old(messages) && convId == old(convId)
      ensures selectedEndpoint == old(selectedEndpoint) ==> unchanged(w)
      ensures !Db.ConnOk(w.settings) ==> unchanged(w)
      ensures selectedEndpoint != old(selectedEndpoint) && Db.ConnOk(w.settings) ==>
        w.conversations == Db.WithModel(old(w.conversations), convId, selectedEndpoint)
        && w.messages == old(w.messages) && w.usageEvents == old(w.usageEvents)
    {
      var picked := DisplayToId(allowed, pickedName).value;
      if picked != selectedEndpoint {
        selectedEndpoint := picked;
        w.UpdateConversationModel(convId, picked);
      }
    }

    /** Clear chat: the history is emptied and a fresh conversation id assigned. */
    method Clear(freshId: string)
      modifies this
      ensures messages == [] && convId == freshId
      ensures selectedEndpoint == old(selectedEndpoint)
    {
      messages := [];
      convId := freshId;
    }

    /** One chat turn: the prompt is appended, the window of the history is sent, and the
        reply (or the error) is appended; then the turn is logged. */
    method ChatTurn(w: Db.Warehouse, prompt: string,
                    ask: seq<Dict> -> Result<ServingUtils.Reply>,
                    request: Option<map<string, string>>, env: Env.Environ,
                    fetchedUser: Option<Value>,
                    userMessageId: string, replyMessageId: string, eventId: string)
      returns (reply: ModelService.Generated)
      modifies this, w
      ensures reply == TurnReply(ask(ContextWindow.BuildContext(
        old(messages) + [Messages.Entry(Str(Messages.USER), Str(prompt))], maxTurns)))
      ensures messages == old(messages) + [Messages.Entry(Str(Messages.USER), Str(prompt)),
                                           Messages.Entry(Str(Messages.ASSISTANT), reply.text)]
      ensures convId == old(convId) && selectedEndpoint == old(selectedEndpoint)
      ensures !(Db.ConnOk(w.settings) && CurrentUser(fetchedUser).Str?) ==>
        w.conversations == old(w.conversations) && w.messages == old(w.messages)
        && w.usageEvents == old(w.usageEvents)
      ensures Db.ConnOk(w.settings) && CurrentUser(fetchedUser).Str? ==>
        Logged(w, old(w.conversations), old(w.messages), old(w.usageEvents),
               Turn(convId, selectedEndpoint, prompt, reply,
                    Db.FirstGiven(HeaderValuesOf(request, env, Db.EMAIL_HEADERS)),
                    CurrentUser(fetchedUser).s, userMessageId, replyMessageId, eventId))
    {
      var sent := messages + [Messages.Entry(Str(Messages.USER), Str(prompt))];
      messages := sent;
      var window := ContextWindow.BuildContext(sent, maxTurns);
      reply := TurnReply(ask(window));
      messages := sent + [Messages.Entry(Str(Messages.ASSISTANT), reply.text)];
      LogIfReachable(w, convId, selectedEndpoint, prompt, reply, request, env, fetchedUser,
                     userMessageId, replyMessageId, eventId);
    }
  }

  /** The logging step of a turn: a reachable warehouse and a textual SQL user log the
      turn; otherwise nothing is written. */
  method LogIfReachable(w: Db.Warehouse, convId: string, endpoint: string, prompt: string,
                        reply: ModelService.Generated,
                        request: Option<map<string, string>>, env: Env.Environ,
                        fetchedUser: Option<Value>,
                        userMessageId: string, replyMessageId: string, eventId: string)
    modifies w
    ensures !(Db.ConnOk(w.settings) && CurrentUser(fetchedUser).Str?) ==>
      w.conversations == old(w.conversations) && w.messages == old(w.messages)
      && w.usageEvents == old(w.usageEvents)
    ensures Db.ConnOk(w.settings) && CurrentUser(fetchedUser).Str? ==>
      Logged(w, old(w.conversations), old(w.messages), old(w.usageEvents),
             Turn(convId, endpoint, prompt, reply,
                  Db.FirstGiven(HeaderValuesOf(request, env, Db.EMAIL_HEADERS)),
                  CurrentUser(fetchedUser).s, userMessageId, replyMessageId, eventId))
  {
    var sqlUser := CurrentUser(fetchedUser);
    if Db.ConnOk(w.settings) && sqlUser.Str? {
      var email := ForwardedHeader(request, env, Db.EMAIL_HEADERS);
      LogTurn(w, Turn(convId, endpoint, prompt, reply, email, sqlUser.s,
                      userMessageId, replyMessageId, eventId));
    }
  }

  /** Everything the logging of one turn needs. */
  datatype Turn = Turn(convId: string, endpoint: string, prompt: string,
                       reply: ModelService.Generated, email: Option<string>, sqlUser: string,
                       userMessageId: string, replyMessageId: string, eventId: string)

  /** `email or sql_user or "unknown_user"`; the SQL user is never empty. */
  function TurnUserId(t: Turn): string {
    if SqlText.Given(t.email) then t.email.value else t.sqlUser
  }

  function TurnMeta(t: Turn): string {
    SqlText.MetaExpr(t.email, Some(t.sqlUser))
  }

  /** The message rows of a turn: the prompt, then the reply unless it is not text. */
  function TurnMessages(t: Turn): (r: seq<Db.StoredMessage>)
    ensures 1 <= |r| <= 2 && r[0].role == Messages.USER && r[0].content == t.prompt
    ensures |r| == 2 <==> EscapedText(t.reply.text).Ok?
    ensures |r| == 2 ==> (r[1].role == Messages.ASSISTANT
      && r[1].tokensIn == t.reply.tokensIn && r[1].tokensOut == t.reply.tokensOut)
  {
    [Db.StoredMessage(t.userMessageId, t.convId, Messages.USER, t.prompt, 0, 0, "ok")]
    + match EscapedText(t.reply.text)
      case Ok(text) =>
        [Db.StoredMessage(t.replyMessageId, t.convId, Messages.ASSISTANT, text,
                          t.reply.tokensIn, t.reply.tokensOut, "ok")]
      case Err(_) => []
  }

  /** The usage rows of a turn: one event unless the reply is not text. */
  function TurnUsage(t: Turn): (r: seq<Db.UsageEvent>)
    ensures |r| <= 1
    ensures r != [] <==> EscapedText(t.reply.text).Ok?
    ensures r != [] ==> (r[0].userId == TurnUserId(t) && r[0].tokensIn == t.reply.tokensIn
      && r[0].tokensOut == t.reply.tokensOut)
  {
    if EscapedText(t.reply.text).Ok? then
      [Db.UsageEvent(t.eventId, t.convId, TurnUserId(t), t.endpoint, t.reply.tokensIn,
                     t.reply.tokensOut, TurnMeta(t))]
    else []
  }

  /** The warehouse holds the rows of a logged turn after the given tables. */
  predicate Logged(w: Db.Warehouse, conversations: seq<Db.Conversation>,
                   msgs: seq<Db.StoredMessage>, usage: seq<Db.UsageEvent>, t: Turn)
    reads w
  {
    w.conversations == Db.WithModel(conversations
      + [Db.Conversation(t.convId, TurnUserId(t), NEW_CHAT, t.endpoint, TurnMeta(t))],
                                    t.convId, t.endpoint)
    && w.messages == msgs + TurnMessages(t)
    && w.usageEvents == usage + TurnUsage(t)
  }

  /** The best-effort logging of a turn: the conversation, its model and the prompt, then
      the reply and the usage; a reply that is not text stops the sequence after the
      prompt. */
  method LogTurn(w: Db.Warehouse, t: Turn)
    requires Db.ConnOk(w.settings)
    modifies w
    ensures Logged(w, old(w.conversations), old(w.messages), old(w.usageEvents), t)
  {
    var userId := TurnUserId(t);
    w.EnsureConversation(t.convId, userId, t.endpoint, NEW_CHAT, t.email, Some(t.sqlUser));
    w.UpdateConversationModel(t.convId, t.endpoint);
    w.LogMessage(t.userMessageId, t.convId, Messages.USER, t.prompt, 0, 0, "ok");
    var text := EscapedText(t.reply.text);
    if text.Ok? {
      w.LogMessage(t.replyMessageId, t.convId, Messages.ASSISTANT, text.value,
                   t.reply.tokensIn, t.reply.tokensOut, "ok");
      w.LogUsage(t.eventId, t.convId, userId, t.endpoint, t.reply.tokensIn, t.reply.tokensOut,
                 t.email, Some(t.sqlUser));
    }
  }

  /** The prompt of a turn always reaches the model, as the newest message of the window. */
  lemma PromptIsSent(history: seq<Dict>, prompt: string, maxTurns: int)
    ensures var sent := history + [Messages.Entry(Str(Messages.USER), Str(prompt))];
      var window := ContextWindow.BuildContext(sent, maxTurns);
      window != [] && window[|window| - 1] == Messages.Entry(Str(Messages.USER), Str(prompt))
  {
    var sent := history + [Messages.Entry(Str(Messages.USER), Str(prompt))];
    ContextWindow.BuildContextIsWindow(sent, maxTurns);
    ContextWindow.WindowKeepsNewest(sent, maxTurns);
  }
}
