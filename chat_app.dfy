/** `ChatApp`: the root chat script with its Chat, History and Settings tabs. The session
    keys may be absent (`None`) until the script's start-up block sets them. The serving
    call, the title call, the identity look-ups and the fresh ids are parameters; the
    warehouse is `Db.Warehouse`. */
module ChatApp {
  import opened Wrappers
  import opened Json
  import Text
  import Seqs
  import Messages
  import SqlText
  import Db
  import Endpoints
  import ContextWindow
  import ServingUtils
  import ModelService
  import Titles
  import AppState
  import ClassicApp

  const UNTITLED := "Untitled"
  const LOADED_TITLE := "Chat"
  const SERVING_ERROR_PREFIX := "(serving error: "
  const REPLY_MAX_TOKENS := 400
  const TITLE_SOURCE_MESSAGES := 3

  // ---- Optional functions of the `db` module ----

  /** What `getattr(module, name, None)` finds: nothing, a value, or a function. */
  datatype Attr<T> = Missing | Plain(value: T) | Callable(call: () -> T)

  /** The `default` of `_call_if_exists`: a function, or any other value. */
  datatype Fallback<T> = CallDefault(call: () -> T) | ConstDefault(value: T)

  /** `_call_if_exists`: the attribute when it is callable; otherwise the default when it
      is callable; otherwise a function that returns the default. */
  function CallIfExists<T>(attr: Attr<T>, default: Fallback<T>): (f: () -> T)
    ensures attr.Callable? ==> f() == attr.call()
    ensures !attr.Callable? && default.CallDefault? ==> f() == default.call()
    ensures !attr.Callable? && default.ConstDefault? ==> f() == default.value
  {
    if attr.Callable? then attr.call
    else match default
      case CallDefault(g) => g
      case ConstDefault(v) => () => v
  }

  /** An attribute that is not a function is ignored just like a missing one. */
  lemma CallIfExistsIgnoresData<T>(v: T, default: Fallback<T>)
    ensures CallIfExists(Plain(v), default)() == CallIfExists(Missing, default)()
  {
  }

  /** With the script's `default=lambda: None`, a look-up the module lacks reads as `None`,
      and one it has reads as what that function returns. */
  lemma LookupsOfTheScript(present: () -> Option<string>)
    ensures CallIfExists<Option<string>>(Missing, CallDefault(() => None))() == None
    ensures CallIfExists(Callable(present), CallDefault(() => None))() == present()
  {
  }

  // ---- Messages, reply trigger and title trigger ----

  /** One entry of `st.session_state.messages`; the content of a reply may be any value. */
  datatype ChatMessage = ChatMessage(role: string, content: Value)

  /** The entry as the dictionary the script stores. */
  function AsValue(m: ChatMessage): Value {
    Obj(Messages.Entry(Str(m.role), m.content))
  }

  function AsValues(msgs: seq<ChatMessage>): (r: seq<Value>)
    ensures |r| == |msgs|
    ensures forall i :: 0 <= i < |msgs| ==> r[i] == AsValue(msgs[i])
  {
    seq(|msgs|, i requires 0 <= i < |msgs| => AsValue(msgs[i]))
  }

  /** The reply trigger: there are messages, the last is the user's and their number is
      odd. */
  predicate ReplyDue(msgs: seq<ChatMessage>) {
    msgs != [] && msgs[|msgs| - 1].role == Messages.USER && |msgs| % 2 == 1
  }

  /** The title trigger: the title is still the placeholder and an exchange exists. */
  predicate TitleDue(title: string, msgs: seq<ChatMessage>) {
    title == Titles.NEW_CHAT && |msgs| >= 2
  }

  /** In a cleared chat the title trigger is off after the prompt alone and on after its
      reply; a chat with another title is never renamed. */
  lemma TitleAfterFirstReply(prompt: Value, reply: Value, title: string,
                             msgs: seq<ChatMessage>)
    requires title != Titles.NEW_CHAT
    ensures !TitleDue(Titles.NEW_CHAT, [ChatMessage(Messages.USER, prompt)])
    ensures TitleDue(Titles.NEW_CHAT, [ChatMessage(Messages.USER, prompt),
                                       ChatMessage(Messages.ASSISTANT, reply)])
    ensures !TitleDue(title, msgs)
  {
  }

  // ---- The reply ----

  /** What `query_endpoint_with_usage` is asked: the endpoint, the window of the history
      and the token budget. */
  datatype ServeRequest = ServeRequest(endpoint: string, messages: seq<ChatMessage>, maxTokens: int)

  function RequestFor(endpoint: string, msgs: seq<ChatMessage>, maxTurns: int): (q: ServeRequest)
    ensures q.endpoint == endpoint && q.maxTokens == REPLY_MAX_TOKENS
    ensures maxTurns <= 0 ==> q.messages == msgs
    ensures maxTurns > 0 ==> |q.messages| == if maxTurns <= |msgs| then maxTurns else |msgs|
    ensures q.messages == msgs[|msgs| - |q.messages|..]
  {
    ServeRequest(endpoint, ContextWindow.Window(msgs, maxTurns), REPLY_MAX_TOKENS)
  }

  /** The text shown and stored for a failed call, `(serving error: <e>)`. */
  function ServingError(e: string): (r: string)
    ensures |r| == |SERVING_ERROR_PREFIX| + |e| + 1
    ensures r[..|SERVING_ERROR_PREFIX|] == SERVING_ERROR_PREFIX
    ensures r[|SERVING_ERROR_PREFIX|..|r| - 1] == e && r[|r| - 1] == ')'
  {
    SERVING_ERROR_PREFIX + e + ")"
  }

  /** The reply of a turn: the content and counts `ModelService.ReadReply` reads, or the
      serving-error text with no tokens when the call or the reading of its counts
      raised. */
  function ReplyOf(outcome: Result<ServingUtils.Reply>): (g: ModelService.Generated)
    ensures outcome.Err? ==>
      g == ModelService.Generated(Str(ServingError(outcome.error)), 0, 0)
    ensures outcome.Ok? && ModelService.ReadReply(outcome.value).Ok? ==>
      g == ModelService.ReadReply(outcome.value).value
    ensures outcome.Ok? && ModelService.ReadReply(outcome.value).Err? ==>
      g == ModelService.Generated(Str(ServingError(ModelService.ReadReply(outcome.value).error)), 0, 0)
  {
    match outcome
    case Err(e) => ModelService.Generated(Str(ServingError(e)), 0, 0)
    case Ok(reply) =>
      match ModelService.ReadReply(reply)
      case Err(e) => ModelService.Generated(Str(ServingError(e)), 0, 0)
      case Ok(g) => g
  }

  /** A failed call never counts tokens, and a reply whose usage is not a dictionary
      counts none either. */
  lemma ReplyOfCountsOnlyUsage(outcome: Result<ServingUtils.Reply>)
    requires outcome.Err? || !outcome.value.usage.Obj?
    ensures ReplyOf(outcome).tokensIn == 0 && ReplyOf(outcome).tokensOut == 0
  {
  }

  // ---- Logging one exchange ----

  /** `email or sql_user or "unknown_user"`. */
  function UserId(email: Option<string>, sqlUser: Option<string>): (u: string)
    ensures u != ""
    ensures SqlText.Given(email) ==> u == email.value
    ensures !SqlText.Given(email) && SqlText.Given(sqlUser) ==> u == sqlUser.value
    ensures !SqlText.Given(email) && !SqlText.Given(sqlUser) ==> u == Db.UNKNOWN_USER
  {
    if SqlText.Given(email) then email.value
    else if SqlText.Given(sqlUser) then sqlUser.value
    else Db.UNKNOWN_USER
  }

  /** Everything the logging of one exchange needs: the conversation, its endpoint and
      current title, the prompt and the reply, the identity and the fresh row ids. */
  datatype Exchange = Exchange(convId: string, endpoint: string, title: string, prompt: Value,
                               reply: ModelService.Generated, email: Option<string>,
                               sqlUser: Option<string>, userMessageId: string,
                               replyMessageId: string, eventId: string)

  /** The three tables of the warehouse, as values. */
  datatype Tables = Tables(conversations: seq<Db.Conversation>, messages: seq<Db.StoredMessage>,
                           usage: seq<Db.UsageEvent>)

  function TablesOf(w: Db.Warehouse): Tables
    reads w
  {
    Tables(w.conversations, w.messages, w.usageEvents)
  }

  /** The message rows of an exchange: the prompt with no tokens, then the reply with its
      counts. `_esc` raises on a content that is neither falsy nor text, and the rows
      after that are not written. */
  function ExchangeMessages(t: Exchange): (r: seq<Db.StoredMessage>)
    ensures |r| <= 2
    ensures r != [] <==> ClassicApp.EscapedText(t.prompt).Ok?
    ensures |r| == 2 <==>
      ClassicApp.EscapedText(t.prompt).Ok? && ClassicApp.EscapedText(t.reply.text).Ok?
    ensures r != [] ==> r[0] == Db.StoredMessage(t.userMessageId, t.convId, Messages.USER,
                                                 ClassicApp.EscapedText(t.prompt).value, 0, 0, "ok")
    ensures |r| == 2 ==>
      r[1] == Db.StoredMessage(t.replyMessageId, t.convId, Messages.ASSISTANT,
                               ClassicApp.EscapedText(t.reply.text).value,
                               t.reply.tokensIn, t.reply.tokensOut, "ok")
  {
    match ClassicApp.EscapedText(t.prompt)
    case Err(_) => []
    case Ok(prompt) =>
      [Db.StoredMessage(t.userMessageId, t.convId, Messages.USER, prompt, 0, 0, "ok")]
      + match ClassicApp.EscapedText(t.reply.text)
        case Err(_) => []
        case Ok(text) =>
          [Db.StoredMessage(t.replyMessageId, t.convId, Messages.ASSISTANT, text,
                            t.reply.tokensIn, t.reply.tokensOut, "ok")]
  }

  /** The exception that stops the logging, if any. */
  function ExchangeError(t: Exchange): (r: Option<string>)
    ensures r.None? <==>
      ClassicApp.EscapedText(t.prompt).Ok? && ClassicApp.EscapedText(t.reply.text).Ok?
    ensures ClassicApp.EscapedText(t.prompt).Err? ==>
      r == Some(ClassicApp.EscapedText(t.prompt).error)
  {
    if ClassicApp.EscapedText(t.prompt).Err? then Some(ClassicApp.EscapedText(t.prompt).error)
    else if ClassicApp.EscapedText(t.reply.text).Err? then
      Some(ClassicApp.EscapedText(t.reply.text).error)
    else None
  }

  /** The tables after logging an exchange: the conversation row (under its current
      title) with its model set, the message rows, and one usage event when the logging
      got that far. */
  function LogTables(tb: Tables, t: Exchange): (r: Tables)
    ensures r.messages == tb.messages + ExchangeMessages(t)
    ensures ExchangeError(t).None? ==> |r.usage| == |tb.usage| + 1
    ensures ExchangeError(t).Some? ==> r.usage == tb.usage
    ensures r.usage[..|tb.usage|] == tb.usage
  {
    var row := Db.Conversation(t.convId, UserId(t.email, t.sqlUser), t.title, t.endpoint,
                               SqlText.MetaExpr(t.email, t.sqlUser));
    var event := Db.UsageEvent(t.eventId, t.convId, UserId(t.email, t.sqlUser), t.endpoint,
                               t.reply.tokensIn, t.reply.tokensOut,
                               SqlText.MetaExpr(t.email, t.sqlUser));
    Tables(Db.WithModel(tb.conversations + [row], t.convId, t.endpoint),
           tb.messages + ExchangeMessages(t),
           tb.usage + if ExchangeError(t).None? then [event] else [])
  }

  /** The prompt of a logged exchange is stored exactly once, before its reply. */
  lemma LoggedPromptPrecedesReply(tb: Tables, t: Exchange)
    requires ExchangeError(t).None? && t.prompt.Str?
    ensures var r := LogTables(tb, t);
      |r.messages| == |tb.messages| + 2
      && r.messages[|tb.messages|].content == t.prompt.s
      && r.messages[|tb.messages|].role == Messages.USER
      && r.messages[|tb.messages| + 1].role == Messages.ASSISTANT
  {
  }

  /** The logging block of the chat turn: the conversation, its model, the prompt, the
      reply and the usage, each a no-op while the warehouse is off. */
  method LogExchange(w: Db.Warehouse, t: Exchange) returns (err: Option<string>)
    modifies w
    ensures !Db.ConnOk(w.settings) ==> err.None? && TablesOf(w) == old(TablesOf(w))
    ensures Db.ConnOk(w.settings) ==>
      err == ExchangeError(t) && TablesOf(w) == LogTables(old(TablesOf(w)), t)
  {
    err := None;
    if !Db.ConnOk(w.settings) {
      return;
    }
    var userId := UserId(t.email, t.sqlUser);
    w.EnsureConversation(t.convId, userId, t.endpoint, t.title, t.email, t.sqlUser);
    w.UpdateConversationModel(t.convId, t.endpoint);
    var prompt := ClassicApp.EscapedText(t.prompt);
    if prompt.Err? {
      return Some(prompt.error);
    }
    w.LogMessage(t.userMessageId, t.convId, Messages.USER, prompt.value, 0, 0, "ok");
    var text := ClassicApp.EscapedText(t.reply.text);
    if text.Err? {
      return Some(text.error);
    }
    w.LogMessage(t.replyMessageId, t.convId, Messages.ASSISTANT, text.value,
                 t.reply.tokensIn, t.reply.tokensOut, "ok");
    w.LogUsage(t.eventId, t.convId, userId, t.endpoint, t.reply.tokensIn, t.reply.tokensOut,
               t.email, t.sqlUser);
  }

  // ---- The automatic title ----

  /** The title after a reply: unchanged unless the trigger holds; then the generated
      title, with the default title of the first message as the fallback. A first
      message whose content has no `strip` raises. */
  function NextTitle(title: string, msgs: seq<ChatMessage>, endpoint: string,
                     ask: Titles.TitleRequest -> Result<Value>): (r: Result<string>)
    ensures !TitleDue(title, msgs) ==> r == Ok(title)
    ensures r.Err? <==> TitleDue(title, msgs) && Titles.DefaultTitleOf(msgs[0].content).Err?
    ensures TitleDue(title, msgs) && r.Ok? ==> |r.value| <= Titles.MAX_TITLE_CHARS
    ensures TitleDue(title, msgs) && r.Ok? ==>
      r.value == Titles.AutoTitle(endpoint, Seqs.Take(AsValues(msgs), TITLE_SOURCE_MESSAGES),
                                  Titles.DefaultTitleOf(msgs[0].content).value, ask)
  {
    if !TitleDue(title, msgs) then Ok(title)
    else
      var fallback :- Titles.DefaultTitleOf(msgs[0].content);
      Ok(Titles.AutoTitle(endpoint, Seqs.Take(AsValues(msgs), TITLE_SOURCE_MESSAGES), fallback, ask))
  }

  /** When the title model fails, the chat is named after its first prompt. */
  lemma NextTitleFallsBackToPrompt(msgs: seq<ChatMessage>, endpoint: string, prompt: string,
                                   ask: Titles.TitleRequest -> Result<Value>)
    requires |msgs| >= 2 && msgs[0].content == Str(prompt)
    requires ask(Titles.TitleRequestFor(endpoint, Seqs.Take(AsValues(msgs), TITLE_SOURCE_MESSAGES))).Err?
    ensures NextTitle(Titles.NEW_CHAT, msgs, endpoint, ask)
      == Ok(Seqs.Take(Titles.DefaultTitle(prompt), Titles.MAX_TITLE_CHARS))
  {
    Titles.AutoTitleFailedCall(endpoint, Seqs.Take(AsValues(msgs), TITLE_SOURCE_MESSAGES),
                               Titles.DefaultTitle(prompt), ask);
  }

  // ---- The endpoint configuration ----

  /** With no non-blank token in the setting, the only entry is the unconfigured one, the
      session selects the empty id and the chat is disabled. */
  lemma NotConfiguredDisablesChat(cfg: Endpoints.Config)
    requires Endpoints.Tokens(cfg.csv) == []
    ensures Endpoints.EndpointList(cfg, Endpoints.NOT_CONFIGURED_WARNING)
      == [Endpoints.Endpoint("", Endpoints.NOT_CONFIGURED_WARNING)]
    ensures Endpoints.SelectedByDefault(cfg, Endpoints.NOT_CONFIGURED_WARNING) == ""
  {
  }

  // ---- The session ----

  /** The session of the root chat script, with the endpoint list of the current run. */
  class ChatSession {
    const allowed: seq<Endpoints.Endpoint>
    const defaultId: string
    var messages: Option<seq<ChatMessage>>
    var convId: Option<string>
    var selectedEndpoint: Option<string>
    var chatTitle: Option<string>

    /** A session that holds none of the keys yet, under the endpoint list of the run
        (`Endpoints.AvailableEndpoints` with the unconfigured entry as the fallback) and
        the id at its default position. */
    constructor (endpoints: seq<Endpoints.Endpoint>, defaultIdx: nat)
      requires defaultIdx < |endpoints|
      ensures allowed == endpoints && defaultId == endpoints[defaultIdx].id
      ensures messages.None? && convId.None? && selectedEndpoint.None? && chatTitle.None?
    {
      allowed := endpoints;
      defaultId := endpoints[defaultIdx].id;
      messages := None;
      convId := None;
      selectedEndpoint := None;
      chatTitle := None;
    }

    predicate Initialized()
      reads this
    {
      messages.Some? && convId.Some? && selectedEndpoint.Some? && chatTitle.Some?
    }

    /** The start-up block of every run: each absent key gets its default and a present
        key is kept, so a second run changes nothing. */
    method InitSession(freshId: string)
      modifies this
      ensures Initialized()
      ensures messages == AppState.InitKey(old(messages), [])
      ensures convId == AppState.InitKey(old(convId), freshId)
      ensures selectedEndpoint == AppState.InitKey(old(selectedEndpoint), defaultId)
      ensures chatTitle == AppState.InitKey(old(chatTitle), Titles.NEW_CHAT)
      ensures old(Initialized()) ==>
        messages == old(messages) && convId == old(convId)
        && selectedEndpoint == old(selectedEndpoint) && chatTitle == old(chatTitle)
    {
      if messages.None? {
        messages := Some([]);
      }
      if convId.None? {
        convId := Some(freshId);
      }
      if selectedEndpoint.None? {
        selectedEndpoint := Some(defaultId);
      }
      if chatTitle.None? {
        chatTitle := Some(Titles.NEW_CHAT);
      }
    }

    /** `endpoint_ok`: an endpoint is selected. */
    predicate EndpointOk()
      reads this
    {
      selectedEndpoint.Some? && selectedEndpoint.value != ""
    }

    /** The chat input: a prompt that is not blank goes on the end of the history. */
    method Submit(prompt: string)
      requires Initialized()
      modifies this
      ensures !Text.IsBlank(prompt) ==>
        messages == Some(old(messages).value + [ChatMessage(Messages.USER, Str(prompt))])
      ensures Text.IsBlank(prompt) ==> messages == old(messages)
      ensures !Text.IsBlank(prompt) && |old(messages).value| % 2 == 0 ==> ReplyDue(messages.value)
      ensures convId == old(convId) && selectedEndpoint == old(selectedEndpoint)
      ensures chatTitle == old(chatTitle)
    {
      if !Text.IsBlank(prompt) {
        messages := Some(messages.value + [ChatMessage(Messages.USER, Str(prompt))]);
      }
    }

    /** The reply block of the chat tab. When the trigger holds, the window of the
        history goes to the selected endpoint and the reply (or the serving error) is
        appended; the exchange is logged while a warehouse is named; then a chat still
        titled "New Chat" is named. `err` is the exception that ends the run early: a
        `MAX_TURNS` that is not an integer, a content `_esc` cannot take, or a first
        message with no `strip`. */
    method Respond(w: Db.Warehouse, maxTurnsSetting: Option<string>,
                   serve: ServeRequest -> Result<ServingUtils.Reply>,
                   email: Option<string>, sqlUser: Option<string>,
                   ask: Titles.TitleRequest -> Result<Value>,
                   userMessageId: string, replyMessageId: string, eventId: string)
      returns (err: Option<string>)
      requires Initialized()
      modifies this, w
      ensures Initialized()
      ensures convId == old(convId) && selectedEndpoint == old(selectedEndpoint)
      ensures !ReplyDue(old(messages).value) || ModelService.MaxTurns(maxTurnsSetting).Err? ==>
        messages == old(messages) && chatTitle == old(chatTitle)
        && TablesOf(w) == old(TablesOf(w))
      ensures !ReplyDue(old(messages).value) ==> err.None?
      ensures ReplyDue(old(messages).value) && ModelService.MaxTurns(maxTurnsSetting).Err? ==>
        err == Some(ModelService.MaxTurns(maxTurnsSetting).error)
      ensures ReplyDue(old(messages).value) && ModelService.MaxTurns(maxTurnsSetting).Ok? ==>
        var reply := ReplyOf(serve(RequestFor(old(selectedEndpoint).value, old(messages).value,
                                              ModelService.MaxTurns(maxTurnsSetting).value)));
        messages == Some(old(messages).value + [ChatMessage(Messages.ASSISTANT, reply.text)])
        && !ReplyDue(messages.value)
        && Turned(w, old(TablesOf(w)), old(chatTitle).value, chatTitle.value, err, messages.value,
                  Exchange(old(convId).value, old(selectedEndpoint).value, old(chatTitle).value,
                           old(messages).value[|old(messages).value| - 1].content, reply,
                           email, sqlUser, userMessageId, replyMessageId, eventId), ask)
    {
      err := None;
      var msgs := messages.value;
      if !ReplyDue(msgs) {
        return;
      }
      var maxTurns := ModelService.MaxTurns(maxTurnsSetting);
      if maxTurns.Err? {
        return Some(maxTurns.error);
      }
      var reply := ReplyOf(serve(RequestFor(selectedEndpoint.value, msgs, maxTurns.value)));
      err := AppendReply(w, reply, email, sqlUser, ask, userMessageId, replyMessageId, eventId);
    }

    /** The reply goes on the end of the history; the exchange logged is the message now
        second from the end, which is the prompt that triggered the reply. */
    method AppendReply(w: Db.Warehouse, reply: ModelService.Generated,
                       email: Option<string>, sqlUser: Option<string>,
                       ask: Titles.TitleRequest -> Result<Value>,
                       userMessageId: string, replyMessageId: string, eventId: string)
      returns (err: Option<string>)
      requires Initialized() && ReplyDue(messages.value)
      modifies this, w
      ensures Initialized()
      ensures convId == old(convId) && selectedEndpoint == old(selectedEndpoint)
      ensures messages == Some(old(messages).value + [ChatMessage(Messages.ASSISTANT, reply.text)])
      ensures !ReplyDue(messages.value)
      ensures Turned(w, old(TablesOf(w)), old(chatTitle).value, chatTitle.value, err, messages.value,
                     Exchange(old(convId).value, old(selectedEndpoint).value, old(chatTitle).value,
                              old(messages).value[|old(messages).value| - 1].content, reply,
                              email, sqlUser, userMessageId, replyMessageId, eventId), ask)
    {
      var msgs := messages.value;
      messages := Some(msgs + [ChatMessage(Messages.ASSISTANT, reply.text)]);
      assert messages.value[|messages.value| - 2] == msgs[|msgs| - 1];
      var t := Exchange(convId.value, selectedEndpoint.value, chatTitle.value,
                        messages.value[|messages.value| - 2].content, reply,
                        email, sqlUser, userMessageId, replyMessageId, eventId);
      err := LogAndRetitle(w, t, ask);
    }

    /** What follows the appended reply: the exchange is logged while a warehouse is
        named, and unless that raised, the auto-title step runs. */
    method LogAndRetitle(w: Db.Warehouse, t: Exchange, ask: Titles.TitleRequest -> Result<Value>)
      returns (err: Option<string>)
      requires Initialized() && t.convId == convId.value && t.endpoint == selectedEndpoint.value
      requires t.title == chatTitle.value
      modifies this, w
      ensures Initialized()
      ensures messages == old(messages) && convId == old(convId)
      ensures selectedEndpoint == old(selectedEndpoint)
      ensures Turned(w, old(TablesOf(w)), old(chatTitle).value, chatTitle.value, err,
                     messages.value, t, ask)
    {
      err := None;
      if w.settings.warehouseId != "" {
        err := LogExchange(w, t);
        if err.Some? {
          return;
        }
      }
      err := Retitle(w, ask);
    }

    /** The auto-title step: when the trigger holds, the generated title replaces the
        placeholder and is saved while a warehouse is named. */
    method Retitle(w: Db.Warehouse, ask: Titles.TitleRequest -> Result<Value>)
      returns (err: Option<string>)
      requires Initialized()
      modifies this, w
      ensures Initialized()
      ensures messages == old(messages) && convId == old(convId)
      ensures selectedEndpoint == old(selectedEndpoint)
      ensures Retitled(w, old(TablesOf(w)), old(chatTitle).value, chatTitle.value, err,
                       messages.value, convId.value, selectedEndpoint.value, ask)
    {
      err := None;
      var title := NextTitle(chatTitle.value, messages.value, selectedEndpoint.value, ask);
      if title.Err? {
        return Some(title.error);
      }
      if TitleDue(chatTitle.value, messages.value) {
        chatTitle := Some(title.value);
        if w.settings.warehouseId != "" {
          w.UpdateConversationTitle(convId.value, title.value);
        }
      }
    }

    /** Save Title: an empty entry becomes "Untitled"; the title is saved while a
        warehouse is named. */
    method SaveTitle(w: Db.Warehouse, newTitle: string)
      requires Initialized()
      modifies this, w
      ensures chatTitle == Some(if newTitle == "" then UNTITLED else newTitle)
      ensures chatTitle.value != ""
      ensures messages == old(messages) && convId == old(convId)
      ensures selectedEndpoint == old(selectedEndpoint)
      ensures Db.ConnOk(w.settings) ==>
        TablesOf(w) == TitleTables(old(TablesOf(w)), convId.value, chatTitle.value)
      ensures !Db.ConnOk(w.settings) ==> TablesOf(w) == old(TablesOf(w))
    {
      chatTitle := Some(if newTitle == "" then UNTITLED else newTitle);
      if w.settings.warehouseId != "" {
        w.UpdateConversationTitle(convId.value, chatTitle.value);
      }
    }

    /** Clear chat, Clear this chat and New chat: no messages, the placeholder title and
        a fresh conversation id. */
    method ClearChat(freshId: string)
      requires Initialized()
      modifies this
      ensures messages == Some([]) && chatTitle == Some(Titles.NEW_CHAT)
      ensures convId == Some(freshId) && selectedEndpoint == old(selectedEndpoint)
      ensures !ReplyDue(messages.value) && !TitleDue(chatTitle.value, messages.value)
    {
      messages := Some([]);
      chatTitle := Some(Titles.NEW_CHAT);
      convId := Some(freshId);
    }

    /** The Settings picker: the picked name's id becomes the selection, and only a change
        of endpoint updates the conversation's model, while a warehouse is named. */
    method SwitchModel(w: Db.Warehouse, pickedName: string)
      requires Initialized()
      requires exists j :: 0 <= j < |allowed| && allowed[j].name == pickedName
      modifies this, w
      ensures selectedEndpoint == Some(ClassicApp.DisplayToId(allowed, pickedName).value)
      ensures messages == old(messages) && convId == old(convId) && chatTitle == old(chatTitle)
      ensures selectedEndpoint == old(selectedEndpoint) || !Db.ConnOk(w.settings) ==>
        TablesOf(w) == old(TablesOf(w))
      ensures selectedEndpoint != old(selectedEndpoint) && Db.ConnOk(w.settings) ==>
        TablesOf(w) == Tables(Db.WithModel(old(w.conversations), convId.value,
                                           selectedEndpoint.value),
                              old(w.messages), old(w.usageEvents))
    {
      var picked := ClassicApp.DisplayToId(allowed, pickedName).value;
      if picked != selectedEndpoint.value {
        selectedEndpoint := Some(picked);
        if w.settings.warehouseId != "" {
          w.UpdateConversationModel(convId.value, picked);
        }
      }
    }

    /** Load in the History tab: the stored messages of the conversation as role and
        content, its id, its title ("Chat" when the row has none) and its model (the
        current selection when the row has none). */
    method LoadConversation(w: Db.Warehouse, id: string, title: Option<string>,
                            model: Option<string>)
      requires Initialized()
      modifies this
      ensures messages == Some(Loaded(w.ConversationMessages(id)))
      ensures convId == Some(id) && chatTitle == Some(title.GetOr(LOADED_TITLE))
      ensures selectedEndpoint == Some(model.GetOr(old(selectedEndpoint).value))
    {
      messages := Some(Loaded(w.ConversationMessages(id)));
      convId := Some(id);
      chatTitle := Some(title.GetOr(LOADED_TITLE));
      selectedEndpoint := Some(model.GetOr(selectedEndpoint.value));
    }
  }

  /** `[{"role": m["role"], "content": m["content"]} for m in msgs]`. */
  function Loaded(rows: seq<Db.StoredMessage>): (r: seq<ChatMessage>)
    ensures |r| == |rows|
    ensures forall i :: 0 <= i < |rows| ==>
      r[i] == ChatMessage(rows[i].role, Str(rows[i].content))
  {
    seq(|rows|, i requires 0 <= i < |rows| => ChatMessage(rows[i].role, Str(rows[i].content)))
  }

  /** The tables after `update_conversation_title`. */
  function TitleTables(tb: Tables, convId: string, title: string): (r: Tables)
    ensures r.messages == tb.messages && r.usage == tb.usage
    ensures |r.conversations| == |tb.conversations|
  {
    Tables(Db.WithTitle(tb.conversations, convId, title), tb.messages, tb.usage)
  }

  /** The outcome of the auto-title step from tables `tb` and title `before`. */
  predicate Retitled(w: Db.Warehouse, tb: Tables, before: string, after: string,
                     err: Option<string>, msgs: seq<ChatMessage>, convId: string,
                     endpoint: string, ask: Titles.TitleRequest -> Result<Value>)
    reads w
  {
    var next := NextTitle(before, msgs, endpoint, ask);
    (next.Err? ==> err == Some(next.error) && after == before && TablesOf(w) == tb)
    && (next.Ok? ==>
          (err.None? && after == next.value
           && (TitleDue(before, msgs) && Db.ConnOk(w.settings) ==>
                 TablesOf(w) == TitleTables(tb, convId, next.value))
           && (!(TitleDue(before, msgs) && Db.ConnOk(w.settings)) ==> TablesOf(w) == tb)))
  }

  /** The outcome of the logging and auto-title steps of a reply, from tables `tb` and
      title `before`: a logging exception ends the run with the title unchanged. */
  predicate Turned(w: Db.Warehouse, tb: Tables, before: string, after: string,
                   err: Option<string>, msgs: seq<ChatMessage>, t: Exchange,
                   ask: Titles.TitleRequest -> Result<Value>)
    reads w
  {
    var logged := if Db.ConnOk(w.settings) then LogTables(tb, t) else tb;
    (Db.ConnOk(w.settings) && ExchangeError(t).Some? ==>
       err == ExchangeError(t) && after == before && TablesOf(w) == logged)
    && (!(Db.ConnOk(w.settings) && ExchangeError(t).Some?) ==>
       Retitled(w, logged, before, after, err, msgs, t.convId, t.endpoint, ask))
  }
}
