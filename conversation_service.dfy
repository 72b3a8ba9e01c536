/** `ConversationService`: the service the multi-page front end calls to log a turn, name
    a conversation, reload its messages and read the user's conversations. The warehouse is
    a `Db.Warehouse`; the identity, the model call and the listing query are parameters. */
module ConversationService {
  import opened Wrappers
  import opened Json
  import Text
  import Seqs
  import Env
  import Messages
  import SqlText
  import Db
  import Auth
  import Titles

  const WAREHOUSE_VAR := "DATABRICKS_WAREHOUSE_ID"
  const NEW_CONVERSATION := "New Conversation"
  const SIMPLE_ELLIPSIS := "..."
  const LOG_FAILURE := "Failed to log conversation: "

  // ---- log_conversation ----

  /** The message rows `log_conversation` writes for a history: the last two messages when
      there are at least two (the first without token counts, the second with them),
      otherwise none. The ids are the fresh ids the two rows receive. */
  function LoggedMessages(convId: string, msgs: seq<Messages.Message>, tokensIn: int,
                          tokensOut: int, userMessageId: string, replyMessageId: string)
    : seq<Db.StoredMessage>
  {
    if |msgs| < 2 then []
    else
      var u := msgs[|msgs| - 2];
      var a := msgs[|msgs| - 1];
      [Db.StoredMessage(userMessageId, convId, u.role, u.content, 0, 0, "ok"),
       Db.StoredMessage(replyMessageId, convId, a.role, a.content, tokensIn, tokensOut, "ok")]
  }

  /** Exactly the last two messages are logged, in order, both as successful and under the
      conversation; only the second carries the token counts. */
  lemma LoggedMessagesAreLastTwo(convId: string, msgs: seq<Messages.Message>, tokensIn: int,
                                 tokensOut: int, id1: string, id2: string)
    ensures var r := LoggedMessages(convId, msgs, tokensIn, tokensOut, id1, id2);
      (|r| == 2 <==> |msgs| >= 2) && (|r| == 0 <==> |msgs| < 2)
      && (|msgs| >= 2 ==>
            [Messages.Message(r[0].role, r[0].content), Messages.Message(r[1].role, r[1].content)]
              == msgs[|msgs| - 2..]
            && r[0].tokensIn == 0 && r[0].tokensOut == 0
            && r[1].tokensIn == tokensIn && r[1].tokensOut == tokensOut
            && forall k :: 0 <= k < 2 ==> r[k].conversationId == convId && r[k].status == "ok")
  {
    var r := LoggedMessages(convId, msgs, tokensIn, tokensOut, id1, id2);
    if |msgs| >= 2 {
      var last2 := msgs[|msgs| - 2..];
      assert last2 == [msgs[|msgs| - 2], msgs[|msgs| - 1]];
    }
  }

  /** The usage rows `log_conversation` writes: one event when a turn was logged. */
  function LoggedUsage(convId: string, msgs: seq<Messages.Message>, id: Auth.Identity,
                       endpoint: string, tokensIn: int, tokensOut: int, eventId: string)
    : (r: seq<Db.UsageEvent>)
    ensures |r| == (if |msgs| >= 2 then 1 else 0)
    ensures r != [] ==> (r[0].userId == id.userId && r[0].model == endpoint
      && r[0].conversationId == convId
      && r[0].meta == SqlText.MetaExpr(id.email, id.sqlUser))
  {
    if |msgs| < 2 then []
    else [Db.UsageEvent(eventId, convId, id.userId, endpoint, tokensIn, tokensOut,
                        SqlText.MetaExpr(id.email, id.sqlUser))]
  }

  /** The conversation row `log_conversation` ensures, provisionally titled. */
  function LoggedConversation(convId: string, id: Auth.Identity, endpoint: string): Db.Conversation {
    Db.Conversation(convId, id.userId, NEW_CONVERSATION, endpoint,
                    SqlText.MetaExpr(id.email, id.sqlUser))
  }

  /** `log_conversation`: nothing without a warehouse id; otherwise the conversation row is
      ensured and its model updated, and the last two messages and one usage event are
      logged when the history holds a turn. A failure to resolve the identity is raised
      again with the `Failed to log conversation: ` prefix, before any write. */
  method LogConversation(w: Db.Warehouse, env: Env.Environ, identity: Result<Auth.Identity>,
                         convId: string, msgs: seq<Messages.Message>, endpoint: string,
                         tokensIn: int, tokensOut: int,
                         userMessageId: string, replyMessageId: string, eventId: string)
    returns (err: Option<string>)
    modifies w
    ensures !Env.IsSet(env, WAREHOUSE_VAR) ==> err.None? && unchanged(w)
    ensures Env.IsSet(env, WAREHOUSE_VAR) && identity.Err? ==>
      err == Some(LOG_FAILURE + identity.error) && unchanged(w)
    ensures identity.Ok? ==> err.None?
    ensures !Db.ConnOk(w.settings) ==> unchanged(w)
    ensures Env.IsSet(env, WAREHOUSE_VAR) && identity.Ok? && Db.ConnOk(w.settings) ==>
      w.conversations == Db.WithModel(old(w.conversations)
                                        + [LoggedConversation(convId, identity.value, endpoint)],
                                      convId, endpoint)
      && w.messages == old(w.messages)
           + LoggedMessages(convId, msgs, tokensIn, tokensOut, userMessageId, replyMessageId)
      && w.usageEvents == old(w.usageEvents)
           + LoggedUsage(convId, msgs, identity.value, endpoint, tokensIn, tokensOut, eventId)
  {
    if !Env.IsSet(env, WAREHOUSE_VAR) {
      return None;
    }
    if identity.Err? {
      return Some(LOG_FAILURE + identity.error);
    }
    var id := identity.value;
    w.EnsureConversation(convId, id.userId, endpoint, NEW_CONVERSATION, id.email, id.sqlUser);
    w.UpdateConversationModel(convId, endpoint);
    if |msgs| >= 2 {
      var userMsg := msgs[|msgs| - 2];
      var assistantMsg := msgs[|msgs| - 1];
      w.LogMessage(userMessageId, convId, userMsg.role, userMsg.content, 0, 0, "ok");
      w.LogMessage(replyMessageId, convId, assistantMsg.role, assistantMsg.content,
                   tokensIn, tokensOut, "ok");
      w.LogUsage(eventId, convId, id.userId, endpoint, tokensIn, tokensOut, id.email, id.sqlUser);
    }
    return None;
  }

  /** After a logged turn the conversation's stored messages end with the turn's two
      messages. */
  lemma LoggedTurnIsLast(old_messages: seq<Db.StoredMessage>, convId: string,
                         msgs: seq<Messages.Message>, tokensIn: int, tokensOut: int,
                         id1: string, id2: string)
    requires |msgs| >= 2
    ensures Db.MessagesOf(old_messages + LoggedMessages(convId, msgs, tokensIn, tokensOut, id1, id2), convId)
      == Db.MessagesOf(old_messages, convId) + LoggedMessages(convId, msgs, tokensIn, tokensOut, id1, id2)
  {
    var logged := LoggedMessages(convId, msgs, tokensIn, tokensOut, id1, id2);
    assert Db.MessagesOf(logged, convId) == logged by {
      var m1 := logged[0];
      var m2 := logged[1];
      assert logged == [m1] + [m2];
      Db.MessagesOfAppend([m1], [m2], convId);
      MessagesOfOne(m1, convId);
      MessagesOfOne(m2, convId);
    }
    Db.MessagesOfAppend(old_messages, logged, convId);
  }

  lemma MessagesOfOne(m: Db.StoredMessage, convId: string)
    requires m.conversationId == convId
    ensures Db.MessagesOf([m], convId) == [m]
  {
    assert [m][1..] == [];
  }

  // ---- generate_title ----

  /** The `except` branch of `generate_title`: the first six words of the first message's
      content joined by single spaces, followed by `...` when there were more. */
  function SimpleTitle(content: Value): (r: Result<string>)
    ensures r.Ok? <==> content.Str?
  {
    if !content.Str? then Err("'" + TypeName(content) + "' object has no attribute 'split'")
    else
      var words := Text.SplitWords(content.s);
      Ok(Text.Join(" ", Seqs.Take(words, Titles.MAX_TITLE_WORDS))
         + (if |words| > Titles.MAX_TITLE_WORDS then SIMPLE_ELLIPSIS else ""))
  }

  /** The simple title ends in `...` exactly when the content has more than six words, and
      what precedes it splits into the content's first six words. */
  lemma SimpleTitleShape(s: string)
    ensures var r := SimpleTitle(Str(s)).value;
      var words := Text.SplitWords(s);
      (|words| > Titles.MAX_TITLE_WORDS ==>
         |r| >= |SIMPLE_ELLIPSIS| && r[|r| - |SIMPLE_ELLIPSIS|..] == SIMPLE_ELLIPSIS
         && Text.SplitWords(r[..|r| - |SIMPLE_ELLIPSIS|]) == words[..Titles.MAX_TITLE_WORDS])
      && (|words| <= Titles.MAX_TITLE_WORDS ==> Text.SplitWords(r) == words)
  {
    var words := Text.SplitWords(s);
    var taken := Seqs.Take(words, Titles.MAX_TITLE_WORDS);
    var body := Text.Join(" ", taken);
    SimpleTitleWords(words);
    if |words| > Titles.MAX_TITLE_WORDS {
      assert taken == words[..Titles.MAX_TITLE_WORDS];
      assert SimpleTitle(Str(s)).value == body + SIMPLE_ELLIPSIS;
      EllipsisSplits(body);
    } else {
      assert taken == words;
      assert SimpleTitle(Str(s)).value == body + "";
      assert body + "" == body;
    }
  }

  lemma EllipsisSplits(body: string)
    ensures var r := body + SIMPLE_ELLIPSIS;
      |r| >= |SIMPLE_ELLIPSIS| && r[|r| - |SIMPLE_ELLIPSIS|..] == SIMPLE_ELLIPSIS
      && r[..|r| - |SIMPLE_ELLIPSIS|] == body
  {
  }

  /** Joining the first six words and splitting again gives those words. */
  lemma SimpleTitleWords(words: seq<string>)
    requires forall k :: 0 <= k < |words| ==> words[k] != [] && Text.NoSpace(words[k])
    ensures Text.SplitWords(Text.Join(" ", Seqs.Take(words, Titles.MAX_TITLE_WORDS)))
      == Seqs.Take(words, Titles.MAX_TITLE_WORDS)
  {
    var taken := Seqs.Take(words, Titles.MAX_TITLE_WORDS);
    assert forall k :: 0 <= k < |taken| ==> taken[k] == words[k];
    Titles.SplitWordsJoin(taken);
  }

  /** `generate_title`: the default title of the first message's content as the fallback of
      the model's title. Whatever raises on the way falls through to the simple title,
      which reads the same content again; with no messages the title is
      `New Conversation`. */
  function GenerateTitle(endpoint: string, msgs: seq<Value>,
                         ask: Titles.TitleRequest -> Result<Value>): (r: Result<string>)
    ensures msgs == [] ==> r == Ok(NEW_CONVERSATION)
    ensures msgs != [] && !msgs[0].Obj? ==> r.Err?
    ensures msgs != [] && msgs[0].Obj?
            && Titles.DefaultTitleOf(GetOr(msgs[0].fields, "content", Str(""))).Ok? ==>
      r == Ok(Titles.AutoTitle(endpoint, msgs,
                               Titles.DefaultTitleOf(GetOr(msgs[0].fields, "content", Str(""))).value, ask))
  {
    if msgs == [] then Ok(NEW_CONVERSATION)
    else if !msgs[0].Obj? then
      Err("'" + TypeName(msgs[0]) + "' object has no attribute 'get'")
    else
      var content := GetOr(msgs[0].fields, "content", Str(""));
      match Titles.DefaultTitleOf(content)
      case Ok(fallback) => Ok(Titles.AutoTitle(endpoint, msgs, fallback, ask))
      case Err(_) => SimpleTitle(content)
  }

  /** The simple-title branch never yields a title: the `try` only fails on a first message
      that is not a dictionary or whose content is a truthy non-string, and the `except`
      branch fails again on the same value. Every title of a non-empty history is the
      model's title (or its fallback), at most 60 characters long. */
  lemma GenerateTitleIsAutoTitle(endpoint: string, msgs: seq<Value>,
                                 ask: Titles.TitleRequest -> Result<Value>)
    requires msgs != []
    ensures GenerateTitle(endpoint, msgs, ask).Ok? <==>
      msgs[0].Obj? && Titles.DefaultTitleOf(GetOr(msgs[0].fields, "content", Str(""))).Ok?
    ensures GenerateTitle(endpoint, msgs, ask).Ok? ==>
      var fallback := Titles.DefaultTitleOf(GetOr(msgs[0].fields, "content", Str(""))).value;
      GenerateTitle(endpoint, msgs, ask).value == Titles.AutoTitle(endpoint, msgs, fallback, ask)
      && |GenerateTitle(endpoint, msgs, ask).value| <= Titles.MAX_TITLE_CHARS
  {
    if msgs[0].Obj? {
      var content := GetOr(msgs[0].fields, "content", Str(""));
      if Titles.DefaultTitleOf(content).Err? {
        assert !content.Str?;
      }
    }
  }

  /** With no messages the title is `New Conversation`. */
  lemma GenerateTitleEmpty(endpoint: string, ask: Titles.TitleRequest -> Result<Value>)
    ensures GenerateTitle(endpoint, [], ask) == Ok(NEW_CONVERSATION)
  {
  }

  // ---- load_conversation_messages ----

  /** `m[key]` on a row: the value, or the `KeyError` naming the key. */
  function Column(row: Dict, key: string): (r: Result<Value>)
    ensures r.Ok? <==> Has(row, key)
    ensures r.Ok? ==> Get(row, key) == Some(r.value)
  {
    match Get(row, key)
    case Some(v) => Ok(v)
    case None => Err("'" + key + "'")
  }

  /** `{"role": m["role"], "content": m["content"]}`. */
  function Project(row: Dict): (r: Result<Dict>)
    ensures r.Ok? <==> Has(row, "role") && Has(row, "content")
    ensures r.Ok? ==> (Keys(r.value) == ["role", "content"]
      && Get(r.value, "role") == Get(row, "role") && Get(r.value, "content") == Get(row, "content"))
  {
    var role :- Column(row, "role");
    var content :- Column(row, "content");
    Messages.EntryFields(role, content);
    Ok(Messages.Entry(role, content))
  }

  /** A role/content dictionary projects to itself. */
  lemma ProjectEntry(role: Value, content: Value)
    ensures Project(Messages.Entry(role, content)) == Ok(Messages.Entry(role, content))
  {
    Messages.EntryFields(role, content);
  }

  /** `load_conversation_messages` over the fetched rows: each row projected to its role
      and content, in order; the first row missing either key raises. */
  function LoadConversationMessages(rows: seq<Dict>): (r: Result<seq<Dict>>)
    ensures r.Ok? <==> forall k :: 0 <= k < |rows| ==> Project(rows[k]).Ok?
    ensures r.Ok? ==> (|r.value| == |rows|
      && forall k :: 0 <= k < |rows| ==> r.value[k] == Project(rows[k]).value)
  {
    if rows == [] then Ok([])
    else
      var first :- Project(rows[0]);
      var rest :- LoadConversationMessages(rows[1..]);
      assert forall k :: 1 <= k < |rows| ==> rows[k] == rows[1..][k - 1];
      Ok([first] + rest)
  }

  /** Messages stored as role/content dictionaries load back unchanged. */
  lemma LoadStoredMessages(ms: seq<Messages.Message>)
    ensures LoadConversationMessages(Messages.ToDicts(ms)) == Ok(Messages.ToDicts(ms))
  {
    var rows := Messages.ToDicts(ms);
    forall k | 0 <= k < |rows|
      ensures Project(rows[k]) == Ok(rows[k])
    {
      assert rows[k] == Messages.Entry(Str(ms[k].role), Str(ms[k].content));
      ProjectEntry(Str(ms[k].role), Str(ms[k].content));
    }
    var r := LoadConversationMessages(rows);
    assert r.Ok?;
    assert r.value == rows;
  }

  /** Loading is idempotent: loaded messages load back unchanged. */
  lemma LoadIdempotent(rows: seq<Dict>)
    requires LoadConversationMessages(rows).Ok?
    ensures LoadConversationMessages(LoadConversationMessages(rows).value)
      == LoadConversationMessages(rows)
  {
    var loaded := LoadConversationMessages(rows).value;
    forall k | 0 <= k < |loaded|
      ensures Project(loaded[k]) == Ok(loaded[k])
    {
      var p := Project(rows[k]).value;
      assert loaded[k] == p;
      var role := Column(rows[k], "role").value;
      var content := Column(rows[k], "content").value;
      assert p == Messages.Entry(role, content);
      ProjectEntry(role, content);
    }
    var again := LoadConversationMessages(loaded);
    assert again.Ok?;
    assert again.value == loaded;
  }

  // ---- the guards of the reading operations ----

  /** `get_conversations`: no conversations without a warehouse id; otherwise the listing
      of the user the identity resolves to. */
  function GetConversations(env: Env.Environ, identity: Auth.Identity,
                            list: string -> seq<Dict>): (r: seq<Dict>)
    ensures !Env.IsSet(env, WAREHOUSE_VAR) ==> r == []
    ensures Env.IsSet(env, WAREHOUSE_VAR) ==> r == list(identity.userId)
  {
    if !Env.IsSet(env, WAREHOUSE_VAR) then [] else list(identity.userId)
  }

  /** What `get_analytics_data` returns: the totals and the two breakdowns, which are
      `None` when logging is off. */
  datatype Analytics = Analytics(totals: Dict, byDay: Option<Value>, byModel: Option<Value>)

  /** `get_analytics_data`: the empty shape without a warehouse id; otherwise the frames
      built for the user the identity resolves to. */
  function GetAnalyticsData(env: Env.Environ, identity: Auth.Identity,
                            frames: string -> (Dict, Value, Value)): (r: Analytics)
    ensures !Env.IsSet(env, WAREHOUSE_VAR) ==> r == Analytics([], None, None)
    ensures Env.IsSet(env, WAREHOUSE_VAR) ==> (r.byDay.Some? && r.byModel.Some?
      && (r.totals, r.byDay.value, r.byModel.value) == frames(identity.userId))
  {
    if !Env.IsSet(env, WAREHOUSE_VAR) then Analytics([], None, None)
    else
      var f := frames(identity.userId);
      Analytics(f.0, Some(f.1), Some(f.2))
  }
}
