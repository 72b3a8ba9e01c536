/** `Db`: the SQL-warehouse logging layer. The warehouse itself is a store of three tables
    keyed by conversation id; a query result is a parameter (the columns the cursor
    describes and the rows it fetched, or the exception raised on the way). */
module Db {
  import opened Wrappers
  import opened Json
  import Text
  import Env
  import SqlText

  /** The settings read from the environment when the module loads. */
  datatype Settings = Settings(enableLogging: bool, warehouseId: string, catalog: string,
                               schema: string)

  function SettingsFrom(env: Env.Environ): (s: Settings)
    ensures s.enableLogging <==> Env.GetOr(env, "ENABLE_LOGGING", "1") == "1"
    ensures s.warehouseId == Env.GetOr(env, "DATABRICKS_WAREHOUSE_ID", "")
    ensures "CATALOG" !in env ==> s.catalog == "shared"
    ensures "SCHEMA" !in env ==> s.schema == "app"
  {
    Settings(Env.GetOr(env, "ENABLE_LOGGING", "1") == "1",
             Env.GetOr(env, "DATABRICKS_WAREHOUSE_ID", ""),
             Env.GetOr(env, "CATALOG", "shared"),
             Env.GetOr(env, "SCHEMA", "app"))
  }

  /** `_conn_ok()`: logging is on and a warehouse is named. */
  predicate ConnOk(s: Settings) {
    s.enableLogging && s.warehouseId != ""
  }

  /** Logging reaches the warehouse exactly when `ENABLE_LOGGING` is unset or `1` and
      `DATABRICKS_WAREHOUSE_ID` is set to a non-empty value. */
  lemma ConnOkFromEnv(env: Env.Environ)
    ensures ConnOk(SettingsFrom(env)) <==>
      Env.GetOr(env, "ENABLE_LOGGING", "1") == "1" && Env.IsSet(env, "DATABRICKS_WAREHOUSE_ID")
  {
  }

  /** `fqn(name)` under the configured catalog and schema. */
  function TableName(s: Settings, name: string): string {
    SqlText.Fqn(s.catalog, s.schema, name)
  }

  // ---- Header lookups ----

  /** The environment name of a header: dashes become underscores, letters upper case. */
  function EnvKey(name: string): (k: string)
    ensures |k| == |name| && '-' !in k
  {
    Text.ReplaceCharByCharLength(name, '-', '_');
    var r := Text.ReplaceChar(name, '-', "_");
    assert forall i :: 0 <= i < |r| ==> r[i] != '-' by {
      forall i | 0 <= i < |r| ensures r[i] != '-' {
        Text.ReplaceCharByCharAt(name, '-', '_', i);
      }
    }
    Text.Upper(r)
  }

  /** `_get_header(name)`: the variable under the environment name when it is non-empty,
      otherwise the variable under the name itself (which may be absent or empty). */
  function GetHeader(env: Env.Environ, name: string): (r: Option<string>)
    ensures Env.IsSet(env, EnvKey(name)) ==> r == Some(env[EnvKey(name)])
    ensures !Env.IsSet(env, EnvKey(name)) ==> r == Env.Lookup(env, name)
  {
    Env.EitherOf(env, EnvKey(name), name)
  }

  /** The first of a list of optional texts that is present and non-empty. */
  function FirstGiven(vals: seq<Option<string>>): (r: Option<string>)
    ensures r.None? <==> forall i :: 0 <= i < |vals| ==> !SqlText.Given(vals[i])
    ensures r.Some? ==> exists i :: (0 <= i < |vals| && vals[i] == r && SqlText.Given(r)
      && forall j :: 0 <= j < i ==> !SqlText.Given(vals[j]))
  {
    if vals == [] then None
    else if SqlText.Given(vals[0]) then vals[0]
    else
      var r := FirstGiven(vals[1..]);
      assert r.Some? ==> exists i :: (0 <= i < |vals[1..]| && vals[1..][i] == r && SqlText.Given(r)
        && forall j :: 0 <= j < i ==> !SqlText.Given(vals[1..][j]));
      assert r.Some? ==> exists i :: (1 <= i < |vals| && vals[i] == r && SqlText.Given(r)
        && forall j :: 1 <= j < i ==> !SqlText.Given(vals[j]));
      r
  }

  function HeaderValues(env: Env.Environ, keys: seq<string>): (vals: seq<Option<string>>)
    ensures |vals| == |keys|
    ensures forall i :: 0 <= i < |keys| ==> vals[i] == GetHeader(env, keys[i])
  {
    seq(|keys|, i requires 0 <= i < |keys| => GetHeader(env, keys[i]))
  }

  const EMAIL_HEADERS := ["X-Forwarded-Email", "x-forwarded-email", "X_FORWARDED_EMAIL",
                          "DATABRICKS_FORWARD_EMAIL"]
  const TOKEN_HEADERS := ["X-Forwarded-Access-Token", "x-forwarded-access-token",
                          "X_FORWARDED_ACCESS_TOKEN", "DATABRICKS_FORWARD_ACCESS_TOKEN"]

  /** The loop of `get_forwarded_email` and `get_forwarded_token`: the first non-empty
      header value in list order, else `None`. */
  method FirstHeader(env: Env.Environ, keys: seq<string>) returns (r: Option<string>)
    ensures r == FirstGiven(HeaderValues(env, keys))
  {
    var vals := HeaderValues(env, keys);
    for k := 0 to |keys|
      invariant forall j :: 0 <= j < k ==> !SqlText.Given(vals[j])
    {
      var v := GetHeader(env, keys[k]);
      if SqlText.Given(v) {
        FirstGivenAt(vals, k);
        return v;
      }
    }
    return None;
  }

  /** The first given value is the one at the first index that holds one. */
  lemma {:induction false} FirstGivenAt(vals: seq<Option<string>>, k: nat)
    requires k < |vals| && SqlText.Given(vals[k])
    requires forall j :: 0 <= j < k ==> !SqlText.Given(vals[j])
    ensures FirstGiven(vals) == vals[k]
  {
    if k > 0 {
      FirstGivenAt(vals[1..], k - 1);
    }
  }

  method ForwardedEmail(env: Env.Environ) returns (r: Option<string>)
    ensures r == FirstGiven(HeaderValues(env, EMAIL_HEADERS))
    ensures r.Some? ==> r.value != ""
  {
    r := FirstHeader(env, EMAIL_HEADERS);
  }

  method ForwardedToken(env: Env.Environ) returns (r: Option<string>)
    ensures r == FirstGiven(HeaderValues(env, TOKEN_HEADERS))
    ensures r.Some? ==> r.value != ""
  {
    r := FirstHeader(env, TOKEN_HEADERS);
  }

  // ---- Query results ----

  /** A fetched row: a dictionary, or positional values. */
  datatype FetchedRow = DictRow(fields: Dict) | Tuple(values: seq<Value>)

  /** The key of the `i`-th positional value: its column name, or `c{i}` past the
      described columns. */
  function ColumnKey(cols: seq<string>, i: nat): string {
    if i < |cols| then cols[i] else "c" + Text.NatToString(i)
  }

  /** The dictionary of the first `n` positional values, filled in order (a later
      duplicate key overwrites the earlier value in place). */
  function RowDict(cols: seq<string>, values: seq<Value>, n: nat): (d: Dict)
    requires n <= |values|
  {
    if n == 0 then [] else Put(RowDict(cols, values, n - 1), ColumnKey(cols, n - 1), values[n - 1])
  }

  function RowToDict(cols: seq<string>, row: FetchedRow): Dict {
    match row
    case DictRow(fields) => fields
    case Tuple(values) => RowDict(cols, values, |values|)
  }

  function RowsToDictsSpec(cols: seq<string>, rows: seq<FetchedRow>): (out: seq<Dict>)
    ensures |out| == |rows|
    ensures forall k :: 0 <= k < |rows| ==> out[k] == RowToDict(cols, rows[k])
  {
    seq(|rows|, k requires 0 <= k < |rows| => RowToDict(cols, rows[k]))
  }

  /** `_rows_to_dicts`: one dictionary per row, in order. */
  method RowsToDicts(cols: seq<string>, rows: seq<FetchedRow>) returns (out: seq<Dict>)
    ensures out == RowsToDictsSpec(cols, rows)
  {
    out := [];
    for k := 0 to |rows|
      invariant out == RowsToDictsSpec(cols, rows[..k])
    {
      var d: Dict;
      match rows[k] {
        case DictRow(fields) =>
          d := fields;
        case Tuple(values) =>
          d := [];
          for i := 0 to |values|
            invariant d == RowDict(cols, values, i)
          {
            d := Put(d, ColumnKey(cols, i), values[i]);
          }
      }
      assert rows[..k + 1] == rows[..k] + [rows[k]];
      out := out + [d];
    }
    assert rows[..|rows|] == rows;
  }

  /** Distinct keys for the first `n` positional values. */
  predicate DistinctKeys(cols: seq<string>, n: nat) {
    forall i, j :: 0 <= i < j < n ==> ColumnKey(cols, i) != ColumnKey(cols, j)
  }

  function ColumnKeys(cols: seq<string>, n: nat): (ks: seq<string>)
    ensures |ks| == n
    ensures forall i :: 0 <= i < n ==> ks[i] == ColumnKey(cols, i)
  {
    if n == 0 then [] else ColumnKeys(cols, n - 1) + [ColumnKey(cols, n - 1)]
  }

  /** With distinct keys, a positional row becomes a dictionary with one key per value,
      in column order, each holding its own value. */
  lemma {:induction false} RowDictContents(cols: seq<string>, values: seq<Value>, n: nat)
    requires n <= |values| && DistinctKeys(cols, n)
    ensures Keys(RowDict(cols, values, n)) == ColumnKeys(cols, n)
    ensures forall i :: 0 <= i < n ==> Get(RowDict(cols, values, n), ColumnKey(cols, i)) == Some(values[i])
  {
    RowDictKeys(cols, values, n);
    forall i | 0 <= i < n ensures Get(RowDict(cols, values, n), ColumnKey(cols, i)) == Some(values[i]) {
      RowDictGet(cols, values, n, i);
    }
  }

  lemma {:induction false} RowDictGet(cols: seq<string>, values: seq<Value>, n: nat, i: nat)
    requires i < n <= |values| && DistinctKeys(cols, n)
    ensures Get(RowDict(cols, values, n), ColumnKey(cols, i)) == Some(values[i])
  {
    assert DistinctKeys(cols, n - 1);
    RowDictKeys(cols, values, n - 1);
    NotYetKeyed(cols, values, n);
    RowDictStep(cols, values, n);
    if i < n - 1 {
      assert ColumnKey(cols, i) != ColumnKey(cols, n - 1);
      RowDictGet(cols, values, n - 1, i);
    }
  }

  lemma {:induction false} RowDictKeys(cols: seq<string>, values: seq<Value>, n: nat)
    requires n <= |values| && DistinctKeys(cols, n)
    ensures Keys(RowDict(cols, values, n)) == ColumnKeys(cols, n)
  {
    if n > 0 {
      assert DistinctKeys(cols, n - 1);
      RowDictKeys(cols, values, n - 1);
      NotYetKeyed(cols, values, n);
      RowDictStep(cols, values, n);
    }
  }

  /** The next positional key is not yet in the dictionary of the earlier values. */
  lemma NotYetKeyed(cols: seq<string>, values: seq<Value>, n: nat)
    requires 0 < n <= |values| && DistinctKeys(cols, n)
    requires Keys(RowDict(cols, values, n - 1)) == ColumnKeys(cols, n - 1)
    ensures !Has(RowDict(cols, values, n - 1), ColumnKey(cols, n - 1))
  {
    var k := ColumnKey(cols, n - 1);
    var ks := ColumnKeys(cols, n - 1);
    forall i | 0 <= i < n - 1 ensures ks[i] != k {
      assert ColumnKey(cols, i) != ColumnKey(cols, n - 1);
    }
    KeysHas(RowDict(cols, values, n - 1), k);
  }

  /** Filling one more positional value under a new key appends that key. */
  lemma RowDictStep(cols: seq<string>, values: seq<Value>, n: nat)
    requires 0 < n <= |values| && !Has(RowDict(cols, values, n - 1), ColumnKey(cols, n - 1))
    ensures Keys(RowDict(cols, values, n)) == Keys(RowDict(cols, values, n - 1)) + [ColumnKey(cols, n - 1)]
    ensures Get(RowDict(cols, values, n), ColumnKey(cols, n - 1)) == Some(values[n - 1])
    ensures forall key :: key != ColumnKey(cols, n - 1) ==>
      Get(RowDict(cols, values, n), key) == Get(RowDict(cols, values, n - 1), key)
  {
  }

  lemma {:induction false} KeysHas(d: Dict, k: string)
    ensures Has(d, k) <==> k in Keys(d)
  {
    if d != [] {
      KeysHas(d[1..], k);
    }
  }

  /** Values past the described columns get the keys `c{i}`. */
  lemma UndescribedColumns(values: seq<Value>)
    requires |values| == 2
    ensures RowDict(["id"], values, 2) == [Field("id", values[0]), Field("c1", values[1])]
  {
    assert Text.Digit(1) == '1';
    assert Text.NatToString(1) == "1";
    assert ColumnKey(["id"], 1) == "c1";
    var one := RowDict(["id"], values, 1);
    assert RowDict(["id"], values, 0) == [] && ColumnKey(["id"], 0) == "id";
    assert one == [Field("id", values[0])];
    assert one[0].key != "c1";
    assert one[1..] == [];
    assert Put(one, "c1", values[1]) == [one[0]] + Put([], "c1", values[1]);
  }

  /** `sql_query`: no query when the connection is off, and an empty list when it fails. */
  method SqlQuery(s: Settings, run: Result<(seq<string>, seq<FetchedRow>)>) returns (rows: seq<Dict>)
    ensures !ConnOk(s) || run.Err? ==> rows == []
    ensures ConnOk(s) && run.Ok? ==> rows == RowsToDictsSpec(run.value.0, run.value.1)
  {
    if !ConnOk(s) {
      return [];
    }
    match run
    case Err(_) => rows := [];
    case Ok(result) => rows := RowsToDicts(result.0, result.1);
  }

  /** `sql_fetch_one`: the first value of the first row, `None` for no rows; a first row
      without values raises `IndexError`. */
  function FetchOne(rows: seq<Dict>): (r: Result<Option<Value>>)
    ensures rows == [] ==> r == Ok(None)
    ensures r.Ok? && r.value.Some? ==> rows != [] && rows[0] != [] && r.value.value == rows[0][0].val
    ensures r.Err? <==> rows != [] && rows[0] == []
  {
    if rows == [] then Ok(None)
    else if rows[0] == [] then Err("list index out of range")
    else Ok(Some(Values(rows[0])[0]))
  }

  const UNKNOWN_USER := "unknown_user"

  /** `current_user()`: the fetched value when it is truthy, else `unknown_user`; the
      result is therefore always truthy. */
  function CurrentUser(fetched: Result<Option<Value>>): (r: Result<Value>)
    ensures fetched.Err? <==> r.Err?
    ensures r.Ok? ==> Truthy(r.value)
    ensures fetched.Ok? && fetched.value.Some? && Truthy(fetched.value.value) ==> r == Ok(fetched.value.value)
  {
    match fetched
    case Err(e) => Err(e)
    case Ok(None) => Ok(Str(UNKNOWN_USER))
    case Ok(Some(u)) => if Truthy(u) then Ok(u) else Ok(Str(UNKNOWN_USER))
  }

  // ---- Statements ----

  const USER_FILTER_PREFIX := "user_id = '"
  const EXISTS_PREFIX := "EXISTS (SELECT 1 FROM "

  /** The `WHERE` conditions of `list_conversations`, built by appending. */
  method WhereConditions(s: Settings, userId: Option<string>, search: string, includeContent: bool)
    returns (conds: seq<string>)
    ensures conds == WhereSpec(s, userId, search, includeContent)
  {
    conds := [NO_FILTER];
    if SqlText.Given(userId) {
      conds := conds + [UserCondition(userId)];
    }
    if search != "" {
      var e := SqlText.Esc(Some(search));
      conds := conds + [SearchCondition(e)];
      if includeContent {
        ghost var prev := conds;
        conds := conds + [ContentCondition(s, e)];
        assert conds == prev[..|prev| - 1] + [SearchCondition(e), ContentCondition(s, e)];
      }
    }
  }

  const NO_FILTER := "1=1"

  /** The owner filter. */
  function UserCondition(userId: Option<string>): (c: string)
    ensures USER_FILTER_PREFIX <= c && !(EXISTS_PREFIX <= c)
  {
    var c := USER_FILTER_PREFIX + SqlText.Esc(userId) + "'";
    assert c[0] == 'u' != EXISTS_PREFIX[0];
    c
  }

  /** The title-or-model match on the escaped search text. */
  function SearchCondition(e: string): (c: string)
    ensures !(EXISTS_PREFIX <= c)
  {
    var c := "(title ILIKE '%" + e + "%' OR model ILIKE '%" + e + "%')";
    assert c[0] == '(' != EXISTS_PREFIX[0];
    c
  }

  /** The message-content match: a subquery over the messages table. */
  function ContentCondition(s: Settings, e: string): (c: string)
    ensures EXISTS_PREFIX <= c
  {
    EXISTS_PREFIX + (TableName(s, "messages") + CONTENT_MATCH + e + "%')")
  }

  const CONTENT_MATCH := " m WHERE m.conversation_id = c.conversation_id AND m.content ILIKE '%"

  function WhereSpec(s: Settings, userId: Option<string>, search: string, includeContent: bool)
    : (conds: seq<string>)
    ensures |conds| >= 1 && conds[0] == NO_FILTER
    ensures |conds| == 1 + (if SqlText.Given(userId) then 1 else 0)
      + (if search != "" then 1 else 0) + (if search != "" && includeContent then 1 else 0)
    ensures SqlText.Given(userId) ==> conds[1] == UserCondition(userId)
    ensures search != "" ==>
      conds[|conds| - (if includeContent then 2 else 1)] == SearchCondition(SqlText.Esc(Some(search)))
    ensures search != "" && includeContent ==>
      conds[|conds| - 1] == ContentCondition(s, SqlText.Esc(Some(search)))
  {
    var base := if SqlText.Given(userId) then [NO_FILTER, UserCondition(userId)] else [NO_FILTER];
    var e := SqlText.Esc(Some(search));
    if search == "" then base
    else if includeContent then base + [SearchCondition(e), ContentCondition(s, e)]
    else base + [SearchCondition(e)]
  }

  /** The message-content condition needs both a search text and `include_content`; the
      user condition needs a non-empty user id. */
  lemma WhereConditionsPresent(s: Settings, userId: Option<string>, search: string, includeContent: bool)
    ensures var conds := WhereSpec(s, userId, search, includeContent);
      (exists i :: 0 <= i < |conds| && EXISTS_PREFIX <= conds[i]) <==> search != "" && includeContent
  {
    var conds := WhereSpec(s, userId, search, includeContent);
    if search != "" && includeContent {
      assert EXISTS_PREFIX <= conds[|conds| - 1];
    } else {
      forall i | 0 <= i < |conds| ensures !(EXISTS_PREFIX <= conds[i]) {
        if i == 0 {
          assert conds[0][0] != EXISTS_PREFIX[0];
        }
      }
    }
  }

  /** `" AND ".join(where)`. */
  function WhereClause(conds: seq<string>): string {
    Text.Join(" AND ", conds)
  }

  /** With no user and no search the listing is unfiltered. */
  lemma WhereUnfiltered(s: Settings, includeContent: bool)
    ensures WhereClause(WhereSpec(s, None, "", includeContent)) == "1=1"
  {
  }

  /** The three statements of `delete_conversation`, in the order they run: usage events
      first, then messages, then the conversation itself. */
  function DeleteStatements(s: Settings, convId: string): (stmts: seq<string>)
    ensures |stmts| == 3
    ensures forall i :: 0 <= i < 3 ==>
      stmts[i] == "DELETE FROM " + TableName(s, ["usage_events", "messages", "conversations"][i])
        + " WHERE conversation_id = '" + SqlText.Esc(Some(convId)) + "'"
  {
    var tables := ["usage_events", "messages", "conversations"];
    seq(3, i requires 0 <= i < 3 =>
      "DELETE FROM " + TableName(s, tables[i]) + " WHERE conversation_id = '"
      + SqlText.Esc(Some(convId)) + "'")
  }

  /** Each delete statement names the conversation by a literal that reads back as
      exactly its id, and nothing follows that literal. */
  lemma DeleteTargetsConversation(s: Settings, convId: string, i: nat)
    requires i < 3
    ensures var stmt := DeleteStatements(s, convId)[i];
      var prefix := "DELETE FROM " + TableName(s, ["usage_events", "messages", "conversations"][i])
        + " WHERE conversation_id = '";
      prefix <= stmt && SqlText.ReadQuoted(stmt[|prefix|..]) == Some((convId, ""))
  {
    var prefix := "DELETE FROM " + TableName(s, ["usage_events", "messages", "conversations"][i])
      + " WHERE conversation_id = '";
    var stmt := DeleteStatements(s, convId)[i];
    assert stmt == prefix + (SqlText.Esc(Some(convId)) + "'" + "");
    assert stmt[|prefix|..] == SqlText.Esc(Some(convId)) + "'" + "";
    SqlText.EscReadsBack(convId, "");
  }

  // ---- The warehouse tables ----

  datatype Conversation = Conversation(conversationId: string, userId: string, title: string,
                                       model: string, meta: string)
  datatype StoredMessage = StoredMessage(messageId: string, conversationId: string, role: string,
                                         content: string, tokensIn: int, tokensOut: int,
                                         status: string)
  datatype UsageEvent = UsageEvent(eventId: string, conversationId: string, userId: string,
                                   model: string, tokensIn: int, tokensOut: int, meta: string)

  /** What an `UPDATE ... SET` on one conversation changes: its model or its title. */
  datatype Change = SetModel(model: string) | SetTitle(title: string)

  function Applied(c: Conversation, ch: Change): Conversation {
    match ch
    case SetModel(m) => c.(model := m)
    case SetTitle(t) => c.(title := t)
  }

  /** The conversation rows after an update of conversation `id`: the same rows in the
      same order, changed exactly where the id matches. */
  function Updated(rows: seq<Conversation>, id: string, ch: Change): (r: seq<Conversation>)
    ensures |r| == |rows|
    ensures forall i :: 0 <= i < |rows| ==> r[i].conversationId == rows[i].conversationId
    ensures forall i :: 0 <= i < |rows| && rows[i].conversationId == id ==> r[i] == Applied(rows[i], ch)
    ensures forall i :: 0 <= i < |rows| && rows[i].conversationId != id ==> r[i] == rows[i]
  {
    seq(|rows|, i requires 0 <= i < |rows| =>
      if rows[i].conversationId == id then Applied(rows[i], ch) else rows[i])
  }

  function WithModel(rows: seq<Conversation>, id: string, model: string): seq<Conversation> {
    Updated(rows, id, SetModel(model))
  }

  function WithTitle(rows: seq<Conversation>, id: string, title: string): seq<Conversation> {
    Updated(rows, id, SetTitle(title))
  }

  /** The rows of a table after `DELETE ... WHERE conversation_id = id`, where `idOf`
      reads a row's conversation id: exactly the rows of other conversations. */
  function RowsWithout<T(==,!new)>(rows: seq<T>, idOf: T -> string, id: string): (r: seq<T>)
    ensures forall x :: x in r <==> x in rows && idOf(x) != id
  {
    if rows == [] then []
    else (if idOf(rows[0]) == id then [] else [rows[0]]) + RowsWithout(rows[1..], idOf, id)
  }

  function ConversationOf(c: Conversation): string {
    c.conversationId
  }

  function MessageConversation(m: StoredMessage): string {
    m.conversationId
  }

  function UsageConversation(u: UsageEvent): string {
    u.conversationId
  }

  /** The conversation, message and usage tables of one warehouse. Every write is a no-op
      when the connection is off. */
  class Warehouse {
    const settings: Settings
    var conversations: seq<Conversation>
    var messages: seq<StoredMessage>
    var usageEvents: seq<UsageEvent>

    constructor (settings: Settings)
      ensures this.settings == settings
      ensures conversations == [] && messages == [] && usageEvents == []
    {
      this.settings := settings;
      conversations := [];
      messages := [];
      usageEvents := [];
    }

    /** `ensure_conversation`: inserts a conversation row (the insert has no key check,
        so every call adds one) carrying the meta map of the given identity. */
    method EnsureConversation(convId: string, userId: string, model: string, title: string,
                              email: Option<string>, sqlUser: Option<string>)
      modifies this
      ensures !ConnOk(settings) ==> unchanged(this)
      ensures ConnOk(settings) ==>
        conversations == old(conversations)
          + [Conversation(convId, userId, title, model, SqlText.MetaExpr(email, sqlUser))]
      ensures messages == old(messages) && usageEvents == old(usageEvents)
    {
      if !ConnOk(settings) {
        return;
      }
      conversations := conversations
        + [Conversation(convId, userId, title, model, SqlText.MetaExpr(email, sqlUser))];
    }

    /** `update_conversation_model`. */
    method UpdateConversationModel(convId: string, model: string)
      modifies this
      ensures !ConnOk(settings) ==> unchanged(this)
      ensures ConnOk(settings) ==> conversations == WithModel(old(conversations), convId, model)
      ensures messages == old(messages) && usageEvents == old(usageEvents)
    {
      if !ConnOk(settings) {
        return;
      }
      conversations := WithModel(conversations, convId, model);
    }

    /** `update_conversation_title`. */
    method UpdateConversationTitle(convId: string, title: string)
      modifies this
      ensures !ConnOk(settings) ==> unchanged(this)
      ensures ConnOk(settings) ==> conversations == WithTitle(old(conversations), convId, title)
      ensures messages == old(messages) && usageEvents == old(usageEvents)
    {
      if !ConnOk(settings) {
        return;
      }
      conversations := WithTitle(conversations, convId, title);
    }

    /** `log_message`, under a fresh message id. */
    method LogMessage(messageId: string, convId: string, role: string, content: string,
                      tokensIn: int, tokensOut: int, status: string)
      modifies this
      ensures !ConnOk(settings) ==> unchanged(this)
      ensures ConnOk(settings) ==>
        messages == old(messages)
          + [StoredMessage(messageId, convId, role, content, tokensIn, tokensOut, status)]
      ensures conversations == old(conversations) && usageEvents == old(usageEvents)
    {
      if !ConnOk(settings) {
        return;
      }
      messages := messages + [StoredMessage(messageId, convId, role, content, tokensIn, tokensOut, status)];
    }

    /** `log_usage`, under a fresh event id. */
    method LogUsage(eventId: string, convId: string, userId: string, model: string,
                    tokensIn: int, tokensOut: int, email: Option<string>, sqlUser: Option<string>)
      modifies this
      ensures !ConnOk(settings) ==> unchanged(this)
      ensures ConnOk(settings) ==>
        usageEvents == old(usageEvents)
          + [UsageEvent(eventId, convId, userId, model, tokensIn, tokensOut,
                        SqlText.MetaExpr(email, sqlUser))]
      ensures conversations == old(conversations) && messages == old(messages)
    {
      if !ConnOk(settings) {
        return;
      }
      usageEvents := usageEvents
        + [UsageEvent(eventId, convId, userId, model, tokensIn, tokensOut, SqlText.MetaExpr(email, sqlUser))];
    }

    /** `delete_conversation`: runs `DeleteStatements` in order; afterwards no table holds
        a row of the conversation and every other row is still there. */
    method DeleteConversation(convId: string)
      modifies this
      ensures !ConnOk(settings) ==> unchanged(this)
      ensures ConnOk(settings) ==>
        usageEvents == RowsWithout(old(usageEvents), UsageConversation, convId)
        && messages == RowsWithout(old(messages), MessageConversation, convId)
        && conversations == RowsWithout(old(conversations), ConversationOf, convId)
    {
      if !ConnOk(settings) {
        return;
      }
      usageEvents := RowsWithout(usageEvents, UsageConversation, convId);
      messages := RowsWithout(messages, MessageConversation, convId);
      conversations := RowsWithout(conversations, ConversationOf, convId);
    }

    /** `fetch_conversation_messages`: the stored messages of one conversation, in the
        order they were logged. */
    function ConversationMessages(convId: string): (r: seq<StoredMessage>)
      reads this
      ensures !ConnOk(settings) ==> r == []
      ensures ConnOk(settings) ==> forall x :: x in r <==> x in messages && x.conversationId == convId
    {
      if !ConnOk(settings) then [] else MessagesOf(messages, convId)
    }
  }

  function MessagesOf(rows: seq<StoredMessage>, id: string): (r: seq<StoredMessage>)
    ensures forall x :: x in r <==> x in rows && x.conversationId == id
    ensures |r| <= |rows|
  {
    if rows == [] then []
    else (if rows[0].conversationId == id then [rows[0]] else []) + MessagesOf(rows[1..], id)
  }

  /** Messages logged one after another are read back in that order. */
  lemma {:induction false} MessagesOfAppend(rows: seq<StoredMessage>, more: seq<StoredMessage>, id: string)
    ensures MessagesOf(rows + more, id) == MessagesOf(rows, id) + MessagesOf(more, id)
  {
    if rows == [] {
      assert rows + more == more;
    } else {
      assert (rows + more)[1..] == rows[1..] + more;
      MessagesOfAppend(rows[1..], more, id);
    }
  }
}
