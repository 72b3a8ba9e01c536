/** The retrieval-side helpers of the lakehouse app and of the root package: the
    workspace credentials, the SQL statement helpers over a warehouse, and the call of a
    serving endpoint with one of three payload schemas. The workspace client, the
    warehouse list, the statement service and the HTTP post are parameters. */
module Rag {
  import opened Wrappers
  import opened Json
  import Env
  import Text
  import ServingUtils
  import Seqs

  const HOST_VAR := "APP_DATABRICKS_HOST"
  const HOST_FALLBACK_VAR := "DATABRICKS_HOST"
  const TOKEN_VAR := "APP_DATABRICKS_TOKEN"
  const TOKEN_FALLBACK_VAR := "DATABRICKS_TOKEN"
  const UNKNOWN_USER := "unknown_user"

  // ---------------------------------------------------------------------------
  // Credentials

  function Host(env: Env.Environ): Option<string> {
    Env.EitherOf(env, HOST_VAR, HOST_FALLBACK_VAR)
  }

  function Token(env: Env.Environ): Option<string> {
    Env.EitherOf(env, TOKEN_VAR, TOKEN_FALLBACK_VAR)
  }

  /** Python truthiness of an optional string. */
  predicate Present(s: Option<string>) {
    s.Some? && s.value != ""
  }

  /** `_wclient` of the lakehouse app: both settings must be present. */
  function WClient(env: Env.Environ): (r: Result<(string, string)>)
    ensures r.Ok? <==> Present(Host(env)) && Present(Token(env))
    ensures r.Ok? ==> r.value == (Host(env).value, Token(env).value)
  {
    if !Present(Host(env)) || !Present(Token(env)) then
      Err("Set APP_DATABRICKS_HOST and APP_DATABRICKS_TOKEN.")
    else Ok((Host(env).value, Token(env).value))
  }

  /** `_host_token` of the lakehouse app: no guard, so a missing host fails on `rstrip`
      and a missing token is carried as `None`. */
  function HostToken(env: Env.Environ): (r: Result<(string, Option<string>)>)
    ensures r.Ok? <==> Host(env).Some?
    ensures r.Ok? ==> r.value.1 == Token(env)
    ensures r.Ok? ==> Text.RStripChars(Host(env).value, "/") == r.value.0
  {
    match Host(env)
    case None => Err("'NoneType' object has no attribute 'rstrip'")
    case Some(h) => Ok((Text.RStripChars(h, "/"), Token(env)))
  }

  /** `_ws` of the root package: both settings must be present; the host loses its
      trailing slashes. */
  function Ws(env: Env.Environ): (r: Result<(string, string)>)
    ensures r.Ok? <==> Present(Host(env)) && Present(Token(env))
    ensures r.Ok? ==> r.value.1 == Token(env).value
    ensures r.Ok? ==> |r.value.0| <= |Host(env).value| && r.value.0 == Host(env).value[..|r.value.0|]
    ensures r.Ok? ==> r.value.0 == [] || r.value.0[|r.value.0| - 1] != '/'
    ensures r.Ok? ==> forall i :: |r.value.0| <= i < |Host(env).value| ==> Host(env).value[i] == '/'
  {
    if !Present(Host(env)) || !Present(Token(env)) then
      Err("Workspace host/token not configured. Set APP_DATABRICKS_HOST and APP_DATABRICKS_TOKEN.")
    else Ok((Text.RStripChars(Host(env).value, "/"), Token(env).value))
  }

  /** Where both settings are present the two variants agree; `_ws` refuses where
      `_host_token` would go on with an empty host or a `None` token. */
  lemma WsAgreesWithHostToken(env: Env.Environ)
    ensures Ws(env).Ok? ==> HostToken(env) == Ok((Ws(env).value.0, Some(Ws(env).value.1)))
    ensures Ws(env).Err? && HostToken(env).Ok? ==>
      Host(env) == Some("") || !Present(Token(env))
  {
  }

  /** `f"Bearer {token}"`: a missing token prints as `None`. */
  function Bearer(token: Option<string>): string {
    "Bearer " + (match token case Some(t) => t case None => "None")
  }

  /** `f"{host}/serving-endpoints/{endpoint_name}/invocations"`. */
  function InvocationUrl(host: string, endpoint: string): (url: string)
    ensures |url| == |host| + 19 + |endpoint| + 12
    ensures url[..|host|] == host
    ensures url[|host|..|host| + 19] == "/serving-endpoints/"
  {
    host + "/serving-endpoints/" + endpoint + "/invocations"
  }

  /** A host stripped of its trailing slashes joins the path with exactly one slash. */
  lemma OneSlashBeforePath(host: string, endpoint: string)
    requires host != []
    ensures var url := InvocationUrl(Text.RStripChars(host, "/"), endpoint);
      var n := |Text.RStripChars(host, "/")|;
      n > 0 ==> url[n - 1] != '/' && url[n] == '/'
  {
    var h := Text.RStripChars(host, "/");
    var url := InvocationUrl(h, endpoint);
    if |h| > 0 {
      assert url[|h| - 1] == url[..|h|][|h| - 1] == h[|h| - 1];
      assert url[|h|] == url[|h|..|h| + 19][0] == '/';
    }
  }

  // ---------------------------------------------------------------------------
  // Payloads

  const OPENAI_CHAT := "openai-chat"
  const ANTHROPIC := "anthropic"

  /** `{"messages": ..., "max_tokens": ..., "temperature": ...}`; the temperature is a
      float, carried as its text. */
  function DefaultPayload(messages: seq<Value>, maxTokens: int, temperature: string): (p: Value)
    ensures p.Obj? && Keys(p.fields) == ["messages", "max_tokens", "temperature"]
    ensures Get(p.fields, "messages") == Some(Arr(messages))
    ensures Get(p.fields, "max_tokens") == Some(Int(maxTokens))
    ensures Get(p.fields, "temperature") == Some(Float(temperature))
  {
    Fields3(Field("messages", Arr(messages)), Field("max_tokens", Int(maxTokens)),
            Field("temperature", Float(temperature)));
    Obj([Field("messages", Arr(messages)), Field("max_tokens", Int(maxTokens)),
         Field("temperature", Float(temperature))])
  }

  /** `m.get("role") in ("system", "user", "assistant")`. */
  predicate KeptRole(role: Value) {
    role == Str("system") || role == Str("user") || role == Str("assistant")
  }

  /** `map_msg`: string content becomes one text block, other content passes through. */
  function AnthropicMessage(m: Dict): (r: Value)
    ensures r.Obj? && Keys(r.fields) == ["role", "content"]
    ensures Get(r.fields, "role") == Some(GetOr(m, "role", Str("user")))
    ensures GetOr(m, "content", Str("")).Str? ==>
      Get(r.fields, "content") ==
      Some(Arr([Obj([Field("type", Str("text")), Field("text", GetOr(m, "content", Str("")))])]))
    ensures !GetOr(m, "content", Str("")).Str? ==>
      Get(r.fields, "content") == Some(GetOr(m, "content", Str("")))
  {
    var content := GetOr(m, "content", Str(""));
    var c := if content.Str? then Arr([Obj([Field("type", Str("text")), Field("text", content)])])
             else content;
    Fields2(Field("role", GetOr(m, "role", Str("user"))), Field("content", c));
    Obj([Field("role", GetOr(m, "role", Str("user"))),
         Field("content",
           if content.Str? then Arr([Obj([Field("type", Str("text")), Field("text", content)])])
           else content)])
  }

  /** Every message is a dictionary, so `m.get` succeeds on each. */
  predicate AllDicts(ms: seq<Value>) {
    forall i :: 0 <= i < |ms| ==> ms[i].Obj?
  }

  /** The anthropic message list: the comprehension over `messages`, which calls
      `m.get` on every message and keeps the ones with a chat role. */
  function AnthropicMessages(ms: seq<Value>): (r: Result<seq<Value>>)
    ensures r.Ok? <==> AllDicts(ms)
    ensures r.Ok? ==> |r.value| <= |ms|
    ensures r.Ok? ==> forall k :: 0 <= k < |r.value| ==>
      r.value[k].Obj? && KeptRole(GetOr(r.value[k].fields, "role", Null))
  {
    if ms == [] then Ok([])
    else
      var role :- ServingUtils.GetAttr(ms[0], "role", Null);
      var rest :- AnthropicMessages(ms[1..]);
      if KeptRole(role) then Ok([AnthropicMessage(ms[0].fields)] + rest) else Ok(rest)
  }

  /** The filter keeps the order of the messages: the list for `a + b` is the list for
      `a` followed by the list for `b`. */
  lemma {:induction false} AnthropicMessagesAppend(a: seq<Value>, b: seq<Value>)
    requires AllDicts(a) && AllDicts(b)
    ensures AnthropicMessages(a + b).Ok?
    ensures AnthropicMessages(a + b).value ==
      AnthropicMessages(a).value + AnthropicMessages(b).value
  {
    assert AllDicts(a + b);
    if a != [] {
      assert (a + b)[0] == a[0];
      assert (a + b)[1..] == a[1..] + b;
      assert AllDicts(a[1..]);
      AnthropicMessagesAppend(a[1..], b);
      var role := GetOr(a[0].fields, "role", Null);
      var head := if KeptRole(role) then [AnthropicMessage(a[0].fields)] else [];
      assert AnthropicMessages(a).value == head + AnthropicMessages(a[1..]).value;
      assert AnthropicMessages(a + b).value == head + AnthropicMessages(a[1..] + b).value;
    } else {
      assert a + b == b;
    }
  }

  /** A single chat message survives the filter as its anthropic form; any other
      dictionary is dropped. */
  lemma AnthropicMessagesOne(m: Dict)
    ensures KeptRole(GetOr(m, "role", Null)) ==>
      AnthropicMessages([Obj(m)]) == Ok([AnthropicMessage(m)])
    ensures !KeptRole(GetOr(m, "role", Null)) ==> AnthropicMessages([Obj(m)]) == Ok([])
  {
    assert [Obj(m)][0] == Obj(m);
    assert [Obj(m)][1..] == [];
    assert ServingUtils.GetAttr(Obj(m), "role", Null) == Ok(GetOr(m, "role", Null));
    assert AnthropicMessages([]) == Ok([]);
    assert [AnthropicMessage(m)] + [] == [AnthropicMessage(m)];
  }

  /** The request body for `schema`: exactly the three fields for `openai-chat`, the
      filtered and wrapped messages for `anthropic`, and otherwise `raw_template or`
      the three fields. */
  function Payload(schema: string, messages: seq<Value>, maxTokens: int, temperature: string,
                   rawTemplate: Value): (r: Result<Value>)
    ensures schema == OPENAI_CHAT ==> r == Ok(DefaultPayload(messages, maxTokens, temperature))
    ensures schema == ANTHROPIC ==> (r.Ok? <==> AllDicts(messages))
    ensures schema == ANTHROPIC && r.Ok? ==>
      r.value == DefaultPayload(AnthropicMessages(messages).value, maxTokens, temperature)
    ensures schema != OPENAI_CHAT && schema != ANTHROPIC && Truthy(rawTemplate) ==>
      r == Ok(rawTemplate)
    ensures schema != OPENAI_CHAT && schema != ANTHROPIC && !Truthy(rawTemplate) ==>
      r == Ok(DefaultPayload(messages, maxTokens, temperature))
  {
    if schema == OPENAI_CHAT then Ok(DefaultPayload(messages, maxTokens, temperature))
    else if schema == ANTHROPIC then
      var mapped :- AnthropicMessages(messages);
      Ok(DefaultPayload(mapped, maxTokens, temperature))
    else Ok(Or(rawTemplate, DefaultPayload(messages, maxTokens, temperature)))
  }

  // ---------------------------------------------------------------------------
  // The reply

  /** `data.get("choices", [{}])[0].get("message", {}).get("content", "") or
      data.get("output_text", "")` and `data.get("usage", {}) or {}`; a body that is not a
      dictionary gives `("", {})`. */
  function ExtractResponse(data: Value): (r: Result<(Value, Value)>)
    ensures !data.Obj? ==> r == Ok((Str(""), Obj([])))
    ensures data.Obj? && !Has(data.fields, "choices") ==>
      r == Ok((GetOr(data.fields, "output_text", Str("")), Or(GetOr(data.fields, "usage", Obj([])), Obj([]))))
    ensures data.Obj? && GetOr(data.fields, "choices", Null) == Arr([]) ==> r.Err?
    ensures r.Ok? ==> Truthy(r.value.1) || r.value.1 == Obj([])
    ensures r.Ok? && data.Obj? && !Truthy(GetOr(data.fields, "usage", Null)) ==> r.value.1 == Obj([])
  {
    match data
    case Obj(d) =>
      var first :- ServingUtils.FirstChoice(GetOr(d, "choices", Arr([Obj([])])));
      var message :- ServingUtils.GetAttr(first, "message", Obj([]));
      var content :- ServingUtils.GetAttr(message, "content", Str(""));
      Ok((Or(content, GetOr(d, "output_text", Str(""))), Or(GetOr(d, "usage", Obj([])), Obj([]))))
    case _ => Ok((Str(""), Obj([])))
  }

  /** The chat-completions reply shape: non-empty text in the first choice is the
      content, whatever `output_text` says, and the usage passes through. */
  lemma ExtractChatCompletion(text: string, usage: Dict, rest: seq<Value>, extra: Dict)
    requires text != [] && usage != []
    ensures var data := Obj([Field("choices", Arr([Obj([Field("message",
                          Obj([Field("content", Str(text))]))])] + rest)),
                             Field("usage", Obj(usage))] + extra);
      ExtractResponse(data) == Ok((Str(text), Obj(usage)))
  {
    var message := Obj([Field("content", Str(text))]);
    var first := Obj([Field("message", message)]);
    var choices := Field("choices", Arr([first] + rest));
    var used := Field("usage", Obj(usage));
    var d := [choices, used] + extra;
    assert d == [choices] + ([used] + extra);
    GetCons(choices, [used] + extra, "choices");
    GetCons(choices, [used] + extra, "usage");
    GetCons(used, extra, "usage");
    Fields1(Field("message", message));
    Fields1(Field("content", Str(text)));
    assert ServingUtils.FirstChoice(Arr([first] + rest)) == Ok(first);
  }

  /** An empty first-choice content falls back to `output_text`. */
  lemma ExtractFallsBackToOutputText(out: Value, extra: Dict)
    ensures var data := Obj([Field("choices", Arr([Obj([Field("message",
                          Obj([Field("content", Str(""))]))])])),
                             Field("output_text", out)] + extra);
      ExtractResponse(data).Ok? && ExtractResponse(data).value.0 == out
  {
    var message := Obj([Field("content", Str(""))]);
    var first := Obj([Field("message", message)]);
    var choices := Field("choices", Arr([first]));
    var output := Field("output_text", out);
    var d := [choices, output] + extra;
    assert d == [choices] + ([output] + extra);
    GetCons(choices, [output] + extra, "choices");
    GetCons(choices, [output] + extra, "output_text");
    GetCons(output, extra, "output_text");
    Fields1(Field("message", message));
    Fields1(Field("content", Str("")));
    assert ServingUtils.FirstChoice(Arr([first])) == Ok(first);
  }

  /** `requests.post(url, headers={"Authorization": ...}, json=payload)`. */
  datatype Post = Post(url: string, authorization: string, payload: Value)

  /** The request, the post and the reading of its body, once the host and token are
      known. `post` stands for the HTTP call, `raise_for_status` and `r.json()`. */
  function Invoke(host: string, authorization: string, messages: seq<Value>, endpoint: string,
                  maxTokens: int, temperature: string, schema: string, rawTemplate: Value,
                  post: Post -> Result<Value>): (r: Result<(Value, Value)>)
    ensures Payload(schema, messages, maxTokens, temperature, rawTemplate).Err? ==> r.Err?
    ensures Payload(schema, messages, maxTokens, temperature, rawTemplate).Ok? ==>
      var p := Post(InvocationUrl(host, endpoint), authorization,
                    Payload(schema, messages, maxTokens, temperature, rawTemplate).value);
      (post(p).Err? ==> r == Err(post(p).error)) &&
      (post(p).Ok? ==> r == ExtractResponse(post(p).value))
  {
    var payload :- Payload(schema, messages, maxTokens, temperature, rawTemplate);
    var data :- post(Post(InvocationUrl(host, endpoint), authorization, payload));
    ExtractResponse(data)
  }

  /** `call_llm_via_serving` of the lakehouse app, which reads the credentials with
      `_host_token`. */
  function CallLlm(env: Env.Environ, messages: seq<Value>, endpoint: string, maxTokens: int,
                   temperature: string, schema: string, rawTemplate: Value,
                   post: Post -> Result<Value>): (r: Result<(Value, Value)>)
    ensures Host(env).None? ==> r.Err?
    ensures HostToken(env).Ok? ==>
      r == Invoke(HostToken(env).value.0, Bearer(HostToken(env).value.1), messages, endpoint,
                  maxTokens, temperature, schema, rawTemplate, post)
  {
    var (host, token) :- HostToken(env);
    Invoke(host, Bearer(token), messages, endpoint, maxTokens, temperature, schema, rawTemplate, post)
  }

  /** `call_llm_via_serving` of the root package, which reads the credentials with `_ws`. */
  function CallLlmChecked(env: Env.Environ, messages: seq<Value>, endpoint: string, maxTokens: int,
                          temperature: string, schema: string, rawTemplate: Value,
                          post: Post -> Result<Value>): (r: Result<(Value, Value)>)
    ensures !Present(Host(env)) || !Present(Token(env)) ==> r.Err?
    ensures Ws(env).Ok? ==>
      r == Invoke(Ws(env).value.0, Bearer(Some(Ws(env).value.1)), messages, endpoint,
                  maxTokens, temperature, schema, rawTemplate, post)
  {
    var (host, token) :- Ws(env);
    Invoke(host, Bearer(Some(token)), messages, endpoint, maxTokens, temperature, schema, rawTemplate, post)
  }

  /** With both settings present the two packages send the same request and read the
      same reply. */
  lemma CallsAgreeWhenConfigured(env: Env.Environ, messages: seq<Value>, endpoint: string,
                                 maxTokens: int, temperature: string, schema: string,
                                 rawTemplate: Value, post: Post -> Result<Value>)
    requires Present(Host(env)) && Present(Token(env))
    ensures CallLlm(env, messages, endpoint, maxTokens, temperature, schema, rawTemplate, post) ==
            CallLlmChecked(env, messages, endpoint, maxTokens, temperature, schema, rawTemplate, post)
  {
    WsAgreesWithHostToken(env);
  }

  // ---------------------------------------------------------------------------
  // Statements

  /** `{"name": k, "value": v}`. */
  function SqlParam(f: Field): (p: Value)
    ensures p.Obj? && Keys(p.fields) == ["name", "value"]
    ensures Get(p.fields, "name") == Some(Str(f.key)) && Get(p.fields, "value") == Some(f.val)
  {
    Fields2(Field("name", Str(f.key)), Field("value", f.val));
    Obj([Field("name", Str(f.key)), Field("value", f.val)])
  }

  /** `[{"name": k, "value": v} for k, v in (params or {}).items()]`. */
  function SqlParams(params: Option<Dict>): (r: seq<Value>)
    ensures params.None? ==> r == []
    ensures params.Some? ==> |r| == |params.value|
    ensures params.Some? ==> forall i :: 0 <= i < |r| ==>
      r[i].Obj? && Keys(r[i].fields) == ["name", "value"] &&
      Get(r[i].fields, "name") == Some(Str(params.value[i].key)) &&
      Get(r[i].fields, "value") == Some(params.value[i].val)
  {
    match params
    case None => []
    case Some(d) =>
      seq(|d|, i requires 0 <= i < |d| => SqlParam(d[i]))
  }

  /** The warehouse list of the workspace, as the client returns it. */
  datatype Warehouse = Warehouse(id: string, name: string)

  /** `execute_and_wait(...)`: the statement the client sends. */
  datatype Statement = Statement(warehouseId: string, catalog: string, schema: string,
                                 statement: string, parameters: seq<Value>)

  /** The first `_warehouse_id`, which the later definition replaces. */
  function EarlyWarehouseId(env: Env.Environ): (r: Result<string>)
    ensures r.Ok? <==> Present(Env.EitherOf(env, "APP_SQL_WAREHOUSE_ID", "SQL_WAREHOUSE_ID"))
  {
    var wid := Env.EitherOf(env, "APP_SQL_WAREHOUSE_ID", "SQL_WAREHOUSE_ID");
    if Present(wid) then Ok(wid.value)
    else Err("Set APP_SQL_WAREHOUSE_ID with the ID of a SQL Warehouse.")
  }

  function NameOf(w: Warehouse): string {
    w.name
  }

  /** The index of the first warehouse called `name`, or `|whs|`. */
  function FirstNamed(whs: seq<Warehouse>, name: string): nat {
    Seqs.IndexOfKey(whs, NameOf, name)
  }

  /** The `_warehouse_id` in force: the explicit id wins; else the first warehouse with
      the configured name; else an error. */
  function WarehouseIdOf(env: Env.Environ, whs: seq<Warehouse>): (r: Result<string>)
    ensures EarlyWarehouseId(env).Ok? ==> r == EarlyWarehouseId(env)
    ensures EarlyWarehouseId(env).Err? && !Present(Env.Lookup(env, "APP_SQL_WAREHOUSE_NAME")) ==>
      r.Err?
    ensures EarlyWarehouseId(env).Err? && Present(Env.Lookup(env, "APP_SQL_WAREHOUSE_NAME"))
            && WClient(env).Ok? ==>
      var name := Env.Lookup(env, "APP_SQL_WAREHOUSE_NAME").value;
      (r.Ok? <==> exists j :: 0 <= j < |whs| && whs[j].name == name) &&
      (r.Ok? ==> r.value == whs[FirstNamed(whs, name)].id)
  {
    var wid := Env.EitherOf(env, "APP_SQL_WAREHOUSE_ID", "SQL_WAREHOUSE_ID");
    if Present(wid) then Ok(wid.value)
    else
      var name := Env.Lookup(env, "APP_SQL_WAREHOUSE_NAME");
      if Present(name) then
        var _ :- WClient(env);
        var i := FirstNamed(whs, name.value);
        if i < |whs| then Ok(whs[i].id)
        else Err("SQL Warehouse named '" + name.value + "' not found or not visible.")
      else Err("Set APP_SQL_WAREHOUSE_ID (recommended) or APP_SQL_WAREHOUSE_NAME.")
  }

  /** The later definition answers wherever the earlier one did, and differs only by
      looking the warehouse up by name. */
  lemma LaterWarehouseIdExtendsEarlier(env: Env.Environ, whs: seq<Warehouse>)
    ensures EarlyWarehouseId(env).Ok? ==> WarehouseIdOf(env, whs) == EarlyWarehouseId(env)
    ensures WarehouseIdOf(env, whs).Ok? && EarlyWarehouseId(env).Err? ==>
      Present(Env.Lookup(env, "APP_SQL_WAREHOUSE_NAME")) &&
      exists j :: 0 <= j < |whs| && whs[j].id == WarehouseIdOf(env, whs).value
  {
    if WarehouseIdOf(env, whs).Ok? && EarlyWarehouseId(env).Err? {
      var i := FirstNamed(whs, Env.Lookup(env, "APP_SQL_WAREHOUSE_NAME").value);
      assert whs[i].id == WarehouseIdOf(env, whs).value;
    }
  }

  /** The later `_warehouse_id`, with the loop over the warehouse list. */
  method WarehouseId(env: Env.Environ, whs: seq<Warehouse>) returns (r: Result<string>)
    ensures r == WarehouseIdOf(env, whs)
  {
    var wid := Env.EitherOf(env, "APP_SQL_WAREHOUSE_ID", "SQL_WAREHOUSE_ID");
    if Present(wid) {
      return Ok(wid.value);
    }
    var name := Env.Lookup(env, "APP_SQL_WAREHOUSE_NAME");
    if !Present(name) {
      return Err("Set APP_SQL_WAREHOUSE_ID (recommended) or APP_SQL_WAREHOUSE_NAME.");
    }
    var client := WClient(env);
    if client.Err? {
      return Err(client.error);
    }
    for i := 0 to |whs|
      invariant forall j :: 0 <= j < i ==> whs[j].name != name.value
    {
      if whs[i].name == name.value {
        assert FirstNamed(whs, name.value) == i;
        return Ok(whs[i].id);
      }
    }
    assert FirstNamed(whs, name.value) == |whs|;
    r := Err("SQL Warehouse named '" + name.value + "' not found or not visible.");
  }

  /** `sql_exec`: the client, then the warehouse, then the statement; `exec` stands for
      `execute_and_wait(...).as_dict()`. */
  method SqlExec(env: Env.Environ, whs: seq<Warehouse>, exec: Statement -> Result<Dict>,
                 statement: string, catalog: string, schema: string, params: Option<Dict>)
    returns (r: Result<Dict>)
    ensures WClient(env).Err? ==> r == Err(WClient(env).error)
    ensures WClient(env).Ok? && WarehouseIdOf(env, whs).Err? ==> r == Err(WarehouseIdOf(env, whs).error)
    ensures WClient(env).Ok? && WarehouseIdOf(env, whs).Ok? ==>
      r == exec(Statement(WarehouseIdOf(env, whs).value, catalog, schema, statement, SqlParams(params)))
  {
    var _ :- WClient(env);
    var wid :- WarehouseId(env, whs);
    r := exec(Statement(wid, catalog, schema, statement, SqlParams(params)));
  }

  // ---------------------------------------------------------------------------
  // Rows

  /** Python iteration over a value: a list gives its items, a string its characters
      and a dictionary its keys. */
  function Iterated(v: Value): (r: Result<seq<Value>>)
    ensures v.Arr? ==> r == Ok(v.items)
    ensures v.Null? || v.Int? || v.Bool? || v.Float? ==> r.Err?
  {
    match v
    case Arr(items) => Ok(items)
    case Str(s) => Ok(seq(|s|, i requires 0 <= i < |s| => Str([s[i]])))
    case Obj(fields) => Ok(seq(|fields|, i requires 0 <= i < |fields| => Str(fields[i].key)))
    case _ => Err("'" + TypeName(v) + "' object is not iterable")
  }

  /** `c["name"]` for one column description. Dictionary keys are strings in this model,
      so a column whose name is not a string is reported as an error. */
  function ColumnName(c: Value): (r: Result<string>)
    ensures c.Obj? && Get(c.fields, "name").Some? && Get(c.fields, "name").value.Str? ==>
      r == Ok(Get(c.fields, "name").value.s)
    ensures !c.Obj? ==> r.Err?
  {
    match c
    case Obj(d) =>
      (match Get(d, "name")
       case None => Err("'name'")
       case Some(n) => if n.Str? then Ok(n.s) else Err("column name is not a string"))
    case Str(_) => Err("string indices must be integers, not 'str'")
    case Arr(_) => Err("list indices must be integers or slices, not str")
    case _ => Err("'" + TypeName(c) + "' object is not subscriptable")
  }

  /** `[c["name"] for c in columns]`. */
  function ColumnNames(cs: seq<Value>): (r: Result<seq<string>>)
    ensures r.Ok? ==> |r.value| == |cs|
    ensures r.Ok? ==> forall i :: 0 <= i < |cs| ==> ColumnName(cs[i]) == Ok(r.value[i])
  {
    if cs == [] then Ok([])
    else
      var n :- ColumnName(cs[0]);
      var rest :- ColumnNames(cs[1..]);
      Ok([n] + rest)
  }

  /** `{c: v for c, v in zip(cols, vals)}` over the first `n` pairs: each pair is
      stored in turn, so a repeated column keeps its first place and its last value. */
  function RowOf(cols: seq<string>, vals: seq<Value>, n: nat): Dict
    requires n <= |cols| && n <= |vals|
  {
    if n == 0 then [] else Put(RowOf(cols, vals, n - 1), cols[n - 1], vals[n - 1])
  }

  /** `zip` stops at the shorter of the two. */
  function Zipped(cols: seq<string>, vals: seq<Value>): Dict {
    RowOf(cols, vals, if |cols| <= |vals| then |cols| else |vals|)
  }

  predicate Distinct(cols: seq<string>) {
    forall i, j :: 0 <= i < j < |cols| ==> cols[i] != cols[j]
  }

  /** A key outside the zipped columns is not in the row. */
  lemma {:induction false} RowOfAbsent(cols: seq<string>, vals: seq<Value>, n: nat, k: string)
    requires n <= |cols| && n <= |vals|
    requires forall j :: 0 <= j < n ==> cols[j] != k
    ensures Get(RowOf(cols, vals, n), k) == None
  {
    if n > 0 {
      RowOfAbsent(cols, vals, n - 1, k);
      var d := RowOf(cols, vals, n - 1);
      var r := Put(d, cols[n - 1], vals[n - 1]);
      assert RowOf(cols, vals, n) == r;
      assert cols[n - 1] != k;
      assert Get(r, k) == Get(d, k);
    } else {
      assert RowOf(cols, vals, n) == [];
    }
  }

  /** With distinct column names, the row has the zipped columns as its keys, in order. */
  lemma {:induction false} RowOfKeys(cols: seq<string>, vals: seq<Value>, n: nat)
    requires n <= |cols| && n <= |vals| && Distinct(cols)
    ensures Keys(RowOf(cols, vals, n)) == cols[..n]
  {
    if n > 0 {
      RowOfKeys(cols, vals, n - 1);
      RowOfKeysStep(cols, vals, n);
    }
  }

  lemma RowOfKeysStep(cols: seq<string>, vals: seq<Value>, n: nat)
    requires 0 < n <= |cols| && n <= |vals| && Distinct(cols)
    requires Keys(RowOf(cols, vals, n - 1)) == cols[..n - 1]
    ensures Keys(RowOf(cols, vals, n)) == cols[..n]
  {
    var k := cols[n - 1];
    var d := RowOf(cols, vals, n - 1);
    assert !Has(d, k) by {
      RowOfAbsent(cols, vals, n - 1, k);
    }
    assert cols[..n - 1] + [k] == cols[..n];
  }

  /** With distinct column names, each zipped column holds the value in its position. */
  lemma {:induction false} RowOfValue(cols: seq<string>, vals: seq<Value>, n: nat, i: nat)
    requires i < n <= |cols| && n <= |vals| && Distinct(cols)
    ensures Get(RowOf(cols, vals, n), cols[i]) == Some(vals[i])
  {
    if i < n - 1 {
      RowOfValue(cols, vals, n - 1, i);
      var d := RowOf(cols, vals, n - 1);
      assert cols[i] != cols[n - 1];
      assert Get(Put(d, cols[n - 1], vals[n - 1]), cols[i]) == Get(d, cols[i]);
    }
  }

  /** The rows of a result, one per `data_array` entry, each zipped with the columns;
      the first entry that cannot be iterated stops the loop. */
  function RowsOf(cols: seq<string>, entries: seq<Value>): (r: Result<seq<Dict>>)
    ensures r.Ok? ==> |r.value| == |entries|
  {
    if entries == [] then Ok([])
    else
      var rows :- RowsOf(cols, entries[..|entries| - 1]);
      var vals :- Iterated(entries[|entries| - 1]);
      Ok(rows + [Zipped(cols, vals)])
  }

  /** An error in a prefix is the error of the whole. */
  lemma {:induction false} RowsOfPrefixErr(cols: seq<string>, entries: seq<Value>, i: nat)
    requires i <= |entries| && RowsOf(cols, entries[..i]).Err?
    ensures RowsOf(cols, entries) == RowsOf(cols, entries[..i])
    decreases |entries| - i
  {
    if i < |entries| {
      var next := entries[..i + 1];
      assert next[..i] == entries[..i];
      assert RowsOf(cols, next) == RowsOf(cols, entries[..i]);
      RowsOfPrefixErr(cols, entries, i + 1);
    } else {
      assert entries[..i] == entries;
    }
  }

  /** Each row is the zip of the columns with its own entry. */
  lemma {:induction false} RowsOfEntries(cols: seq<string>, entries: seq<Value>)
    requires RowsOf(cols, entries).Ok?
    ensures forall k :: 0 <= k < |entries| ==>
      Iterated(entries[k]).Ok? && RowsOf(cols, entries).value[k] == Zipped(cols, Iterated(entries[k]).value)
  {
    if entries != [] {
      var init := entries[..|entries| - 1];
      RowsOfEntries(cols, init);
      forall k | 0 <= k < |entries| - 1
        ensures entries[k] == init[k]
      {
      }
    }
  }

  /** The columns and data of a statement result, each defaulting to empty. */
  function ResultParts(data: Dict): Result<(seq<string>, seq<Value>)> {
    var result := GetOr(data, "result", Obj([]));
    var schema :- ServingUtils.GetAttr(result, "schema", Obj([]));
    var columns :- ServingUtils.GetAttr(schema, "columns", Arr([]));
    var cs :- Iterated(columns);
    var cols :- ColumnNames(cs);
    var arr :- ServingUtils.GetAttr(result, "data_array", Arr([]));
    var entries :- Iterated(arr);
    Ok((cols, entries))
  }

  /** What `sql_fetch_all` makes of a statement result. */
  function FetchedRows(data: Dict): Result<seq<Dict>> {
    var (cols, entries) :- ResultParts(data);
    RowsOf(cols, entries)
  }

  /** A reply without a result gives no rows. */
  lemma NoResultNoRows(data: Dict)
    requires !Has(data, "result")
    ensures FetchedRows(data) == Ok([])
  {
    var empty := Obj([]);
    assert GetOr(data, "result", empty) == empty;
    assert ServingUtils.GetAttr(empty, "schema", Obj([])) == Ok(empty);
    assert ServingUtils.GetAttr(empty, "columns", Arr([])) == Ok(Arr([]));
    assert ColumnNames([]) == Ok([]);
    assert ServingUtils.GetAttr(empty, "data_array", Arr([])) == Ok(Arr([]));
    assert ResultParts(data) == Ok(([], []));
  }

  /** The loop of `sql_fetch_all` over the `data_array` entries. */
  method CollectRows(data: Dict) returns (rows: Result<seq<Dict>>)
    ensures rows == FetchedRows(data)
  {
    var parts :- ResultParts(data);
    var (cols, entries) := parts;
    var acc: seq<Dict> := [];
    for i := 0 to |entries|
      invariant RowsOf(cols, entries[..i]) == Ok(acc)
    {
      var vals := Iterated(entries[i]);
      if vals.Err? {
        assert entries[..i + 1][..i] == entries[..i];
        RowsOfPrefixErr(cols, entries, i + 1);
        return Err(vals.error);
      }
      assert entries[..i + 1][..i] == entries[..i];
      acc := acc + [Zipped(cols, vals.value)];
    }
    assert entries[..|entries|] == entries;
    rows := Ok(acc);
  }

  /** `sql_fetch_all`. */
  method SqlFetchAll(env: Env.Environ, whs: seq<Warehouse>, exec: Statement -> Result<Dict>,
                     statement: string, catalog: string, schema: string)
    returns (rows: Result<seq<Dict>>)
    ensures WClient(env).Err? ==> rows.Err?
    ensures WClient(env).Ok? && WarehouseIdOf(env, whs).Ok? ==>
      var data := exec(Statement(WarehouseIdOf(env, whs).value, catalog, schema, statement, []));
      (data.Err? ==> rows.Err?) && (data.Ok? ==> rows == FetchedRows(data.value))
  {
    var data :- SqlExec(env, whs, exec, statement, catalog, schema, None);
    rows := CollectRows(data);
  }

  /** `rows[0]["user"] if rows else "unknown_user"`. */
  function CurrentUserOf(rows: seq<Dict>): (r: Result<Value>)
    ensures rows == [] ==> r == Ok(Str(UNKNOWN_USER))
    ensures rows != [] ==> (r.Ok? <==> Has(rows[0], "user"))
    ensures rows != [] && r.Ok? ==> Get(rows[0], "user") == Some(r.value)
  {
    if rows == [] then Ok(Str(UNKNOWN_USER))
    else match Get(rows[0], "user")
      case Some(u) => Ok(u)
      case None => Err("'user'")
  }

  /** The reply to `SELECT current_user() AS user` yields the name it carries. */
  lemma CurrentUserFromReply(user: string)
    ensures var data := [Field("result", Obj([
              Field("schema", Obj([Field("columns", Arr([Obj([Field("name", Str("user"))])]))])),
              Field("data_array", Arr([Arr([Str(user)])]))]))];
      FetchedRows(data).Ok? && CurrentUserOf(FetchedRows(data).value) == Ok(Str(user))
  {
    var col := Obj([Field("name", Str("user"))]);
    var columns := Field("columns", Arr([col]));
    var schema := Field("schema", Obj([columns]));
    var dataArray := Field("data_array", Arr([Arr([Str(user)])]));
    var result := Field("result", Obj([schema, dataArray]));
    Fields1(result);
    Fields2(schema, dataArray);
    Fields1(columns);
    Fields1(Field("name", Str("user")));
    var cols := ["user"];
    assert ColumnName(col) == Ok("user");
    assert [col][0] == col;
    assert [col][1..] == [];
    assert ColumnNames([col][1..]) == Ok([]);
    assert ["user"] + [] == cols;
    assert ColumnNames([col]) == Ok(cols);
    var entries := [Arr([Str(user)])];
    assert ResultParts([result]) == Ok((cols, entries));
    assert entries[..0] == [];
    var row := Zipped(cols, [Str(user)]);
    assert RowOf(cols, [Str(user)], 0) == [];
    assert cols[0] == "user";
    assert row == Put([], "user", Str(user));
    assert RowsOf(cols, entries[..0]) == Ok([]);
    assert entries[|entries| - 1] == Arr([Str(user)]);
    assert Iterated(Arr([Str(user)])) == Ok([Str(user)]);
    assert [] + [row] == [row];
    assert RowsOf(cols, entries) == Ok([row]);
  }

  /** `get_current_user`. */
  method GetCurrentUser(env: Env.Environ, whs: seq<Warehouse>, exec: Statement -> Result<Dict>,
                        catalog: string, schema: string)
    returns (user: Result<Value>)
    ensures WClient(env).Err? ==> user.Err?
    ensures WClient(env).Ok? && WarehouseIdOf(env, whs).Ok? ==>
      var data := exec(Statement(WarehouseIdOf(env, whs).value, catalog, schema,
                                 "SELECT current_user() AS user", []));
      data.Ok? && FetchedRows(data.value).Ok? ==>
        user == CurrentUserOf(FetchedRows(data.value).value)
  {
    var rows :- SqlFetchAll(env, whs, exec, "SELECT current_user() AS user", catalog, schema);
    user := CurrentUserOf(rows);
  }
}
