/** The lakehouse chat front end: its configuration with the environment fallback, the
    filter of allowed models, the session defaults, the table and volume names, the
    escaping of stored messages, the theme defaults, the new-chat model choice and one
    chat turn. The session is an object whose `state` the methods update; the SQL
    warehouse and the serving endpoint are parameters holding what they returned. */
module LakehouseApp {
  import opened Wrappers
  import opened Json
  import Env
  import Text
  import SqlText
  import Endpoints
  import Uploads
  import Messages

  // ---------------------------------------------------------------------------
  // Configuration

  const ALLOWED_VAR := "APP_ALLOWED_MODEL_IDS"
  const DEFAULT_MODEL_ID := "sonnet-4"
  const DEFAULT_MODEL_NAME := "Claude Sonnet 4"
  const DEFAULT_MODEL_ENDPOINT := "databricks-claude-sonnet-4"
  const OPENAI_CHAT := "openai-chat"
  const APP_TITLE := "Databricks Chat App"

  datatype Features = Features(enableRag: bool, enableSqlTool: bool, enableBudgets: bool)

  /** The `app` section of the configuration. */
  datatype AppConfig = AppConfig(
    title: string, catalog: string, schema: string, volume: string,
    allowedModelIds: seq<Value>, features: Features)

  /** `[m.strip() for m in os.environ.get("APP_ALLOWED_MODEL_IDS", "sonnet-4").split(",")
      if m.strip()]`. */
  function AllowList(env: Env.Environ): (r: seq<string>)
    ensures forall k :: 0 <= k < |r| ==> r[k] != [] && Text.Trimmed(r[k])
  {
    Endpoints.NonBlank(AllowPieces(env))
  }

  /** The comma-separated pieces of the setting, before trimming. */
  function AllowPieces(env: Env.Environ): seq<string> {
    Text.Split(Env.GetOr(env, ALLOWED_VAR, DEFAULT_MODEL_ID), ',')
  }

  /** Without the variable the allow list is the default model alone. */
  lemma AllowListDefault(env: Env.Environ)
    requires ALLOWED_VAR !in env
    ensures AllowList(env) == [DEFAULT_MODEL_ID]
  {
    assert Text.Trimmed(DEFAULT_MODEL_ID) by {
      Text.StripTrimmed(DEFAULT_MODEL_ID);
      assert DEFAULT_MODEL_ID[0] == 's' && DEFAULT_MODEL_ID[|DEFAULT_MODEL_ID| - 1] == '4';
    }
    assert Text.Join(",", [DEFAULT_MODEL_ID]) == DEFAULT_MODEL_ID;
    Endpoints.TokensOfJoin([DEFAULT_MODEL_ID]);
  }

  /** A list of ids written out with commas reads back as itself. */
  lemma AllowListOfJoin(env: Env.Environ, ids: seq<string>)
    requires ids != []
    requires forall k :: 0 <= k < |ids| ==> ids[k] != [] && Text.Trimmed(ids[k]) && ',' !in ids[k]
    requires ALLOWED_VAR in env && env[ALLOWED_VAR] == Text.Join(",", ids)
    ensures AllowList(env) == ids
  {
    Endpoints.TokensOfJoin(ids);
  }

  /** The allow list is empty exactly when every comma-separated piece is blank. */
  lemma AllowListEmptyIff(env: Env.Environ)
    ensures AllowList(env) == [] <==>
      forall k :: 0 <= k < |AllowPieces(env)| ==> Text.IsBlank(AllowPieces(env)[k])
  {
    Endpoints.NoTokensIffAllBlank(AllowPieces(env));
  }

  /** The ids as the string values a loaded configuration holds. */
  function Strs(ids: seq<string>): (r: seq<Value>)
    ensures |r| == |ids|
    ensures forall k :: 0 <= k < |ids| ==> r[k] == Str(ids[k])
  {
    if ids == [] then [] else [Str(ids[0])] + Strs(ids[1..])
  }

  lemma StrsHas(ids: seq<string>, id: string)
    ensures Str(id) in Strs(ids) <==> id in ids
  {
    if id in ids {
      var k :| 0 <= k < |ids| && ids[k] == id;
      assert Strs(ids)[k] == Str(id);
    }
  }

  /** The configuration built from the environment when the configuration files are
      missing. */
  function EnvConfig(env: Env.Environ): (c: AppConfig)
    ensures c.allowedModelIds == Strs(AllowList(env))
    ensures "APP_CATALOG" !in env ==> c.catalog == "app_catalog"
    ensures "APP_SCHEMA" !in env ==> c.schema == "app"
    ensures "APP_VOLUME" !in env ==> c.volume == "user_files"
  {
    AppConfig(APP_TITLE,
              Env.GetOr(env, "APP_CATALOG", "app_catalog"),
              Env.GetOr(env, "APP_SCHEMA", "app"),
              Env.GetOr(env, "APP_VOLUME", "user_files"),
              Strs(AllowList(env)),
              Features(false, false, true))
  }

  function DefaultModelId(env: Env.Environ): string {
    Env.GetOr(env, "APP_DEFAULT_MODEL_ID", DEFAULT_MODEL_ID)
  }

  /** The single catalog entry of the environment fallback. */
  function DefaultModel(env: Env.Environ): Dict {
    [Field("id", Str(DefaultModelId(env))),
     Field("display_name", Str(Env.GetOr(env, "APP_DEFAULT_MODEL_NAME", DEFAULT_MODEL_NAME))),
     Field("provider", Str("serving")),
     Field("endpoint", Str(Env.GetOr(env, "APP_DEFAULT_MODEL_ENDPOINT", DEFAULT_MODEL_ENDPOINT))),
     Field("schema", Str(Env.GetOr(env, "APP_DEFAULT_MODEL_SCHEMA", OPENAI_CHAT))),
     Field("allowed", Bool(true)),
     Field("context_window", Int(200000)),
     Field("max_output_tokens", Int(2048))]
  }

  lemma DefaultModelFields(env: Env.Environ)
    ensures Get(DefaultModel(env), "id") == Some(Str(DefaultModelId(env)))
    ensures Get(DefaultModel(env), "allowed") == Some(Bool(true))
  {
    var d := DefaultModel(env);
    assert Get(d, "allowed") == Get(d[1..], "allowed");
    assert Get(d[1..], "allowed") == Get(d[2..], "allowed") by { assert d[1..][1..] == d[2..]; }
    assert Get(d[2..], "allowed") == Get(d[3..], "allowed") by { assert d[2..][1..] == d[3..]; }
    assert Get(d[3..], "allowed") == Get(d[4..], "allowed") by { assert d[3..][1..] == d[4..]; }
    assert Get(d[4..], "allowed") == Get(d[5..], "allowed") by { assert d[4..][1..] == d[5..]; }
    assert d[5..][0] == Field("allowed", Bool(true));
  }

  // ---------------------------------------------------------------------------
  // Allowed models

  /** Whether `allowed_models` keeps a catalog entry: with a non-empty allow list its
      `id` must be listed, otherwise its `allowed` flag (default false) must be true. */
  predicate Kept(allowIds: seq<Value>, m: Dict) {
    if allowIds != [] then GetOr(m, "id", Null) in allowIds
    else Truthy(GetOr(m, "allowed", Bool(false)))
  }

  /** `allowed_models`: the kept catalog entries, in catalog order. */
  function AllowedModels(allowIds: seq<Value>, models: seq<Dict>): (r: seq<Dict>)
    ensures |r| <= |models|
    decreases |models|
  {
    if models == [] then []
    else
      var last := models[|models| - 1];
      AllowedModels(allowIds, models[..|models| - 1]) + (if Kept(allowIds, last) then [last] else [])
  }

  /** An entry is in the result exactly when it is in the catalog and kept. */
  lemma {:induction false} AllowedModelsMembers(allowIds: seq<Value>, models: seq<Dict>, m: Dict)
    ensures m in AllowedModels(allowIds, models) <==> m in models && Kept(allowIds, m)
    decreases |models|
  {
    if models != [] {
      var init := models[..|models| - 1];
      AllowedModelsMembers(allowIds, init, m);
      assert models == init + [models[|models| - 1]];
    }
  }

  /** Filtering a catalog in two parts gives the two filtered parts in order. */
  lemma {:induction false} AllowedModelsAppend(allowIds: seq<Value>, a: seq<Dict>, b: seq<Dict>)
    ensures AllowedModels(allowIds, a + b) == AllowedModels(allowIds, a) + AllowedModels(allowIds, b)
    decreases |b|
  {
    if b == [] {
      assert a + b == a;
    } else {
      var init := b[..|b| - 1];
      AllowedModelsAppend(allowIds, a, init);
      assert (a + b)[..|a + b| - 1] == a + init;
      assert (a + b)[|a + b| - 1] == b[|b| - 1];
    }
  }

  /** In the environment fallback the default model is offered exactly when the allow list
      is empty or names it; otherwise nothing is offered. */
  lemma EnvFallbackModels(env: Env.Environ)
    ensures AllowList(env) == [] || DefaultModelId(env) in AllowList(env) ==>
      AllowedModels(EnvConfig(env).allowedModelIds, [DefaultModel(env)]) == [DefaultModel(env)]
    ensures !(AllowList(env) == [] || DefaultModelId(env) in AllowList(env)) ==>
      AllowedModels(EnvConfig(env).allowedModelIds, [DefaultModel(env)]) == []
  {
    DefaultModelFields(env);
    StrsHas(AllowList(env), DefaultModelId(env));
    var ms := [DefaultModel(env)];
    assert ms[..0] == [];
  }

  /** With no variables set, the catalog's only model is offered. */
  lemma EnvFallbackDefault(env: Env.Environ)
    requires ALLOWED_VAR !in env && "APP_DEFAULT_MODEL_ID" !in env
    ensures AllowedModels(EnvConfig(env).allowedModelIds, [DefaultModel(env)]) == [DefaultModel(env)]
  {
    AllowListDefault(env);
    EnvFallbackModels(env);
  }

  // ---------------------------------------------------------------------------
  // Session defaults

  type State = map<string, Value>

  /** The defaults `ensure_session_state` writes, in order. */
  const SESSION_DEFAULTS: seq<(string, Value)> := [
    ("user_id", Null), ("tenant_id", Str("default")), ("current_conv", Null),
    ("selected_model_id", Null), ("temperature", Float("0.2")), ("max_tokens", Int(768))]

  predicate DistinctKeys(ds: seq<(string, Value)>) {
    forall a, b :: 0 <= a < b < |ds| ==> ds[a].0 != ds[b].0
  }

  /** The state after writing each default whose key is still missing, in order. */
  function WithDefaults(s: State, ds: seq<(string, Value)>): State
    decreases |ds|
  {
    if ds == [] then s
    else
      var prior := WithDefaults(s, ds[..|ds| - 1]);
      var k := ds[|ds| - 1].0;
      if k in prior then prior else prior[k := ds[|ds| - 1].1]
  }

  /** A key that is already set keeps its value. */
  lemma {:induction false} WithDefaultsKeeps(s: State, ds: seq<(string, Value)>, k: string)
    requires k in s
    ensures k in WithDefaults(s, ds) && WithDefaults(s, ds)[k] == s[k]
    decreases |ds|
  {
    if ds != [] {
      WithDefaultsKeeps(s, ds[..|ds| - 1], k);
    }
  }

  /** The keys afterwards are the keys before and the keys of the defaults. */
  lemma {:induction false} WithDefaultsKeys(s: State, ds: seq<(string, Value)>)
    ensures WithDefaults(s, ds).Keys == s.Keys + set j | 0 <= j < |ds| :: ds[j].0
    decreases |ds|
  {
    if ds != [] {
      var init := ds[..|ds| - 1];
      WithDefaultsKeys(s, init);
      var before := set j | 0 <= j < |init| :: init[j].0;
      var after := set j | 0 <= j < |ds| :: ds[j].0;
      assert after == before + {ds[|ds| - 1].0} by {
        forall x | x in after
          ensures x in before + {ds[|ds| - 1].0}
        {
          var j :| 0 <= j < |ds| && ds[j].0 == x;
          if j < |init| {
            assert init[j] == ds[j];
          }
        }
        forall x | x in before
          ensures x in after
        {
          var j :| 0 <= j < |init| && init[j].0 == x;
          assert ds[j] == init[j];
        }
      }
    }
  }

  /** A missing key gets its default, when the defaults name each key once. */
  lemma {:induction false} WithDefaultsFills(s: State, ds: seq<(string, Value)>, j: nat)
    requires DistinctKeys(ds)
    requires j < |ds| && ds[j].0 !in s
    ensures ds[j].0 in WithDefaults(s, ds) && WithDefaults(s, ds)[ds[j].0] == ds[j].1
    decreases |ds|
  {
    var init := ds[..|ds| - 1];
    if j < |init| {
      assert init[j] == ds[j];
      assert DistinctKeys(init) by {
        forall a, b | 0 <= a < b < |init|
          ensures init[a].0 != init[b].0
        {
          assert init[a] == ds[a] && init[b] == ds[b];
        }
      }
      WithDefaultsFills(s, init, j);
    } else {
      WithDefaultsKeys(s, init);
      var k := ds[j].0;
      assert k !in WithDefaults(s, init) by {
        forall i | 0 <= i < |init|
          ensures init[i].0 != k
        {
          assert init[i] == ds[i];
        }
      }
    }
  }

  /** When every default's key is set, nothing changes. */
  lemma {:induction false} WithDefaultsComplete(s: State, ds: seq<(string, Value)>)
    requires forall j :: 0 <= j < |ds| ==> ds[j].0 in s
    ensures WithDefaults(s, ds) == s
    decreases |ds|
  {
    if ds != [] {
      var init := ds[..|ds| - 1];
      assert forall j :: 0 <= j < |init| ==> init[j].0 in s by {
        forall j | 0 <= j < |init|
          ensures init[j].0 in s
        {
          assert init[j] == ds[j];
        }
      }
      WithDefaultsComplete(s, init);
    }
  }

  /** Writing the defaults twice is writing them once. */
  lemma WithDefaultsIdempotent(s: State, ds: seq<(string, Value)>)
    ensures WithDefaults(WithDefaults(s, ds), ds) == WithDefaults(s, ds)
  {
    WithDefaultsKeys(s, ds);
    WithDefaultsComplete(WithDefaults(s, ds), ds);
  }

  lemma SessionDefaultsDistinct()
    ensures DistinctKeys(SESSION_DEFAULTS)
  {
    forall a, b | 0 <= a < b < |SESSION_DEFAULTS|
      ensures SESSION_DEFAULTS[a].0 != SESSION_DEFAULTS[b].0
    {
      assert |SESSION_DEFAULTS[a].0| != |SESSION_DEFAULTS[b].0|;
    }
  }

  /** After `ensure_session_state` every session key is set: the ones set before keep
      their values and each missing one holds its default. */
  lemma SessionStateFilled(s: State, j: nat)
    requires j < |SESSION_DEFAULTS|
    ensures SESSION_DEFAULTS[j].0 in WithDefaults(s, SESSION_DEFAULTS)
    ensures SESSION_DEFAULTS[j].0 in s ==>
      WithDefaults(s, SESSION_DEFAULTS)[SESSION_DEFAULTS[j].0] == s[SESSION_DEFAULTS[j].0]
    ensures SESSION_DEFAULTS[j].0 !in s ==>
      WithDefaults(s, SESSION_DEFAULTS)[SESSION_DEFAULTS[j].0] == SESSION_DEFAULTS[j].1
  {
    var k := SESSION_DEFAULTS[j].0;
    if k in s {
      WithDefaultsKeeps(s, SESSION_DEFAULTS, k);
    } else {
      SessionDefaultsDistinct();
      WithDefaultsFills(s, SESSION_DEFAULTS, j);
    }
  }

  /** `st.session_state.get(k, default)`. */
  function StateGet(s: State, k: string, default: Value): Value {
    if k in s then s[k] else default
  }

  // ---------------------------------------------------------------------------
  // Stored messages

  /** What one character of a message becomes between the `$$` delimiters: a dollar
      gains a backslash in front, a quote is doubled. */
  function EscapedChar(c: char): string {
    if c == '$' then "\\$" else if c == '\'' then "''" else [c]
  }

  /** The escaping in `save_message`: every `$` is replaced by `\$`, then every quote
      is doubled. */
  function MessageLiteral(content: string): string {
    SqlText.Esc(Some(Text.ReplaceChar(content, '$', "\\$")))
  }

  /** The two replacements amount to escaping one character at a time. */
  lemma MessageLiteralCons(content: string)
    requires content != []
    ensures MessageLiteral(content) == EscapedChar(content[0]) + MessageLiteral(content[1..])
  {
    var first := if content[0] == '$' then "\\$" else [content[0]];
    var rest := Text.ReplaceChar(content[1..], '$', "\\$");
    assert Text.ReplaceChar(content, '$', "\\$") == first + rest;
    Text.ReplaceCharAppend(first, rest, '\'', "''");
    if content[0] == '$' {
      assert Text.ReplaceChar(first, '\'', "''") == "\\$" by {
        assert first[1..] == "$" && first[1..][1..] == [];
      }
    } else {
      assert first[1..] == [];
    }
  }

  /** A stored message never starts with a dollar. */
  lemma MessageLiteralHead(content: string)
    requires MessageLiteral(content) != []
    ensures MessageLiteral(content)[0] != '$'
  {
    if content != [] {
      MessageLiteralCons(content);
    }
  }

  /** Every dollar of a stored message has a backslash right before it. */
  predicate DollarsEscaped(t: string) {
    forall i :: 0 <= i < |t| && t[i] == '$' ==> 0 < i && t[i - 1] == '\\'
  }

  lemma {:induction false} MessageLiteralDollarsEscaped(content: string)
    ensures DollarsEscaped(MessageLiteral(content))
    decreases |content|
  {
    if content == [] {
      assert MessageLiteral(content) == [];
    } else {
      MessageLiteralCons(content);
      MessageLiteralDollarsEscaped(content[1..]);
      var pre := EscapedChar(content[0]);
      var post := MessageLiteral(content[1..]);
      var t := pre + post;
      forall i | 0 <= i < |t| && t[i] == '$'
        ensures 0 < i && t[i - 1] == '\\'
      {
        if i > |pre| {
          assert t[i] == post[i - |pre|];
          assert t[i - 1] == post[i - |pre| - 1];
        }
      }
    }
  }

  /** So no two dollars are adjacent, and the text cannot hold the `$$` that closes the
      literal. */
  lemma MessageLiteralNoDoubleDollar(content: string)
    ensures forall i :: 0 <= i < |MessageLiteral(content)| - 1 ==>
      !(MessageLiteral(content)[i] == '$' && MessageLiteral(content)[i + 1] == '$')
  {
    MessageLiteralDollarsEscaped(content);
  }

  /** Reading a stored message back: `\$` is a dollar, `''` a quote, anything else
      itself. */
  function UnescapeLiteral(t: string): string
    decreases |t|
  {
    if |t| >= 2 && t[0] == '\\' && t[1] == '$' then "$" + UnescapeLiteral(t[2..])
    else if |t| >= 2 && t[0] == '\'' && t[1] == '\'' then "'" + UnescapeLiteral(t[2..])
    else if t == [] then []
    else [t[0]] + UnescapeLiteral(t[1..])
  }

  /** The stored text reads back as the message: the escaping loses nothing. */
  lemma {:induction false} MessageLiteralReadsBack(content: string)
    ensures UnescapeLiteral(MessageLiteral(content)) == content
    decreases |content|
  {
    if content == [] {
      assert MessageLiteral(content) == [];
    } else {
      MessageLiteralCons(content);
      MessageLiteralReadsBack(content[1..]);
      var pre := EscapedChar(content[0]);
      var post := MessageLiteral(content[1..]);
      var t := pre + post;
      if content[0] == '$' || content[0] == '\'' {
        assert t[2..] == post;
      } else {
        assert t[1..] == post;
        if content[0] == '\\' && post != [] {
          MessageLiteralHead(content[1..]);
          assert t[1] == post[0];
        }
      }
      assert [content[0]] + content[1..] == content;
    }
  }

  /** Different messages are stored as different texts. */
  lemma MessageLiteralInjective(a: string, b: string)
    requires MessageLiteral(a) == MessageLiteral(b)
    ensures a == b
  {
    MessageLiteralReadsBack(a);
    MessageLiteralReadsBack(b);
  }

  /** Text without dollars or quotes is stored as it is. */
  lemma {:induction false} MessageLiteralPlain(content: string)
    requires '$' !in content && '\'' !in content
    ensures MessageLiteral(content) == content
    decreases |content|
  {
    if content != [] {
      MessageLiteralCons(content);
      MessageLiteralPlain(content[1..]);
      assert [content[0]] + content[1..] == content;
    }
  }

  // ---------------------------------------------------------------------------
  // Tables, volumes and theme

  /** `tbl(cfg, name)`: `catalog.schema.name`. */
  function Tbl(cfg: AppConfig, name: string): string {
    SqlText.Fqn(cfg.catalog, cfg.schema, name)
  }

  /** The catalog, schema and table name read back from a table name when none holds a
      dot. */
  lemma TblParts(cfg: AppConfig, name: string)
    requires '.' !in cfg.catalog && '.' !in cfg.schema && '.' !in name
    ensures Text.Split(Tbl(cfg, name), '.') == [cfg.catalog, cfg.schema, name]
  {
    SqlText.FqnParts(cfg.catalog, cfg.schema, name);
  }

  /** `vol_root(cfg, user_id)`: `/Volumes/{catalog}/{schema}/{volume}/{user_id}`. */
  function VolRoot(cfg: AppConfig, userId: string): string {
    "/Volumes/" + cfg.catalog + "/" + cfg.schema + "/" + cfg.volume + "/" + userId
  }

  /** The front end's user folder is the one the upload pipeline writes into. */
  lemma VolRootIsUploadRoot(cfg: AppConfig, userId: string)
    ensures VolRoot(cfg, userId) == Uploads.UserVolumeRoot(cfg.catalog, cfg.schema, cfg.volume, userId)
  {
    var names := [cfg.catalog, cfg.schema, cfg.volume, userId];
    Uploads.VolumeRootPrefix(cfg.catalog, cfg.schema, cfg.volume, userId);
    assert Text.Join("/", names[3..]) == userId;
    assert Text.Join("/", names[2..]) == cfg.volume + "/" + userId;
    assert Text.Join("/", names[1..]) == cfg.schema + "/" + (cfg.volume + "/" + userId);
    assert Text.Join("/", names) == cfg.catalog + "/" + (cfg.schema + "/" + (cfg.volume + "/" + userId));
  }

  const DEFAULT_PRIMARY := "#0C6CF2"
  const DEFAULT_SURFACE := "#FFFFFF"
  const DEFAULT_TEXT := "#0F172A"
  const DEFAULT_RADIUS := 12

  /** The values `apply_theme` puts into the style sheet. */
  datatype ThemeVars = ThemeVars(primary: Value, surface: Value, text: Value, radius: Value)

  /** `theme.get("colors", {})`. */
  function ColorsOf(theme: Dict): Value {
    GetOr(theme, "colors", Obj([]))
  }

  /** `apply_theme`: each colour, and the radius, falls back to its default when the
      theme leaves it out; a theme or colours entry that is not a dictionary has no
      `get` and fails. */
  function ApplyTheme(theme: Value): (r: Result<ThemeVars>)
    ensures r.Ok? <==> theme.Obj? && ColorsOf(theme.fields).Obj?
    ensures r.Ok? && !Has(ColorsOf(theme.fields).fields, "primary") ==> r.value.primary == Str(DEFAULT_PRIMARY)
    ensures r.Ok? && !Has(ColorsOf(theme.fields).fields, "surface") ==> r.value.surface == Str(DEFAULT_SURFACE)
    ensures r.Ok? && !Has(ColorsOf(theme.fields).fields, "text") ==> r.value.text == Str(DEFAULT_TEXT)
    ensures r.Ok? && !Has(theme.fields, "radius") ==> r.value.radius == Int(DEFAULT_RADIUS)
    ensures r.Ok? ==> Get(ColorsOf(theme.fields).fields, "primary") in {None, Some(r.value.primary)}
    ensures r.Ok? ==> Get(ColorsOf(theme.fields).fields, "surface") in {None, Some(r.value.surface)}
    ensures r.Ok? ==> Get(ColorsOf(theme.fields).fields, "text") in {None, Some(r.value.text)}
    ensures r.Ok? ==> Get(theme.fields, "radius") in {None, Some(r.value.radius)}
  {
    if !theme.Obj? then Err("AttributeError: '" + TypeName(theme) + "' object has no attribute 'get'")
    else
      var colors := ColorsOf(theme.fields);
      if !colors.Obj? then Err("AttributeError: '" + TypeName(colors) + "' object has no attribute 'get'")
      else
        Ok(ThemeVars(GetOr(colors.fields, "primary", Str(DEFAULT_PRIMARY)),
                     GetOr(colors.fields, "surface", Str(DEFAULT_SURFACE)),
                     GetOr(colors.fields, "text", Str(DEFAULT_TEXT)),
                     GetOr(theme.fields, "radius", Int(DEFAULT_RADIUS))))
  }

  /** The theme `load_theme` falls back to when no branding file is readable. */
  const FALLBACK_THEME: Value := Obj([
    Field("colors", Obj([Field("primary", Str(DEFAULT_PRIMARY)), Field("surface", Str(DEFAULT_SURFACE)),
                         Field("text", Str(DEFAULT_TEXT))])),
    Field("radius", Int(DEFAULT_RADIUS))])

  /** The fallback theme and an empty theme style the page alike: both give the
      defaults. */
  lemma FallbackThemeIsDefault()
    ensures ApplyTheme(FALLBACK_THEME) == ApplyTheme(Obj([]))
    ensures ApplyTheme(Obj([])) ==
      Ok(ThemeVars(Str(DEFAULT_PRIMARY), Str(DEFAULT_SURFACE), Str(DEFAULT_TEXT), Int(DEFAULT_RADIUS)))
  {
    var c := Field("colors", Obj([Field("primary", Str(DEFAULT_PRIMARY)), Field("surface", Str(DEFAULT_SURFACE)),
                                  Field("text", Str(DEFAULT_TEXT))]));
    Fields2(c, Field("radius", Int(DEFAULT_RADIUS)));
    Fields3(Field("primary", Str(DEFAULT_PRIMARY)), Field("surface", Str(DEFAULT_SURFACE)),
            Field("text", Str(DEFAULT_TEXT)));
  }

  // ---------------------------------------------------------------------------
  // Chat context and model resolution

  const SYSTEM_PROMPT := "You are a helpful assistant."

  function SystemEntry(): Dict {
    Messages.Entry(Str(Messages.SYSTEM), Str(SYSTEM_PROMPT))
  }

  /** `load_messages`: each stored row as `{"role": ..., "content": ...}`, in order; a
      row without either column fails as the indexing does. */
  function LoadMessages(rows: seq<Dict>): (r: Result<seq<Dict>>)
    ensures r.Ok? <==> forall k :: 0 <= k < |rows| ==> Has(rows[k], "role") && Has(rows[k], "content")
    ensures r.Ok? ==> |r.value| == |rows|
    ensures r.Ok? ==> forall k :: 0 <= k < |rows| ==>
      r.value[k] == Messages.Entry(GetOr(rows[k], "role", Null), GetOr(rows[k], "content", Null))
    decreases |rows|
  {
    if rows == [] then Ok([])
    else
      var init := rows[..|rows| - 1];
      var last := rows[|rows| - 1];
      match LoadMessages(init)
      case Err(e) => Err(e)
      case Ok(prior) =>
        if !Has(last, "role") then Err("KeyError: 'role'")
        else if !Has(last, "content") then Err("KeyError: 'content'")
        else Ok(prior + [Messages.Entry(GetOr(last, "role", Null), GetOr(last, "content", Null))])
  }

  /** The context sent to the model: the system prompt, then the stored history. */
  function ChatContext(history: seq<Dict>): seq<Dict> {
    [SystemEntry()] + history
  }

  /** The context holds one system message and, after it, each stored row's role and
      content in the stored order. */
  lemma ContextOfRows(rows: seq<Dict>, k: nat)
    requires LoadMessages(rows).Ok? && k < |rows|
    ensures |ChatContext(LoadMessages(rows).value)| == |rows| + 1
    ensures Get(ChatContext(LoadMessages(rows).value)[0], "role") == Some(Str(Messages.SYSTEM))
    ensures Get(ChatContext(LoadMessages(rows).value)[k + 1], "role") == Get(rows[k], "role")
    ensures Get(ChatContext(LoadMessages(rows).value)[k + 1], "content") == Get(rows[k], "content")
  {
    Messages.EntryFields(Str(Messages.SYSTEM), Str(SYSTEM_PROMPT));
    Messages.EntryFields(GetOr(rows[k], "role", Null), GetOr(rows[k], "content", Null));
  }

  /** Every catalog entry has an `id`, as building `{m["id"]: m ...}` needs. */
  predicate AllHaveId(models: seq<Dict>) {
    forall j :: 0 <= j < |models| ==> Has(models[j], "id")
  }

  /** The position of the last catalog entry with this id: the one the dictionary
      comprehension keeps. */
  function LastWithId(models: seq<Dict>, id: Value): (r: Option<nat>)
    ensures r.Some? ==> r.value < |models| && Get(models[r.value], "id") == Some(id)
    ensures r.Some? ==> forall j :: r.value < j < |models| ==> Get(models[j], "id") != Some(id)
    ensures r.None? <==> forall j :: 0 <= j < |models| ==> Get(models[j], "id") != Some(id)
    decreases |models|
  {
    if models == [] then None
    else if Get(models[|models| - 1], "id") == Some(id) then Some(|models| - 1)
    else LastWithId(models[..|models| - 1], id)
  }

  /** The endpoint and payload schema of the selected model. */
  datatype ModelRoute = ModelRoute(endpoint: Value, schema: Value)

  /** Resolving the selected model: the catalog keyed by id, where a later entry
      replaces an earlier one with the same id, then the endpoint (required) and the
      schema (`openai-chat` by default). */
  function ResolveModel(models: seq<Dict>, selected: Value): (r: Result<ModelRoute>)
    ensures !AllHaveId(models) ==> r.Err?
    ensures LastWithId(models, selected).None? ==> r.Err?
    ensures r.Ok? ==> LastWithId(models, selected).Some?
    ensures r.Ok? ==> Get(models[LastWithId(models, selected).value], "endpoint") == Some(r.value.endpoint)
    ensures r.Ok? && !Has(models[LastWithId(models, selected).value], "schema") ==> r.value.schema == Str(OPENAI_CHAT)
  {
    if !AllHaveId(models) then Err("KeyError: 'id'")
    else
      match LastWithId(models, selected)
      case None => Err("KeyError: " + Repr(selected))
      case Some(j) =>
        match Get(models[j], "endpoint")
        case None => Err("KeyError: 'endpoint'")
        case Some(endpoint) => Ok(ModelRoute(endpoint, GetOr(models[j], "schema", Str(OPENAI_CHAT))))
  }

  /** When two catalog entries share an id, the later one is used. */
  lemma ResolveLaterWins(models: seq<Dict>, j: nat, id: Value)
    requires AllHaveId(models) && j < |models| && Get(models[j], "id") == Some(id)
    requires forall k :: j < k < |models| ==> Get(models[k], "id") != Some(id)
    requires Has(models[j], "endpoint")
    ensures ResolveModel(models, id) == Ok(ModelRoute(GetOr(models[j], "endpoint", Null),
                                                      GetOr(models[j], "schema", Str(OPENAI_CHAT))))
  {
    assert LastWithId(models, id) == Some(j) by {
      assert LastWithId(models, id).Some?;
    }
  }

  // ---------------------------------------------------------------------------
  // The session

  const CURRENT_CONV := "current_conv"
  const SELECTED_MODEL := "selected_model_id"
  const NEW_CHAT_TITLE := "New Chat"

  /** The model of a new chat: `am[0]["id"] if am else ""` is evaluated first, so an
      allowed model without an `id` fails even when a model is already selected; then
      the selection is kept when it is truthy. */
  function NewChatModel(current: Value, am: seq<Dict>): (r: Result<Value>)
    ensures am != [] && !Has(am[0], "id") ==> r.Err?
    ensures (am == [] || Has(am[0], "id")) && Truthy(current) ==> r == Ok(current)
    ensures am == [] && !Truthy(current) ==> r == Ok(Str(""))
    ensures am != [] && Has(am[0], "id") && !Truthy(current) ==> r.Ok? && Get(am[0], "id") == Some(r.value)
  {
    if am == [] then Ok(Or(current, Str("")))
    else if Has(am[0], "id") then Ok(Or(current, GetOr(am[0], "id", Null)))
    else Err("KeyError: 'id'")
  }

  /** The row `save_conversation` inserts for a new chat. */
  datatype NewConversation = NewConversation(
    conversationId: string, userId: string, tenantId: string, title: string, model: string)

  /** A sent model request: the context, the route and the two generation settings. */
  datatype ServingRequest = ServingRequest(
    messages: seq<Dict>, route: ModelRoute, maxTokens: Value, temperature: Value)

  /** A row `save_message` inserts: the escaped text goes between `$$` delimiters. */
  datatype SavedMessage = SavedMessage(
    conversationId: string, role: string, literal: string, tokensIn: Value, tokensOut: Value, status: string)

  function SaveMessage(conv: Value, role: string, content: string, tokensIn: Value, tokensOut: Value): SavedMessage {
    SavedMessage(ToStr(conv), role, MessageLiteral(content), tokensIn, tokensOut, "ok")
  }

  /** What one chat turn wrote and sent, and the failure that stopped it, if any. */
  datatype Turn = Turn(saved: seq<SavedMessage>, request: Option<ServingRequest>, failure: Option<string>)

  const MAX_TOKENS := "max_tokens"
  const TEMPERATURE := "temperature"

  /** `tokens_in` and `tokens_out`: the usage counts, 0 when missing. */
  function UsageCount(usage: Dict, key: string): Value {
    GetOr(usage, key, Int(0))
  }

  /** The steps of a chat turn before the request all succeed: a prompt and a selected
      model, the prompt's INSERT, reading the history back, resolving the model and both
      generation settings. */
  predicate RequestReady(state: State, prompt: string, rows: Result<seq<Dict>>, models: seq<Dict>,
                         write: SavedMessage -> Option<string>)
  {
    prompt != "" && Truthy(StateGet(state, SELECTED_MODEL, Null))
    && write(SaveMessage(StateGet(state, CURRENT_CONV, Null), Messages.USER, prompt, Int(0), Int(0))).None?
    && rows.Ok? && LoadMessages(rows.value).Ok?
    && ResolveModel(models, StateGet(state, SELECTED_MODEL, Null)).Ok?
    && MAX_TOKENS in state && TEMPERATURE in state
  }

  /** One chat turn of `chat_area` once a prompt is read. Nothing happens without a
      prompt and a selected model. Otherwise the prompt is stored; the stored history is
      read back (`rows`, the warehouse's answer); the context and the selected model's
      route are built; the request is sent (`reply`, the content and usage the serving
      call returned); and the reply is stored with its token counts. `write(m)` is the
      text of the exception the INSERT of `m` raises, `None` when it succeeds: unlike the
      classic app's writes these are not caught. Each failing step stops the turn with
      what was done so far. */
  function ChatTurn(state: State, prompt: string, rows: Result<seq<Dict>>, models: seq<Dict>,
                    reply: Result<(Value, Value)>, write: SavedMessage -> Option<string>): (t: Turn)
    ensures prompt == "" || !Truthy(StateGet(state, SELECTED_MODEL, Null)) ==> t == Turn([], None, None)
    ensures prompt != "" && Truthy(StateGet(state, SELECTED_MODEL, Null)) ==>
      var user := SaveMessage(StateGet(state, CURRENT_CONV, Null), Messages.USER, prompt, Int(0), Int(0));
      (write(user).Some? ==> t == Turn([], None, write(user)))
      && (write(user).None? ==> t.saved != [] && t.saved[0] == user)
    ensures |t.saved| <= 2
    ensures forall m :: m in t.saved ==> write(m).None?
    ensures |t.saved| == 2 <==> t.request.Some? && t.failure.None?
    ensures t.request.Some? ==>
      (rows.Ok? && LoadMessages(rows.value).Ok? &&
       t.request.value.messages == ChatContext(LoadMessages(rows.value).value))
    ensures t.request.Some? ==> ResolveModel(models, StateGet(state, SELECTED_MODEL, Null)) == Ok(t.request.value.route)
    ensures t.request.Some? ==> MAX_TOKENS in state && t.request.value.maxTokens == state[MAX_TOKENS]
    ensures t.request.Some? ==> TEMPERATURE in state && t.request.value.temperature == state[TEMPERATURE]
    ensures t.request.Some? <==> RequestReady(state, prompt, rows, models, write)
    ensures RequestReady(state, prompt, rows, models, write) && reply.Ok? && reply.value.0.Str?
            && reply.value.1.Obj? ==>
      var answer := SaveMessage(StateGet(state, CURRENT_CONV, Null), Messages.ASSISTANT, reply.value.0.s,
                                UsageCount(reply.value.1.fields, "prompt_tokens"),
                                UsageCount(reply.value.1.fields, "completion_tokens"));
      (write(answer).None? ==> |t.saved| == 2 && t.saved[1] == answer && t.failure.None?)
      && (write(answer).Some? ==> |t.saved| == 1 && t.failure == write(answer))
    ensures RequestReady(state, prompt, rows, models, write)
            && !(reply.Ok? && reply.value.0.Str? && reply.value.1.Obj?) ==>
      |t.saved| == 1 && t.failure.Some?
    ensures |t.saved| == 2 ==>
      (reply.Ok? && reply.value.0.Str? && reply.value.1.Obj? &&
       t.saved[1].role == Messages.ASSISTANT && UnescapeLiteral(t.saved[1].literal) == reply.value.0.s)
    ensures |t.saved| == 2 ==>
      t.saved[1].conversationId == t.saved[0].conversationId && t.saved[1].status == "ok"
    ensures |t.saved| == 2 ==>
      (reply.Ok? && reply.value.1.Obj? &&
       t.saved[1].tokensIn == UsageCount(reply.value.1.fields, "prompt_tokens") &&
       t.saved[1].tokensOut == UsageCount(reply.value.1.fields, "completion_tokens"))
  {
    var conv := StateGet(state, CURRENT_CONV, Null);
    var selected := StateGet(state, SELECTED_MODEL, Null);
    if prompt == "" || !Truthy(selected) then Turn([], None, None)
    else
      var user := SaveMessage(conv, Messages.USER, prompt, Int(0), Int(0));
      if write(user).Some? then Turn([], None, write(user))
      else if rows.Err? then Turn([user], None, Some(rows.error))
      else
        match LoadMessages(rows.value)
        case Err(e) => Turn([user], None, Some(e))
        case Ok(history) =>
          match ResolveModel(models, selected)
          case Err(e) => Turn([user], None, Some(e))
          case Ok(route) =>
            if MAX_TOKENS !in state then Turn([user], None, Some("KeyError: 'max_tokens'"))
            else if TEMPERATURE !in state then Turn([user], None, Some("KeyError: 'temperature'"))
            else
              var request := ServingRequest(ChatContext(history), route, state[MAX_TOKENS], state[TEMPERATURE]);
              match reply
              case Err(e) => Turn([user], Some(request), Some(e))
              case Ok((content, usage)) =>
                if !usage.Obj? then
                  Turn([user], Some(request), Some("AttributeError: '" + TypeName(usage) + "' object has no attribute 'get'"))
                else if !content.Str? then
                  Turn([user], Some(request), Some("AttributeError: '" + TypeName(content) + "' object has no attribute 'replace'"))
                else
                  MessageLiteralReadsBack(content.s);
                  var answer := SaveMessage(conv, Messages.ASSISTANT, content.s,
                                            UsageCount(usage.fields, "prompt_tokens"),
                                            UsageCount(usage.fields, "completion_tokens"));
                  if write(answer).Some? then Turn([user], Some(request), write(answer))
                  else Turn([user, answer], Some(request), None)
  }

  /** `st.session_state` as the front end uses it. */
  class Session {
    var state: State

    constructor(initial: State)
      ensures state == initial
    {
      state := initial;
    }

    /** `ensure_session_state`: each default whose key is missing is written. */
    method EnsureSessionState()
      modifies this
      ensures state == WithDefaults(old(state), SESSION_DEFAULTS)
    {
      var ds := SESSION_DEFAULTS;
      var i := 0;
      while i < |ds|
        invariant 0 <= i <= |ds|
        invariant state == WithDefaults(old(state), ds[..i])
      {
        var k := ds[i].0;
        if k !in state {
          state := state[k := ds[i].1];
        }
        assert ds[..i + 1][..i] == ds[..i];
        i := i + 1;
      }
      assert ds[..i] == ds;
    }

    /** The "New chat" branch of the sidebar: a fresh conversation id becomes current,
        the model choice is kept or defaulted, and the conversation row to insert is
        returned. A failing model choice leaves the new id current and inserts
        nothing. */
    method NewChat(convId: string, userId: string, cfg: AppConfig, models: seq<Dict>)
      returns (r: Result<NewConversation>)
      modifies this
      ensures r.Ok? <==> NewChatModel(StateGet(old(state), SELECTED_MODEL, Null),
                                      AllowedModels(cfg.allowedModelIds, models)).Ok?
      ensures r.Err? ==> state == old(state)[CURRENT_CONV := Str(convId)]
      ensures r.Ok? ==> NewChatModel(StateGet(old(state), SELECTED_MODEL, Null),
                                     AllowedModels(cfg.allowedModelIds, models)).Ok?
      ensures r.Ok? ==> state == old(state)[CURRENT_CONV := Str(convId)][SELECTED_MODEL :=
        NewChatModel(StateGet(old(state), SELECTED_MODEL, Null), AllowedModels(cfg.allowedModelIds, models)).value]
      ensures r.Ok? ==> r.value == NewConversation(convId, userId,
        ToStr(StateGet(old(state), "tenant_id", Str("default"))), NEW_CHAT_TITLE,
        ToStr(NewChatModel(StateGet(old(state), SELECTED_MODEL, Null), AllowedModels(cfg.allowedModelIds, models)).value))
    {
      state := state[CURRENT_CONV := Str(convId)];
      var am := AllowedModels(cfg.allowedModelIds, models);
      var chosen := NewChatModel(StateGet(state, SELECTED_MODEL, Null), am);
      if chosen.Err? {
        return Err(chosen.error);
      }
      state := state[SELECTED_MODEL := chosen.value];
      r := Ok(NewConversation(convId, userId, ToStr(StateGet(state, "tenant_id", Str("default"))),
                              NEW_CHAT_TITLE, ToStr(chosen.value)));
    }
  }
}
