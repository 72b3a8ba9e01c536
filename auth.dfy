/** `Auth`: who the user is. Forwarded identity headers reach the app as environment
    variables; the first usable one is cached in the session's `auth_headers`. The SQL
    user is a parameter: the text `current_user()` returned, or the exception. */
module Auth {
  import opened Wrappers
  import Text
  import Env
  import SqlText

  /** `val and val.strip()`: the variable is set to something other than whitespace. */
  predicate Usable(env: Env.Environ, name: string) {
    name in env && !Text.IsBlank(env[name])
  }

  /** The stripped value of the first usable variable, in list order. */
  function FirstUsable(env: Env.Environ, names: seq<string>): (r: Option<string>)
    ensures r.Some? ==> r.value != "" && Text.Trimmed(r.value)
  {
    if names == [] then None
    else if Usable(env, names[0]) then
      Text.StripTrimmed(Text.Strip(env[names[0]]));
      Some(Text.Strip(env[names[0]]))
    else FirstUsable(env, names[1..])
  }

  /** The first usable variable at index `k` gives the cached value. */
  lemma {:induction false} FirstUsableAt(env: Env.Environ, names: seq<string>, k: nat)
    requires k < |names| && Usable(env, names[k])
    requires forall j :: 0 <= j < k ==> !Usable(env, names[j])
    ensures FirstUsable(env, names) == Some(Text.Strip(env[names[k]]))
  {
    if k > 0 {
      assert !Usable(env, names[0]);
      assert forall j :: 0 <= j < k - 1 ==> names[1..][j] == names[j + 1];
      FirstUsableAt(env, names[1..], k - 1);
    }
  }

  /** Nothing is found exactly when no variable is usable. */
  lemma {:induction false} FirstUsableNone(env: Env.Environ, names: seq<string>)
    ensures FirstUsable(env, names).None? <==> forall i :: 0 <= i < |names| ==> !Usable(env, names[i])
  {
    if names != [] {
      FirstUsableNone(env, names[1..]);
      if !Usable(env, names[0]) {
        forall i | 0 <= i < |names| && FirstUsable(env, names).None? ensures !Usable(env, names[i]) {
          if i > 0 {
            assert names[i] == names[1..][i - 1];
          }
        }
        if forall i :: 0 <= i < |names| ==> !Usable(env, names[i]) {
          forall i | 0 <= i < |names[1..]| ensures !Usable(env, names[1..][i]) {
            assert names[1..][i] == names[i + 1];
          }
        }
      }
    }
  }

  const EMAIL := "email"
  const ACCESS_TOKEN := "access_token"
  const USER := "user"

  /** The header variants `setup_request_context` reads for each cached key. */
  const SETUP_EMAIL_VARS := ["X_FORWARDED_EMAIL", "HTTP_X_FORWARDED_EMAIL",
                             "DATABRICKS_FORWARD_EMAIL", "USER_EMAIL", "DB_USER_EMAIL"]
  const SETUP_TOKEN_VARS := ["X_FORWARDED_ACCESS_TOKEN", "HTTP_X_FORWARDED_ACCESS_TOKEN",
                             "DATABRICKS_FORWARD_ACCESS_TOKEN", "ACCESS_TOKEN"]
  const SETUP_USER_VARS := ["X_FORWARDED_USER", "HTTP_X_FORWARDED_USER",
                            "DATABRICKS_FORWARD_USER", "FORWARDED_USER", "USER_ID", "USERNAME"]
  const HEADER_MAP: seq<(string, seq<string>)> :=
    [(EMAIL, SETUP_EMAIL_VARS), (ACCESS_TOKEN, SETUP_TOKEN_VARS), (USER, SETUP_USER_VARS)]

  /** The variables each `get_forwarded_*` reads, in order of preference. */
  const EMAIL_VARS := ["HTTP_X_FORWARDED_EMAIL", "X_FORWARDED_EMAIL", "X-FORWARDED-EMAIL",
                       "DATABRICKS_FORWARD_EMAIL", "FORWARDED_EMAIL", "USER_EMAIL",
                       "DB_USER_EMAIL", "DATABRICKS_USER_EMAIL"]
  const TOKEN_VARS := ["HTTP_X_FORWARDED_ACCESS_TOKEN", "X_FORWARDED_ACCESS_TOKEN",
                       "X-FORWARDED-ACCESS-TOKEN", "DATABRICKS_FORWARD_ACCESS_TOKEN",
                       "FORWARDED_ACCESS_TOKEN", "ACCESS_TOKEN"]
  const USER_VARS := ["HTTP_X_FORWARDED_USER", "X_FORWARDED_USER", "X-FORWARDED-USER",
                      "DATABRICKS_FORWARD_USER", "FORWARDED_USER", "USER_ID", "USERNAME"]

  /** Caches a found value under `key` unless the key is already cached. */
  function CacheFirst(h: map<string, string>, key: string, found: Option<string>): (r: map<string, string>)
    ensures key in h ==> r == h
    ensures key !in h && found.Some? ==> r == h[key := found.value]
    ensures found.None? ==> r == h
  {
    if key in h || found.None? then h else h[key := found.value]
  }

  /** The cache after `setup_request_context` has read the first `n` entries of a header
      map: each entry caches the first usable variant unless its key is cached already. */
  function SetupUpTo(hm: seq<(string, seq<string>)>, h: map<string, string>, env: Env.Environ,
                     n: nat): map<string, string>
    requires n <= |hm|
  {
    if n == 0 then h
    else CacheFirst(SetupUpTo(hm, h, env, n - 1), hm[n - 1].0, FirstUsable(env, hm[n - 1].1))
  }

  /** `setup_request_context` over its own header map. */
  function Setup(h: map<string, string>, env: Env.Environ): map<string, string> {
    SetupUpTo(HEADER_MAP, h, env, |HEADER_MAP|)
  }

  /** No cached entry is ever overwritten. */
  lemma {:induction false} SetupKeeps(hm: seq<(string, seq<string>)>, h: map<string, string>,
                                      env: Env.Environ, n: nat)
    requires n <= |hm|
    ensures forall k :: k in h ==> k in SetupUpTo(hm, h, env, n) && SetupUpTo(hm, h, env, n)[k] == h[k]
  {
    if n > 0 {
      SetupKeeps(hm, h, env, n - 1);
    }
  }

  /** Only keys of the header map are added. */
  lemma {:induction false} SetupOnlyKeys(hm: seq<(string, seq<string>)>, h: map<string, string>,
                                         env: Env.Environ, n: nat)
    requires n <= |hm|
    ensures forall k :: k in SetupUpTo(hm, h, env, n) ==>
      k in h || exists i :: 0 <= i < n && hm[i].0 == k
  {
    if n > 0 {
      SetupOnlyKeys(hm, h, env, n - 1);
      assert hm[n - 1].0 == hm[n - 1].0;
    }
  }

  /** Every key one of whose variants is usable ends up cached. */
  lemma {:induction false} SetupHasFound(hm: seq<(string, seq<string>)>, h: map<string, string>,
                                         env: Env.Environ, n: nat)
    requires n <= |hm|
    ensures forall i :: 0 <= i < n && FirstUsable(env, hm[i].1).Some? ==>
      hm[i].0 in SetupUpTo(hm, h, env, n)
  {
    if n > 0 {
      var prev := SetupUpTo(hm, h, env, n - 1);
      var cur := SetupUpTo(hm, h, env, n);
      SetupHasFound(hm, h, env, n - 1);
      assert cur == CacheFirst(prev, hm[n - 1].0, FirstUsable(env, hm[n - 1].1));
      forall i | 0 <= i < n && FirstUsable(env, hm[i].1).Some? ensures hm[i].0 in cur {
        if i < n - 1 {
          assert hm[i].0 in prev;
        }
      }
    }
  }

  /** When the keys are distinct, a missing key gets exactly its first usable variant. */
  lemma {:induction false} SetupFills(hm: seq<(string, seq<string>)>, h: map<string, string>,
                                      env: Env.Environ, n: nat)
    requires n <= |hm|
    requires forall i, j :: 0 <= i < j < |hm| ==> hm[i].0 != hm[j].0
    ensures forall i :: 0 <= i < n && hm[i].0 !in h && FirstUsable(env, hm[i].1).Some? ==>
      hm[i].0 in SetupUpTo(hm, h, env, n)
      && SetupUpTo(hm, h, env, n)[hm[i].0] == FirstUsable(env, hm[i].1).value
  {
    if n > 0 {
      var prev := SetupUpTo(hm, h, env, n - 1);
      var cur := SetupUpTo(hm, h, env, n);
      var key := hm[n - 1].0;
      SetupFills(hm, h, env, n - 1);
      assert cur == CacheFirst(prev, key, FirstUsable(env, hm[n - 1].1));
      forall i | 0 <= i < n && hm[i].0 !in h && FirstUsable(env, hm[i].1).Some?
        ensures hm[i].0 in cur && cur[hm[i].0] == FirstUsable(env, hm[i].1).value
      {
        if i == n - 1 {
          assert key !in prev by {
            SetupOnlyKeys(hm, h, env, n - 1);
            assert forall j :: 0 <= j < n - 1 ==> hm[j].0 != key;
          }
        } else {
          assert hm[i].0 != key;
          assert hm[i].0 in prev && prev[hm[i].0] == FirstUsable(env, hm[i].1).value;
        }
      }
    }
  }

  /** A cache already holding every key that can be found is left as it is. */
  lemma {:induction false} SetupFixed(hm: seq<(string, seq<string>)>, g: map<string, string>,
                                      env: Env.Environ, n: nat)
    requires n <= |hm|
    requires forall i :: 0 <= i < n && FirstUsable(env, hm[i].1).Some? ==> hm[i].0 in g
    ensures SetupUpTo(hm, g, env, n) == g
  {
    if n > 0 {
      SetupFixed(hm, g, env, n - 1);
    }
  }

  /** `setup_request_context` never overwrites a cached entry, fills each missing key that
      one of its variants provides, and adds no other key. */
  lemma SetupKeepsAndFills(h: map<string, string>, env: Env.Environ)
    ensures forall k :: k in h ==> k in Setup(h, env) && Setup(h, env)[k] == h[k]
    ensures forall i :: (0 <= i < |HEADER_MAP| && HEADER_MAP[i].0 !in h
      && FirstUsable(env, HEADER_MAP[i].1).Some?) ==>
        HEADER_MAP[i].0 in Setup(h, env)
        && Setup(h, env)[HEADER_MAP[i].0] == FirstUsable(env, HEADER_MAP[i].1).value
    ensures forall k :: k in Setup(h, env) ==> k in h || k == EMAIL || k == ACCESS_TOKEN || k == USER
  {
    var hm := HEADER_MAP;
    assert hm[0].0 == EMAIL && hm[1].0 == ACCESS_TOKEN && hm[2].0 == USER;
    SetupKeeps(hm, h, env, |hm|);
    SetupFills(hm, h, env, |hm|);
    SetupOnlyKeys(hm, h, env, |hm|);
  }

  /** Running the setup a second time changes nothing. */
  lemma SetupIdempotent(h: map<string, string>, env: Env.Environ)
    ensures Setup(Setup(h, env), env) == Setup(h, env)
  {
    var hm := HEADER_MAP;
    SetupHasFound(hm, h, env, |hm|);
    SetupFixed(hm, Setup(h, env), env, |hm|);
  }

  /** The identity `get_user_identity` reports. */
  datatype Identity = Identity(email: Option<string>, sqlUser: Option<string>,
                               forwardedUser: Option<string>, userId: string, authMode: string,
                               hasForwardedToken: bool, sqlLoggingEnabled: bool)

  const UNKNOWN_USER := "unknown_user"
  const USER_MODE := "USER"
  const APP_MODE := "APP"

  /** `get_sql_user`: the SQL user unless the lookup failed, came back empty or is the
      `unknown_user` placeholder. */
  function SqlUser(current: Result<string>): (r: Option<string>)
    ensures r.Some? <==> current.Ok? && current.value != "" && current.value != UNKNOWN_USER
    ensures r.Some? ==> r.value == current.value
  {
    match current
    case Err(_) => None
    case Ok(u) => if u != "" && u != UNKNOWN_USER then Some(u) else None
  }

  /** `email or sql_user or forwarded_user or "unknown_user"`. */
  function UserId(email: Option<string>, sqlUser: Option<string>, forwardedUser: Option<string>)
    : (r: string)
    ensures r != ""
    ensures SqlText.Given(email) ==> r == email.value
    ensures !SqlText.Given(email) && SqlText.Given(sqlUser) ==> r == sqlUser.value
    ensures !SqlText.Given(email) && !SqlText.Given(sqlUser) && SqlText.Given(forwardedUser) ==>
      r == forwardedUser.value
    ensures r == UNKNOWN_USER <==>
      (SqlText.Given(email) ==> email.value == UNKNOWN_USER)
      && (!SqlText.Given(email) && SqlText.Given(sqlUser) ==> sqlUser.value == UNKNOWN_USER)
      && (!SqlText.Given(email) && !SqlText.Given(sqlUser) && SqlText.Given(forwardedUser) ==>
            forwardedUser.value == UNKNOWN_USER)
  {
    if SqlText.Given(email) then email.value
    else if SqlText.Given(sqlUser) then sqlUser.value
    else if SqlText.Given(forwardedUser) then forwardedUser.value
    else UNKNOWN_USER
  }

  /** `determine_auth_mode`: `USER` exactly when running SQL as the user is requested and
      a forwarded token exists. */
  function AuthMode(env: Env.Environ, token: Option<string>): (r: string)
    ensures r == USER_MODE <==> Env.GetOr(env, "RUN_SQL_AS_USER", "0") == "1" && SqlText.Given(token)
    ensures r == USER_MODE || r == APP_MODE
  {
    if Env.GetOr(env, "RUN_SQL_AS_USER", "0") == "1" && SqlText.Given(token) then USER_MODE
    else APP_MODE
  }

  /** The session's `auth_headers` cache, absent until something is cached. */
  class AuthSession {
    var headers: Option<map<string, string>>

    constructor ()
      ensures headers.None?
    {
      headers := None;
    }

    function Cached(key: string): Option<string>
      reads this
    {
      if headers.Some? && key in headers.value then Some(headers.value[key]) else None
    }

    /** What a `get_forwarded_*` lookup returns in this state: the cached value, else the
        first usable variable. */
    function Lookup(key: string, names: seq<string>, env: Env.Environ): Option<string>
      reads this
    {
      if Cached(key).Some? then Cached(key) else FirstUsable(env, names)
    }

    /** `setup_request_context`. */
    method SetupRequestContext(env: Env.Environ)
      modifies this
      ensures headers == Some(Setup(old(headers).GetOr(map[]), env))
    {
      if headers.None? {
        headers := Some(map[]);
      }
      var h := headers.value;
      ghost var h0 := h;
      for n := 0 to |HEADER_MAP|
        invariant h == SetupUpTo(HEADER_MAP, h0, env, n)
      {
        var key := HEADER_MAP[n].0;
        var found := ScanVariants(env, HEADER_MAP[n].1);
        if found.Some? && key !in h {
          h := h[key := found.value];
        }
      }
      headers := Some(h);
    }

    /** The inner loop of `setup_request_context`: the first usable variant, stripped. */
    static method ScanVariants(env: Env.Environ, variants: seq<string>) returns (found: Option<string>)
      ensures found == FirstUsable(env, variants)
    {
      for i := 0 to |variants|
        invariant forall j :: 0 <= j < i ==> !Usable(env, variants[j])
      {
        var name := variants[i];
        if name in env && !Text.IsBlank(env[name]) {
          FirstUsableAt(env, variants, i);
          return Some(Text.Strip(env[name]));
        }
      }
      FirstUsableNone(env, variants);
      return None;
    }

    /** The shared shape of `get_forwarded_email`, `_token` and `_user`: the cached value
        first; otherwise the first usable variable, stripped and cached. */
    method GetForwarded(key: string, names: seq<string>, env: Env.Environ) returns (r: Option<string>)
      modifies this
      ensures old(Cached(key)).Some? ==> r == old(Cached(key)) && headers == old(headers)
      ensures old(Cached(key)).None? ==> r == FirstUsable(env, names)
      ensures old(Cached(key)).None? && r.None? ==> headers == old(headers)
      ensures old(Cached(key)).None? && r.Some? ==>
        headers == Some(old(headers).GetOr(map[])[key := r.value])
      ensures r.Some? ==> Cached(key) == r
      ensures Cached(key) == old(Lookup(key, names, env))
      ensures forall k :: k != key ==> Cached(k) == old(Cached(k))
    {
      if headers.Some? && key in headers.value {
        return Some(headers.value[key]);
      }
      r := ScanVariants(env, names);
      if r.Some? {
        if headers.None? {
          headers := Some(map[]);
        }
        headers := Some(headers.value[key := r.value]);
      }
    }

    /** After a lookup the value is cached, so the next lookup returns the same value
        whatever the environment says then. */
    method ForwardedTwice(key: string, names: seq<string>, env: Env.Environ, later: Env.Environ)
      returns (first: Option<string>, second: Option<string>)
      modifies this
      ensures first.Some? ==> second == first
    {
      first := GetForwarded(key, names, env);
      second := GetForwarded(key, names, later);
    }

    /** The lookups of `get_user_identity`: the email, the user and the token twice (the
        second time for `has_forwarded_token`), each as `Lookup` gave it beforehand. */
    method ForwardedValues(env: Env.Environ)
      returns (email: Option<string>, user: Option<string>, token: Option<string>,
               tokenAgain: Option<string>)
      modifies this
      ensures email == old(Lookup(EMAIL, EMAIL_VARS, env))
      ensures user == old(Lookup(USER, USER_VARS, env))
      ensures token == old(Lookup(ACCESS_TOKEN, TOKEN_VARS, env)) && tokenAgain == token
      ensures Cached(EMAIL) == old(Lookup(EMAIL, EMAIL_VARS, env))
      ensures Cached(USER) == old(Lookup(USER, USER_VARS, env))
      ensures Cached(ACCESS_TOKEN) == old(Lookup(ACCESS_TOKEN, TOKEN_VARS, env))
      ensures forall k :: k != EMAIL && k != USER && k != ACCESS_TOKEN ==> Cached(k) == old(Cached(k))
    {
      ghost var user0 := Cached(USER);
      ghost var token0 := Cached(ACCESS_TOKEN);
      email := GetForwarded(EMAIL, EMAIL_VARS, env);
      assert Cached(USER) == user0 && Cached(ACCESS_TOKEN) == token0;
      user := GetForwarded(USER, USER_VARS, env);
      assert Cached(ACCESS_TOKEN) == token0;
      token := GetForwarded(ACCESS_TOKEN, TOKEN_VARS, env);
      tokenAgain := GetForwarded(ACCESS_TOKEN, TOKEN_VARS, env);
    }

    /** `get_user_identity`. */
    method GetUserIdentity(env: Env.Environ, currentUser: Result<string>) returns (id: Identity)
      modifies this
      ensures id.userId == UserId(id.email, id.sqlUser, id.forwardedUser)
      ensures id.sqlLoggingEnabled <==> Env.IsSet(env, "DATABRICKS_WAREHOUSE_ID")
      ensures id.sqlUser == (if id.sqlLoggingEnabled then SqlUser(currentUser) else None)
      ensures old(Cached(EMAIL)).None? ==> id.email == FirstUsable(env, EMAIL_VARS)
      ensures old(Cached(EMAIL)).Some? ==> id.email == old(Cached(EMAIL))
      ensures id.forwardedUser == old(Lookup(USER, USER_VARS, env))
      ensures id.authMode == AuthMode(env, old(Lookup(ACCESS_TOKEN, TOKEN_VARS, env)))
      ensures id.hasForwardedToken <==> SqlText.Given(old(Lookup(ACCESS_TOKEN, TOKEN_VARS, env)))
      ensures id.authMode == USER_MODE ==> id.hasForwardedToken
      ensures id.authMode == USER_MODE || id.authMode == APP_MODE
      ensures Cached(EMAIL) == old(Lookup(EMAIL, EMAIL_VARS, env))
      ensures Cached(USER) == old(Lookup(USER, USER_VARS, env))
      ensures Cached(ACCESS_TOKEN) == old(Lookup(ACCESS_TOKEN, TOKEN_VARS, env))
      ensures forall k :: k != EMAIL && k != USER && k != ACCESS_TOKEN ==> Cached(k) == old(Cached(k))
    {
      var email, forwardedUser, token, tokenAgain := ForwardedValues(env);
      var logging := Env.IsSet(env, "DATABRICKS_WAREHOUSE_ID");
      var sqlUser := if logging then SqlUser(currentUser) else None;
      var mode := AuthMode(env, token);
      id := Identity(email, sqlUser, forwardedUser, UserId(email, sqlUser, forwardedUser), mode,
                     SqlText.Given(tokenAgain), logging);
    }
  }

  /** The variables `debug_auth_info` reports. */
  const DEBUG_VARS := ["HTTP_X_FORWARDED_EMAIL", "X_FORWARDED_EMAIL", "DATABRICKS_FORWARD_EMAIL",
                       "HTTP_X_FORWARDED_ACCESS_TOKEN", "X_FORWARDED_ACCESS_TOKEN",
                       "DATABRICKS_FORWARD_ACCESS_TOKEN", "HTTP_X_FORWARDED_USER",
                       "X_FORWARDED_USER", "RUN_SQL_AS_USER", "DATABRICKS_WAREHOUSE_ID",
                       "ENABLE_LOGGING"]

  /** How one variable is shown: a token longer than ten characters is cut to its first
      ten followed by `...`; an unset or empty variable shows as `None`. */
  function Masked(name: string, value: Option<string>): (r: Option<string>)
    ensures !SqlText.Given(value) <==> r.None?
    ensures r.Some? && Text.HasSubstring(name, "TOKEN") && |value.value| > 10 ==>
      r.value == value.value[..10] + "..."
    ensures r.Some? && !(Text.HasSubstring(name, "TOKEN") && |value.value| > 10) ==> r == value
  {
    if !SqlText.Given(value) then None
    else if Text.HasSubstring(name, "TOKEN") && |value.value| > 10 then Some(value.value[..10] + "...")
    else value
  }

  /** A token variable never shows more than its first ten characters. */
  lemma MaskedTokenShowsPrefix(name: string, value: string)
    requires Text.HasSubstring(name, "TOKEN") && value != ""
    ensures var r := Masked(name, Some(value)).value;
      |r| <= 13 && (|value| > 10 ==> r[..10] == value[..10] && r[10..] == "...")
      && (|value| <= 10 ==> r == value)
  {
  }

  /** The `environment_variables` part of `debug_auth_info`, in list order. */
  function DebugEnvironment(env: Env.Environ): (r: seq<(string, Option<string>)>)
    ensures |r| == |DEBUG_VARS|
    ensures forall i :: 0 <= i < |DEBUG_VARS| ==>
      r[i] == (DEBUG_VARS[i], Masked(DEBUG_VARS[i], Env.Lookup(env, DEBUG_VARS[i])))
  {
    seq(|DEBUG_VARS|, i requires 0 <= i < |DEBUG_VARS| =>
      (DEBUG_VARS[i], Masked(DEBUG_VARS[i], Env.Lookup(env, DEBUG_VARS[i]))))
  }

  const NO_EMAIL_ADVICE := "Email not detected. Ensure X-Forwarded-Email header is set by your proxy/gateway."
  const NO_LOGGING_ADVICE :=
    "SQL logging disabled. Set DATABRICKS_WAREHOUSE_ID to enable conversation history and analytics."
  const NO_TOKEN_ADVICE :=
    "RUN_SQL_AS_USER is enabled but no forwarded token available. Running in APP mode."

  /** The position of each recommendation among the checks of `validate_auth_setup`. */
  function AdviceRank(advice: string): int {
    if advice == NO_EMAIL_ADVICE then 0 else if advice == NO_LOGGING_ADVICE then 1 else 2
  }

  datatype Validation = Validation(emailAvailable: bool, sqlUserAvailable: bool,
                                   sqlLoggingEnabled: bool, authMode: string,
                                   recommendations: seq<string>)

  /** `validate_auth_setup` for an identity: one recommendation per failing condition, in
      the order the conditions are checked. */
  function ValidateAuthSetup(id: Identity, env: Env.Environ): (v: Validation)
    ensures v.emailAvailable <==> SqlText.Given(id.email)
    ensures v.sqlUserAvailable <==> SqlText.Given(id.sqlUser)
    ensures NO_EMAIL_ADVICE in v.recommendations <==> !SqlText.Given(id.email)
    ensures NO_LOGGING_ADVICE in v.recommendations <==> !id.sqlLoggingEnabled
    ensures NO_TOKEN_ADVICE in v.recommendations <==>
      id.authMode == APP_MODE && Env.GetOr(env, "RUN_SQL_AS_USER", "0") == "1"
    ensures |v.recommendations| ==
      (if !SqlText.Given(id.email) then 1 else 0) + (if !id.sqlLoggingEnabled then 1 else 0)
      + (if id.authMode == APP_MODE && Env.GetOr(env, "RUN_SQL_AS_USER", "0") == "1" then 1 else 0)
    ensures v.recommendations != [] && !SqlText.Given(id.email) ==> v.recommendations[0] == NO_EMAIL_ADVICE
    ensures forall i, j :: 0 <= i < j < |v.recommendations| ==>
      AdviceRank(v.recommendations[i]) < AdviceRank(v.recommendations[j])
  {
    var a := if !SqlText.Given(id.email) then [NO_EMAIL_ADVICE] else [];
    var b := if !id.sqlLoggingEnabled then [NO_LOGGING_ADVICE] else [];
    var c := if id.authMode == APP_MODE && Env.GetOr(env, "RUN_SQL_AS_USER", "0") == "1"
      then [NO_TOKEN_ADVICE] else [];
    assert NO_EMAIL_ADVICE != NO_LOGGING_ADVICE && NO_EMAIL_ADVICE != NO_TOKEN_ADVICE
      && NO_LOGGING_ADVICE != NO_TOKEN_ADVICE;
    Validation(SqlText.Given(id.email), SqlText.Given(id.sqlUser), id.sqlLoggingEnabled,
               id.authMode, a + b + c)
  }
}
