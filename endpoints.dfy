/** The serving-endpoint configuration shared by every front end: the comma-separated
    `SERVING_ENDPOINTS_CSV` setting, each entry `id` or `id|Display name`, and the
    position of the `SERVING_ENDPOINT` default in the resulting list. */
module Endpoints {
  import opened Wrappers
  import Text
  import Env

  datatype Endpoint = Endpoint(id: string, name: string)

  const NOT_CONFIGURED := "Not configured"
  const NOT_CONFIGURED_WARNING := "\U{26A0}\U{FE0F} Not configured"

  /** The two settings the endpoint block reads. */
  datatype Config = Config(defaultEndpoint: string, csv: string)

  /** `DEFAULT_ENDPOINT = os.getenv("SERVING_ENDPOINT", "")` and
      `ALLOWED_CSV = os.getenv("SERVING_ENDPOINTS_CSV", DEFAULT_ENDPOINT)`. */
  function ConfigFrom(env: Env.Environ): (c: Config)
    ensures "SERVING_ENDPOINTS_CSV" !in env ==> c.csv == c.defaultEndpoint
    ensures "SERVING_ENDPOINT" !in env ==> c.defaultEndpoint == ""
  {
    var default := Env.GetOr(env, "SERVING_ENDPOINT", "");
    Config(default, Env.GetOr(env, "SERVING_ENDPOINTS_CSV", default))
  }

  /** `[x.strip() for x in parts if x.strip()]`. */
  function NonBlank(parts: seq<string>): (r: seq<string>)
    ensures |r| <= |parts|
    ensures forall k :: 0 <= k < |r| ==> r[k] != [] && Text.Trimmed(r[k])
  {
    if parts == [] then []
    else
      var t := Text.Strip(parts[0]);
      var rest := NonBlank(parts[1..]);
      if t == [] then rest
      else
        TokenCons(t, rest);
        [t] + rest
  }

  lemma TokenCons(t: string, rest: seq<string>)
    requires t != [] && Text.Trimmed(t)
    requires forall k :: 0 <= k < |rest| ==> rest[k] != [] && Text.Trimmed(rest[k])
    ensures forall k :: 0 <= k < |[t] + rest| ==> ([t] + rest)[k] != [] && Text.Trimmed(([t] + rest)[k])
  {
    forall k | 0 <= k < |[t] + rest|
      ensures ([t] + rest)[k] != [] && Text.Trimmed(([t] + rest)[k])
    {
      if k > 0 {
        assert ([t] + rest)[k] == rest[k - 1];
      }
    }
  }

  /** The non-blank comma-separated tokens of the setting, trimmed, in order. */
  function Tokens(csv: string): seq<string> {
    NonBlank(Text.Split(csv, ','))
  }

  /** One token as an endpoint: split at the first `|` only, both halves trimmed;
      a token without `|` names itself. */
  function ParseToken(token: string): (e: Endpoint) {
    var i := Text.IndexOf(token, '|');
    if i < |token| then
      Endpoint(Text.Strip(token[..i]), Text.Strip(token[i + 1..]))
    else
      Endpoint(Text.Strip(token), Text.Strip(token))
  }

  /** The endpoints the setting lists, one per token, before any fallback. */
  function ParseAll(tokens: seq<string>): (r: seq<Endpoint>)
    ensures |r| == |tokens|
    ensures forall k :: 0 <= k < |tokens| ==> r[k] == ParseToken(tokens[k])
  {
    if tokens == [] then [] else [ParseToken(tokens[0])] + ParseAll(tokens[1..])
  }

  /** Where the default endpoint sits: the first entry whose id equals a non-empty
      default, and position 0 when the default is empty or not listed. */
  predicate IsDefaultIndex(allowed: seq<Endpoint>, default: string, idx: nat) {
    if default != "" && exists j :: 0 <= j < |allowed| && allowed[j].id == default then
      idx < |allowed| && allowed[idx].id == default
      && forall j :: 0 <= j < idx ==> allowed[j].id != default
    else
      idx == 0
  }

  /** The configured list, or the single unconfigured entry named `fallbackName`. */
  function EndpointList(cfg: Config, fallbackName: string): (r: seq<Endpoint>)
    ensures r != []
  {
    var tokens := Tokens(cfg.csv);
    if tokens == [] then [Endpoint("", fallbackName)] else ParseAll(tokens)
  }

  /** The id selected by default: the configured default when it is listed, otherwise
      the first entry's id. */
  function DefaultSelection(allowed: seq<Endpoint>, default: string): string
    requires allowed != []
  {
    if default != "" && exists j :: 0 <= j < |allowed| && allowed[j].id == default
    then default else allowed[0].id
  }

  /** The entry at the default position carries the default selection. */
  lemma DefaultIndexSelects(allowed: seq<Endpoint>, default: string, idx: nat)
    requires allowed != [] && IsDefaultIndex(allowed, default, idx)
    ensures idx < |allowed| && allowed[idx].id == DefaultSelection(allowed, default)
  {
  }

  /** The append loop over the tokens of the setting. */
  method ParseEndpoints(csv: string) returns (allowed: seq<Endpoint>)
    ensures allowed == ParseAll(Tokens(csv))
  {
    allowed := ParseTokens(Tokens(csv));
  }

  method ParseTokens(tokens: seq<string>) returns (allowed: seq<Endpoint>)
    ensures allowed == ParseAll(tokens)
  {
    allowed := [];
    for k := 0 to |tokens|
      invariant allowed == ParseAll(tokens[..k])
    {
      ParseAllPrefix(tokens, k);
      allowed := allowed + [ParseToken(tokens[k])];
    }
    assert tokens[..|tokens|] == tokens;
  }

  lemma ParseAllPrefix(tokens: seq<string>, k: nat)
    requires k < |tokens|
    ensures ParseAll(tokens[..k + 1]) == ParseAll(tokens[..k]) + [ParseToken(tokens[k])]
  {
    assert tokens[..k + 1] == tokens[..k] + [tokens[k]];
    ParseAllSnoc(tokens[..k], tokens[k]);
  }

  lemma {:induction false} ParseAllSnoc(tokens: seq<string>, t: string)
    ensures ParseAll(tokens + [t]) == ParseAll(tokens) + [ParseToken(t)]
  {
    if tokens != [] {
      assert (tokens + [t])[1..] == tokens[1..] + [t];
      ParseAllSnoc(tokens[1..], t);
    }
  }

  /** The scan for the configured default; the loop stops at the first match. */
  method DefaultIndex(allowed: seq<Endpoint>, default: string) returns (idx: nat)
    ensures IsDefaultIndex(allowed, default, idx)
  {
    idx := 0;
    if default != "" {
      var i := 0;
      while i < |allowed|
        invariant 0 <= i <= |allowed|
        invariant forall j :: 0 <= j < i ==> allowed[j].id != default
      {
        if allowed[i].id == default {
          idx := i;
          return;
        }
        i := i + 1;
      }
    }
  }

  /** `ModelService.get_available_endpoints` and the same block in the root chat script:
      the parsed list, or a single unconfigured entry named `fallbackName` when the
      setting has no non-blank token, and the default's position in it. */
  method AvailableEndpoints(cfg: Config, fallbackName: string)
    returns (endpoints: seq<Endpoint>, defaultIdx: nat)
    ensures endpoints == EndpointList(cfg, fallbackName) && defaultIdx < |endpoints|
    ensures Tokens(cfg.csv) == [] ==> endpoints == [Endpoint("", fallbackName)]
    ensures endpoints[defaultIdx].id == DefaultSelection(endpoints, cfg.defaultEndpoint)
    ensures IsDefaultIndex(endpoints, cfg.defaultEndpoint, defaultIdx)
  {
    ghost var tokens := Tokens(cfg.csv);
    endpoints := ParseEndpoints(cfg.csv);
    assert |endpoints| == |tokens|;
    if endpoints == [] {
      endpoints := [Endpoint("", fallbackName)];
    }
    assert endpoints == EndpointList(cfg, fallbackName);
    defaultIdx := DefaultIndex(endpoints, cfg.defaultEndpoint);
    DefaultIndexSelects(endpoints, cfg.defaultEndpoint, defaultIdx);
  }

  /** The id a fresh session selects. */
  function SelectedByDefault(cfg: Config, fallbackName: string): string {
    DefaultSelection(EndpointList(cfg, fallbackName), cfg.defaultEndpoint)
  }

  /** `endpoints[default_idx]["id"]` of a fresh `get_available_endpoints` call. */
  method DefaultSelectedId(cfg: Config, fallbackName: string) returns (id: string)
    ensures id == SelectedByDefault(cfg, fallbackName)
  {
    var endpoints, defaultIdx := AvailableEndpoints(cfg, fallbackName);
    id := endpoints[defaultIdx].id;
  }

  /** The endpoint block of the classic chat script: with no endpoint configured the
      page stops (`None`); otherwise the list and the default's position. */
  method RequiredEndpoints(cfg: Config) returns (r: Option<(seq<Endpoint>, nat)>)
    ensures Tokens(cfg.csv) == [] <==> r.None?
    ensures r.Some? ==>
      r.value.0 == ParseAll(Tokens(cfg.csv)) && r.value.1 < |r.value.0|
      && IsDefaultIndex(r.value.0, cfg.defaultEndpoint, r.value.1)
  {
    var allowed := ParseEndpoints(cfg.csv);
    if allowed == [] {
      return None;
    }
    var idx := DefaultIndex(allowed, cfg.defaultEndpoint);
    return Some((allowed, idx));
  }

  /** The default position is always a valid index into a non-empty list. */
  lemma DefaultIndexInRange(allowed: seq<Endpoint>, default: string, idx: nat)
    requires allowed != [] && IsDefaultIndex(allowed, default, idx)
    ensures idx < |allowed|
  {
  }

  /** The fallback entry appears exactly when every comma-separated piece is blank. */
  lemma {:induction false} NoTokensIffAllBlank(parts: seq<string>)
    ensures NonBlank(parts) == [] <==> forall k :: 0 <= k < |parts| ==> Text.IsBlank(parts[k])
  {
    if parts != [] {
      var rest := parts[1..];
      NoTokensIffAllBlank(rest);
      var allBlank := forall k :: 0 <= k < |parts| ==> Text.IsBlank(parts[k]);
      var restBlank := forall k :: 0 <= k < |rest| ==> Text.IsBlank(rest[k]);
      if allBlank {
        forall k | 0 <= k < |rest|
          ensures Text.IsBlank(rest[k])
        {
          assert rest[k] == parts[k + 1];
        }
      }
      if Text.IsBlank(parts[0]) && restBlank {
        forall k | 0 <= k < |parts|
          ensures Text.IsBlank(parts[k])
        {
          if k > 0 {
            assert parts[k] == rest[k - 1];
          }
        }
      }
    }
  }

  /** Tokens that are already trimmed, non-blank and free of commas, joined with commas,
      read back as themselves. */
  lemma {:induction false} TokensOfJoin(ts: seq<string>)
    requires ts != []
    requires forall k :: 0 <= k < |ts| ==> ts[k] != [] && Text.Trimmed(ts[k]) && ',' !in ts[k]
    ensures Tokens(Text.Join(",", ts)) == ts
  {
    Text.SplitJoin(ts, ',');
    NonBlankOfTrimmed(ts);
  }

  lemma {:induction false} NonBlankOfTrimmed(ts: seq<string>)
    requires forall k :: 0 <= k < |ts| ==> ts[k] != [] && Text.Trimmed(ts[k])
    ensures NonBlank(ts) == ts
  {
    if ts != [] {
      Text.StripTrimmed(ts[0]);
      NonBlankOfTrimmed(ts[1..]);
    }
  }

  /** A token is cut at its first `|`: the id is the trimmed text before it and the name
      the trimmed rest, which may hold further bars (`a|b|c` names `b|c`). */
  lemma {:induction false} ParseTokenAtFirstBar(pre: string, post: string)
    requires '|' !in pre
    ensures ParseToken(pre + "|" + post) == Endpoint(Text.Strip(pre), Text.Strip(post))
  {
    var t := pre + "|" + post;
    Text.IndexOfAfter(pre, '|', post);
    assert t[..|pre|] == pre;
    assert t[|pre| + 1..] == post;
  }

  /** A trimmed token without `|` is both the id and the display name. */
  lemma ParseTokenPlain(token: string)
    requires '|' !in token && Text.Trimmed(token)
    ensures ParseToken(token) == Endpoint(token, token)
  {
    Text.StripTrimmed(token);
    assert Text.IndexOf(token, '|') == |token|;
  }

  /** Writing an endpoint as `id|name` and parsing it back gives the endpoint, provided
      the id has no bar and neither part has surrounding whitespace. */
  lemma ParseRendered(e: Endpoint)
    requires '|' !in e.id && Text.Trimmed(e.id) && Text.Trimmed(e.name)
    ensures ParseToken(e.id + "|" + e.name) == e
  {
    ParseTokenAtFirstBar(e.id, e.name);
    Text.StripTrimmed(e.id);
    Text.StripTrimmed(e.name);
  }
}
