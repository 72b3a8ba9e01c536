/** JSON-like values as the Python code sees them after `response.json()` or inside
    session dictionaries: dictionaries keep their keys in insertion order. */
module Json {
  import opened Wrappers
  import Text

  datatype Value =
    | Null
    | Bool(b: bool)
    | Int(i: int)
    | Float(text: string)   // a float, carried as the text Python prints for it
    | Str(s: string)
    | Arr(items: seq<Value>)
    | Obj(fields: Dict)

  datatype Field = Field(key: string, val: Value)

  /** A Python `dict`, as its items in insertion order. */
  type Dict = seq<Field>

  /** `d.get(k)`: the value stored under `k`, if any. */
  function Get(d: Dict, k: string): Option<Value> {
    if d == [] then None else if d[0].key == k then Some(d[0].val) else Get(d[1..], k)
  }

  /** `d.get(k, default)`. */
  function GetOr(d: Dict, k: string, default: Value): Value {
    Get(d, k).GetOr(default)
  }

  /** `k in d`. */
  predicate Has(d: Dict, k: string) {
    Get(d, k).Some?
  }

  function Keys(d: Dict): seq<string> {
    if d == [] then [] else [d[0].key] + Keys(d[1..])
  }

  function Values(d: Dict): seq<Value> {
    if d == [] then [] else [d[0].val] + Values(d[1..])
  }

  /** `d[k] = v`: an existing key keeps its place, a new key goes last. */
  function Put(d: Dict, k: string, v: Value): (r: Dict)
    ensures Get(r, k) == Some(v)
    ensures forall k' :: k' != k ==> Get(r, k') == Get(d, k')
    ensures Has(d, k) ==> Keys(r) == Keys(d)
    ensures !Has(d, k) ==> Keys(r) == Keys(d) + [k]
  {
    if d == [] then [Field(k, v)]
    else if d[0].key == k then [Field(k, v)] + d[1..]
    else [d[0]] + Put(d[1..], k, v)
  }

  /** `del d[k]`: the first entry under `k` goes, every other key keeps its value. */
  function Remove(d: Dict, k: string): (r: Dict)
    ensures Has(d, k) ==> |r| == |d| - 1
    ensures !Has(d, k) ==> r == d
    ensures forall k' :: k' != k ==> Get(r, k') == Get(d, k')
  {
    if d == [] then [] else if d[0].key == k then d[1..] else [d[0]] + Remove(d[1..], k)
  }

  /** A dictionary that starts with a given entry. */
  lemma GetCons(f: Field, rest: Dict, k: string)
    ensures Get([f] + rest, k) == (if f.key == k then Some(f.val) else Get(rest, k))
    ensures Keys([f] + rest) == [f.key] + Keys(rest)
  {
    assert ([f] + rest)[1..] == rest;
  }

  /** A dictionary display with one entry. */
  lemma Fields1(a: Field)
    ensures Keys([a]) == [a.key]
    ensures forall k :: Get([a], k) == if a.key == k then Some(a.val) else None
  {
    assert [a][1..] == [];
  }

  /** A dictionary display with two entries. */
  lemma Fields2(a: Field, b: Field)
    ensures Keys([a, b]) == [a.key, b.key]
    ensures forall k :: Get([a, b], k) ==
                        if a.key == k then Some(a.val) else if b.key == k then Some(b.val) else None
  {
    assert [a, b][1..] == [b];
    Fields1(b);
  }

  /** A dictionary display with three entries. */
  lemma Fields3(a: Field, b: Field, c: Field)
    ensures Keys([a, b, c]) == [a.key, b.key, c.key]
    ensures forall k :: Get([a, b, c], k) ==
                        if a.key == k then Some(a.val) else if b.key == k then Some(b.val)
                        else if c.key == k then Some(c.val) else None
  {
    assert [a, b, c][1..] == [b, c];
    Fields2(b, c);
  }

  /** Python truthiness of a JSON value. */
  predicate Truthy(v: Value) {
    match v
    case Null => false
    case Bool(b) => b
    case Int(i) => i != 0
    case Float(t) => t != "0.0" && t != "-0.0"
    case Str(s) => s != ""
    case Arr(items) => items != []
    case Obj(fields) => fields != []
  }

  /** Python `a or b`. */
  function Or(a: Value, b: Value): (r: Value)
    ensures Truthy(a) ==> r == a
    ensures !Truthy(a) ==> r == b
  {
    if Truthy(a) then a else b
  }

  /** Python `repr(v)`, as it appears nested inside a list or a dict. */
  function Repr(v: Value): string
    decreases v
  {
    match v
    case Null => "None"
    case Bool(b) => if b then "True" else "False"
    case Int(i) => Text.IntToString(i)
    case Float(t) => t
    case Str(s) => "'" + s + "'"
    case Arr(items) =>
      "[" + Text.Join(", ", seq(|items|, k requires 0 <= k < |items| => Repr(items[k]))) + "]"
    case Obj(fields) =>
      "{" + Text.Join(", ", seq(|fields|, k requires 0 <= k < |fields| =>
        "'" + fields[k].key + "': " + Repr(fields[k].val))) + "}"
  }

  /** Python `str(v)`: a string is itself, anything else its `repr`. */
  function ToStr(v: Value): (r: string)
    ensures v.Str? ==> r == v.s
  {
    if v.Str? then v.s else Repr(v)
  }

  /** The name Python reports for the type of `v`. */
  function TypeName(v: Value): string {
    match v
    case Null => "NoneType"
    case Bool(_) => "bool"
    case Int(_) => "int"
    case Float(_) => "float"
    case Str(_) => "str"
    case Arr(_) => "list"
    case Obj(_) => "dict"
  }

  /** Python `int(v)`; `Err` carries the text of the `ValueError` or `TypeError`. A float
      is truncated toward zero by dropping its fractional digits. */
  function PyInt(v: Value): (r: Result<int>)
    ensures v.Int? ==> r == Ok(v.i)
    ensures v.Null? || v.Arr? || v.Obj? ==> r.Err?
  {
    match v
    case Int(i) => Ok(i)
    case Bool(b) => Ok(if b then 1 else 0)
    case Str(s) =>
      (match Text.ParseInt(s)
       case Some(i) => Ok(i)
       case None => Err("invalid literal for int() with base 10: '" + s + "'"))
    case Float(t) =>
      (match Text.ParseInt(t[..Text.IndexOf(t, '.')])
       case Some(i) => Ok(i)
       case None => Err("cannot convert float " + t + " to integer"))
    case _ =>
      Err("int() argument must be a string, a bytes-like object or a real number, not '"
          + TypeName(v) + "'")
  }

  /** Python `len(v)`; `None` where `len` raises `TypeError`. */
  function Len(v: Value): Option<nat> {
    match v
    case Str(s) => Some(|s|)
    case Arr(items) => Some(|items|)
    case Obj(fields) => Some(|fields|)
    case _ => None
  }
}

/** Reading configuration from the process environment. */
module Env {
  import opened Wrappers

  type Environ = map<string, string>

  /** `os.environ.get(k)`. */
  function Lookup(env: Environ, k: string): Option<string> {
    if k in env then Some(env[k]) else None
  }

  /** `os.getenv(k, default)`: the default only when the variable is absent. */
  function GetOr(env: Environ, k: string, default: string): string {
    if k in env then env[k] else default
  }

  /** `bool(os.getenv(k))`: the variable is set to a non-empty value. */
  predicate IsSet(env: Environ, k: string) {
    k in env && env[k] != ""
  }

  /** `os.environ.get(a) or os.environ.get(b)`. */
  function EitherOf(env: Environ, a: string, b: string): (r: Option<string>)
    ensures IsSet(env, a) ==> r == Some(env[a])
    ensures !IsSet(env, a) ==> r == Lookup(env, b)
  {
    if IsSet(env, a) then Some(env[a]) else Lookup(env, b)
  }
}

/** Chat messages as `{"role": ..., "content": ...}` dictionaries with string values. */
module Messages {
  import opened Wrappers
  import opened Json

  datatype Message = Message(role: string, content: string)

  const USER := "user"
  const ASSISTANT := "assistant"
  const SYSTEM := "system"

  /** `{"role": role, "content": content}`. */
  function Entry(role: Value, content: Value): Dict {
    [Field("role", role), Field("content", content)]
  }

  lemma EntryFields(role: Value, content: Value)
    ensures Keys(Entry(role, content)) == ["role", "content"]
    ensures Get(Entry(role, content), "role") == Some(role)
    ensures Get(Entry(role, content), "content") == Some(content)
  {
    var d := Entry(role, content);
    assert d[1..] == [Field("content", content)];
    assert d[1..][1..] == [];
    assert Keys(d[1..]) == ["content"];
  }

  function ToDict(m: Message): Dict {
    Entry(Str(m.role), Str(m.content))
  }

  function ToDicts(ms: seq<Message>): (r: seq<Dict>)
    ensures |r| == |ms|
    ensures forall k :: 0 <= k < |ms| ==> r[k] == ToDict(ms[k])
  {
    if ms == [] then [] else [ToDict(ms[0])] + ToDicts(ms[1..])
  }

  /** The total number of characters of content, as `sum(len(m["content"]) ...)`. */
  function ContentLength(ms: seq<Message>): nat {
    if ms == [] then 0 else |ms[0].content| + ContentLength(ms[1..])
  }

  lemma {:induction false} ContentLengthAppend(a: seq<Message>, b: seq<Message>)
    ensures ContentLength(a + b) == ContentLength(a) + ContentLength(b)
  {
    if a == [] {
      assert a + b == b;
    } else {
      assert (a + b)[1..] == a[1..] + b;
      ContentLengthAppend(a[1..], b);
    }
  }
}
