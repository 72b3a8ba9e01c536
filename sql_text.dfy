/** `SqlText`: how the front ends put text into SQL statements: single-quoted literals
    whose quotes are doubled, three-part table names, and the `meta` map expression. */
module SqlText {
  import opened Wrappers
  import Text

  /** `_esc(s)`: `(s or "").replace("'", "''")`. */
  function Esc(s: Option<string>): (r: string)
    ensures s.None? ==> r == ""
    ensures |r| == |s.GetOr("")| + Text.Count(s.GetOr(""), '\'')
  {
    Text.ReplaceCharLength(s.GetOr(""), '\'', "''");
    Text.ReplaceChar(s.GetOr(""), '\'', "''")
  }

  /** How SQL reads the body of a single-quoted literal: a doubled quote stands for one
      quote, a lone quote ends the literal. The result is the text of the literal and what
      follows the closing quote, or `None` when the literal never ends. */
  function ReadQuoted(t: string): (r: Option<(string, string)>)
    decreases |t|
  {
    if t == [] then None
    else if t[0] == '\'' then
      if |t| >= 2 && t[1] == '\'' then
        match ReadQuoted(t[2..])
        case None => None
        case Some(p) => Some(("'" + p.0, p.1))
      else Some(("", t[1..]))
    else
      match ReadQuoted(t[1..])
      case None => None
      case Some(p) => Some(([t[0]] + p.0, p.1))
  }

  /** The escaped text between quotes reads back as exactly the original text, and the
      statement goes on right after the closing quote: no text can end the literal early. */
  lemma {:induction false} EscReadsBack(s: string, rest: string)
    requires rest == [] || rest[0] != '\''
    ensures ReadQuoted(Esc(Some(s)) + "'" + rest) == Some((s, rest))
    decreases |s|
  {
    var e := Esc(Some(s));
    if s == [] {
      assert e == "";
      assert e + "'" + rest == "'" + rest;
      assert ("'" + rest)[1..] == rest;
    } else {
      var tail := Esc(Some(s[1..]));
      assert e == (if s[0] == '\'' then "''" else [s[0]]) + tail;
      EscReadsBack(s[1..], rest);
      var t := e + "'" + rest;
      if s[0] == '\'' {
        assert t[0] == '\'' && t[1] == '\'';
        assert t[2..] == tail + "'" + rest;
        assert "'" + s[1..] == s;
      } else {
        assert t[0] == s[0];
        assert t[1..] == tail + "'" + rest;
        assert [s[0]] + s[1..] == s;
      }
    }
  }

  /** Escaping is injective: different texts never give the same literal. */
  lemma EscInjective(a: string, b: string)
    requires Esc(Some(a)) == Esc(Some(b))
    ensures a == b
  {
    EscReadsBack(a, "");
    EscReadsBack(b, "");
  }

  /** Text without quotes is left as it is. */
  lemma {:induction false} EscWithoutQuotes(s: string)
    requires '\'' !in s
    ensures Esc(Some(s)) == s
    decreases |s|
  {
    if s != [] {
      EscWithoutQuotes(s[1..]);
      assert [s[0]] + s[1..] == s;
    }
  }

  /** `fqn(name)`: `catalog.schema.name`. */
  function Fqn(catalog: string, schema: string, name: string): (r: string)
    ensures |r| == |catalog| + |schema| + |name| + 2
  {
    catalog + "." + schema + "." + name
  }

  /** The three parts of a table name can be read back when none holds a dot. */
  lemma FqnParts(catalog: string, schema: string, name: string)
    requires '.' !in catalog && '.' !in schema && '.' !in name
    ensures Text.Split(Fqn(catalog, schema, name), '.') == [catalog, schema, name]
  {
    var parts := [catalog, schema, name];
    assert Text.Join(".", parts) == Fqn(catalog, schema, name) by {
      assert Text.Join(".", parts[2..]) == name;
      assert Text.Join(".", parts[1..]) == schema + "." + name;
    }
    Text.SplitJoin(parts, '.');
  }

  /** Python truthiness of an optional text. */
  predicate Given(s: Option<string>) {
    s.Some? && s.value != ""
  }

  /** The `meta` column: a map of the escaped email and SQL user when either is given,
      else the empty map. */
  function MetaExpr(email: Option<string>, sqlUser: Option<string>): (r: string)
    ensures !Given(email) && !Given(sqlUser) <==> r == "map()"
    ensures Given(email) || Given(sqlUser) ==>
      r == "map('email','" + Esc(email) + "','sql_user','" + Esc(sqlUser) + "')"
  {
    if Given(email) || Given(sqlUser) then
      var r := "map('email','" + Esc(email) + "','sql_user','" + Esc(sqlUser) + "')";
      assert r[..4] == "map(" && r[4] == '\'';
      r
    else "map()"
  }
}
