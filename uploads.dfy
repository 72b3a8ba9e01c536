/** The upload pipelines: a file lands under the user's folder of a Unity Catalog
    volume and is registered in the `documents` table. The lakehouse app turns
    delimited files and workbook sheets into external CSV tables through SQL
    statements; the root pipeline loads them into Delta tables and counts their rows.
    The file system, the warehouse, Spark and pandas are recorded as effects or passed
    in as their results, together with the exception each step may raise. */
module Uploads {
  import opened Wrappers
  import Text
  import SqlText

  const UNKNOWN_USER := "unknown_user"
  const DOCUMENTS := "documents"

  // ---------------------------------------------------------------------------
  // Paths

  /** `user_volume_root`: `/Volumes/{catalog}/{schema}/{volume}/{user_id}`, that is the
      slash-join of an empty first part, `Volumes` and the four names. */
  function UserVolumeRoot(catalog: string, schema: string, volume: string, userId: string): string {
    Text.Join("/", ["", "Volumes", catalog, schema, volume, userId])
  }

  /** The root is `/Volumes/` followed by the slash-joined names. */
  lemma VolumeRootPrefix(catalog: string, schema: string, volume: string, userId: string)
    ensures UserVolumeRoot(catalog, schema, volume, userId)
      == "/Volumes/" + Text.Join("/", [catalog, schema, volume, userId])
  {
    var names := [catalog, schema, volume, userId];
    JoinCons("/", "Volumes", names);
    assert ["", "Volumes", catalog, schema, volume, userId] == [""] + (["Volumes"] + names);
    JoinCons("/", "", ["Volumes"] + names);
    assert "/Volumes/" == "/" + "Volumes" + "/";
  }

  /** The parts of the root read back when none of the names holds a slash. */
  lemma VolumeRootParts(catalog: string, schema: string, volume: string, userId: string)
    requires '/' !in catalog && '/' !in schema && '/' !in volume && '/' !in userId
    ensures Text.Split(UserVolumeRoot(catalog, schema, volume, userId), '/') ==
            ["", "Volumes", catalog, schema, volume, userId]
  {
    var parts := ["", "Volumes", catalog, schema, volume, userId];
    assert forall k :: 0 <= k < |parts| ==> '/' !in parts[k] by {
      forall k | 0 <= k < |parts|
        ensures '/' !in parts[k]
      {
      }
    }
    Text.SplitJoin(parts, '/');
  }

  lemma JoinCons(sep: string, a: string, rest: seq<string>)
    requires rest != []
    ensures Text.Join(sep, [a] + rest) == a + sep + Text.Join(sep, rest)
  {
    assert ([a] + rest)[1..] == rest;
  }

  /** `os.path.join(a, b)` on POSIX: an absolute `b` replaces `a`; otherwise one slash
      separates them unless `a` is empty or already ends with one. */
  function PathJoin(a: string, b: string): string {
    if b != [] && b[0] == '/' then b
    else if a == [] || a[|a| - 1] == '/' then a + b
    else a + "/" + b
  }

  /** The joined path starts with `a` and ends with `b`, unless `b` is absolute. */
  lemma PathJoinShape(a: string, b: string)
    ensures var r := PathJoin(a, b);
      if b != [] && b[0] == '/' then r == b
      else |r| >= |a| + |b| && a <= r && r[|r| - |b|..] == b &&
           (a != [] && a[|a| - 1] != '/' ==> r == a + "/" + b)
  {
  }

  /** The position of the last `c` in `s`, or -1 (Python `s.rfind(c)`). */
  function LastIndexOf(s: string, c: char): (i: int)
    ensures -1 <= i < |s|
    ensures i >= 0 ==> s[i] == c
    ensures forall j :: i < j < |s| ==> s[j] != c
  {
    if s == [] then -1
    else if s[|s| - 1] == c then |s| - 1
    else LastIndexOf(s[..|s| - 1], c)
  }

  predicate AllDots(s: string) {
    forall i :: 0 <= i < |s| ==> s[i] == '.'
  }

  /** `os.path.splitext(p)`: the extension runs from the last dot of the last path
      component, unless that component has only dots before it. */
  function SplitExt(p: string): (r: (string, string))
    ensures r.0 + r.1 == p
  {
    var sep := LastIndexOf(p, '/');
    var dot := LastIndexOf(p, '.');
    if dot > sep && !AllDots(p[sep + 1..dot]) then (p[..dot], p[dot..]) else (p, [])
  }

  /** The extension is empty or one dot followed by neither dots nor slashes. */
  lemma ExtensionShape(p: string)
    ensures SplitExt(p).1 != [] ==> SplitExt(p).1[0] == '.'
    ensures forall i :: 0 < i < |SplitExt(p).1| ==>
      SplitExt(p).1[i] != '.' && SplitExt(p).1[i] != '/'
  {
    var sep := LastIndexOf(p, '/');
    var dot := LastIndexOf(p, '.');
    if dot > sep && !AllDots(p[sep + 1..dot]) {
      var e := p[dot..];
      assert SplitExt(p).1 == e;
      forall i | 0 < i < |e|
        ensures e[i] != '.' && e[i] != '/'
      {
        assert e[i] == p[dot + i];
      }
    } else {
      assert SplitExt(p).1 == [];
    }
  }

  /** A plain name followed by one extension splits at that extension. */
  lemma SplitExtOfName(base: string, ext: string)
    requires base != [] && '.' !in base && '/' !in base
    requires '.' !in ext && '/' !in ext
    ensures SplitExt(base + "." + ext) == (base, "." + ext)
  {
    var p := base + "." + ext;
    var dot := LastIndexOf(p, '.');
    var sep := LastIndexOf(p, '/');
    assert p[|base|] == '.';
    forall j | |base| < j < |p|
      ensures p[j] != '.' && p[j] != '/'
    {
      assert p[j] == ext[j - |base| - 1];
    }
    assert dot == |base|;
    forall j | 0 <= j < |base|
      ensures p[j] != '/' && p[j] != '.'
    {
      assert p[j] == base[j];
    }
    assert sep == -1;
    assert p[0] == base[0] != '.';
    assert !AllDots(p[sep + 1..dot]) by {
      assert p[sep + 1..dot][0] == p[0];
    }
    assert p[..dot] == base;
    assert p[dot..] == "." + ext;
  }

  /** `(os.path.splitext(file_name)[1] or "").lower()`. */
  function Extension(fileName: string): (ext: string)
    ensures |ext| == |SplitExt(fileName).1|
    ensures ext != [] ==> ext[0] == '.'
    ensures forall i :: 0 < i < |ext| ==> ext[i] != '.'
  {
    ExtensionShape(fileName);
    Text.Lower(SplitExt(fileName).1)
  }

  /** How a file is ingested, chosen by its extension. */
  datatype Kind = Delimited(tab: bool) | Workbook | Plain

  function Classify(ext: string): (k: Kind)
    ensures k.Delimited? <==> ext == ".csv" || ext == ".tsv"
    ensures k.Delimited? ==> (k.tab <==> ext == ".tsv")
    ensures k.Workbook? <==> ext == ".xlsx" || ext == ".xls"
  {
    if ext == ".csv" then Delimited(false)
    else if ext == ".tsv" then Delimited(true)
    else if ext == ".xlsx" || ext == ".xls" then Workbook
    else Plain
  }

  /** The `source_type` recorded for a file: `csv`, `tsv`, `excel`, or the extension
      without its dots. */
  function SourceType(ext: string): string {
    match Classify(ext)
    case Delimited(tab) => if tab then "tsv" else "csv"
    case Workbook => "excel"
    case Plain => Text.ReplaceChar(ext, '.', "")
  }

  /** For any other file the source type is the extension without its leading dot. */
  lemma PlainSourceType(fileName: string)
    requires Classify(Extension(fileName)).Plain?
    ensures SourceType(Extension(fileName))
      == (if Extension(fileName) == [] then [] else Extension(fileName)[1..])
    ensures '.' !in SourceType(Extension(fileName))
  {
    PlainSourceTypeOf(Extension(fileName));
  }

  lemma PlainSourceTypeOf(ext: string)
    requires Classify(ext).Plain?
    requires ext != [] ==> ext[0] == '.'
    requires forall i :: 0 < i < |ext| ==> ext[i] != '.'
    ensures SourceType(ext) == (if ext == [] then [] else ext[1..])
    ensures '.' !in SourceType(ext)
  {
    assert SourceType(ext) == Text.ReplaceChar(ext, '.', "");
    if ext != [] {
      assert '.' !in ext[1..] by {
        forall j | 0 <= j < |ext[1..]|
          ensures ext[1..][j] != '.'
        {
          assert ext[1..][j] == ext[j + 1];
        }
      }
      ReplaceWithoutChar(ext[1..], '.');
      assert Text.ReplaceChar(ext, '.', "") == "" + Text.ReplaceChar(ext[1..], '.', "");
    }
  }

  lemma {:induction false} ReplaceWithoutChar(s: string, c: char)
    requires c !in s
    ensures Text.ReplaceChar(s, c, "") == s
  {
    if s != [] {
      ReplaceWithoutChar(s[1..], c);
      assert [s[0]] + s[1..] == s;
    }
  }

  /** The separator pandas reads a delimited file with: a comma, or a tab for `.tsv`. */
  function Separator(tab: bool): string {
    if tab then "\t" else ","
  }

  // ---------------------------------------------------------------------------
  // Table names

  /** The user part of a table name: `user.replace('@','_').replace('.','_')`. */
  function SafeUser(user: string): (r: string)
    ensures '@' !in r && '.' !in r
  {
    var r := Text.ReplaceChar(Text.ReplaceChar(user, '@', "_"), '.', "_");
    Text.ReplaceCharRemoves(Text.ReplaceChar(user, '@', "_"), '.', "_");
    Text.ReplaceCharRemoves(user, '@', "_");
    RemovedStaysRemoved(Text.ReplaceChar(user, '@', "_"), '@', '.', "_");
    r
  }

  lemma {:induction false} RemovedStaysRemoved(s: string, a: char, c: char, r: string)
    requires a !in s && a !in r
    ensures a !in Text.ReplaceChar(s, c, r)
  {
    if s != [] {
      RemovedStaysRemoved(s[1..], a, c, r);
    }
  }

  /** `u_{user}_{doc_id}` with the user's `@` and `.` and the id's `-` made underscores. */
  function TableName(user: string, docId: string): string {
    "u_" + SafeUser(user) + "_" + Text.ReplaceChar(docId, '-', "_")
  }

  /** The table of one workbook sheet: the spaces of its name become underscores. */
  function SheetTableName(user: string, docId: string, sheet: string): string {
    TableName(user, docId) + "_" + Text.ReplaceChar(sheet, ' ', "_")
  }

  /** A table name holds no dot when the document id does not, so the three-part name
      under the catalog and schema reads back as those three parts. */
  lemma TableNameParts(catalog: string, schema: string, user: string, docId: string)
    requires '.' !in catalog && '.' !in schema && '.' !in docId
    ensures '.' !in TableName(user, docId)
    ensures Text.Split(SqlText.Fqn(catalog, schema, TableName(user, docId)), '.') ==
            [catalog, schema, TableName(user, docId)]
  {
    var id := Text.ReplaceChar(docId, '-', "_");
    RemovedStaysRemoved(docId, '.', '-', "_");
    Text.ReplaceCharRemoves(docId, '-', "_");
    assert '.' !in SafeUser(user);
    SqlText.FqnParts(catalog, schema, TableName(user, docId));
  }

  /** A sheet whose name has no dot gives a table whose three-part name reads back. */
  lemma SheetTableNameParts(catalog: string, schema: string, user: string, docId: string, sheet: string)
    requires '.' !in catalog && '.' !in schema && '.' !in docId && '.' !in sheet
    ensures Text.Split(SqlText.Fqn(catalog, schema, SheetTableName(user, docId, sheet)), '.') ==
            [catalog, schema, SheetTableName(user, docId, sheet)]
  {
    TableNameParts(catalog, schema, user, docId);
    RemovedStaysRemoved(sheet, '.', ' ', "_");
    SqlText.FqnParts(catalog, schema, SheetTableName(user, docId, sheet));
  }

  // ---------------------------------------------------------------------------
  // Documents

  /** One row of the `documents` table; every column is text. */
  datatype Document = Document(docId: string, userId: string, tenantId: string,
                               sourceType: string, ucTable: string, filePath: string,
                               sheet: string, numRows: string, createdAt: string)

  /** The columns, in the order the dictionary lists them. */
  const DOC_COLUMNS: seq<string> :=
    ["doc_id", "user_id", "tenant_id", "source_type", "uc_table", "file_path", "sheet",
     "num_rows", "created_at"]

  /** The values, in the same order. */
  function DocValues(d: Document): (vs: seq<string>)
    ensures |vs| == |DOC_COLUMNS|
  {
    [d.docId, d.userId, d.tenantId, d.sourceType, d.ucTable, d.filePath, d.sheet, d.numRows,
     d.createdAt]
  }

  /** `'...'` with the quotes of the text doubled. */
  function Quoted(v: string): string {
    "'" + SqlText.Esc(Some(v)) + "'"
  }

  function QuotedAll(vs: seq<string>): (qs: seq<string>)
    ensures |qs| == |vs|
  {
    if vs == [] then [] else [Quoted(vs[0])] + QuotedAll(vs[1..])
  }

  /** The start of `register_document`'s statement, up to the value list. */
  function InsertHead(catalog: string, schema: string): string {
    "INSERT INTO " + SqlText.Fqn(catalog, schema, DOCUMENTS) + " (" + Text.Join(",", DOC_COLUMNS)
    + ") VALUES ("
  }

  /** `register_document`'s statement in the lakehouse app. */
  function RegisterStatement(d: Document, catalog: string, schema: string): string {
    InsertHead(catalog, schema) + Text.Join(", ", QuotedAll(DocValues(d))) + ")"
  }

  /** The length of what `ReadQuoted` leaves is less than what it read. */
  lemma {:induction false} ReadQuotedShorter(t: string)
    requires SqlText.ReadQuoted(t).Some?
    ensures |SqlText.ReadQuoted(t).value.1| < |t|
    decreases |t|
  {
    if t[0] == '\'' {
      if |t| >= 2 && t[1] == '\'' {
        ReadQuotedShorter(t[2..]);
      }
    } else {
      ReadQuotedShorter(t[1..]);
    }
  }

  /** How SQL reads a value list `'a', 'b', ...)`: the literals, and what follows the
      closing parenthesis. */
  function ReadValues(t: string): Option<(seq<string>, string)>
    decreases |t|
  {
    if t == [] || t[0] != '\'' then None
    else
      match SqlText.ReadQuoted(t[1..])
      case None => None
      case Some(p) =>
        ReadQuotedShorter(t[1..]);
        var rest := p.1;
        if |rest| >= 2 && rest[0] == ',' && rest[1] == ' ' then
          match ReadValues(rest[2..])
          case None => None
          case Some(q) => Some(([p.0] + q.0, q.1))
        else if rest != [] && rest[0] == ')' then Some(([p.0], rest[1..]))
        else None
  }

  /** The quoted list reads back as exactly the values, whatever they hold, and the
      statement resumes right after the parenthesis. */
  lemma {:induction false} ValuesReadBack(vs: seq<string>, tail: string)
    requires vs != []
    ensures ReadValues(Text.Join(", ", QuotedAll(vs)) + ")" + tail) == Some((vs, tail))
    decreases |vs|
  {
    var qs := QuotedAll(vs);
    if |vs| == 1 {
      assert qs == [Quoted(vs[0])];
      var rest := ")" + tail;
      assert Text.Join(", ", qs) + ")" + tail == Quoted(vs[0]) + rest;
      QuotedThen(vs[0], rest);
      assert rest[1..] == tail;
      assert [vs[0]] == vs;
    } else {
      var more := Text.Join(", ", QuotedAll(vs[1..])) + ")" + tail;
      ValuesReadBack(vs[1..], tail);
      assert qs[1..] == QuotedAll(vs[1..]);
      var rest := ", " + more;
      assert Text.Join(", ", qs) + ")" + tail == Quoted(vs[0]) + rest;
      QuotedThen(vs[0], rest);
      assert rest[2..] == more;
      assert [vs[0]] + vs[1..] == vs;
    }
  }

  /** A quoted literal followed by something other than a quote reads back as the
      value and leaves what follows. */
  lemma QuotedThen(v: string, rest: string)
    requires rest == [] || rest[0] != '\''
    ensures var t := Quoted(v) + rest;
      t != [] && t[0] == '\'' && SqlText.ReadQuoted(t[1..]) == Some((v, rest))
  {
    var e := SqlText.Esc(Some(v));
    var t := Quoted(v) + rest;
    assert t == "'" + (e + "'" + rest);
    assert t[1..] == e + "'" + rest;
    SqlText.EscReadsBack(v, rest);
  }

  /** Every value of a registered document reaches the table as written: the value list
      of the statement reads back as the document's values and ends the statement. */
  lemma RegisterStatementReadsBack(d: Document, catalog: string, schema: string)
    ensures var s := RegisterStatement(d, catalog, schema);
      var h := |InsertHead(catalog, schema)|;
      h <= |s| && ReadValues(s[h..]) == Some((DocValues(d), ""))
  {
    var h := InsertHead(catalog, schema);
    var values := Text.Join(", ", QuotedAll(DocValues(d))) + ")";
    assert RegisterStatement(d, catalog, schema) == h + values;
    assert (h + values)[|h|..] == values;
    ValuesReadBack(DocValues(d), "");
    assert values + "" == values;
  }

  /** The Spark schema of the root pipeline's document row: every column typed
      `string`, in key order. */
  function SchemaString(cols: seq<string>): string {
    Text.Join(",", seq(|cols|, i requires 0 <= i < |cols| => cols[i] + " string"))
  }

  /** The schema lists one `name string` entry per column, in order. */
  lemma SchemaEntries(cols: seq<string>)
    requires cols != []
    requires forall i :: 0 <= i < |cols| ==> ',' !in cols[i]
    ensures Text.Split(SchemaString(cols), ',') ==
            seq(|cols|, i requires 0 <= i < |cols| => cols[i] + " string")
  {
    var entries := seq(|cols|, i requires 0 <= i < |cols| => cols[i] + " string");
    forall k | 0 <= k < |entries|
      ensures ',' !in entries[k]
    {
      assert ',' !in " string";
    }
    Text.SplitJoin(entries, ',');
  }

  // ---------------------------------------------------------------------------
  // The effects of an upload

  /** What an upload does outside the process, in order. */
  datatype Effect =
    | SaveFile(path: string)                                  // `save_file_to_volume`
    | ReadCsv(savedAs: string, sep: string)                    // `pd.read_csv(io.BytesIO(bytes_data), sep=sep)`:
                                                              // the uploaded bytes, named by where they were saved
    | WriteSheetCsv(sheet: string, path: string)               // `df.to_csv(csv_path)`
    | CreateTable(catalog: string, schema: string, table: string, location: string)
    | Register(doc: Document, catalog: string, schema: string) // INSERT into `documents`
    | Ingest(table: string, rows: nat)                         // overwrite a Delta table
    | AppendDocument(doc: Document, table: string)             // append to `documents`

  /** `create_csv_external_table` with `header=True`: the location is put between quotes
      as it is. */
  function CreateTableStatement(catalog: string, schema: string, table: string, location: string): string {
    "\n    CREATE TABLE IF NOT EXISTS " + SqlText.Fqn(catalog, schema, table)
    + "\n    USING CSV OPTIONS (header true)\n    LOCATION '" + location + "'\n    "
  }

  /** The table an effect creates, as its three-part name. */
  function TableOf(e: Effect): seq<string> {
    match e
    case CreateTable(c, s, t, _) => [SqlText.Fqn(c, s, t)]
    case Ingest(t, _) => [t]
    case _ => []
  }

  /** The document an effect registers. */
  function DocOf(e: Effect): seq<Document> {
    match e
    case Register(d, _, _) => [d]
    case AppendDocument(d, _) => [d]
    case _ => []
  }

  /** The tables an effect list creates, in order. */
  function TablesCreated(es: seq<Effect>): seq<string> {
    if es == [] then [] else TablesCreated(es[..|es| - 1]) + TableOf(es[|es| - 1])
  }

  /** The documents an effect list registers, in order. */
  function Registered(es: seq<Effect>): seq<Document> {
    if es == [] then [] else Registered(es[..|es| - 1]) + DocOf(es[|es| - 1])
  }

  lemma {:induction false} TablesCreatedAppend(a: seq<Effect>, b: seq<Effect>)
    ensures TablesCreated(a + b) == TablesCreated(a) + TablesCreated(b)
    decreases |b|
  {
    if b == [] {
      assert a + b == a;
    } else {
      var init := b[..|b| - 1];
      var ab := a + b;
      assert ab[..|ab| - 1] == a + init;
      assert ab[|ab| - 1] == b[|b| - 1];
      TablesCreatedAppend(a, init);
      assert TablesCreated(ab) == TablesCreated(a + init) + TableOf(b[|b| - 1]);
    }
  }

  lemma {:induction false} RegisteredAppend(a: seq<Effect>, b: seq<Effect>)
    ensures Registered(a + b) == Registered(a) + Registered(b)
    decreases |b|
  {
    if b == [] {
      assert a + b == a;
    } else {
      var init := b[..|b| - 1];
      var ab := a + b;
      assert ab[..|ab| - 1] == a + init;
      assert ab[|ab| - 1] == b[|b| - 1];
      RegisteredAppend(a, init);
      assert Registered(ab) == Registered(a + init) + DocOf(b[|b| - 1]);
    }
  }

  /** The tables and documents of a short list of effects. */
  lemma Effects1(a: Effect)
    ensures TablesCreated([a]) == TableOf(a) && Registered([a]) == DocOf(a)
  {
    assert [a][..0] == [];
  }

  lemma Effects2(a: Effect, b: Effect)
    ensures TablesCreated([a, b]) == TableOf(a) + TableOf(b)
    ensures Registered([a, b]) == DocOf(a) + DocOf(b)
  {
    assert [a, b][..1] == [a];
    Effects1(a);
  }

  lemma Effects3(a: Effect, b: Effect, c: Effect)
    ensures TablesCreated([a, b, c]) == TableOf(a) + TableOf(b) + TableOf(c)
    ensures Registered([a, b, c]) == DocOf(a) + DocOf(b) + DocOf(c)
  {
    assert [a, b, c][..2] == [a, b];
    Effects2(a, b);
  }

  // ---------------------------------------------------------------------------
  // Runs that stop at the first step that raises

  /** The effects of `es` that take place: every step up to the first one that raises.
      `fail(e)` is the text of the exception step `e` raises, `None` when it succeeds. */
  function Completed(es: seq<Effect>, fail: Effect -> Option<string>): (done: seq<Effect>)
    ensures |done| <= |es| && done == es[..|done|]
    ensures forall i :: 0 <= i < |done| ==> fail(es[i]).None?
    ensures |done| < |es| ==> fail(es[|done|]).Some?
  {
    if es == [] then []
    else if fail(es[0]).Some? then []
    else [es[0]] + Completed(es[1..], fail)
  }

  /** The exception a run of `es` ends with: that of its first raising step. */
  function FirstFailure(es: seq<Effect>, fail: Effect -> Option<string>): (err: Option<string>)
  {
    if es == [] then None
    else if fail(es[0]).Some? then fail(es[0])
    else FirstFailure(es[1..], fail)
  }

  /** A run ends with an exception exactly when it stops short, and the exception is the
      one of the step it stopped at. */
  lemma {:induction false} FirstFailureStops(es: seq<Effect>, fail: Effect -> Option<string>)
    ensures var done := Completed(es, fail);
      (FirstFailure(es, fail).None? <==> done == es)
      && (|done| < |es| ==> FirstFailure(es, fail) == fail(es[|done|]))
    decreases |es|
  {
    if es != [] && fail(es[0]).None? {
      FirstFailureStops(es[1..], fail);
    }
  }

  /** A run of `a + b` is the run of `a`, followed by the run of `b` when `a` raised
      nothing. */
  lemma {:induction false} CompletedAppend(a: seq<Effect>, b: seq<Effect>, fail: Effect -> Option<string>)
    ensures FirstFailure(a, fail).Some? ==>
      Completed(a + b, fail) == Completed(a, fail) && FirstFailure(a + b, fail) == FirstFailure(a, fail)
    ensures FirstFailure(a, fail).None? ==>
      Completed(a + b, fail) == a + Completed(b, fail) && FirstFailure(a + b, fail) == FirstFailure(b, fail)
    decreases |a|
  {
    if a == [] {
      assert a + b == b;
    } else {
      assert (a + b)[0] == a[0];
      assert (a + b)[1..] == a[1..] + b;
      if fail(a[0]).None? {
        CompletedAppend(a[1..], b, fail);
        assert a == [a[0]] + a[1..];
      }
    }
  }

  /** A run that gets through `before` goes on into `step`: when `step` raises, the run
      ends there with its exception and `after` issues nothing; otherwise `before + step`
      raises nothing. */
  lemma RunThrough(before: seq<Effect>, step: seq<Effect>, after: seq<Effect>, fail: Effect -> Option<string>)
    requires FirstFailure(before, fail).None?
    ensures FirstFailure(step, fail).Some? ==>
      Completed(before + (step + after), fail) == before + Completed(step, fail)
      && FirstFailure(before + (step + after), fail) == FirstFailure(step, fail)
    ensures FirstFailure(step, fail).None? ==> FirstFailure(before + step, fail).None?
  {
    CompletedAppend(before, step + after, fail);
    CompletedAppend(step, after, fail);
    CompletedAppend(before, step, fail);
  }

  lemma AppendAssoc(x: seq<Effect>, y: seq<Effect>, z: seq<Effect>)
    ensures (x + y) + z == x + (y + z)
  {
  }

  /** The run of a single step. */
  lemma CompletedOne(e: Effect, fail: Effect -> Option<string>)
    ensures Completed([e], fail) == (if fail(e).None? then [e] else [])
    ensures FirstFailure([e], fail) == fail(e)
  {
    assert [e][1..] == [];
  }

  /** A run that raises nothing issues every step. */
  lemma CompletedAll(es: seq<Effect>, fail: Effect -> Option<string>)
    requires forall i :: 0 <= i < |es| ==> fail(es[i]).None?
    ensures Completed(es, fail) == es && FirstFailure(es, fail).None?
  {
    FirstFailureStops(es, fail);
  }

  /** The tables a run creates before it stops are the first of those a full run
      creates, and likewise its documents. */
  lemma CompletedCreatesPrefix(es: seq<Effect>, fail: Effect -> Option<string>)
    ensures TablesCreated(Completed(es, fail)) <= TablesCreated(es)
    ensures Registered(Completed(es, fail)) <= Registered(es)
  {
    var done := Completed(es, fail);
    assert es == done + es[|done|..];
    TablesCreatedAppend(done, es[|done|..]);
    RegisteredAppend(done, es[|done|..]);
  }

  /** What the caller passes to `process_upload`. */
  datatype Request = Request(fileName: string, catalog: string, schema: string,
                             volume: string, tenantId: string)

  /** The values the upload takes from outside: the user, `uuid.uuid4()` and the
      `utcnow()` timestamp. */
  datatype Stamp = Stamp(user: string, docId: string, createdAt: string)

  function Root(q: Request, user: string): string {
    UserVolumeRoot(q.catalog, q.schema, q.volume, user)
  }

  /** `os.path.join(os.path.join(root, "uploads"), file_name)`. */
  function DestPath(q: Request, user: string): string {
    PathJoin(PathJoin(Root(q, user), "uploads"), q.fileName)
  }

  /** The CSV a sheet is extracted to: `{extracted}/{stem}_{sheet}.csv`. */
  function SheetCsvPath(q: Request, user: string, sheet: string): string {
    PathJoin(PathJoin(Root(q, user), "extracted"), SplitExt(q.fileName).0 + "_" + sheet + ".csv")
  }

  /** The document row every branch registers, with its varying columns. */
  function Doc(q: Request, st: Stamp, sourceType: string, ucTable: string, filePath: string,
               sheet: string, numRows: string): Document {
    Document(st.docId, st.user, q.tenantId, sourceType, ucTable, filePath, sheet, numRows, st.createdAt)
  }

  // ---------------------------------------------------------------------------
  // The lakehouse app's pipeline

  /** The tables of the sheets, in sheet order. */
  function SheetTableNames(user: string, docId: string, sheets: seq<string>): (r: seq<string>)
    ensures |r| == |sheets|
  {
    if sheets == [] then []
    else SheetTableNames(user, docId, sheets[..|sheets| - 1])
         + [SheetTableName(user, docId, sheets[|sheets| - 1])]
  }

  lemma {:induction false} SheetTableNamesAt(user: string, docId: string, sheets: seq<string>, i: nat)
    requires i < |sheets|
    ensures SheetTableNames(user, docId, sheets)[i] == SheetTableName(user, docId, sheets[i])
    decreases |sheets|
  {
    if i < |sheets| - 1 {
      SheetTableNamesAt(user, docId, sheets[..|sheets| - 1], i);
    }
  }

  /** `catalog.schema.name` for each name. */
  function Qualified(catalog: string, schema: string, names: seq<string>): (r: seq<string>)
    ensures |r| == |names|
  {
    if names == [] then []
    else Qualified(catalog, schema, names[..|names| - 1]) + [SqlText.Fqn(catalog, schema, names[|names| - 1])]
  }

  lemma {:induction false} QualifiedAt(catalog: string, schema: string, names: seq<string>, i: nat)
    requires i < |names|
    ensures Qualified(catalog, schema, names)[i] == SqlText.Fqn(catalog, schema, names[i])
    decreases |names|
  {
    if i < |names| - 1 {
      QualifiedAt(catalog, schema, names[..|names| - 1], i);
    }
  }

  /** The table names `process_upload` returns. */
  function UploadTables(q: Request, st: Stamp, sheets: seq<string>): seq<string> {
    match Classify(Extension(q.fileName))
    case Delimited(_) => [TableName(st.user, st.docId)]
    case Workbook => SheetTableNames(st.user, st.docId, sheets)
    case Plain => []
  }

  /** The document registered for one sheet. */
  function SheetDoc(q: Request, st: Stamp, sheet: string): Document {
    Doc(q, st, "excel", SqlText.Fqn(q.catalog, q.schema, SheetTableName(st.user, st.docId, sheet)),
        SheetCsvPath(q, st.user, sheet), sheet, "0")
  }

  /** The effects of one sheet: its CSV, its table and its document. */
  function SheetSteps(q: Request, st: Stamp, sheet: string): seq<Effect> {
    var path := SheetCsvPath(q, st.user, sheet);
    [WriteSheetCsv(sheet, path),
     CreateTable(q.catalog, q.schema, SheetTableName(st.user, st.docId, sheet), path),
     Register(SheetDoc(q, st, sheet), q.catalog, q.schema)]
  }

  function SheetsSteps(q: Request, st: Stamp, sheets: seq<string>): seq<Effect> {
    if sheets == [] then []
    else SheetsSteps(q, st, sheets[..|sheets| - 1]) + SheetSteps(q, st, sheets[|sheets| - 1])
  }

  /** The effects of a delimited file: its external table over the saved file, and its
      document. */
  function DelimitedSteps(q: Request, st: Stamp, tab: bool): seq<Effect> {
    var dest := DestPath(q, st.user);
    var table := TableName(st.user, st.docId);
    [CreateTable(q.catalog, q.schema, table, dest),
     Register(Doc(q, st, if tab then "tsv" else "csv", SqlText.Fqn(q.catalog, q.schema, table), dest, "", "0"),
              q.catalog, q.schema)]
  }

  lemma SheetsStepsSnoc(q: Request, st: Stamp, sheets: seq<string>, i: nat)
    requires i < |sheets|
    ensures SheetsSteps(q, st, sheets[..i + 1]) == SheetsSteps(q, st, sheets[..i]) + SheetSteps(q, st, sheets[i])
    ensures SheetTableNames(st.user, st.docId, sheets[..i + 1]) ==
            SheetTableNames(st.user, st.docId, sheets[..i]) + [SheetTableName(st.user, st.docId, sheets[i])]
  {
    assert sheets[..i + 1][..i] == sheets[..i];
  }

  /** The effects after the file is saved, by kind of file. */
  function UploadSteps(q: Request, st: Stamp, sheets: seq<string>): seq<Effect> {
    var ext := Extension(q.fileName);
    var dest := DestPath(q, st.user);
    match Classify(ext)
    case Delimited(tab) => DelimitedSteps(q, st, tab)
    case Workbook => SheetsSteps(q, st, sheets)
    case Plain => [Register(Doc(q, st, SourceType(ext), "", dest, "", "0"), q.catalog, q.schema)]
  }

  /** `{"doc_id": ..., "file_path": ..., "rows": ..., "tables": ...}`. */
  datatype Upload = Upload(docId: string, filePath: string, rows: nat, tables: seq<string>)

  /** Per sheet: one table and one document, in sheet order. */
  lemma SheetStepShape(q: Request, st: Stamp, sheet: string)
    ensures TablesCreated(SheetSteps(q, st, sheet)) ==
            [SqlText.Fqn(q.catalog, q.schema, SheetTableName(st.user, st.docId, sheet))]
    ensures Registered(SheetSteps(q, st, sheet)) == [SheetDoc(q, st, sheet)]
  {
    var path := SheetCsvPath(q, st.user, sheet);
    Effects3(WriteSheetCsv(sheet, path),
             CreateTable(q.catalog, q.schema, SheetTableName(st.user, st.docId, sheet), path),
             Register(SheetDoc(q, st, sheet), q.catalog, q.schema));
  }

  lemma {:induction false} SheetsStepsShape(q: Request, st: Stamp, sheets: seq<string>)
    ensures TablesCreated(SheetsSteps(q, st, sheets)) ==
            Qualified(q.catalog, q.schema, SheetTableNames(st.user, st.docId, sheets))
    ensures Registered(SheetsSteps(q, st, sheets)) == SheetDocs(q, st, sheets)
    decreases |sheets|
  {
    if sheets != [] {
      var init := sheets[..|sheets| - 1];
      var last := sheets[|sheets| - 1];
      SheetsStepsShape(q, st, init);
      var before := SheetsSteps(q, st, init);
      var steps := SheetSteps(q, st, last);
      assert SheetsSteps(q, st, sheets) == before + steps;
      TablesCreatedAppend(before, steps);
      RegisteredAppend(before, steps);
      SheetStepShape(q, st, last);
      var names := SheetTableNames(st.user, st.docId, sheets);
      assert names[..|names| - 1] == SheetTableNames(st.user, st.docId, init);
      assert names[|names| - 1] == SheetTableName(st.user, st.docId, last);
    }
  }

  /** The documents of the sheets, in sheet order. */
  function SheetDocs(q: Request, st: Stamp, sheets: seq<string>): (r: seq<Document>)
    ensures |r| == |sheets|
  {
    if sheets == [] then [] else SheetDocs(q, st, sheets[..|sheets| - 1]) + [SheetDoc(q, st, sheets[|sheets| - 1])]
  }

  lemma {:induction false} SheetDocsAt(q: Request, st: Stamp, sheets: seq<string>, i: nat)
    requires i < |sheets|
    ensures SheetDocs(q, st, sheets)[i] == SheetDoc(q, st, sheets[i])
    decreases |sheets|
  {
    if i < |sheets| - 1 {
      SheetDocsAt(q, st, sheets[..|sheets| - 1], i);
    }
  }

  /** The tables `process_upload` returns are the ones it creates, in order, and each
      created table is registered under its three-part name. */
  lemma UploadTablesAreCreated(q: Request, st: Stamp, sheets: seq<string>)
    ensures TablesCreated(UploadSteps(q, st, sheets)) ==
            Qualified(q.catalog, q.schema, UploadTables(q, st, sheets))
    ensures Classify(Extension(q.fileName)).Workbook? ==>
      |Registered(UploadSteps(q, st, sheets))| == |UploadTables(q, st, sheets)|
    ensures Classify(Extension(q.fileName)).Workbook? ==>
      forall i :: 0 <= i < |UploadTables(q, st, sheets)| ==>
        Registered(UploadSteps(q, st, sheets))[i].ucTable
          == SqlText.Fqn(q.catalog, q.schema, UploadTables(q, st, sheets)[i])
  {
    var kind := Classify(Extension(q.fileName));
    if kind.Workbook? {
      SheetTablesRegistered(q, st, sheets);
    } else if kind.Delimited? {
      DelimitedTables(q, st, kind.tab);
    } else {
      var es := UploadSteps(q, st, sheets);
      assert es == [es[0]];
      Effects1(es[0]);
    }
  }

  /** A delimited file creates one table, its own. */
  lemma DelimitedTables(q: Request, st: Stamp, tab: bool)
    ensures TablesCreated(DelimitedSteps(q, st, tab))
      == Qualified(q.catalog, q.schema, [TableName(st.user, st.docId)])
  {
    var es := DelimitedSteps(q, st, tab);
    Effects2(es[0], es[1]);
    assert [TableName(st.user, st.docId)][..0] == [];
  }

  /** Each sheet's document names the sheet's table under its three-part name. */
  lemma SheetTablesRegistered(q: Request, st: Stamp, sheets: seq<string>)
    ensures TablesCreated(SheetsSteps(q, st, sheets)) ==
            Qualified(q.catalog, q.schema, SheetTableNames(st.user, st.docId, sheets))
    ensures |Registered(SheetsSteps(q, st, sheets))| == |sheets|
    ensures forall i :: 0 <= i < |sheets| ==>
      Registered(SheetsSteps(q, st, sheets))[i].ucTable
        == SqlText.Fqn(q.catalog, q.schema, SheetTableNames(st.user, st.docId, sheets)[i])
  {
    SheetsStepsShape(q, st, sheets);
    forall i | 0 <= i < |sheets|
      ensures SheetDocs(q, st, sheets)[i].ucTable
        == SqlText.Fqn(q.catalog, q.schema, SheetTableNames(st.user, st.docId, sheets)[i])
    {
      SheetTableNamesAt(st.user, st.docId, sheets, i);
      SheetDocsAt(q, st, sheets, i);
    }
  }

  /** A file that is neither delimited nor a workbook creates no table and registers one
      document with an empty `uc_table` and its extension, undotted, as source type. */
  lemma PlainUploadRegistersOnly(q: Request, st: Stamp, sheets: seq<string>)
    requires Classify(Extension(q.fileName)).Plain?
    ensures TablesCreated(UploadSteps(q, st, sheets)) == []
    ensures var docs := Registered(UploadSteps(q, st, sheets));
      |docs| == 1 && docs[0].ucTable == "" && docs[0].filePath == DestPath(q, st.user) &&
      '.' !in docs[0].sourceType
  {
    var es := UploadSteps(q, st, sheets);
    assert es == [es[0]];
    Effects1(es[0]);
    PlainSourceType(q.fileName);
  }

  /** What a run returns: the exception it ended with, or its value. */
  function Finished<T>(err: Option<string>, v: T): (r: Result<T>)
    ensures r.Ok? <==> err.None?
    ensures r.Ok? ==> r.value == v
    ensures r.Err? ==> r.error == err.value
  {
    if err.Some? then Err(err.value) else Ok(v)
  }

  /** The run of a step followed by others: the step, then the others unless it raised. */
  lemma CompletedCons(e: Effect, rest: seq<Effect>, fail: Effect -> Option<string>)
    ensures Completed([e] + rest, fail) == (if fail(e).None? then [e] + Completed(rest, fail) else [])
    ensures FirstFailure([e] + rest, fail) == (if fail(e).None? then FirstFailure(rest, fail) else fail(e))
  {
    assert ([e] + rest)[0] == e;
    assert ([e] + rest)[1..] == rest;
  }

  lemma {:induction false} SheetsStepsAppend(q: Request, st: Stamp, a: seq<string>, b: seq<string>)
    ensures SheetsSteps(q, st, a + b) == SheetsSteps(q, st, a) + SheetsSteps(q, st, b)
    decreases |b|
  {
    if b == [] {
      assert a + b == a;
    } else {
      var init := b[..|b| - 1];
      assert (a + b)[..|a + b| - 1] == a + init;
      assert (a + b)[|a + b| - 1] == b[|b| - 1];
      SheetsStepsAppend(q, st, a, init);
    }
  }

  /** One sheet of a workbook run whose earlier sheets raised nothing: when the sheet
      raises, the run ends there with its exception and the later sheets issue nothing;
      otherwise the sheets so far still raise nothing. */
  lemma SheetsRunStep(q: Request, st: Stamp, sheets: seq<string>, i: nat, fail: Effect -> Option<string>)
    requires i < |sheets|
    requires FirstFailure(SheetsSteps(q, st, sheets[..i]), fail).None?
    ensures var step := SheetSteps(q, st, sheets[i]);
      FirstFailure(step, fail).Some? ==>
        Completed(SheetsSteps(q, st, sheets), fail) == SheetsSteps(q, st, sheets[..i]) + Completed(step, fail)
        && FirstFailure(SheetsSteps(q, st, sheets), fail) == FirstFailure(step, fail)
    ensures FirstFailure(SheetSteps(q, st, sheets[i]), fail).None? ==>
      FirstFailure(SheetsSteps(q, st, sheets[..i + 1]), fail).None?
  {
    SheetsStepsSplit(q, st, sheets, i);
    RunThrough(SheetsSteps(q, st, sheets[..i]), SheetSteps(q, st, sheets[i]), SheetsSteps(q, st, sheets[i + 1..]), fail);
  }

  /** The workbook's steps around sheet `i`. */
  lemma SheetsStepsSplit(q: Request, st: Stamp, sheets: seq<string>, i: nat)
    requires i < |sheets|
    ensures SheetsSteps(q, st, sheets) ==
      SheetsSteps(q, st, sheets[..i]) + (SheetSteps(q, st, sheets[i]) + SheetsSteps(q, st, sheets[i + 1..]))
    ensures SheetsSteps(q, st, sheets[..i + 1]) == SheetsSteps(q, st, sheets[..i]) + SheetSteps(q, st, sheets[i])
  {
    var a, b := sheets[..i + 1], sheets[i + 1..];
    assert a + b == sheets;
    SheetsStepsAppend(q, st, a, b);
    SheetsStepsSnoc(q, st, sheets, i);
    AppendAssoc(SheetsSteps(q, st, sheets[..i]), SheetSteps(q, st, sheets[i]), SheetsSteps(q, st, b));
  }

  /** No prefix of `es` has registered more documents than it has created tables: a run
      of `es` that stops anywhere leaves no document ahead of its table. */
  ghost predicate TablesFirst(es: seq<Effect>) {
    forall k :: 0 <= k <= |es| ==> |Registered(es[..k])| <= |TablesCreated(es[..k])|
  }

  lemma TablesFirstAppend(a: seq<Effect>, b: seq<Effect>)
    requires TablesFirst(a) && TablesFirst(b)
    ensures TablesFirst(a + b)
  {
    assert a[..|a|] == a;
    forall k | 0 <= k <= |a + b|
      ensures |Registered((a + b)[..k])| <= |TablesCreated((a + b)[..k])|
    {
      if k <= |a| {
        assert (a + b)[..k] == a[..k];
      } else {
        assert (a + b)[..k] == a + b[..k - |a|];
        TablesCreatedAppend(a, b[..k - |a|]);
        RegisteredAppend(a, b[..k - |a|]);
      }
    }
  }

  /** A step that neither creates nor registers anything. */
  lemma TablesFirstQuiet(e: Effect)
    requires TableOf(e) == [] && DocOf(e) == []
    ensures TablesFirst([e])
  {
    Effects1(e);
    assert [e][..0] == [] && [e][..1] == [e];
  }

  /** A table followed by a document. */
  lemma TablesFirstPair(c: Effect, r: Effect)
    requires |TableOf(c)| == 1 && DocOf(c) == [] && TableOf(r) == [] && |DocOf(r)| == 1
    ensures TablesFirst([c, r])
  {
    Effects1(c);
    Effects2(c, r);
    assert [c, r][..0] == [] && [c, r][..1] == [c] && [c, r][..2] == [c, r];
  }

  lemma {:induction false} SheetsTablesFirst(q: Request, st: Stamp, sheets: seq<string>)
    ensures TablesFirst(SheetsSteps(q, st, sheets))
    decreases |sheets|
  {
    if sheets == [] {
      assert SheetsSteps(q, st, sheets) == [];
    } else {
      var last := sheets[|sheets| - 1];
      var path := SheetCsvPath(q, st.user, last);
      var w := WriteSheetCsv(last, path);
      var c := CreateTable(q.catalog, q.schema, SheetTableName(st.user, st.docId, last), path);
      var r := Register(SheetDoc(q, st, last), q.catalog, q.schema);
      SheetsTablesFirst(q, st, sheets[..|sheets| - 1]);
      TablesFirstQuiet(w);
      TablesFirstPair(c, r);
      TablesFirstAppend([w], [c, r]);
      assert SheetSteps(q, st, last) == [w] + [c, r];
      TablesFirstAppend(SheetsSteps(q, st, sheets[..|sheets| - 1]), SheetSteps(q, st, last));
    }
  }

  /** Whatever step an upload of a delimited file or a workbook stops at, every document
      it registered comes after its table: the documents are never more than the tables. */
  lemma UploadRunTablesFirst(q: Request, st: Stamp, sheets: seq<string>, fail: Effect -> Option<string>)
    requires !Classify(Extension(q.fileName)).Plain?
    ensures |Registered(Completed(UploadSteps(q, st, sheets), fail))|
         <= |TablesCreated(Completed(UploadSteps(q, st, sheets), fail))|
  {
    match Classify(Extension(q.fileName))
    case Delimited(tab) =>
      var es := DelimitedSteps(q, st, tab);
      TablesFirstPair(es[0], es[1]);
      assert es == [es[0], es[1]];
    case Workbook =>
      SheetsTablesFirst(q, st, sheets);
    StoppedTablesFirst(UploadSteps(q, st, sheets), fail);
  }

  /** A run that stops anywhere in steps that create tables first keeps that order. */
  lemma StoppedTablesFirst(es: seq<Effect>, fail: Effect -> Option<string>)
    requires TablesFirst(es)
    ensures |Registered(Completed(es, fail))| <= |TablesCreated(Completed(es, fail))|
  {
    var done := Completed(es, fail);
    assert done == es[..|done|];
  }

  /** The warehouse and the file system, as the effects issued on them. Every call that
      can raise takes `fail`, which names the exception each effect raises (`None` when
      it succeeds); a raising effect leaves no trace and ends the run. */
  class Lakehouse {
    var log: seq<Effect>

    constructor ()
      ensures log == []
    {
      log := [];
    }

    /** Issues `e`, unless it raises. */
    method Issue(e: Effect, fail: Effect -> Option<string>) returns (err: Option<string>)
      modifies this
      ensures err == fail(e)
      ensures log == old(log) + Completed([e], fail)
    {
      CompletedOne(e, fail);
      err := fail(e);
      if err.None? {
        log := log + [e];
      }
    }

    /** `save_file_to_volume`: the directory and the file are written, or the write
        raises. */
    method SaveFileToVolume(path: string, fail: Effect -> Option<string>) returns (err: Option<string>)
      modifies this
      ensures err == fail(SaveFile(path))
      ensures log == old(log) + (if err.None? then [SaveFile(path)] else [])
    {
      CompletedOne(SaveFile(path), fail);
      err := Issue(SaveFile(path), fail);
    }

    /** `create_csv_external_table`, whose `sql_exec` raises when the statement fails. */
    method CreateCsvExternalTable(catalog: string, schema: string, table: string, location: string,
                                  fail: Effect -> Option<string>)
      returns (err: Option<string>)
      modifies this
      ensures err == fail(CreateTable(catalog, schema, table, location))
      ensures log == old(log) + (if err.None? then [CreateTable(catalog, schema, table, location)] else [])
    {
      CompletedOne(CreateTable(catalog, schema, table, location), fail);
      err := Issue(CreateTable(catalog, schema, table, location), fail);
    }

    /** `register_document` of the lakehouse app, whose `sql_exec` raises when the INSERT
        fails. */
    method RegisterDocument(d: Document, catalog: string, schema: string, fail: Effect -> Option<string>)
      returns (err: Option<string>)
      modifies this
      ensures err == fail(Register(d, catalog, schema))
      ensures log == old(log) + (if err.None? then [Register(d, catalog, schema)] else [])
    {
      CompletedOne(Register(d, catalog, schema), fail);
      err := Issue(Register(d, catalog, schema), fail);
    }

    /** `process_upload` of the lakehouse app. `user` is what `get_current_user` answered
        or the exception it raised, `docId` and `createdAt` stand for `uuid4()` and
        `utcnow()`, and `sheets` are the workbook's sheet names. The run is the save
        followed by the branch's steps, up to the first that raises; the result is that
        exception, or the upload's summary. */
    method ProcessUpload(q: Request, user: Result<string>, docId: string, createdAt: string,
                         sheets: seq<string>, fail: Effect -> Option<string>)
      returns (r: Result<Upload>)
      modifies this
      ensures user.Err? ==> r == Err(user.error) && log == old(log)
      ensures user.Ok? ==>
        var st := Stamp(user.value, docId, createdAt);
        var steps := [SaveFile(DestPath(q, st.user))] + UploadSteps(q, st, sheets);
        log == old(log) + Completed(steps, fail) &&
        r == Finished(FirstFailure(steps, fail), Upload(docId, DestPath(q, st.user), 0, UploadTables(q, st, sheets)))
    {
      if user.Err? {
        return Err(user.error);
      }
      var st := Stamp(user.value, docId, createdAt);
      var dest := DestPath(q, st.user);
      CompletedCons(SaveFile(dest), UploadSteps(q, st, sheets), fail);
      var err := SaveFileToVolume(dest, fail);
      if err.Some? {
        return Err(err.value);
      }
      var created;
      created, err := UploadBranch(q, st, sheets, fail);
      AppendAssoc(old(log), [SaveFile(dest)], Completed(UploadSteps(q, st, sheets), fail));
      r := Finished(err, Upload(docId, dest, 0, created));
    }

    /** The steps of `process_upload` after the save, by kind of file, up to the first
        that raises; on success, the tables created. */
    method UploadBranch(q: Request, st: Stamp, sheets: seq<string>, fail: Effect -> Option<string>)
      returns (created: seq<string>, err: Option<string>)
      modifies this
      ensures err.None? ==> created == UploadTables(q, st, sheets)
      ensures err == FirstFailure(UploadSteps(q, st, sheets), fail)
      ensures log == old(log) + Completed(UploadSteps(q, st, sheets), fail)
    {
      var ext := Extension(q.fileName);
      created := [];
      var kind := Classify(ext);
      if kind.Delimited? {
        var table;
        table, err := ExternalTable(q, st, kind.tab, fail);
        created := created + [table];
      } else if kind.Workbook? {
        created, err := ExtractSheets(q, st, sheets, fail);
      } else {
        var d := Doc(q, st, SourceType(ext), "", DestPath(q, st.user), "", "0");
        CompletedOne(Register(d, q.catalog, q.schema), fail);
        err := RegisterDocument(d, q.catalog, q.schema, fail);
      }
    }

    /** The delimited branch of `process_upload`: an external table over the saved file,
        registered with `csv` or `tsv` as its source type. */
    method ExternalTable(q: Request, st: Stamp, tab: bool, fail: Effect -> Option<string>)
      returns (table: string, err: Option<string>)
      modifies this
      ensures table == TableName(st.user, st.docId)
      ensures err == FirstFailure(DelimitedSteps(q, st, tab), fail)
      ensures log == old(log) + Completed(DelimitedSteps(q, st, tab), fail)
    {
      var dest := DestPath(q, st.user);
      table := TableName(st.user, st.docId);
      var d := Doc(q, st, if tab then "tsv" else "csv", SqlText.Fqn(q.catalog, q.schema, table), dest, "", "0");
      assert DelimitedSteps(q, st, tab) == [CreateTable(q.catalog, q.schema, table, dest)] + [Register(d, q.catalog, q.schema)];
      CompletedCons(CreateTable(q.catalog, q.schema, table, dest), [Register(d, q.catalog, q.schema)], fail);
      CompletedOne(Register(d, q.catalog, q.schema), fail);
      err := CreateCsvExternalTable(q.catalog, q.schema, table, dest, fail);
      if err.None? {
        err := RegisterDocument(d, q.catalog, q.schema, fail);
      }
    }

    /** The workbook branch of `process_upload`: per sheet, its CSV, its external table
        and its document, in sheet order, until a sheet raises. */
    method ExtractSheets(q: Request, st: Stamp, sheets: seq<string>, fail: Effect -> Option<string>)
      returns (created: seq<string>, err: Option<string>)
      modifies this
      ensures err.None? ==> created == SheetTableNames(st.user, st.docId, sheets)
      ensures err == FirstFailure(SheetsSteps(q, st, sheets), fail)
      ensures log == old(log) + Completed(SheetsSteps(q, st, sheets), fail)
    {
      created := [];
      for i := 0 to |sheets|
        invariant log == old(log) + SheetsSteps(q, st, sheets[..i])
        invariant FirstFailure(SheetsSteps(q, st, sheets[..i]), fail).None?
        invariant created == SheetTableNames(st.user, st.docId, sheets[..i])
      {
        SheetsStepsSplit(q, st, sheets, i);
        SheetsRunStep(q, st, sheets, i, fail);
        FirstFailureStops(SheetSteps(q, st, sheets[i]), fail);
        var table;
        table, err := ExtractSheet(q, st, sheets[i], fail);
        if err.Some? {
          AppendAssoc(old(log), SheetsSteps(q, st, sheets[..i]), Completed(SheetSteps(q, st, sheets[i]), fail));
          return;
        }
        AppendAssoc(old(log), SheetsSteps(q, st, sheets[..i]), SheetSteps(q, st, sheets[i]));
        SheetsStepsSnoc(q, st, sheets, i);
        created := created + [table];
      }
      assert sheets[..|sheets|] == sheets;
      FirstFailureStops(SheetsSteps(q, st, sheets), fail);
      err := None;
    }

    /** One sheet of the workbook branch: its CSV under `extracted` (`xls.parse` and
        `to_csv`, which raise together as one step), an external table over it, and its
        document with `sheet` set and `num_rows` 0. */
    method ExtractSheet(q: Request, st: Stamp, sheet: string, fail: Effect -> Option<string>)
      returns (table: string, err: Option<string>)
      modifies this
      ensures table == SheetTableName(st.user, st.docId, sheet)
      ensures err == FirstFailure(SheetSteps(q, st, sheet), fail)
      ensures log == old(log) + Completed(SheetSteps(q, st, sheet), fail)
    {
      var path := SheetCsvPath(q, st.user, sheet);
      table := SheetTableName(st.user, st.docId, sheet);
      var write := WriteSheetCsv(sheet, path);
      var create := CreateTable(q.catalog, q.schema, table, path);
      var register := Register(Doc(q, st, "excel", SqlText.Fqn(q.catalog, q.schema, table), path, sheet, "0"),
                               q.catalog, q.schema);
      assert SheetSteps(q, st, sheet) == [write] + ([create] + [register]);
      CompletedCons(write, [create] + [register], fail);
      CompletedCons(create, [register], fail);
      CompletedOne(register, fail);
      err := Issue(write, fail);
      if err.None? {
        err := CreateCsvExternalTable(q.catalog, q.schema, table, path, fail);
        if err.None? {
          err := RegisterDocument(register.doc, q.catalog, q.schema, fail);
        }
      }
    }

    // -------------------------------------------------------------------------
    // The root pipeline

    /** `pd.read_csv(io.BytesIO(bytes_data), sep=sep)`: the uploaded bytes, which were
        saved at `savedAs`, are parsed, or the parse raises; what it reads is passed on as
        its row count. */
    method ReadDelimited(savedAs: string, sep: string, fail: Effect -> Option<string>)
      returns (err: Option<string>)
      modifies this
      ensures err == fail(ReadCsv(savedAs, sep))
      ensures log == old(log) + (if err.None? then [ReadCsv(savedAs, sep)] else [])
    {
      CompletedOne(ReadCsv(savedAs, sep), fail);
      err := Issue(ReadCsv(savedAs, sep), fail);
    }

    /** `ingest_to_delta(df, table, mode="overwrite")`, whose Spark write may raise. */
    method IngestToDelta(table: string, rows: nat, fail: Effect -> Option<string>)
      returns (err: Option<string>)
      modifies this
      ensures err == fail(Ingest(table, rows))
      ensures log == old(log) + (if err.None? then [Ingest(table, rows)] else [])
    {
      CompletedOne(Ingest(table, rows), fail);
      err := Issue(Ingest(table, rows), fail);
    }

    /** `register_document` of the root pipeline, whose Spark append may raise. */
    method AppendDocumentRow(d: Document, table: string, fail: Effect -> Option<string>)
      returns (err: Option<string>)
      modifies this
      ensures err == fail(AppendDocument(d, table))
      ensures log == old(log) + (if err.None? then [AppendDocument(d, table)] else [])
    {
      CompletedOne(AppendDocument(d, table), fail);
      err := Issue(AppendDocument(d, table), fail);
    }

    /** `process_upload` of the root pipeline. `userQuery` is the answer of the
        `current_user()` query or the exception it raised; `csvRows` is the number
        of rows pandas reads from a delimited file; `sheets` are the workbook's sheets.
        The run is the save followed by the branch's steps, up to the first that raises;
        the result is that exception, or the upload's summary. */
    method ProcessUploadToDelta(q: Request, userQuery: Result<string>, docId: string, createdAt: string,
                                csvRows: nat, sheets: seq<Sheet>, fail: Effect -> Option<string>)
      returns (r: Result<Ingested>)
      modifies this
      ensures var st := Stamp(UserId(userQuery), docId, createdAt);
        var steps := [SaveFile(DestPath(q, st.user))] + DeltaSteps(q, st, csvRows, sheets);
        log == old(log) + Completed(steps, fail) &&
        r == Finished(FirstFailure(steps, fail), Ingested(docId, DestPath(q, st.user), DeltaRows(q, csvRows, sheets)))
    {
      var st := Stamp(UserId(userQuery), docId, createdAt);
      var dest := DestPath(q, st.user);
      CompletedCons(SaveFile(dest), DeltaSteps(q, st, csvRows, sheets), fail);
      var err := SaveFileToVolume(dest, fail);
      if err.Some? {
        return Err(err.value);
      }
      var total;
      total, err := DeltaBranch(q, st, csvRows, sheets, fail);
      AppendAssoc(old(log), [SaveFile(dest)], Completed(DeltaSteps(q, st, csvRows, sheets), fail));
      r := Finished(err, Ingested(docId, dest, total));
    }

    /** The steps of the root pipeline's `process_upload` after the save, by kind of file,
        up to the first that raises; on success, the rows ingested. */
    method DeltaBranch(q: Request, st: Stamp, csvRows: nat, sheets: seq<Sheet>, fail: Effect -> Option<string>)
      returns (total: nat, err: Option<string>)
      modifies this
      ensures err.None? ==> total == DeltaRows(q, csvRows, sheets)
      ensures err == FirstFailure(DeltaSteps(q, st, csvRows, sheets), fail)
      ensures log == old(log) + Completed(DeltaSteps(q, st, csvRows, sheets), fail)
    {
      var documents := SqlText.Fqn(q.catalog, q.schema, DOCUMENTS);
      var ext := Extension(q.fileName);
      total := 0;
      var kind := Classify(ext);
      if kind.Delimited? {
        total, err := IngestDelimited(q, st, kind.tab, csvRows, fail);
      } else if kind.Workbook? {
        total, err := IngestSheets(q, st, sheets, fail);
      } else {
        var d := Doc(q, st, SourceType(ext), "", DestPath(q, st.user), "", "0");
        CompletedOne(AppendDocument(d, documents), fail);
        err := AppendDocumentRow(d, documents, fail);
      }
    }

    /** The delimited branch of the root pipeline: read the file with the separator,
        overwrite its Delta table and record its row count. */
    method IngestDelimited(q: Request, st: Stamp, tab: bool, csvRows: nat, fail: Effect -> Option<string>)
      returns (total: nat, err: Option<string>)
      modifies this
      ensures err.None? ==> total == csvRows
      ensures err == FirstFailure(DelimitedDeltaSteps(q, st, tab, csvRows), fail)
      ensures log == old(log) + Completed(DelimitedDeltaSteps(q, st, tab, csvRows), fail)
    {
      var dest := DestPath(q, st.user);
      var target := SqlText.Fqn(q.catalog, q.schema, TableName(st.user, st.docId));
      var documents := SqlText.Fqn(q.catalog, q.schema, DOCUMENTS);
      var d := Doc(q, st, if tab then "tsv" else "csv", target, dest, "", Text.NatToString(csvRows));
      var read := ReadCsv(dest, Separator(tab));
      assert DelimitedDeltaSteps(q, st, tab, csvRows)
        == [read] + ([Ingest(target, csvRows)] + [AppendDocument(d, documents)]);
      CompletedCons(read, [Ingest(target, csvRows)] + [AppendDocument(d, documents)], fail);
      CompletedCons(Ingest(target, csvRows), [AppendDocument(d, documents)], fail);
      CompletedOne(AppendDocument(d, documents), fail);
      total := 0;
      err := ReadDelimited(dest, Separator(tab), fail);
      if err.Some? {
        return;
      }
      var rows := csvRows;
      err := IngestToDelta(target, rows, fail);
      if err.Some? {
        return;
      }
      total := rows;
      err := AppendDocumentRow(Doc(q, st, if tab then "tsv" else "csv", target, dest, "", Text.NatToString(total)),
                               documents, fail);
    }

    /** The workbook branch of the root pipeline: per sheet, its Delta table and its
        document, adding up the rows, until a sheet raises. */
    method IngestSheets(q: Request, st: Stamp, sheets: seq<Sheet>, fail: Effect -> Option<string>)
      returns (total: nat, err: Option<string>)
      modifies this
      ensures err.None? ==> total == SumRows(sheets)
      ensures err == FirstFailure(DeltaSheetsSteps(q, st, sheets), fail)
      ensures log == old(log) + Completed(DeltaSheetsSteps(q, st, sheets), fail)
    {
      total := 0;
      for i := 0 to |sheets|
        invariant log == old(log) + DeltaSheetsSteps(q, st, sheets[..i])
        invariant FirstFailure(DeltaSheetsSteps(q, st, sheets[..i]), fail).None?
        invariant total == SumRows(sheets[..i])
      {
        DeltaSheetsStepsSplit(q, st, sheets, i);
        DeltaSheetsRunStep(q, st, sheets, i, fail);
        FirstFailureStops(DeltaSheetSteps(q, st, sheets[i]), fail);
        ghost var before := log;
        err := IngestSheet(q, st, sheets[i], fail);
        if err.Some? {
          AppendAssoc(old(log), DeltaSheetsSteps(q, st, sheets[..i]), Completed(DeltaSheetSteps(q, st, sheets[i]), fail));
          return;
        }
        AppendAssoc(old(log), DeltaSheetsSteps(q, st, sheets[..i]), DeltaSheetSteps(q, st, sheets[i]));
        assert sheets[..i + 1][..i] == sheets[..i];
        total := total + sheets[i].rows;
      }
      assert sheets[..|sheets|] == sheets;
      FirstFailureStops(DeltaSheetsSteps(q, st, sheets), fail);
      err := None;
    }

    /** One sheet of the root pipeline's workbook branch: overwrite its Delta table
        (`xls.parse` raising counts as that step raising) and append its document with
        the sheet's row count. */
    method IngestSheet(q: Request, st: Stamp, sheet: Sheet, fail: Effect -> Option<string>)
      returns (err: Option<string>)
      modifies this
      ensures err == FirstFailure(DeltaSheetSteps(q, st, sheet), fail)
      ensures log == old(log) + Completed(DeltaSheetSteps(q, st, sheet), fail)
    {
      var target := SqlText.Fqn(q.catalog, q.schema, SheetTableName(st.user, st.docId, sheet.name));
      var documents := SqlText.Fqn(q.catalog, q.schema, DOCUMENTS);
      var d := Doc(q, st, "excel", target, DestPath(q, st.user), sheet.name, Text.NatToString(sheet.rows));
      assert DeltaSheetSteps(q, st, sheet) == [Ingest(target, sheet.rows)] + [AppendDocument(d, documents)];
      CompletedCons(Ingest(target, sheet.rows), [AppendDocument(d, documents)], fail);
      CompletedOne(AppendDocument(d, documents), fail);
      err := IngestToDelta(target, sheet.rows, fail);
      if err.None? {
        err := AppendDocumentRow(d, documents, fail);
      }
    }
  }

  /** `get_user_id`: the query's answer, or `unknown_user` when it raised. */
  function UserId(userQuery: Result<string>): (u: string)
    ensures userQuery.Err? ==> u == UNKNOWN_USER
  {
    match userQuery
    case Ok(u) => u
    case Err(_) => UNKNOWN_USER
  }

  /** One workbook sheet as pandas reads it: its name and its number of rows. */
  datatype Sheet = Sheet(name: string, rows: nat)

  /** `{"doc_id": ..., "file_path": ..., "rows": ...}`. */
  datatype Ingested = Ingested(docId: string, filePath: string, rows: nat)

  function SumRows(sheets: seq<Sheet>): nat {
    if sheets == [] then 0 else SumRows(sheets[..|sheets| - 1]) + sheets[|sheets| - 1].rows
  }

  /** The total the root pipeline reports. */
  function DeltaRows(q: Request, csvRows: nat, sheets: seq<Sheet>): nat {
    var ext := Extension(q.fileName);
    match Classify(ext)
    case Delimited(_) => csvRows
    case Workbook => SumRows(sheets)
    case Plain => 0
  }

  /** The Delta table of one sheet, as its three-part name. */
  function DeltaTarget(q: Request, st: Stamp, sheet: Sheet): string {
    SqlText.Fqn(q.catalog, q.schema, SheetTableName(st.user, st.docId, sheet.name))
  }

  /** The document appended for one sheet: its row count, as text. */
  function DeltaSheetDoc(q: Request, st: Stamp, sheet: Sheet): Document {
    Doc(q, st, "excel", DeltaTarget(q, st, sheet), DestPath(q, st.user), sheet.name,
        Text.NatToString(sheet.rows))
  }

  function DeltaSheetSteps(q: Request, st: Stamp, sheet: Sheet): seq<Effect> {
    [Ingest(DeltaTarget(q, st, sheet), sheet.rows),
     AppendDocument(DeltaSheetDoc(q, st, sheet), SqlText.Fqn(q.catalog, q.schema, DOCUMENTS))]
  }

  lemma DeltaSheetStepShape(q: Request, st: Stamp, sheet: Sheet)
    ensures TablesCreated(DeltaSheetSteps(q, st, sheet)) == [DeltaTarget(q, st, sheet)]
    ensures Registered(DeltaSheetSteps(q, st, sheet)) == [DeltaSheetDoc(q, st, sheet)]
  {
    Effects2(Ingest(DeltaTarget(q, st, sheet), sheet.rows),
             AppendDocument(DeltaSheetDoc(q, st, sheet), SqlText.Fqn(q.catalog, q.schema, DOCUMENTS)));
  }

  /** The names of the sheets, in order. */
  function SheetNames(sheets: seq<Sheet>): (r: seq<string>)
    ensures |r| == |sheets|
  {
    if sheets == [] then [] else SheetNames(sheets[..|sheets| - 1]) + [sheets[|sheets| - 1].name]
  }

  function DeltaSheetsSteps(q: Request, st: Stamp, sheets: seq<Sheet>): seq<Effect> {
    if sheets == [] then []
    else DeltaSheetsSteps(q, st, sheets[..|sheets| - 1]) + DeltaSheetSteps(q, st, sheets[|sheets| - 1])
  }

  /** The effects of a delimited file in the root pipeline. */
  function DelimitedDeltaSteps(q: Request, st: Stamp, tab: bool, csvRows: nat): seq<Effect> {
    var dest := DestPath(q, st.user);
    var target := SqlText.Fqn(q.catalog, q.schema, TableName(st.user, st.docId));
    [ReadCsv(dest, Separator(tab)),
     Ingest(target, csvRows),
     AppendDocument(Doc(q, st, if tab then "tsv" else "csv", target, dest, "", Text.NatToString(csvRows)),
                    SqlText.Fqn(q.catalog, q.schema, DOCUMENTS))]
  }

  /** The effects of the root pipeline after the file is saved. */
  function DeltaSteps(q: Request, st: Stamp, csvRows: nat, sheets: seq<Sheet>): seq<Effect> {
    var ext := Extension(q.fileName);
    var dest := DestPath(q, st.user);
    var documents := SqlText.Fqn(q.catalog, q.schema, DOCUMENTS);
    match Classify(ext)
    case Delimited(tab) => DelimitedDeltaSteps(q, st, tab, csvRows)
    case Workbook => DeltaSheetsSteps(q, st, sheets)
    case Plain => [AppendDocument(Doc(q, st, SourceType(ext), "", dest, "", "0"), documents)]
  }

  lemma {:induction false} DeltaSheetsStepsAppend(q: Request, st: Stamp, a: seq<Sheet>, b: seq<Sheet>)
    ensures DeltaSheetsSteps(q, st, a + b) == DeltaSheetsSteps(q, st, a) + DeltaSheetsSteps(q, st, b)
    decreases |b|
  {
    if b == [] {
      assert a + b == a;
    } else {
      var init := b[..|b| - 1];
      assert (a + b)[..|a + b| - 1] == a + init;
      assert (a + b)[|a + b| - 1] == b[|b| - 1];
      DeltaSheetsStepsAppend(q, st, a, init);
    }
  }

  /** One sheet of a root-pipeline workbook run whose earlier sheets raised nothing, as
      `SheetsRunStep` states it for the lakehouse app. */
  lemma DeltaSheetsRunStep(q: Request, st: Stamp, sheets: seq<Sheet>, i: nat, fail: Effect -> Option<string>)
    requires i < |sheets|
    requires FirstFailure(DeltaSheetsSteps(q, st, sheets[..i]), fail).None?
    ensures var step := DeltaSheetSteps(q, st, sheets[i]);
      FirstFailure(step, fail).Some? ==>
        Completed(DeltaSheetsSteps(q, st, sheets), fail) == DeltaSheetsSteps(q, st, sheets[..i]) + Completed(step, fail)
        && FirstFailure(DeltaSheetsSteps(q, st, sheets), fail) == FirstFailure(step, fail)
    ensures FirstFailure(DeltaSheetSteps(q, st, sheets[i]), fail).None? ==>
      FirstFailure(DeltaSheetsSteps(q, st, sheets[..i + 1]), fail).None?
  {
    DeltaSheetsStepsSplit(q, st, sheets, i);
    RunThrough(DeltaSheetsSteps(q, st, sheets[..i]), DeltaSheetSteps(q, st, sheets[i]),
               DeltaSheetsSteps(q, st, sheets[i + 1..]), fail);
  }

  /** The root pipeline's workbook steps around sheet `i`. */
  lemma DeltaSheetsStepsSplit(q: Request, st: Stamp, sheets: seq<Sheet>, i: nat)
    requires i < |sheets|
    ensures DeltaSheetsSteps(q, st, sheets) ==
      DeltaSheetsSteps(q, st, sheets[..i]) + (DeltaSheetSteps(q, st, sheets[i]) + DeltaSheetsSteps(q, st, sheets[i + 1..]))
    ensures DeltaSheetsSteps(q, st, sheets[..i + 1]) == DeltaSheetsSteps(q, st, sheets[..i]) + DeltaSheetSteps(q, st, sheets[i])
  {
    var a, b := sheets[..i + 1], sheets[i + 1..];
    assert a + b == sheets;
    DeltaSheetsStepsAppend(q, st, a, b);
    assert a[..i] == sheets[..i] && a[i] == sheets[i];
    AppendAssoc(DeltaSheetsSteps(q, st, sheets[..i]), DeltaSheetSteps(q, st, sheets[i]), DeltaSheetsSteps(q, st, b));
  }

  lemma {:induction false} DeltaSheetsTablesFirst(q: Request, st: Stamp, sheets: seq<Sheet>)
    ensures TablesFirst(DeltaSheetsSteps(q, st, sheets))
    decreases |sheets|
  {
    if sheets == [] {
      assert DeltaSheetsSteps(q, st, sheets) == [];
    } else {
      var last := sheets[|sheets| - 1];
      var step := DeltaSheetSteps(q, st, last);
      DeltaSheetsTablesFirst(q, st, sheets[..|sheets| - 1]);
      TablesFirstPair(step[0], step[1]);
      assert step == [step[0], step[1]];
      TablesFirstAppend(DeltaSheetsSteps(q, st, sheets[..|sheets| - 1]), step);
    }
  }

  /** The root pipeline likewise overwrites a file's or a sheet's Delta table before it
      appends the document naming it, wherever its run stops. */
  lemma DeltaRunTablesFirst(q: Request, st: Stamp, csvRows: nat, sheets: seq<Sheet>,
                            fail: Effect -> Option<string>)
    requires !Classify(Extension(q.fileName)).Plain?
    ensures |Registered(Completed(DeltaSteps(q, st, csvRows, sheets), fail))|
         <= |TablesCreated(Completed(DeltaSteps(q, st, csvRows, sheets), fail))|
  {
    match Classify(Extension(q.fileName))
    case Delimited(tab) =>
      DelimitedDeltaTablesFirst(q, st, tab, csvRows);
    case Workbook =>
      DeltaSheetsTablesFirst(q, st, sheets);
    StoppedTablesFirst(DeltaSteps(q, st, csvRows, sheets), fail);
  }

  lemma DelimitedDeltaTablesFirst(q: Request, st: Stamp, tab: bool, csvRows: nat)
    ensures TablesFirst(DelimitedDeltaSteps(q, st, tab, csvRows))
  {
    var es := DelimitedDeltaSteps(q, st, tab, csvRows);
    TablesFirstQuiet(es[0]);
    TablesFirstPair(es[1], es[2]);
    assert es == [es[0]] + [es[1], es[2]];
    TablesFirstAppend([es[0]], [es[1], es[2]]);
  }

  /** The sum of the row counts the registered documents record. */
  function RecordedRows(docs: seq<Document>): int {
    if docs == [] then 0
    else RecordedRows(docs[..|docs| - 1]) + Text.ParseNat(docs[|docs| - 1].numRows)
  }

  lemma {:induction false} RecordedRowsAppend(a: seq<Document>, b: seq<Document>)
    ensures RecordedRows(a + b) == RecordedRows(a) + RecordedRows(b)
    decreases |b|
  {
    if b == [] {
      assert a + b == a;
    } else {
      var init := b[..|b| - 1];
      assert (a + b)[..|a + b| - 1] == a + init;
      RecordedRowsAppend(a, init);
    }
  }

  /** Per sheet: one document recording that sheet's row count. */
  lemma {:induction false} DeltaSheetsRecorded(q: Request, st: Stamp, sheets: seq<Sheet>)
    ensures RecordedRows(Registered(DeltaSheetsSteps(q, st, sheets))) == SumRows(sheets)
    decreases |sheets|
  {
    if sheets != [] {
      var init := sheets[..|sheets| - 1];
      var last := sheets[|sheets| - 1];
      DeltaSheetsRecorded(q, st, init);
      var before := DeltaSheetsSteps(q, st, init);
      var steps := DeltaSheetSteps(q, st, last);
      assert DeltaSheetsSteps(q, st, sheets) == before + steps;
      var d := DeltaSheetDoc(q, st, last);
      assert Registered(before + steps) == Registered(before) + [d] by {
        RegisteredAppend(before, steps);
        DeltaSheetStepShape(q, st, last);
      }
      assert RecordedRows([d]) == last.rows by {
        OneRecorded(d);
        Text.ParseNatToString(last.rows);
      }
      RecordedRowsAppend(Registered(before), [d]);
    }
  }

  /** Per sheet: one Delta table, named after the sheet, in sheet order. */
  lemma {:induction false} DeltaSheetsTables(q: Request, st: Stamp, sheets: seq<Sheet>)
    ensures TablesCreated(DeltaSheetsSteps(q, st, sheets)) ==
            Qualified(q.catalog, q.schema, SheetTableNames(st.user, st.docId, SheetNames(sheets)))
    decreases |sheets|
  {
    if sheets != [] {
      var init := sheets[..|sheets| - 1];
      var last := sheets[|sheets| - 1];
      DeltaSheetsTables(q, st, init);
      var before := DeltaSheetsSteps(q, st, init);
      var steps := DeltaSheetSteps(q, st, last);
      assert DeltaSheetsSteps(q, st, sheets) == before + steps;
      TablesCreatedAppend(before, steps);
      DeltaSheetStepShape(q, st, last);
      var names := SheetNames(sheets);
      assert names[..|names| - 1] == SheetNames(init);
      var tables := SheetTableNames(st.user, st.docId, names);
      assert tables[..|tables| - 1] == SheetTableNames(st.user, st.docId, SheetNames(init));
    }
  }

  /** The total the root pipeline returns is the sum of the row counts its documents
      record: the file's rows for a delimited file, the sheets' rows for a workbook,
      and 0 otherwise. */
  lemma DeltaRowsRecorded(q: Request, st: Stamp, csvRows: nat, sheets: seq<Sheet>)
    ensures RecordedRows(Registered(DeltaSteps(q, st, csvRows, sheets))) == DeltaRows(q, csvRows, sheets)
  {
    var es := DeltaSteps(q, st, csvRows, sheets);
    match Classify(Extension(q.fileName))
    case Workbook => DeltaSheetsRecorded(q, st, sheets);
    case Delimited(tab) => DelimitedRecorded(q, st, tab, csvRows);
    case Plain =>
      var ext := Extension(q.fileName);
      var d := Doc(q, st, SourceType(ext), "", DestPath(q, st.user), "", "0");
      assert es == [AppendDocument(d, SqlText.Fqn(q.catalog, q.schema, DOCUMENTS))];
      ZeroRecorded(d, SqlText.Fqn(q.catalog, q.schema, DOCUMENTS));
  }

  /** A document recording no rows adds nothing to the total. */
  lemma ZeroRecorded(d: Document, table: string)
    requires d.numRows == "0"
    ensures RecordedRows(Registered([AppendDocument(d, table)])) == 0
  {
    Effects1(AppendDocument(d, table));
    OneRecorded(d);
    assert Text.ParseNat("0") == 0 by {
      assert "0"[..0] == [];
    }
  }

  lemma DelimitedRecorded(q: Request, st: Stamp, tab: bool, csvRows: nat)
    ensures RecordedRows(Registered(DelimitedDeltaSteps(q, st, tab, csvRows))) == csvRows
  {
    var es := DelimitedDeltaSteps(q, st, tab, csvRows);
    Effects3(es[0], es[1], es[2]);
    OneRecorded(es[2].doc);
    Text.ParseNatToString(csvRows);
  }

  lemma OneRecorded(d: Document)
    ensures RecordedRows([d]) == Text.ParseNat(d.numRows)
  {
    assert [d][..0] == [];
  }

  /** A `.tsv` file is read with a tab separator and a `.csv` file with a comma. */
  lemma DelimitedSeparator(q: Request, st: Stamp, csvRows: nat, sheets: seq<Sheet>)
    ensures Extension(q.fileName) == ".tsv" ==>
      DeltaSteps(q, st, csvRows, sheets)[0] == ReadCsv(DestPath(q, st.user), "\t")
    ensures Extension(q.fileName) == ".csv" ==>
      DeltaSteps(q, st, csvRows, sheets)[0] == ReadCsv(DestPath(q, st.user), ",")
  {
  }
}
