/**
 * The schema and migration generator of backend/pkg/db/sqlite/sqlite.go.
 * A Go struct (as reflection describes it: fields with names, `db` and
 * `index` tags and types) becomes a table description, and a table
 * description becomes `CREATE TABLE` / `CREATE INDEX` text. Migration
 * files are numbered after the highest number already present. The
 * migrations directory is passed in as a listing.
 */
module Schema {
  import opened Wrappers
  import opened Text

  // ---------------------------------------------------------------- names

  /** The characters `camelToSnake` writes before lower-casing: `_` before every capital but the first. */
  function Underscored(s: string): string
  {
    if s == [] then []
    else
      var i := |s| - 1;
      Underscored(s[..i]) + (if i > 0 && IsUpper(s[i]) then "_" else "") + [s[i]]
  }

  /** `camelToSnake`, as a value. */
  function Snake(s: string): string
  {
    ToLower(Underscored(s))
  }

  /** `camelToSnake`: walks the name writing `_` before every capital after the first, then lower-cases. */
  method CamelToSnake(s: string) returns (r: string)
    ensures r == Snake(s)
    ensures forall k :: 0 <= k < |r| ==> !IsUpper(r[k])
  {
    var result := "";
    var i := 0;
    while i < |s|
      invariant 0 <= i <= |s|
      invariant result == Underscored(s[..i])
    {
      assert s[..i + 1][..i] == s[..i];
      if i > 0 && IsUpper(s[i]) {
        result := result + "_";
      }
      result := result + [s[i]];
      i := i + 1;
    }
    assert s[..i] == s;
    r := ToLower(result);
  }

  function UpperChar(c: char): char
  {
    if 'a' <= c <= 'z' then (c as int - 32) as char else c
  }

  /** Reads a snake_case name back: the first letter and every letter after `_` are capitalised, the `_` dropped. */
  function Camel(t: string): string
  {
    if t == [] then []
    else if |t| == 1 then [UpperChar(t[0])]
    else if t[|t| - 2] == '_' then Camel(t[..|t| - 2]) + [UpperChar(t[|t| - 1])]
    else Camel(t[..|t| - 1]) + [t[|t| - 1]]
  }

  /** A Go type name in CamelCase: a leading capital, no underscores. */
  predicate CamelName(s: string)
  {
    |s| > 0 && IsUpper(s[0]) && '_' !in s
  }

  /** Lower-casing distributes over concatenation. */
  lemma ToLowerAppend(a: string, b: string)
    ensures ToLower(a + b) == ToLower(a) + ToLower(b)
  {
    var l := ToLower(a + b);
    assert forall k :: 0 <= k < |a| ==> l[k] == ToLower(a)[k];
    assert forall k :: |a| <= k < |a + b| ==> l[k] == ToLower(b)[k - |a|];
  }

  /** The snake form of a name ends with its last character, lower-cased. */
  lemma SnakeLast(s: string)
    requires s != []
    ensures |Snake(s)| > 0 && Snake(s)[|Snake(s)| - 1] == LowerChar(s[|s| - 1])
  {
    SnakeStep(s);
  }

  /** The snake form grows by one character, or by `_` and a character before a capital. */
  lemma SnakeStep(s: string)
    requires s != []
    ensures var i := |s| - 1;
      Snake(s) == Snake(s[..i]) + (if i > 0 && IsUpper(s[i]) then "_" else "") + [LowerChar(s[i])]
  {
    var i := |s| - 1;
    var gap := if i > 0 && IsUpper(s[i]) then "_" else "";
    assert Underscored(s) == Underscored(s[..i]) + gap + [s[i]];
    ToLowerAppend(Underscored(s[..i]) + gap, [s[i]]);
    ToLowerAppend(Underscored(s[..i]), gap);
    assert ToLower(gap) == gap;
  }

  /** The snake form of a CamelCase type name reads back as the name itself. */
  lemma {:induction false} SnakeCamelRoundTrip(s: string)
    requires CamelName(s)
    ensures Camel(Snake(s)) == s
  {
    var i := |s| - 1;
    var p := s[..i];
    var c := s[i];
    assert s == p + [c];
    SnakeStep(s);
    var t := Snake(s);
    if i == 0 {
      assert t == [LowerChar(c)];
    } else {
      assert CamelName(p) by { assert p[0] == s[0]; }
      SnakeCamelRoundTrip(p);
      if IsUpper(c) {
        assert t == Snake(p) + "_" + [LowerChar(c)];
        assert t[..|t| - 2] == Snake(p);
      } else {
        assert t == Snake(p) + [c];
        SnakeLast(p);
        assert p[|p| - 1] == s[i - 1];
        assert t[..|t| - 1] == Snake(p);
        assert t[|t| - 2] != '_';
      }
    }
  }

  /** The table a struct maps to: the snake form of its name, plus "s". */
  function TableName(structName: string): (n: string)
    ensures n == Snake(structName) + "s"
    ensures forall k :: 0 <= k < |n| ==> !IsUpper(n[k])
  {
    Snake(structName) + "s"
  }

  // ---------------------------------------------------------------- types

  /** The reflected Go types the mapping tells apart. */
  datatype GoType =
    | BoolType
    | IntType(signed: bool, bits: nat)
    | FloatType(bits: nat)
    | StringType
    | StructType(pkg: string, name: string)
    | SliceType(elem: GoType)
    | OtherType

  /** `mapGoTypeToSQLite`. */
  function MapGoType(t: GoType): (s: string)
    ensures s in {"BOOLEAN", "INTEGER", "REAL", "TEXT", "TIMESTAMP", "BLOB"}
    ensures s == "BLOB" <==> t.SliceType? && t.elem.IntType? && !t.elem.signed && t.elem.bits == 8
    ensures s == "TIMESTAMP" <==> t == StructType("time", "Time")
  {
    match t
    case BoolType => "BOOLEAN"
    case IntType(_, _) => "INTEGER"
    case FloatType(_) => "REAL"
    case StringType => "TEXT"
    case StructType(pkg, name) => if pkg == "time" && name == "Time" then "TIMESTAMP" else "TEXT"
    case SliceType(e) => if e.IntType? && !e.signed && e.bits == 8 then "BLOB" else "TEXT"
    case OtherType => "TEXT"
  }

  // ---------------------------------------------------------------- columns

  datatype Column = Column(name: string, typ: string, primaryKey: bool, notNull: bool, unique: bool,
                           default: string, references: string)

  const NoColumn := Column("", "", false, false, false, "", "")

  /** A struct field as reflection shows it; an absent tag reads as "". */
  datatype Field = Field(name: string, exported: bool, dbTag: string, indexTag: string, typ: GoType)

  /** One option of a `db` tag applied to a column. */
  function ApplyOption(c: Column, part: string): Column
  {
    if part == "pk" then c.(primaryKey := true)
    else if part == "notnull" then c.(notNull := true)
    else if part == "unique" then c.(unique := true)
    else if HasPrefix(part, "default=") then c.(default := TrimPrefix(part, "default="))
    else if HasPrefix(part, "references=") then c.(references := TrimPrefix(part, "references="))
    else c
  }

  /** The options of a `db` tag applied in order. */
  function ApplyOptions(c: Column, parts: seq<string>): Column
  {
    if parts == [] then c else ApplyOption(ApplyOptions(c, parts[..|parts| - 1]), parts[|parts| - 1])
  }

  /** A flag is set iff its option is listed; the name and type are never touched. */
  lemma {:induction false} OptionsFlags(c: Column, parts: seq<string>)
    ensures var r := ApplyOptions(c, parts);
      r.name == c.name && r.typ == c.typ
      && (r.primaryKey <==> c.primaryKey || "pk" in parts)
      && (r.notNull <==> c.notNull || "notnull" in parts)
      && (r.unique <==> c.unique || "unique" in parts)
  {
    if parts != [] {
      var init := parts[..|parts| - 1];
      OptionsFlags(c, init);
      assert parts == init + [parts[|parts| - 1]];
    }
  }

  /** One option sets the default iff it is a `default=` option. */
  lemma OptionDefault(c: Column, part: string)
    ensures HasPrefix(part, "default=") ==> ApplyOption(c, part).default == TrimPrefix(part, "default=")
    ensures !HasPrefix(part, "default=") ==> ApplyOption(c, part).default == c.default
  {
  }

  /** The default is the value of the last `default=` option, or unchanged when there is none. */
  lemma {:induction false} OptionsDefault(c: Column, parts: seq<string>)
    ensures (forall k :: 0 <= k < |parts| ==> !HasPrefix(parts[k], "default=")) ==>
      ApplyOptions(c, parts).default == c.default
    ensures forall k :: (0 <= k < |parts| && HasPrefix(parts[k], "default=")
                         && (forall j :: k < j < |parts| ==> !HasPrefix(parts[j], "default="))) ==>
      ApplyOptions(c, parts).default == TrimPrefix(parts[k], "default=")
  {
    if parts != [] {
      var n := |parts| - 1;
      var init := parts[..n];
      var before := ApplyOptions(c, init);
      assert ApplyOptions(c, parts) == ApplyOption(before, parts[n]);
      OptionsDefault(c, init);
      OptionDefault(before, parts[n]);
      assert forall k :: 0 <= k < n ==> init[k] == parts[k];
      forall k | 0 <= k < |parts| && HasPrefix(parts[k], "default=")
        && (forall j :: k < j < |parts| ==> !HasPrefix(parts[j], "default="))
        ensures ApplyOptions(c, parts).default == TrimPrefix(parts[k], "default=")
      {
        if k < n {
          assert !HasPrefix(parts[n], "default=");
          assert forall j :: k < j < |init| ==> !HasPrefix(init[j], "default=");
        }
      }
    }
  }

  /** `extractColumnInfoFromField`, as a value. */
  function ColumnOf(f: Field): Column
  {
    if f.dbTag == "-" then NoColumn
    else if f.dbTag != "" then
      var parts := Split(f.dbTag, ',');
      ApplyOptions(NoColumn.(name := parts[0]), parts[1..]).(typ := MapGoType(f.typ))
    else NoColumn.(name := Snake(f.name), typ := MapGoType(f.typ))
  }

  /** `extractColumnInfoFromField`: the `-` tag skips, a tag names and configures, no tag derives the name. */
  method ExtractColumnInfo(f: Field) returns (c: Column)
    ensures c == ColumnOf(f)
  {
    if f.dbTag == "-" {
      return NoColumn;
    }
    if f.dbTag != "" {
      var parts := Split(f.dbTag, ',');
      c := NoColumn.(name := parts[0]);
      var rest := parts[1..];
      var i := 0;
      while i < |rest|
        invariant 0 <= i <= |rest|
        invariant c == ApplyOptions(NoColumn.(name := parts[0]), rest[..i])
      {
        assert rest[..i + 1][..i] == rest[..i];
        c := ApplyOption(c, rest[i]);
        i := i + 1;
      }
      assert rest[..i] == rest;
    } else {
      var name := CamelToSnake(f.name);
      c := NoColumn.(name := name);
    }
    c := c.(typ := MapGoType(f.typ));
  }

  /** What a column's tag says: skipped for `-`, named by the tag's first part, else by the field name. */
  lemma ColumnNaming(f: Field)
    ensures f.dbTag == "-" ==> ColumnOf(f).name == ""
    ensures f.dbTag != "-" && f.dbTag != "" ==>
      (ColumnOf(f).name == Split(f.dbTag, ',')[0]
       && ColumnOf(f).typ == MapGoType(f.typ)
       && (ColumnOf(f).primaryKey <==> "pk" in Split(f.dbTag, ',')[1..])
       && (ColumnOf(f).notNull <==> "notnull" in Split(f.dbTag, ',')[1..])
       && (ColumnOf(f).unique <==> "unique" in Split(f.dbTag, ',')[1..]))
    ensures f.dbTag == "" ==>
      (ColumnOf(f).name == Snake(f.name) && ColumnOf(f).typ == MapGoType(f.typ)
       && !ColumnOf(f).primaryKey && !ColumnOf(f).notNull && !ColumnOf(f).unique)
  {
    if f.dbTag != "-" && f.dbTag != "" {
      var parts := Split(f.dbTag, ',');
      OptionsFlags(NoColumn.(name := parts[0]), parts[1..]);
    }
  }

  // ---------------------------------------------------------------- composite keys

  /** A `pk(...)` part names a composite key. */
  predicate IsKeyPart(part: string)
  {
    HasPrefix(part, "pk(") && HasSuffix(part, ")")
  }

  /** The columns a `pk(...)` part lists. */
  function KeyColumns(part: string): seq<string>
  {
    Split(TrimSuffix(TrimPrefix(part, "pk("), ")"), ',')
  }

  /** The last `pk(...)` part among `parts` decides, starting from `acc`. */
  function KeyFromParts(acc: seq<string>, parts: seq<string>): seq<string>
  {
    if parts == [] then acc
    else
      var prior := KeyFromParts(acc, parts[..|parts| - 1]);
      var p := parts[|parts| - 1];
      if IsKeyPart(p) then KeyColumns(p) else prior
  }

  /** The first pass of `extractTableInfoFromStruct` over the fields' `db` tags. */
  function CompositeKey(fields: seq<Field>): seq<string>
  {
    if fields == [] then []
    else
      var prior := CompositeKey(fields[..|fields| - 1]);
      var tag := fields[|fields| - 1].dbTag;
      if tag != "" then KeyFromParts(prior, Split(tag, ',')) else prior
  }

  /** A part without commas lists exactly one key column. */
  lemma KeyColumnsSingle(part: string)
    requires ',' !in part
    ensures |KeyColumns(part)| == 1
  {
    var inner := TrimSuffix(TrimPrefix(part, "pk("), ")");
    assert ',' !in inner;
    SplitCount(inner, ',');
    assert multiset(inner)[','] == 0;
  }

  /** Choosing among parts of a comma split keeps the key at most one column long. */
  lemma {:induction false} KeyFromPartsSingle(acc: seq<string>, parts: seq<string>)
    requires |acc| <= 1
    requires forall k :: 0 <= k < |parts| ==> ',' !in parts[k]
    ensures |KeyFromParts(acc, parts)| <= 1
  {
    if parts != [] {
      KeyFromPartsSingle(acc, parts[..|parts| - 1]);
      var p := parts[|parts| - 1];
      if IsKeyPart(p) {
        KeyColumnsSingle(p);
      }
    }
  }

  /**
   * Because a tag is split on commas before the `pk(...)` test, a
   * composite key is never longer than one column.
   */
  lemma {:induction false} CompositeKeySingle(fields: seq<Field>)
    ensures |CompositeKey(fields)| <= 1
  {
    if fields != [] {
      CompositeKeySingle(fields[..|fields| - 1]);
      var tag := fields[|fields| - 1].dbTag;
      if tag != "" {
        SplitParts(tag, ',');
        KeyFromPartsSingle(CompositeKey(fields[..|fields| - 1]), Split(tag, ','));
      }
    }
  }

  /** The first pass: scans every field's `db` tag for a `pk(...)` part. */
  method FindCompositeKey(fields: seq<Field>) returns (key: seq<string>)
    ensures key == CompositeKey(fields)
  {
    key := [];
    var i := 0;
    while i < |fields|
      invariant 0 <= i <= |fields|
      invariant key == CompositeKey(fields[..i])
    {
      assert fields[..i + 1][..i] == fields[..i];
      var tag := fields[i].dbTag;
      if tag != "" {
        var parts := Split(tag, ',');
        ghost var start := key;
        var j := 0;
        while j < |parts|
          invariant 0 <= j <= |parts|
          invariant key == KeyFromParts(start, parts[..j])
        {
          assert parts[..j + 1][..j] == parts[..j];
          if IsKeyPart(parts[j]) {
            key := KeyColumns(parts[j]);
          }
          j := j + 1;
        }
        assert parts[..j] == parts;
      }
      i := i + 1;
    }
    assert fields[..i] == fields;
  }

  // ---------------------------------------------------------------- indexes and tables

  datatype Index = Index(name: string, columns: seq<string>, unique: bool)

  datatype TableInfo = TableInfo(name: string, columns: seq<Column>, indexes: seq<Index>, compositeKey: seq<string>)

  /** The options of an `index` tag applied in order to a name and a uniqueness flag. */
  function IndexOptions(name: string, unique: bool, parts: seq<string>): (string, bool)
  {
    if parts == [] then (name, unique)
    else
      var prior := IndexOptions(name, unique, parts[..|parts| - 1]);
      var p := parts[|parts| - 1];
      if p == "unique" then (prior.0, true)
      else if HasPrefix(p, "name=") then (TrimPrefix(p, "name="), prior.1)
      else prior
  }

  /** The index an `index` tag declares on `column` of `table`. */
  function IndexFor(table: string, column: string, tag: string): Index
  {
    var o := IndexOptions("idx_" + table + "_" + column, false, Split(tag, ','));
    Index(o.0, [column], o.1)
  }

  /** An index is unique iff a part of its tag is exactly "unique". */
  lemma {:induction false} IndexOptionsUnique(name: string, parts: seq<string>)
    ensures IndexOptions(name, false, parts).1 <==> "unique" in parts
    ensures (forall k :: 0 <= k < |parts| ==> !HasPrefix(parts[k], "name=")) ==>
      IndexOptions(name, false, parts).0 == name
  {
    if parts != [] {
      var init := parts[..|parts| - 1];
      IndexOptionsUnique(name, init);
      assert parts == init + [parts[|parts| - 1]];
      assert forall k :: 0 <= k < |init| ==> init[k] == parts[k];
    }
  }

  /** One step of the second pass over a field. */
  function AddField(t: TableInfo, key: seq<string>, f: Field): TableInfo
  {
    if !f.exported then t
    else
      var c := ColumnOf(f);
      var c' := if c.name in key then c.(primaryKey := false) else c;
      var cols := if c.name != "" then t.columns + [c'] else t.columns;
      var idx := if f.indexTag != "" then t.indexes + [IndexFor(t.name, c.name, f.indexTag)] else t.indexes;
      t.(columns := cols, indexes := idx)
  }

  /** The second pass over the fields, as a value. */
  function AddFields(t: TableInfo, key: seq<string>, fields: seq<Field>): TableInfo
  {
    if fields == [] then t else AddField(AddFields(t, key, fields[..|fields| - 1]), key, fields[|fields| - 1])
  }

  /** `extractTableInfoFromStruct`, as a value. */
  function TableOf(structName: string, fields: seq<Field>): TableInfo
  {
    var key := CompositeKey(fields);
    var t := AddFields(TableInfo(TableName(structName), [], [], []), key, fields);
    if |key| > 0 then t.(compositeKey := key) else t
  }

  /**
   * The second pass keeps the table name, adds only named columns, clears
   * the single-column key flag on composite-key columns, and gives every
   * index exactly the one column of its field.
   */
  lemma {:induction false} AddFieldsShape(t: TableInfo, key: seq<string>, fields: seq<Field>)
    requires forall k :: 0 <= k < |t.columns| ==> t.columns[k].name != "" && !(t.columns[k].primaryKey && t.columns[k].name in key)
    requires forall k :: 0 <= k < |t.indexes| ==> |t.indexes[k].columns| == 1
    ensures var r := AddFields(t, key, fields);
      r.name == t.name && r.compositeKey == t.compositeKey
      && |r.columns| <= |t.columns| + |fields| && |r.indexes| <= |t.indexes| + |fields|
      && (forall k :: 0 <= k < |r.columns| ==> r.columns[k].name != "" && !(r.columns[k].primaryKey && r.columns[k].name in key))
      && (forall k :: 0 <= k < |r.indexes| ==> |r.indexes[k].columns| == 1)
  {
    if fields != [] {
      AddFieldsShape(t, key, fields[..|fields| - 1]);
    }
  }

  /** The shape of an extracted table, including the one-column limit on composite keys. */
  lemma TableShape(structName: string, fields: seq<Field>)
    ensures var t := TableOf(structName, fields);
      t.name == TableName(structName) && |t.compositeKey| <= 1
      && |t.columns| <= |fields| && |t.indexes| <= |fields|
      && (forall k :: 0 <= k < |t.columns| ==> t.columns[k].name != "")
      && (forall k :: 0 <= k < |t.columns| ==> !(t.columns[k].primaryKey && t.columns[k].name in t.compositeKey))
      && (forall k :: 0 <= k < |t.indexes| ==> |t.indexes[k].columns| == 1)
  {
    CompositeKeySingle(fields);
    AddFieldsShape(TableInfo(TableName(structName), [], [], []), CompositeKey(fields), fields);
  }

  /** The index tag loop: `unique` and `name=` parts adjust the default name and flag. */
  method IndexFromTag(table: string, column: string, tag: string) returns (idx: Index)
    ensures idx == IndexFor(table, column, tag)
  {
    var parts := Split(tag, ',');
    var name := "idx_" + table + "_" + column;
    var unique := false;
    var i := 0;
    while i < |parts|
      invariant 0 <= i <= |parts|
      invariant (name, unique) == IndexOptions("idx_" + table + "_" + column, false, parts[..i])
    {
      assert parts[..i + 1][..i] == parts[..i];
      if parts[i] == "unique" {
        unique := true;
      } else if HasPrefix(parts[i], "name=") {
        name := TrimPrefix(parts[i], "name=");
      }
      i := i + 1;
    }
    assert parts[..i] == parts;
    idx := Index(name, [column], unique);
  }

  /** `extractTableInfoFromStruct`: the key pass, then the column and index pass. */
  method ExtractTableInfo(structName: string, fields: seq<Field>) returns (t: TableInfo)
    ensures t == TableOf(structName, fields)
  {
    var table := CamelToSnake(structName);
    table := table + "s";
    var key := FindCompositeKey(fields);
    t := TableInfo(table, [], [], []);
    var i := 0;
    while i < |fields|
      invariant 0 <= i <= |fields|
      invariant t == AddFields(TableInfo(table, [], [], []), key, fields[..i])
      invariant t.name == table
    {
      assert fields[..i + 1][..i] == fields[..i];
      var f := fields[i];
      if f.exported {
        var c := ExtractColumnInfo(f);
        if c.name != "" {
          var c' := if c.name in key then c.(primaryKey := false) else c;
          t := t.(columns := t.columns + [c']);
        }
        if f.indexTag != "" {
          var idx := IndexFromTag(table, c.name, f.indexTag);
          t := t.(indexes := t.indexes + [idx]);
        }
      }
      i := i + 1;
    }
    assert fields[..i] == fields;
    if |key| > 0 {
      t := t.(compositeKey := key);
    }
  }

  // ---------------------------------------------------------------- SQL text

  /** A column definition: name, type, then the constraints in a fixed order. */
  function ColumnDef(c: Column): string
  {
    "    " + c.name + " " + c.typ
    + (if c.primaryKey then " PRIMARY KEY" else "")
    + (if c.notNull then " NOT NULL" else "")
    + (if c.unique then " UNIQUE" else "")
    + (if c.default != "" then " DEFAULT " + c.default else "")
    + (if c.references != "" then " REFERENCES " + c.references else "")
  }

  /** The column definitions, separated by ",\n". */
  function ColumnDefs(cols: seq<Column>): string
  {
    if cols == [] then ""
    else if |cols| == 1 then ColumnDef(cols[0])
    else ColumnDefs(cols[..|cols| - 1]) + ",\n" + ColumnDef(cols[|cols| - 1])
  }

  /** Names separated by ", ". */
  function CommaList(names: seq<string>): string
  {
    if names == [] then ""
    else if |names| == 1 then names[0]
    else CommaList(names[..|names| - 1]) + ", " + names[|names| - 1]
  }

  function KeyClause(key: seq<string>): string
  {
    if |key| > 0 then ",\n    PRIMARY KEY (" + CommaList(key) + ")" else ""
  }

  function IndexLine(table: string, idx: Index): string
  {
    "CREATE " + (if idx.unique then "UNIQUE " else "") + "INDEX IF NOT EXISTS " + idx.name
    + " ON " + table + "(" + CommaList(idx.columns) + ");\n"
  }

  function IndexLines(table: string, idxs: seq<Index>): string
  {
    if idxs == [] then "" else IndexLines(table, idxs[..|idxs| - 1]) + IndexLine(table, idxs[|idxs| - 1])
  }

  function Header(table: string): string
  {
    "CREATE TABLE IF NOT EXISTS " + table + " (\n"
  }

  /** `generateCreateTableSQL`, as a value. */
  function CreateTableSQL(t: TableInfo): string
  {
    Header(t.name) + ColumnDefs(t.columns) + KeyClause(t.compositeKey) + "\n);\n\n" + IndexLines(t.name, t.indexes)
  }

  /** The statement opens with the table header and ends with one line per index. */
  lemma CreateTableShape(t: TableInfo)
    ensures HasPrefix(CreateTableSQL(t), Header(t.name))
    ensures HasSuffix(CreateTableSQL(t), "\n);\n\n" + IndexLines(t.name, t.indexes))
  {
    var s := CreateTableSQL(t);
    var tail := "\n);\n\n" + IndexLines(t.name, t.indexes);
    assert s == (Header(t.name) + ColumnDefs(t.columns) + KeyClause(t.compositeKey)) + tail;
  }

  /** The column loop: definitions written one by one, with ",\n" before all but the first. */
  method WriteColumns(cols: seq<Column>) returns (text: string)
    ensures text == ColumnDefs(cols)
  {
    text := "";
    var i := 0;
    while i < |cols|
      invariant 0 <= i <= |cols|
      invariant text == ColumnDefs(cols[..i])
    {
      assert cols[..i + 1][..i] == cols[..i];
      if i > 0 {
        text := text + ",\n";
      }
      text := text + ColumnDef(cols[i]);
      i := i + 1;
    }
    assert cols[..i] == cols;
  }

  /** The key loop: names written one by one, with ", " before all but the first. */
  method WriteNames(names: seq<string>) returns (text: string)
    ensures text == CommaList(names)
  {
    text := "";
    var j := 0;
    while j < |names|
      invariant 0 <= j <= |names|
      invariant text == CommaList(names[..j])
    {
      assert names[..j + 1][..j] == names[..j];
      if j > 0 {
        text := text + ", ";
      }
      text := text + names[j];
      j := j + 1;
    }
    assert names[..j] == names;
  }

  /** The index loop: one statement line per index. */
  method WriteIndexes(table: string, idxs: seq<Index>) returns (text: string)
    ensures text == IndexLines(table, idxs)
  {
    text := "";
    var k := 0;
    while k < |idxs|
      invariant 0 <= k <= |idxs|
      invariant text == IndexLines(table, idxs[..k])
    {
      assert idxs[..k + 1][..k] == idxs[..k];
      text := text + IndexLine(table, idxs[k]);
      k := k + 1;
    }
    assert idxs[..k] == idxs;
  }

  /** `generateCreateTableSQL`: writes the header, the columns, the key clause and the index lines. */
  method GenerateCreateTableSQL(t: TableInfo) returns (sql: string)
    ensures sql == CreateTableSQL(t)
  {
    var cols := WriteColumns(t.columns);
    sql := Header(t.name) + cols;
    if |t.compositeKey| > 0 {
      var keys := WriteNames(t.compositeKey);
      sql := sql + ",\n    PRIMARY KEY (" + keys + ")";
    }
    sql := sql + "\n);\n\n";
    var idx := WriteIndexes(t.name, t.indexes);
    sql := sql + idx;
  }

  // ---------------------------------------------------------------- migrations

  datatype DirEntry = DirEntry(name: string, isDir: bool)

  /** What reading the migrations directory gives: missing, an error, or the entries. */
  datatype Listing = Missing | Unreadable | Entries(entries: seq<DirEntry>)

  /**
   * The white space `fmt` skips before a number: tab through carriage
   * return, blank, U+0085, U+00A0, U+1680, U+2000 to U+200A, U+2028,
   * U+2029, U+202F, U+205F and U+3000. A newline is among them, but
   * `Sscanf` rejects it instead of skipping it.
   */
  predicate IsSpace(c: char)
  {
    var n := c as int;
    (0x09 <= n <= 0x0d) || n == 0x20 || n == 0x85 || n == 0xa0 || n == 0x1680
    || (0x2000 <= n <= 0x200a) || n == 0x2028 || n == 0x2029 || n == 0x202f
    || n == 0x205f || n == 0x3000
  }

  /**
   * What `fmt.Sscanf(name, "%d_", &seq)` accepts: optional white space
   * other than a newline, an optional sign, digits, then `_`; the number
   * must fit in 64 bits.
   */
  function LeadingNumber(name: string): (r: Option<int>)
    ensures r.Some? ==> '_' in name
    ensures name != [] && name[0] == '\n' ==> r.None?
  {
    if name != [] && name[0] == '\n' then None
    else if name != [] && IsSpace(name[0]) then LeadingNumber(name[1..])
    else if '_' !in name then None
    else Atoi(name[..IndexOf(name, '_')])
  }

  /** The number of bytes a character takes in UTF-8. */
  function Utf8Width(c: char): (w: nat)
    ensures 1 <= w <= 4
    ensures w == 1 <==> c as int < 0x80
  {
    var n := c as int;
    if n < 0x80 then 1 else if n < 0x800 then 2 else if n < 0x10000 then 3 else 4
  }

  /** Go's `len` of a string: its length in UTF-8 bytes. */
  function ByteLen(s: string): (n: nat)
    ensures |s| <= n <= 4 * |s|
  {
    if s == [] then 0 else ByteLen(s[..|s| - 1]) + Utf8Width(s[|s| - 1])
  }

  /** For ASCII text, bytes and characters agree. */
  lemma {:induction false} ByteLenAscii(s: string)
    requires forall k :: 0 <= k < |s| ==> s[k] as int < 0x80
    ensures ByteLen(s) == |s|
  {
    if s != [] {
      ByteLenAscii(s[..|s| - 1]);
    }
  }

  /** The six-byte bound counts bytes: five characters, one of them two bytes wide, are enough. */
  lemma ShortNameCountsBytes()
    ensures EntrySeq(DirEntry("7_\U{e9}.s", false)) == Some(7)
  {
    var name := "7_\U{e9}.s";
    assert ByteLen(name[..1]) == 1;
    assert ByteLen(name[..2]) == 2;
    assert name[..3][..2] == name[..2] && name[2] as int == 0xe9;
    assert ByteLen(name[..3]) == 4;
    assert name[..4][..3] == name[..3];
    assert ByteLen(name[..4]) == 5;
    assert name[..5] == name && name[..5][..4] == name[..4];
    assert IndexOf(name, '_') == 1;
    assert name[..1] == "7";
  }

  /** The sequence number a directory entry contributes, if any. */
  function EntrySeq(e: DirEntry): Option<int>
  {
    if e.isDir || ByteLen(e.name) < 6 then None else LeadingNumber(e.name)
  }

  /** The largest contributed number, starting from 0. */
  function MaxSeq(entries: seq<DirEntry>): int
  {
    if entries == [] then 0
    else
      var prior := MaxSeq(entries[..|entries| - 1]);
      var s := EntrySeq(entries[|entries| - 1]);
      if s.Some? && s.value > prior then s.value else prior
  }

  /** One more entry raises the maximum to its number exactly when that number is larger. */
  lemma MaxSeqSnoc(entries: seq<DirEntry>, e: DirEntry)
    ensures var s := EntrySeq(e);
      MaxSeq(entries + [e]) == if s.Some? && s.value > MaxSeq(entries) then s.value else MaxSeq(entries)
  {
    assert (entries + [e])[..|entries|] == entries;
  }

  /** The maximum is at least 0, bounds every contributed number, and is 0 or one of them. */
  lemma {:induction false} MaxSeqIsMax(entries: seq<DirEntry>)
    ensures MaxSeq(entries) >= 0
    ensures forall k :: 0 <= k < |entries| && EntrySeq(entries[k]).Some? ==> EntrySeq(entries[k]).value <= MaxSeq(entries)
    ensures MaxSeq(entries) == 0 || exists k :: 0 <= k < |entries| && EntrySeq(entries[k]) == Some(MaxSeq(entries))
  {
    if entries != [] {
      var n := |entries| - 1;
      MaxSeqIsMax(entries[..n]);
      assert forall k :: 0 <= k < n ==> entries[..n][k] == entries[k];
      if MaxSeq(entries) != 0 && MaxSeq(entries) == MaxSeq(entries[..n]) {
        var k :| 0 <= k < n && EntrySeq(entries[..n][k]) == Some(MaxSeq(entries));
        assert EntrySeq(entries[k]) == Some(MaxSeq(entries));
      }
    }
  }

  /**
   * `getNextMigrationSequence`: 1 for a missing directory, an error for an
   * unreadable one, otherwise one more than the largest number in front of
   * a `_` in a file name of at least six bytes.
   */
  method NextMigrationSequence(dir: Listing) returns (r: Result<int>)
    ensures dir.Missing? ==> r == Ok(1)
    ensures dir.Unreadable? ==> r.Err?
    ensures dir.Entries? ==> r == Ok(MaxSeq(dir.entries) + 1)
    ensures r.Ok? ==> r.value >= 1
    ensures r.Ok? && dir.Entries? ==> forall k :: 0 <= k < |dir.entries| && EntrySeq(dir.entries[k]).Some? ==>
      EntrySeq(dir.entries[k]).value < r.value
  {
    match dir
    case Missing => return Ok(1);
    case Unreadable => return Err("failed to read migrations directory");
    case Entries(entries) =>
      var maxSeq := 0;
      var i := 0;
      while i < |entries|
        invariant 0 <= i <= |entries|
        invariant maxSeq == MaxSeq(entries[..i])
      {
        assert entries[..i + 1] == entries[..i] + [entries[i]];
        MaxSeqSnoc(entries[..i], entries[i]);
        var e := entries[i];
        if !e.isDir && ByteLen(e.name) >= 6 {
          var s := LeadingNumber(e.name);
          if s.Some? && s.value > maxSeq {
            maxSeq := s.value;
          }
        }
        i := i + 1;
      }
      assert entries[..i] == entries;
      MaxSeqIsMax(entries);
      r := Ok(maxSeq + 1);
  }

  /** The file-name marker of a table's creation migration. */
  function Marker(table: string): string
  {
    "create_" + table + "_table"
  }

  /**
   * `checkMigrationExists`: false for a missing directory, an error for an
   * unreadable one, otherwise whether a non-directory entry's name
   * contains the marker.
   */
  method CheckMigrationExists(dir: Listing, table: string) returns (r: Result<bool>)
    ensures dir.Missing? ==> r == Ok(false)
    ensures dir.Unreadable? ==> r.Err?
    ensures dir.Entries? ==> r == Ok(exists k :: 0 <= k < |dir.entries| && !dir.entries[k].isDir
                                                  && Contains(dir.entries[k].name, Marker(table)))
  {
    match dir
    case Missing => return Ok(false);
    case Unreadable => return Err("failed to read migrations directory");
    case Entries(entries) =>
      var i := 0;
      while i < |entries|
        invariant 0 <= i <= |entries|
        invariant forall k :: 0 <= k < i ==> entries[k].isDir || !Contains(entries[k].name, Marker(table))
      {
        if !entries[i].isDir && Contains(entries[i].name, Marker(table)) {
          return Ok(true);
        }
        i := i + 1;
      }
      r := Ok(false);
  }
}
