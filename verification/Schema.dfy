/** The introspected schema and the text blocks rendered from it (introspect.py, serialize.py). */
module Schema {
  import opened Common

  /** `comment == ""` and `allowedValues == []` stand for a missing annotation: the code tests truthiness. */
  datatype ColumnInfo = ColumnInfo(
    name: string, typ: string, nullable: bool, comment: string, allowedValues: seq<string>)

  datatype ForeignKeyInfo = ForeignKeyInfo(
    columns: seq<string>, refSchema: string, refTable: string, refColumns: seq<string>)

  datatype TableInfo = TableInfo(
    schema: string, name: string, comment: string, columns: seq<ColumnInfo>,
    primaryKey: seq<string>, foreignKeys: seq<ForeignKeyInfo>)

  const EMPTY_SCHEMA_TEXT := "(the database is currently empty \U{2014} no tables have been imported yet)"

  function EstimateTokens(text: string): nat { TokensOfLength(|text|) }

  /** Four characters a token, a started token counted whole. */
  function TokensOfLength(n: nat): (r: nat)
    ensures 4 * r - 4 < n <= 4 * r
  {
    (n + 3) / 4
  }

  function QualifiedName(schema: string, name: string): string {
    if schema == "public" then name else schema + "." + name
  }

  function Qualified(t: TableInfo): string { QualifiedName(t.schema, t.name) }

  function HeaderLine(t: TableInfo): string {
    "TABLE " + Qualified(t)
    + (if t.primaryKey != [] then " (PK: " + Join(", ", t.primaryKey) + ")" else "")
    + (if t.comment != "" then "  -- " + t.comment else "")
  }

  function ColumnNote(c: ColumnInfo): string {
    var annotations := (if c.comment != "" then [c.comment] else [])
                       + (if c.allowedValues != [] then ["allowed values: " + Join(", ", c.allowedValues)] else []);
    if annotations != [] then "  -- " + Join("; ", annotations) else ""
  }

  function ColumnLine(c: ColumnInfo): string {
    "  " + c.name + " " + c.typ + (if c.nullable then "" else " NOT NULL") + ColumnNote(c)
  }

  function ForeignKeyLine(fk: ForeignKeyInfo): string {
    "  FK (" + Join(", ", fk.columns) + ") -> " + QualifiedName(fk.refSchema, fk.refTable)
    + "(" + Join(", ", fk.refColumns) + ")"
  }

  function ColumnLines(columns: seq<ColumnInfo>): seq<string> {
    seq(|columns|, i requires 0 <= i < |columns| => ColumnLine(columns[i]))
  }

  function ForeignKeyLines(fks: seq<ForeignKeyInfo>): seq<string> {
    seq(|fks|, i requires 0 <= i < |fks| => ForeignKeyLine(fks[i]))
  }

  function TableLines(t: TableInfo): seq<string> {
    [HeaderLine(t)] + ColumnLines(t.columns) + ForeignKeyLines(t.foreignKeys)
  }

  function TableText(t: TableInfo): string { Join("\n", TableLines(t)) }

  // ---------------------------------------------------- what a block must show

  /** The line of a column: name, type and NOT NULL, then a note exactly when there is a comment or a list of allowed
      values, which begins with the one and ends with the other. */
  ghost predicate ColumnReads(c: ColumnInfo, line: string) {
    var plain := "  " + c.name + " " + c.typ + (if c.nullable then "" else " NOT NULL");
    && plain <= line
    && var note := line[|plain|..];
       && (note == "" <==> c.comment == "" && c.allowedValues == [])
       && (c.comment != "" ==> "  -- " + c.comment <= note)
       && (c.allowedValues != [] ==> EndsIn(note, "allowed values: " + Join(", ", c.allowedValues)))
  }

  ghost predicate EndsIn(text: string, end: string) { |end| <= |text| && text[|text| - |end|..] == end }

  /** The line of a foreign key: its columns, then the table it refers to. */
  ghost predicate ForeignKeyReads(fk: ForeignKeyInfo, line: string) {
    && "  FK (" + Join(", ", fk.columns) + ") -> " + (if fk.refSchema == "public" then "" else fk.refSchema + ".") <= line
    && EndsIn(line, fk.refTable + "(" + Join(", ", fk.refColumns) + ")")
  }

  /** The header: the qualified name, then the primary key and the comment if there are any. */
  ghost predicate HeaderReads(t: TableInfo, line: string) {
    var name := "TABLE " + (if t.schema == "public" then "" else t.schema + ".") + t.name;
    && name + (if t.primaryKey != [] then " (PK: " + Join(", ", t.primaryKey) + ")" else "") <= line
    && (t.comment != "" ==> EndsIn(line, "  -- " + t.comment))
  }

  /** One line for the table, one for each column and one for each foreign key, in order. */
  ghost predicate TableReads(t: TableInfo, lines: seq<string>) {
    && |lines| == 1 + |t.columns| + |t.foreignKeys| && HeaderReads(t, lines[0])
    && (forall i :: 0 <= i < |t.columns| ==> ColumnReads(t.columns[i], lines[1 + i]))
    && (forall i :: 0 <= i < |t.foreignKeys| ==> ForeignKeyReads(t.foreignKeys[i], lines[1 + |t.columns| + i]))
  }

  lemma ColumnLineReads(c: ColumnInfo)
    ensures ColumnReads(c, ColumnLine(c))
  {
    var plain := "  " + c.name + " " + c.typ + (if c.nullable then "" else " NOT NULL");
    assert ColumnLine(c) == plain + ColumnNote(c);
    assert ColumnLine(c)[|plain|..] == ColumnNote(c);
    NoteReads(c);
  }

  lemma NoteReads(c: ColumnInfo)
    ensures ColumnNote(c) == "" <==> c.comment == "" && c.allowedValues == []
    ensures c.comment != "" ==> "  -- " + c.comment <= ColumnNote(c)
    ensures c.allowedValues != [] ==> EndsIn(ColumnNote(c), "allowed values: " + Join(", ", c.allowedValues))
  {
    var values := "allowed values: " + Join(", ", c.allowedValues);
    if c.comment != "" && c.allowedValues != [] {
      var both := [c.comment] + [values];
      assert both[1..] == [values];
      assert Join("; ", both) == c.comment + "; " + values;
      assert ColumnNote(c) == "  -- " + (c.comment + "; " + values);
    }
  }

  lemma HeaderLineReads(t: TableInfo)
    ensures HeaderReads(t, HeaderLine(t))
  {}

  lemma ForeignKeyLineReads(fk: ForeignKeyInfo)
    ensures ForeignKeyReads(fk, ForeignKeyLine(fk))
  {
    var prefix := if fk.refSchema == "public" then "" else fk.refSchema + ".";
    var end := fk.refTable + "(" + Join(", ", fk.refColumns) + ")";
    assert QualifiedName(fk.refSchema, fk.refTable) == prefix + fk.refTable;
    assert ForeignKeyLine(fk) == ("  FK (" + Join(", ", fk.columns) + ") -> " + prefix) + end;
  }

  lemma TableLinesRead(t: TableInfo)
    ensures TableReads(t, TableLines(t))
  {
    HeaderLineReads(t);
    forall i | 0 <= i < |t.columns| ensures ColumnReads(t.columns[i], TableLines(t)[1 + i]) {
      ColumnLineReads(t.columns[i]);
    }
    forall i | 0 <= i < |t.foreignKeys| ensures ForeignKeyReads(t.foreignKeys[i], TableLines(t)[1 + |t.columns| + i]) {
      ForeignKeyLineReads(t.foreignKeys[i]);
    }
  }

  lemma ColumnLinesSnoc(columns: seq<ColumnInfo>, i: nat)
    requires i < |columns|
    ensures ColumnLines(columns[..i + 1]) == ColumnLines(columns[..i]) + [ColumnLine(columns[i])]
  {}

  lemma ForeignKeyLinesSnoc(fks: seq<ForeignKeyInfo>, i: nat)
    requires i < |fks|
    ensures ForeignKeyLines(fks[..i + 1]) == ForeignKeyLines(fks[..i]) + [ForeignKeyLine(fks[i])]
  {}

  /** serialize_table: grows `lines` one column and one foreign key at a time. */
  method SerializeTable(t: TableInfo) returns (text: string)
    ensures text == TableText(t) && exists lines :: text == Join("\n", lines) && TableReads(t, lines)
  {
    TableLinesRead(t);
    var lines := [HeaderLine(t)];
    for i := 0 to |t.columns|
      invariant lines == [HeaderLine(t)] + ColumnLines(t.columns[..i])
    {
      ColumnLinesSnoc(t.columns, i);
      lines := lines + [ColumnLine(t.columns[i])];
    }
    assert t.columns[..|t.columns|] == t.columns;
    assert lines == [HeaderLine(t)] + ColumnLines(t.columns) + ForeignKeyLines(t.foreignKeys[..0]);
    for i := 0 to |t.foreignKeys|
      invariant lines == [HeaderLine(t)] + ColumnLines(t.columns) + ForeignKeyLines(t.foreignKeys[..i])
    {
      ForeignKeyLinesSnoc(t.foreignKeys, i);
      lines := lines + [ForeignKeyLine(t.foreignKeys[i])];
    }
    assert t.foreignKeys[..|t.foreignKeys|] == t.foreignKeys;
    text := Join("\n", lines);
  }

  function TableTexts(tables: seq<TableInfo>): seq<string> {
    Map(TableText, tables)
  }

  /** serialize_tables. */
  function TablesText(tables: seq<TableInfo>): string { Join("\n\n", TableTexts(tables)) }

  /** serialize_schema. */
  function SchemaText(tables: seq<TableInfo>): string {
    if tables == [] then EMPTY_SCHEMA_TEXT else TablesText(tables)
  }

  /** table_directory. */
  function Directory(tables: seq<TableInfo>): string {
    "TABLES: " + Join(", ", seq(|tables|, i requires 0 <= i < |tables| => Qualified(tables[i])))
  }

  /** The directory names every table, in order, with its schema unless that is the public one. */
  lemma DirectoryReads(tables: seq<TableInfo>) returns (names: seq<string>)
    ensures |names| == |tables| && Directory(tables) == "TABLES: " + Join(", ", names)
    ensures forall i :: 0 <= i < |tables| ==>
      names[i] == (if tables[i].schema == "public" then "" else tables[i].schema + ".") + tables[i].name
  {
    names := seq(|tables|, i requires 0 <= i < |tables| => Qualified(tables[i]));
    forall i | 0 <= i < |tables|
      ensures names[i] == (if tables[i].schema == "public" then "" else tables[i].schema + ".") + tables[i].name
    {
      assert "" + tables[i].name == tables[i].name;
    }
  }

  function TablesTokens(tables: seq<TableInfo>): nat { EstimateTokens(TablesText(tables)) }

  lemma TablesLength(tables: seq<TableInfo>)
    ensures |TablesText(tables)|
         == TotalLength(TableTexts(tables)) + (if tables == [] then 0 else 2 * (|tables| - 1))
  {
    JoinLength("\n\n", TableTexts(tables));
  }

  lemma TableTextsConcat(a: seq<TableInfo>, b: seq<TableInfo>)
    ensures TableTexts(a + b) == TableTexts(a) + TableTexts(b)
  {}

  /** A longer selection never renders shorter, whatever table is appended to both. */
  lemma TokensMonotone(a: seq<TableInfo>, b: seq<TableInfo>, t: TableInfo)
    requires a <= b
    ensures TablesTokens(a) <= TablesTokens(b)
    ensures TablesTokens(a + [t]) <= TablesTokens(b + [t])
  {
    var rest := b[|a|..];
    assert b == a + rest;
    TableTextsConcat(a, rest);
    TotalLengthConcat(TableTexts(a), TableTexts(rest));
    TableTextsConcat(a, [t]);
    TotalLengthConcat(TableTexts(a), TableTexts([t]));
    TableTextsConcat(b, [t]);
    TotalLengthConcat(TableTexts(b), TableTexts([t]));
    TablesLength(a);
    TablesLength(b);
    TablesLength(a + [t]);
    TablesLength(b + [t]);
  }

  /** The token estimate of a rendering does not depend on the order of the tables. */
  lemma TokensPermute(a: seq<TableInfo>, b: seq<TableInfo>)
    requires multiset(a) == multiset(b)
    ensures |a| == |b|
    ensures TablesTokens(a) == TablesTokens(b)
  {
    MapPermute(TableText, a, b);
    TotalLengthPermute(TableTexts(a), TableTexts(b));
    TablesLength(a);
    TablesLength(b);
  }
}
