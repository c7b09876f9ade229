/** The SQLite side of the chatbot (utils/db_utils.py): query results as
    rows keyed by column name, per-table column and foreign-key information,
    the schema map of every table, and its rendering as prompt text. The
    database itself is a `Store`: what each statement and each PRAGMA returns
    or the `sqlite3.Error` it raises. */
module Database {
  import opened Outcomes
  import opened OrderedDict
  import opened Text

  /** A value SQLite hands back for one column of one row. */
  datatype Value = Null | Integer(i: int) | Real(literal: string) | Str(s: string) | Blob(bytes: seq<bv8>)

  /** `dict(zip(columns, row))`: a result row keyed by column name. */
  type Row = Dict<string, Value>

  /** What a cursor holds after `execute`: the column names of
      `cursor.description` (`None` for a statement that produces no rows) and
      the rows `fetchall` returns. */
  datatype Cursor = Cursor(description: Option<seq<string>>, fetched: seq<seq<Value>>)

  /** One row of `PRAGMA table_info(t)`. */
  datatype PragmaColumn = PragmaColumn(cid: int, name: string, declType: string, notnull: int, dflt: Value, pk: int)

  /** One row of `PRAGMA foreign_key_list(t)`: the `from`, `table` and `to`
      columns. */
  datatype PragmaForeignKey = PragmaForeignKey(fromColumn: string, table: string, toColumn: string)

  /** The database as seen through its connections: each call either returns
      or raises `sqlite3.Error` (`Raised`). `masterTables` is what the
      `sqlite_master` query for `type='table'` lists. */
  datatype Store = Store(
    execute: string -> Outcome<Cursor>,
    masterTables: Outcome<seq<string>>,
    tableInfo: string -> Outcome<seq<PragmaColumn>>,
    foreignKeyList: string -> Outcome<seq<PragmaForeignKey>>)

  /** `zip(a, b)`: pairs up to the shorter of the two. */
  function Zip<A, B>(a: seq<A>, b: seq<B>): (r: seq<(A, B)>)
    ensures |r| == if |a| <= |b| then |a| else |b|
    ensures forall i | 0 <= i < |r| :: r[i] == (a[i], b[i])
  {
    if a == [] || b == [] then [] else [(a[0], b[0])] + Zip(a[1..], b[1..])
  }

  /** `[col[0] for col in cursor.description] if cursor.description else []`. */
  function Columns(c: Cursor): seq<string> {
    match c.description
    case None => []
    case Some(names) => names
  }

  /** `execute_query`: every fetched row as a dictionary from column name to
      value, with no error; or no rows and the database error's message. */
  function ExecuteQuery(store: Store, query: string): (r: (seq<Row>, Option<string>))
    ensures store.execute(query).Raised? ==> r == ([], Some(store.execute(query).message))
    ensures store.execute(query).Done? ==>
      r.1 == None && |r.0| == |store.execute(query).value.fetched|
  {
    match store.execute(query)
    case Raised(m) => ([], Some(m))
    case Done(c) =>
      var cols := Columns(c);
      (seq(|c.fetched|, i requires 0 <= i < |c.fetched| => FromPairs(Zip(cols, c.fetched[i]))), None)
  }

  /** In each result row a column name maps to the value of the LAST column
      of that name, and the row's keys are the column names in order, each
      once. */
  lemma RowLookup(store: Store, query: string, i: nat, name: string)
    requires store.execute(query).Done? && i < |store.execute(query).value.fetched|
    ensures var c := store.execute(query).value;
            var row := ExecuteQuery(store, query).0[i];
            Get(row, name) == LastValue(Zip(Columns(c), c.fetched[i]), name)
            && Keys(row) == Dedup(Keys(Zip(Columns(c), c.fetched[i])))
  {
    var c := store.execute(query).value;
    FromPairsProperties(Zip(Columns(c), c.fetched[i]), name);
  }

  /** With distinct column names and a full row, the row maps the j-th
      column name to the j-th value and its keys are exactly the columns. */
  lemma RowOfDistinctColumns(store: Store, query: string, i: nat, j: nat)
    requires store.execute(query).Done?
    requires var c := store.execute(query).value;
             i < |c.fetched| && Distinct(Columns(c)) && |c.fetched[i]| == |Columns(c)| && j < |Columns(c)|
    ensures var c := store.execute(query).value;
            var row := ExecuteQuery(store, query).0[i];
            Keys(row) == Columns(c) && Get(row, Columns(c)[j]) == Some(c.fetched[i][j])
  {
    var c := store.execute(query).value;
    var pairs := Zip(Columns(c), c.fetched[i]);
    RowLookup(store, query, i, Columns(c)[j]);
    assert Keys(pairs) == Columns(c);
    DedupDistinct(Columns(c));
    LastValueDistinct(pairs, j);
  }

  /** A sequence without repeats is its own `Dedup`. */
  lemma {:induction false} DedupDistinct<K>(ks: seq<K>)
    requires Distinct(ks)
    ensures Dedup(ks) == ks
    decreases |ks|
  {
    if ks != [] {
      var init := ks[..|ks| - 1];
      DedupDistinct(init);
      assert ks[|ks| - 1] !in init by {
        forall i | 0 <= i < |init| ensures init[i] != ks[|ks| - 1] {
          assert init[i] == ks[i];
        }
      }
      assert init + [ks[|ks| - 1]] == ks;
    }
  }

  /** With distinct keys, the last pair for the j-th key is the j-th pair. */
  lemma {:induction false} LastValueDistinct<K, V>(pairs: seq<(K, V)>, j: nat)
    requires Distinct(Keys(pairs)) && j < |pairs|
    ensures LastValue(pairs, pairs[j].0) == Some(pairs[j].1)
    decreases |pairs|
  {
    var n := |pairs| - 1;
    if j < n {
      assert pairs[n].0 != pairs[j].0 by { assert Keys(pairs)[j] != Keys(pairs)[n]; }
      var init := pairs[..n];
      assert Keys(init) == Keys(pairs)[..n];
      LastValueDistinct(init, j);
    }
  }

  /** A column of `get_table_schema`. */
  datatype Column = Column(name: string, colType: string, primaryKey: bool, nullable: bool)

  /** A foreign key of `get_foreign_keys`. */
  datatype ForeignKey = ForeignKey(column: string, referencedTable: string, referencedColumn: string)

  /** The column record built from one `table_info` row: `bool(pk)` and
      `not bool(notnull)`. */
  function ColumnInfo(p: PragmaColumn): (c: Column)
    ensures c.name == p.name && c.colType == p.declType
    ensures c.primaryKey <==> p.pk != 0
    ensures c.nullable <==> p.notnull == 0
  {
    Column(p.name, p.declType, p.pk != 0, p.notnull == 0)
  }

  function ColumnsOf(rows: seq<PragmaColumn>): (cs: seq<Column>)
    ensures |cs| == |rows| && forall i | 0 <= i < |rows| :: cs[i] == ColumnInfo(rows[i])
  {
    seq(|rows|, i requires 0 <= i < |rows| => ColumnInfo(rows[i]))
  }

  /** What `get_table_schema` returns: the columns and no error, or no
      columns and the error message. */
  function TableSchema(store: Store, table: string): (seq<Column>, Option<string>) {
    match store.tableInfo(table)
    case Raised(m) => ([], Some(m))
    case Done(rows) => (ColumnsOf(rows), None)
  }

  /** `get_table_schema`: one column record per `table_info` row, in order;
      a database error gives no columns and its message. */
  method GetTableSchema(store: Store, table: string) returns (columns: seq<Column>, error: Option<string>)
    ensures (columns, error) == TableSchema(store, table)
    ensures error.None? ==> |columns| == |store.tableInfo(table).value|
    ensures error.None? ==> forall i | 0 <= i < |columns| ::
      (columns[i].primaryKey <==> store.tableInfo(table).value[i].pk != 0)
      && (columns[i].nullable <==> store.tableInfo(table).value[i].notnull == 0)
  {
    match store.tableInfo(table)
    case Raised(m) =>
      return [], Some(m);
    case Done(rows) =>
      columns := [];
      for i := 0 to |rows|
        invariant columns == ColumnsOf(rows[..i])
      {
        columns := columns + [ColumnInfo(rows[i])];
      }
      assert rows[..|rows|] == rows;
      error := None;
  }

  function ForeignKeyInfo(p: PragmaForeignKey): ForeignKey {
    ForeignKey(p.fromColumn, p.table, p.toColumn)
  }

  function ForeignKeysOf(rows: seq<PragmaForeignKey>): (fks: seq<ForeignKey>)
    ensures |fks| == |rows| && forall i | 0 <= i < |rows| :: fks[i] == ForeignKeyInfo(rows[i])
  {
    seq(|rows|, i requires 0 <= i < |rows| => ForeignKeyInfo(rows[i]))
  }

  /** What `get_foreign_keys` returns; it does not catch database errors. */
  function ForeignKeys(store: Store, table: string): Outcome<seq<ForeignKey>> {
    match store.foreignKeyList(table)
    case Raised(m) => Raised(m)
    case Done(rows) => Done(ForeignKeysOf(rows))
  }

  /** `get_foreign_keys`: one record per `foreign_key_list` row, in order,
      mapping `from`, `table` and `to`; a database error escapes. */
  method GetForeignKeys(store: Store, table: string) returns (r: Outcome<seq<ForeignKey>>)
    ensures r == ForeignKeys(store, table)
    ensures r.Done? ==> |r.value| == |store.foreignKeyList(table).value|
    ensures r.Done? ==> forall i | 0 <= i < |r.value| ::
           r.value[i].column == store.foreignKeyList(table).value[i].fromColumn
           && r.value[i].referencedTable == store.foreignKeyList(table).value[i].table
           && r.value[i].referencedColumn == store.foreignKeyList(table).value[i].toColumn
  {
    match store.foreignKeyList(table)
    case Raised(m) =>
      return Raised(m);
    case Done(rows) =>
      var fks := [];
      for i := 0 to |rows|
        invariant fks == ForeignKeysOf(rows[..i])
      {
        fks := fks + [ForeignKeyInfo(rows[i])];
      }
      assert rows[..|rows|] == rows;
      return Done(fks);
  }

  /** The entry `get_database_schema` stores for a table. */
  datatype TableInfo = TableInfo(columns: seq<Column>, foreignKeys: seq<ForeignKey>)

  /** Table name to table information, in table order. */
  type Schema = Dict<string, TableInfo>

  /** The entry for one table: its columns (an error there leaves `[]`) and
      its foreign keys (an error there escapes). */
  function TableEntry(store: Store, table: string): Outcome<TableInfo> {
    match ForeignKeys(store, table)
    case Raised(m) => Raised(m)
    case Done(fks) => Done(TableInfo(TableSchema(store, table).0, fks))
  }

  /** The schema after the loop of `get_database_schema` has visited
      `tables`, or the first error that escaped. */
  function SchemaOf(store: Store, tables: seq<string>): Outcome<Schema>
    decreases |tables|
  {
    if tables == [] then Done([])
    else
      var t := tables[|tables| - 1];
      match SchemaOf(store, tables[..|tables| - 1])
      case Raised(m) => Raised(m)
      case Done(schema) =>
        match TableEntry(store, t)
        case Raised(m) => Raised(m)
        case Done(info) => Done(Set(schema, t, info))
  }

  /** Once the loop has stopped on an error, the rest of the tables do not
      change the outcome. */
  lemma {:induction false} SchemaOfRaised(store: Store, tables: seq<string>, i: nat)
    requires i <= |tables| && SchemaOf(store, tables[..i]).Raised?
    ensures SchemaOf(store, tables) == SchemaOf(store, tables[..i])
    decreases |tables| - i
  {
    if i < |tables| {
      assert tables[..i + 1][..i] == tables[..i];
      SchemaOfRaised(store, tables, i + 1);
    } else {
      assert tables[..i] == tables;
    }
  }

  /** What `get_database_schema` returns. */
  function DatabaseSchema(store: Store): Outcome<Schema> {
    match store.masterTables
    case Raised(m) => Raised(m)
    case Done(tables) => SchemaOf(store, tables)
  }

  /** The schema is built exactly when no table's foreign-key lookup
      fails. */
  lemma {:induction false} SchemaBuiltIff(store: Store, tables: seq<string>)
    ensures SchemaOf(store, tables).Done? <==>
      forall i | 0 <= i < |tables| :: TableEntry(store, tables[i]).Done?
    decreases |tables|
  {
    if tables != [] {
      var n := |tables| - 1;
      SchemaBuiltIff(store, tables[..n]);
      assert forall i | 0 <= i < n :: tables[..n][i] == tables[i];
    }
  }

  /** Each table paired with its entry, in table order. */
  function Entries(store: Store, tables: seq<string>): (es: seq<(string, TableInfo)>)
    requires forall i | 0 <= i < |tables| :: TableEntry(store, tables[i]).Done?
    ensures |es| == |tables|
    ensures forall i | 0 <= i < |tables| :: es[i] == (tables[i], TableEntry(store, tables[i]).value)
  {
    seq(|tables|, i requires 0 <= i < |tables| => (tables[i], TableEntry(store, tables[i]).value))
  }

  /** The loop of `get_database_schema` is `dict` of the (table, entry)
      pairs. */
  lemma {:induction false} SchemaIsDict(store: Store, tables: seq<string>)
    requires forall i | 0 <= i < |tables| :: TableEntry(store, tables[i]).Done?
    ensures SchemaOf(store, tables) == Done(FromPairs(Entries(store, tables)))
    decreases |tables|
  {
    if tables != [] {
      var n := |tables| - 1;
      var init := tables[..n];
      assert forall i | 0 <= i < n :: init[i] == tables[i];
      SchemaIsDict(store, init);
      var es := Entries(store, tables);
      assert es[..n] == Entries(store, init);
    }
  }

  /** Every pair for a table carries that table's entry, so the last one
      does too. */
  lemma {:induction false} LastEntry(store: Store, tables: seq<string>, i: nat)
    requires forall j | 0 <= j < |tables| :: TableEntry(store, tables[j]).Done?
    requires i < |tables|
    ensures LastValue(Entries(store, tables), tables[i]) == Some(TableEntry(store, tables[i]).value)
    decreases |tables|
  {
    var n := |tables| - 1;
    if tables[n] != tables[i] {
      var init := tables[..n];
      assert forall j | 0 <= j < n :: init[j] == tables[j];
      assert Entries(store, tables)[..n] == Entries(store, init);
      LastEntry(store, init, i);
    }
  }

  /** The schema covers every table, each once and in order of first
      listing, with that table's columns and foreign keys. */
  lemma SchemaContents(store: Store, tables: seq<string>, i: nat)
    requires SchemaOf(store, tables).Done? && i < |tables|
    ensures Distinct(Keys(SchemaOf(store, tables).value))
    ensures Keys(SchemaOf(store, tables).value) == Dedup(tables)
    ensures TableEntry(store, tables[i]).Done?
         && Get(SchemaOf(store, tables).value, tables[i]) == Some(TableEntry(store, tables[i]).value)
  {
    SchemaBuiltIff(store, tables);
    SchemaIsDict(store, tables);
    var es := Entries(store, tables);
    FromPairsProperties(es, tables[i]);
    assert Keys(es) == tables;
    LastEntry(store, tables, i);
  }

  const SchemaHeader := "Database Schema:\n\n"

  /** `  - name (type)`, then ` (Primary Key)` and ` (Nullable)` when they
      apply, then a newline. */
  function ColumnLine(c: Column): string {
    "  - " + c.name + " (" + c.colType + ")"
    + (if c.primaryKey then " (Primary Key)" else "")
    + (if c.nullable then " (Nullable)" else "")
    + "\n"
  }

  /** `  - col references table(col)` and a newline. */
  function ForeignKeyLine(fk: ForeignKey): string {
    "  - " + fk.column + " references " + fk.referencedTable + "(" + fk.referencedColumn + ")\n"
  }

  /** The `Foreign Keys:` section, present only when there are keys. */
  function ForeignKeySection(fks: seq<ForeignKey>): string {
    if |fks| == 0 then "" else "Foreign Keys:\n" + ConcatMap(ForeignKeyLine, fks)
  }

  /** The text one table contributes, ending in a blank line. */
  function TableBlock(name: string, info: TableInfo): string {
    "Table: " + name + "\n" + "Columns:\n" + ConcatMap(ColumnLine, info.columns)
    + ForeignKeySection(info.foreignKeys) + "\n"
  }

  function TableEntryBlock(e: (string, TableInfo)): string {
    TableBlock(e.0, e.1)
  }

  /** The text `get_schema_as_string` builds from a schema. */
  function RenderSchema(schema: Schema): string {
    SchemaHeader + ConcatMap(TableEntryBlock, schema)
  }

  /** The rendered schema starts with the header and holds, for every table,
      its whole block: `Table: <name>`, its column lines and its foreign-key
      section. */
  lemma RenderedSchemaHasEveryTable(schema: Schema, i: nat)
    requires i < |schema|
    ensures StartsWith(RenderSchema(schema), SchemaHeader)
    ensures Contains(RenderSchema(schema), TableEntryBlock(schema[i]))
  {
    ConcatMapHasEach(TableEntryBlock, schema, i);
    ContainsAfter(SchemaHeader, ConcatMap(TableEntryBlock, schema), TableEntryBlock(schema[i]));
    StartsWithAppend(SchemaHeader, ConcatMap(TableEntryBlock, schema));
  }

  /** A table's foreign-key section is present exactly when it has keys, and
      then holds one line per key. */
  lemma ForeignKeySectionPresence(fks: seq<ForeignKey>)
    ensures ForeignKeySection(fks) == "" <==> fks == []
    ensures fks != [] ==> StartsWith(ForeignKeySection(fks), "Foreign Keys:\n")
  {
  }

  /** The body of the table loop of `get_schema_as_string`. */
  method RenderTableBlock(name: string, info: TableInfo) returns (block: string)
    ensures block == TableBlock(name, info)
  {
    block := "Table: " + name + "\n";
    block := block + "Columns:\n";
    ghost var head := block;
    for j := 0 to |info.columns|
      invariant block == head + ConcatMap(ColumnLine, info.columns[..j])
    {
      ConcatMapSnoc(ColumnLine, info.columns, j);
      AppendAssoc(head, ConcatMap(ColumnLine, info.columns[..j]), ColumnLine(info.columns[j]));
      block := block + ColumnLine(info.columns[j]);
    }
    assert info.columns[..|info.columns|] == info.columns;
    if |info.foreignKeys| > 0 {
      block := block + "Foreign Keys:\n";
      ghost var withColumns := block;
      for j := 0 to |info.foreignKeys|
        invariant block == withColumns + ConcatMap(ForeignKeyLine, info.foreignKeys[..j])
      {
        ConcatMapSnoc(ForeignKeyLine, info.foreignKeys, j);
        AppendAssoc(withColumns, ConcatMap(ForeignKeyLine, info.foreignKeys[..j]), ForeignKeyLine(info.foreignKeys[j]));
        block := block + ForeignKeyLine(info.foreignKeys[j]);
      }
      assert info.foreignKeys[..|info.foreignKeys|] == info.foreignKeys;
      AppendAssoc(head + ConcatMap(ColumnLine, info.columns), "Foreign Keys:\n", ConcatMap(ForeignKeyLine, info.foreignKeys));
    }
    block := block + "\n";
  }

  /** `get_schema_as_string`: the header, then per table in schema order its
      name line, `Columns:`, one line per column, the foreign-key section
      when it has keys, and a blank line. */
  method RenderSchemaText(schema: Schema) returns (text: string)
    ensures text == RenderSchema(schema)
  {
    text := SchemaHeader;
    for i := 0 to |schema|
      invariant text == SchemaHeader + ConcatMap(TableEntryBlock, schema[..i])
    {
      var block := RenderTableBlock(schema[i].0, schema[i].1);
      ConcatMapSnoc(TableEntryBlock, schema, i);
      AppendAssoc(SchemaHeader, ConcatMap(TableEntryBlock, schema[..i]), block);
      text := text + block;
    }
    assert schema[..|schema|] == schema;
  }

  /** `get_database_schema`: every listed table with its columns and foreign
      keys, in table order; an error listing tables or foreign keys escapes. */
  method GetDatabaseSchema(store: Store) returns (r: Outcome<Schema>)
    ensures r == DatabaseSchema(store)
  {
    match store.masterTables
    case Raised(m) =>
      return Raised(m);
    case Done(tables) =>
      var schema: Schema := [];
      for i := 0 to |tables|
        invariant SchemaOf(store, tables[..i]) == Done(schema)
      {
        var table := tables[i];
        var columns, _ := GetTableSchema(store, table);
        var fks := GetForeignKeys(store, table);
        assert tables[..i + 1][..i] == tables[..i];
        if fks.Raised? {
          SchemaOfRaised(store, tables, i + 1);
          return Raised(fks.message);
        }
        schema := Set(schema, table, TableInfo(columns, fks.value));
      }
      assert tables[..|tables|] == tables;
      return Done(schema);
  }

  /** What `get_schema_as_string` returns. */
  function SchemaText(store: Store): Outcome<string> {
    match DatabaseSchema(store)
    case Raised(m) => Raised(m)
    case Done(schema) => Done(RenderSchema(schema))
  }

  /** `get_schema_as_string`: the rendered schema of the database, or the
      error that escaped while reading it. */
  method GetSchemaAsString(store: Store) returns (r: Outcome<string>)
    ensures r == SchemaText(store)
  {
    var schema := GetDatabaseSchema(store);
    match schema
    case Raised(m) =>
      return Raised(m);
    case Done(s) =>
      var text := RenderSchemaText(s);
      return Done(text);
  }
}
