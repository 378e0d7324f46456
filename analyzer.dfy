/** The schema analysis (server/app/services/analyzer.py). The cursor's
    results are inputs: the tables SHOW TABLES lists, each with its DESCRIBE
    rows and foreign-key rows, or the exception the driver raised. */
module Analyzer {
  import opened Wrappers
  import opened Text
  import opened Values
  import opened Schema

  /** A row of the foreign-key query: COLUMN_NAME, REFERENCED_TABLE_NAME, REFERENCED_COLUMN_NAME. */
  datatype ForeignKeyRow = ForeignKeyRow(column: string, refTable: string, refColumn: string)

  /** What the cursor returns about one table of SHOW TABLES. */
  datatype TableCatalog = TableCatalog(name: string, describe: seq<DescribeRow>, foreignKeys: seq<ForeignKeyRow>)

  /** The request keys `analyze` reads, in the order it reads them. */
  const CredentialKeys: seq<string> := ["mysql_host", "mysql_port", "mysql_database", "mysql_user", "mysql_password"]

  /** The record built from one DESCRIBE row. */
  function ColumnOf(row: DescribeRow): ColumnInfo {
    ColumnInfo(row.field, row.colType, row.nullText == "YES", row.key == "PRI")
  }

  /** The names of the primary-key columns, in column order. */
  function PrimaryKeys(rows: seq<DescribeRow>): seq<string>
    decreases |rows|
  {
    if |rows| == 0 then []
    else PrimaryKeys(rows[..|rows| - 1]) + (if rows[|rows| - 1].key == "PRI" then [rows[|rows| - 1].field] else [])
  }

  /** The positions of the rows whose key is PRI, in increasing order. */
  function PrimaryKeyPositions(rows: seq<DescribeRow>): (pos: seq<nat>)
    ensures forall k :: 0 <= k < |pos| ==> pos[k] < |rows| && rows[pos[k]].key == "PRI"
    ensures forall k, l :: 0 <= k < l < |pos| ==> pos[k] < pos[l]
    ensures forall i :: 0 <= i < |rows| && rows[i].key == "PRI" ==> i in pos
    decreases |rows|
  {
    if |rows| == 0 then []
    else PrimaryKeyPositions(rows[..|rows| - 1]) + (if rows[|rows| - 1].key == "PRI" then [|rows| - 1] else [])
  }

  /** `primary_keys` lists exactly the PRI columns, each once, in column order. */
  lemma {:induction false} PrimaryKeysInColumnOrder(rows: seq<DescribeRow>)
    ensures |PrimaryKeys(rows)| == |PrimaryKeyPositions(rows)|
    ensures forall k :: 0 <= k < |PrimaryKeys(rows)| ==> PrimaryKeys(rows)[k] == rows[PrimaryKeyPositions(rows)[k]].field
    decreases |rows|
  {
    if |rows| > 0 {
      var init := rows[..|rows| - 1];
      PrimaryKeysInColumnOrder(init);
      assert forall i :: 0 <= i < |init| ==> init[i] == rows[i];
    }
  }

  function ColumnsOf(rows: seq<DescribeRow>): (cols: seq<ColumnInfo>)
    ensures |cols| == |rows| && forall i :: 0 <= i < |rows| ==> cols[i] == ColumnOf(rows[i])
  {
    seq(|rows|, i requires 0 <= i < |rows| => ColumnOf(rows[i]))
  }

  function TableInfoOf(t: TableCatalog): TableInfo {
    TableInfo(t.name, ColumnsOf(t.describe), PrimaryKeys(t.describe))
  }

  function ForeignKeyOf(table: string, row: ForeignKeyRow): Relationship {
    Relationship(table, row.column, row.refTable, row.refColumn)
  }

  function ForeignKeysOf(table: string, rows: seq<ForeignKeyRow>): (rels: seq<Relationship>)
    ensures |rels| == |rows| && forall k :: 0 <= k < |rows| ==> rels[k] == ForeignKeyOf(table, rows[k])
  {
    seq(|rows|, k requires 0 <= k < |rows| => ForeignKeyOf(table, rows[k]))
  }

  /** The relationships of all tables, table by table. */
  function RelationshipsOf(tables: seq<TableCatalog>): seq<Relationship>
    decreases |tables|
  {
    if |tables| == 0 then []
    else RelationshipsOf(tables[..|tables| - 1])
         + ForeignKeysOf(tables[|tables| - 1].name, tables[|tables| - 1].foreignKeys)
  }

  /** The relationships come grouped by table, in SHOW TABLES order: those of
      any prefix of the tables come first, then those of the rest. */
  lemma {:induction false} RelationshipsGroupedByTable(tables: seq<TableCatalog>, i: nat)
    requires i <= |tables|
    ensures RelationshipsOf(tables) == RelationshipsOf(tables[..i]) + RelationshipsOf(tables[i..])
    decreases |tables|
  {
    if i < |tables| {
      var n := |tables|;
      var init := tables[..n - 1];
      RelationshipsGroupedByTable(init, i);
      assert init[..i] == tables[..i];
      assert init[i..] == tables[i..][..n - 1 - i];
      assert tables[i..][n - 1 - i] == tables[n - 1];
    } else {
      assert tables[..i] == tables;
      assert RelationshipsOf(tables[i..]) == [];
    }
  }

  /** Every relationship belongs to a listed table and comes from one of its foreign-key rows. */
  lemma {:induction false} RelationshipsFromForeignKeys(tables: seq<TableCatalog>, k: nat)
    requires k < |RelationshipsOf(tables)|
    ensures exists i, j :: 0 <= i < |tables| && 0 <= j < |tables[i].foreignKeys|
                           && RelationshipsOf(tables)[k] == ForeignKeyOf(tables[i].name, tables[i].foreignKeys[j])
    decreases |tables|
  {
    var n := |tables|;
    var init := tables[..n - 1];
    if k < |RelationshipsOf(init)| {
      RelationshipsFromForeignKeys(init, k);
      var i, j :| 0 <= i < |init| && 0 <= j < |init[i].foreignKeys|
                 && RelationshipsOf(init)[k] == ForeignKeyOf(init[i].name, init[i].foreignKeys[j]);
      assert init[i] == tables[i];
    } else {
      var j := k - |RelationshipsOf(init)|;
      assert RelationshipsOf(tables)[k] == ForeignKeyOf(tables[n - 1].name, tables[n - 1].foreignKeys[j]);
    }
  }

  /** The error text for a driver exception, once every credential key was read. */
  function ErrorMessage(creds: Fields, e: DbError): (msg: string)
    requires MissingKey(creds, CredentialKeys).None?
    ensures e.MySqlError? && e.errno == 2003 ==>
              msg == "MySQL server not accessible at " + Format(creds["mysql_host"]) + ":" + Format(creds["mysql_port"])
    ensures e.MySqlError? && e.errno == 1049 ==>
              msg == "Database '" + Format(creds["mysql_database"]) + "' does not exist"
    ensures e.MySqlError? && e.errno == 1045 ==> msg == "MySQL authentication failed - check username and password"
    ensures e.MySqlError? && e.errno !in {2003, 1045, 1049} ==> msg == "MySQL connection error: " + e.text
    ensures !e.MySqlError? ==> msg == "Unexpected error during analysis: " + e.text
  {
    assert "mysql_host" in CredentialKeys && "mysql_port" in CredentialKeys && "mysql_database" in CredentialKeys;
    match e
    case MySqlError(errno, text) =>
      if errno == 2003 then
        "MySQL server not accessible at " + Format(creds["mysql_host"]) + ":" + Format(creds["mysql_port"])
      else if errno == 1045 then "MySQL authentication failed - check username and password"
      else if errno == 1049 then "Database '" + Format(creds["mysql_database"]) + "' does not exist"
      else "MySQL connection error: " + text
    case _ => "Unexpected error during analysis: " + e.text
  }

  /** What `Analyzer(creds).analyze()` returns, given what the cursor yields. */
  function AnalysisOf(creds: Fields, run: Result<seq<TableCatalog>, DbError>): (a: Analysis)
    // an error result carries no tables and no relationships; a success carries no error
    ensures a.error.Some? <==> MissingKey(creds, CredentialKeys).Some? || run.Failure?
    ensures a.error.Some? ==> a.tables == [] && a.relationships == []
    // the error text: a missing key's KeyError, read before connecting, else the driver's error
    ensures MissingKey(creds, CredentialKeys).Some? ==>
              a.error == Some("Unexpected error during analysis: " + KeyErrorText(MissingKey(creds, CredentialKeys).value))
    ensures MissingKey(creds, CredentialKeys).None? && run.Failure? ==> a.error == Some(ErrorMessage(creds, run.error))
    // one entry per listed table, in order, with one column record per DESCRIBE row
    ensures a.error.None? ==> |a.tables| == |run.value|
    ensures a.error.None? ==> forall i :: 0 <= i < |a.tables| ==>
              a.tables[i].name == run.value[i].name && a.tables[i].columns == ColumnsOf(run.value[i].describe)
              && a.tables[i].primaryKeys == PrimaryKeys(run.value[i].describe)
    ensures a.error.None? ==> a.relationships == RelationshipsOf(run.value)
  {
    match MissingKey(creds, CredentialKeys)
    case Some(k) => Analysis([], [], Some("Unexpected error during analysis: " + KeyErrorText(k)))
    case None =>
      match run
      case Failure(e) => Analysis([], [], Some(ErrorMessage(creds, e)))
      case Success(tables) =>
        Analysis(seq(|tables|, i requires 0 <= i < |tables| => TableInfoOf(tables[i])), RelationshipsOf(tables), None)
  }

  /** One pass of the DESCRIBE loop: the column records and primary keys of a table. */
  method DescribeTable(t: TableCatalog) returns (info: TableInfo)
    ensures info == TableInfoOf(t)
  {
    var columns := t.describe;
    var colInfo: seq<ColumnInfo> := [];
    var primaryKeys: seq<string> := [];
    for c := 0 to |columns|
      invariant |colInfo| == c
      invariant forall i :: 0 <= i < c ==> colInfo[i] == ColumnOf(columns[i])
      invariant primaryKeys == PrimaryKeys(columns[..c])
    {
      var row := columns[c];
      colInfo := colInfo + [ColumnInfo(row.field, row.colType, row.nullText == "YES", row.key == "PRI")];
      if row.key == "PRI" {
        primaryKeys := primaryKeys + [row.field];
      }
      assert columns[..c + 1][..c] == columns[..c];
    }
    assert columns[..|columns|] == columns;
    info := TableInfo(t.name, colInfo, primaryKeys);
  }

  /** One pass of the foreign-key loop: append the relationships of one table. */
  method AppendForeignKeys(relationships: seq<Relationship>, table: string, rows: seq<ForeignKeyRow>)
    returns (r: seq<Relationship>)
    ensures r == relationships + ForeignKeysOf(table, rows)
  {
    r := relationships;
    for k := 0 to |rows|
      invariant r == relationships + ForeignKeysOf(table, rows[..k])
    {
      var row := rows[k];
      r := r + [Relationship(table, row.column, row.refTable, row.refColumn)];
      assert ForeignKeysOf(table, rows[..k + 1]) == ForeignKeysOf(table, rows[..k]) + [ForeignKeyOf(table, row)];
    }
    assert rows[..|rows|] == rows;
  }

  /** `analyze`: the loops that build `table_info` and `relationships`. */
  method Analyze(creds: Fields, run: Result<seq<TableCatalog>, DbError>) returns (a: Analysis)
    ensures a == AnalysisOf(creds, run)
  {
    var missing := MissingKey(creds, CredentialKeys);
    if missing.Some? {
      return Analysis([], [], Some("Unexpected error during analysis: " + KeyErrorText(missing.value)));
    }
    if run.Failure? {
      return Analysis([], [], Some(ErrorMessage(creds, run.error)));
    }
    var tables := run.value;
    var tableInfo: seq<TableInfo> := [];
    for t := 0 to |tables|
      invariant |tableInfo| == t
      invariant forall i :: 0 <= i < t ==> tableInfo[i] == TableInfoOf(tables[i])
    {
      var info := DescribeTable(tables[t]);
      tableInfo := tableInfo + [info];
    }
    var relationships: seq<Relationship> := [];
    for t := 0 to |tables|
      invariant relationships == RelationshipsOf(tables[..t])
    {
      relationships := AppendForeignKeys(relationships, tables[t].name, tables[t].foreignKeys);
      assert tables[..t + 1][..t] == tables[..t];
    }
    assert tables[..|tables|] == tables;
    a := Analysis(tableInfo, relationships, None);
  }
}
