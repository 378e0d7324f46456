/** The data migration (server/app/services/migrator.py). The MySQL cursor's
    results are inputs (the tables with their DESCRIBE rows and data rows),
    the writes to the target are recorded as statements or collection
    operations, and the exception the drivers may raise is an input too. */
module Migrator {
  import opened Wrappers
  import opened Text
  import opened Values
  import opened Schema

  // ---------------------------------------------------------------- cells

  /** A value fetched from a MySQL row, as the driver hands it over. */
  datatype Cell =
    | CNull
    | CInt(i: int)
    | CText(s: string)
    | CDecimal(units: int, scale: nat)      // the decimal units * 10^-scale
    | CDate(year: nat, month: nat, day: nat)
    | CDateTime(year: nat, month: nat, day: nat, hour: nat, minute: nat, second: nat)
    | COther(kind: string, repr: string)    // any other Python value: float, bytes, timedelta, set

  /** A value stored in a MongoDB document; `MOther` is a value handed on unconverted. */
  datatype MongoValue = MNull | MInt(i: int) | MText(s: string) | MDouble(x: real) | MOther(kind: string, repr: string)

  /** Ten to the power `n`; positive, so a decimal's units can be divided by it. */
  function Pow10(n: nat): (p: nat)
    ensures p >= 1
  {
    if n == 0 then 1 else 10 * Pow10(n - 1)
  }

  /** In decimal, ten to the power `n` is a one followed by `n` zeros. */
  lemma {:induction false} Pow10Decimal(n: nat)
    ensures NatToString(Pow10(n)) == "1" + Repeat('0', n)
  {
    if n > 0 {
      Pow10Decimal(n - 1);
      var q := Pow10(n - 1);
      var p := 10 * q;
      assert p >= 10 && p / 10 == q && p % 10 == 0;
      assert NatToString(p) == NatToString(q) + [Digit(0)];
      assert Repeat('0', n - 1) + ['0'] == Repeat('0', n);
      assert ("1" + Repeat('0', n - 1)) + ['0'] == "1" + Repeat('0', n);
    }
  }

  lemma {:induction false} NatToStringShort(n: nat, k: nat)
    requires 0 < k && n < Pow10(k)
    ensures |NatToString(n)| <= k
    decreases k
  {
    if n >= 10 {
      NatToStringShort(n / 10, k - 1);
    }
  }

  /** A natural number in decimal, zero-filled to `width`: digits only, spelling
      `n`, exactly `width` of them when it fits. */
  function Padded(n: nat, width: nat): (r: string)
    ensures AllDigits(r) && DigitsValue(r) == n
    ensures 0 < width && n < Pow10(width) ==> |r| == width
    ensures |r| >= width
  {
    var s := NatToString(n);
    if |s| < width then (LeadingZeros(width - |s|, s); Repeat('0', width - |s|) + s)
    else if 0 < width && n < Pow10(width) then (NatToStringShort(n, width); s)
    else s
  }

  /** `a`, the separator `sep`, then `b`. */
  function Separated(a: string, sep: char, b: string): (r: string)
    ensures |r| == |a| + 1 + |b| && r[..|a|] == a && r[|a|] == sep && r[|a| + 1..] == b
  {
    a + [sep] + b
  }

  /** `date.isoformat()`: YYYY-MM-DD. */
  function IsoDate(year: nat, month: nat, day: nat): (r: string)
    ensures |r| >= 10
    ensures year < 10000 && month < 100 && day < 100 ==>
              |r| == 10 && r[4] == '-' && r[7] == '-'
              && r[..4] == Padded(year, 4) && r[5..7] == Padded(month, 2) && r[8..] == Padded(day, 2)
  {
    assert Pow10(2) == 100 && Pow10(4) == 10000;
    var y := Padded(year, 4);
    var ym := Separated(y, '-', Padded(month, 2));
    var r := Separated(ym, '-', Padded(day, 2));
    assert r[..|y|] == r[..|ym|][..|y|] && r[|y|] == r[..|ym|][|y|] && r[|y| + 1..|ym|] == r[..|ym|][|y| + 1..];
    r
  }

  /** The time part of `datetime.isoformat()`: HH:MM:SS. */
  function IsoTime(hour: nat, minute: nat, second: nat): (r: string)
    ensures |r| >= 8
    ensures hour < 100 && minute < 100 && second < 100 ==>
              |r| == 8 && r[2] == ':' && r[5] == ':'
              && r[..2] == Padded(hour, 2) && r[3..5] == Padded(minute, 2) && r[6..] == Padded(second, 2)
  {
    assert Pow10(2) == 100;
    var h := Padded(hour, 2);
    var hm := Separated(h, ':', Padded(minute, 2));
    var r := Separated(hm, ':', Padded(second, 2));
    assert r[..|h|] == r[..|hm|][..|h|] && r[|h|] == r[..|hm|][|h|] && r[|h| + 1..|hm|] == r[..|hm|][|h| + 1..];
    r
  }

  /** `datetime.isoformat()` for a value without microseconds: YYYY-MM-DDTHH:MM:SS. */
  function IsoDateTime(year: nat, month: nat, day: nat, hour: nat, minute: nat, second: nat): (r: string)
    ensures |r| >= 19
    ensures year < 10000 && month < 100 && day < 100 ==>
              r[..10] == IsoDate(year, month, day) && r[10] == 'T' && r[11..] == IsoTime(hour, minute, second)
    ensures year < 10000 && month < 100 && day < 100 && hour < 24 && minute < 60 && second < 60 ==>
              |r| == 19 && r[13] == ':' && r[16] == ':'
  {
    var date := IsoDate(year, month, day);
    var time := IsoTime(hour, minute, second);
    TimeAfterDate(date, time);
    Separated(date, 'T', time)
  }

  /** Where the time's colons land once it follows a date and a separator. */
  lemma TimeAfterDate(date: string, time: string)
    requires |time| >= 8
    ensures Separated(date, 'T', time)[|date| + 3] == time[2]
    ensures Separated(date, 'T', time)[|date| + 6] == time[5]
  {
  }

  /** `convert_for_mongo`: decimals become doubles, dates their ISO text, the rest is kept. */
  function ConvertForMongo(c: Cell): (v: MongoValue)
    ensures v.MDouble? <==> c.CDecimal?
    ensures c.CDecimal? ==> v.x == c.units as real / Pow10(c.scale) as real
    ensures c.CDate? ==> v == MText(IsoDate(c.year, c.month, c.day))
    ensures c.CDateTime? ==> v == MText(IsoDateTime(c.year, c.month, c.day, c.hour, c.minute, c.second))
    ensures c.CDate? && c.year < 10000 && c.month < 100 && c.day < 100 ==> v.MText? && |v.s| == 10
    ensures c.CDateTime? && c.year < 10000 && c.month < 100 && c.day < 100 ==>
              v.MText? && |v.s| >= 10 && v.s[..10] == IsoDate(c.year, c.month, c.day)
    ensures c.CNull? ==> v == MNull
    ensures c.CInt? ==> v == MInt(c.i)
    ensures c.CText? ==> v == MText(c.s)
    ensures c.COther? ==> v == MOther(c.kind, c.repr)
  {
    match c
    case CNull => MNull
    case CInt(i) => MInt(i)
    case CText(s) => MText(s)
    case CDecimal(units, scale) => MDouble(units as real / Pow10(scale) as real)
    case CDate(y, m, d) => MText(IsoDate(y, m, d))
    case CDateTime(y, m, d, h, mi, s) => MText(IsoDateTime(y, m, d, h, mi, s))
    case COther(kind, repr) => MOther(kind, repr)
  }

  // ---------------------------------------------------- PostgreSQL pieces

  /** The PostgreSQL type for a MySQL column type: the first of the substring tests that matches. */
  function PgType(typ: string): (r: string)
    ensures r in {"INTEGER", "TEXT", "TIMESTAMP", "NUMERIC"}
    ensures r == "INTEGER" <==> Contains(typ, "int")
    ensures r == "TIMESTAMP" <==>
              !Contains(typ, "int") && !Contains(typ, "char") && !Contains(typ, "text")
              && (Contains(typ, "date") || Contains(typ, "time"))
    ensures r == "NUMERIC" <==>
              !Contains(typ, "int") && !Contains(typ, "char") && !Contains(typ, "text")
              && !Contains(typ, "date") && !Contains(typ, "time")
              && (Contains(typ, "float") || Contains(typ, "double") || Contains(typ, "decimal"))
  {
    if Contains(typ, "int") then "INTEGER"
    else if Contains(typ, "char") || Contains(typ, "text") then "TEXT"
    else if Contains(typ, "date") || Contains(typ, "time") then "TIMESTAMP"
    else if Contains(typ, "float") || Contains(typ, "double") || Contains(typ, "decimal") then "NUMERIC"
    else "TEXT"
  }

  /** One entry of `col_defs`: the quoted column name and its PostgreSQL type. */
  function ColumnDef(row: DescribeRow): string {
    "\"" + row.field + "\" " + PgType(row.colType)
  }

  /** `','.join(['%s'] * n)`. */
  function Placeholders(n: nat): string {
    Join(Repeat("%s", n), ",")
  }

  /** The number of occurrences of `c` in `s`. */
  function Occurrences(s: string, c: char): nat
    decreases |s|
  {
    if |s| == 0 then 0 else (if s[0] == c then 1 else 0) + Occurrences(s[1..], c)
  }

  lemma {:induction false} OccurrencesAppend(s: string, t: string, c: char)
    ensures Occurrences(s + t, c) == Occurrences(s, c) + Occurrences(t, c)
    decreases |s|
  {
    if |s| > 0 {
      OccurrencesAppend(s[1..], t, c);
      assert (s + t)[1..] == s[1..] + t;
    } else {
      assert s + t == t;
    }
  }

  lemma PlaceholdersStep(n: nat)
    requires n >= 2
    ensures Placeholders(n) == "%s," + Placeholders(n - 1)
  {
    var parts := Repeat("%s", n);
    assert parts[1..] == Repeat("%s", n - 1);
    assert Join(parts, ",") == parts[0] + "," + Join(parts[1..], ",");
  }

  /** The placeholder string holds one `%s` per value of the row: n markers,
      n - 1 commas and nothing else. */
  lemma {:induction false} PlaceholdersMatchRow(n: nat)
    ensures Occurrences(Placeholders(n), '%') == n
    ensures Occurrences(Placeholders(n), ',') == if n == 0 then 0 else n - 1
    ensures |Placeholders(n)| == if n == 0 then 0 else 3 * n - 1
    decreases n
  {
    if n >= 2 {
      PlaceholdersMatchRow(n - 1);
      PlaceholdersStep(n);
      OccurrencesAppend("%s,", Placeholders(n - 1), '%');
      OccurrencesAppend("%s,", Placeholders(n - 1), ',');
      assert Occurrences("%s,", '%') == 1 && Occurrences("%s,", ',') == 1;
    } else if n == 1 {
      assert Placeholders(1) == "%s";
      assert Occurrences("%s", '%') == 1 && Occurrences("%s", ',') == 0;
    }
  }

  /** A statement executed on the PostgreSQL cursor, with its parameters. */
  datatype Statement = Statement(sql: string, params: seq<Cell>)

  /** The table's rows as `DataTable`: name, DESCRIBE rows and data rows (SELECT of all columns). */
  datatype TableData = TableData(name: string, describe: seq<DescribeRow>, rows: seq<seq<Cell>>)

  function ColumnNames(describe: seq<DescribeRow>): (names: seq<string>)
    ensures |names| == |describe| && forall i :: 0 <= i < |describe| ==> names[i] == describe[i].field
  {
    seq(|describe|, i requires 0 <= i < |describe| => describe[i].field)
  }

  function ColumnDefs(describe: seq<DescribeRow>): (defs: seq<string>)
    ensures |defs| == |describe| && forall i :: 0 <= i < |describe| ==> defs[i] == ColumnDef(describe[i])
  {
    seq(|describe|, i requires 0 <= i < |describe| => ColumnDef(describe[i]))
  }

  function DropStatement(table: string): Statement {
    Statement("DROP TABLE IF EXISTS \"" + table + "\" CASCADE", [])
  }

  function CreateStatement(table: string, colDefs: seq<string>): Statement {
    Statement("CREATE TABLE \"" + table + "\" (" + Join(colDefs, ", ") + ")", [])
  }

  function InsertStatement(table: string, colNames: string, row: seq<Cell>): Statement {
    Statement("INSERT INTO \"" + table + "\" (" + colNames + ") VALUES (" + Placeholders(|row|) + ")", row)
  }

  function Inserts(table: string, colNames: string, rows: seq<seq<Cell>>): (r: seq<Statement>)
    ensures |r| == |rows| && forall k :: 0 <= k < |rows| ==> r[k] == InsertStatement(table, colNames, rows[k])
  {
    seq(|rows|, k requires 0 <= k < |rows| => InsertStatement(table, colNames, rows[k]))
  }

  /** What one table writes to PostgreSQL: DROP, CREATE, then one INSERT per row
      whose parameters are that row. */
  function TableStatements(t: TableData): (r: seq<Statement>)
    ensures |r| == 2 + |t.rows|
    ensures r[0] == DropStatement(t.name) && r[1] == CreateStatement(t.name, ColumnDefs(t.describe))
    ensures r[2..] == Inserts(t.name, Join(ColumnNames(t.describe), ", "), t.rows)
    ensures forall k :: 0 <= k < |t.rows| ==> r[k + 2].params == t.rows[k]
  {
    [DropStatement(t.name), CreateStatement(t.name, ColumnDefs(t.describe))]
    + Inserts(t.name, Join(ColumnNames(t.describe), ", "), t.rows)
  }

  /** Every statement the PostgreSQL migration executes, table after table. */
  function PostgresPlan(tables: seq<TableData>): seq<Statement>
    decreases |tables|
  {
    if |tables| == 0 then [] else PostgresPlan(tables[..|tables| - 1]) + TableStatements(tables[|tables| - 1])
  }

  // ------------------------------------------------------- MongoDB pieces

  /** `table.replace('$', '_')`. */
  function CollectionName(table: string): (r: string)
    ensures |r| == |table| && '$' !in r
    ensures forall i :: 0 <= i < |table| && table[i] != '$' ==> r[i] == table[i]
    ensures forall i :: 0 <= i < |table| && table[i] == '$' ==> r[i] == '_'
    ensures '$' !in table ==> r == table
  {
    ReplaceChar(table, '$', '_')
  }

  type Document = map<string, MongoValue>

  /** The values of a row, each passed through `convert_for_mongo`. */
  function Converted(row: seq<Cell>): (vals: seq<MongoValue>)
    ensures |vals| == |row| && forall i :: 0 <= i < |row| ==> vals[i] == ConvertForMongo(row[i])
  {
    seq(|row|, i requires 0 <= i < |row| => ConvertForMongo(row[i]))
  }

  /** A dict comprehension over `zip(cols, vals)` for sequences of equal
      length: its keys are the column names. */
  function ZipDocument(cols: seq<string>, vals: seq<MongoValue>): (d: Document)
    requires |cols| == |vals|
    ensures forall k :: k in d <==> k in cols
    decreases |cols|
  {
    if |cols| == 0 then map[]
    else
      var n := |cols| - 1;
      assert cols == cols[..n] + [cols[n]];
      ZipDocument(cols[..n], vals[..n])[cols[n] := vals[n]]
  }

  /** A column name's value in the document is the value at its last
      occurrence among the columns. */
  lemma {:induction false} ZipDocumentLastWins(cols: seq<string>, vals: seq<MongoValue>, i: nat)
    requires |cols| == |vals| && i < |cols|
    requires forall j :: i < j < |cols| ==> cols[j] != cols[i]
    ensures ZipDocument(cols, vals)[cols[i]] == vals[i]
    decreases |cols|
  {
    var n := |cols| - 1;
    if i < n {
      ZipDocumentLastWins(cols[..n], vals[..n], i);
      assert cols[..n][i] == cols[i] && vals[..n][i] == vals[i];
    }
  }

  /** `{col: convert_for_mongo(val) for col, val in zip(cols, row)}`: `zip`
      stops at the shorter of the two. */
  function DocumentOf(cols: seq<string>, row: seq<Cell>): Document {
    var m := if |cols| < |row| then |cols| else |row|;
    ZipDocument(cols[..m], Converted(row[..m]))
  }

  /** A row as long as the column list gives a document whose keys are the
      column names, each holding the converted value of its (last) column. */
  lemma DocumentMatchesRow(cols: seq<string>, row: seq<Cell>, i: nat)
    requires |row| == |cols| && i < |cols|
    requires forall j :: i < j < |cols| ==> cols[j] != cols[i]
    ensures forall k :: k in DocumentOf(cols, row) <==> k in cols
    ensures DocumentOf(cols, row)[cols[i]] == ConvertForMongo(row[i])
  {
    assert cols[..|cols|] == cols && row[..|row|] == row;
    ZipDocumentLastWins(cols, Converted(row), i);
  }

  function Documents(cols: seq<string>, rows: seq<seq<Cell>>): (docs: seq<Document>)
    ensures |docs| == |rows| && forall k :: 0 <= k < |rows| ==> docs[k] == DocumentOf(cols, rows[k])
  {
    seq(|rows|, k requires 0 <= k < |rows| => DocumentOf(cols, rows[k]))
  }

  /** An operation on a MongoDB collection. */
  datatype MongoOp = Drop(collection: string) | InsertMany(collection: string, docs: seq<Document>)

  /** What one table writes to MongoDB: nothing when it has no rows, otherwise
      the collection is dropped and refilled with one document per row. */
  function TableOps(t: TableData): (ops: seq<MongoOp>)
    ensures |t.rows| == 0 ==> ops == []
    ensures |t.rows| > 0 ==> |ops| == 2 && ops[0] == Drop(CollectionName(t.name))
                             && ops[1].InsertMany? && ops[1].collection == CollectionName(t.name)
                             && ops[1].docs == Documents(ColumnNames(t.describe), t.rows)
  {
    if |t.rows| == 0 then []
    else
      var safe := CollectionName(t.name);
      [Drop(safe), InsertMany(safe, Documents(ColumnNames(t.describe), t.rows))]
  }

  /** Every collection operation the MongoDB migration performs, table after table. */
  function MongoPlan(tables: seq<TableData>): seq<MongoOp>
    decreases |tables|
  {
    if |tables| == 0 then [] else MongoPlan(tables[..|tables| - 1]) + TableOps(tables[|tables| - 1])
  }

  /** Table `t` has rows and its collection is `c`. */
  predicate FillsCollection(t: TableData, c: string) {
    |t.rows| > 0 && c == CollectionName(t.name)
  }

  lemma DropInTableOps(t: TableData, c: string)
    ensures Drop(c) in TableOps(t) <==> FillsCollection(t, c)
  {
    if |t.rows| > 0 {
      assert TableOps(t)[0] == Drop(CollectionName(t.name));
    }
  }

  /** A collection is dropped exactly when some table with at least one row is named for it. */
  lemma {:induction false} MongoPlanDropsTablesWithRows(tables: seq<TableData>, c: string)
    ensures Drop(c) in MongoPlan(tables) <==> exists i :: 0 <= i < |tables| && FillsCollection(tables[i], c)
    decreases |tables|
  {
    if |tables| > 0 {
      var n := |tables| - 1;
      var init := tables[..n];
      MongoPlanDropsTablesWithRows(init, c);
      DropInTableOps(tables[n], c);
      assert MongoPlan(tables) == MongoPlan(init) + TableOps(tables[n]);
      if exists i :: 0 <= i < n && FillsCollection(init[i], c) {
        var i :| 0 <= i < n && FillsCollection(init[i], c);
        assert FillsCollection(tables[i], c);
      }
      if exists i :: 0 <= i < |tables| && FillsCollection(tables[i], c) {
        var i :| 0 <= i < |tables| && FillsCollection(tables[i], c);
        if i < n {
          assert FillsCollection(init[i], c);
        }
      }
    }
  }

  /** No operation names a collection containing `$`. */
  lemma {:induction false} MongoPlanCollectionsAreSafe(tables: seq<TableData>)
    ensures forall op :: op in MongoPlan(tables) ==> '$' !in op.collection
    decreases |tables|
  {
    if |tables| > 0 {
      var n := |tables| - 1;
      MongoPlanCollectionsAreSafe(tables[..n]);
      assert MongoPlan(tables) == MongoPlan(tables[..n]) + TableOps(tables[n]);
    }
  }

  // ------------------------------------------------------------- failures

  /** The keys read from the MySQL credentials, and from the target's. */
  const MySqlKeys: seq<string> := ["host", "port", "database", "user", "password"]
  const PostgresKeys: seq<string> := ["host", "port", "database", "user", "password"]
  const MongoKeys: seq<string> := ["uri", "database"]

  /** Where a migration stops. `MySqlConnectFailed` is the MySQL connection refusing;
      `ClientFailed(e)` is the target's client constructor raising (`psycopg2.connect`,
      `pymongo.MongoClient(uri)`, e.g. on a malformed URI); `Raised(after, e)` is any later
      exception, raised once `after` tables were written (a count at or above the number
      of tables means after the last one). */
  datatype Fault =
    | MySqlConnectFailed(errno: int, text: string)
    | ClientFailed(error: DbError)
    | Raised(after: nat, error: DbError)

  /** The result dict: both keys are always present. */
  datatype Report = Report(status: string, details: string)

  function ErrorReport(details: string): Report { Report("error", details) }

  /** The catch-all handler's text; also the text of a missing credential key. */
  function UnexpectedError(target: string, text: string): string {
    "Unexpected error during " + target + " migration: " + text
  }

  /** The handler for `mysql.connector.Error`, shared by both migrations. */
  function MySqlMessage(mysql: Fields, errno: int, text: string): (msg: string)
    requires "host" in mysql && "port" in mysql
    ensures errno == 2003 ==> msg == "MySQL server not accessible at " + Format(mysql["host"]) + ":" + Format(mysql["port"])
    ensures errno == 1045 ==> msg == "MySQL authentication failed - check username and password"
    ensures errno != 2003 && errno != 1045 ==> msg == "MySQL error during migration: " + text
  {
    if errno == 2003 then "MySQL server not accessible at " + Format(mysql["host"]) + ":" + Format(mysql["port"])
    else if errno == 1045 then "MySQL authentication failed - check username and password"
    else "MySQL error during migration: " + text
  }

  /** The handler for `psycopg2.Error`: the lower-cased text is tested for
      "connection", then "authentication", then "database". */
  function PostgresMessage(pg: Fields, text: string): (msg: string)
    requires "database" in pg
    ensures Contains(ToLower(text), "connection") ==>
              msg == "PostgreSQL connection failed - check host, port, and credentials"
    ensures !Contains(ToLower(text), "connection") && Contains(ToLower(text), "authentication") ==>
              msg == "PostgreSQL authentication failed - check username and password"
    ensures (!Contains(ToLower(text), "connection") && !Contains(ToLower(text), "authentication")
             && Contains(ToLower(text), "database")) ==>
              msg == "PostgreSQL database '" + Format(pg["database"]) + "' does not exist or access denied"
    ensures (!Contains(ToLower(text), "connection") && !Contains(ToLower(text), "authentication")
             && !Contains(ToLower(text), "database")) ==> msg == "PostgreSQL error: " + text
  {
    var lower := ToLower(text);
    if Contains(lower, "connection") then "PostgreSQL connection failed - check host, port, and credentials"
    else if Contains(lower, "authentication") then "PostgreSQL authentication failed - check username and password"
    else if Contains(lower, "database") then
      "PostgreSQL database '" + Format(pg["database"]) + "' does not exist or access denied"
    else "PostgreSQL error: " + text
  }

  /** The `except` clauses of `migrate_to_postgresql`: psycopg2 errors, then MySQL errors, then any exception. */
  function PostgresErrorMessage(mysql: Fields, pg: Fields, e: DbError): (msg: string)
    requires "host" in mysql && "port" in mysql && "database" in pg
    ensures e.PostgresError? ==> msg == PostgresMessage(pg, e.text)
    ensures e.MySqlError? ==> msg == MySqlMessage(mysql, e.errno, e.text)
    ensures !e.PostgresError? && !e.MySqlError? ==> msg == UnexpectedError("PostgreSQL", e.text)
  {
    match e
    case PostgresError(text) => PostgresMessage(pg, text)
    case MySqlError(errno, text) => MySqlMessage(mysql, errno, text)
    case _ => UnexpectedError("PostgreSQL", e.text)
  }

  /** pymongo's class hierarchy: ServerSelectionTimeoutError derives from
      AutoReconnect, which derives from ConnectionFailure. */
  predicate IsConnectionFailure(e: DbError) {
    e.MongoConnectionFailure? || e.MongoServerSelectionTimeout?
  }

  /** The `except` clauses of `migrate_to_mongodb`. */
  datatype MongoClause = ConnectionClause | TimeoutClause | OperationClause | MySqlClause | ExceptionClause

  /** The clause that catches `e`, trying the clauses in the order written:
      the ConnectionFailure clause comes first and catches every subclass. */
  function CatchingClauseAsWritten(e: DbError): (c: MongoClause)
    ensures IsConnectionFailure(e) ==> c == ConnectionClause
  {
    if IsConnectionFailure(e) then ConnectionClause
    else if e.MongoServerSelectionTimeout? then TimeoutClause
    else if e.MongoOperationFailure? then OperationClause
    else if e.MySqlError? then MySqlClause
    else ExceptionClause
  }

  /** As written, no exception reaches the timeout clause: a server-selection
      timeout is reported as a connection failure. */
  lemma {:induction false} TimeoutClauseUnreachable(e: DbError)
    ensures CatchingClauseAsWritten(e) != TimeoutClause
    ensures e.MongoServerSelectionTimeout? ==> CatchingClauseAsWritten(e) == ConnectionClause
  {
    if e.MongoServerSelectionTimeout? {
      assert IsConnectionFailure(e);
    }
  }

  /** The clauses with the timeout clause ahead of its base class: every clause is reachable,
      each by exactly its own kind of exception. */
  function CatchingClause(e: DbError): (c: MongoClause)
    ensures c == TimeoutClause <==> e.MongoServerSelectionTimeout?
    ensures c == ConnectionClause <==> e.MongoConnectionFailure?
    ensures c == OperationClause <==> e.MongoOperationFailure?
    ensures c == MySqlClause <==> e.MySqlError?
    ensures c == ExceptionClause <==> e.PostgresError? || e.OtherError?
  {
    if e.MongoServerSelectionTimeout? then TimeoutClause
    else if IsConnectionFailure(e) then ConnectionClause
    else if e.MongoOperationFailure? then OperationClause
    else if e.MySqlError? then MySqlClause
    else ExceptionClause
  }

  /** The two orders differ only on server-selection timeouts. */
  lemma {:induction false} ClauseOrderDiffersOnlyOnTimeouts(e: DbError)
    ensures CatchingClauseAsWritten(e) != CatchingClause(e) <==> e.MongoServerSelectionTimeout?
  {
    if e.MongoServerSelectionTimeout? {
      TimeoutClauseUnreachable(e);
    }
  }

  /** The message the Mongo migration reports for `e`, by the clause that catches it. */
  function MongoErrorMessage(mysql: Fields, e: DbError): (msg: string)
    requires "host" in mysql && "port" in mysql
    ensures CatchingClause(e) == TimeoutClause ==> msg == "MongoDB server not accessible - check host and port"
    ensures CatchingClause(e) == ConnectionClause ==> msg == "MongoDB connection failed - check URI and network connectivity"
    ensures CatchingClause(e) == OperationClause ==> msg == "MongoDB operation failed: " + e.text
    ensures CatchingClause(e) == MySqlClause ==> msg == MySqlMessage(mysql, e.errno, e.text)
    ensures CatchingClause(e) == ExceptionClause ==> msg == UnexpectedError("MongoDB", e.text)
  {
    match CatchingClause(e)
    case ConnectionClause => "MongoDB connection failed - check URI and network connectivity"
    case TimeoutClause => "MongoDB server not accessible - check host and port"
    case OperationClause => "MongoDB operation failed: " + e.text
    case MySqlClause => MySqlMessage(mysql, e.errno, e.text)
    case ExceptionClause => UnexpectedError("MongoDB", e.text)
  }

  // ------------------------------------------------------------ migrations

  /** What a migration leaves in the target. */
  datatype Writes =
    | NoWrites
    | PostgresWrites(committed: seq<Statement>)   // the statements the commit made durable
    | MongoWrites(ops: seq<MongoOp>)              // the collection operations performed

  datatype Outcome = Outcome(report: Report, writes: Writes)

  function SuccessReport(tableCount: nat, target: string): Report {
    Report("success", "Migrated " + NatToString(tableCount) + " tables to " + target + ".")
  }

  /** The number of tables written before the exception of `fault`. */
  function WrittenBefore(fault: Fault, tables: seq<TableData>): (n: nat)
    requires fault.Raised?
    ensures n <= |tables|
  {
    if fault.after < |tables| then fault.after else |tables|
  }

  /** `migrate_to_postgresql`. Nothing is committed unless every table was
      written: the commit is the last step before the success report. */
  function PostgresMigration(mysql: Fields, pg: Fields, tables: seq<TableData>, fault: Option<Fault>): (o: Outcome)
    ensures o.writes.PostgresWrites?
    ensures o.report.status == "success" || o.report.status == "error"
    ensures o.report.status == "success" <==>
              MissingKey(mysql, MySqlKeys).None? && MissingKey(pg, PostgresKeys).None? && fault.None?
    ensures o.report.status == "success" ==>
              o.report == SuccessReport(|tables|, "PostgreSQL") && o.writes.committed == PostgresPlan(tables)
    ensures o.report.status == "error" ==> o.writes.committed == []
    // the error reports, in the order the source reads keys and raises
    ensures MissingKey(mysql, MySqlKeys).Some? ==>
              o.report == ErrorReport(UnexpectedError("PostgreSQL", KeyErrorText(MissingKey(mysql, MySqlKeys).value)))
    ensures MissingKey(mysql, MySqlKeys).None? && fault.Some? && fault.value.MySqlConnectFailed? ==>
              o.report == ErrorReport(MySqlMessage(mysql, fault.value.errno, fault.value.text))
    ensures MissingKey(mysql, MySqlKeys).None? && !(fault.Some? && fault.value.MySqlConnectFailed?)
            && MissingKey(pg, PostgresKeys).Some? ==>
              o.report == ErrorReport(UnexpectedError("PostgreSQL", KeyErrorText(MissingKey(pg, PostgresKeys).value)))
    ensures MissingKey(mysql, MySqlKeys).None? && MissingKey(pg, PostgresKeys).None?
            && fault.Some? && !fault.value.MySqlConnectFailed? ==>
              "database" in pg && o.report == ErrorReport(PostgresErrorMessage(mysql, pg, fault.value.error))
  {
    match MissingKey(mysql, MySqlKeys)
    case Some(k) => Outcome(ErrorReport(UnexpectedError("PostgreSQL", KeyErrorText(k))), PostgresWrites([]))
    case None =>
      if fault.Some? && fault.value.MySqlConnectFailed? then
        Outcome(ErrorReport(MySqlMessage(mysql, fault.value.errno, fault.value.text)), PostgresWrites([]))
      else
        match MissingKey(pg, PostgresKeys)
        case Some(k) => Outcome(ErrorReport(UnexpectedError("PostgreSQL", KeyErrorText(k))), PostgresWrites([]))
        case None =>
          assert "database" in PostgresKeys;
          if fault.Some? then Outcome(ErrorReport(PostgresErrorMessage(mysql, pg, fault.value.error)), PostgresWrites([]))
          else Outcome(SuccessReport(|tables|, "PostgreSQL"), PostgresWrites(PostgresPlan(tables)))
  }

  /** The operations done before a failure are the plan of the tables written so far,
      and that is always the start of the full plan. */
  lemma {:induction false} MongoPlanPrefix(tables: seq<TableData>, k: nat)
    requires k <= |tables|
    ensures MongoPlan(tables[..k]) <= MongoPlan(tables)
    decreases |tables|
  {
    if k < |tables| {
      var n := |tables| - 1;
      MongoPlanPrefix(tables[..n], k);
      assert tables[..n][..k] == tables[..k];
      assert MongoPlan(tables) == MongoPlan(tables[..n]) + TableOps(tables[n]);
    } else {
      assert tables[..k] == tables;
    }
  }

  /** `migrate_to_mongodb`. Collection operations are not transactional: those
      done before an exception stay done. */
  function MongoMigration(mysql: Fields, mg: Fields, tables: seq<TableData>, fault: Option<Fault>): (o: Outcome)
    ensures o.writes.MongoWrites?
    ensures o.report.status == "success" || o.report.status == "error"
    ensures o.report.status == "success" <==>
              MissingKey(mysql, MySqlKeys).None? && MissingKey(mg, MongoKeys).None? && fault.None?
    ensures o.report.status == "success" ==>
              o.report == SuccessReport(|tables|, "MongoDB") && o.writes.ops == MongoPlan(tables)
    ensures o.writes.ops <= MongoPlan(tables)
    // a run that stops before the loop over the tables writes nothing
    ensures (MissingKey(mysql, MySqlKeys).Some? || MissingKey(mg, MongoKeys).Some?
             || (fault.Some? && !fault.value.Raised?)) ==> o.writes.ops == []
    ensures MissingKey(mysql, MySqlKeys).None? && MissingKey(mg, MongoKeys).None? && fault.Some? && fault.value.Raised? ==>
              o.writes.ops == MongoPlan(tables[..WrittenBefore(fault.value, tables)])
    // the error reports, in the order the source reads keys and raises: `uri` is read
    // and the client built before `database` is read
    ensures MissingKey(mysql, MySqlKeys).Some? ==>
              o.report == ErrorReport(UnexpectedError("MongoDB", KeyErrorText(MissingKey(mysql, MySqlKeys).value)))
    ensures MissingKey(mysql, MySqlKeys).None? && fault.Some? && fault.value.MySqlConnectFailed? ==>
              o.report == ErrorReport(MySqlMessage(mysql, fault.value.errno, fault.value.text))
    ensures MissingKey(mysql, MySqlKeys).None? && !(fault.Some? && fault.value.MySqlConnectFailed?) && "uri" !in mg ==>
              o.report == ErrorReport(UnexpectedError("MongoDB", KeyErrorText("uri")))
    ensures MissingKey(mysql, MySqlKeys).None? && "uri" in mg && fault.Some? && fault.value.ClientFailed? ==>
              o.report == ErrorReport(MongoErrorMessage(mysql, fault.value.error)) && o.writes.ops == []
    ensures MissingKey(mysql, MySqlKeys).None? && "uri" in mg && "database" !in mg
            && !(fault.Some? && (fault.value.MySqlConnectFailed? || fault.value.ClientFailed?)) ==>
              o.report == ErrorReport(UnexpectedError("MongoDB", KeyErrorText("database")))
    ensures MissingKey(mysql, MySqlKeys).None? && MissingKey(mg, MongoKeys).None? && fault.Some? && fault.value.Raised? ==>
              o.report == ErrorReport(MongoErrorMessage(mysql, fault.value.error))
  {
    match MissingKey(mysql, MySqlKeys)
    case Some(k) => Outcome(ErrorReport(UnexpectedError("MongoDB", KeyErrorText(k))), MongoWrites([]))
    case None =>
      if fault.Some? && fault.value.MySqlConnectFailed? then
        Outcome(ErrorReport(MySqlMessage(mysql, fault.value.errno, fault.value.text)), MongoWrites([]))
      else if "uri" !in mg then
        Outcome(ErrorReport(UnexpectedError("MongoDB", KeyErrorText("uri"))), MongoWrites([]))
      else if fault.Some? && fault.value.ClientFailed? then
        Outcome(ErrorReport(MongoErrorMessage(mysql, fault.value.error)), MongoWrites([]))
      else if "database" !in mg then
        Outcome(ErrorReport(UnexpectedError("MongoDB", KeyErrorText("database"))), MongoWrites([]))
      else
          assert MissingKey(mg, MongoKeys).None?;
          if fault.Some? then
            var n := WrittenBefore(fault.value, tables);
            MongoPlanPrefix(tables, n);
            Outcome(ErrorReport(MongoErrorMessage(mysql, fault.value.error)), MongoWrites(MongoPlan(tables[..n])))
          else Outcome(SuccessReport(|tables|, "MongoDB"), MongoWrites(MongoPlan(tables)))
  }

  /** `Migrator(...).migrate()`: dispatch on the lower-cased target name. */
  function MigrationOf(targetDb: string, mysql: Fields, target: Fields, tables: seq<TableData>, fault: Option<Fault>): (o: Outcome)
    ensures o.report.status == "success" || o.report.status == "error"
    ensures ToLower(targetDb) == "postgresql" ==> o == PostgresMigration(mysql, target, tables, fault)
    ensures ToLower(targetDb) == "mongodb" ==> o == MongoMigration(mysql, target, tables, fault)
    ensures ToLower(targetDb) != "postgresql" && ToLower(targetDb) != "mongodb" ==>
              o == Outcome(ErrorReport("Unsupported target DB: " + ToLower(targetDb)), NoWrites)
  {
    var lower := ToLower(targetDb);
    if lower == "postgresql" then PostgresMigration(mysql, target, tables, fault)
    else if lower == "mongodb" then MongoMigration(mysql, target, tables, fault)
    else Outcome(ErrorReport("Unsupported target DB: " + lower), NoWrites)
  }

  // ------------------------------------------------------------ the loops

  /** The DESCRIBE loop of the PostgreSQL migration: `col_defs` and `col_names`,
      one entry each per column, in column order. */
  method BuildColumns(describe: seq<DescribeRow>) returns (colDefs: seq<string>, colNames: seq<string>)
    ensures colDefs == ColumnDefs(describe) && colNames == ColumnNames(describe)
  {
    colDefs, colNames := [], [];
    for c := 0 to |describe|
      invariant |colDefs| == c && |colNames| == c
      invariant forall i :: 0 <= i < c ==> colDefs[i] == ColumnDef(describe[i]) && colNames[i] == describe[i].field
    {
      var row := describe[c];
      colNames := colNames + [row.field];
      colDefs := colDefs + ["\"" + row.field + "\" " + PgType(row.colType)];
    }
  }

  /** The statements for one table: DROP, CREATE, then an INSERT per row. */
  method WriteTable(executed: seq<Statement>, t: TableData) returns (r: seq<Statement>)
    ensures r == executed + TableStatements(t)
  {
    var colDefs, colNames := BuildColumns(t.describe);
    var colNamesStr := Join(colNames, ", ");
    var inserts: seq<Statement> := [];
    for k := 0 to |t.rows|
      invariant |inserts| == k
      invariant forall j :: 0 <= j < k ==> inserts[j] == InsertStatement(t.name, colNamesStr, t.rows[j])
    {
      inserts := inserts + [InsertStatement(t.name, colNamesStr, t.rows[k])];
    }
    assert inserts == Inserts(t.name, colNamesStr, t.rows);
    var table := [DropStatement(t.name), CreateStatement(t.name, colDefs)] + inserts;
    assert table == TableStatements(t);
    r := executed + table;
  }

  /** `migrate_to_postgresql` step by step. */
  method MigrateToPostgresql(mysql: Fields, pg: Fields, tables: seq<TableData>, fault: Option<Fault>) returns (o: Outcome)
    ensures o == PostgresMigration(mysql, pg, tables, fault)
  {
    var missing := MissingKey(mysql, MySqlKeys);
    if missing.Some? {
      return Outcome(ErrorReport(UnexpectedError("PostgreSQL", KeyErrorText(missing.value))), PostgresWrites([]));
    }
    if fault.Some? && fault.value.MySqlConnectFailed? {
      return Outcome(ErrorReport(MySqlMessage(mysql, fault.value.errno, fault.value.text)), PostgresWrites([]));
    }
    missing := MissingKey(pg, PostgresKeys);
    if missing.Some? {
      return Outcome(ErrorReport(UnexpectedError("PostgreSQL", KeyErrorText(missing.value))), PostgresWrites([]));
    }
    assert "database" in PostgresKeys;
    assert fault.Some? ==> PostgresMigration(mysql, pg, tables, fault)
                           == Outcome(ErrorReport(PostgresErrorMessage(mysql, pg, fault.value.error)), PostgresWrites([]));
    if fault.Some? && fault.value.ClientFailed? {
      return Outcome(ErrorReport(PostgresErrorMessage(mysql, pg, fault.value.error)), PostgresWrites([]));
    }
    var executed: seq<Statement> := [];
    for t := 0 to |tables|
      invariant executed == PostgresPlan(tables[..t])
      invariant fault.Some? ==> fault.value.Raised?
    {
      if fault.Some? && fault.value.after == t {
        break;
      }
      executed := WriteTable(executed, tables[t]);
      assert tables[..t + 1][..t] == tables[..t];
    }
    if fault.Some? {
      // the connection closes without a commit: nothing executed persists
      return Outcome(ErrorReport(PostgresErrorMessage(mysql, pg, fault.value.error)), PostgresWrites([]));
    }
    assert tables[..|tables|] == tables;
    o := Outcome(SuccessReport(|tables|, "PostgreSQL"), PostgresWrites(executed));
  }

  /** The documents of one table: one per row, keyed by the column names. */
  method BuildDocuments(colNames: seq<string>, rows: seq<seq<Cell>>) returns (docs: seq<Document>)
    ensures docs == Documents(colNames, rows)
  {
    docs := [];
    for k := 0 to |rows|
      invariant |docs| == k
      invariant forall j :: 0 <= j < k ==> docs[j] == DocumentOf(colNames, rows[j])
    {
      var doc := DocumentOf(colNames, rows[k]);
      docs := docs + [doc];
    }
  }

  /** The collection operations for one table: skipped when it has no rows. */
  method WriteCollection(ops: seq<MongoOp>, table: TableData) returns (r: seq<MongoOp>)
    ensures r == ops + TableOps(table)
  {
    var colNames := ColumnNames(table.describe);
    var docs := BuildDocuments(colNames, table.rows);
    r := ops;
    if |docs| > 0 {
      var safeTable := ReplaceChar(table.name, '$', '_');
      r := r + [Drop(safeTable), InsertMany(safeTable, docs)];
    }
  }

  /** `migrate_to_mongodb` step by step. */
  method MigrateToMongodb(mysql: Fields, mg: Fields, tables: seq<TableData>, fault: Option<Fault>) returns (o: Outcome)
    ensures o == MongoMigration(mysql, mg, tables, fault)
  {
    var missing := MissingKey(mysql, MySqlKeys);
    if missing.Some? {
      return Outcome(ErrorReport(UnexpectedError("MongoDB", KeyErrorText(missing.value))), MongoWrites([]));
    }
    if fault.Some? && fault.value.MySqlConnectFailed? {
      return Outcome(ErrorReport(MySqlMessage(mysql, fault.value.errno, fault.value.text)), MongoWrites([]));
    }
    if "uri" !in mg {
      return Outcome(ErrorReport(UnexpectedError("MongoDB", KeyErrorText("uri"))), MongoWrites([]));
    }
    if fault.Some? && fault.value.ClientFailed? {
      return Outcome(ErrorReport(MongoErrorMessage(mysql, fault.value.error)), MongoWrites([]));
    }
    if "database" !in mg {
      return Outcome(ErrorReport(UnexpectedError("MongoDB", KeyErrorText("database"))), MongoWrites([]));
    }
    assert MissingKey(mg, MongoKeys).None?;
    var ops: seq<MongoOp> := [];
    for t := 0 to |tables|
      invariant ops == MongoPlan(tables[..t])
      invariant fault.Some? ==> fault.value.Raised? && fault.value.after >= t
    {
      if fault.Some? && fault.value.Raised? && fault.value.after == t {
        // what was dropped and inserted so far stays in the target
        return Outcome(ErrorReport(MongoErrorMessage(mysql, fault.value.error)), MongoWrites(ops));
      }
      ops := WriteCollection(ops, tables[t]);
      assert tables[..t + 1][..t] == tables[..t];
    }
    assert tables[..|tables|] == tables;
    if fault.Some? {
      return Outcome(ErrorReport(MongoErrorMessage(mysql, fault.value.error)), MongoWrites(ops));
    }
    o := Outcome(SuccessReport(|tables|, "MongoDB"), MongoWrites(ops));
  }

  /** `Migrator(mysql, targetDb, target).migrate()`. */
  method Migrate(targetDb: string, mysql: Fields, target: Fields, tables: seq<TableData>, fault: Option<Fault>)
    returns (o: Outcome)
    ensures o == MigrationOf(targetDb, mysql, target, tables, fault)
  {
    var lower := ToLower(targetDb);
    if lower == "postgresql" {
      o := MigrateToPostgresql(mysql, target, tables, fault);
    } else if lower == "mongodb" {
      o := MigrateToMongodb(mysql, target, tables, fault);
    } else {
      o := Outcome(ErrorReport("Unsupported target DB: " + lower), NoWrites);
    }
  }
}
