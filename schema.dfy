/** The records the analyzer builds and the recommender reads, the rows the
    MySQL cursor returns, and the exceptions the database drivers raise. */
module Schema {
  import opened Wrappers

  /** One column of an analysed table. */
  datatype ColumnInfo = ColumnInfo(name: string, sqlType: string, nullable: bool, primaryKey: bool)

  /** One analysed table. */
  datatype TableInfo = TableInfo(name: string, columns: seq<ColumnInfo>, primaryKeys: seq<string>)

  /** One foreign key: `table.column` references `refTable.refColumn`. */
  datatype Relationship = Relationship(table: string, column: string, refTable: string, refColumn: string)

  /** The analyzer's result dictionary; `error` is present only on failure. */
  datatype Analysis = Analysis(tables: seq<TableInfo>, relationships: seq<Relationship>, error: Option<string>)

  /** A row of `DESCRIBE t`: Field, Type, Null and Key (Default and Extra are not read). */
  datatype DescribeRow = DescribeRow(field: string, colType: string, nullText: string, key: string)

  /** An exception raised while talking to a database, with its `str(e)`. */
  datatype DbError =
    | MySqlError(errno: int, text: string)      // mysql.connector.Error
    | PostgresError(text: string)               // psycopg2.Error
    | MongoConnectionFailure(text: string)      // pymongo.errors.ConnectionFailure
    | MongoServerSelectionTimeout(text: string) // pymongo.errors.ServerSelectionTimeoutError
    | MongoOperationFailure(text: string)       // pymongo.errors.OperationFailure
    | OtherError(text: string)                  // any other exception
}
