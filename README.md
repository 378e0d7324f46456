# DataFlow core in Dafny

DataFlow moves a MySQL database to PostgreSQL or MongoDB. A React client has
two pages:

- The analysis page sends MySQL credentials to `/api/analyze`. It receives
  the schema (tables, columns, primary keys, foreign keys) and a
  recommended target.
- The migration page sends source and target credentials to `/api/transfer`.
  It shows a success or error banner that hides itself after five seconds.

On the server side:

- The analyzer reads the schema through a MySQL cursor.
- The recommender chooses between PostgreSQL and MongoDB from the number of
  relationships per table and the column types.
- The migrator copies every table. For PostgreSQL it issues DROP, CREATE and
  one INSERT per row, committed at the end. For MongoDB it drops and refills
  one collection per non-empty table.
- Two deployments expose the analysis: a FastAPI router and a stand-alone
  `BaseHTTPRequestHandler`. They map the services' results to HTTP status
  codes and JSON bodies.

The model follows the code's own form:

- The pages' state cells are the fields of the classes
  `MigratePage.MigrateForm` and `AnalyzePage.AnalyzeForm`. The handlers are
  methods on those classes.
- Network settlement (`Submission.Settlement`) and timer expiry
  (`MigrateForm.TimerFires`) are events.
- The services' loops are methods. Each is proved equal to a specification
  function, and the lemmas are proved about those functions.
- The endpoint mappings are pure functions.
- Everything the databases would return is an input:
  - the tables `SHOW TABLES` lists, with their `DESCRIBE`, foreign-key and data rows;
  - the exception a driver raises (`Schema.DbError`, and for a migration
    `Migrator.Fault`, which says whether the MySQL connection, the target's
    client constructor, or a later step raised, and after how many tables).
- What a migration writes is recorded as the list of statements committed to
  PostgreSQL, or the collection operations done on MongoDB.

Files:

| file | holds |
|---|---|
| `wrappers.dfy` | `Option` and `Result` |
| `text.dfy` | prefix and substring tests, ASCII lower-casing, join, decimal rendering |
| `values.dfy` | credential values and records, JSON values, JavaScript truthiness and `String()` |
| `schema.dfy` | the analysis records, the DESCRIBE rows and the driver exceptions |
| `submission.dfy` | how a page turns a settled `fetch` into a result or an error message |
| `migrate_page.dfy` | client/src/pages/Migrate.js |
| `analyze_page.dfy` | client/src/pages/Analyze.js |
| `recommender.dfy` | server/app/services/recommender.py |
| `analyzer.dfy` | server/app/services/analyzer.py |
| `migrator.dfy` | server/app/services/migrator.py |
| `responses.dfy` | response bodies both deployments build |
| `routes.dfy` | server/app/api/routes.py |
| `api_analyze.dfy` | api/analyze.py |

Three facts about the code shape the model:

- The code has no credential validation function. Submission is gated only by
  the form's `required` attributes and by the submit button, which is
  disabled while a request is pending (client/src/pages/Migrate.js:354,
  client/src/pages/Analyze.js:176). That is why `Settle` requires `loading`.
- The code has no submission sequence numbers and no last-submission-wins
  rule. What keeps a stale banner timer from hiding a newer banner is the
  effect's cleanup. `MigrateForm.HandleSubmit` models that cleanup by
  cancelling the scheduled timer.
- An unknown `target_X` input adds a field to the target credentials instead
  of being ignored. `MigratePage.Edit` does the same.

## Model

| member | source | states |
|---|---|---|
| MigratePage.InitialForm | client/src/pages/Migrate.js:5-21 | target `postgresql`; source port 3306 and target port 5432; both hosts `localhost`; database, user and password empty in both records; both records have exactly the relational keys |
| MigratePage.DefaultsFor | client/src/pages/Migrate.js:57-65 | the selector installs the relational record `{host: localhost, port: 5432, database, user, password: empty}` exactly when the value is `postgresql`; any other value installs the document record `{uri: mongodb://localhost:27017, database: admin}` |
| MigratePage.SetField | client/src/pages/Migrate.js:70-79 | a target input writes one field and keeps the record's shape |
| MigratePage.Edit | client/src/pages/Migrate.js:39-81 | `mysql_X` writes only `mysql_credentials.X`; `target_db` replaces the target credentials wholesale with the defaults and never writes a `db` key; another `target_X` writes only `target_credentials.X`; every other name leaves the form unchanged; the shape always agrees with the selected target, and a rendered input keeps the shape's keys exact |
| MigratePage.SwitchBackRestoresRelationalDefaults | client/src/pages/Migrate.js:57-66 | switching to MongoDB and back gives exactly the relational defaults; no document field (`uri`) survives |
| MigratePage.Payload | client/src/pages/Migrate.js:92-98 | the request body has exactly the keys target_db, mysql_credentials and target_credentials; they hold the selected target, the source record and the current target record |
| MigratePage.DocumentPayloadHasOnlyDocumentKeys | client/src/pages/Migrate.js:92-98 | a document-shaped target sends exactly `uri` and `database`, and no `host` |
| MigratePage.TargetPort | client/src/pages/Migrate.js:120-124 | 27017 exactly for `mongodb`, 5432 for everything else |
| MigratePage.MigrateForm.constructor | client/src/pages/Migrate.js:5-27 | the initial form; not loading, no result, no error, no banner, no timer |
| MigratePage.MigrateForm.HandleInputChange | client/src/pages/Migrate.js:39-81 | the form becomes `Edit(form, name, value)`; no other state cell changes; the page invariant is kept |
| MigratePage.MigrateForm.HandleSubmit | client/src/pages/Migrate.js:83-98 | loading set; result and error cleared; both banners hidden; the scheduled timer cancelled; sends the payload of the unchanged form |
| MigratePage.MigrateForm.Settle | client/src/pages/Migrate.js:100-117 | loading ends; exactly one banner shows; success exactly for an ok response, which stores the parsed body; otherwise the mapped error message and a null result; a fresh 5000 ms timer is scheduled |
| MigratePage.MigrateForm.TimerFires | client/src/pages/Migrate.js:29-37 | the scheduled timer hides both banners; a cancelled timer changes nothing |
| MigratePage.StaleTimerKeepsNewBanner | client/src/pages/Migrate.js:29-37 | after two submissions, the first submission's timer firing late leaves the second banner visible |
| Submission.RejectionMessage | client/src/pages/Migrate.js:102-104 | a non-ok response fails with `String(detail)` for a truthy `detail` (its text for a non-empty string); with the page's fallback text when `detail` is absent or falsy; with the runtime's null-read message when the body is `null` |
| Submission.Displayed | client/src/pages/Migrate.js:108-114 | a message containing `JSON` becomes the fixed "API server is not available" text; any other message is shown verbatim |
| Submission.Outcome | client/src/pages/Migrate.js:100-114 | success exactly for an ok response, carrying its body; a thrown message, a string `detail` or the `String()` of any other truthy `detail` that contains `JSON` gives the unavailability text; any other thrown message or truthy `detail` is shown as its text; an absent or falsy `detail` gives the fallback text; a `null` body gives the null-read message |
| MigratePage.FallbackShownWithoutDetail | client/src/pages/Migrate.js:102-104 | a failed response without a usable `detail` shows exactly "Failed to migrate database", which the JSON test leaves untouched |
| Submission.OnlyUnavailableMentionsJson | client/src/pages/Analyze.js:55-62 | no error shown mentions JSON except the fixed unavailability text |
| AnalyzePage.FallbackShownWithoutDetail | client/src/pages/Analyze.js:50-52 | a failed response without a usable `detail` shows exactly "Failed to analyze database", which the JSON test leaves untouched |
| AnalyzePage.InitialForm | client/src/pages/Analyze.js:14-20 | exactly the five `mysql_` keys; port 3306; every other field empty |
| AnalyzePage.AnalyzeForm.constructor | client/src/pages/Analyze.js:14-23 | the initial form; not loading, no result, no error |
| AnalyzePage.AnalyzeForm.HandleInputChange | client/src/pages/Analyze.js:25-31 | sets exactly `formData[name]`; every other key unchanged |
| AnalyzePage.AnalyzeForm.HandleSubmit | client/src/pages/Analyze.js:33-46 | loading on, error and result cleared; sends the unchanged form as JSON |
| AnalyzePage.AnalyzeForm.Settle | client/src/pages/Analyze.js:48-65 | loading ends; the error is absent exactly for an ok response, which stores the body; otherwise the mapped message and a null result; with a non-null body exactly one of result and error is set |
| AnalyzePage.RecommendationColor | client/src/pages/Analyze.js:68-79 | green, blue, purple each exactly for the lower-cased `postgresql`, `mysql`, `mongodb`; gray otherwise, including undefined |
| AnalyzePage.ColorIgnoresCase | client/src/pages/Analyze.js:68-69 | the colour of a name equals the colour of its lower-cased form |
| Recommender.RatioTests | server/app/services/recommender.py:16-19 | for a positive table count, the integer tests agree with `relationships / tables > 0.3` and `> 0.1` over the reals |
| Recommender.FirstLargeColumn | server/app/services/recommender.py:41-46 | the first large-object column: it is one, none precedes it, and none exists when there is none |
| Recommender.FirstLargeObject | server/app/services/recommender.py:40-46 | the first large-object column in table-then-column order, with no such column in any earlier table |
| Recommender.Recommended | server/app/services/recommender.py:7-72 | always `postgresql` or `mongodb`; no tables gives `postgresql` with the "No tables found" explanation, whatever the relationships |
| Recommender.ScanAdvancedTypes | server/app/services/recommender.py:21-25 | the flag is set exactly when some column of some table has an advanced type |
| Recommender.Recommend | server/app/services/recommender.py:7-72 | the loops return exactly `Recommended` of the analysis |
| Recommender.HighlyRelationalGetsPostgres | server/app/services/recommender.py:19-37 | more than 0.3 relationships per table gives `postgresql`, whatever the column types |
| Recommender.LargeObjectGetsMongo | server/app/services/recommender.py:40-46 | at most 0.3 relationships per table and a large-object column gives `mongodb`, explained by the first such table and column |
| Recommender.NoLargeObjectDecidedByRatio | server/app/services/recommender.py:49-72 | without large-object columns (ARRAY and OBJECT do not count), `mongodb` exactly when there are at most 0.1 relationships per table, with the "Few relationships" explanation |
| Values.MissingKey | server/app/services/analyzer.py:19-25 | no key is reported exactly when every key read is present; the reported key is the first absent one in read order |
| Analyzer.PrimaryKeyPositions | server/app/services/analyzer.py:42-43 | the positions of exactly the PRI rows, strictly increasing |
| Analyzer.PrimaryKeysInColumnOrder | server/app/services/analyzer.py:34-43 | `primary_keys` names exactly the PRI columns, one per PRI row, in column order |
| Analyzer.ColumnsOf | server/app/services/analyzer.py:35-41 | one column record per DESCRIBE row, in order: name, type, nullable exactly for `YES`, primary key exactly for `PRI` |
| Analyzer.ForeignKeysOf | server/app/services/analyzer.py:53-59 | one relationship per foreign-key row, in order, tagged with the table |
| Analyzer.RelationshipsGroupedByTable | server/app/services/analyzer.py:50-59 | the relationships of any prefix of the tables come first, then those of the rest: grouped by table in SHOW TABLES order |
| Analyzer.RelationshipsFromForeignKeys | server/app/services/analyzer.py:50-59 | every relationship comes from a foreign-key row of a listed table |
| Analyzer.ErrorMessage | server/app/services/analyzer.py:63-73 | errno 2003 gives "not accessible at host:port"; 1045 the authentication message; 1049 "Database '…' does not exist"; other MySQL errors the generic text; any other exception "Unexpected error during analysis" |
| Analyzer.AnalysisOf | server/app/services/analyzer.py:16-73 | an error exactly when a credential key is missing or the driver raised, and then empty lists; otherwise one entry per table in order, with its column records (`ColumnsOf` of its DESCRIBE rows), its primary keys, and the relationships table by table; the error text is the missing key's KeyError text, read before connecting, or `ErrorMessage` of the driver's error |
| Analyzer.DescribeTable | server/app/services/analyzer.py:31-48 | the loop builds exactly the table's column records and primary keys |
| Analyzer.AppendForeignKeys | server/app/services/analyzer.py:52-59 | the loop appends exactly the table's relationships |
| Analyzer.Analyze | server/app/services/analyzer.py:16-73 | the method returns exactly `AnalysisOf` |
| Migrator.Pow10Decimal | server/app/services/migrator.py:11-12 | ten to the power n is written as a one followed by n zeros, so `n < Pow10(width)` means n fits in `width` digits |
| Migrator.Padded | server/app/services/migrator.py:11-12 | digits only, spelling n; exactly `width` of them when n fits, never fewer |
| Migrator.IsoDate | server/app/services/migrator.py:11-12 | YYYY-MM-DD: the zero-padded year, month and day separated by dashes at 4 and 7 |
| Migrator.IsoTime | server/app/services/migrator.py:11-12 | HH:MM:SS: the zero-padded hour, minute and second separated by colons at 2 and 5 |
| Migrator.IsoDateTime | server/app/services/migrator.py:11-12 | the ISO date, `T`, then the ISO time: nineteen characters with colons at 13 and 16 |
| Migrator.ConvertForMongo | server/app/services/migrator.py:8-13 | exactly the decimals become numbers (their exact value); dates and datetimes become their ISO text; NULL, integers, text and every other driver value are kept |
| Migrator.PgType | server/app/services/migrator.py:61-70 | the first matching test decides: `int` gives INTEGER; otherwise `char`/`text` gives TEXT; otherwise `date`/`time` gives TIMESTAMP; otherwise `float`/`double`/`decimal` gives NUMERIC; otherwise TEXT |
| Migrator.PlaceholdersMatchRow | server/app/services/migrator.py:79 | the placeholder string for n values has n `%` markers, n-1 commas and length 3n-1 |
| Migrator.ColumnNames | server/app/services/migrator.py:59-60 | one name per DESCRIBE row, in order |
| Migrator.ColumnDefs | server/app/services/migrator.py:59-71 | one `"col" TYPE` definition per DESCRIBE row, in order |
| Migrator.Inserts | server/app/services/migrator.py:78-83 | one INSERT per data row, in order |
| Migrator.TableStatements | server/app/services/migrator.py:74-83 | DROP, then CREATE with the column definitions, then exactly `Inserts` of the rows: one INSERT into the table with the joined column names and the row's placeholders, whose parameters are that row |
| Migrator.CollectionName | server/app/services/migrator.py:130 | same length; every `$` becomes `_`; every other character kept; no `$` remains |
| Migrator.Converted | server/app/services/migrator.py:127 | each value of a row passed through `convert_for_mongo` |
| Migrator.ZipDocument | server/app/services/migrator.py:127 | the document's keys are exactly the column names |
| Migrator.ZipDocumentLastWins | server/app/services/migrator.py:127 | a repeated column name holds the value of its last occurrence |
| Migrator.DocumentMatchesRow | server/app/services/migrator.py:127 | a full-length row's document has exactly the column names as keys, each holding its converted value |
| Migrator.Documents | server/app/services/migrator.py:125-128 | one document per row, in order |
| Migrator.TableOps | server/app/services/migrator.py:129-132 | a table without rows writes nothing; otherwise a drop then an insert of exactly `Documents` of the rows (one converted document per row, keyed by the column names), both on the sanitised name |
| Migrator.DropInTableOps | server/app/services/migrator.py:129-131 | a table drops a collection exactly when it has rows and is named for it |
| Migrator.MongoPlanDropsTablesWithRows | server/app/services/migrator.py:118-132 | a collection is dropped exactly when some table with at least one row is named for it |
| Migrator.MongoPlanCollectionsAreSafe | server/app/services/migrator.py:129-132 | no operation names a collection containing `$` |
| Migrator.MySqlMessage | server/app/services/migrator.py:99-105 | errno 2003 gives "not accessible at host:port", 1045 the authentication message, others the generic MySQL text |
| Migrator.PostgresMessage | server/app/services/migrator.py:90-98 | the lower-cased text is tested for "connection", then "authentication", then "database", else the generic text |
| Migrator.PostgresErrorMessage | server/app/services/migrator.py:90-107 | psycopg2 errors, then MySQL errors, then any other exception, each with its own message |
| Migrator.CatchingClauseAsWritten | server/app/services/migrator.py:137-154 | the clauses in written order: every ConnectionFailure, timeouts included, is caught by the first clause |
| Migrator.TimeoutClauseUnreachable | server/app/services/migrator.py:137-142 | as written, the server-selection-timeout clause is never reached; a timeout is reported as a connection failure |
| Migrator.CatchingClause | server/app/services/migrator.py:137-154 | with the timeout clause first, each clause catches exactly its own kind of exception |
| Migrator.ClauseOrderDiffersOnlyOnTimeouts | server/app/services/migrator.py:137-142 | the two orders disagree exactly on server-selection timeouts |
| Migrator.MongoErrorMessage | server/app/services/migrator.py:137-154 | the message of each clause: connection, timeout, operation (with the text), MySQL, unexpected |
| Migrator.PostgresMigration | server/app/services/migrator.py:39-107 | status is `success` or `error`; success exactly when every key is present and nothing raised, and then every table's statements are committed with "Migrated N tables to PostgreSQL."; an error commits nothing; the error report is, in read order, the missing MySQL key's text, `MySqlMessage` of a refused connection, the missing PostgreSQL key's text, or `PostgresErrorMessage` of the exception |
| Migrator.MongoPlanPrefix | server/app/services/migrator.py:118-132 | the operations of the first k tables are a prefix of all of them |
| Migrator.MongoMigration | server/app/services/migrator.py:109-154 | status is `success` or `error`; success exactly when every key is present and nothing raised, and then every operation is done; the operations done are always a prefix of the plan; a missing key, a refused MySQL connection or a failing client constructor writes nothing; an exception during the table loop leaves exactly the operations of the tables written so far; the error report is, in read order, the missing MySQL key's text, `MySqlMessage` of a refused connection, the missing `uri` text, `MongoErrorMessage` of the client constructor's exception (nothing written), the missing `database` text, or `MongoErrorMessage` of a later exception |
| Migrator.MigrationOf | server/app/services/migrator.py:16-27 | dispatch on the lower-cased target: PostgreSQL, MongoDB, or an error "Unsupported target DB: …" that writes nothing; the status is always `success` or `error` |
| Migrator.BuildColumns | server/app/services/migrator.py:57-73 | the loop builds exactly one definition and one name per DESCRIBE row |
| Migrator.WriteTable | server/app/services/migrator.py:54-83 | the loop appends exactly the table's statements |
| Migrator.MigrateToPostgresql | server/app/services/migrator.py:39-107 | the method returns exactly `PostgresMigration` |
| Migrator.BuildDocuments | server/app/services/migrator.py:125-128 | the loop builds exactly one document per row |
| Migrator.WriteCollection | server/app/services/migrator.py:118-132 | the loop appends exactly the table's collection operations |
| Migrator.MigrateToMongodb | server/app/services/migrator.py:109-154 | the method returns exactly `MongoMigration` |
| Migrator.Migrate | server/app/services/migrator.py:21-27 | the method returns exactly `MigrationOf` |
| Responses.DetailBody | api/analyze.py:20 | an error body is exactly `{"detail": text}` |
| Responses.ColumnJson | server/app/services/analyzer.py:36-41 | a column record has exactly the keys name, type, nullable and primary_key, holding the column's values |
| Responses.TableJson | server/app/services/analyzer.py:44-48 | a table entry has exactly the keys name, columns and primary_keys; one column record per column, in order, and the primary key names |
| Responses.RelationshipJson | server/app/services/analyzer.py:54-59 | a relationship has exactly the keys table, column, ref_table and ref_column, holding the foreign key's values |
| Responses.AnalysisJson | server/app/services/analyzer.py:62-73 | the result dictionary lists each table's entry and each relationship's record, in order, and has no other key than `tables`, `relationships` and an `error` key present exactly when the analysis failed, holding its text |
| Responses.AnalyzeBody | server/app/api/routes.py:41-52 | exactly the keys analysis, recommendation and summary; `analysis` is the analyzer's dictionary as JSON, the summary in the "Recommended target DB: … Reason: …" format |
| Routes.AnalyzeDb | server/app/api/routes.py:30-56 | an escaped exception gives 500 with "Internal server error during analysis: "; an analyzer error gives 400 with its text and no recommendation; otherwise 200 with the analysis, the recommendation and the summary |
| Routes.AnalyzeRequestFields | server/app/api/routes.py:9-14 | a validated request supplies every credential key the analyzer reads |
| Routes.AnalyzeEndpointOutcome | server/app/api/routes.py:30-56 | over the modelled analyzer, a validated request gets 200 exactly when the database could be read, 400 with the analyzer's message otherwise, never 500; a 200 recommends postgresql or mongodb |
| Routes.TransferBody | server/app/api/routes.py:26-28 | exactly the keys status and details, holding the given status and the given details (`null` when there are none) |
| Routes.TransferData | server/app/api/routes.py:58-83 | an unsupported lower-cased target gives 400 before any migration; an escaped exception gives 500; status `error` gives 400 with `details` or "Migration failed"; otherwise 200 with `status` (default "unknown") and `details` |
| Routes.UnsupportedTargetNeverMigrates | server/app/api/routes.py:62-66 | an unsupported target gets the same 400 whatever a migration would have done |
| Routes.ReportDict | server/app/services/migrator.py:89-107 | the migrator's dictionary always holds both `status` and `details` |
| Routes.TransferEndpointOutcome | server/app/api/routes.py:74-83 | over the modelled migrator the endpoint answers only 200 or 400; a supported target gets 200 with the migrator's details on success and 400 with them on error, never the defaults |
| ApiAnalyze.AnalyzeDatabase | api/analyze.py:12-35 | an escaped exception gives 500; an analyzer error gives `({"detail": error}, 400)`; success gives 200 with the keys analysis, recommendation and summary |
| ApiAnalyze.DeploymentsAgree | api/analyze.py:12-35 | the stand-alone function and the FastAPI route give the same body and status for every outcome |
| ApiAnalyze.AnalysisResponse | api/analyze.py:54-61 | one status line, first, then headers, then the body last |
| ApiAnalyze.ServerErrorResponse | api/analyze.py:62-68 | status 500 first and the body `{"detail": "Server error: …"}` last |
| ApiAnalyze.PostEmissions | api/analyze.py:38-72 | exactly one status line, first, and the body last; 404 on any other path; 500 when the body cannot be read; otherwise the analysis response |
| ApiAnalyze.AnalyzeStatusFollowsAnalysis | api/analyze.py:49-54 | a readable request on the analysis path is answered 200 exactly when every credential key is present and the database could be read, 400 otherwise |
| ApiAnalyze.Handler.RespondWithAnalysis | api/analyze.py:54-61 | appends the status, the JSON and CORS headers, and the body, in that order |
| ApiAnalyze.Handler.RespondWithServerError | api/analyze.py:64-68 | appends the 500 status, its headers and the `Server error` body |
| ApiAnalyze.Handler.DoPost | api/analyze.py:38-72 | appends `PostEmissions` of the path and the request to the output |
| ApiAnalyze.Handler.DoOptions | api/analyze.py:74-79 | writes 200, the three CORS headers and the end of the headers |

## Findings

| source | as written | input that shows it | evidently intended | confidence | as-written member | corrected member |
|---|---|---|---|---|---|---|
| server/app/services/migrator.py:137-142 | `except ConnectionFailure` comes before `except ServerSelectionTimeoutError`, and pymongo derives the second from the first | a `ServerSelectionTimeoutError` raised during a MongoDB migration is reported as "MongoDB connection failed - check URI and network connectivity" | a server-selection timeout reports "MongoDB server not accessible - check host and port" | not executed; rests on pymongo's class hierarchy | Migrator.TimeoutClauseUnreachable | Migrator.CatchingClause |

`Migrator.MongoErrorMessage` and the MongoDB migration use the corrected
order; the line for it under "Left out" says what that changes. `Migrator.CatchingClauseAsWritten` keeps the written order, and
`Migrator.ClauseOrderDiffersOnlyOnTimeouts` shows that the two orders differ
on nothing else.

## Left out

- Database I/O is not modelled: connections, cursors, `execute`, `commit`, `close`, `drop` and `insert_many`. Their results are inputs, and their effects are recorded as statement or operation lists.
- Migrator.PostgresMigration: an exception is placed between two tables, not in the middle of a table's statements. Either way nothing is committed, so the outcome is the same.
- Migrator.MongoMigration: an exception after the client is built is placed between two tables, so a table is never half-written. A failure between the drop and the insert of one collection is not represented.
- Exceptions raised by `close()` after a successful migration are not modelled.
- Migrator.MongoErrorMessage: follows the corrected clause order, so a server-selection timeout reports "MongoDB server not accessible - check host and port"; as written, migrator.py:137-139 reports "MongoDB connection failed - check URI and network connectivity" for it (see `Migrator.CatchingClauseAsWritten`).
- Migrator.ZipDocument: a document is a map, so the key order the dict comprehension keeps (column order) is not represented.
- ApiAnalyze.Handler.SendResponse: records the status line only; the `Server` and `Date` headers that `send_response` adds are not modelled.
- Migrator.Cell: floats, bytes, `timedelta` (TIME columns) and sets are one opaque pass-through kind, `COther`, kept as is by `ConvertForMongo`. Whether `insert_many` can encode them is not modelled; a `timedelta` that makes it raise appears only as a `Raised` fault.
- Migrator.ConvertForMongo: a decimal becomes its exact rational value, without rounding to a binary double.
- Migrator.IsoDateTime: datetimes carry no microseconds and no time zone.
- Text.ToLower: folds ASCII letters only. Python's `lower()` and JavaScript's `toLowerCase()` fold all of Unicode.
- Submission.RejectionMessage: when the parsed body is `null`, the thrown message is fixed to the usual V8 text. Other engines word it differently.
- JSON numbers are integers only. The pages send only integer ports and the servers answer only strings, lists and objects.
- JSON serialisation to bytes, `json.loads` and the request's `Content-Length` are not modelled. A body that cannot be read or parsed is one input that carries the exception text.
- A parsed request body that is not a JSON object is not modelled.
- Request member values are integers or strings only. A member that is `null`, a boolean, a list or an object (such as `{"host": null}`), which api/analyze.py passes to `mysql.connector.connect` unchanged, cannot be represented in `Values.Fields`.
- Pydantic validation of the FastAPI request models is not modelled: type coercion, and the 422 answer for a missing field. `Routes.AnalyzeRequestFields` stands for a request that passed validation.
- The FastAPI `response_model` re-validation of the returned objects is not modelled.
- The exception handler around `do_POST` only covers reading and parsing the request. An exception raised while the response is being written is not modelled.
- The `print` logging in api/analyze.py is not modelled.
- `fetch`, the wall clock and `setTimeout` are events: `Settle` and `TimerFires`. Only the timer the effect scheduled last can fire with effect.
- Rendering is not modelled: JSX, the skeleton loader, the header, the home page and App routing.
- api/health.py, api/index.py, server/app/main.py, server/app/config/settings.py and server/app/utils/db_helpers.py hold no logic beyond framework wiring, environment reads and driver calls. They are not part of this model.
- The second copy of `convert_for_mongo` in server/app/services/analyzer.py:5-10 is never called. It is not modelled separately.
- SQL identifiers are interpolated without escaping, as in the source. The model records the statement text and does not reason about injection.
