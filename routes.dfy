/** The FastAPI endpoints (server/app/api/routes.py). An exception that
    escapes the services is an input (`Failure(str(e))`); the composed
    endpoints below show that the modelled services never raise one. */
module Routes {
  import opened Wrappers
  import opened Text
  import opened Values
  import opened Schema
  import opened Recommender
  import opened Responses
  import Analyzer
  import Migrator

  /** `POST /analyze`: the analyzer's result, or the text of an exception that escaped it. */
  function AnalyzeDb(outcome: Result<Analysis, string>): (reply: HttpReply)
    ensures outcome.Failure? ==> reply == HttpReply(500, DetailBody("Internal server error during analysis: " + outcome.error))
    ensures outcome.Success? && outcome.value.error.Some? ==> reply == HttpReply(400, DetailBody(outcome.value.error.value))
    ensures outcome.Success? && outcome.value.error.None? ==>
              reply.status == 200
              && reply.body == AnalyzeBody(outcome.value, Recommended(outcome.value.tables, outcome.value.relationships))
    ensures reply.status in {200, 400, 500}
  {
    match outcome
    case Failure(e) => HttpReply(500, DetailBody("Internal server error during analysis: " + e))
    case Success(analysis) =>
      if analysis.error.Some? then HttpReply(400, DetailBody(analysis.error.value))
      else
        var rec := Recommended(analysis.tables, analysis.relationships);
        HttpReply(200, AnalyzeBody(analysis, rec))
  }

  /** `request.dict()` of a validated AnalyzeRequest: all five fields, the port a number. */
  function AnalyzeRequestFields(host: string, port: int, database: string, user: string, password: string): (f: Fields)
    ensures MissingKey(f, Analyzer.CredentialKeys).None?
  {
    map["mysql_host" := Str(host), "mysql_port" := Num(port), "mysql_database" := Str(database),
        "mysql_user" := Str(user), "mysql_password" := Str(password)]
  }

  /** `POST /analyze` over the modelled analyzer, for a request that passed validation. */
  function AnalyzeEndpoint(host: string, port: int, database: string, user: string, password: string,
                           run: Result<seq<Analyzer.TableCatalog>, DbError>): HttpReply
  {
    AnalyzeDb(Success(Analyzer.AnalysisOf(AnalyzeRequestFields(host, port, database, user, password), run)))
  }

  /** A validated request gets 200 exactly when the database could be read, 400 with the
      analyzer's message otherwise, and never 500; a 200 names postgresql or mongodb. */
  lemma {:induction false} AnalyzeEndpointOutcome(host: string, port: int, database: string, user: string, password: string,
                                                  run: Result<seq<Analyzer.TableCatalog>, DbError>)
    ensures AnalyzeEndpoint(host, port, database, user, password, run).status == (if run.Success? then 200 else 400)
    ensures run.Failure? ==>
              AnalyzeEndpoint(host, port, database, user, password, run).body
              == DetailBody(Analyzer.ErrorMessage(AnalyzeRequestFields(host, port, database, user, password), run.error))
    ensures run.Success? ==>
              AnalyzeEndpoint(host, port, database, user, password, run).body.members["recommendation"]
              in {JStr("postgresql"), JStr("mongodb")}
  {
    var f := AnalyzeRequestFields(host, port, database, user, password);
    var a := Analyzer.AnalysisOf(f, run);
    if run.Success? {
      var rec := Recommended(a.tables, a.relationships);
      assert AnalyzeBody(a, rec).members["recommendation"] == JStr(rec.recommendation);
    }
  }

  /** The targets `transfer_data` accepts. */
  const SupportedTargets: seq<string> := ["postgresql", "mongodb"]

  /** Python's `d.get(key)`. */
  function Get(d: map<string, string>, key: string): Option<string> {
    if key in d then Some(d[key]) else None
  }

  /** Python's `d.get(key, default)`. */
  function GetOr(d: map<string, string>, key: string, default: string): string {
    if key in d then d[key] else default
  }

  /** A TransferStatus as JSON; an absent `details` is null. */
  function TransferBody(status: string, details: Option<string>): (j: Json)
    ensures j.JObj? && j.members.Keys == {"status", "details"} && j.members["status"] == JStr(status)
    ensures j.members["details"] == (if details.Some? then JStr(details.value) else JNull)
  {
    JObj(map["status" := JStr(status), "details" := match details case Some(d) => JStr(d) case None => JNull])
  }

  function UnsupportedTarget(targetDb: string): string {
    "Unsupported target database: " + targetDb + ". Supported targets: postgresql, mongodb"
  }

  /** `POST /transfer`: the target name from the request and, when it is
      supported, the migrator's result dictionary or an exception that escaped it. */
  function TransferData(targetDb: string, migrate: Result<map<string, string>, string>): (reply: HttpReply)
    // the target is checked before any migration is attempted
    ensures ToLower(targetDb) !in SupportedTargets ==> reply == HttpReply(400, DetailBody(UnsupportedTarget(targetDb)))
    ensures ToLower(targetDb) in SupportedTargets && migrate.Failure? ==>
              reply == HttpReply(500, DetailBody("Internal server error during migration: " + migrate.error))
    ensures ToLower(targetDb) in SupportedTargets && migrate.Success? && Get(migrate.value, "status") == Some("error") ==>
              reply == HttpReply(400, DetailBody(GetOr(migrate.value, "details", "Migration failed")))
    ensures ToLower(targetDb) in SupportedTargets && migrate.Success? && Get(migrate.value, "status") != Some("error") ==>
              reply == HttpReply(200, TransferBody(GetOr(migrate.value, "status", "unknown"), Get(migrate.value, "details")))
    ensures reply.status in {200, 400, 500}
  {
    if ToLower(targetDb) !in SupportedTargets then HttpReply(400, DetailBody(UnsupportedTarget(targetDb)))
    else
      match migrate
      case Failure(e) => HttpReply(500, DetailBody("Internal server error during migration: " + e))
      case Success(result) =>
        if Get(result, "status") == Some("error") then
          HttpReply(400, DetailBody(GetOr(result, "details", "Migration failed")))
        else HttpReply(200, TransferBody(GetOr(result, "status", "unknown"), Get(result, "details")))
  }

  /** An unsupported target is answered the same whatever a migration would have done. */
  lemma UnsupportedTargetNeverMigrates(targetDb: string, m1: Result<map<string, string>, string>,
                                       m2: Result<map<string, string>, string>)
    requires ToLower(targetDb) !in SupportedTargets
    ensures TransferData(targetDb, m1) == TransferData(targetDb, m2)
    ensures TransferData(targetDb, m1).status == 400
  {
  }

  /** The migrator's report as the result dictionary. */
  function ReportDict(r: Migrator.Report): (d: map<string, string>)
    ensures d.Keys == {"status", "details"} && d["status"] == r.status && d["details"] == r.details
  {
    map["status" := r.status, "details" := r.details]
  }

  /** `POST /transfer` over the modelled migrator. */
  function TransferEndpoint(targetDb: string, mysql: Fields, target: Fields,
                            tables: seq<Migrator.TableData>, fault: Option<Migrator.Fault>): HttpReply
  {
    TransferData(targetDb, Success(ReportDict(Migrator.MigrationOf(targetDb, mysql, target, tables, fault).report)))
  }

  /** Over the modelled migrator the endpoint never answers 500 and never falls back to
      "Migration failed" or "unknown": a supported target gets 200 with the migrator's details
      when it succeeded and 400 with them when it failed. */
  lemma {:induction false} TransferEndpointOutcome(targetDb: string, mysql: Fields, target: Fields,
                                                   tables: seq<Migrator.TableData>, fault: Option<Migrator.Fault>)
    ensures ToLower(targetDb) in SupportedTargets ==>
              var report := Migrator.MigrationOf(targetDb, mysql, target, tables, fault).report;
              var reply := TransferEndpoint(targetDb, mysql, target, tables, fault);
              (report.status == "success" ==> reply == HttpReply(200, TransferBody("success", Some(report.details))))
              && (report.status == "error" ==> reply == HttpReply(400, DetailBody(report.details)))
    ensures TransferEndpoint(targetDb, mysql, target, tables, fault).status in {200, 400}
  {
    var report := Migrator.MigrationOf(targetDb, mysql, target, tables, fault).report;
    assert report.status == "success" || report.status == "error";
    var d := ReportDict(report);
    assert Get(d, "status") == Some(report.status) && Get(d, "details") == Some(report.details);
    assert GetOr(d, "status", "unknown") == report.status && GetOr(d, "details", "Migration failed") == report.details;
    assert "success" != "error" by { assert |"success"| != |"error"|; }
  }
}
