/** The stand-alone analysis function (api/analyze.py): `analyze_database`
    maps an analysis to a body and a status, and `handler` writes the
    response to its output stream. */
module ApiAnalyze {
  import opened Wrappers
  import opened Values
  import opened Schema
  import opened Recommender
  import opened Responses
  import Analyzer
  import Routes

  /** `analyze_database(request_data)`: the analyzer's result, or the text of an exception that escaped. */
  function AnalyzeDatabase(outcome: Result<Analysis, string>): (r: (Json, nat))
    ensures outcome.Failure? ==> r == (DetailBody("Internal server error during analysis: " + outcome.error), 500)
    ensures outcome.Success? && outcome.value.error.Some? ==> r == (DetailBody(outcome.value.error.value), 400)
    ensures outcome.Success? && outcome.value.error.None? ==>
              r.1 == 200 && r.0.JObj? && r.0.members.Keys == {"analysis", "recommendation", "summary"}
  {
    match outcome
    case Failure(e) => (DetailBody("Internal server error during analysis: " + e), 500)
    case Success(analysis) =>
      if analysis.error.Some? then (DetailBody(analysis.error.value), 400)
      else
        var rec := Recommended(analysis.tables, analysis.relationships);
        (AnalyzeBody(analysis, rec), 200)
  }

  /** This function and the FastAPI route answer every analysis outcome alike. */
  lemma {:induction false} DeploymentsAgree(outcome: Result<Analysis, string>)
    ensures AnalyzeDatabase(outcome) == (Routes.AnalyzeDb(outcome).body, Routes.AnalyzeDb(outcome).status)
  {
    match outcome
    case Failure(_) =>
    case Success(analysis) =>
  }

  /** One write to the response stream. */
  datatype Emission = SendStatus(code: nat) | SendHeader(name: string, value: string) | EndHeaders | WriteBody(body: Json)

  /** The request body: a JSON object read and parsed, or the text of the exception
      raised while reading or parsing it. */
  datatype RequestBody = Parsed(data: Fields) | Unreadable(message: string)

  const AnalyzePath: string := "/api/analyze"

  const Cors: seq<Emission> :=
    [SendHeader("Access-Control-Allow-Origin", "*"),
     SendHeader("Access-Control-Allow-Methods", "POST, OPTIONS"),
     SendHeader("Access-Control-Allow-Headers", "Content-Type")]

  /** A JSON response with the CORS headers: the analysis path's answer. */
  function AnalysisResponse(status: nat, body: Json): (r: seq<Emission>)
    ensures |r| >= 3 && r[0] == SendStatus(status) && r[|r| - 1] == WriteBody(body)
    ensures forall i :: 0 < i < |r| ==> !r[i].SendStatus?
  {
    [SendStatus(status), SendHeader("Content-type", "application/json")] + Cors + [EndHeaders, WriteBody(body)]
  }

  /** The answer when reading, parsing or answering the request raised. */
  function ServerErrorResponse(message: string): (r: seq<Emission>)
    ensures |r| >= 3 && r[0] == SendStatus(500) && r[|r| - 1] == WriteBody(DetailBody("Server error: " + message))
    ensures forall i :: 0 < i < |r| ==> !r[i].SendStatus?
  {
    [SendStatus(500), SendHeader("Content-type", "application/json"), Cors[0], EndHeaders,
     WriteBody(DetailBody("Server error: " + message))]
  }

  const NotFoundResponse: seq<Emission> := [SendStatus(404), EndHeaders, WriteBody(JObj(map["error" := JStr("Not Found")]))]

  /** What `do_POST` writes for a request. */
  function PostEmissions(path: string, request: RequestBody, run: Result<seq<Analyzer.TableCatalog>, DbError>): (e: seq<Emission>)
    // exactly one status line, first, and the body last
    ensures |e| >= 3 && e[0].SendStatus? && e[|e| - 1].WriteBody?
    ensures forall i :: 0 < i < |e| ==> !e[i].SendStatus?
    ensures path != AnalyzePath ==> e == [SendStatus(404), EndHeaders, WriteBody(JObj(map["error" := JStr("Not Found")]))]
    ensures path == AnalyzePath && request.Unreadable? ==> e == ServerErrorResponse(request.message)
    ensures path == AnalyzePath && request.Parsed? ==>
              e == AnalysisResponse(AnalyzeDatabase(Success(Analyzer.AnalysisOf(request.data, run))).1,
                                    AnalyzeDatabase(Success(Analyzer.AnalysisOf(request.data, run))).0)
  {
    if path != AnalyzePath then NotFoundResponse
    else match request
      case Unreadable(message) => ServerErrorResponse(message)
      case Parsed(data) =>
        var (body, status) := AnalyzeDatabase(Success(Analyzer.AnalysisOf(data, run)));
        AnalysisResponse(status, body)
  }

  /** A request on the analysis path whose body was read is answered 200 or 400:
      400 exactly when the analyzer reported an error, such as a missing credential. */
  lemma {:induction false} AnalyzeStatusFollowsAnalysis(request: RequestBody, run: Result<seq<Analyzer.TableCatalog>, DbError>)
    requires request.Parsed?
    ensures PostEmissions(AnalyzePath, request, run)[0] ==
              SendStatus(if MissingKey(request.data, Analyzer.CredentialKeys).None? && run.Success? then 200 else 400)
  {
  }

  /** The request handler; `out` is everything written to the client. */
  class Handler {
    var out: seq<Emission>

    constructor()
      ensures out == []
    {
      out := [];
    }

    method SendResponse(code: nat)
      modifies this
      ensures out == old(out) + [SendStatus(code)]
    {
      out := out + [SendStatus(code)];
    }

    method SendHeader(name: string, value: string)
      modifies this
      ensures out == old(out) + [Emission.SendHeader(name, value)]
    {
      out := out + [Emission.SendHeader(name, value)];
    }

    method EndHeaders()
      modifies this
      ensures out == old(out) + [Emission.EndHeaders]
    {
      out := out + [Emission.EndHeaders];
    }

    method Write(body: Json)
      modifies this
      ensures out == old(out) + [WriteBody(body)]
    {
      out := out + [WriteBody(body)];
    }

    /** The response of the analysis path once the body was parsed and analysed. */
    method RespondWithAnalysis(statusCode: nat, result: Json)
      modifies this
      ensures out == old(out) + AnalysisResponse(statusCode, result)
    {
      SendResponse(statusCode);
      SendHeader("Content-type", "application/json");
      SendHeader("Access-Control-Allow-Origin", "*");
      SendHeader("Access-Control-Allow-Methods", "POST, OPTIONS");
      SendHeader("Access-Control-Allow-Headers", "Content-Type");
      EndHeaders();
      Write(result);
    }

    /** The `except` branch of the analysis path. */
    method RespondWithServerError(message: string)
      modifies this
      ensures out == old(out) + ServerErrorResponse(message)
    {
      SendResponse(500);
      SendHeader("Content-type", "application/json");
      SendHeader("Access-Control-Allow-Origin", "*");
      EndHeaders();
      Write(DetailBody("Server error: " + message));
    }

    /** `do_POST`. */
    method DoPost(path: string, request: RequestBody, run: Result<seq<Analyzer.TableCatalog>, DbError>)
      modifies this
      ensures out == old(out) + PostEmissions(path, request, run)
    {
      if path == AnalyzePath {
        match request
        case Unreadable(message) =>
          RespondWithServerError(message);
        case Parsed(data) =>
          var analysis := Analyzer.Analyze(data, run);
          var (result, statusCode) := AnalyzeDatabase(Success(analysis));
          RespondWithAnalysis(statusCode, result);
      } else {
        SendResponse(404);
        EndHeaders();
        Write(JObj(map["error" := JStr("Not Found")]));
      }
    }

    /** `do_OPTIONS`: the CORS preflight answer. */
    method DoOptions()
      modifies this
      ensures out == old(out) + [SendStatus(200)] + Cors + [Emission.EndHeaders]
    {
      SendResponse(200);
      SendHeader("Access-Control-Allow-Origin", "*");
      SendHeader("Access-Control-Allow-Methods", "POST, OPTIONS");
      SendHeader("Access-Control-Allow-Headers", "Content-Type");
      EndHeaders();
    }
  }
}
