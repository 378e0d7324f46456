/** What the two server deployments send back: a status code with a JSON body,
    the analysis as a JSON document, and the recommendation summary. */
module Responses {
  import opened Wrappers
  import opened Values
  import opened Schema
  import opened Recommender

  /** An HTTP response: status code and JSON body. */
  datatype HttpReply = HttpReply(status: nat, body: Json)

  /** The body of an error response: `{"detail": detail}`. */
  function DetailBody(detail: string): (j: Json)
    ensures j.JObj? && j.members.Keys == {"detail"} && j.members["detail"] == JStr(detail)
  {
    JObj(map["detail" := JStr(detail)])
  }

  /** The summary both deployments build from a recommendation. */
  function Summary(r: Recommendation): string {
    "Recommended target DB: " + r.recommendation + " based on schema analysis.\n\nReason: " + r.explanation
  }

  function StringsJson(s: seq<string>): (j: Json)
    ensures j.JArr? && |j.items| == |s| && forall i :: 0 <= i < |s| ==> j.items[i] == JStr(s[i])
  {
    JArr(seq(|s|, i requires 0 <= i < |s| => JStr(s[i])))
  }

  /** A column record: its four keys, holding the column's name, type and flags. */
  function ColumnJson(c: ColumnInfo): (j: Json)
    ensures j.JObj? && j.members.Keys == {"name", "type", "nullable", "primary_key"}
    ensures j.members["name"] == JStr(c.name) && j.members["type"] == JStr(c.sqlType)
    ensures j.members["nullable"] == JBool(c.nullable) && j.members["primary_key"] == JBool(c.primaryKey)
  {
    JObj(map["name" := JStr(c.name), "type" := JStr(c.sqlType),
             "nullable" := JBool(c.nullable), "primary_key" := JBool(c.primaryKey)])
  }

  /** A table entry: its name, one column record per column in order, and its primary keys. */
  function TableJson(t: TableInfo): (j: Json)
    ensures j.JObj? && j.members.Keys == {"name", "columns", "primary_keys"}
    ensures j.members["name"] == JStr(t.name) && j.members["primary_keys"] == StringsJson(t.primaryKeys)
    ensures j.members["columns"].JArr? && |j.members["columns"].items| == |t.columns|
    ensures forall i :: 0 <= i < |t.columns| ==> j.members["columns"].items[i] == ColumnJson(t.columns[i])
  {
    JObj(map["name" := JStr(t.name),
             "columns" := JArr(seq(|t.columns|, i requires 0 <= i < |t.columns| => ColumnJson(t.columns[i]))),
             "primary_keys" := StringsJson(t.primaryKeys)])
  }

  /** A relationship record: the table and column, and the table and column they reference. */
  function RelationshipJson(r: Relationship): (j: Json)
    ensures j.JObj? && j.members.Keys == {"table", "column", "ref_table", "ref_column"}
    ensures j.members["table"] == JStr(r.table) && j.members["column"] == JStr(r.column)
    ensures j.members["ref_table"] == JStr(r.refTable) && j.members["ref_column"] == JStr(r.refColumn)
  {
    JObj(map["table" := JStr(r.table), "column" := JStr(r.column),
             "ref_table" := JStr(r.refTable), "ref_column" := JStr(r.refColumn)])
  }

  /** The analyzer's result dictionary as JSON: the `error` key is present
      exactly when the analysis failed, next to the two lists. */
  function AnalysisJson(a: Analysis): (j: Json)
    ensures j.JObj? && j.members.Keys == {"tables", "relationships"} + (if a.error.Some? then {"error"} else {})
    ensures "error" in j.members <==> a.error.Some?
    ensures a.error.Some? ==> j.members["error"] == JStr(a.error.value)
    ensures j.members["tables"].JArr? && |j.members["tables"].items| == |a.tables|
    ensures j.members["relationships"].JArr? && |j.members["relationships"].items| == |a.relationships|
    ensures forall i :: 0 <= i < |a.tables| ==> j.members["tables"].items[i] == TableJson(a.tables[i])
    ensures forall i :: 0 <= i < |a.relationships| ==>
              j.members["relationships"].items[i] == RelationshipJson(a.relationships[i])
  {
    var lists := map["tables" := JArr(seq(|a.tables|, i requires 0 <= i < |a.tables| => TableJson(a.tables[i]))),
                     "relationships" := JArr(seq(|a.relationships|, i requires 0 <= i < |a.relationships|
                                                   => RelationshipJson(a.relationships[i])))];
    match a.error
    case None => JObj(lists)
    case Some(e) => JObj(lists["error" := JStr(e)])
  }

  /** The success body: the analysis, the recommended target and the summary. */
  function AnalyzeBody(a: Analysis, r: Recommendation): (j: Json)
    ensures j.JObj? && j.members.Keys == {"analysis", "recommendation", "summary"}
    ensures j.members["analysis"] == AnalysisJson(a)
    ensures j.members["recommendation"] == JStr(r.recommendation) && j.members["summary"] == JStr(Summary(r))
  {
    JObj(map["analysis" := AnalysisJson(a), "recommendation" := JStr(r.recommendation), "summary" := JStr(Summary(r))])
  }
}
