/** The analysis form of the client (client/src/pages/Analyze.js): a flat
    credential record, the submission lifecycle and the colour of the
    recommendation badge. */
module AnalyzePage {
  import opened Wrappers
  import opened Text
  import opened Values
  import opened Submission

  /** Generic failure text of this page. */
  const AnalyzeFallback: string := "Failed to analyze database"

  /** A failed response whose body has no usable `detail` shows the
      fallback text, which the JSON test leaves as it is. */
  lemma FallbackShownWithoutDetail(data: Json)
    requires !data.JNull? && (Member(data, "detail").None? || !Truthy(Member(data, "detail").value))
    ensures !Contains(AnalyzeFallback, "JSON")
    ensures Outcome(Responded(false, data), AnalyzeFallback) == Failure(AnalyzeFallback)
  {
    assert 'J' !in AnalyzeFallback;
    NoJsonWithoutJ(AnalyzeFallback);
  }

  const CredentialKeys: set<string> := {"mysql_host", "mysql_port", "mysql_database", "mysql_user", "mysql_password"}

  /** The form as the page first renders it: port 3306, every other field empty. */
  function InitialForm(): (f: Fields)
    ensures f.Keys == CredentialKeys
    ensures f["mysql_port"] == Num(3306)
    ensures forall k :: k in f && k != "mysql_port" ==> f[k] == Str("")
  {
    map["mysql_host" := Str(""), "mysql_port" := Num(3306), "mysql_database" := Str(""),
        "mysql_user" := Str(""), "mysql_password" := Str("")]
  }

  /** The page's state cells. */
  class AnalyzeForm {
    var formData: Fields
    var loading: bool
    var result: Json          // JNull is the JavaScript null
    var error: Option<string>

    ghost predicate Valid()
      reads this
    {
      && (error.Some? ==> result.JNull?)
      && (loading ==> result.JNull? && error.None?)
    }

    constructor ()
      ensures Valid()
      ensures formData == InitialForm() && !loading && result.JNull? && error.None?
    {
      formData := InitialForm();
      loading, result, error := false, JNull, None;
    }

    /** `handleInputChange`: set exactly the named field, whatever its name. */
    method HandleInputChange(name: string, value: string)
      requires Valid()
      modifies this
      ensures Valid()
      ensures formData.Keys == old(formData).Keys + {name} && formData[name] == Str(value)
      ensures forall k :: k in old(formData) && k != name ==> formData[k] == old(formData)[k]
      ensures loading == old(loading) && result == old(result) && error == old(error)
    {
      formData := formData[name := Str(value)];
    }

    /** The synchronous part of `handleSubmit`, up to the request it sends. */
    method HandleSubmit() returns (body: Json)
      requires Valid()
      modifies this
      ensures Valid()
      ensures body == FieldsJson(formData) && formData == old(formData)
      ensures loading && result.JNull? && error.None?
    {
      loading := true;
      error := None;
      result := JNull;
      body := FieldsJson(formData);
    }

    /** The request settles: the parsed body on success, one error message
        otherwise; loading ends either way. */
    method Settle(s: Settlement)
      requires Valid() && loading
      modifies this
      ensures Valid()
      ensures !loading && formData == old(formData)
      ensures error.None? <==> s.Responded? && s.ok
      ensures error.None? ==> result == s.data
      ensures error.Some? ==> error.value == Outcome(s, AnalyzeFallback).error && result.JNull?
      // exactly one of result and error is non-null, unless the body was null
      ensures s.Responded? && s.ok && !s.data.JNull? ==> result != JNull && error.None?
    {
      assert result.JNull? && error.None?;
      var outcome := Outcome(s, AnalyzeFallback);
      if outcome.Success? {
        result := outcome.value;
      } else {
        error := Some(outcome.error);
      }
      loading := false;
    }
  }

  const Green: string := "text-green-600 bg-green-50 dark:bg-green-900/30"
  const Blue: string := "text-blue-600 bg-blue-50 dark:bg-blue-900/30"
  const Purple: string := "text-purple-600 bg-purple-50 dark:bg-purple-900/30"
  const Gray: string := "text-gray-600 bg-gray-50 dark:bg-gray-700"

  /** `getRecommendationColor`; `None` is an undefined recommendation. */
  function RecommendationColor(recommendation: Option<string>): (c: string)
    ensures c == Green || c == Blue || c == Purple || c == Gray
    ensures c == Green <==> recommendation.Some? && ToLower(recommendation.value) == "postgresql"
    ensures c == Blue <==> recommendation.Some? && ToLower(recommendation.value) == "mysql"
    ensures c == Purple <==> recommendation.Some? && ToLower(recommendation.value) == "mongodb"
  {
    match recommendation
    case None => Gray
    case Some(r) =>
      var lower := ToLower(r);
      if lower == "postgresql" then Green
      else if lower == "mysql" then Blue
      else if lower == "mongodb" then Purple
      else Gray
  }

  /** The badge colour ignores letter case. */
  lemma {:induction false} ColorIgnoresCase(r: string)
    ensures RecommendationColor(Some(r)) == RecommendationColor(Some(ToLower(r)))
  {
    assert ToLower(ToLower(r)) == ToLower(r);
  }
}
