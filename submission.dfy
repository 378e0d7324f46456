/** How both client pages turn the settlement of their `fetch` into either a
    result or an error message (client/src/pages/Migrate.js:91-117,
    client/src/pages/Analyze.js:39-65). */
module Submission {
  import opened Wrappers
  import opened Text
  import opened Values

  /** How the awaited request settled: a response whose body parsed as JSON,
      or a rejection (network failure, or a body that did not parse) with the
      message of the error the runtime threw. */
  datatype Settlement = Responded(ok: bool, data: Json) | Threw(message: string)

  /** The fixed text shown instead of any message that mentions JSON. */
  const Unavailable: string := "API server is not available. Please check if the backend is running."

  /** The runtime's message when `data.detail` is read from a `null` body. */
  const NullDetailError: string := "Cannot read properties " + "of null (reading 'detail')"

  /** The message of the error raised for a non-ok response:
      `new Error(data.detail || fallback).message`. */
  function RejectionMessage(data: Json, fallback: string): (m: string)
    // reading `detail` of a null body throws
    ensures data.JNull? ==> m == NullDetailError
    // a truthy detail is converted to a string: a non-empty string detail is kept as is
    ensures Member(data, "detail").Some? && Truthy(Member(data, "detail").value) ==>
              m == JsString(Member(data, "detail").value)
    ensures DetailText(data).Some? ==> m == DetailText(data).value
    // an absent or falsy detail gives the page's fallback text
    ensures !data.JNull? && (Member(data, "detail").None? || !Truthy(Member(data, "detail").value)) ==> m == fallback
  {
    if data.JNull? then NullDetailError
    else match Member(data, "detail")
      case Some(d) => if Truthy(d) then JsString(d) else fallback
      case None => fallback
  }

  /** A non-empty string `detail` member of a response body. */
  function DetailText(data: Json): Option<string> {
    match Member(data, "detail")
    case Some(JStr(d)) => if d != "" then Some(d) else None
    case _ => None
  }

  /** The catch block: a message mentioning JSON becomes the fixed
      unavailability text, any other message is shown verbatim. */
  function Displayed(message: string): (r: string)
    ensures r == message || r == Unavailable
    ensures !Contains(message, "JSON") ==> r == message
    ensures Contains(message, "JSON") ==> r == Unavailable
  {
    if Contains(message, "JSON") then Unavailable else message
  }

  /** What the settlement leaves behind: the parsed body on success, the
      displayed error message otherwise. `fallback` is the page's generic
      failure text. */
  function Outcome(s: Settlement, fallback: string): (r: Result<Json, string>)
    ensures r.Success? <==> s.Responded? && s.ok
    ensures r.Success? ==> r.value == s.data
    ensures s.Threw? && !Contains(s.message, "JSON") ==> r == Failure(s.message)
    ensures s.Threw? && Contains(s.message, "JSON") ==> r == Failure(Unavailable)
    ensures s.Responded? && !s.ok && DetailText(s.data).Some? && !Contains(DetailText(s.data).value, "JSON")
            ==> r == Failure(DetailText(s.data).value)
    ensures s.Responded? && !s.ok && DetailText(s.data).Some? && Contains(DetailText(s.data).value, "JSON")
            ==> r == Failure(Unavailable)
    // a truthy detail that is not a string, such as a list of validation errors, shows its `String()`
    ensures s.Responded? && !s.ok && Member(s.data, "detail").Some? && Truthy(Member(s.data, "detail").value)
            && !Contains(JsString(Member(s.data, "detail").value), "JSON")
            ==> r == Failure(JsString(Member(s.data, "detail").value))
    ensures s.Responded? && !s.ok && Member(s.data, "detail").Some? && Truthy(Member(s.data, "detail").value)
            && Contains(JsString(Member(s.data, "detail").value), "JSON")
            ==> r == Failure(Unavailable)
    ensures s.Responded? && !s.ok && !s.data.JNull?
            && (Member(s.data, "detail").None? || !Truthy(Member(s.data, "detail").value)) && 'J' !in fallback
            ==> r == Failure(fallback)
    ensures s.Responded? && !s.ok && s.data.JNull? ==> r == Failure(NullDetailError)
  {
    match s
    case Responded(ok, data) =>
      if ok then Success(data)
      else
        NoJsonWithoutJ(fallback);
        NullDetailErrorOmitsJson();
        Failure(Displayed(RejectionMessage(data, fallback)))
    case Threw(message) => Failure(Displayed(message))
  }

  /** A text without the letter J cannot mention JSON. */
  lemma NoJsonWithoutJ(text: string)
    ensures 'J' !in text ==> !Contains(text, "JSON")
  {
    if Contains(text, "JSON") {
      var i :| 0 <= i <= |text| - 4 && OccursAt(text, "JSON", i);
      assert text[i..i + 4][0] == 'J';
      assert text[i] in text;
    }
  }

  lemma NullDetailErrorOmitsJson()
    ensures !Contains(NullDetailError, "JSON")
  {
    assert 'J' !in "Cannot read properties ";
    assert 'J' !in "of null (reading 'detail')";
    NoJsonWithoutJ(NullDetailError);
  }

  /** No error the page shows mentions JSON, except the fixed unavailability text. */
  lemma OnlyUnavailableMentionsJson(s: Settlement, fallback: string)
    ensures Outcome(s, fallback).Failure? ==>
              Outcome(s, fallback).error == Unavailable || !Contains(Outcome(s, fallback).error, "JSON")
  {
  }
}
