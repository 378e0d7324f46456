/** Field values, credential records and JSON documents as the client and
    the server exchange them. */
module Values {
  import opened Wrappers
  import opened Text

  /** A credential field: the form's initial ports are numbers, everything a
      user types arrives as a string. */
  datatype Value = Num(n: int) | Str(s: string)

  /** A credential object or request dictionary: field name to value. */
  type Fields = map<string, Value>

  /** Python's f-string interpolation of a field value. */
  function Format(v: Value): string {
    match v
    case Num(n) => IntToString(n)
    case Str(s) => s
  }

  /** The first of `keys` absent from `creds`: the key that Python's
      dictionary lookups `creds[k]`, made in the order of `keys`, raise KeyError for. */
  function MissingKey(creds: Fields, keys: seq<string>): (r: Option<string>)
    ensures r.None? <==> forall k :: k in keys ==> k in creds
    ensures r.Some? ==> r.value in keys && r.value !in creds
    // the reported key is the first one read that is absent
    ensures r.Some? ==> exists i :: 0 <= i < |keys| && keys[i] == r.value && forall j :: 0 <= j < i ==> keys[j] in creds
    decreases |keys|
  {
    if |keys| == 0 then None
    else if keys[0] !in creds then Some(keys[0])
    else
      var rest := MissingKey(creds, keys[1..]);
      assert rest.Some? ==> exists i :: 0 <= i < |keys| && keys[i] == rest.value && forall j :: 0 <= j < i ==> keys[j] in creds by {
        if rest.Some? {
          var i :| 0 <= i < |keys| - 1 && keys[1..][i] == rest.value && forall j :: 0 <= j < i ==> keys[1..][j] in creds;
          assert keys[i + 1] == rest.value && forall j :: 0 <= j < i + 1 ==> keys[j] in creds;
        }
      }
      rest
  }

  /** Python's `str(KeyError(k))`: the key in single quotes. */
  function KeyErrorText(k: string): string {
    "'" + k + "'"
  }

  /** A JSON document; `JNull` is also JavaScript's `null`. Numbers are integers. */
  datatype Json =
    | JNull
    | JBool(b: bool)
    | JNum(n: int)
    | JStr(s: string)
    | JArr(items: seq<Json>)
    | JObj(members: map<string, Json>)

  function ValueJson(v: Value): Json {
    match v
    case Num(n) => JNum(n)
    case Str(s) => JStr(s)
  }

  /** `JSON.stringify` of a credential object, as a JSON object with the same keys. */
  function FieldsJson(f: Fields): (j: Json)
    ensures j.JObj? && j.members.Keys == f.Keys
    ensures forall k :: k in f ==> j.members[k] == ValueJson(f[k])
  {
    JObj(map k | k in f :: ValueJson(f[k]))
  }

  /** JavaScript truthiness of a JSON value. */
  predicate Truthy(v: Json) {
    match v
    case JNull => false
    case JBool(b) => b
    case JNum(n) => n != 0
    case JStr(s) => s != ""
    case JArr(_) => true
    case JObj(_) => true
  }

  /** JavaScript's `String(v)`: what `new Error(v).message` holds. Inside an
      array, `null` renders as the empty string. */
  function JsString(v: Json): string
    decreases v, 1
  {
    match v
    case JNull => "null"
    case JBool(b) => if b then "true" else "false"
    case JNum(n) => IntToString(n)
    case JStr(s) => s
    case JArr(items) => Join(ElementStrings(v, items), ",")
    case JObj(_) => "[object Object]"
  }

  function ElementStrings(whole: Json, items: seq<Json>): seq<string>
    requires forall x :: x in items ==> x < whole
    decreases whole, 0, |items|
  {
    if |items| == 0 then []
    else
      assert items[0] in items;
      assert forall x :: x in items[1..] ==> x in items;
      [if items[0].JNull? then "" else JsString(items[0])] + ElementStrings(whole, items[1..])
  }

  /** JavaScript's `data.detail`: a member of an object, absent otherwise. */
  function Member(data: Json, key: string): Option<Json> {
    if data.JObj? && key in data.members then Some(data.members[key]) else None
  }
}
