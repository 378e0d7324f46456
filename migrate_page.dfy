/** The migration form of the client (client/src/pages/Migrate.js): the
    credential state, the submission lifecycle and the auto-hiding banners. */
module MigratePage {
  import opened Wrappers
  import opened Text
  import opened Values
  import opened Submission

  /** The target credential object. Its shape is the one the selector last
      installed: relational (host, port, ...) or document (uri, database). */
  datatype TargetCredentials = Relational(fields: Fields) | Document(fields: Fields)

  /** `formData`: the selected target, the source credentials and the target credentials. */
  datatype FormData = FormData(targetDb: string, mysqlCredentials: Fields, targetCredentials: TargetCredentials)

  const RelationalKeys: set<string> := {"host", "port", "database", "user", "password"}
  const DocumentKeys: set<string> := {"uri", "database"}

  /** Generic failure text of this page. */
  const MigrateFallback: string := "Failed to migrate database"

  /** A failed response whose body has no usable `detail` shows the
      fallback text, which the JSON test leaves as it is. */
  lemma FallbackShownWithoutDetail(data: Json)
    requires !data.JNull? && (Member(data, "detail").None? || !Truthy(Member(data, "detail").value))
    ensures !Contains(MigrateFallback, "JSON")
    ensures Outcome(Responded(false, data), MigrateFallback) == Failure(MigrateFallback)
  {
    assert 'J' !in MigrateFallback;
    NoJsonWithoutJ(MigrateFallback);
  }

  /** The banners hide this many milliseconds after they appear. */
  const AutoHideMillis: nat := 5000

  function SourceDefaults(): Fields {
    map["host" := Str("localhost"), "port" := Num(3306), "database" := Str(""), "user" := Str(""), "password" := Str("")]
  }

  function RelationalDefaults(): Fields {
    map["host" := Str("localhost"), "port" := Num(5432), "database" := Str(""), "user" := Str(""), "password" := Str("")]
  }

  function DocumentDefaults(): Fields {
    map["uri" := Str("mongodb://localhost:27017"), "database" := Str("admin")]
  }

  /** The credential object the selector installs for a target: only the
      value "postgresql" selects the relational shape. */
  function DefaultsFor(targetDb: string): (c: TargetCredentials)
    ensures c.Relational? <==> targetDb == "postgresql"
    ensures c.Relational? ==> c.fields.Keys == RelationalKeys && c.fields["port"] == Num(5432)
    ensures c.Relational? ==> c.fields["host"] == Str("localhost") && c.fields["database"] == Str("")
                              && c.fields["user"] == Str("") && c.fields["password"] == Str("")
    ensures c.Document? ==> c.fields.Keys == DocumentKeys && c.fields["uri"] == Str("mongodb://localhost:27017")
    ensures c.Document? ==> c.fields["database"] == Str("admin")
  {
    if targetDb == "postgresql" then Relational(RelationalDefaults()) else Document(DocumentDefaults())
  }

  /** The form as the page first renders it. */
  function InitialForm(): (f: FormData)
    ensures f.targetDb == "postgresql"
    ensures f.mysqlCredentials.Keys == RelationalKeys && f.targetCredentials.Relational?
    ensures f.targetCredentials.fields.Keys == RelationalKeys
    ensures f.mysqlCredentials["port"] == Num(3306) && f.targetCredentials.fields["port"] == Num(5432)
    ensures f.mysqlCredentials["host"] == Str("localhost") && f.targetCredentials.fields["host"] == Str("localhost")
    ensures forall k :: k in {"database", "user", "password"} ==>
              f.mysqlCredentials[k] == Str("") && f.targetCredentials.fields[k] == Str("")
  {
    FormData("postgresql", SourceDefaults(), Relational(RelationalDefaults()))
  }

  /** The shape of the target credentials agrees with the selected target. */
  predicate ShapeMatches(f: FormData) {
    f.targetCredentials.Relational? <==> f.targetDb == "postgresql"
  }

  /** The target credentials hold exactly the fields of their shape. */
  predicate ShapeKeysExact(c: TargetCredentials) {
    c.fields.Keys == if c.Relational? then RelationalKeys else DocumentKeys
  }

  function SetField(c: TargetCredentials, key: string, v: Value): (r: TargetCredentials)
    ensures r.Relational? == c.Relational? && r.fields == c.fields[key := v]
  {
    match c
    case Relational(fs) => Relational(fs[key := v])
    case Document(fs) => Document(fs[key := v])
  }

  /** The state `handleInputChange` leaves for an input `name` set to `value`. */
  function Edit(f: FormData, name: string, value: string): (r: FormData)
    // a source input writes its field of the source credentials and nothing else
    ensures StartsWith(name, "mysql_") ==>
              r.targetDb == f.targetDb && r.targetCredentials == f.targetCredentials
              && r.mysqlCredentials == f.mysqlCredentials[name[|"mysql_"|..] := Str(value)]
    // the selector replaces the target credentials wholesale, whatever they were
    ensures name == "target_db" ==>
              r.targetDb == value && r.mysqlCredentials == f.mysqlCredentials
              && r.targetCredentials == DefaultsFor(value) && "db" !in r.targetCredentials.fields
    // any other target input writes one field of the current shape
    ensures StartsWith(name, "target_") && name != "target_db" && !StartsWith(name, "mysql_") ==>
              r.targetDb == f.targetDb && r.mysqlCredentials == f.mysqlCredentials
              && r.targetCredentials == SetField(f.targetCredentials, name[|"target_"|..], Str(value))
    // every other name is ignored
    ensures !StartsWith(name, "mysql_") && !StartsWith(name, "target_") ==> r == f
    ensures ShapeMatches(f) ==> ShapeMatches(r)
    // an input the page renders for the current shape keeps the shape's fields exact
    ensures ShapeKeysExact(f.targetCredentials)
            && (StartsWith(name, "target_") && name != "target_db" && !StartsWith(name, "mysql_")
                ==> name[|"target_"|..] in f.targetCredentials.fields)
            ==> ShapeKeysExact(r.targetCredentials)
  {
    assert StartsWith(name, "mysql_") ==> name[0] == 'm';
    assert StartsWith(name, "target_") ==> name[0] == 't';
    if StartsWith(name, "mysql_") then
      f.(mysqlCredentials := f.mysqlCredentials[name[|"mysql_"|..] := Str(value)])
    else if name == "target_db" then
      f.(targetDb := value, targetCredentials := DefaultsFor(value))
    else if StartsWith(name, "target_") then
      f.(targetCredentials := SetField(f.targetCredentials, name[|"target_"|..], Str(value)))
    else
      f
  }

  /** Selecting a document target and then the relational one again leaves
      exactly the relational defaults: no document field survives. */
  lemma SwitchBackRestoresRelationalDefaults(f: FormData)
    ensures Edit(Edit(f, "target_db", "mongodb"), "target_db", "postgresql").targetCredentials
            == Relational(RelationalDefaults())
    ensures "uri" !in Edit(Edit(f, "target_db", "mongodb"), "target_db", "postgresql").targetCredentials.fields
  {
    assert "uri" !in RelationalKeys;
  }

  /** The body `JSON.stringify(formData)` sends to /api/transfer. */
  function Payload(f: FormData): (j: Json)
    ensures j.JObj? && j.members.Keys == {"target_db", "mysql_credentials", "target_credentials"}
    ensures j.members["target_db"] == JStr(f.targetDb)
    ensures j.members["mysql_credentials"] == FieldsJson(f.mysqlCredentials)
    ensures j.members["target_credentials"] == FieldsJson(f.targetCredentials.fields)
  {
    JObj(map["target_db" := JStr(f.targetDb),
             "mysql_credentials" := FieldsJson(f.mysqlCredentials),
             "target_credentials" := FieldsJson(f.targetCredentials.fields)])
  }

  /** A document-shaped target sends exactly `uri` and `database`. */
  lemma DocumentPayloadHasOnlyDocumentKeys(f: FormData)
    requires f.targetCredentials.Document? && ShapeKeysExact(f.targetCredentials)
    ensures Payload(f).members["target_credentials"].members.Keys == {"uri", "database"}
    ensures "host" !in Payload(f).members["target_credentials"].members
  {
  }

  /** `getTargetPort`: the default port of the selected target. */
  function TargetPort(f: FormData): (port: nat)
    ensures port == 5432 || port == 27017
    ensures port == 27017 <==> f.targetDb == "mongodb"
  {
    if f.targetDb == "postgresql" then 5432
    else if f.targetDb == "mongodb" then 27017
    else 5432
  }

  /** The page's six state cells and the one auto-hide timer its effect keeps. */
  class MigrateForm {
    var formData: FormData
    var loading: bool
    var result: Json          // JNull is the JavaScript null
    var error: Option<string>
    var showError: bool
    var showSuccess: bool
    /** The id of the auto-hide timer currently scheduled, if any. */
    var timer: Option<nat>
    /** Timers scheduled so far; they got the ids 0, 1, ... */
    var timersScheduled: nat

    ghost predicate Valid()
      reads this
    {
      && ShapeMatches(formData)
      && !(showSuccess && showError)
      && (timer.Some? <==> showSuccess || showError)
      && (timer.Some? ==> timer.value < timersScheduled)
      && (showSuccess ==> error.None?)
      && (showError ==> error.Some?)
      && (error.Some? ==> result.JNull?)
      && (loading ==> result.JNull? && error.None? && !showSuccess && !showError)
    }

    constructor ()
      ensures Valid()
      ensures formData == InitialForm()
      ensures !loading && result.JNull? && error.None? && !showError && !showSuccess
      ensures timer.None? && timersScheduled == 0
    {
      formData := InitialForm();
      loading, result, error := false, JNull, None;
      showError, showSuccess := false, false;
      timer, timersScheduled := None, 0;
    }

    /** `handleInputChange`: route the input by name. */
    method HandleInputChange(name: string, value: string)
      requires Valid()
      modifies this
      ensures Valid()
      ensures formData == Edit(old(formData), name, value)
      ensures loading == old(loading) && result == old(result) && error == old(error)
      ensures showError == old(showError) && showSuccess == old(showSuccess)
      ensures timer == old(timer) && timersScheduled == old(timersScheduled)
    {
      if StartsWith(name, "mysql_") {
        var field := name[|"mysql_"|..];
        formData := formData.(mysqlCredentials := formData.mysqlCredentials[field := Str(value)]);
        return;
      }
      if name == "target_db" {
        formData := formData.(targetDb := value, targetCredentials := DefaultsFor(value));
        return;
      }
      if StartsWith(name, "target_") {
        var field := name[|"target_"|..];
        formData := formData.(targetCredentials := SetField(formData.targetCredentials, field, Str(value)));
        return;
      }
    }

    /** The synchronous part of `handleSubmit`, up to the request it sends;
        the effect's cleanup then cancels any scheduled auto-hide timer. */
    method HandleSubmit() returns (body: Json)
      requires Valid()
      modifies this
      ensures Valid()
      ensures body == Payload(formData) && formData == old(formData)
      ensures loading && result.JNull? && error.None? && !showError && !showSuccess
      ensures timer.None? && timersScheduled == old(timersScheduled)
    {
      loading := true;
      error := None;
      result := JNull;
      showError := false;
      showSuccess := false;
      timer := None;
      body := Payload(formData);
    }

    /** The request settles: exactly one banner appears, loading ends, and
        the effect schedules a fresh auto-hide timer. */
    method Settle(s: Settlement)
      requires Valid() && loading
      modifies this
      ensures Valid()
      ensures !loading && formData == old(formData)
      ensures showSuccess != showError
      ensures showSuccess <==> s.Responded? && s.ok
      ensures showSuccess ==> result == s.data && error.None?
      ensures showError ==> error == Some(Outcome(s, MigrateFallback).error) && result.JNull?
      ensures timer.Some? && timer.value == old(timersScheduled) && timersScheduled == old(timersScheduled) + 1
    {
      var id := timersScheduled;
      assert result.JNull? && error.None?;
      var outcome := Outcome(s, MigrateFallback);
      if outcome.Success? {
        result := outcome.value;
        showSuccess := true;
      } else {
        error := Some(outcome.error);
        showError := true;
      }
      loading := false;
      timer := Some(id);
      timersScheduled := id + 1;
    }

    /** Timer `id` reaches its 5000 ms. Only the scheduled timer runs its
        callback; a cancelled one does nothing. */
    method TimerFires(id: nat)
      requires Valid()
      modifies this
      ensures Valid()
      ensures old(timer) == Some(id) ==> !showSuccess && !showError && timer.None?
      ensures old(timer) != Some(id) ==>
                showSuccess == old(showSuccess) && showError == old(showError) && timer == old(timer)
      ensures formData == old(formData) && loading == old(loading)
      ensures result == old(result) && error == old(error) && timersScheduled == old(timersScheduled)
    {
      if timer == Some(id) {
        showSuccess := false;
        showError := false;
        timer := None;
      }
    }
  }

  /** Two submissions in a row: the timer scheduled for the first banner,
      should it fire late, does not hide the second banner. */
  method StaleTimerKeepsNewBanner(first: Settlement, second: Settlement) returns (visible: bool)
    ensures visible
  {
    var form := new MigrateForm();
    var _ := form.HandleSubmit();
    form.Settle(first);
    var stale := form.timer.value;
    var _ := form.HandleSubmit();
    form.Settle(second);
    form.TimerFires(stale);
    visible := form.showSuccess || form.showError;
  }
}
