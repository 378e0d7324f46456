/** The target recommendation (server/app/services/recommender.py): from the
    analysed tables and foreign keys to "postgresql" or "mongodb" with an
    explanation. The ratio tests `relationships / tables > 0.3` and `> 0.1`
    are written as the equivalent integer tests. */
module Recommender {
  import opened Wrappers
  import opened Text
  import opened Schema

  datatype Recommendation = Recommendation(recommendation: string, explanation: string)

  /** Types that make a column a large or unstructured object. */
  const LargeObjectTypes: seq<string> := ["CLOB", "BLOB", "LONG", "RAW", "LONG RAW", "JSON"]

  /** Types counted as advanced: the large objects plus ARRAY and OBJECT. */
  const AdvancedTypes: seq<string> := LargeObjectTypes + ["ARRAY", "OBJECT"]

  predicate IsLargeObject(t: string) { t in LargeObjectTypes }

  predicate IsAdvanced(t: string) { t in AdvancedTypes }

  /** `rel_ratio > 0.3` */
  predicate HighlyRelational(tableCount: nat, relationshipCount: nat) {
    10 * relationshipCount > 3 * tableCount
  }

  /** `rel_ratio > 0.1` */
  predicate SomewhatRelational(tableCount: nat, relationshipCount: nat) {
    10 * relationshipCount > tableCount
  }

  lemma MulMonotonic(x: real, y: real, t: real)
    requires t > 0.0 && x > y
    ensures x * t > y * t
  {}

  lemma {:induction false} DivAbove(r: real, t: real, c: real)
    requires t > 0.0
    ensures r / t > c <==> r > c * t
  {
    var q := r / t;
    assert q * t == r;
    if q > c { MulMonotonic(q, c, t); }
    if r > c * t && q < c { MulMonotonic(c, q, t); }
  }

  /** For a positive table count, the integer tests agree with the source's
      real-valued ratio `len(relationships) / len(tables)`. */
  lemma {:induction false} RatioTests(tableCount: nat, relationshipCount: nat)
    requires tableCount > 0
    ensures HighlyRelational(tableCount, relationshipCount)
            <==> (relationshipCount as real) / (tableCount as real) > 0.3
    ensures SomewhatRelational(tableCount, relationshipCount)
            <==> (relationshipCount as real) / (tableCount as real) > 0.1
  {
    DivAbove(relationshipCount as real, tableCount as real, 0.3);
    DivAbove(relationshipCount as real, tableCount as real, 0.1);
  }

  /** Whether some column among the first `n` of `cols` has an advanced type. */
  predicate AdvancedIn(cols: seq<ColumnInfo>) {
    exists j :: 0 <= j < |cols| && IsAdvanced(cols[j].sqlType)
  }

  /** The `uses_advanced_types` flag over all tables. */
  predicate UsesAdvancedTypes(tables: seq<TableInfo>) {
    exists i :: 0 <= i < |tables| && AdvancedIn(tables[i].columns)
  }

  /** The position of the first large-object column of `cols`. */
  function FirstLargeColumn(cols: seq<ColumnInfo>): (r: Option<nat>)
    ensures r.Some? ==> r.value < |cols| && IsLargeObject(cols[r.value].sqlType)
    ensures r.Some? ==> forall j :: 0 <= j < r.value ==> !IsLargeObject(cols[j].sqlType)
    ensures r.None? ==> forall j :: 0 <= j < |cols| ==> !IsLargeObject(cols[j].sqlType)
    decreases |cols|
  {
    if |cols| == 0 then None
    else match FirstLargeColumn(cols[..|cols| - 1])
      case Some(j) => Some(j)
      case None => if IsLargeObject(cols[|cols| - 1].sqlType) then Some(|cols| - 1) else None
  }

  /** The first large-object column in table-then-column order, as
      (table index, column index). */
  function FirstLargeObject(tables: seq<TableInfo>): (r: Option<(nat, nat)>)
    ensures r.Some? ==> r.value.0 < |tables| && r.value.1 < |tables[r.value.0].columns|
    ensures r.Some? ==> FirstLargeColumn(tables[r.value.0].columns) == Some(r.value.1)
    ensures r.Some? ==> forall i :: 0 <= i < r.value.0 ==> FirstLargeColumn(tables[i].columns).None?
    ensures r.None? ==> forall i :: 0 <= i < |tables| ==> FirstLargeColumn(tables[i].columns).None?
    decreases |tables|
  {
    if |tables| == 0 then None
    else
      var n := |tables| - 1;
      assert forall i :: 0 <= i < n ==> tables[..n][i] == tables[i];
      match FirstLargeObject(tables[..n])
      case Some(p) => Some(p)
      case None =>
        match FirstLargeColumn(tables[n].columns)
        case Some(j) => Some((n, j))
        case None => None
  }

  const NoTables: string := "No tables found, defaulting to PostgreSQL."
  const HighlyRelationalAdvanced: string :=
    "Schema is highly relational but uses advanced types (e.g., JSON, arrays, objects), so PostgreSQL is a better fit."
  const FewRelationships: string :=
    "Few relationships and no large object columns detected, so MongoDB is a good fit."

  function HighlyRelationalPlain(relationshipCount: nat, tableCount: nat): string {
    "Schema is highly relational (" + NatToString(relationshipCount) + " relationships for "
    + NatToString(tableCount) + " tables). PostgreSQL is a good fit."
  }

  function LargeObjectFound(table: string, sqlType: string): string {
    "Table " + table + " has unstructured or large object columns (" + sqlType + ")."
  }

  function SomeRelationships(relationshipCount: nat, advanced: bool): string {
    if advanced then
      "Some relationships detected (" + NatToString(relationshipCount) + "), and schema uses advanced types, so PostgreSQL is a better fit."
    else
      "Some relationships detected (" + NatToString(relationshipCount) + "). PostgreSQL is a good fit."
  }

  /** What `recommend` returns for the analysed tables and relationships. */
  function Recommended(tables: seq<TableInfo>, relationships: seq<Relationship>): (r: Recommendation)
    ensures r.recommendation == "postgresql" || r.recommendation == "mongodb"
    ensures |tables| == 0 ==> r.recommendation == "postgresql" && r.explanation == NoTables
  {
    if |tables| == 0 then Recommendation("postgresql", NoTables)
    else if HighlyRelational(|tables|, |relationships|) then
      if UsesAdvancedTypes(tables) then Recommendation("postgresql", HighlyRelationalAdvanced)
      else Recommendation("postgresql", HighlyRelationalPlain(|relationships|, |tables|))
    else match FirstLargeObject(tables)
      case Some((i, j)) =>
        Recommendation("mongodb", LargeObjectFound(tables[i].name, tables[i].columns[j].sqlType))
      case None =>
        if SomewhatRelational(|tables|, |relationships|) then
          Recommendation("postgresql", SomeRelationships(|relationships|, UsesAdvancedTypes(tables)))
        else Recommendation("mongodb", FewRelationships)
  }

  /** The scan that sets `uses_advanced_types` (recommender.py:21-25 and 51-55). */
  method ScanAdvancedTypes(tables: seq<TableInfo>) returns (usesAdvancedTypes: bool)
    ensures usesAdvancedTypes <==> UsesAdvancedTypes(tables)
  {
    usesAdvancedTypes := false;
    for i := 0 to |tables|
      invariant usesAdvancedTypes <==> exists i' :: 0 <= i' < i && AdvancedIn(tables[i'].columns)
    {
      var columns := tables[i].columns;
      ghost var before := usesAdvancedTypes;
      for j := 0 to |columns|
        invariant usesAdvancedTypes <==> before || exists j' :: 0 <= j' < j && IsAdvanced(columns[j'].sqlType)
      {
        if IsAdvanced(columns[j].sqlType) {
          usesAdvancedTypes := true;
        }
      }
    }
  }

  /** `Recommender(analysis).recommend()`. */
  method Recommend(analysis: Analysis) returns (r: Recommendation)
    ensures r == Recommended(analysis.tables, analysis.relationships)
  {
    var tables, relationships := analysis.tables, analysis.relationships;
    if |tables| == 0 {
      return Recommendation("postgresql", NoTables);
    }
    if HighlyRelational(|tables|, |relationships|) {
      var usesAdvancedTypes := ScanAdvancedTypes(tables);
      if usesAdvancedTypes {
        return Recommendation("postgresql", HighlyRelationalAdvanced);
      } else {
        return Recommendation("postgresql", HighlyRelationalPlain(|relationships|, |tables|));
      }
    }
    for i := 0 to |tables|
      invariant forall i' :: 0 <= i' < i ==> FirstLargeColumn(tables[i'].columns).None?
    {
      var columns := tables[i].columns;
      for j := 0 to |columns|
        invariant forall j' :: 0 <= j' < j ==> !IsLargeObject(columns[j'].sqlType)
      {
        if IsLargeObject(columns[j].sqlType) {
          FirstLargeObjectAt(tables, i, j);
          return Recommendation("mongodb", LargeObjectFound(tables[i].name, columns[j].sqlType));
        }
      }
      FirstLargeColumnNone(columns);
    }
    FirstLargeObjectNone(tables);
    if SomewhatRelational(|tables|, |relationships|) {
      var usesAdvancedTypes := ScanAdvancedTypes(tables);
      return Recommendation("postgresql", SomeRelationships(|relationships|, usesAdvancedTypes));
    } else {
      return Recommendation("mongodb", FewRelationships);
    }
  }

  /** A large-object column preceded by none is the first one. */
  lemma FirstLargeColumnAt(cols: seq<ColumnInfo>, j: nat)
    requires j < |cols| && IsLargeObject(cols[j].sqlType)
    requires forall j' :: 0 <= j' < j ==> !IsLargeObject(cols[j'].sqlType)
    ensures FirstLargeColumn(cols) == Some(j)
  {
  }

  lemma FirstLargeColumnNone(cols: seq<ColumnInfo>)
    requires forall j :: 0 <= j < |cols| ==> !IsLargeObject(cols[j].sqlType)
    ensures FirstLargeColumn(cols).None?
  {
  }

  /** A large-object column in a table, preceded by none in that table or in
      any earlier table, is the first one overall. */
  lemma FirstLargeObjectAt(tables: seq<TableInfo>, i: nat, j: nat)
    requires i < |tables| && j < |tables[i].columns| && IsLargeObject(tables[i].columns[j].sqlType)
    requires forall j' :: 0 <= j' < j ==> !IsLargeObject(tables[i].columns[j'].sqlType)
    requires forall i' :: 0 <= i' < i ==> FirstLargeColumn(tables[i'].columns).None?
    ensures FirstLargeObject(tables) == Some((i, j))
  {
  }

  lemma FirstLargeObjectNone(tables: seq<TableInfo>)
    requires forall i :: 0 <= i < |tables| ==> FirstLargeColumn(tables[i].columns).None?
    ensures FirstLargeObject(tables).None?
  {
  }

  /** A schema with more than 0.3 relationships per table gets PostgreSQL,
      whatever its column types. */
  lemma {:induction false} HighlyRelationalGetsPostgres(tables: seq<TableInfo>, relationships: seq<Relationship>)
    requires |tables| > 0
    requires (|relationships| as real) / (|tables| as real) > 0.3
    ensures Recommended(tables, relationships).recommendation == "postgresql"
  {
    RatioTests(|tables|, |relationships|);
  }

  /** At most 0.3 relationships per table and a large-object column: MongoDB,
      explained by the first such column in table-then-column order. */
  lemma {:induction false} LargeObjectGetsMongo(tables: seq<TableInfo>, relationships: seq<Relationship>, i: nat, j: nat)
    requires |tables| > 0
    requires (|relationships| as real) / (|tables| as real) <= 0.3
    requires i < |tables| && j < |tables[i].columns| && IsLargeObject(tables[i].columns[j].sqlType)
    requires forall j' :: 0 <= j' < j ==> !IsLargeObject(tables[i].columns[j'].sqlType)
    requires forall i', j' :: 0 <= i' < i && 0 <= j' < |tables[i'].columns| ==> !IsLargeObject(tables[i'].columns[j'].sqlType)
    ensures Recommended(tables, relationships)
            == Recommendation("mongodb", LargeObjectFound(tables[i].name, tables[i].columns[j].sqlType))
  {
    RatioTests(|tables|, |relationships|);
    forall i' | 0 <= i' < i ensures FirstLargeColumn(tables[i'].columns).None? {
      FirstLargeColumnNone(tables[i'].columns);
    }
    FirstLargeObjectAt(tables, i, j);
  }

  /** Without large-object columns (ARRAY and OBJECT do not count as such)
      the answer is MongoDB exactly when there are at most 0.1 relationships
      per table. */
  lemma {:induction false} NoLargeObjectDecidedByRatio(tables: seq<TableInfo>, relationships: seq<Relationship>)
    requires |tables| > 0
    requires forall i, j :: 0 <= i < |tables| && 0 <= j < |tables[i].columns| ==> !IsLargeObject(tables[i].columns[j].sqlType)
    ensures Recommended(tables, relationships).recommendation == "mongodb"
            <==> (|relationships| as real) / (|tables| as real) <= 0.1
    ensures Recommended(tables, relationships).recommendation == "mongodb"
            ==> Recommended(tables, relationships).explanation == FewRelationships
  {
    RatioTests(|tables|, |relationships|);
    forall i | 0 <= i < |tables| ensures FirstLargeColumn(tables[i].columns).None? {
      FirstLargeColumnNone(tables[i].columns);
    }
    FirstLargeObjectNone(tables);
  }
}
