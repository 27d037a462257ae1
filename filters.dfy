/**
 * Query filters as the conference query form carries them: a field name, an
 * operator and a dynamically typed value, and the rule every datastore query
 * must keep — at most one field may carry an inequality operator.
 */
module Filters {
  import opened Wrappers
  import opened Dates

  const EQ: string := "="
  const LT: string := "<"
  const GT: string := ">"
  const LTE: string := "<="
  const GTE: string := ">="
  /** Not-equal, which only the search index understands; its definition is not part of this model and "!=" is assumed. */
  const NE: string := "!="

  /** The field names a form may filter on. */
  const FieldName: string := "Name"
  const FieldCity: string := "City"
  const FieldTopics: string := "Topics"
  const FieldStartDate: string := "StartDate"
  const FieldEndDate: string := "EndDate"
  const FieldMonth: string := "Month"
  const FieldMaxAttendees: string := "MaxAttendees"

  /**
   * A filter value (`interface{}`): what JSON decoding yields (a string, a
   * float64 number, a boolean, null, an array or object) or what the service
   * puts there itself (an int, a time).
   */
  datatype Value =
    | Str(s: string)
    | Int(i: int)
    | Date(t: Time)
    | Number(x: real)
    | Bool(b: bool)
    | Null
    | Composite   // a JSON array or object, whose contents the core never inspects

  datatype Filter = Filter(field: string, op: string, value: Value)

  /** Every operator other than "=" is an inequality, "!=" included. */
  predicate IsInequality(f: Filter) {
    f.op != EQ
  }

  /** Two inequality filters name different fields: the datastore cannot run such a query. */
  ghost predicate Conflicting(fs: seq<Filter>) {
    exists i, j :: 0 <= i < j < |fs| && IsInequality(fs[i]) && IsInequality(fs[j]) && fs[i].field != fs[j].field
  }

  /** The filter at `j` is an inequality on a different field than some earlier inequality. */
  ghost predicate ConflictAt(fs: seq<Filter>, j: int)
    requires 0 <= j < |fs|
  {
    IsInequality(fs[j]) && exists i :: 0 <= i < j && IsInequality(fs[i]) && fs[i].field != fs[j].field
  }

  /** The last inequality filter of the list, if there is one. */
  function LastInequality(fs: seq<Filter>): (r: Option<Filter>)
    ensures r.None? <==> forall i :: 0 <= i < |fs| ==> !IsInequality(fs[i])
    ensures r.Some? ==> exists i :: 0 <= i < |fs| && fs[i] == r.value && IsInequality(fs[i])
                          && forall j :: i < j < |fs| ==> !IsInequality(fs[j])
  {
    if |fs| == 0 then None
    else if IsInequality(fs[|fs| - 1]) then Some(fs[|fs| - 1])
    else
      var r := LastInequality(fs[..|fs| - 1]);
      assert forall i :: 0 <= i < |fs| - 1 ==> fs[..|fs| - 1][i] == fs[i];
      r
  }

  /** Without a conflict, every inequality filter is on the field of the last one. */
  lemma CommonInequalityField(fs: seq<Filter>)
    requires !Conflicting(fs) && LastInequality(fs).Some?
    ensures forall i :: 0 <= i < |fs| && IsInequality(fs[i]) ==> fs[i].field == LastInequality(fs).value.field
  {
    var last := LastInequality(fs).value;
    var k :| 0 <= k < |fs| && fs[k] == last && IsInequality(fs[k]) && forall j :: k < j < |fs| ==> !IsInequality(fs[j]);
    forall i | 0 <= i < |fs| && IsInequality(fs[i])
      ensures fs[i].field == last.field
    {
      if i < k {
        assert !(IsInequality(fs[i]) && IsInequality(fs[k]) && fs[i].field != fs[k].field);
      }
    }
  }

  /** When the last inequality so far names another field than the filter at `n`, that filter conflicts. */
  lemma ConflictHere(fs: seq<Filter>, n: int)
    requires 0 <= n < |fs| && IsInequality(fs[n])
    requires LastInequality(fs[..n]).Some? && LastInequality(fs[..n]).value.field != fs[n].field
    ensures ConflictAt(fs, n) && Conflicting(fs)
  {
    var i :| 0 <= i < n && fs[..n][i] == LastInequality(fs[..n]).value && IsInequality(fs[..n][i])
              && forall j :: i < j < n ==> !IsInequality(fs[..n][j]);
    assert fs[i] == fs[..n][i];
  }

  /** Any number of inequality filters on one and the same field is no conflict. */
  lemma SameFieldInequalitiesAccepted(fs: seq<Filter>, field: string)
    requires forall i :: 0 <= i < |fs| && IsInequality(fs[i]) ==> fs[i].field == field
    ensures !Conflicting(fs)
  {
  }
}
