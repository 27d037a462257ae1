/**
 * Conference queries (query.go): the query form that collects filters, the
 * check that at most one field carries an inequality, the datastore query it
 * plans (sort orders and one clause per filter), and the key list behind the
 * conferences a user attends.
 */
module Query {
  import opened Wrappers
  import opened Errors
  import opened Store
  import opened Filters

  /** One datastore filter clause: "Field Op" and the value it compares with. */
  datatype QueryFilter = QueryFilter(expr: string, value: Value)

  /** A datastore query: its kind, sort orders in priority order, and filter clauses in order. */
  datatype DatastoreQuery = DatastoreQuery(kind: string, orders: seq<string>, filters: seq<QueryFilter>)

  const TooManyInequalities: StatusError := ErrBadRequest(None, "only one inequality filter is allowed")

  /** The inequality a query is ordered by: the last one of the list, else whatever the form already held. */
  function PlannedInequality(filters: seq<Filter>, held: Option<Filter>): Option<Filter> {
    if LastInequality(filters).Some? then LastInequality(filters) else held
  }

  class ConferenceQueryForm {
    var filters: seq<Filter>
    var inequalityFilter: Option<Filter>

    constructor (filters: seq<Filter>)
      ensures this.filters == filters && inequalityFilter.None?
    {
      this.filters := filters;
      inequalityFilter := None;
    }

    /** The copy a value receiver works on. */
    constructor Copy(q: ConferenceQueryForm)
      ensures filters == q.filters && inequalityFilter == q.inequalityFilter
    {
      filters := q.filters;
      inequalityFilter := q.inequalityFilter;
    }

    /** `Filter`: appends one filter at the end and returns the form itself. */
    method AddFilter(field: string, op: string, value: Value) returns (q: ConferenceQueryForm)
      modifies this
      ensures q == this
      ensures filters == old(filters) + [Filter(field, op, value)]
      ensures inequalityFilter == old(inequalityFilter)
    {
      filters := filters + [Filter(field, op, value)];
      return this;
    }

    /**
     * `CheckFilters`: fails exactly when two inequality filters name different
     * fields. On success the form holds the last inequality filter, or keeps
     * what it held when there is none; on failure it holds the last inequality
     * before the first conflicting filter.
     */
    method CheckFilters() returns (err: Option<Error>)
      modifies this
      ensures filters == old(filters)
      ensures err.Some? <==> Conflicting(filters)
      ensures err.Some? ==> err.value == Status(TooManyInequalities)
      ensures err.None? ==> inequalityFilter == PlannedInequality(filters, old(inequalityFilter))
      ensures err.Some? ==> exists j :: 0 <= j < |filters| && ConflictAt(filters, j) && !Conflicting(filters[..j])
                                        && inequalityFilter == LastInequality(filters[..j])
    {
      var found := false;
      var n := 0;
      while n < |filters|
        invariant 0 <= n <= |filters|
        invariant filters == old(filters)
        invariant !Conflicting(filters[..n])
        invariant found <==> LastInequality(filters[..n]).Some?
        invariant inequalityFilter == if found then LastInequality(filters[..n]) else old(inequalityFilter)
      {
        var filter := filters[n];
        assert filters[..n + 1][..n] == filters[..n];
        if filter.op != EQ {
          if found && filter.field != inequalityFilter.value.field {
            ConflictHere(filters, n);
            return Some(Status(TooManyInequalities));
          }
          if found {
            CommonInequalityField(filters[..n]);
          }
          found := true;
          inequalityFilter := Some(filter);
        }
        n := n + 1;
      }
      assert filters[..n] == filters;
      return None;
    }

    /**
     * `Query` (value receiver: the form itself is left as it was). Returns the
     * check's error and no query when the filters conflict; otherwise a query
     * on "Conference" ordered first by the inequality field, if any, then by
     * name, with one "Field Op" clause per filter in filter order.
     */
    method Query() returns (r: Result<DatastoreQuery, Error>)
      ensures r.Failure? <==> Conflicting(filters)
      ensures r.Failure? ==> r.error == Status(TooManyInequalities)
      ensures r.Success? ==> r.value.kind == "Conference"
      ensures r.Success? ==>
                (r.value.orders == if PlannedInequality(filters, inequalityFilter).Some?
                                   then [PlannedInequality(filters, inequalityFilter).value.field, FieldName]
                                   else [FieldName])
      ensures r.Success? && inequalityFilter.None? ==>
                (r.value.orders == [FieldName] <==> forall i :: 0 <= i < |filters| ==> !IsInequality(filters[i]))
      ensures r.Success? ==> |r.value.filters| == |filters|
      ensures r.Success? ==> forall i :: 0 <= i < |filters| ==>
                r.value.filters[i] == QueryFilter(filters[i].field + " " + filters[i].op, filters[i].value)
    {
      var q := new ConferenceQueryForm.Copy(this);
      var err := q.CheckFilters();
      if err.Some? {
        return Failure(err.value);
      }
      var query := DatastoreQuery("Conference", [], []);
      if q.inequalityFilter.Some? {
        query := query.(orders := query.orders + [q.inequalityFilter.value.field]);
      }
      query := query.(orders := query.orders + [FieldName]);
      ghost var planned := query;
      var n := 0;
      while n < |q.filters|
        invariant 0 <= n <= |q.filters| && q.filters == filters
        invariant query.kind == planned.kind && query.orders == planned.orders
        invariant |query.filters| == n
        invariant forall i :: 0 <= i < n ==>
                    query.filters[i] == QueryFilter(filters[i].field + " " + filters[i].op, filters[i].value)
      {
        var filter := q.filters[n];
        query := query.(filters := query.filters + [QueryFilter(filter.field + " " + filter.op, filter.value)]);
        n := n + 1;
      }
      return Success(query);
    }
  }

  /** The keys of the conferences a profile is registered to: one per registration, in order, under the profile's key. */
  function AttendedKeys(pid: string, ids: seq<int>): (keys: seq<Key>)
    ensures |keys| == |ids|
    ensures forall i :: 0 <= i < |ids| ==> keys[i].parent == pid && keys[i].id == ids[i]
  {
    seq(|ids|, i requires 0 <= i < |ids| => Key(pid, ids[i]))
  }

  /**
   * `ConferencesToAttend`, in the version whose profiles list numeric
   * conference ids (`registrations` maps a profile's key name to that list; a
   * profile that was never stored has none). Without a user: ErrUnauthorized.
   * A failing profile read (`readFails`) returns the datastore's error. With no
   * registration: an empty list, whatever the store holds. Otherwise one
   * key per registration, in order, fetched together: every conference in the
   * order of the registrations with its websafe key set, or the missing-entity
   * error when any of them is gone.
   */
  method ConferencesToAttend(user: Option<User>, registrations: map<string, seq<int>>,
                             conferences: map<Key, Conference>, codec: KeyCodec, readFails: bool)
    returns (r: Result<seq<Conference>, Error>)
    ensures user.None? ==> r == Failure(Status(ErrUnauthorized))
    ensures user.Some? && readFails ==> r == Failure(Service(Unavailable))
    ensures user.Some? && !readFails && (user.value.name !in registrations || registrations[user.value.name] == []) ==> r == Success([])
    ensures user.Some? && !readFails ==>
              (r.Success? <==> forall k :: k in AttendedKeys(user.value.name, Registered(registrations, user.value)) ==> k in conferences)
    ensures user.Some? && !readFails && r.Failure? ==> r.error == Service(NoSuchEntity)
    ensures r.Success? ==> user.Some? && !readFails && |r.value| == |Registered(registrations, user.value)|
    ensures r.Success? ==> forall i :: 0 <= i < |r.value| ==>
              var k := Key(user.value.name, Registered(registrations, user.value)[i]);
              k in conferences && r.value[i] == conferences[k].(websafeKey := codec.encode(k))
  {
    if user.None? {
      return Failure(Status(ErrUnauthorized));
    }
    var pid := user.value.name;
    if readFails {
      return Failure(Service(Unavailable));
    }
    var ids := Registered(registrations, user.value);
    if |ids| == 0 {
      return Success([]);
    }
    var keys: seq<Key> := [];
    var n := 0;
    while n < |ids|
      invariant 0 <= n <= |ids| && keys == AttendedKeys(pid, ids[..n])
    {
      keys := keys + [Key(pid, ids[n])];
      n := n + 1;
    }
    assert ids[..n] == ids;
    var items: seq<Conference> := [];
    n := 0;
    while n < |keys|
      invariant 0 <= n <= |keys| && |items| == n
      invariant forall i :: 0 <= i < n ==> keys[i] in conferences && items[i] == conferences[keys[i]].(websafeKey := codec.encode(keys[i]))
    {
      if keys[n] !in conferences {
        return Failure(Service(NoSuchEntity));
      }
      items := items + [conferences[keys[n]].(websafeKey := codec.encode(keys[n]))];
      n := n + 1;
    }
    return Success(items);
  }

  /** The registration list of the user's profile; empty when the profile was never stored. */
  function Registered(registrations: map<string, seq<int>>, u: User): seq<int> {
    if u.name in registrations then registrations[u.name] else []
  }
}
