/**
 * The older data model (model.go), kept apart from the current one: decoding a
 * query filter from JSON with field-dependent coercion of its value, the older
 * copy of the query form (whose filter conflict is a 403), the conference form
 * with comma-separated topics and short dates, and a profile that lists the
 * numeric ids of the conferences it is registered to.
 */
module Model {
  import opened Wrappers
  import opened Lists
  import opened Numbers
  import opened Dates
  import opened Errors
  import opened Filters

  // ---------------------------------------------------------------------------
  // Decoding a filter

  /** Go's conversion of a float64 to an int: the fraction is dropped, toward zero. */
  function Truncate(x: real): (n: int)
    ensures 0.0 <= x ==> 0 <= n && n as real <= x < n as real + 1.0
    ensures x < 0.0 ==> n <= 0 && n as real - 1.0 < x <= n as real
  {
    if x >= 0.0 then x.Floor else -((-x).Floor)
  }

  /** How `UnmarshalJSON` ends: no error, a returned error, or a failed type assertion. */
  datatype Decoding = Decoded | Rejected(error: StatusError) | Panicked

  /** The outcome of `UnmarshalJSON` and the filter's fields as it leaves them. */
  datatype Unmarshalled = Unmarshalled(outcome: Decoding, filter: Filter)

  /** `time.Parse` with one layout and then the other; its result on failure is the zero time. */
  function ParseDate(v: string, cal: Calendar): Result<Time, string> {
    var first := cal.parse(RFC3339, v);
    if first.Success? then first else cal.parse(ShortDate, v)
  }

  /**
   * What `UnmarshalJSON` does with the filter `f`, given what `json.Unmarshal`
   * made of the text as a map (a failure carries the decoder's error text; a
   * JSON null gives the empty map). A missing "value" member is the nil interface.
   */
  function Unmarshal(f: Filter, data: Result<map<string, Value>, string>, cal: Calendar): Unmarshalled {
    if data.Failure? then
      Unmarshalled(Rejected(ErrBadRequest(Some(LibraryCause(data.error)), "unable to parse filter")), f)
    else
      var m := data.value;
      if |m| != 3 then Unmarshalled(Rejected(ErrBadRequest(None, "unable to parse filter")), f)
      else if "field" !in m || !m["field"].Str? then Unmarshalled(Panicked, f)
      else
        var f1 := f.(field := m["field"].s);
        if "op" !in m || !m["op"].Str? then Unmarshalled(Panicked, f1)
        else
          var f2 := f1.(op := m["op"].s, value := if "value" in m then m["value"] else Null);
          if f2.field == FieldMaxAttendees then
            if f2.value.Number? then Unmarshalled(Decoded, f2.(value := Int(Truncate(f2.value.x))))
            else Unmarshalled(Panicked, f2)
          else if f2.field == FieldStartDate || f2.field == FieldEndDate then
            match f2.value
            case Date(_) => Unmarshalled(Decoded, f2)
            case Str(v) =>
              var t := ParseDate(v, cal);
              if t.Success? then Unmarshalled(Decoded, f2.(value := Date(t.value)))
              else Unmarshalled(Rejected(ErrBadRequest(Some(LibraryCause(t.error)), "unable to parse " + f2.field)),
                                f2.(value := Date(ZeroTime)))
            case _ => Unmarshalled(Rejected(ErrBadRequest(None, "unable to parse " + f2.field)), f2)
          else Unmarshalled(Decoded, f2)
  }

  /** The `filter` struct that JSON decoding fills in place. */
  class FilterEntity {
    var field: string
    var op: string
    var value: Value

    /** A zero `filter`: empty strings and a nil value. */
    constructor ()
      ensures Value() == Filter("", "", Null)
    {
      field, op, value := "", "", Null;
    }

    function Value(): Filter
      reads this
    {
      Filter(field, op, value)
    }

    /** `UnmarshalJSON`: assigns the fields one after the other, as far as it gets. */
    method UnmarshalJSON(data: Result<map<string, Value>, string>, cal: Calendar) returns (r: Decoding)
      modifies this
      ensures Unmarshalled(r, Value()) == Unmarshal(old(Value()), data, cal)
    {
      if data.Failure? {
        return Rejected(ErrBadRequest(Some(LibraryCause(data.error)), "unable to parse filter"));
      }
      var m := data.value;
      if |m| != 3 {
        return Rejected(ErrBadRequest(None, "unable to parse filter"));
      }
      if "field" !in m || !m["field"].Str? {
        return Panicked;
      }
      field := m["field"].s;
      if "op" !in m || !m["op"].Str? {
        return Panicked;
      }
      op := m["op"].s;
      value := if "value" in m then m["value"] else Null;
      if field == FieldMaxAttendees {
        if !value.Number? {
          return Panicked;
        }
        value := Int(Truncate(value.x));
      } else if field == FieldStartDate || field == FieldEndDate {
        match value
        case Date(_) =>
        case Str(v) =>
          var t := cal.parse(RFC3339, v);
          value := if t.Success? then Date(t.value) else Date(ZeroTime);
          if t.Failure? {
            t := cal.parse(ShortDate, v);
            value := if t.Success? then Date(t.value) else Date(ZeroTime);
            if t.Failure? {
              return Rejected(ErrBadRequest(Some(LibraryCause(t.error)), "unable to parse " + field));
            }
          }
        case _ =>
          return Rejected(ErrBadRequest(None, "unable to parse " + field));
      }
      return Decoded;
    }
  }

  /** Text that is not JSON, or a JSON object without exactly three members, is a bad request and changes nothing. */
  lemma UnmarshalNeedsThreeMembers(f: Filter, data: Result<map<string, Value>, string>, cal: Calendar)
    requires data.Failure? || |data.value| != 3
    ensures var u := Unmarshal(f, data, cal);
      u.outcome.Rejected? && u.outcome.error.status == StatusBadRequest
      && u.outcome.error.message == "unable to parse filter" && u.filter == f
  {
  }

  /** A well-formed filter object: three members, among them a string "field" and a string "op". */
  predicate WellFormed(m: map<string, Value>) {
    |m| == 3 && "field" in m && m["field"].Str? && "op" in m && m["op"].Str?
  }

  /** A missing or non-string "field" or "op" member makes the type assertion fail. */
  lemma UnmarshalPanicsWithoutStrings(f: Filter, m: map<string, Value>, cal: Calendar)
    requires |m| == 3 && !WellFormed(m)
    ensures Unmarshal(f, Success(m), cal).outcome == Panicked
  {
  }

  /**
   * A date field given as a string is parsed as RFC 3339 and then as a short
   * date; the first success is the value, and when both fail the result is a
   * bad request that names the field.
   */
  lemma UnmarshalDateString(f: Filter, m: map<string, Value>, cal: Calendar, v: string)
    requires WellFormed(m) && (m["field"].s == FieldStartDate || m["field"].s == FieldEndDate)
    requires "value" in m && m["value"] == Str(v)
    ensures var u := Unmarshal(f, Success(m), cal);
      && (u.outcome.Decoded? <==> cal.parse(RFC3339, v).Success? || cal.parse(ShortDate, v).Success?)
      && (cal.parse(RFC3339, v).Success? ==> u.filter.value == Date(cal.parse(RFC3339, v).value))
      && (cal.parse(RFC3339, v).Failure? && cal.parse(ShortDate, v).Success? ==>
            u.filter.value == Date(cal.parse(ShortDate, v).value))
      && (!u.outcome.Decoded? ==>
            (u.outcome.Rejected? && u.outcome.error.status == StatusBadRequest
             && u.outcome.error.message == "unable to parse " + m["field"].s))
  {
  }

  /** A date field whose value is neither a string nor a time is a bad request naming the field. */
  lemma UnmarshalDateOtherwise(f: Filter, m: map<string, Value>, cal: Calendar)
    requires WellFormed(m) && (m["field"].s == FieldStartDate || m["field"].s == FieldEndDate)
    requires "value" !in m || !(m["value"].Str? || m["value"].Date?)
    ensures Unmarshal(f, Success(m), cal).outcome == Rejected(ErrBadRequest(None, "unable to parse " + m["field"].s))
  {
  }

  /** A MaxAttendees value must be a JSON number, which becomes an int with its fraction dropped. */
  lemma UnmarshalMaxAttendees(f: Filter, m: map<string, Value>, cal: Calendar)
    requires WellFormed(m) && m["field"].s == FieldMaxAttendees
    ensures var u := Unmarshal(f, Success(m), cal);
      if "value" in m && m["value"].Number?
      then u.outcome.Decoded? && u.filter.value == Int(Truncate(m["value"].x))
      else u.outcome.Panicked?
  {
  }

  /** The value of any other field is kept as decoded, and the filter takes the object's field and operator. */
  lemma UnmarshalOtherFields(f: Filter, m: map<string, Value>, cal: Calendar)
    requires WellFormed(m) && m["field"].s !in {FieldMaxAttendees, FieldStartDate, FieldEndDate}
    ensures Unmarshal(f, Success(m), cal)
         == Unmarshalled(Decoded, Filter(m["field"].s, m["op"].s, if "value" in m then m["value"] else Null))
  {
  }

  // ---------------------------------------------------------------------------
  // The older query form

  /** The older query form's conflict error: a 403, not a bad request. */
  const InequalityConflict: StatusError := NewError("only one inequality filter is allowed")

  /** A datastore query: kind, sort orders and one "Field Op" clause with its value per filter. */
  datatype DatastoreQuery = DatastoreQuery(kind: string, orders: seq<string>, clauses: seq<(string, Value)>)

  class ConferenceQueryForm {
    var filters: seq<Filter>
    var inequalityFilter: Option<Filter>

    constructor (filters: seq<Filter>)
      ensures this.filters == filters && inequalityFilter.None?
    {
      this.filters := filters;
      inequalityFilter := None;
    }

    constructor Copy(q: ConferenceQueryForm)
      ensures filters == q.filters && inequalityFilter == q.inequalityFilter
    {
      filters := q.filters;
      inequalityFilter := q.inequalityFilter;
    }

    /** `Filter`: one filter more at the end. */
    method AddFilter(field: string, op: string, value: Value) returns (q: ConferenceQueryForm)
      modifies this
      ensures q == this
      ensures filters == old(filters) + [Filter(field, op, value)]
      ensures inequalityFilter == old(inequalityFilter)
    {
      filters := filters + [Filter(field, op, value)];
      return this;
    }

    /** `CheckFilters`: as in the current version, but the conflict is a 403 business-rule error. */
    method CheckFilters() returns (err: Option<StatusError>)
      modifies this
      ensures filters == old(filters)
      ensures err.Some? <==> Conflicting(filters)
      ensures err.Some? ==> err.value == InequalityConflict && err.value.status == StatusForbidden
      ensures err.None? ==> inequalityFilter == if LastInequality(filters).Some? then LastInequality(filters) else old(inequalityFilter)
      ensures err.Some? ==> exists j :: 0 <= j < |filters| && ConflictAt(filters, j) && !Conflicting(filters[..j])
                                        && inequalityFilter == LastInequality(filters[..j])
    {
      var found := false;
      var n := 0;
      while n < |filters|
        invariant 0 <= n <= |filters|
        invariant filters == old(filters)
        invariant !Conflicting(filters[..n])
        invariant found <==> LastInequality(filters[..n]).Some?
        invariant inequalityFilter == if found then LastInequality(filters[..n]) else old(inequalityFilter)
      {
        var filter := filters[n];
        assert filters[..n + 1][..n] == filters[..n];
        if filter.op != EQ {
          if found && filter.field != inequalityFilter.value.field {
            ConflictHere(filters, n);
            return Some(InequalityConflict);
          }
          if found {
            CommonInequalityField(filters[..n]);
          }
          found := true;
          inequalityFilter := Some(filter);
        }
        n := n + 1;
      }
      assert filters[..n] == filters;
      return None;
    }

    /** `Query`, on a copy of the form: the check's error, or the plan ordered by the inequality field and then by name. */
    method Query() returns (r: Result<DatastoreQuery, StatusError>)
      ensures r.Failure? <==> Conflicting(filters)
      ensures r.Failure? ==> r.error == InequalityConflict
      ensures r.Success? ==> r.value.kind == "Conference"
      ensures r.Success? && LastInequality(filters).Some? ==> r.value.orders == [LastInequality(filters).value.field, FieldName]
      ensures r.Success? && LastInequality(filters).None? ==>
                r.value.orders == if inequalityFilter.Some? then [inequalityFilter.value.field, FieldName] else [FieldName]
      ensures r.Success? ==> |r.value.clauses| == |filters|
      ensures r.Success? ==> forall i :: 0 <= i < |filters| ==>
                r.value.clauses[i] == (filters[i].field + " " + filters[i].op, filters[i].value)
    {
      var q := new ConferenceQueryForm.Copy(this);
      var err := q.CheckFilters();
      if err.Some? {
        return Failure(err.value);
      }
      var orders := if q.inequalityFilter.Some? then [q.inequalityFilter.value.field] else [];
      orders := orders + [FieldName];
      var clauses: seq<(string, Value)> := [];
      var n := 0;
      while n < |q.filters|
        invariant 0 <= n <= |q.filters| && q.filters == filters
        invariant |clauses| == n
        invariant forall i :: 0 <= i < n ==> clauses[i] == (filters[i].field + " " + filters[i].op, filters[i].value)
      {
        clauses := clauses + [(q.filters[n].field + " " + q.filters[n].op, q.filters[n].value)];
        n := n + 1;
      }
      return Success(DatastoreQuery("Conference", orders, clauses));
    }
  }

  // ---------------------------------------------------------------------------
  // The older conference form

  /** The older form: topics in one comma-separated string, dates as `2006-01-02`. */
  datatype ConferenceForm = ConferenceForm(
    name: string,
    description: string,
    topics: string,
    city: string,
    startDate: string,
    endDate: string,
    maxAttendees: string)

  /** The older conference: a numeric id and no derived month. */
  datatype Conference = Conference(
    id: int,
    websafeKey: string,
    name: string,
    description: string,
    organizer: string,
    topics: seq<string>,
    city: string,
    startDate: Time,
    endDate: Time,
    maxAttendees: int,
    seatsAvailable: int)

  /**
   * `FromConferenceForm` (older): every date and the attendee count are
   * required; the first one that does not parse is a bad request and there is
   * no conference. On success the text fields are copied, the topics are the
   * comma-separated pieces of the form's string (joining them gives it back),
   * and every seat is free.
   */
  function FromConferenceForm(form: ConferenceForm, cal: Calendar): (r: Result<Conference, StatusError>)
    ensures cal.parse(ShortDate, form.startDate).Failure? ==>
              r == Failure(ErrBadRequest(Some(LibraryCause(cal.parse(ShortDate, form.startDate).error)), "unable to parse start date"))
    ensures cal.parse(ShortDate, form.startDate).Success? && cal.parse(ShortDate, form.endDate).Failure? ==>
              r == Failure(ErrBadRequest(Some(LibraryCause(cal.parse(ShortDate, form.endDate).error)), "unable to parse end date"))
    ensures cal.parse(ShortDate, form.startDate).Success? && cal.parse(ShortDate, form.endDate).Success?
            && Atoi(form.maxAttendees).Failure? ==>
              r == Failure(ErrBadRequest(Some(LibraryCause(Atoi(form.maxAttendees).error)), "unable to parse max attendees"))
    ensures r.Success? <==> cal.parse(ShortDate, form.startDate).Success? && cal.parse(ShortDate, form.endDate).Success?
                            && Atoi(form.maxAttendees).Success?
    ensures r.Success? ==>
              && r.value.name == form.name && r.value.description == form.description && r.value.city == form.city
              && Join(r.value.topics, ',') == form.topics
              && r.value.startDate == cal.parse(ShortDate, form.startDate).value
              && r.value.endDate == cal.parse(ShortDate, form.endDate).value
              && r.value.maxAttendees == Atoi(form.maxAttendees).value
              && r.value.seatsAvailable == r.value.maxAttendees
              && r.value.id == 0 && r.value.websafeKey == "" && r.value.organizer == ""
  {
    var start := cal.parse(ShortDate, form.startDate);
    var end := cal.parse(ShortDate, form.endDate);
    var max := Atoi(form.maxAttendees);
    if start.Failure? then Failure(ErrBadRequest(Some(LibraryCause(start.error)), "unable to parse start date"))
    else if end.Failure? then Failure(ErrBadRequest(Some(LibraryCause(end.error)), "unable to parse end date"))
    else if max.Failure? then Failure(ErrBadRequest(Some(LibraryCause(max.error)), "unable to parse max attendees"))
    else
      JoinSplit(form.topics, ',');
      Success(Conference(0, "", form.name, form.description, "", Split(form.topics, ','), form.city,
                         start.value, end.value, max.value, max.value))
  }

  // ---------------------------------------------------------------------------
  // The older profile

  /** A profile of the older version: its registrations are conference ids, in registration order. */
  class Profile {
    var email: string
    var displayName: string
    var teeShirtSize: Int8
    var conferences: seq<int>

    constructor (email: string, displayName: string, teeShirtSize: Int8, conferences: seq<int>)
      ensures this.email == email && this.displayName == displayName
      ensures this.teeShirtSize == teeShirtSize && this.conferences == conferences
    {
      this.email, this.displayName, this.teeShirtSize, this.conferences := email, displayName, teeShirtSize, conferences;
    }

    /** `Goto`: the id goes at the end of the list, even when it is already there. */
    method Goto(conferenceID: int)
      modifies this
      ensures conferences == old(conferences) + [conferenceID] && conferenceID in conferences
      ensures email == old(email) && displayName == old(displayName) && teeShirtSize == old(teeShirtSize)
    {
      conferences := conferences + [conferenceID];
    }

    /** `Cancel`: the first equal id goes, the others keep their order; an absent id changes nothing. */
    method Cancel(conferenceID: int)
      modifies this
      ensures conferences == RemoveFirst(old(conferences), conferenceID)
      ensures email == old(email) && displayName == old(displayName) && teeShirtSize == old(teeShirtSize)
    {
      var i := 0;
      while i < |conferences|
        invariant 0 <= i <= |conferences|
        invariant conferenceID !in conferences[..i]
        invariant conferences == old(conferences)
      {
        if conferences[i] == conferenceID {
          FirstIndexUnique(conferences, conferenceID, i);
          RemoveFirstSplices(conferences, conferenceID);
          conferences := conferences[..i] + conferences[i + 1..];
          return;
        }
        i := i + 1;
      }
      assert conferences[..i] == conferences;
      RemoveFirstAbsent(conferences, conferenceID);
    }

    /** `Registered`: whether the id is in the list. */
    method Registered(conferenceID: int) returns (r: bool)
      ensures r <==> conferenceID in conferences
    {
      var i := 0;
      while i < |conferences|
        invariant 0 <= i <= |conferences|
        invariant conferenceID !in conferences[..i]
      {
        if conferences[i] == conferenceID {
          return true;
        }
        assert conferences[..i + 1] == conferences[..i] + [conferences[i]];
        i := i + 1;
      }
      assert conferences[..i] == conferences;
      return false;
    }
  }
}
