/**
 * The search index (search.go): the document a conference is indexed as and
 * the conference read back from a document, the query string compiled from a
 * query form's filters, the loop that collects search results, and the upsert
 * of a conference's document under its websafe key.
 */
module Search {
  import opened Wrappers
  import opened Lists
  import opened Numbers
  import opened Dates
  import opened Errors
  import opened Store
  import opened Filters

  /** An indexed conference; the three counters are float64 in the index and are modelled as ints. */
  datatype ConferenceDoc = ConferenceDoc(
    websafeKey: string,
    name: string,
    description: string,
    organizer: string,
    topics: string,
    city: string,
    startDate: Time,
    endDate: Time,
    month: int,
    maxAttendees: int,
    seatsAvailable: int)

  /** `fromConference`: topics joined by single spaces, month taken from the start date. */
  function FromConference(c: Conference, cal: Calendar): (d: ConferenceDoc)
    ensures d.websafeKey == c.websafeKey && d.name == c.name && d.description == c.description
    ensures d.organizer == c.organizer && d.city == c.city
    ensures d.startDate == c.startDate && d.endDate == c.endDate
    ensures d.month == cal.month(c.startDate)
    ensures d.maxAttendees == c.maxAttendees && d.seatsAvailable == c.seatsAvailable
    ensures Split(d.topics, ' ') == c.topics <==> |c.topics| >= 1 && forall t :: t in c.topics ==> ' ' !in t
  {
    SplitJoinIff(c.topics, ' ');
    ConferenceDoc(c.websafeKey, c.name, c.description, c.organizer, Join(c.topics, ' '), c.city,
                  c.startDate, c.endDate, cal.month(c.startDate), c.maxAttendees, c.seatsAvailable)
  }

  /** `fromConferenceDoc`: topics split at spaces, dates converted to UTC, month taken from the start date. */
  function FromConferenceDoc(d: ConferenceDoc, cal: Calendar): (c: Conference)
    ensures c.websafeKey == d.websafeKey && c.name == d.name && c.description == d.description
    ensures c.organizer == d.organizer && c.city == d.city
    ensures Join(c.topics, ' ') == d.topics && |c.topics| >= 1
    ensures c.startDate == cal.utc(d.startDate) && c.endDate == cal.utc(d.endDate)
    ensures c.month == cal.month(d.startDate)
    ensures c.maxAttendees == d.maxAttendees && c.seatsAvailable == d.seatsAvailable
  {
    JoinSplit(d.topics, ' ');
    Conference(d.websafeKey, d.name, d.description, d.organizer, Split(d.topics, ' '), d.city,
               cal.utc(d.startDate), cal.utc(d.endDate), cal.month(d.startDate), d.maxAttendees, d.seatsAvailable)
  }

  /**
   * Indexing a conference and reading it back gives it again exactly when its
   * topics survive the space join (at least one topic, none containing a
   * space), its dates are already in UTC, and its month is its start date's.
   */
  lemma ProjectionRoundTrip(c: Conference, cal: Calendar)
    ensures FromConferenceDoc(FromConference(c, cal), cal) == c <==>
      && (|c.topics| >= 1 && forall t :: t in c.topics ==> ' ' !in t)
      && cal.utc(c.startDate) == c.startDate && cal.utc(c.endDate) == c.endDate
      && c.month == cal.month(c.startDate)
  {
    var back := FromConferenceDoc(FromConference(c, cal), cal);
    if back == c {
      assert back.topics == c.topics;
    }
  }

  // ---------------------------------------------------------------------------
  // The search query string

  /** Letters and digits; the Unicode classes are approximated by ASCII. */
  predicate IsAlphaNumeric(r: char) {
    'a' <= r <= 'z' || 'A' <= r <= 'Z' || '0' <= r <= '9'
  }

  /** `alphaNumeric`: a letter or digit is kept, anything else becomes a space. */
  function AlphaNumeric(r: char): (m: char)
    ensures IsAlphaNumeric(r) ==> m == r
    ensures !IsAlphaNumeric(r) ==> m == ' '
  {
    if IsAlphaNumeric(r) then r else ' '
  }

  /** `strings.Map(alphaNumeric, s)`. */
  function Sanitize(s: string): (t: string)
    ensures |t| == |s|
    ensures forall i :: 0 <= i < |s| ==> t[i] == AlphaNumeric(s[i])
  {
    if s == [] then [] else [AlphaNumeric(s[0])] + Sanitize(s[1..])
  }

  /** Sanitizing keeps the length, leaves only letters, digits and spaces, and is idempotent. */
  lemma SanitizeProperties(s: string)
    ensures |Sanitize(s)| == |s|
    ensures forall i :: 0 <= i < |s| ==> IsAlphaNumeric(Sanitize(s)[i]) || Sanitize(s)[i] == ' '
    ensures Sanitize(Sanitize(s)) == Sanitize(s)
  {
  }

  /** fmt's `%q` and `%v` of the values that the query string does not format itself. */
  datatype Printer = Printer(quote: Value -> string, show: Value -> string)

  /** `%q`: a string between double quotes (escapes are not modelled); other values as the printer quotes them. */
  function Quoted(v: Value, p: Printer): string {
    if v.Str? then "\"" + v.s + "\"" else p.quote(v)
  }

  /** `%v`: an int in decimal; other values as the printer shows them. */
  function Shown(v: Value, p: Printer): string {
    if v.Int? then Itoa(v.i) else p.show(v)
  }

  /** The clause one filter contributes to the search query. */
  function Clause(f: Filter, cal: Calendar, p: Printer): (s: string)
    ensures |s| > 0 && s[|s| - 1] == ' '
  {
    var field := if f.op == NE then "NOT " + f.field else f.field;
    var op := if f.op == NE then EQ else f.op;
    if field == "KEY" then field + " = " + Quoted(f.value, p) + " "
    else match f.value
      case Str(v) => field + " = (" + Sanitize(v) + ") "
      case Date(t) => field + " " + op + " " + cal.format(ShortDate, t) + " "
      case _ => field + " " + op + " " + Shown(f.value, p) + " "
  }

  /** The search query: the filters' clauses one after the other, in order. */
  function SearchQuery(filters: seq<Filter>, cal: Calendar, p: Printer): string {
    if filters == [] then "" else SearchQuery(filters[..|filters| - 1], cal, p) + Clause(filters[|filters| - 1], cal, p)
  }

  /** `!=` is rewritten: the clause is the one of "NOT field" with operator `=`. */
  lemma NotEqualRewritten(f: Filter, cal: Calendar, p: Printer)
    requires f.op == NE
    ensures Clause(f, cal, p) == Clause(Filter("NOT " + f.field, EQ, f.value), cal, p)
  {
  }

  /** The KEY field is compared with its quoted value, unsanitized, whatever the operator (other than `!=`). */
  lemma KeyClause(f: Filter, cal: Calendar, p: Printer, key: string)
    requires f.field == "KEY" && f.op != NE && f.value == Str(key)
    ensures Clause(f, cal, p) == "KEY = \"" + key + "\" "
  {
  }

  /** A string value is always an equality on its sanitized text, whatever the operator was. */
  lemma StringClause(f: Filter, cal: Calendar, p: Printer, v: string)
    requires f.value == Str(v) && f.field != "KEY" && !(f.op == NE && "NOT " + f.field == "KEY")
    ensures Clause(f, cal, p) == (if f.op == NE then "NOT " + f.field else f.field) + " = (" + Sanitize(v) + ") "
  {
  }

  /** A date value is printed as a short date, after the (rewritten) operator. */
  lemma DateClause(f: Filter, cal: Calendar, p: Printer, t: Time)
    requires f.value == Date(t) && f.field != "KEY" && f.op != NE
    ensures Clause(f, cal, p) == f.field + " " + f.op + " " + cal.format(ShortDate, t) + " "
  {
  }

  /** Each filter adds exactly its clause at the end; no filters give the empty query. */
  lemma {:induction false} SearchQueryClauses(filters: seq<Filter>, f: Filter, cal: Calendar, p: Printer)
    ensures SearchQuery([], cal, p) == ""
    ensures SearchQuery(filters + [f], cal, p) == SearchQuery(filters, cal, p) + Clause(f, cal, p)
    ensures |SearchQuery(filters, cal, p)| >= |filters|
    ensures filters != [] ==> SearchQuery(filters, cal, p)[|SearchQuery(filters, cal, p)| - 1] == ' '
  {
    assert (filters + [f])[..|filters|] == filters;
    if filters != [] {
      SearchQueryClauses(filters[..|filters| - 1], filters[|filters| - 1], cal, p);
    }
  }

  /** The query of one filter more is the query so far followed by that filter's clause. */
  lemma SearchQueryPrefix(filters: seq<Filter>, n: nat, cal: Calendar, p: Printer)
    requires n < |filters|
    ensures SearchQuery(filters[..n + 1], cal, p) == SearchQuery(filters[..n], cal, p) + Clause(filters[n], cal, p)
  {
    assert filters[..n + 1][..n] == filters[..n];
  }

  /** `ConferenceQueryForm.query`: the clauses accumulated in a loop. */
  method QueryString(filters: seq<Filter>, cal: Calendar, p: Printer) returns (str: string)
    ensures str == SearchQuery(filters, cal, p)
  {
    str := "";
    var n := 0;
    while n < |filters|
      invariant 0 <= n <= |filters|
      invariant str == SearchQuery(filters[..n], cal, p)
    {
      SearchQueryPrefix(filters, n, cal, p);
      str := str + Clause(filters[n], cal, p);
      n := n + 1;
    }
    assert filters[..n] == filters;
  }

  // ---------------------------------------------------------------------------
  // Searching and indexing

  /** One step of a search iterator: a document, the end of the results, or an error (by its text). */
  datatype SearchStep = Found(doc: ConferenceDoc) | Done | Broken(text: string)

  /** The position of the first step that is not a document, or the number of steps. */
  function FirstStop(steps: seq<SearchStep>): (n: nat)
    ensures n <= |steps| && (n < |steps| ==> !steps[n].Found?)
    ensures forall i :: 0 <= i < n ==> steps[i].Found?
  {
    if steps == [] || !steps[0].Found? then 0 else 1 + FirstStop(steps[1..])
  }

  /**
   * `searchConferences`, without its final sort: an index that does not open and
   * an iterator error are internal errors; otherwise the conferences read back
   * from the documents up to the end of the results, in iterator order. Steps
   * beyond the given ones count as the end.
   */
  method SearchConferences(steps: seq<SearchStep>, cal: Calendar, openFails: bool) returns (r: Result<seq<Conference>, StatusError>)
    ensures openFails ==> r == Failure(ErrInternalServer(Some(LibraryCause("search index unavailable")), "unable to open search index"))
    ensures !openFails && FirstStop(steps) < |steps| && steps[FirstStop(steps)].Broken? ==>
              r == Failure(ErrInternalServer(Some(LibraryCause(steps[FirstStop(steps)].text)), "unable to search index"))
    ensures r.Success? ==> |r.value| == FirstStop(steps)
    ensures r.Success? ==> forall i :: 0 <= i < |r.value| ==> r.value[i] == FromConferenceDoc(steps[i].doc, cal)
    ensures !openFails && (FirstStop(steps) == |steps| || steps[FirstStop(steps)].Done?) ==> r.Success?
  {
    if openFails {
      return Failure(ErrInternalServer(Some(LibraryCause("search index unavailable")), "unable to open search index"));
    }
    var items: seq<Conference> := [];
    var n := 0;
    while true
      invariant 0 <= n <= FirstStop(steps) && |items| == n
      invariant forall i :: 0 <= i < n ==> items[i] == FromConferenceDoc(steps[i].doc, cal)
      decreases |steps| - n
    {
      if n == |steps| || steps[n].Done? {
        break;
      }
      if steps[n].Broken? {
        return Failure(ErrInternalServer(Some(LibraryCause(steps[n].text)), "unable to search index"));
      }
      items := items + [FromConferenceDoc(steps[n].doc, cal)];
      n := n + 1;
    }
    return Success(items);
  }

  /** The search index as a map from document id to document. */
  class SearchIndex {
    var docs: map<string, ConferenceDoc>

    constructor ()
      ensures docs == map[]
    {
      docs := map[];
    }

    /**
     * `indexConferenceNow`: puts the conference's document under its websafe
     * key, replacing any document there; an index that does not open or a
     * failed put is an internal error and changes nothing.
     */
    method IndexConferenceNow(c: Conference, cal: Calendar, openFails: bool, putFails: bool) returns (err: Option<StatusError>)
      modifies this
      ensures err.None? <==> !openFails && !putFails
      ensures err.Some? ==> err.value.status == StatusInternalServerError && docs == old(docs)
      ensures err.None? ==> docs == old(docs)[c.websafeKey := FromConference(c, cal)]
    {
      if openFails {
        return Some(ErrInternalServer(Some(LibraryCause("search index unavailable")), "unable to open search index"));
      }
      if putFails {
        return Some(ErrInternalServer(Some(ServiceCause(Unavailable)), "unable to index conference"));
      }
      docs := docs[c.websafeKey := FromConference(c, cal)];
      return None;
    }
  }
}
