/**
 * Conferences (conference.go): building a conference from the creation form
 * (RFC 3339 dates, optional fields, derived month, every seat free), reading a
 * conference by key or by websafe key, and creating one in a transaction that
 * also queues the confirmation email.
 */
module Conferences {
  import opened Wrappers
  import opened Numbers
  import opened Dates
  import opened Errors
  import opened Store
  import opened Profiles

  /** The creation form: topics as a list, dates and attendee count as text (empty when not given). */
  datatype ConferenceForm = ConferenceForm(
    name: string,
    description: string,
    topics: seq<string>,
    city: string,
    startDate: string,
    endDate: string,
    maxAttendees: string)

  /** What a successful creation answers. */
  datatype ConferenceCreated = ConferenceCreated(name: string, websafeKey: string)

  /**
   * `FromConferenceForm`. A date or attendee count left empty gives the zero
   * value without error; one that is given but does not parse is a bad request
   * (start date, then end date, then attendee count) and there is no
   * conference. The month is the start date's month, or 0 without a start
   * date; every seat is free; name, description, topics and city are the
   * form's. Organizer and websafe key are left empty for the caller.
   */
  function FromConferenceForm(form: ConferenceForm, cal: Calendar): (r: Result<Conference, StatusError>)
    ensures form.startDate != "" && cal.parse(RFC3339, form.startDate).Failure? ==>
              r == Failure(ErrBadRequest(Some(LibraryCause(cal.parse(RFC3339, form.startDate).error)), "unable to parse start date"))
    ensures r.Failure? ==> r.error.status == StatusBadRequest
    ensures r.Success? <==>
              && (form.startDate == "" || cal.parse(RFC3339, form.startDate).Success?)
              && (form.endDate == "" || cal.parse(RFC3339, form.endDate).Success?)
              && (form.maxAttendees == "" || Atoi(form.maxAttendees).Success?)
    ensures r.Success? ==>
              && r.value.name == form.name && r.value.description == form.description
              && r.value.topics == form.topics && r.value.city == form.city
              && r.value.organizer == "" && r.value.websafeKey == ""
              && r.value.seatsAvailable == r.value.maxAttendees
              && r.value.startDate == (if form.startDate == "" then ZeroTime else cal.parse(RFC3339, form.startDate).value)
              && r.value.endDate == (if form.endDate == "" then ZeroTime else cal.parse(RFC3339, form.endDate).value)
              && r.value.month == (if form.startDate == "" then 0 else cal.month(r.value.startDate))
              && r.value.maxAttendees == (if form.maxAttendees == "" then 0 else Atoi(form.maxAttendees).value)
  {
    var start := if form.startDate == "" then Success(ZeroTime) else cal.parse(RFC3339, form.startDate);
    var end := if form.endDate == "" then Success(ZeroTime) else cal.parse(RFC3339, form.endDate);
    var attendees := if form.maxAttendees == "" then Success(0) else Atoi(form.maxAttendees);
    if start.Failure? then Failure(ErrBadRequest(Some(LibraryCause(start.error)), "unable to parse start date"))
    else if end.Failure? then Failure(ErrBadRequest(Some(LibraryCause(end.error)), "unable to parse end date"))
    else if attendees.Failure? then Failure(ErrBadRequest(Some(LibraryCause(attendees.error)), "unable to parse max attendees"))
    else
      var month := if form.startDate == "" then 0 else cal.month(start.value);
      Success(Conference("", form.name, form.description, "", form.topics, form.city,
                         start.value, end.value, month, attendees.value, attendees.value))
  }

  /** A form whose dates and attendee count are all left empty always gives a conference, with zero values there. */
  lemma EmptyOptionalFields(form: ConferenceForm, cal: Calendar)
    requires form.startDate == "" && form.endDate == "" && form.maxAttendees == ""
    ensures var r := FromConferenceForm(form, cal);
      r.Success? && r.value.startDate == ZeroTime && r.value.endDate == ZeroTime
      && r.value.month == 0 && r.value.maxAttendees == 0 && r.value.seatsAvailable == 0
  {
  }

  /** The error a read of a missing conference gives. */
  const NotFound: StatusError := ErrNotFound(Some(ServiceCause(NoSuchEntity)), "conference not found")

  /** `getConference`: the stored conference with its websafe key set from the key, or not found. */
  function LoadConference(conferences: map<Key, Conference>, k: Key, codec: KeyCodec): (r: Result<Conference, StatusError>)
    ensures r.Success? <==> k in conferences
    ensures r.Failure? ==> r.error == NotFound && r.error.status == StatusNotFound
    ensures r.Success? ==> r.value.websafeKey == codec.encode(k) && Stored(r.value) == Stored(conferences[k])
  {
    if k in conferences then Success(conferences[k].(websafeKey := codec.encode(k))) else Failure(NotFound)
  }

  /** `GetConference`: a websafe key that does not decode is a bad request; otherwise the read by key. */
  function GetConference(conferences: map<Key, Conference>, websafeKey: string, codec: KeyCodec): (r: Result<Conference, StatusError>)
    ensures codec.decode(websafeKey).Failure? ==>
              r == Failure(ErrBadRequest(Some(LibraryCause(codec.decode(websafeKey).error)), "invalid conference key"))
    ensures codec.decode(websafeKey).Success? ==> r == LoadConference(conferences, codec.decode(websafeKey).value, codec)
  {
    match codec.decode(websafeKey)
    case Failure(e) => Failure(ErrBadRequest(Some(LibraryCause(e)), "invalid conference key"))
    case Success(k) => LoadConference(conferences, k, codec)
  }

  /** Reading a conference by the websafe key it was read with gives it back, under a round-tripping codec. */
  lemma GetConferenceByItsOwnKey(conferences: map<Key, Conference>, k: Key, codec: KeyCodec)
    requires RoundTrips(codec) && k in conferences
    ensures var r := LoadConference(conferences, k, codec);
      r.Success? && GetConference(conferences, r.value.websafeKey, codec) == r
  {
  }

  /** What can fail during a creation: the profile read, the Put, queueing the email, the commit, and clearing the cache. */
  datatype CreateFaults = CreateFaults(profileRead: bool, put: bool, emailTask: bool, commit: bool, cacheTask: bool)

  /** The outcome of a creation and the state it leaves. */
  datatype Creation = Creation(result: Result<ConferenceCreated, Error>, state: State)

  /**
   * `CreateConference` as a function of the state before it; `newId` is the id
   * the datastore allocates for the incomplete key under the creator's profile.
   */
  function Create(s: State, user: Option<User>, form: ConferenceForm, cal: Calendar, codec: KeyCodec,
                  newId: int, faults: CreateFaults): Creation {
    if user.None? then Creation(Failure(Status(ErrUnauthorized)), s)
    else match FromConferenceForm(form, cal)
      case Failure(e) => Creation(Failure(Status(e)), s)
      case Success(c) =>
        if faults.profileRead then Creation(Failure(Service(Unavailable)), s)
        else
          var p := LoadProfile(s.profiles, user.value);
          var conference := c.(organizer := p.displayName);
          var key := Key(user.value.name, newId);
          if faults.put || faults.emailTask then Creation(Failure(Service(Unavailable)), s)
          else if faults.commit then Creation(Failure(Service(ConcurrentTransaction)), s)
          else
            var tasks := s.tasks + [SendConfirmation(p.email, conference)] + (if faults.cacheTask then [] else [ClearCache]);
            Creation(Success(ConferenceCreated(conference.name, codec.encode(key))),
                     State(s.profiles, s.conferences[key := Stored(conference)], tasks))
  }

  /**
   * `CreateConference`. The user, the form and the profile are checked before
   * the transaction; inside it the conference is put under a new key below the
   * creator's profile and the confirmation email is queued. The cache is
   * cleared after the commit, and a failure to do so is ignored.
   */
  method CreateConference(db: Datastore, user: Option<User>, form: ConferenceForm, cal: Calendar, codec: KeyCodec,
                          newId: int, faults: CreateFaults)
    returns (r: Result<ConferenceCreated, Error>)
    modifies db
    ensures Creation(r, db.Snapshot()) == Create(old(db.Snapshot()), user, form, cal, codec, newId, faults)
  {
    if user.None? {
      return Failure(Status(ErrUnauthorized));
    }
    var pid := user.value.name;
    var built := FromConferenceForm(form, cal);
    if built.Failure? {
      return Failure(Status(built.error));
    }
    var conference := built.value;
    if faults.profileRead {
      return Failure(Service(Unavailable));
    }
    var profile := LoadProfile(db.profiles, user.value);
    conference := conference.(organizer := profile.displayName);
    var info := conference;

    // the transaction: put the conference, queue the confirmation email
    if faults.put {
      return Failure(Service(Unavailable));
    }
    var key := Key(pid, newId);
    conference := conference.(websafeKey := codec.encode(key));
    if faults.emailTask {
      return Failure(Service(Unavailable));
    }
    if faults.commit {
      return Failure(Service(ConcurrentTransaction));
    }
    db.conferences := db.conferences[key := Stored(conference)];
    db.tasks := db.tasks + [SendConfirmation(profile.email, info)];

    // after the commit
    if !faults.cacheTask {
      db.tasks := db.tasks + [ClearCache];
    }
    return Success(ConferenceCreated(conference.name, conference.websafeKey));
  }

  /**
   * A creation without faults stores the conference under the new key with the
   * creator's display name as organizer and every seat free, answers with its
   * name and websafe key, queues the confirmation to the creator's email, and
   * changes no profile and no other conference.
   */
  lemma CreateSucceeds(s: State, u: User, form: ConferenceForm, cal: Calendar, codec: KeyCodec, newId: int, faults: CreateFaults)
    requires FromConferenceForm(form, cal).Success? && !faults.profileRead && !faults.put && !faults.emailTask && !faults.commit
    ensures var cr := Create(s, Some(u), form, cal, codec, newId, faults);
      var key := Key(u.name, newId);
      && cr.result == Success(ConferenceCreated(form.name, codec.encode(key)))
      && key in cr.state.conferences
      && cr.state.conferences[key].organizer == LoadProfile(s.profiles, u).displayName
      && cr.state.conferences[key].seatsAvailable == cr.state.conferences[key].maxAttendees
      && cr.state.conferences[key].name == form.name
      && cr.state.profiles == s.profiles
      && (forall k :: k != key ==> (k in cr.state.conferences <==> k in s.conferences))
      && (forall k :: k != key && k in s.conferences ==> cr.state.conferences[k] == s.conferences[k])
      && |cr.state.tasks| > |s.tasks| && cr.state.tasks[|s.tasks|].SendConfirmation?
      && cr.state.tasks[|s.tasks|].email == LoadProfile(s.profiles, u).email
  {
  }

  /** Identity, form and profile errors come before the transaction, and any failed creation writes nothing. */
  lemma FailedCreationChangesNothing(s: State, user: Option<User>, form: ConferenceForm, cal: Calendar, codec: KeyCodec,
                                     newId: int, faults: CreateFaults)
    ensures Create(s, user, form, cal, codec, newId, faults).result.Failure? ==>
              Create(s, user, form, cal, codec, newId, faults).state == s
    ensures user.None? ==> Create(s, user, form, cal, codec, newId, faults).result == Failure(Status(ErrUnauthorized))
    ensures user.Some? && FromConferenceForm(form, cal).Failure? ==>
              Create(s, user, form, cal, codec, newId, faults).result == Failure(Status(FromConferenceForm(form, cal).error))
  {
  }

  /** Creation does not reach the search index: no reindex task is queued. */
  lemma CreateDoesNotIndex(s: State, user: Option<User>, form: ConferenceForm, cal: Calendar, codec: KeyCodec,
                           newId: int, faults: CreateFaults)
    ensures var t := Create(s, user, form, cal, codec, newId, faults).state.tasks;
      forall i :: |s.tasks| <= i < |t| ==> !t[i].IndexConference?
  {
  }
}
