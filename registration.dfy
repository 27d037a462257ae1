/**
 * Registration to conferences (registration.go). A profile's ordered list of
 * conference keys and the conference's seat counter change together, inside
 * one cross-group transaction: a registration appends the key and takes a
 * seat, a cancellation removes the key and gives the seat back. The
 * transaction's writes become visible only when it commits; a failed attempt
 * leaves the datastore and the task queue as they were.
 */
module Registration {
  import opened Wrappers
  import opened Lists
  import opened Numbers
  import opened Dates
  import opened Errors
  import opened Store
  import opened Profiles
  import opened Conferences

  /** A profile loaded from the datastore into a struct that the registration code updates in place. */
  class ProfileEntity {
    var email: string
    var displayName: string
    var teeShirtSize: Int8
    var conferences: seq<string>

    constructor Load(p: Profile)
      ensures Value() == p
    {
      email, displayName, teeShirtSize, conferences := p.email, p.displayName, p.teeShirtSize, p.conferences;
    }

    function Value(): Profile
      reads this
    {
      Profile(email, displayName, teeShirtSize, conferences)
    }

    /** `register`: the key goes at the end of the list; nothing else changes. */
    method Register(websafeKey: string)
      modifies this
      ensures Value() == old(Value()).(conferences := old(conferences) + [websafeKey])
    {
      conferences := conferences + [websafeKey];
    }

    /** `unregister`: the first equal entry goes, the rest keep their order; an absent key changes nothing. */
    method Unregister(websafeKey: string)
      modifies this
      ensures Value() == old(Value()).(conferences := RemoveFirst(old(conferences), websafeKey))
    {
      var i := 0;
      while i < |conferences|
        invariant 0 <= i <= |conferences|
        invariant websafeKey !in conferences[..i]
        invariant conferences == old(conferences)
      {
        if conferences[i] == websafeKey {
          assert FirstIndex(conferences, websafeKey) == i by {
            FirstIndexUnique(conferences, websafeKey, i);
          }
          RemoveFirstSplices(conferences, websafeKey);
          conferences := conferences[..i] + conferences[i + 1..];
          return;
        }
        i := i + 1;
      }
      assert conferences[..i] == conferences;
      RemoveFirstAbsent(conferences, websafeKey);
    }

    /** `IsRegistered`: a search of the list. */
    method IsRegistered(websafeKey: string) returns (found: bool)
      ensures found <==> websafeKey in conferences
    {
      var i := 0;
      while i < |conferences|
        invariant 0 <= i <= |conferences|
        invariant websafeKey !in conferences[..i]
      {
        if conferences[i] == websafeKey {
          return true;
        }
        assert conferences[..i + 1] == conferences[..i] + [conferences[i]];
        i := i + 1;
      }
      assert conferences[..i] == conferences;
      return false;
    }
  }

  /**
   * What can fail inside or around the transaction: the profile read, the two
   * Puts, queueing the reindex task, the commit (a concurrent writer), and
   * queueing the cache-clearing task after the commit.
   */
  datatype Faults = Faults(
    profileRead: bool,
    profilePut: bool,
    conferencePut: bool,
    indexTask: bool,
    commit: bool,
    cacheTask: bool)

  const NoFaults: Faults := Faults(false, false, false, false, false, false)

  /** The outcome of an attempt and the state it leaves. */
  datatype Attempt = Attempt(err: Option<Error>, state: State)

  /** `getProfile` inside the transaction: a stored or lazily supplied empty profile, or the datastore's error. */
  function ReadProfile(profiles: map<string, Profile>, u: User, fails: bool): Result<Profile, Error> {
    if fails then Failure(Service(Unavailable)) else Success(LoadProfile(profiles, u))
  }

  /** The error the conference read reports for a missing conference: not found, wrapped as a bad request. */
  const ConferenceMissing: StatusError := ErrBadRequest(Some(StatusCause(NotFound)), "conference does not exist")

  /** `getConference` inside the transaction, its error wrapped as a bad request. */
  function ReadConference(conferences: map<Key, Conference>, k: Key, codec: KeyCodec): Result<Conference, Error> {
    match LoadConference(conferences, k, codec)
    case Success(c) => Success(c)
    case Failure(e) => Failure(Status(ErrBadRequest(Some(StatusCause(e)), "conference does not exist")))
  }

  /** The errors of the two reads as the multi-error collects them (profile first). */
  function ReadErrors(p: Result<Profile, Error>, c: Result<Conference, Error>): (errs: seq<Error>)
    ensures errs == [] <==> p.Success? && c.Success?
  {
    (if p.Failure? then [p.error] else []) + (if c.Failure? then [c.error] else [])
  }

  function InvalidKey(decodeError: string): StatusError {
    ErrBadRequest(Some(LibraryCause(decodeError)), "invalid conference key")
  }

  const ProfileNotSaved: StatusError := ErrInternalServer(Some(ServiceCause(Unavailable)), "unable to save profile")
  const ConferenceNotSaved: StatusError := ErrInternalServer(Some(ServiceCause(Unavailable)), "unable to save conference")
  const NotIndexed: StatusError := ErrInternalServer(Some(ServiceCause(Unavailable)), "unable to index conference")

  /** The writes of a transaction that got past its business checks: refused by a fault, or committed. */
  function Commit(s: State, pid: string, p: Profile, k: Key, c: Conference, faults: Faults): Attempt {
    if faults.profilePut then Attempt(Some(Status(ProfileNotSaved)), s)
    else if faults.conferencePut then Attempt(Some(Status(ConferenceNotSaved)), s)
    else if faults.indexTask then Attempt(Some(Status(NotIndexed)), s)
    else if faults.commit then Attempt(Some(Service(ConcurrentTransaction)), s)
    else
      Attempt(None, State(s.profiles[pid := p], s.conferences[k := Stored(c)],
                          s.tasks + [IndexConference(c)] + (if faults.cacheTask then [] else [ClearCache])))
  }

  /** `GotoConference` as a function of the state before it. */
  function Goto(s: State, user: Option<User>, websafeKey: string, codec: KeyCodec, faults: Faults): Attempt {
    if user.None? then Attempt(Some(Status(ErrUnauthorized)), s)
    else match codec.decode(websafeKey)
      case Failure(e) => Attempt(Some(Status(InvalidKey(e))), s)
      case Success(k) =>
        var pr := ReadProfile(s.profiles, user.value, faults.profileRead);
        var cr := ReadConference(s.conferences, k, codec);
        if ReadErrors(pr, cr) != [] then Attempt(Some(Multi(ReadErrors(pr, cr))), s)
        else
          var p, c := pr.value, cr.value;
          if c.websafeKey in p.conferences then Attempt(Some(Status(ErrConflict("already registered"))), s)
          else if c.seatsAvailable <= 0 then Attempt(Some(Status(ErrConflict("no seats available"))), s)
          else Commit(s, user.value.name, p.(conferences := p.conferences + [c.websafeKey]), k,
                      c.(seatsAvailable := c.seatsAvailable - 1), faults)
  }

  /** `CancelConference` as a function of the state before it. */
  function Cancel(s: State, user: Option<User>, websafeKey: string, codec: KeyCodec, faults: Faults): Attempt {
    if user.None? then Attempt(Some(Status(ErrUnauthorized)), s)
    else match codec.decode(websafeKey)
      case Failure(e) => Attempt(Some(Status(InvalidKey(e))), s)
      case Success(k) =>
        var pr := ReadProfile(s.profiles, user.value, faults.profileRead);
        var cr := ReadConference(s.conferences, k, codec);
        if ReadErrors(pr, cr) != [] then Attempt(Some(Multi(ReadErrors(pr, cr))), s)
        else
          var p, c := pr.value, cr.value;
          if c.websafeKey !in p.conferences then Attempt(Some(Status(ErrConflict("not registered"))), s)
          else Commit(s, user.value.name, p.(conferences := RemoveFirst(p.conferences, c.websafeKey)), k,
                      c.(seatsAvailable := c.seatsAvailable + 1), faults)
  }

  /**
   * `GotoConference`. The profile key and the websafe key are checked before the
   * transaction; inside it both entities are read, the two conflicts are checked
   * (already registered first, then no seat left), and the profile and the
   * conference are written with the reindex task. The cache-clearing task is
   * queued after the commit; its failure is only logged.
   */
  method GotoConference(db: Datastore, user: Option<User>, websafeKey: string, codec: KeyCodec, faults: Faults)
    returns (err: Option<Error>)
    modifies db
    ensures Attempt(err, db.Snapshot()) == Goto(old(db.Snapshot()), user, websafeKey, codec, faults)
  {
    if user.None? {
      return Some(Status(ErrUnauthorized));
    }
    var decoded := codec.decode(websafeKey);
    if decoded.Failure? {
      return Some(Status(InvalidKey(decoded.error)));
    }
    var ckey, pid := decoded.value, user.value.name;

    // the transaction: read both entities, decide, write
    var profileRead := ReadProfile(db.profiles, user.value, faults.profileRead);
    var conferenceRead := ReadConference(db.conferences, ckey, codec);
    var errs := ReadErrors(profileRead, conferenceRead);
    if errs != [] {
      return Some(Multi(errs));
    }
    var profile := new ProfileEntity.Load(profileRead.value);
    var conference := conferenceRead.value;

    var registered := profile.IsRegistered(conference.websafeKey);
    if registered {
      return Some(Status(ErrConflict("already registered")));
    }
    if conference.seatsAvailable <= 0 {
      return Some(Status(ErrConflict("no seats available")));
    }

    profile.Register(conference.websafeKey);
    if faults.profilePut {
      return Some(Status(ProfileNotSaved));
    }
    conference := conference.(seatsAvailable := conference.seatsAvailable - 1);
    if faults.conferencePut {
      return Some(Status(ConferenceNotSaved));
    }
    if faults.indexTask {
      return Some(Status(NotIndexed));
    }
    if faults.commit {
      return Some(Service(ConcurrentTransaction));
    }
    db.profiles := db.profiles[pid := profile.Value()];
    db.conferences := db.conferences[ckey := Stored(conference)];
    db.tasks := db.tasks + [IndexConference(conference)];

    // after the commit: clear the cache, logging a failure
    if !faults.cacheTask {
      db.tasks := db.tasks + [ClearCache];
    }
    return None;
  }

  /** `CancelConference`: the mirror image of GotoConference, with the single "not registered" conflict. */
  method CancelConference(db: Datastore, user: Option<User>, websafeKey: string, codec: KeyCodec, faults: Faults)
    returns (err: Option<Error>)
    modifies db
    ensures Attempt(err, db.Snapshot()) == Cancel(old(db.Snapshot()), user, websafeKey, codec, faults)
  {
    if user.None? {
      return Some(Status(ErrUnauthorized));
    }
    var decoded := codec.decode(websafeKey);
    if decoded.Failure? {
      return Some(Status(InvalidKey(decoded.error)));
    }
    var ckey, pid := decoded.value, user.value.name;

    var profileRead := ReadProfile(db.profiles, user.value, faults.profileRead);
    var conferenceRead := ReadConference(db.conferences, ckey, codec);
    var errs := ReadErrors(profileRead, conferenceRead);
    if errs != [] {
      return Some(Multi(errs));
    }
    var profile := new ProfileEntity.Load(profileRead.value);
    var conference := conferenceRead.value;

    var registered := profile.IsRegistered(conference.websafeKey);
    if !registered {
      return Some(Status(ErrConflict("not registered")));
    }

    profile.Unregister(conference.websafeKey);
    if faults.profilePut {
      return Some(Status(ProfileNotSaved));
    }
    conference := conference.(seatsAvailable := conference.seatsAvailable + 1);
    if faults.conferencePut {
      return Some(Status(ConferenceNotSaved));
    }
    if faults.indexTask {
      return Some(Status(NotIndexed));
    }
    if faults.commit {
      return Some(Service(ConcurrentTransaction));
    }
    db.profiles := db.profiles[pid := profile.Value()];
    db.conferences := db.conferences[ckey := Stored(conference)];
    db.tasks := db.tasks + [IndexConference(conference)];

    if !faults.cacheTask {
      db.tasks := db.tasks + [ClearCache];
    }
    return None;
  }

  // ---------------------------------------------------------------------------
  // Properties of registration and cancellation

  /** A failed attempt, whatever failed, writes nothing: neither half of the transaction is kept. */
  lemma FailedAttemptsChangeNothing(s: State, user: Option<User>, websafeKey: string, codec: KeyCodec, faults: Faults)
    ensures Goto(s, user, websafeKey, codec, faults).err.Some? ==> Goto(s, user, websafeKey, codec, faults).state == s
    ensures Cancel(s, user, websafeKey, codec, faults).err.Some? ==> Cancel(s, user, websafeKey, codec, faults).state == s
  {
  }

  /** A malformed websafe key is a bad request, found before anything is read or written. */
  lemma MalformedKeyRejected(s: State, u: User, websafeKey: string, codec: KeyCodec, faults: Faults)
    requires codec.decode(websafeKey).Failure?
    ensures Goto(s, Some(u), websafeKey, codec, faults).err == Some(Status(InvalidKey(codec.decode(websafeKey).error)))
    ensures Cancel(s, Some(u), websafeKey, codec, faults).err == Some(Status(InvalidKey(codec.decode(websafeKey).error)))
    ensures InvalidKey(codec.decode(websafeKey).error).status == StatusBadRequest
  {
  }

  /** Registering twice is the "already registered" conflict, checked before the seats, whatever their number. */
  lemma GotoAlreadyRegistered(s: State, u: User, websafeKey: string, codec: KeyCodec, faults: Faults, k: Key)
    requires codec.decode(websafeKey) == Success(k) && k in s.conferences && !faults.profileRead
    requires codec.encode(k) in LoadProfile(s.profiles, u).conferences
    ensures Goto(s, Some(u), websafeKey, codec, faults) == Attempt(Some(Status(ErrConflict("already registered"))), s)
  {
  }

  /** With no seat left, an unregistered profile gets the "no seats available" conflict and nothing is written. */
  lemma GotoNoSeats(s: State, u: User, websafeKey: string, codec: KeyCodec, faults: Faults, k: Key)
    requires codec.decode(websafeKey) == Success(k) && k in s.conferences && !faults.profileRead
    requires codec.encode(k) !in LoadProfile(s.profiles, u).conferences
    requires s.conferences[k].seatsAvailable <= 0
    ensures Goto(s, Some(u), websafeKey, codec, faults) == Attempt(Some(Status(ErrConflict("no seats available"))), s)
  {
  }

  /** Cancelling without being registered is the "not registered" conflict and nothing is written. */
  lemma CancelNotRegistered(s: State, u: User, websafeKey: string, codec: KeyCodec, faults: Faults, k: Key)
    requires codec.decode(websafeKey) == Success(k) && k in s.conferences && !faults.profileRead
    requires codec.encode(k) !in LoadProfile(s.profiles, u).conferences
    ensures Cancel(s, Some(u), websafeKey, codec, faults) == Attempt(Some(Status(ErrConflict("not registered"))), s)
  {
  }

  /** Faults that let a transaction through: at most the cache-clearing task fails, after the commit. */
  predicate CommitsCleanly(faults: Faults) {
    faults == NoFaults || faults == NoFaults.(cacheTask := true)
  }

  /**
   * A registration that passes its checks appends the key to the user's profile
   * and takes exactly one seat of that conference; no other profile and no other
   * conference changes, and a failing cache-clearing task does not fail it.
   */
  lemma GotoSucceeds(s: State, u: User, websafeKey: string, codec: KeyCodec, faults: Faults, k: Key)
    requires codec.decode(websafeKey) == Success(k) && k in s.conferences && CommitsCleanly(faults)
    requires codec.encode(k) !in LoadProfile(s.profiles, u).conferences
    requires s.conferences[k].seatsAvailable > 0
    ensures var a := Goto(s, Some(u), websafeKey, codec, faults);
      && a.err.None?
      && a.state.profiles == s.profiles[u.name := LoadProfile(s.profiles, u).(
           conferences := LoadProfile(s.profiles, u).conferences + [codec.encode(k)])]
      && a.state.conferences == s.conferences[k := s.conferences[k].(
           websafeKey := "", seatsAvailable := s.conferences[k].seatsAvailable - 1)]
  {
  }

  /**
   * A cancellation that passes its check removes the first occurrence of the key
   * from the user's profile and gives back exactly one seat, with no upper clamp;
   * nothing else changes.
   */
  lemma CancelSucceeds(s: State, u: User, websafeKey: string, codec: KeyCodec, faults: Faults, k: Key)
    requires codec.decode(websafeKey) == Success(k) && k in s.conferences && CommitsCleanly(faults)
    requires codec.encode(k) in LoadProfile(s.profiles, u).conferences
    ensures var a := Cancel(s, Some(u), websafeKey, codec, faults);
      && a.err.None?
      && a.state.profiles == s.profiles[u.name := LoadProfile(s.profiles, u).(
           conferences := RemoveFirst(LoadProfile(s.profiles, u).conferences, codec.encode(k)))]
      && a.state.conferences == s.conferences[k := s.conferences[k].(
           websafeKey := "", seatsAvailable := s.conferences[k].seatsAvailable + 1)]
  {
  }

  /**
   * Registering and then cancelling restores the conference record exactly and
   * the user's registration list; the only trace left is that a user who had no
   * stored profile now has a stored empty one.
   */
  lemma GotoThenCancel(s: State, u: User, websafeKey: string, codec: KeyCodec, k: Key)
    requires codec.decode(websafeKey) == Success(k) && k in s.conferences && s.conferences[k].websafeKey == ""
    requires codec.encode(k) !in LoadProfile(s.profiles, u).conferences
    requires s.conferences[k].seatsAvailable > 0
    ensures var s1 := Goto(s, Some(u), websafeKey, codec, NoFaults).state;
      var a := Cancel(s1, Some(u), websafeKey, codec, NoFaults);
      && a.err.None?
      && a.state.conferences == s.conferences
      && a.state.profiles == s.profiles[u.name := LoadProfile(s.profiles, u)]
  {
    var w := codec.encode(k);
    var p := LoadProfile(s.profiles, u);
    GotoSucceeds(s, u, websafeKey, codec, NoFaults, k);
    var s1 := Goto(s, Some(u), websafeKey, codec, NoFaults).state;
    assert LoadProfile(s1.profiles, u) == p.(conferences := p.conferences + [w]);
    CancelSucceeds(s1, u, websafeKey, codec, NoFaults, k);
    RemoveFirstAfterAppend(p.conferences, w);
    assert s1.profiles[u.name := p] == s.profiles[u.name := p];
    assert s1.conferences[k].(websafeKey := "", seatsAvailable := s1.conferences[k].seatsAvailable + 1)
        == s.conferences[k];
  }

  /**
   * The last seat goes once: when one seat is left, a second user's registration
   * after a first user's successful one gets the "no seats available" conflict.
   */
  lemma LastSeatGoesOnce(s: State, u1: User, u2: User, websafeKey: string, codec: KeyCodec, k: Key)
    requires codec.decode(websafeKey) == Success(k) && k in s.conferences && s.conferences[k].seatsAvailable == 1
    requires u1.name != u2.name
    requires codec.encode(k) !in LoadProfile(s.profiles, u1).conferences
    requires codec.encode(k) !in LoadProfile(s.profiles, u2).conferences
    ensures var a1 := Goto(s, Some(u1), websafeKey, codec, NoFaults);
      && a1.err.None?
      && Goto(a1.state, Some(u2), websafeKey, codec, NoFaults)
         == Attempt(Some(Status(ErrConflict("no seats available"))), a1.state)
  {
    GotoSucceeds(s, u1, websafeKey, codec, NoFaults, k);
    var s1 := Goto(s, Some(u1), websafeKey, codec, NoFaults).state;
    assert LoadProfile(s1.profiles, u2) == LoadProfile(s.profiles, u2);
    GotoNoSeats(s1, u2, websafeKey, codec, NoFaults, k);
  }

  // ---------------------------------------------------------------------------
  // Seat accounting

  /** The profiles registered to the conference with websafe key `w`. */
  ghost function Holders(profiles: map<string, Profile>, w: string): set<string> {
    set pid | pid in profiles && w in profiles[pid].conferences
  }

  /**
   * The accounting invariant: no profile lists a conference twice, and every
   * conference's free seats plus the profiles registered to it make up its
   * capacity, with no negative seat count.
   */
  ghost predicate Accounted(s: State, codec: KeyCodec) {
    && (forall pid :: pid in s.profiles ==> NoDuplicates(s.profiles[pid].conferences))
    && (forall k :: k in s.conferences ==>
          && 0 <= s.conferences[k].seatsAvailable
          && s.conferences[k].seatsAvailable + |Holders(s.profiles, codec.encode(k))| == s.conferences[k].maxAttendees)
  }

  /** Under the invariant a conference never has negative seats nor more seats than attendees. */
  lemma AccountedBounds(s: State, codec: KeyCodec, k: Key)
    requires Accounted(s, codec) && k in s.conferences
    ensures 0 <= s.conferences[k].seatsAvailable <= s.conferences[k].maxAttendees
  {
  }

  /** How replacing one profile's list changes the holders of a websafe key. */
  lemma HoldersAfterUpdate(profiles: map<string, Profile>, pid: string, before: seq<string>, p': Profile, y: string)
    requires pid in profiles ==> profiles[pid].conferences == before
    requires pid !in profiles ==> before == []
    ensures y in p'.conferences && y !in before ==>
      Holders(profiles[pid := p'], y) == Holders(profiles, y) + {pid} && pid !in Holders(profiles, y)
    ensures y !in p'.conferences && y in before ==>
      Holders(profiles[pid := p'], y) == Holders(profiles, y) - {pid} && pid in Holders(profiles, y)
    ensures (y in p'.conferences <==> y in before) ==> Holders(profiles[pid := p'], y) == Holders(profiles, y)
  {
  }

  /** Committed writes keep the invariant when the list change and the seat change match. */
  lemma CommitKeepsAccounted(s: State, codec: KeyCodec, pid: string, before: seq<string>, p': Profile, k: Key, c: Conference, delta: int)
    requires RoundTrips(codec) && Accounted(s, codec) && k in s.conferences
    requires pid in s.profiles ==> s.profiles[pid].conferences == before
    requires pid !in s.profiles ==> before == []
    requires NoDuplicates(p'.conferences)
    requires delta == 1 || delta == -1
    requires delta == -1 ==> codec.encode(k) in p'.conferences && codec.encode(k) !in before
    requires delta == 1 ==> codec.encode(k) !in p'.conferences && codec.encode(k) in before
    requires forall y :: y != codec.encode(k) ==> (y in p'.conferences <==> y in before)
    requires c.maxAttendees == s.conferences[k].maxAttendees && c.seatsAvailable == s.conferences[k].seatsAvailable + delta
    requires c.seatsAvailable >= 0
    ensures Accounted(State(s.profiles[pid := p'], s.conferences[k := c], s.tasks), codec)
  {
    var profiles' := s.profiles[pid := p'];
    var conferences' := s.conferences[k := c];
    forall k' | k' in conferences'
      ensures conferences'[k'].seatsAvailable + |Holders(profiles', codec.encode(k'))| == conferences'[k'].maxAttendees
    {
      HoldersAfterUpdate(s.profiles, pid, before, p', codec.encode(k'));
      if k' != k {
        EncodeInjective(codec, k', k);
      }
    }
  }

  /** Registration keeps the accounting invariant. */
  lemma GotoKeepsAccounted(s: State, user: Option<User>, websafeKey: string, codec: KeyCodec, faults: Faults)
    requires RoundTrips(codec) && Accounted(s, codec)
    ensures Accounted(Goto(s, user, websafeKey, codec, faults).state, codec)
  {
    var a := Goto(s, user, websafeKey, codec, faults);
    if a.err.None? {
      var u := user.value;
      var k := codec.decode(websafeKey).value;
      var p := LoadProfile(s.profiles, u);
      var w := codec.encode(k);
      var p' := p.(conferences := p.conferences + [w]);
      var c := s.conferences[k].(websafeKey := w);
      var c' := Stored(c.(seatsAvailable := c.seatsAvailable - 1));
      assert a.state == State(s.profiles[u.name := p'], s.conferences[k := c'], a.state.tasks);
      assert NoDuplicates(p'.conferences) by {
        assert NoDuplicates(p.conferences);
      }
      CommitKeepsAccounted(s, codec, u.name, p.conferences, p', k, c', -1);
    }
  }

  /** Cancellation keeps the accounting invariant. */
  lemma CancelKeepsAccounted(s: State, user: Option<User>, websafeKey: string, codec: KeyCodec, faults: Faults)
    requires RoundTrips(codec) && Accounted(s, codec)
    ensures Accounted(Cancel(s, user, websafeKey, codec, faults).state, codec)
  {
    var a := Cancel(s, user, websafeKey, codec, faults);
    if a.err.None? {
      var u := user.value;
      var k := codec.decode(websafeKey).value;
      var p := LoadProfile(s.profiles, u);
      var w := codec.encode(k);
      var p' := p.(conferences := RemoveFirst(p.conferences, w));
      var c := s.conferences[k].(websafeKey := w);
      var c' := Stored(c.(seatsAvailable := c.seatsAvailable + 1));
      assert a.state == State(s.profiles[u.name := p'], s.conferences[k := c'], a.state.tasks);
      RemoveFirstNoDuplicates(p.conferences, w);
      assert |Holders(s.profiles, w)| >= 1 by {
        assert u.name in Holders(s.profiles, w);
      }
      CommitKeepsAccounted(s, codec, u.name, p.conferences, p', k, c', 1);
    }
  }

  /**
   * Saving a profile form, as written, forgets the user's registrations while
   * their seats stay taken: from a state where one user holds the only seat of a
   * conference, the save leaves a seat that is neither free nor held.
   */
  lemma SaveLosesSeats(codec: KeyCodec, u: User, form: ProfileForm)
    ensures var k := Key(u.name, 1);
      var c := Conference("", "", "", "", [], "", ZeroTime, ZeroTime, 0, 1, 0);
      var s := State(map[u.name := Profile(u.email, "", 0, [codec.encode(k)])], map[k := c], []);
      && Accounted(s, codec)
      && !Accounted(s.(profiles := Saved(s.profiles, u, form)), codec)
  {
    var k := Key(u.name, 1);
    var w := codec.encode(k);
    var c := Conference("", "", "", "", [], "", ZeroTime, ZeroTime, 0, 1, 0);
    var s := State(map[u.name := Profile(u.email, "", 0, [w])], map[k := c], []);
    assert Holders(s.profiles, w) == {u.name};
    var saved := Saved(s.profiles, u, form);
    assert Holders(saved, w) == {};
    assert k in s.conferences && s.conferences[k].seatsAvailable + |Holders(saved, w)| != s.conferences[k].maxAttendees;
  }

  /** A save that keeps the registrations keeps the seat accounting. */
  lemma SaveKeepingRegistrationsKeepsAccounted(s: State, codec: KeyCodec, u: User, form: ProfileForm)
    requires Accounted(s, codec)
    ensures Accounted(s.(profiles := SavedKeepingRegistrations(s.profiles, u, form)), codec)
  {
    var p := LoadProfile(s.profiles, u);
    var p' := Profile(u.email, form.displayName, form.teeShirtSize, p.conferences);
    var profiles' := SavedKeepingRegistrations(s.profiles, u, form);
    assert profiles' == s.profiles[u.name := p'];
    forall y: string
      ensures Holders(profiles', y) == Holders(s.profiles, y)
    {
      HoldersAfterUpdate(s.profiles, u.name, p.conferences, p', y);
    }
  }

  /** The faults under which a creation commits: at most the cache-clearing task fails. */
  predicate CreationCommits(faults: CreateFaults) {
    !faults.profileRead && !faults.put && !faults.emailTask && !faults.commit
  }

  /**
   * Creation accepts a negative attendee count, since `strconv.Atoi` reads "-1",
   * and stores it as the free seats too: whatever the state before, the state
   * after breaks the seat accounting.
   */
  lemma CreateWithNegativeCapacity(s: State, u: User, form: ConferenceForm, cal: Calendar, codec: KeyCodec,
                                   newId: int, faults: CreateFaults)
    requires form.maxAttendees == "-1" && form.startDate == "" && form.endDate == "" && CreationCommits(faults)
    ensures !Accounted(Create(s, Some(u), form, cal, codec, newId, faults).state, codec)
  {
    assert Atoi("-1") == Success(-1) by {
      assert "-1"[1..] == "1";
      assert DigitsValue("1") == 1 by {
        assert "1"[..0] == "";
      }
    }
    var k := Key(u.name, newId);
    var after := Create(s, Some(u), form, cal, codec, newId, faults).state;
    assert k in after.conferences && after.conferences[k].seatsAvailable == -1;
  }

  /**
   * Creating a conference with a capacity that is not negative, under a key no
   * profile lists yet, keeps the seat accounting: its seats are all free and
   * nobody holds one, and no other entry changes.
   */
  lemma CreateKeepsAccounted(s: State, u: User, form: ConferenceForm, cal: Calendar, codec: KeyCodec,
                             newId: int, faults: CreateFaults)
    requires Accounted(s, codec)
    requires FromConferenceForm(form, cal).Success? ==> FromConferenceForm(form, cal).value.maxAttendees >= 0
    requires forall pid :: pid in s.profiles ==> codec.encode(Key(u.name, newId)) !in s.profiles[pid].conferences
    ensures Accounted(Create(s, Some(u), form, cal, codec, newId, faults).state, codec)
  {
    var after := Create(s, Some(u), form, cal, codec, newId, faults).state;
    if after != s {
      var k := Key(u.name, newId);
      assert after.profiles == s.profiles;
      assert Holders(s.profiles, codec.encode(k)) == {};
      assert after.conferences[k].seatsAvailable == after.conferences[k].maxAttendees >= 0;
    }
  }
}
