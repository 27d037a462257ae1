/**
 * The entities of the service's current version and the App Engine services the
 * core talks to, as plain state: the datastore (profiles by key name,
 * conferences by key) and the task queue that carries deferred work (reindexing
 * a conference, clearing the no-filter cache, sending a confirmation email).
 */
module Store {
  import opened Wrappers
  import opened Dates
  import opened Numbers

  /** Datastore key of a conference: the creating profile's key name and a numeric id (0 for an incomplete key). */
  datatype Key = Key(parent: string, id: int)

  /** `Key.Encode` and `datastore.DecodeKey` (a failure carries the decoder's error text). */
  datatype KeyCodec = KeyCodec(encode: Key -> string, decode: string -> Result<Key, string>)

  /** Decoding an encoded key gives the key back. */
  ghost predicate RoundTrips(codec: KeyCodec) {
    forall k: Key :: codec.decode(codec.encode(k)) == Success(k)
  }

  /** The websafe string `s`, if it decodes, is the encoding of its key. */
  predicate EncodesItsKey(codec: KeyCodec, s: string) {
    codec.decode(s).Success? ==> codec.encode(codec.decode(s).value) == s
  }

  /** A round-tripping codec never gives two keys the same websafe form. */
  lemma EncodeInjective(codec: KeyCodec, k1: Key, k2: Key)
    requires RoundTrips(codec) && k1 != k2
    ensures codec.encode(k1) != codec.encode(k2)
  {
    assert codec.decode(codec.encode(k1)) == Success(k1);
    assert codec.decode(codec.encode(k2)) == Success(k2);
  }

  /** A conference (conference.go): `websafeKey` is not stored, it is set from the key on every read. */
  datatype Conference = Conference(
    websafeKey: string,
    name: string,
    description: string,
    organizer: string,
    topics: seq<string>,
    city: string,
    startDate: Time,
    endDate: Time,
    month: int,
    maxAttendees: int,
    seatsAvailable: int)

  /** What a datastore Put keeps of a conference: everything but the `datastore:"-"` websafe key. */
  function Stored(c: Conference): (s: Conference)
    ensures s.websafeKey == "" && s.(websafeKey := c.websafeKey) == c
  {
    c.(websafeKey := "")
  }

  /** A profile; `conferences` lists the websafe keys of the conferences it is registered to, in registration order. */
  datatype Profile = Profile(email: string, displayName: string, teeShirtSize: Int8, conferences: seq<string>)

  /** The signed-in user: `name` is its `String()` form, which names its profile. */
  datatype User = User(name: string, email: string)

  /** Deferred work (`delay.Func` calls and the confirmation task). */
  datatype Task =
    | IndexConference(conference: Conference)
    | ClearCache
    | SendConfirmation(email: string, conference: Conference)

  /** The state the core reads and writes, as one value. */
  datatype State = State(profiles: map<string, Profile>, conferences: map<Key, Conference>, tasks: seq<Task>)

  /** The datastore together with the task queue. */
  class Datastore {
    var profiles: map<string, Profile>
    var conferences: map<Key, Conference>
    var tasks: seq<Task>

    constructor ()
      ensures profiles == map[] && conferences == map[] && tasks == []
    {
      profiles, conferences, tasks := map[], map[], [];
    }

    function Snapshot(): State
      reads this
    {
      State(profiles, conferences, tasks)
    }
  }
}
