/**
 * Profiles (profile.go): the profile key of the signed-in user, reading a
 * profile with a lazily supplied empty default, and saving a profile form,
 * which replaces the stored entity as a whole.
 */
module Profiles {
  import opened Wrappers
  import opened Numbers
  import opened Errors
  import opened Store

  datatype ProfileForm = ProfileForm(displayName: string, teeShirtSize: Int8)

  /** The datastore key name of the current user's profile; None when nobody is signed in. */
  function ProfileKey(user: Option<User>): (key: Option<string>)
    ensures key.Some? <==> user.Some?
    ensures user.Some? ==> key.value == user.value.name
  {
    match user
    case None => None
    case Some(u) => Some(u.name)
  }

  /** The profile a successful read yields: the stored entity, or an empty profile carrying the user's email. */
  function LoadProfile(profiles: map<string, Profile>, u: User): Profile {
    if u.name in profiles then profiles[u.name] else Profile(u.email, "", 0, [])
  }

  /** The profile map after a successful save: the user's entry replaced wholesale by the form's fields. */
  function Saved(profiles: map<string, Profile>, u: User, form: ProfileForm): map<string, Profile> {
    profiles[u.name := Profile(u.email, form.displayName, form.teeShirtSize, [])]
  }

  /**
   * The save the registration bookkeeping needs: the form's fields and the
   * user's email replace the stored ones, and the registrations are kept.
   */
  function SavedKeepingRegistrations(profiles: map<string, Profile>, u: User, form: ProfileForm): (r: map<string, Profile>)
    ensures r.Keys == profiles.Keys + {u.name}
    ensures r[u.name] == Profile(u.email, form.displayName, form.teeShirtSize, LoadProfile(profiles, u).conferences)
    ensures forall pid :: pid in profiles && pid != u.name ==> r[pid] == profiles[pid]
  {
    profiles[u.name := LoadProfile(profiles, u).(email := u.email, displayName := form.displayName, teeShirtSize := form.teeShirtSize)]
  }

  /**
   * `GetProfile`. Without a user: ErrUnauthorized and no profile. A datastore
   * failure other than a missing entity (`readFails`) is returned as it is.
   * A missing entity is no error: the result is an empty profile with the
   * user's email, and nothing is written.
   */
  method GetProfile(db: Datastore, user: Option<User>, readFails: bool) returns (r: Result<Profile, Error>)
    ensures user.None? ==> r == Failure(Status(ErrUnauthorized))
    ensures user.Some? && readFails ==> r == Failure(Service(Unavailable))
    ensures user.Some? && !readFails && user.value.name in db.profiles ==> r == Success(db.profiles[user.value.name])
    ensures user.Some? && !readFails && user.value.name !in db.profiles ==>
              r.Success? && r.value.email == user.value.email && r.value.displayName == ""
              && r.value.teeShirtSize == 0 && r.value.conferences == []
  {
    var key := ProfileKey(user);
    if key.None? {
      return Failure(Status(ErrUnauthorized));
    }
    if readFails {
      return Failure(Service(Unavailable));
    }
    var profile := Profile("", "", 0, []);
    if key.value in db.profiles {
      profile := db.profiles[key.value];
    } else {
      profile := profile.(email := user.value.email);
    }
    return Success(profile);
  }

  /**
   * `SaveProfile`. Without a user: ErrUnauthorized and nothing written. Otherwise
   * the stored profile becomes exactly the form's fields with the user's email;
   * a failing Put is returned and leaves the store as it was.
   */
  method SaveProfile(db: Datastore, user: Option<User>, form: ProfileForm, putFails: bool) returns (err: Option<Error>)
    modifies db
    ensures user.None? ==> err == Some(Status(ErrUnauthorized))
    ensures user.Some? && putFails ==> err == Some(Service(Unavailable))
    ensures err.None? <==> user.Some? && !putFails
    ensures err.None? ==> db.profiles == Saved(old(db.profiles), user.value, form)
    ensures err.Some? ==> db.profiles == old(db.profiles)
    ensures db.conferences == old(db.conferences) && db.tasks == old(db.tasks)
  {
    var key := ProfileKey(user);
    if key.None? {
      return Some(Status(ErrUnauthorized));
    }
    var profile := Profile(user.value.email, form.displayName, form.teeShirtSize, []);
    if putFails {
      return Some(Service(Unavailable));
    }
    db.profiles := db.profiles[key.value := profile];
    return None;
  }

  /** Reading after a save gives the form's display name and size, the user's email and no registrations. */
  lemma LoadAfterSave(profiles: map<string, Profile>, u: User, form: ProfileForm)
    ensures LoadProfile(Saved(profiles, u, form), u) == Profile(u.email, form.displayName, form.teeShirtSize, [])
  {
  }

  /** A save touches the saving user's profile only. */
  lemma SaveIsolated(profiles: map<string, Profile>, u: User, form: ProfileForm, other: User)
    requires other.name != u.name
    ensures LoadProfile(Saved(profiles, u, form), other) == LoadProfile(profiles, other)
  {
  }
}
