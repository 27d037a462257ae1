# ud859 conference service — a Dafny model of its core

ud859 is a Go App Engine service for conferences. Signed-in users keep a
profile. They create conferences, register to them and cancel registrations.
They query conferences through the datastore or through a search index. The
model covers the parts of the service that decide what is stored and what is
answered:

- **Registration** (`registration.go`). A profile's list of conference keys and
  the conference's seat counter change together in one cross-group transaction.
  Registering appends the key and takes a seat. Cancelling removes the key and
  gives the seat back. Every error path leaves the datastore as it was.
- **Profiles** (`profile.go`). These cover the profile key of the signed-in
  user, reading a profile with an empty default, and saving the profile form.
- **Conferences** (`conference.go`). These cover building a conference from
  the creation form, reading one by key or by websafe key, and creating one.
  Creating queues the confirmation email.
- **Queries** (`query.go`, and the older copy in `model.go`). The query form
  collects filters. Its check lets at most one field carry an inequality. The
  datastore query it plans is ordered by that field and then by name, with one
  clause per filter. `ConferencesToAttend` builds the list of keys behind the
  conferences a user attends.
- **The older data model** (`model.go`). This covers decoding a filter from
  JSON, the error constructors, the form with comma-separated topics and short
  dates, and a profile that lists numeric conference ids.
- **The search index** (`search.go`). This covers the document a conference is
  indexed as, the conference read back from a document, the query string
  compiled from the filters, the search loop, and the upsert of a document.
- **The reconciliation sweep** (`cleanup.go`). Orphaned documents are deleted,
  drifted documents are replaced and matching ones are kept.

State-changing code is imperative Dafny:

- `Store.Datastore` is a class holding the profiles, the conferences and the
  task queue.
- `Search.SearchIndex` holds the index documents.
- The profile and filter structs that Go updates in place are classes.

Each transaction method is proved equal to a function of the state before it:
`Registration.Goto`, `Registration.Cancel` and `Conferences.Create`. The
properties of the service are then proved as lemmas about those functions.

The model leaves two things to its caller:

- **Services as parameters.** The time library is a `Calendar` of functions,
  and websafe key encoding is a `KeyCodec`. Every failure of the datastore,
  the task queue or the search index is a boolean or a set of failing
  positions. The properties hold for any behaviour of those services, with
  two exceptions about key encoding. `Store.EncodeInjective`,
  `Conferences.GetConferenceByItsOwnKey`, `Registration.CommitKeepsAccounted`,
  `Registration.GotoKeepsAccounted` and `Registration.CancelKeepsAccounted`
  assume that decoding an encoded key gives it back (`Store.RoundTrips`).
  `Cleanup.DecisionStaysOnItsDocument` and the whole-sweep lemmas
  (`Cleanup.UnlistedUntouched`, `Cleanup.LaterStepsElsewhere`,
  `Cleanup.ListedOutcome`) assume that each listed id that decodes is the
  encoding of its key (`Store.EncodesItsKey`, within `Cleanup.WellKeyed`).
- **Assumed helper behaviour.** The registration code uses `profileID`,
  `getProfile`, `errConflict` and `errInternalServer`. These are not part of
  this model. Without a user, `profileID` is taken to fail with
  `ErrUnauthorized`. `getProfile` is taken to return the stored profile, or an
  empty one carrying the user's email, as `GetProfile` does. `errConflict` is
  given status 409 and `errInternalServer` status 500.

Behaviour worth noting:

- **Malformed key.** A malformed key gives a 400 "invalid conference key".
- **Query orders.** A query without an inequality is ordered by name.
- **Filter operators.** Operators are neither validated nor normalised.
- **Conflict status.** The inequality conflict is a 400 in `query.go` and a 403
  in `model.go`.
- **Duplicate registrations.** The older profile's `Goto` appends an id even
  when it is already listed.
- **Seat bounds.** Cancelling gives a seat back with no upper clamp.
  `0 <= seatsAvailable <= maxAttendees` follows only from the seat-accounting
  invariant (`Registration.Accounted`). Registration and cancellation keep
  that invariant, and saving a profile breaks it (see Findings).
- **Negative capacity.** Creation accepts a negative attendee count such as
  "-1", which `strconv.Atoi` reads, and stores it as the free seats too. The
  state after such a creation breaks the seat-accounting invariant
  (`Registration.CreateWithNegativeCapacity`). A creation with a capacity that
  is not negative, under a key no profile lists yet, keeps it
  (`Registration.CreateKeepsAccounted`).

## Model

| member | source | states |
|---|---|---|
| Profiles.ProfileKey | profile.go:11-16 | There is a key exactly when a user is signed in, and it is named by that user. |
| Profiles.GetProfile | profile.go:19-36 | Without a user: ErrUnauthorized. A datastore failure is returned. Otherwise the result is the stored profile, or a missing entity gives an empty profile with the user's email and no registrations. |
| Profiles.SaveProfile | profile.go:39-54 | Without a user: ErrUnauthorized and nothing written. A failed Put leaves the store as it was. Otherwise the user's entry becomes the form's fields with the user's email, and conferences and tasks are untouched. |
| Profiles.LoadAfterSave | profile.go:45-52 | Reading after a save gives the form's display name and size, the user's email and an empty registration list. |
| Profiles.SaveIsolated | profile.go:45-52 | A save leaves every other user's profile as it was. |
| Profiles.SavedKeepingRegistrations | profile.go:46-50 | Corrected save: the form's fields and email replace the stored ones, the registrations stay, and other profiles are untouched. |
| Registration.ProfileEntity.Register | registration.go:11-13 | The key is appended at the end of the list, and no other field changes. |
| Registration.ProfileEntity.Unregister | registration.go:15-22 | The first equal entry is removed and the rest keep their order. An absent key changes nothing. |
| Registration.ProfileEntity.IsRegistered | registration.go:25-32 | The answer is true exactly when the key is in the list. |
| Registration.ReadErrors | registration.go:67-76 | The multi-error is empty exactly when both reads succeeded. |
| Registration.GotoConference | registration.go:35-118 | The error and the new datastore and queue equal `Goto` applied to the old state. |
| Registration.CancelConference | registration.go:121-201 | The error and the new datastore and queue equal `Cancel` applied to the old state. |
| Registration.FailedAttemptsChangeNothing | registration.go:45-110 | A registration or cancellation that returns an error writes neither the profile nor the conference, and queues nothing. |
| Registration.MalformedKeyRejected | registration.go:40-43 | A websafe key that does not decode is a 400 "invalid conference key", for both operations. |
| Registration.GotoAlreadyRegistered | registration.go:78-80 | A key already in the profile gives the "already registered" conflict whatever the seats, and nothing is written. |
| Registration.GotoNoSeats | registration.go:81-83 | An unregistered profile facing zero or fewer seats gets "no seats available", and nothing is written. |
| Registration.CancelNotRegistered | registration.go:164-166 | Cancelling a key not in the profile gives "not registered", and nothing is written. |
| Registration.GotoSucceeds | registration.go:85-117 | Without faults before the commit, the key is appended to the user's profile and exactly one seat is taken. No other entry changes, and a failing cache task does not fail the call. |
| Registration.CancelSucceeds | registration.go:168-200 | The first occurrence of the key is removed and exactly one seat comes back. No other entry changes. |
| Registration.GotoThenCancel | registration.go:35-201 | Registering then cancelling restores the conference exactly and the user's registration list. |
| Registration.LastSeatGoesOnce | registration.go:81-97 | With one seat left, a second user's registration after a first user's successful one gets "no seats available". |
| Registration.AccountedBounds | registration.go:81-93 | Under the accounting invariant the seats are between 0 and the maximum. |
| Registration.CommitKeepsAccounted | registration.go:85-97 | A committed write that moves one registration and one seat in step keeps free seats plus holders equal to capacity. |
| Registration.GotoKeepsAccounted | registration.go:78-97 | Every registration outcome keeps the invariant: no duplicate keys, and free seats plus registered profiles equal the maximum. |
| Registration.CancelKeepsAccounted | registration.go:164-180 | Every cancellation outcome keeps the same invariant. |
| Registration.SaveLosesSeats | profile.go:46-52 | As written, saving a form after holding the only seat leaves a state where that seat is neither free nor held. |
| Registration.SaveKeepingRegistrationsKeepsAccounted | profile.go:46-52 | The corrected save keeps the seat-accounting invariant. |
| Registration.CreateWithNegativeCapacity | conference.go:169-185 | A creation from a form with attendee count "-1" that commits leaves a state breaking the seat accounting, whatever the state before. |
| Registration.CreateKeepsAccounted | conference.go:85-187 | A creation whose capacity is not negative, under a key no profile lists, keeps the seat-accounting invariant. |
| Lists.RemoveFirstNoDuplicates | registration.go:15-22 | Removing the first occurrence from a duplicate-free list removes the key, keeps every other key and stays duplicate-free. |
| Lists.RemoveFirstAfterAppend | registration.go:11-22 | Appending a key not yet listed and then removing it gives the list back. |
| Lists.JoinSplit | model.go:242 | Joining the comma-separated pieces gives the form's topics string back. |
| Lists.SplitJoinIff | search.go:38 | Splitting the space-joined topics gives them back exactly when there is at least one and none contains a space. |
| Numbers.Atoi | conference.go:169-174 | A result lies in the 64-bit range and starts with a digit or sign. A failure is the syntax or range error text. |
| Numbers.AtoiItoa | model.go:257 | Every 64-bit number written in decimal reads back as itself. |
| Numbers.AtoiRejectsNonDigits | model.go:257-260 | A character that is neither a digit nor a leading sign makes the text a syntax error. |
| Errors.NewErrorCode | model.go:157-162 | The error has no cause and the given message and status. |
| Errors.NewError | model.go:153-155 | A business-rule error has status 403. |
| Errors.ErrBadRequest | model.go:164-170 | The error has the given cause and message and status 400. |
| Errors.ErrNotFound | model.go:172-178 | The error has the given cause and message and status 404. |
| Errors.ErrConflict | registration.go:78-80 | A conflict has no cause and status 409. |
| Errors.ErrInternalServer | registration.go:88-90 | An internal error has the given cause and status 500. |
| Errors.ErrorText | model.go:180-182 | The text is "ud859: ", then the message, then the cause in parentheses. |
| Errors.ErrorTextDeterminesMessage | model.go:180-182 | Two errors with one cause print alike only when their messages are equal. |
| Errors.NamedErrorStatuses | model.go:146-151 | ErrUnauthorized is a 401. The three registration errors are 403s, and they are pairwise distinct. |
| Store.Stored | conference.go:18 | A Put drops the websafe key and keeps every other field. |
| Store.EncodeInjective | conference.go:72-82 | Under a round-tripping codec, distinct keys have distinct websafe forms. |
| Filters.LastInequality | query.go:21-30 | There is none exactly when no filter is an inequality. Otherwise it is an inequality filter with no inequality after it. |
| Filters.CommonInequalityField | query.go:22-28 | Without a conflict, every inequality filter is on the last inequality's field. |
| Filters.ConflictHere | query.go:23-25 | An inequality on another field than the last one so far is a conflict. |
| Filters.SameFieldInequalitiesAccepted | query.go:18-32 | Any number of inequalities on one field is no conflict. |
| Query.ConferenceQueryForm.AddFilter | query.go:12-15 | Exactly one filter is appended at the end, and the form itself is returned. |
| Query.ConferenceQueryForm.CheckFilters | query.go:18-32 | It fails exactly when two inequalities name different fields, with a 400. On success the form holds the last inequality. On failure it holds the last one before the first conflicting filter. |
| Query.ConferenceQueryForm.Query | query.go:35-55 | It fails exactly on a conflict. Otherwise the query is on "Conference", ordered by the inequality field (if any) and then by name, with one "Field Op" clause per filter in order. |
| Query.AttendedKeys | query.go:121-124 | There is one key per registration, in order, under the profile's key. |
| Query.ConferencesToAttend | query.go:103-139 | Without a user: ErrUnauthorized. A failing profile read returns its error. No registrations give an empty list. Otherwise every registered conference is returned in order with its websafe key set, or no such entity when any is missing. |
| Model.Truncate | model.go:126 | The fraction is dropped toward zero. |
| Model.FilterEntity.UnmarshalJSON | model.go:111-144 | The outcome and the filter's new fields equal `Unmarshal` of the old fields. |
| Model.UnmarshalNeedsThreeMembers | model.go:112-119 | Non-JSON text, or an object without exactly three members, is a 400 "unable to parse filter" that changes nothing. |
| Model.UnmarshalPanicsWithoutStrings | model.go:121-122 | A missing or non-string "field" or "op" fails the type assertion. |
| Model.UnmarshalDateString | model.go:128-138 | A date string is parsed as RFC 3339 and then as a short date. It decodes exactly when one layout parses, and both failing is a 400 naming the field. |
| Model.UnmarshalDateOtherwise | model.go:139-141 | A date field holding neither a string nor a time is a 400 naming the field. |
| Model.UnmarshalMaxAttendees | model.go:125-126 | A number becomes a truncated int, and anything else fails the type assertion. |
| Model.UnmarshalOtherFields | model.go:121-124 | Other fields keep the decoded value, the object's field and its operator. |
| Model.ConferenceQueryForm.AddFilter | model.go:184-187 | Exactly one filter is appended at the end, and the form itself is returned. |
| Model.ConferenceQueryForm.CheckFilters | model.go:189-204 | It fails exactly on two inequalities on different fields, with a 403. The inequality held is as in the current version. |
| Model.ConferenceQueryForm.Query | model.go:214-235 | It fails exactly on a conflict. Otherwise it is ordered by the last inequality's field and then by name, with one clause per filter in order. |
| Model.FromConferenceForm | model.go:237-265 | The first unparsable date or count is a 400 and there is no conference. Otherwise the text fields are copied, the topics join back to the form's string, and every seat is free. |
| Model.Profile.Goto | model.go:267-269 | The id is appended even when already listed, and the other fields are unchanged. |
| Model.Profile.Cancel | model.go:271-278 | The first equal id is removed and the order is kept. An absent id changes nothing. |
| Model.Profile.Registered | model.go:280-287 | The answer is true exactly when the id is listed. |
| Conferences.FromConferenceForm | conference.go:145-187 | It succeeds exactly when every given date and count parses, and the first failure is a 400. Empty fields give zero values. The month comes from the start date, and every seat is free. |
| Conferences.EmptyOptionalFields | conference.go:154-174 | A form without dates or count always gives a conference with zero dates, month and seats. |
| Conferences.LoadConference | conference.go:72-82 | It succeeds exactly when the key is stored, with the websafe key set from the key. Otherwise it is a 404 "conference not found". |
| Conferences.GetConference | conference.go:64-70 | A key that does not decode is a 400 "invalid conference key". Otherwise the result is the read by key. |
| Conferences.GetConferenceByItsOwnKey | conference.go:64-82 | Reading a conference by the websafe key it came back with gives it again. |
| Conferences.CreateConference | conference.go:85-142 | The result and the new datastore and queue equal `Create` applied to the old state. |
| Conferences.CreateSucceeds | conference.go:97-141 | The conference is stored under the new key with the creator's display name and all seats free. The confirmation goes to the creator's email, and no other entry changes. |
| Conferences.FailedCreationChangesNothing | conference.go:85-133 | A failed creation writes nothing. The identity error comes first, then the form's error. |
| Conferences.CreateDoesNotIndex | conference.go:113-136 | Creation queues no reindexing. |
| Search.FromConference | search.go:32-46 | The fields are copied, and the month comes from the start date. The topics split back exactly when at least one exists and none has a space. |
| Search.FromConferenceDoc | search.go:49-63 | The fields are copied, the topics rejoin to the document's string, the dates are in UTC, and the month comes from the start date. |
| Search.ProjectionRoundTrip | search.go:32-63 | Indexing then reading back gives the conference exactly when its topics survive the join, its dates are UTC and its month is its start date's. |
| Search.AlphaNumeric | search.go:94-99 | Letters and digits are kept, and anything else becomes a space. |
| Search.Sanitize | search.go:84 | The length is kept, and each character is mapped on its own. |
| Search.SanitizeProperties | search.go:84-99 | The result holds only letters, digits and spaces, and sanitizing is idempotent. |
| Search.Clause | search.go:68-89 | Every clause is non-empty and ends with a space. |
| Search.NotEqualRewritten | search.go:72-75 | `!=` becomes `NOT field` with `=`. |
| Search.KeyClause | search.go:77-80 | The KEY field is compared with its quoted value, unsanitized. |
| Search.StringClause | search.go:83-84 | A string value is an equality on its sanitized text, whatever the operator. |
| Search.DateClause | search.go:85-86 | A date is printed as a short date after the operator. |
| Search.SearchQueryClauses | search.go:66-92 | Each filter appends exactly its clause, and no filters give the empty string. |
| Search.QueryString | search.go:66-92 | The loop builds exactly the concatenated clauses. |
| Search.SearchConferences | search.go:101-126 | An index that does not open, or an iterator error, is a 500. Otherwise the result is the conferences read back from the documents up to the end, in order. |
| Search.SearchIndex.IndexConferenceNow | search.go:142-152 | The document is put under the websafe key, replacing any there. A failure is a 500 and changes nothing. |
| Cleanup.CleanIndex | cleanup.go:17-62 | An unopened index changes nothing. Otherwise the index becomes the sweep over the listing up to the first iterator error, the datastore is only read, and the cache task is queued. |
| Cleanup.DecisionStaysOnItsDocument | cleanup.go:35-57 | With documents under their own keys, each decision touches only the listed document. |
| Cleanup.UnlistedUntouched | cleanup.go:26-58 | A document not listed before the stop is left exactly as it was. |
| Cleanup.ListedOutcome | cleanup.go:35-57 | Each listed document ends deleted, replaced by its conference's current document, or untouched, as decided. A failed write leaves it as it was. |
| Cleanup.MatchingDocumentKept | cleanup.go:51 | A document equal to its conference's projection is kept. |
| Cleanup.DriftedDocumentReplaced | cleanup.go:51-57 | A drifted document is replaced by the conference's current document under its websafe key. |
| Cleanup.OrphanDeleted | cleanup.go:35-49 | A document whose key does not decode, or whose conference is gone, is deleted. |

## Left out

- Goroutines and channels in `GotoConference` and `CancelConference`: the two reads run in sequence, and the multi-error lists the profile's error before the conference's. In Go the order depends on which read finishes first.
- Datastore read failures other than a missing entity in `getConference`, and the failures of `GetMulti` in `ConferencesToAttend` (its per-key `MultiError` included): they are collapsed into one no-such-entity error. The profile read in `ConferencesToAttend` is modelled, as one unavailable-service failure.
- `QueryConferences` and `ConferencesCreated` (query.go:58-100): they only run a planned query in the datastore, and query execution is not modelled.
- The sort in `searchConferences` (search.go:124): the ordering it uses is declared outside the modelled files.
- `conferenceText` and its template (conference.go:189-203), and the confirmation email's text: the task carries the conference itself.
- `ConferenceQueryForm.String` (model.go:206-212): it only formats for logging.
- `isTesting` and the deferred `indexConferenceDelay` (search.go:128-140): the model always queues reindexing as a task.
- The conference `ID` field of the current version, and the id the datastore allocates for an incomplete key. The id is a parameter of `CreateConference`, and the model does not promise that it is fresh, so `Conferences.Create` may overwrite a stored conference. `Registration.CreateKeepsAccounted` does not need freshness, only that no profile lists the new key.
- `Numbers.Atoi`: the quoting in its error text does not escape special characters. A string whose digits overflow before an invalid character is reported out of range by Go, and here as invalid syntax.
- `Search.ConferenceDoc`: the counters are float64 in the index and are modelled as ints, so out-of-range float-to-int conversion is not modelled.
- `Search.IsAlphaNumeric`: Unicode letter and number classes are approximated by ASCII.
- `Search.Clause`: fmt's `%q` and `%v` for values other than strings and ints are a `Printer` parameter.
- `Search.Clause`: a KEY filter's string value is written between double quotes without escaping. fmt's `%q` escapes quotes, backslashes and non-printable characters, so such a value gives a different clause in Go.
- `Model.Truncate`: a JSON number arrives as an exact real. Go decodes it into a float64 first, which rounds values beyond 2^53. Converting a float64 outside the int range to an int is implementation-defined in Go, and is not modelled.
- `Filters.NE`: its definition is not part of this model, and "!=" is assumed.
- `Search.SearchConferences`: the error of a search index that does not open is given a fixed text.
- The seat counters are not wrapped at the 64-bit bound.
- `handler.go`, `server.go`, `task.go` and `cache.go` are not part of this model: HTTP routing, authentication, the cache and the task handlers.

## Findings

| source | as written | input that shows it | evidently intended | confidence | as-written member | corrected member |
|---|---|---|---|---|---|---|
| profile.go:46-52 | `SaveProfile` builds a new profile from the form and puts it. This drops the stored `Conferences` list. | A user holds the only seat of a conference and then saves a profile form. The seat is neither free nor held by any profile, and it can never be cancelled. | Saving a form updates the display name and tee-shirt size and keeps the registrations. | not executed | Registration.SaveLosesSeats | Registration.SaveKeepingRegistrationsKeepsAccounted |
