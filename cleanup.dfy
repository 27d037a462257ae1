/**
 * The index reconciliation sweep (cleanup.go). Every listed search document is
 * checked against the datastore: a document whose key does not decode or whose
 * conference is gone is deleted, one that no longer matches its conference is
 * replaced by the conference's current document, and one that matches is left
 * alone. Failed deletes and puts are only logged; the sweep stops at the first
 * iterator error, the end of the listing included, and then clears the cache.
 */
module Cleanup {
  import opened Wrappers
  import opened Dates
  import opened Store
  import opened Conferences
  import opened Search

  /** One step of the listing iterator: a document under its id, or an error (the end of the listing among them). */
  datatype ListStep = Listed(id: string, doc: ConferenceDoc) | Stop

  /** What the sweep does with one document. */
  datatype Action = Delete(id: string) | Replace(id: string, doc: ConferenceDoc) | Keep

  /** The decision for the document `doc` listed under `id`. */
  function Decide(id: string, doc: ConferenceDoc, conferences: map<Key, Conference>, codec: KeyCodec, cal: Calendar): Action {
    match codec.decode(doc.websafeKey)
    case Failure(_) => Delete(id)
    case Success(k) =>
      match LoadConference(conferences, k, codec)
      case Failure(_) => Delete(id)
      case Success(c) => if FromConferenceDoc(doc, cal) == c then Keep else Replace(c.websafeKey, FromConference(c, cal))
  }

  /** The index after an action; a failed delete or put leaves it as it was. */
  function Apply(docs: map<string, ConferenceDoc>, a: Action, fails: bool): map<string, ConferenceDoc> {
    if fails then docs
    else match a
      case Delete(id) => docs - {id}
      case Replace(id, d) => docs[id := d]
      case Keep => docs
  }

  /** The position of the first step that is not a document, or the number of steps. */
  function FirstStop(listing: seq<ListStep>): (n: nat)
    ensures n <= |listing| && (n < |listing| ==> listing[n].Stop?)
    ensures forall i :: 0 <= i < n ==> listing[i].Listed?
  {
    if listing == [] || listing[0].Stop? then 0 else 1 + FirstStop(listing[1..])
  }

  /** The action taken at a listed position. */
  function ActionAt(listing: seq<ListStep>, i: nat, conferences: map<Key, Conference>, codec: KeyCodec, cal: Calendar): Action
    requires i < |listing| && listing[i].Listed?
  {
    Decide(listing[i].id, listing[i].doc, conferences, codec, cal)
  }

  /** The index after the first `n` listed documents were handled; `failing` holds the positions whose write fails. */
  function SweepTo(docs: map<string, ConferenceDoc>, listing: seq<ListStep>, n: nat, conferences: map<Key, Conference>,
                   codec: KeyCodec, cal: Calendar, failing: set<int>): map<string, ConferenceDoc>
    requires n <= FirstStop(listing)
  {
    if n == 0 then docs
    else Apply(SweepTo(docs, listing, n - 1, conferences, codec, cal, failing),
               ActionAt(listing, n - 1, conferences, codec, cal), n - 1 in failing)
  }

  /**
   * `cleanIndex`. When the index does not open, nothing happens. Otherwise the
   * documents are handled in listing order up to the first iterator error, the
   * datastore is only read, and the cache-clearing task is queued (its failure
   * ignored).
   */
  method CleanIndex(db: Datastore, index: SearchIndex, listing: seq<ListStep>, codec: KeyCodec, cal: Calendar,
                    openFails: bool, failing: set<int>, cacheFails: bool)
    modifies db, index
    ensures db.profiles == old(db.profiles) && db.conferences == old(db.conferences)
    ensures openFails ==> index.docs == old(index.docs) && db.tasks == old(db.tasks)
    ensures !openFails ==>
              && index.docs == SweepTo(old(index.docs), listing, FirstStop(listing), db.conferences, codec, cal, failing)
              && db.tasks == old(db.tasks) + (if cacheFails then [] else [ClearCache])
  {
    if openFails {
      return;
    }
    var n := 0;
    while true
      invariant 0 <= n <= FirstStop(listing) <= |listing|
      invariant db.profiles == old(db.profiles) && db.conferences == old(db.conferences) && db.tasks == old(db.tasks)
      invariant index.docs == SweepTo(old(index.docs), listing, n, db.conferences, codec, cal, failing)
      decreases |listing| - n
    {
      if n == |listing| || listing[n].Stop? {
        break;
      }
      var id, doc := listing[n].id, listing[n].doc;
      var fails := n in failing;
      match codec.decode(doc.websafeKey) {
        case Failure(_) =>
          if !fails {
            index.docs := index.docs - {id};
          }
        case Success(key) =>
          var read := LoadConference(db.conferences, key, codec);
          if read.Failure? {
            if !fails {
              index.docs := index.docs - {id};
            }
          } else if FromConferenceDoc(doc, cal) != read.value {
            if !fails {
              index.docs := index.docs[read.value.websafeKey := FromConference(read.value, cal)];
            }
          }
      }
      n := n + 1;
    }
    if !cacheFails {
      db.tasks := db.tasks + [ClearCache];
    }
  }

  // ---------------------------------------------------------------------------
  // What a sweep leaves

  /**
   * The index keeps documents under their websafe key (documents are put under
   * `WebsafeKey`), and when that key is the encoding of the key it decodes to, a
   * document's replacement goes to the id it was listed under.
   */
  lemma DecisionStaysOnItsDocument(id: string, doc: ConferenceDoc, conferences: map<Key, Conference>, codec: KeyCodec, cal: Calendar)
    requires id == doc.websafeKey && EncodesItsKey(codec, id)
    ensures var a := Decide(id, doc, conferences, codec, cal);
      a == Keep || a == Delete(id) || (a.Replace? && a.id == id)
  {
    if codec.decode(doc.websafeKey).Success? {
      assert codec.encode(codec.decode(doc.websafeKey).value) == doc.websafeKey;
    }
  }

  /** The ids listed before position `n`. */
  ghost predicate ListedBefore(listing: seq<ListStep>, n: nat, y: string)
    requires n <= FirstStop(listing)
  {
    exists i :: 0 <= i < n && listing[i].id == y
  }

  /**
   * The conditions of the whole-sweep lemmas: distinct ids, each the document's
   * own websafe key and, when it decodes, the encoding of the key it decodes to.
   */
  ghost predicate WellKeyed(listing: seq<ListStep>, codec: KeyCodec)
  {
    && (forall i :: 0 <= i < FirstStop(listing) ==>
          listing[i].id == listing[i].doc.websafeKey && EncodesItsKey(codec, listing[i].id))
    && (forall i, j :: 0 <= i < j < FirstStop(listing) ==> listing[i].id != listing[j].id)
  }

  /** The two indexes agree on the document under `x`: both lack it, or both hold the same one. */
  ghost predicate SameAt(after: map<string, ConferenceDoc>, before: map<string, ConferenceDoc>, x: string) {
    (x in after <==> x in before) && (x in before ==> after[x] == before[x])
  }

  /** An action aimed at another id leaves the document under `x` as it was. */
  lemma ApplyElsewhere(docs: map<string, ConferenceDoc>, a: Action, fails: bool, x: string)
    requires a == Keep || (a.Delete? && a.id != x) || (a.Replace? && a.id != x)
    ensures SameAt(Apply(docs, a, fails), docs, x)
  {
  }

  /** A document whose id was not listed before the stop is left exactly as it was. */
  lemma {:induction false} UnlistedUntouched(docs: map<string, ConferenceDoc>, listing: seq<ListStep>, n: nat,
                                             conferences: map<Key, Conference>, codec: KeyCodec, cal: Calendar,
                                             failing: set<int>, y: string)
    requires n <= FirstStop(listing) && WellKeyed(listing, codec) && !ListedBefore(listing, n, y)
    ensures SameAt(SweepTo(docs, listing, n, conferences, codec, cal, failing), docs, y)
  {
    if n > 0 {
      assert !ListedBefore(listing, n - 1, y);
      UnlistedUntouched(docs, listing, n - 1, conferences, codec, cal, failing, y);
      DecisionStaysOnItsDocument(listing[n - 1].id, listing[n - 1].doc, conferences, codec, cal);
      ApplyElsewhere(SweepTo(docs, listing, n - 1, conferences, codec, cal, failing),
                     ActionAt(listing, n - 1, conferences, codec, cal), n - 1 in failing, y);
    }
  }

  /** Later positions do not touch the document listed at `i`. */
  lemma {:induction false} LaterStepsElsewhere(docs: map<string, ConferenceDoc>, listing: seq<ListStep>, n: nat,
                                               conferences: map<Key, Conference>, codec: KeyCodec, cal: Calendar,
                                               failing: set<int>, i: nat)
    requires n <= FirstStop(listing) && WellKeyed(listing, codec) && i < n
    ensures SameAt(SweepTo(docs, listing, n, conferences, codec, cal, failing),
                   SweepTo(docs, listing, i + 1, conferences, codec, cal, failing), listing[i].id)
  {
    if n > i + 1 {
      LaterStepsElsewhere(docs, listing, n - 1, conferences, codec, cal, failing, i);
      DecisionStaysOnItsDocument(listing[n - 1].id, listing[n - 1].doc, conferences, codec, cal);
      ApplyElsewhere(SweepTo(docs, listing, n - 1, conferences, codec, cal, failing),
                     ActionAt(listing, n - 1, conferences, codec, cal), n - 1 in failing, listing[i].id);
    }
  }

  /**
   * The document listed at position `i` ends as its decision says: deleted when
   * its key does not decode or its conference is gone, replaced by the
   * conference's current document when they differ, untouched when they agree —
   * unless the write at that position failed, which leaves it as it was.
   */
  lemma ListedOutcome(docs: map<string, ConferenceDoc>, listing: seq<ListStep>, n: nat,
                      conferences: map<Key, Conference>, codec: KeyCodec, cal: Calendar,
                      failing: set<int>, i: nat)
    requires n <= FirstStop(listing) && WellKeyed(listing, codec) && i < n
    ensures var after := SweepTo(docs, listing, n, conferences, codec, cal, failing);
      var x := listing[i].id;
      var a := ActionAt(listing, i, conferences, codec, cal);
      && (i !in failing && a.Delete? ==> x !in after)
      && (i !in failing && a.Replace? ==> x in after && after[x] == a.doc)
      && (i in failing || a.Keep? ==> SameAt(after, docs, x))
  {
    var x := listing[i].id;
    DecisionStaysOnItsDocument(x, listing[i].doc, conferences, codec, cal);
    assert !ListedBefore(listing, i, x);
    UnlistedUntouched(docs, listing, i, conferences, codec, cal, failing, x);
    LaterStepsElsewhere(docs, listing, n, conferences, codec, cal, failing, i);
  }

  /** Deciding reads the datastore only: a document's conference decides, and a matching document is kept. */
  lemma MatchingDocumentKept(id: string, doc: ConferenceDoc, conferences: map<Key, Conference>, codec: KeyCodec, cal: Calendar, k: Key)
    requires codec.decode(doc.websafeKey) == Success(k) && k in conferences
    requires FromConferenceDoc(doc, cal) == conferences[k].(websafeKey := codec.encode(k))
    ensures Decide(id, doc, conferences, codec, cal) == Keep
  {
  }

  /** A drifted document is replaced, under its conference's websafe key, by that conference's current document. */
  lemma DriftedDocumentReplaced(id: string, doc: ConferenceDoc, conferences: map<Key, Conference>, codec: KeyCodec, cal: Calendar, k: Key)
    requires codec.decode(doc.websafeKey) == Success(k) && k in conferences
    requires FromConferenceDoc(doc, cal) != conferences[k].(websafeKey := codec.encode(k))
    ensures Decide(id, doc, conferences, codec, cal)
         == Replace(codec.encode(k), FromConference(conferences[k].(websafeKey := codec.encode(k)), cal))
  {
  }

  /** Orphans go: a document whose key does not decode, or whose conference no longer exists, is deleted. */
  lemma OrphanDeleted(id: string, doc: ConferenceDoc, conferences: map<Key, Conference>, codec: KeyCodec, cal: Calendar)
    requires codec.decode(doc.websafeKey).Failure? || codec.decode(doc.websafeKey).value !in conferences
    ensures Decide(id, doc, conferences, codec, cal) == Delete(id)
  {
  }
}
