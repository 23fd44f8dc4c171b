/**
 * The scheduled cleanup function (function/cleaner/index.js). For each of ten collections in
 * turn it fixes a cutoff (now minus the collection's retention) and deletes the documents whose
 * `timestamp` is at or before it, at most `batchSize` per round, until a round finds none. The
 * document store is an in-memory map from collection name to documents; a document is its id
 * and its `timestamp` field, absent when the field is missing or not a number.
 */
module Cleaner {
  import opened Wrappers

  type DocId = string

  type Docs = map<DocId, Option<int>>

  const Collections: seq<string> := [
    "events", "rooms", "sessionKeys",
    "local_events", "local_rooms", "local_sessionKeys", "local_tickets",
    "remote_events", "remote_rooms", "remote_sessionKeys"]

  const BatchSize: nat := 100

  /** `MINUTS_EXPIRES_IN[collectionName] || 5`. */
  function MinutesExpiresIn(name: string): (m: nat)
    ensures m == 1 <==> name in {"events", "local_events", "remote_events"}
    ensures m != 1 ==> m == 5
  {
    if name == "events" || name == "local_events" || name == "remote_events" then 1 else 5
  }

  /** The cutoff in epoch milliseconds: the clock reading moved back by the retention. */
  function Cutoff(name: string, nowMillis: int): (c: int)
    ensures c == nowMillis - MinutesExpiresIn(name) * 60000
    ensures c < nowMillis
  {
    nowMillis - MinutesExpiresIn(name) * 60 * 1000
  }

  /** The documents the query `timestamp <= cutoff` selects. */
  function Matching(docs: Docs, cutoff: int): (s: set<DocId>)
    ensures s <= docs.Keys
    ensures forall id :: id in docs ==> (id in s <==> docs[id].Some? && docs[id].value <= cutoff)
  {
    set id | id in docs && docs[id].Some? && docs[id].value <= cutoff
  }

  /** A collection once every selected document is gone. */
  function Purged(docs: Docs, cutoff: int): (r: Docs)
    ensures r.Keys == docs.Keys - Matching(docs, cutoff)
    ensures forall id :: id in r ==> r[id] == docs[id]
    ensures Matching(r, cutoff) == {}
  {
    map id | id in docs && id !in Matching(docs, cutoff) :: docs[id]
  }

  /** A collection with the documents `gone` deleted. */
  function Without(docs: Docs, gone: set<DocId>): (r: Docs)
    ensures r.Keys == docs.Keys - gone
    ensures forall id :: id in r ==> r[id] == docs[id]
  {
    map id | id in docs && id !in gone :: docs[id]
  }

  lemma WithoutMatching(docs: Docs, gone: set<DocId>, cutoff: int)
    ensures Matching(Without(docs, gone), cutoff) == Matching(docs, cutoff) - gone
  {
  }

  lemma WithoutTwice(docs: Docs, first: set<DocId>, second: set<DocId>)
    ensures Without(Without(docs, first), second) == Without(docs, first + second)
  {
  }

  /** Writing a collection twice keeps only the second write. */
  lemma UpdateTwice(store: map<string, Docs>, name: string, first: Docs, second: Docs)
    ensures store[name := first][name := second] == store[name := second]
  {
  }

  /** Deleting a non-empty batch of the still-selected documents leaves fewer of them. */
  lemma FewerSelected(selected: set<DocId>, deleted: set<DocId>, batch: set<DocId>)
    requires batch <= selected - deleted && batch != {}
    ensures |selected - (deleted + batch)| < |selected - deleted|
  {
    var rest := selected - deleted;
    assert selected - (deleted + batch) == rest - batch;
    assert rest == (rest - batch) + batch;
    assert (rest - batch) * batch == {};
  }

  /** Deleting selected documents keeps every other document as it was. */
  lemma WithoutOnlySelected(docs: Docs, gone: set<DocId>, cutoff: int)
    requires gone <= Matching(docs, cutoff)
    ensures forall id :: id in Without(docs, gone) ==> id in docs && Without(docs, gone)[id] == docs[id]
    ensures forall id :: id in docs && id !in Without(docs, gone) ==> id in Matching(docs, cutoff)
  {
  }

  lemma WithoutSelected(docs: Docs, cutoff: int)
    ensures Without(docs, Matching(docs, cutoff)) == Purged(docs, cutoff)
  {
  }

  /** Cleaning twice with the same cutoff removes nothing more. */
  lemma PurgedIdempotent(docs: Docs, cutoff: int)
    ensures Purged(Purged(docs, cutoff), cutoff) == Purged(docs, cutoff)
  {
  }

  /** A document newer than the cutoff, or without a numeric timestamp, is never deleted. */
  lemma NewerSurvive(docs: Docs, cutoff: int, id: DocId)
    requires id in docs && (docs[id].None? || docs[id].value > cutoff)
    ensures id in Purged(docs, cutoff) && Purged(docs, cutoff)[id] == docs[id]
  {
  }

  /** The store after cleaning `names` in order, each with its own clock reading. */
  function CleanedAll(store: map<string, Docs>, names: seq<string>, clock: seq<int>): map<string, Docs>
    requires |clock| == |names|
  {
    if names == [] then store
    else
      var before := CleanedAll(store, names[..|names| - 1], clock[..|clock| - 1]);
      var name := names[|names| - 1];
      if name in before then before[name := Purged(before[name], Cutoff(name, clock[|clock| - 1]))] else before
  }

  /** Cleaning never creates or drops a collection. */
  lemma {:induction false} CleanedAllKeys(store: map<string, Docs>, names: seq<string>, clock: seq<int>)
    requires |clock| == |names|
    ensures CleanedAll(store, names, clock).Keys == store.Keys
  {
    if names != [] {
      CleanedAllKeys(store, names[..|names| - 1], clock[..|clock| - 1]);
    }
  }

  /** A collection the list does not name is left exactly as it was. */
  lemma {:induction false} CleanedAllUntouched(store: map<string, Docs>, names: seq<string>, clock: seq<int>, other: string)
    requires |clock| == |names|
    requires other in store && other !in names
    ensures other in CleanedAll(store, names, clock) && CleanedAll(store, names, clock)[other] == store[other]
  {
    if names != [] {
      CleanedAllUntouched(store, names[..|names| - 1], clock[..|clock| - 1], other);
    }
  }

  /** Some `n` documents of `s` (all of them when there are fewer): what `limit(n)` returns. */
  method PickBatch(s: set<DocId>, n: nat) returns (batch: set<DocId>)
    ensures batch <= s
    ensures |batch| == if |s| < n then |s| else n
  {
    batch := {};
    var rest := s;
    while |batch| < n && rest != {}
      invariant batch <= s && rest == s - batch
      invariant |batch| <= n
      decreases |rest|
    {
      var id :| id in rest;
      batch := batch + {id};
      rest := rest - {id};
    }
    if |batch| < n {
      assert s == batch;
    }
  }

  class DocumentStore {
    var collections: map<string, Docs>

    constructor(initial: map<string, Docs>)
      ensures collections == initial
    {
      collections := initial;
    }

    /**
     * `deleteCollection(db, name, batchSize)`: the cutoff is fixed once; each round deletes up
     * to `batchSize` selected documents and the loop ends on an empty round. Returns the number
     * of non-empty rounds. With a positive batch size every selected document goes; with any
     * batch size, nothing else does.
     */
    method DeleteCollection(name: string, nowMillis: int, batchSize: nat) returns (rounds: nat)
      modifies this
      ensures collections.Keys == old(collections).Keys
      ensures forall n :: n in old(collections) && n != name ==> collections[n] == old(collections)[n]
      ensures name in old(collections) && batchSize > 0 ==>
                collections[name] == Purged(old(collections)[name], Cutoff(name, nowMillis))
      ensures name in old(collections) ==>
                forall id :: id in collections[name] ==> id in old(collections)[name] && collections[name][id] == old(collections)[name][id]
      ensures name in old(collections) ==>
                forall id :: id in old(collections)[name] && id !in collections[name] ==> id in Matching(old(collections)[name], Cutoff(name, nowMillis))
    {
      rounds := 0;
      if name !in collections {
        return;
      }
      ghost var deleted;
      rounds, deleted := DeleteBatches(name, Cutoff(name, nowMillis), batchSize);
      WithoutOnlySelected(old(collections)[name], deleted, Cutoff(name, nowMillis));
    }

    /**
     * `deleteQueryBatch`: repeats the limited query, deleting each non-empty result, until a
     * round finds nothing. `deleted` is the set of documents removed over all rounds.
     */
    method DeleteBatches(name: string, cutoff: int, batchSize: nat) returns (rounds: nat, ghost deleted: set<DocId>)
      requires name in collections
      modifies this
      ensures deleted <= Matching(old(collections)[name], cutoff)
      ensures collections == old(collections)[name := Without(old(collections)[name], deleted)]
      ensures batchSize > 0 ==> Without(old(collections)[name], deleted) == Purged(old(collections)[name], cutoff)
    {
      rounds := 0;
      ghost var original := collections[name];
      deleted := {};
      assert Without(original, deleted) == original;
      assert old(collections)[name := original] == old(collections);
      while true
        invariant deleted <= Matching(original, cutoff)
        invariant collections == old(collections)[name := Without(original, deleted)]
        decreases |Matching(original, cutoff) - deleted|
      {
        var docs := collections[name];
        WithoutMatching(original, deleted, cutoff);
        var batch := PickBatch(Matching(docs, cutoff), batchSize);
        if |batch| == 0 {
          if batchSize > 0 {
            WithoutSelected(original, cutoff);
          }
          break;
        }
        WithoutTwice(original, deleted, batch);
        FewerSelected(Matching(original, cutoff), deleted, batch);
        UpdateTwice(old(collections), name, docs, Without(original, deleted + batch));
        collections := collections[name := Without(docs, batch)];
        deleted := deleted + batch;
        rounds := rounds + 1;
      }
    }

    /** `cleanup()`: the ten collections in list order, batch size 100; `clock` holds each one's reading. */
    method Cleanup(clock: seq<int>)
      requires |clock| == |Collections|
      modifies this
      ensures collections == CleanedAll(old(collections), Collections, clock)
    {
      for i := 0 to |Collections|
        invariant collections == CleanedAll(old(collections), Collections[..i], clock[..i])
      {
        assert Collections[..i + 1][..i] == Collections[..i];
        assert clock[..i + 1][..i] == clock[..i];
        var _ := DeleteCollection(Collections[i], clock[i], BatchSize);
      }
      assert Collections[..|Collections|] == Collections;
      assert clock[..|clock|] == clock;
    }
  }
}
