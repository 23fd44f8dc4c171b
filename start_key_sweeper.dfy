/**
 * The start-key expiry sweep (server/components/StartKeySweeper.js). Every interval the sweeper
 * reads the clock once and visits each recorded key: a key either server reports in use is
 * refreshed to that reading, an idle key younger than the TTL is kept, and an idle key at least
 * the TTL old is removed from both servers and from the map.
 */
module Sweeper {
  import opened Sockets

  const CheckIntervalMillis: int := 10000
  const TimeoutMillis: int := 5 * 60 * 1000

  /** What `isStartKeyUsed` on the two servers answers during a pass. */
  type UsedCheck = StartKey -> bool

  /** An idle key whose age has reached the TTL (the boundary included). */
  predicate Expired(timestamps: map<StartKey, int>, now: int, used: UsedCheck, k: StartKey)
    requires k in timestamps
  {
    !used(k) && now - timestamps[k] >= TimeoutMillis
  }

  /** The keys one pass removes from the local server, the remote server and the map. */
  function Removed(timestamps: map<StartKey, int>, now: int, used: UsedCheck): (gone: set<StartKey>)
    ensures gone <= timestamps.Keys
    ensures forall k :: k in timestamps ==> (k in gone <==> !used(k) && now - timestamps[k] >= TimeoutMillis)
  {
    set k | k in timestamps && Expired(timestamps, now, used, k)
  }

  /** The map after a pass at clock reading `now`. */
  function Swept(timestamps: map<StartKey, int>, now: int, used: UsedCheck): (r: map<StartKey, int>)
    ensures r.Keys == timestamps.Keys - Removed(timestamps, now, used)
    ensures forall k :: k in r && used(k) ==> r[k] == now
    ensures forall k :: k in r && !used(k) ==> r[k] == timestamps[k] && now - r[k] < TimeoutMillis
  {
    map k | k in timestamps && !Expired(timestamps, now, used, k) :: if used(k) then now else timestamps[k]
  }

  /** The map part-way through a pass, once the keys of `done` have been visited. */
  function Partial(timestamps: map<StartKey, int>, now: int, used: UsedCheck, done: set<StartKey>): map<StartKey, int>
  {
    map k | k in timestamps && !(k in done && Expired(timestamps, now, used, k)) ::
      if k in done && used(k) then now else timestamps[k]
  }

  /** A key in use is never removed, whatever its age. */
  lemma UsedKeySurvives(timestamps: map<StartKey, int>, now: int, used: UsedCheck, k: StartKey)
    requires k in timestamps && used(k)
    ensures k in Swept(timestamps, now, used) && Swept(timestamps, now, used)[k] == now
  {
  }

  /**
   * A second pass with the same clock reading and the same answers changes nothing: refreshed
   * keys are then zero milliseconds old and every other survivor is already younger than the TTL.
   */
  lemma SweepIdempotent(timestamps: map<StartKey, int>, now: int, used: UsedCheck)
    ensures Swept(Swept(timestamps, now, used), now, used) == Swept(timestamps, now, used)
  {
    var once := Swept(timestamps, now, used);
    assert Removed(once, now, used) == {};
  }

  /** A key refreshed by `setStartKey` less than a TTL ago survives a pass even when idle. */
  lemma RecentKeySurvives(timestamps: map<StartKey, int>, k: StartKey, setAt: int, now: int, used: UsedCheck)
    requires setAt <= now < setAt + TimeoutMillis
    ensures k in Swept(timestamps[k := setAt], now, used)
  {
  }

  /** The last pass before a key set at `setAt` expires: an idle key goes exactly at the TTL. */
  lemma IdleKeyExpiresAtTtl(timestamps: map<StartKey, int>, k: StartKey, setAt: int, used: UsedCheck)
    requires !used(k)
    ensures k !in Swept(timestamps[k := setAt], setAt + TimeoutMillis, used)
    ensures k in Swept(timestamps[k := setAt], setAt + TimeoutMillis - 1, used)
  {
  }

  class StartKeySweeper {
    var timestamps: map<StartKey, int>

    constructor()
      ensures timestamps == map[]
    {
      timestamps := map[];
    }

    /** `setStartKey(startKey)`: record the key with the current time, replacing any earlier one. */
    method SetStartKey(k: StartKey, now: int)
      modifies this
      ensures timestamps == old(timestamps)[k := now]
    {
      timestamps := timestamps[k := now];
    }

    /**
     * One interval pass at clock reading `now`. Returns the keys for which `remove` is called on
     * both servers.
     */
    method Sweep(now: int, used: UsedCheck) returns (removed: set<StartKey>)
      modifies this
      ensures timestamps == Swept(old(timestamps), now, used)
      ensures removed == Removed(old(timestamps), now, used)
    {
      ghost var start := timestamps;
      var todo := timestamps.Keys;
      removed := {};
      while todo != {}
        invariant todo <= start.Keys
        invariant timestamps == Partial(start, now, used, start.Keys - todo)
        invariant removed == set k | k in start.Keys - todo && Expired(start, now, used, k)
        decreases todo
      {
        var k :| k in todo;
        ghost var done := start.Keys - todo;
        assert k in timestamps && timestamps[k] == start[k];
        if used(k) {
          timestamps := timestamps[k := now];
        } else if now - timestamps[k] < TimeoutMillis {
        } else {
          timestamps := timestamps - {k};
          removed := removed + {k};
        }
        todo := todo - {k};
        assert start.Keys - todo == done + {k};
      }
      assert start.Keys - todo == start.Keys;
    }
  }
}
