/** An expire-after-write cache bounded in size, as the service manager builds
    with Guava's CacheBuilder: each key remembers the time of its last write,
    reads see a key only while fewer than `duration` time units have passed
    since that write, and a write into a full cache evicts an entry. Time is
    an explicit `now` argument. */
module Health {

  /** Each cached key with the time of its last write. */
  type Entries = map<string, int>

  /** `key` is visible at time `now`: it was written less than `duration`
      ago. */
  predicate IsLive(m: Entries, key: string, now: int, duration: int)
  {
    key in m && now - m[key] < duration
  }

  /** The entries still visible at `now`; the expired ones are what a write
      first cleans up. The ensures only restate the comprehension in terms of
      `IsLive`; the properties of writes are the lemmas further down. */
  function Unexpired(m: Entries, now: int, duration: int): (live: Entries)
    ensures forall k :: k in live <==> IsLive(m, k, now, duration)
    ensures forall k :: k in live ==> k in m && live[k] == m[k]
  {
    map k | k in m && now - m[k] < duration :: m[k]
  }

  /** `v` is an entry written no later than any other. */
  predicate IsOldest(m: Entries, v: string)
  {
    v in m && forall k :: k in m ==> m[v] <= m[k]
  }

  /** The state after writing `key` at `now`: the expired entries are dropped;
      when the key is not among the live ones and the cache is full, one of
      the oldest-written live entries is evicted; then the key is stored with
      write time `now`, restarting its clock. */
  ghost predicate PutOutcome(before: Entries, after: Entries, key: string, now: int,
                             duration: int, capacity: nat)
  {
    var live := Unexpired(before, now, duration);
    if key in live || |live| < capacity then after == live[key := now]
    else exists v :: IsOldest(live, v) && after == (live - {v})[key := now]
  }

  lemma {:induction false} SubsetCardinality(a: set<string>, b: set<string>)
    requires a <= b
    ensures |a| <= |b|
    decreases |a|
  {
    if a != {} {
      var x :| x in a;
      SubsetCardinality(a - {x}, b - {x});
    }
  }

  /** A non-empty cache has an oldest-written entry. */
  lemma {:induction false} OldestExists(m: Entries)
    requires |m| > 0
    ensures exists v :: IsOldest(m, v)
    decreases |m|
  {
    var k0 :| k0 in m;
    var rest := m - {k0};
    assert rest.Keys == m.Keys - {k0};
    assert forall k :: k in m && k != k0 ==> k in rest && rest[k] == m[k];
    if |rest| == 0 {
      assert rest == map[];
      assert IsOldest(m, k0);
    } else {
      OldestExists(rest);
      var v :| IsOldest(rest, v);
      if m[k0] <= m[v] {
        assert IsOldest(m, k0);
      } else {
        assert IsOldest(m, v);
      }
    }
  }

  /** Cleaning up expired entries never grows the cache. */
  lemma UnexpiredNoLarger(m: Entries, now: int, duration: int)
    ensures |Unexpired(m, now, duration)| <= |m|
  {
    var live := Unexpired(m, now, duration);
    assert live.Keys <= m.Keys;
    SubsetCardinality(live.Keys, m.Keys);
  }

  /** A write keeps a cache within its maximum size. */
  lemma PutStaysWithinCapacity(before: Entries, after: Entries, key: string, now: int,
                               duration: int, capacity: nat)
    requires |before| <= capacity
    requires PutOutcome(before, after, key, now, duration, capacity)
    ensures |after| <= capacity
  {
    var live := Unexpired(before, now, duration);
    UnexpiredNoLarger(before, now, duration);
    if key in live {
      assert |after| == |live|;
    } else if |live| < capacity {
      assert |after| == |live| + 1;
    } else {
      var v :| IsOldest(live, v) && after == (live - {v})[key := now];
      var rest := live - {v};
      assert rest.Keys == live.Keys - {v};
      assert |rest.Keys| == |live.Keys| - 1;
      assert key !in rest;
      assert |after| == |rest| + 1;
    }
  }

  /** A write makes its key visible exactly until `duration` has passed since
      this write, and changes no other key's write time; the only other key it
      can drop while still live is a single oldest-written one, and only when
      the cache is full. */
  lemma PutEffect(before: Entries, after: Entries, key: string, now: int,
                  duration: int, capacity: nat)
    requires PutOutcome(before, after, key, now, duration, capacity)
    ensures forall t :: IsLive(after, key, t, duration) <==> t - now < duration
    ensures forall k :: k in after && k != key ==> IsLive(before, k, now, duration) && after[k] == before[k]
    ensures forall k :: IsLive(before, k, now, duration) && k != key && k !in after ==>
      key !in Unexpired(before, now, duration) &&
      |Unexpired(before, now, duration)| >= capacity &&
      IsOldest(Unexpired(before, now, duration), k) &&
      forall j :: IsLive(before, j, now, duration) && j != key && j != k ==> j in after
  {
    var live := Unexpired(before, now, duration);
    if !(key in live || |live| < capacity) {
      var v :| IsOldest(live, v) && after == (live - {v})[key := now];
      assert forall k :: IsLive(before, k, now, duration) && k != key && k !in after ==> k == v;
    }
  }

  /** One of the service manager's three caches. */
  class ExpiringCache {
    var entries: Entries
    const duration: int
    const capacity: nat

    ghost predicate Valid()
      reads this
    {
      capacity > 0 && |entries| <= capacity
    }

    /** `asMap().containsKey(key)`: only unexpired keys are visible. */
    predicate Contains(key: string, now: int)
      reads this
    {
      IsLive(entries, key, now, duration)
    }

    /** `CacheBuilder.newBuilder().expireAfterWrite(duration).maximumSize(capacity).build()`. */
    constructor (duration: int, capacity: nat)
      requires duration >= 0 && capacity > 0
      ensures Valid() && entries == map[]
      ensures this.duration == duration && this.capacity == capacity
    {
      entries := map[];
      this.duration := duration;
      this.capacity := capacity;
    }

    /** `put(key, key)` at time `now`. */
    method Put(key: string, now: int)
      requires Valid()
      modifies this
      ensures Valid()
      ensures PutOutcome(old(entries), entries, key, now, duration, capacity)
    {
      var live := Unexpired(entries, now, duration);
      if key in live || |live| < capacity {
        entries := live[key := now];
      } else {
        UnexpiredNoLarger(entries, now, duration);
        OldestExists(live);
        var victim :| IsOldest(live, victim);
        entries := (live - {victim})[key := now];
      }
      PutStaysWithinCapacity(old(entries), entries, key, now, duration, capacity);
    }
  }
}
