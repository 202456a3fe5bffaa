/**
 * The in-memory analysis cache: a map from key to an entry carrying the
 * cached value, its creation time and its expiry time.  Expiry is lazy —
 * `Get` hides an expired entry but leaves it stored — and the periodic
 * sweeper is never started by the constructor, so `Sweep` (one pass of the
 * sweeper's loop body) is only reachable if a caller runs it.
 *
 * Time is an integer number of nanoseconds passed in as `now`.
 */
module Cache {
  import opened Common

  datatype CacheItem<D> = CacheItem(data: D, expiresAt: int, createdAt: int)

  /** An entry is visible at `now` unless `now` is strictly after its expiry. */
  predicate Fresh<D>(item: CacheItem<D>, now: int)
  {
    !(now > item.expiresAt)
  }

  /** What a lookup at time `now` returns. */
  function Lookup<D>(items: map<string, CacheItem<D>>, key: string, now: int): (r: Option<D>)
    ensures r.Some? <==> key in items && Fresh(items[key], now)
  {
    if key in items && Fresh(items[key], now) then Some(items[key].data) else None
  }

  /** The map after storing `data` under `key` at `now` for `ttl` nanoseconds. */
  function Store<D>(items: map<string, CacheItem<D>>, key: string, data: D, ttl: int, now: int): map<string, CacheItem<D>>
  {
    items[key := CacheItem(data, now + ttl, now)]
  }

  /** The map after one sweep at `now`: exactly the entries still fresh. */
  function Swept<D>(items: map<string, CacheItem<D>>, now: int): (r: map<string, CacheItem<D>>)
    ensures forall k :: k in r <==> k in items && Fresh(items[k], now)
    ensures forall k :: k in r ==> r[k] == items[k]
  {
    map k | k in items && Fresh(items[k], now) :: items[k]
  }

  /** A stored value is returned until its expiry instant, inclusive, and not after. */
  lemma StoreThenLookup<D>(items: map<string, CacheItem<D>>, key: string, data: D, ttl: int, now: int, later: int)
    ensures Lookup(Store(items, key, data, ttl, now), key, later) ==
      (if later <= now + ttl then Some(data) else None)
  {
  }

  /** Storing one key changes no lookup of any other key. */
  lemma StoreLeavesOthers<D>(items: map<string, CacheItem<D>>, key: string, data: D, ttl: int, now: int,
                             other: string, later: int)
    requires other != key
    ensures Lookup(Store(items, key, data, ttl, now), other, later) == Lookup(items, other, later)
  {
  }

  /** A new key grows the map by one entry: nothing bounds the number of entries. */
  lemma StoreNewKeyGrows<D>(items: map<string, CacheItem<D>>, key: string, data: D, ttl: int, now: int)
    requires key !in items
    ensures |Store(items, key, data, ttl, now)| == |items| + 1
  {
    assert Store(items, key, data, ttl, now).Keys == items.Keys + {key};
  }

  /** Sweeping is invisible to lookups made at the sweep time or later: it
      removes only entries that no such lookup could return. */
  lemma SweepInvisible<D>(items: map<string, CacheItem<D>>, now: int, key: string, later: int)
    requires now <= later
    ensures Lookup(Swept(items, now), key, later) == Lookup(items, key, later)
  {
    if key in items && !Fresh(items[key], now) {
      assert !Fresh(items[key], later);
    }
  }

  class AnalysisCache<D> {
    var items: map<string, CacheItem<D>>

    /** Every stored key can be cut to its first 16 characters, as the
        debug output of Get and Set does for all stored keys. */
    ghost predicate Valid()
      reads this
    {
      forall k :: k in items ==> |k| >= 16
    }

    constructor ()
      ensures Valid() && items == map[]
    {
      items := map[];
    }

    /** Requires |key| >= 16: the debug line slices `key[:16]`. */
    method Get(key: string, now: int) returns (data: Option<D>)
      requires Valid() && |key| >= 16
      ensures data == Lookup(items, key, now)
      ensures data.Some? ==> key in items && now <= items[key].expiresAt
    {
      if key in items && !(now > items[key].expiresAt) {
        data := Some(items[key].data);
      } else {
        data := None;
      }
    }

    /** Overwrites any previous entry for `key` and leaves the others alone. */
    method Set(key: string, data: D, ttl: int, now: int)
      requires Valid() && |key| >= 16
      modifies this
      ensures Valid()
      ensures items == Store(old(items), key, data, ttl, now)
      ensures items[key] == CacheItem(data, now + ttl, now)
      ensures forall k :: k != key ==> (k in items <==> k in old(items))
      ensures forall k :: k != key && k in items ==> items[k] == old(items)[k]
    {
      items := items[key := CacheItem(data, now + ttl, now)];
    }

    /** One pass of the sweeper: deletes every entry whose expiry is before
        `now`, and reports how many it removed. */
    method Sweep(now: int) returns (removed: nat)
      requires Valid()
      modifies this
      ensures Valid()
      ensures items == Swept(old(items), now)
      ensures removed == |old(items)| - |items|
    {
      var pending := items.Keys;
      removed := 0;
      while pending != {}
        invariant pending <= old(items).Keys
        invariant forall k :: k in items <==> k in old(items) && (k in pending || Fresh(old(items)[k], now))
        invariant forall k :: k in items ==> items[k] == old(items)[k]
        invariant removed == |old(items)| - |items|
        decreases pending
      {
        var k :| k in pending;
        if now > items[k].expiresAt {
          assert (items - {k}).Keys == items.Keys - {k};
          items := items - {k};
          removed := removed + 1;
        }
        pending := pending - {k};
      }
      assert items == Swept(old(items), now);
    }

    /** The same visibility rule as Get, without the debug output, so any key length works. */
    method GetWithMetrics(key: string, now: int) returns (data: Option<D>)
      ensures data == Lookup(items, key, now)
      ensures data.Some? ==> key in items && now <= items[key].expiresAt
    {
      if key in items && !(now > items[key].expiresAt) {
        data := Some(items[key].data);
      } else {
        data := None;
      }
    }
  }
}
