/**
 * The balance cache of background.js: a module-level `Map` from address to
 * the last reading, bounded to 128 entries by deleting the first key in
 * insertion order, and read back only while an entry is younger than five
 * minutes and was stored under the requested type.
 *
 * `CacheState` is the abstract value of the `Map` (its keys in iteration
 * order and its contents); the functions on it specify `BalanceCache`.
 */
module Cache {
  import opened Wrappers
  import opened JsValue
  import opened Provider

  const MaxCacheSize: nat := 128
  /** Five minutes, in milliseconds. */
  const CacheTtlMs: int := 5 * 60 * 1000

  /** `{balance, n_tx, type, timestamp}` as stored by `balanceCache.set`. */
  datatype Entry = Entry(balance: Number, txCount: Json, addressType: string, timestamp: int)

  /** A JavaScript `Map`: keys in insertion order, and what each key holds. */
  datatype CacheState = CacheState(order: seq<string>, entries: map<string, Entry>)

  predicate Distinct(keys: seq<string>)
  {
    forall i, j :: 0 <= i < j < |keys| ==> keys[i] != keys[j]
  }

  /** The order lists each stored key exactly once, and the size stays within the bound. */
  ghost predicate WellFormed(s: CacheState)
  {
    && Distinct(s.order)
    && (forall k :: k in s.entries <==> k in s.order)
    && |s.order| <= MaxCacheSize
  }

  function Size(s: CacheState): nat
  {
    |s.order|
  }

  const Empty: CacheState := CacheState([], map[])

  /** An entry may be served for `addressType` at time `now`. */
  predicate Fresh(e: Entry, addressType: string, now: int)
  {
    now - e.timestamp < CacheTtlMs && e.addressType == addressType
  }

  /** The `{balance, n_tx, type}` a cache hit returns. */
  function Served(e: Entry): AddressData
  {
    AddressData(e.balance, e.txCount, e.addressType)
  }

  /** The cache-hit test of line 14: `Some` exactly when the early return is taken. */
  function Cached(s: CacheState, address: string, addressType: string, now: int): (r: Option<AddressData>)
    ensures r.Some? <==> address in s.entries && Fresh(s.entries[address], addressType, now)
    ensures r.Some? ==> r.value.addressType == addressType
  {
    if address in s.entries && Fresh(s.entries[address], addressType, now)
    then Some(Served(s.entries[address]))
    else None
  }

  /**
   * The write of lines 64-69: when the map already holds 128 or more keys
   * the first one is deleted, whichever address is being written; then
   * `set` appends a new key, or overwrites an existing one in its place.
   */
  function Store(s: CacheState, address: string, e: Entry): (r: CacheState)
    requires WellFormed(s)
    ensures address in r.entries && r.entries[address] == e && address in r.order
    ensures |r.order| <= |s.order| + 1
    ensures forall k :: k in r.entries && k != address ==> k in s.entries && r.entries[k] == s.entries[k]
  {
    var kept := if |s.order| >= MaxCacheSize then CacheState(s.order[1..], s.entries - {s.order[0]}) else s;
    CacheState(if address in kept.entries then kept.order else kept.order + [address],
               kept.entries[address := e])
  }

  /** A write keeps the cache well formed, hence never above 128 entries. */
  lemma StorePreservesWellFormed(s: CacheState, address: string, e: Entry)
    requires WellFormed(s)
    ensures WellFormed(Store(s, address, e))
    ensures Size(Store(s, address, e)) <= Size(s) + 1
  {
    var kept := if |s.order| >= MaxCacheSize then CacheState(s.order[1..], s.entries - {s.order[0]}) else s;
    if |s.order| >= MaxCacheSize {
      forall k ensures k in kept.entries <==> k in kept.order {
        if k in kept.order {
          var j :| 0 <= j < |kept.order| && kept.order[j] == k;
          assert s.order[j + 1] == k;
        }
        if k in s.order && k != s.order[0] {
          var j :| 0 <= j < |s.order| && s.order[j] == k;
          assert kept.order[j - 1] == k;
        }
      }
    }
    assert Distinct(kept.order);
  }

  /**
   * When the map is full the first-inserted key is the one deleted, every
   * other key keeps its place, and the written address ends up present
   * with the new entry.
   */
  lemma StoreEvictsOldest(s: CacheState, address: string, e: Entry)
    requires WellFormed(s) && Size(s) >= MaxCacheSize
    ensures var t := Store(s, address, e);
      && t.order == s.order[1..] + (if address in s.order[1..] then [] else [address])
      && (s.order[0] != address ==> s.order[0] !in t.entries)
      && t.entries[address] == e
  {
    StorePreservesWellFormed(s, address, e);
    var kept := s.order[1..];
    forall k ensures k in kept <==> k in s.entries && k != s.order[0] {
      if k in kept {
        var j :| 0 <= j < |kept| && kept[j] == k;
        assert s.order[j + 1] == k;
      }
      if k in s.order && k != s.order[0] {
        var j :| 0 <= j < |s.order| && s.order[j] == k;
        assert kept[j - 1] == k;
      }
    }
  }

  /** Nothing but the evicted key and the written address changes. */
  lemma StoreFrame(s: CacheState, address: string, e: Entry, k: string)
    requires WellFormed(s) && k != address
    requires Size(s) >= MaxCacheSize ==> k != s.order[0]
    ensures var t := Store(s, address, e);
      && (k in t.entries <==> k in s.entries)
      && (k in s.entries ==> t.entries[k] == s.entries[k])
  {
  }

  /**
   * Writing a stored address that is not the first key keeps its place in
   * the order; when the map was full the oldest key still goes, so the size
   * drops by one.
   */
  lemma StoreExistingKeepsPosition(s: CacheState, address: string, e: Entry)
    requires WellFormed(s) && address in s.entries
    requires Size(s) >= MaxCacheSize ==> address != s.order[0]
    ensures var t := Store(s, address, e);
      && t.order == (if Size(s) >= MaxCacheSize then s.order[1..] else s.order)
      && t.entries[address] == e
      && Size(t) == (if Size(s) >= MaxCacheSize then Size(s) - 1 else Size(s))
  {
    if Size(s) >= MaxCacheSize {
      var j :| 0 <= j < |s.order| && s.order[j] == address;
      assert j != 0;
      assert s.order[1..][j - 1] == address;
    }
  }

  /** The 129th distinct address replaces the first one and the size stays at 128. */
  lemma StoreNewAddressWhenFull(s: CacheState, address: string, e: Entry)
    requires WellFormed(s) && Size(s) == MaxCacheSize && address !in s.entries
    ensures var t := Store(s, address, e);
      && t.order == s.order[1..] + [address]
      && Size(t) == MaxCacheSize
  {
    StoreEvictsOldest(s, address, e);
    assert address !in s.order[1..];
  }

  /** Below 128 entries nothing is evicted: a new address goes last and the size grows by one. */
  lemma StoreNewAddressNotFull(s: CacheState, address: string, e: Entry)
    requires WellFormed(s) && Size(s) < MaxCacheSize && address !in s.entries
    ensures var t := Store(s, address, e);
      && t.order == s.order + [address]
      && Size(t) == Size(s) + 1
      && forall k :: k in s.entries ==> k in t.entries && t.entries[k] == s.entries[k]
  {
    StorePreservesWellFormed(s, address, e);
  }

  /** The result of `getAddressData` and the cache it leaves behind. */
  datatype Step = Step(result: Result<AddressData, string>, after: CacheState)

  /**
   * `getAddressData(address, type)` on cache `s`: `readAt` is the clock at
   * the hit test, `writtenAt` the clock when the fresh reading is stored.
   */
  function GetAddressDataStep(s: CacheState, address: string, addressType: string,
                          readAt: int, writtenAt: int, outcome: FetchOutcome): (r: Step)
    requires WellFormed(s)
    ensures r.result.Err? ==> r.after == s
    ensures r.result.Ok? ==> r.result.value.addressType == addressType
  {
    match Cached(s, address, addressType, readAt)
    case Some(hit) => Step(Ok(hit), s)
    case None =>
      match FetchAddressData(address, addressType, outcome)
      case Ok(d) => Step(Ok(d), Store(s, address, Entry(d.balance, d.txCount, d.addressType, writtenAt)))
      case Err(message) => Step(Err(message), s)
  }

  /**
   * A fresh entry of the requested type answers the lookup whatever the
   * network would do, and the cache is left as it was; any other entry
   * sends the lookup to the network, whose outcome decides the result.
   */
  lemma CacheHitOrFetch(s: CacheState, address: string, addressType: string,
                        readAt: int, writtenAt: int, outcome: FetchOutcome)
    requires WellFormed(s)
    ensures var step := GetAddressDataStep(s, address, addressType, readAt, writtenAt, outcome);
      && (address in s.entries && Fresh(s.entries[address], addressType, readAt) ==>
            step == Step(Ok(Served(s.entries[address])), s))
      && (!(address in s.entries && Fresh(s.entries[address], addressType, readAt)) ==>
            var f := FetchAddressData(address, addressType, outcome);
            && step.result == f
            && step.after == (if f.Ok? then Store(s, address, Entry(f.value.balance, f.value.txCount, addressType, writtenAt))
                              else s))
  {
  }

  /** A stale entry, or one of another type, is never what a lookup returns from the cache. */
  lemma StaleOrMismatchedNeverServed(s: CacheState, address: string, addressType: string, readAt: int)
    requires address in s.entries
    requires readAt - s.entries[address].timestamp >= CacheTtlMs || s.entries[address].addressType != addressType
    ensures Cached(s, address, addressType, readAt) == None
  {
  }

  /** Every failure leaves the cache as it was; every success stores its reading at `writtenAt`. */
  lemma OnlySuccessWrites(s: CacheState, address: string, addressType: string,
                          readAt: int, writtenAt: int, outcome: FetchOutcome)
    requires WellFormed(s)
    ensures var step := GetAddressDataStep(s, address, addressType, readAt, writtenAt, outcome);
      && (step.result.Err? ==> step.after == s)
      && (step.after != s ==>
            (step.result.Ok? && address in step.after.entries
             && step.after.entries[address] == Entry(step.result.value.balance, step.result.value.txCount,
                                                     addressType, writtenAt)))
  {
  }

  /** Every stored entry was stored under a type the provider switch accepts. */
  predicate OnlySupportedTypes(s: CacheState)
  {
    forall k :: k in s.entries ==> IsSupported(s.entries[k].addressType)
  }

  /** Only successful lookups write, so only supported types are ever stored. */
  lemma GetAddressDataKeepsSupportedTypes(s: CacheState, address: string, addressType: string,
                                          readAt: int, writtenAt: int, outcome: FetchOutcome)
    requires WellFormed(s) && OnlySupportedTypes(s)
    ensures OnlySupportedTypes(GetAddressDataStep(s, address, addressType, readAt, writtenAt, outcome).after)
  {
  }

  /** An unsupported type fails with the wrapped message and leaves the cache alone. */
  lemma UnsupportedTypeLeavesCache(s: CacheState, address: string, addressType: string,
                                   readAt: int, writtenAt: int, outcome: FetchOutcome)
    requires WellFormed(s) && OnlySupportedTypes(s) && !IsSupported(addressType)
    ensures GetAddressDataStep(s, address, addressType, readAt, writtenAt, outcome)
            == Step(Err(UnsupportedTypeError), s)
  {
    assert Cached(s, address, addressType, readAt) == None;
  }

  /**
   * After a successful network lookup, asking again for the same address
   * and type within five minutes of the write returns the same record from
   * the cache, whatever the network would do, and changes nothing.
   */
  lemma RepeatWithinTtlHits(s: CacheState, address: string, addressType: string,
                                               readAt: int, writtenAt: int, outcome: FetchOutcome,
                                               readAgain: int, writtenAgain: int, outcome2: FetchOutcome)
    requires WellFormed(s)
    requires Cached(s, address, addressType, readAt).None?
    requires GetAddressDataStep(s, address, addressType, readAt, writtenAt, outcome).result.Ok?
    requires readAgain - writtenAt < CacheTtlMs
    ensures var first := GetAddressDataStep(s, address, addressType, readAt, writtenAt, outcome);
      WellFormed(first.after) &&
      GetAddressDataStep(first.after, address, addressType, readAgain, writtenAgain, outcome2)
      == Step(first.result, first.after)
  {
    var first := GetAddressDataStep(s, address, addressType, readAt, writtenAt, outcome);
    var d := first.result.value;
    StorePreservesWellFormed(s, address, Entry(d.balance, d.txCount, d.addressType, writtenAt));
  }

  /**
   * The cache key is the address alone, yet a reading stored under one
   * type is never served for another: the lookup goes to the network.
   */
  lemma TypeMismatchRefetches(s: CacheState, address: string, t1: string, t2: string,
                              readAt: int, writtenAt: int, outcome: FetchOutcome,
                              readAgain: int, writtenAgain: int, outcome2: FetchOutcome)
    requires WellFormed(s) && t1 != t2
    requires GetAddressDataStep(s, address, t1, readAt, writtenAt, outcome).result.Ok?
    requires Cached(s, address, t1, readAt).None?
    ensures var first := GetAddressDataStep(s, address, t1, readAt, writtenAt, outcome);
      WellFormed(first.after) &&
      GetAddressDataStep(first.after, address, t2, readAgain, writtenAgain, outcome2).result
      == FetchAddressData(address, t2, outcome2)
  {
    var first := GetAddressDataStep(s, address, t1, readAt, writtenAt, outcome);
    var d := first.result.value;
    StorePreservesWellFormed(s, address, Entry(d.balance, d.txCount, d.addressType, writtenAt));
  }

  /** The module-level `balanceCache` together with `getAddressData`, which updates it in place. */
  class BalanceCache {
    /** The `Map`'s keys in iteration (insertion) order. */
    var order: seq<string>
    /** What each key holds. */
    var entries: map<string, Entry>

    ghost function State(): CacheState
      reads this
    {
      CacheState(order, entries)
    }

    ghost predicate Valid()
      reads this
    {
      WellFormed(State()) && OnlySupportedTypes(State())
    }

    /** `new Map()`. */
    constructor ()
      ensures Valid() && State() == Empty
    {
      order := [];
      entries := map[];
    }

    /** The hit test of line 14, and the record the early return of line 16 builds. */
    method Lookup(address: string, addressType: string, now: int) returns (hit: Option<AddressData>)
      ensures hit.Some? <==> address in entries && now - entries[address].timestamp < CacheTtlMs
                             && entries[address].addressType == addressType
      ensures hit.Some? ==> hit.value.addressType == addressType
                            && hit.value.balance == entries[address].balance
                            && hit.value.txCount == entries[address].txCount
    {
      if address in entries {
        var cached := entries[address];
        if now - cached.timestamp < CacheTtlMs && cached.addressType == addressType {
          return Some(AddressData(cached.balance, cached.txCount, cached.addressType));
        }
      }
      return None;
    }

    /** Lines 64-69: delete the first key when 128 or more are held, then `set`. */
    method Put(address: string, e: Entry)
      requires Valid() && IsSupported(e.addressType)
      modifies this
      ensures Valid()
      ensures State() == Store(old(State()), address, e)
    {
      StorePreservesWellFormed(State(), address, e);
      if |order| >= MaxCacheSize {
        var oldest := order[0];
        order := order[1..];
        entries := entries - {oldest};
      }
      if address !in entries {
        order := order + [address];
      }
      entries := entries[address := e];
    }

    /**
     * `getAddressData(address, type)`: `readAt` and `writtenAt` are the two
     * readings of `Date.now()`, `outcome` what the request for the
     * provider's URL would give.
     */
    method GetAddressData(address: string, addressType: string, readAt: int, writtenAt: int,
                          outcome: FetchOutcome) returns (r: Result<AddressData, string>)
      requires Valid()
      modifies this
      ensures Valid()
      ensures Step(r, State()) == GetAddressDataStep(old(State()), address, addressType, readAt, writtenAt, outcome)
    {
      var hit := Lookup(address, addressType, readAt);
      if hit.Some? {
        return Ok(hit.value);
      }
      r := FetchAddressData(address, addressType, outcome);
      if r.Ok? {
        Put(address, Entry(r.value.balance, r.value.txCount, r.value.addressType, writtenAt));
      }
    }
  }
}
