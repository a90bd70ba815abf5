/**
 * src/airstack/airstack.ts: `fetchTrendingMints` behind a cache-aside layer.
 * The list is cached under the one fixed key "last-trending-mints" for a day,
 * whatever the time frame and criteria; on a miss that yields items, the
 * first token record of every addressed item is also stored under the item's
 * address for thirty days, unless an entry is already there.
 */
module CachedTrending {
  import opened Wrappers
  import opened AirstackTypes
  import opened RedisStore
  import LibAirstack

  const OneDaySeconds: nat := 60 * 60 * 24
  const ThirtyDaysSeconds: nat := 60 * 60 * 24 * 30

  /** The cached list as read back; a well-typed store only holds a MintList there. */
  function MintsOf(v: Value): seq<Mint> {
    if v.MintList? then v.mints else []
  }

  /** The detail record an item would contribute: its first token record, if it has an address. */
  predicate Contributes(m: Mint) {
    HasAddress(m) && FirstNft(m).Some?
  }

  /**
   * The per-item detail writes, one item after the other in list order: an
   * item with an address and a token record stores that record under its
   * address for thirty days, unless a truthy entry is already there.
   */
  function Prepopulate(s: Store, mints: seq<Mint>, now: int): Store
    decreases |mints|
  {
    if mints == [] then s
    else
      var t := Prepopulate(s, mints[..|mints| - 1], now);
      var m := mints[|mints| - 1];
      if Contributes(m) && !Hit(t, ItemDetail(m.address.value), now)
      then PutEx(t, ItemDetail(m.address.value), ThirtyDaysSeconds, NftRecord(FirstNft(m).value), now)
      else t
  }

  /** The record the detail pass stores for an address: that of the first contributing item with it. */
  function FirstRecordFor(mints: seq<Mint>, address: string): Option<Nft>
    decreases |mints|
  {
    if mints == [] then None
    else
      var r := FirstRecordFor(mints[..|mints| - 1], address);
      var m := mints[|mints| - 1];
      if r.Some? then r
      else if Contributes(m) && m.address.value == address then FirstNft(m)
      else None
  }

  /** The keys the detail pass may write. */
  predicate DetailKeyOf(mints: seq<Mint>, k: Key) {
    k.ItemDetail? && FirstRecordFor(mints, k.address).Some?
  }

  /** Keys that no contributing item names are left as they were. */
  lemma {:induction false} PrepopulateFrame(s: Store, mints: seq<Mint>, now: int, k: Key)
    requires !DetailKeyOf(mints, k)
    ensures Agree(s, Prepopulate(s, mints, now), k)
    decreases |mints|
  {
    if mints != [] {
      PrepopulateFrame(s, mints[..|mints| - 1], now, k);
    }
  }

  /** Write-once: an entry that is already a hit is never refreshed. */
  lemma {:induction false} PrepopulateWriteOnce(s: Store, mints: seq<Mint>, now: int, k: Key)
    requires Hit(s, k, now)
    ensures Agree(s, Prepopulate(s, mints, now), k)
    decreases |mints|
  {
    if mints != [] {
      PrepopulateWriteOnce(s, mints[..|mints| - 1], now, k);
    }
  }

  /**
   * An address that was a miss ends up holding the first token record of the
   * first contributing item with that address, expiring thirty days from now.
   */
  lemma {:induction false} PrepopulateFills(s: Store, mints: seq<Mint>, now: int, address: string)
    requires FirstRecordFor(mints, address).Some?
    requires !Hit(s, ItemDetail(address), now)
    ensures var t := Prepopulate(s, mints, now);
      && ItemDetail(address) in t
      && t[ItemDetail(address)] == Entry(NftRecord(FirstRecordFor(mints, address).value),
                                         Some(now + ThirtyDaysSeconds * 1000))
    decreases |mints|
  {
    var init := mints[..|mints| - 1];
    var m := mints[|mints| - 1];
    var t := Prepopulate(s, init, now);
    if FirstRecordFor(init, address).Some? {
      PrepopulateFills(s, init, now, address);
      assert Hit(t, ItemDetail(address), now);
    } else {
      PrepopulateFrame(s, init, now, ItemDetail(address));
      assert !Hit(t, ItemDetail(address), now);
    }
  }

  datatype TrendingRun = TrendingRun(store: Store, result: Result<seq<Mint>>, queried: bool)

  /**
   * The cached `fetchTrendingMints(timeFrame, criteria)`; `query` answers the
   * trending query for given variables, and `queried` says whether it was asked.
   */
  function FetchCached(s: Store, timeFrame: TimeFrame, criteria: TrendingMintsCriteria,
                       query: (TimeFrame, TrendingMintsCriteria) -> TrendingResponse, now: int): TrendingRun
  {
    if Hit(s, TrendingCache, now) then TrendingRun(s, Ok(MintsOf(Lookup(s, TrendingCache, now).value)), false)
    else
      match query(timeFrame, criteria)
      case TrendingFailed(message) => TrendingRun(s, Err(UpstreamFailed(message)), true)
      case TrendingNoData => TrendingRun(s, Ok([]), true)
      case TrendingNullList => TrendingRun(s, Err(NullDereference("TrendingMints.TrendingMint")), true)
      case TrendingList(mints) =>
        if |mints| == 0 then TrendingRun(s, Ok([]), true)
        else TrendingRun(PutEx(Prepopulate(s, mints, now), TrendingCache, OneDaySeconds, MintList(mints), now),
                         Ok(mints), true)
  }

  /** The per-item detail pass (sequentialised `Promise.all`). */
  method PrepopulateDetails(redis: Redis, mints: seq<Mint>, now: int)
    modifies redis
    ensures redis.entries == Prepopulate(old(redis.entries), mints, now)
  {
    var i := 0;
    while i < |mints|
      invariant 0 <= i <= |mints|
      invariant redis.entries == Prepopulate(old(redis.entries), mints[..i], now)
    {
      assert mints[..i + 1][..i] == mints[..i];
      var m := mints[i];
      if Contributes(m) {
        var cached := redis.Get(ItemDetail(m.address.value), now);
        if !(cached.Some? && Truthy(cached.value)) {
          redis.SetEx(ItemDetail(m.address.value), ThirtyDaysSeconds, NftRecord(FirstNft(m).value), now);
        }
      }
      i := i + 1;
    }
    assert mints[..|mints|] == mints;
  }

  method FetchTrendingMints(redis: Redis, timeFrame: TimeFrame, criteria: TrendingMintsCriteria,
                            query: (TimeFrame, TrendingMintsCriteria) -> TrendingResponse, now: int)
    returns (result: Result<seq<Mint>>, queried: bool)
    modifies redis
    ensures TrendingRun(redis.entries, result, queried) == FetchCached(old(redis.entries), timeFrame, criteria, query, now)
  {
    var cached := redis.Get(TrendingCache, now);
    if cached.Some? && Truthy(cached.value) {
      return Ok(MintsOf(cached.value)), false;
    }
    queried := true;
    match query(timeFrame, criteria)
    case TrendingFailed(message) =>
      result := Err(UpstreamFailed(message));
    case TrendingNoData =>
      result := Ok([]);
    case TrendingNullList =>
      result := Err(NullDereference("TrendingMints.TrendingMint"));
    case TrendingList(mints) =>
      if |mints| == 0 {
        result := Ok([]);
      } else {
        PrepopulateDetails(redis, mints, now);
        redis.SetEx(TrendingCache, OneDaySeconds, MintList(mints), now);
        result := Ok(mints);
      }
  }

  /**
   * On a hit for "last-trending-mints" the cached list is returned, nothing
   * is written and the provider is not asked; the answer is the same for every
   * time frame, criteria and provider.
   */
  lemma CachedHitIgnoresParameters(s: Store, tf1: TimeFrame, c1: TrendingMintsCriteria,
                                   q1: (TimeFrame, TrendingMintsCriteria) -> TrendingResponse,
                                   tf2: TimeFrame, c2: TrendingMintsCriteria,
                                   q2: (TimeFrame, TrendingMintsCriteria) -> TrendingResponse, now: int)
    requires Hit(s, TrendingCache, now)
    ensures FetchCached(s, tf1, c1, q1, now) == FetchCached(s, tf2, c2, q2, now)
    ensures FetchCached(s, tf1, c1, q1, now) == TrendingRun(s, Ok(MintsOf(s[TrendingCache].value)), false)
  {
  }

  /**
   * On a miss: an error, missing data or an empty list write nothing; a
   * non-empty list is returned unchanged and stored under the fixed key for
   * one day, after the detail pass.
   */
  lemma CachedMiss(s: Store, tf: TimeFrame, c: TrendingMintsCriteria,
                   q: (TimeFrame, TrendingMintsCriteria) -> TrendingResponse, now: int)
    requires !Hit(s, TrendingCache, now)
    ensures var r := FetchCached(s, tf, c, q, now);
      && r.queried
      && (q(tf, c).TrendingFailed? ==> r.result == Err(UpstreamFailed(q(tf, c).message)) && r.store == s)
      && (q(tf, c).TrendingNoData? || q(tf, c) == TrendingList([]) ==> r.result == Ok([]) && r.store == s)
      && (q(tf, c).TrendingNullList? ==> r.result.Err? && r.store == s)
      && (q(tf, c).TrendingList? && q(tf, c).mints != [] ==>
            && r.result == Ok(q(tf, c).mints)
            && r.store[TrendingCache] == Entry(MintList(q(tf, c).mints), Some(now + 86400 * 1000))
            && (forall k :: k != TrendingCache && !DetailKeyOf(q(tf, c).mints, k) ==> Agree(s, r.store, k))
            && (forall k :: k != TrendingCache && Hit(s, k, now) ==> Agree(s, r.store, k)))
  {
    var r := FetchCached(s, tf, c, q, now);
    if q(tf, c).TrendingList? && q(tf, c).mints != [] {
      var mints := q(tf, c).mints;
      forall k | k != TrendingCache && !DetailKeyOf(mints, k)
        ensures Agree(s, r.store, k)
      {
        PrepopulateFrame(s, mints, now, k);
      }
      forall k | k != TrendingCache && Hit(s, k, now)
        ensures Agree(s, r.store, k)
      {
        PrepopulateWriteOnce(s, mints, now, k);
      }
    }
  }

  /**
   * The cached list is served for one day: after a miss that stored a list at
   * t0, a call at any t with t0 <= t < t0 + 86400 s returns that list without
   * asking the provider, and a call from t0 + 86400 s on asks it again.
   */
  lemma CachedListLivesOneDay(s: Store, tf: TimeFrame, c: TrendingMintsCriteria,
                              q: (TimeFrame, TrendingMintsCriteria) -> TrendingResponse, t0: int,
                              tf2: TimeFrame, c2: TrendingMintsCriteria,
                              q2: (TimeFrame, TrendingMintsCriteria) -> TrendingResponse, t: int)
    requires !Hit(s, TrendingCache, t0)
    requires q(tf, c).TrendingList? && q(tf, c).mints != []
    requires t0 <= t
    ensures var s1 := FetchCached(s, tf, c, q, t0).store;
      && (t < t0 + OneDaySeconds * 1000 ==> FetchCached(s1, tf2, c2, q2, t) == TrendingRun(s1, Ok(q(tf, c).mints), false))
      && (t >= t0 + OneDaySeconds * 1000 ==> FetchCached(s1, tf2, c2, q2, t).queried)
  {
    var mints := q(tf, c).mints;
    var s1 := FetchCached(s, tf, c, q, t0).store;
    PutExWindow(Prepopulate(s, mints, t0), TrendingCache, OneDaySeconds, MintList(mints), t0, t);
  }

  /**
   * Where both give an answer, the cached fetch on a miss agrees with the
   * uncached one of src/lib/airstack.ts; they part only on a null list, which
   * the cached one dereferences.
   */
  lemma CachedAgreesWithUncached(s: Store, tf: TimeFrame, c: TrendingMintsCriteria,
                                 q: (TimeFrame, TrendingMintsCriteria) -> TrendingResponse, now: int)
    requires !Hit(s, TrendingCache, now)
    ensures !q(tf, c).TrendingNullList? ==> FetchCached(s, tf, c, q, now).result == LibAirstack.FetchTrendingMints(q(tf, c))
    ensures q(tf, c).TrendingNullList? ==>
      FetchCached(s, tf, c, q, now).result.Err? && LibAirstack.FetchTrendingMints(q(tf, c)) == Ok([])
  {
  }
}
