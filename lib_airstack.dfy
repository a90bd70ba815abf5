/**
 * src/lib/airstack.ts: the item-detail cache (`cacheNft`) and the uncached
 * trending query (`fetchTrendingMints`), the one the cron jobs import.
 */
module LibAirstack {
  import opened Wrappers
  import opened AirstackTypes
  import opened RedisStore

  const ThirtyDaysSeconds: nat := 60 * 60 * 24 * 30

  /** What `cacheNft` returns: the cached record on a hit, null, or nothing after a write. */
  datatype DetailOutcome = CachedDetail(cached: Value) | NoNftFound | DetailStored

  datatype DetailRun = DetailRun(store: Store, outcome: Result<DetailOutcome>)

  /** `cacheNft(address)` against the store, with `response` the answer the detail query would give. */
  function CacheNftSpec(s: Store, address: string, response: DetailResponse, now: int): DetailRun {
    var key := ItemDetail(address);
    if Hit(s, key, now) then DetailRun(s, Ok(CachedDetail(Lookup(s, key, now).value)))
    else
      match response
      case DetailFailed(message) => DetailRun(s, Err(UpstreamFailed(message)))
      case DetailNoData => DetailRun(s, Ok(NoNftFound))
      case DetailNullList => DetailRun(s, Err(NullDereference("TokenNfts.TokenNft")))
      case DetailList(nfts) =>
        if |nfts| == 0 then DetailRun(s, Ok(NoNftFound))
        else DetailRun(PutEx(s, key, ThirtyDaysSeconds, NftRecord(nfts[0]), now), Ok(DetailStored))
  }

  method CacheNft(redis: Redis, address: string, response: DetailResponse, now: int)
    returns (outcome: Result<DetailOutcome>)
    modifies redis
    ensures DetailRun(redis.entries, outcome) == CacheNftSpec(old(redis.entries), address, response, now)
  {
    var cached := redis.Get(ItemDetail(address), now);
    if cached.Some? && Truthy(cached.value) {
      return Ok(CachedDetail(cached.value));
    }
    match response
    case DetailFailed(message) =>
      outcome := Err(UpstreamFailed(message));
    case DetailNoData =>
      outcome := Ok(NoNftFound);
    case DetailNullList =>
      outcome := Err(NullDereference("TokenNfts.TokenNft"));
    case DetailList(nfts) =>
      if |nfts| == 0 {
        outcome := Ok(NoNftFound);
      } else {
        redis.SetEx(ItemDetail(address), ThirtyDaysSeconds, NftRecord(nfts[0]), now);
        outcome := Ok(DetailStored);
      }
  }

  /**
   * On a hit the cached record is returned and nothing is written; the
   * upstream answer plays no part, so no query is needed.
   */
  lemma CacheNftHit(s: Store, address: string, r1: DetailResponse, r2: DetailResponse, now: int)
    requires Hit(s, ItemDetail(address), now)
    ensures CacheNftSpec(s, address, r1, now).store == s
    ensures CacheNftSpec(s, address, r1, now).outcome == Ok(CachedDetail(s[ItemDetail(address)].value))
    ensures CacheNftSpec(s, address, r1, now) == CacheNftSpec(s, address, r2, now)
  {
  }

  /**
   * On a miss: a query error ends the operation and a query with no record
   * answers null, neither writing anything; otherwise the first record is
   * stored under the address for thirty days and nothing is returned.
   */
  lemma CacheNftMiss(s: Store, address: string, response: DetailResponse, now: int)
    requires !Hit(s, ItemDetail(address), now)
    ensures var r := CacheNftSpec(s, address, response, now);
      && (response.DetailFailed? ==> r == DetailRun(s, Err(UpstreamFailed(response.message))))
      && (response.DetailNoData? || (response.DetailList? && response.nfts == []) ==>
            r == DetailRun(s, Ok(NoNftFound)))
      && (response.DetailNullList? ==> r.store == s && r.outcome.Err?)
      && (response.DetailList? && response.nfts != [] ==>
            && r.outcome == Ok(DetailStored)
            && r.store[ItemDetail(address)] == Entry(NftRecord(response.nfts[0]), Some(now + 2592000 * 1000)))
  {
  }

  /** `cacheNft` touches no key but the item's own. */
  lemma CacheNftFrame(s: Store, address: string, response: DetailResponse, now: int, k: Key)
    requires k != ItemDetail(address)
    ensures Agree(s, CacheNftSpec(s, address, response, now).store, k)
  {
  }

  /** After a write at t0, every later call within thirty days is a hit on the stored record. */
  lemma CacheNftThenHit(s: Store, address: string, r1: DetailResponse, r2: DetailResponse, t0: int, t: int)
    requires CacheNftSpec(s, address, r1, t0).outcome == Ok(DetailStored)
    requires t0 <= t < t0 + ThirtyDaysSeconds * 1000
    ensures var s1 := CacheNftSpec(s, address, r1, t0).store;
      && r1.DetailList? && r1.nfts != []
      && CacheNftSpec(s1, address, r2, t) == DetailRun(s1, Ok(CachedDetail(NftRecord(r1.nfts[0]))))
  {
    var key := ItemDetail(address);
    assert !Hit(s, key, t0);
    assert r1.DetailList? && r1.nfts != [];
    var s1 := PutEx(s, key, ThirtyDaysSeconds, NftRecord(r1.nfts[0]), t0);
    PutExWindow(s, key, ThirtyDaysSeconds, NftRecord(r1.nfts[0]), t0, t);
    assert Hit(s1, key, t);
  }

  /**
   * `fetchTrendingMints` without a cache: a query error ends the operation,
   * a missing or empty list gives [], and otherwise the list comes back as
   * the provider gave it. A null `TrendingMint` makes the source return null,
   * which every caller treats as it treats []; the model returns [].
   */
  function FetchTrendingMints(response: TrendingResponse): (r: Result<seq<Mint>>)
    ensures r.Err? <==> response.TrendingFailed?
    ensures r.Ok? ==> r.value == (if response.TrendingList? then response.mints else [])
  {
    match response
    case TrendingFailed(message) => Err(UpstreamFailed(message))
    case TrendingNoData => Ok([])
    case TrendingNullList => Ok([])
    case TrendingList(mints) => Ok(mints)
  }
}
