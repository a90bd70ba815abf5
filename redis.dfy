/**
 * The Redis store the bot shares between its message handler and its cron
 * jobs: a map from keys to entries that carry an optional expiry instant.
 * Expiry is lazy: an entry whose instant has passed reads as absent. The clock
 * is in milliseconds, like Date.now(); SETEX takes its time-to-live in seconds.
 */
module RedisStore {
  import opened Wrappers
  import opened AirstackTypes

  /** The key families the bot uses. */
  datatype Key =
    | Pref(peer: string)            // "pref-<peer>": the delivery preference
    | FirstSend(peer: string)       // "first-send-<peer>": the first scheduled send happened
    | LastMints(peer: string)       // "last-mints-<peer>": addresses already sent
    | TrendingCache                 // "last-trending-mints": the cached trending list
    | ItemDetail(address: string)   // "<address>": the cached detail record of an item

  /** The string Redis sees for a key. */
  function KeyName(k: Key): string {
    match k
    case Pref(p) => "pref-" + p
    case FirstSend(p) => "first-send-" + p
    case LastMints(p) => "last-mints-" + p
    case TrendingCache => "last-trending-mints"
    case ItemDetail(a) => a
  }

  /** Item addresses are hexadecimal contract addresses. */
  predicate IsHexAddress(a: string) {
    |a| >= 2 && a[0] == '0' && a[1] == 'x'
  }

  predicate WellFormedKey(k: Key) {
    k.ItemDetail? ==> IsHexAddress(k.address)
  }

  /**
   * Distinct keys have distinct names, so modelling the store with `Key` as
   * its index loses nothing, as long as item addresses are 0x-prefixed.
   */
  lemma KeyNameInjective(j: Key, k: Key)
    requires WellFormedKey(j) && WellFormedKey(k)
    ensures KeyName(j) == KeyName(k) <==> j == k
  {
    var a, b := KeyName(j), KeyName(k);
    if j.Pref? && k.Pref? {
      assert a[5..] == j.peer && b[5..] == k.peer;
    } else if j.FirstSend? && k.FirstSend? {
      assert a[11..] == j.peer && b[11..] == k.peer;
    } else if j.LastMints? && k.LastMints? {
      assert a[11..] == j.peer && b[11..] == k.peer;
    } else if j == k || (j.ItemDetail? && k.ItemDetail?) {
    } else if a[0] != b[0] {
    } else {
      assert a[5] != b[5];
    }
  }

  /** What a value stands for once `JSON.parse` has read it back. */
  datatype Value =
    | Str(text: string)                          // a plain string ("1", "2", "true")
    | AddressList(addresses: seq<Option<string>>) // a JSON array of addresses (null for a missing one)
    | MintList(mints: seq<Mint>)                 // a JSON array of trending mints
    | NftRecord(nft: Nft)                        // a JSON object with one token record

  /** A GET answer is truthy unless it is the empty string; JSON text never is. */
  predicate Truthy(v: Value) {
    !(v.Str? && v.text == "")
  }

  datatype Entry = Entry(value: Value, expiresAt: Option<int>)

  type Store = map<Key, Entry>

  predicate Live(e: Entry, now: int) {
    e.expiresAt.None? || now < e.expiresAt.value
  }

  /** GET: the value of a live entry. */
  function Lookup(s: Store, k: Key, now: int): Option<Value> {
    if k in s && Live(s[k], now) then Some(s[k].value) else None
  }

  /** A GET answer that JavaScript reads as true. */
  predicate Present(v: Option<Value>) {
    v.Some? && Truthy(v.value)
  }

  /** `if (await redis.get(k))`: a live entry with a truthy value. */
  predicate Hit(s: Store, k: Key, now: int) {
    Present(Lookup(s, k, now))
  }

  /** SET without options: the entry no longer expires. */
  function Put(s: Store, k: Key, v: Value): Store {
    s[k := Entry(v, None)]
  }

  /** SETEX: the entry expires ttlSeconds after now. */
  function PutEx(s: Store, k: Key, ttlSeconds: nat, v: Value, now: int): Store {
    s[k := Entry(v, Some(now + ttlSeconds * 1000))]
  }

  /** Both stores hold the same entry for k, or neither holds one. */
  predicate Agree(s: Store, t: Store, k: Key) {
    (k in s <==> k in t) && (k in s ==> s[k] == t[k])
  }

  /** An entry written by SETEX at t0 is read back before t0 + ttl and is gone from then on. */
  lemma PutExWindow(s: Store, k: Key, ttlSeconds: nat, v: Value, t0: int, t: int)
    ensures t < t0 + ttlSeconds * 1000 ==> Lookup(PutEx(s, k, ttlSeconds, v, t0), k, t) == Some(v)
    ensures t >= t0 + ttlSeconds * 1000 ==> Lookup(PutEx(s, k, ttlSeconds, v, t0), k, t) == None
  {
  }

  /** The Redis client: the store and the four commands the bot issues. */
  class Redis {
    var entries: Store

    constructor (initial: Store)
      ensures entries == initial
    {
      entries := initial;
    }

    method Get(k: Key, now: int) returns (v: Option<Value>)
      ensures v == Lookup(entries, k, now)
    {
      v := Lookup(entries, k, now);
    }

    method Set(k: Key, v: Value)
      modifies this
      ensures entries == Put(old(entries), k, v)
    {
      entries := Put(entries, k, v);
    }

    method SetEx(k: Key, ttlSeconds: nat, v: Value, now: int)
      modifies this
      ensures entries == PutEx(old(entries), k, ttlSeconds, v, now)
    {
      entries := PutEx(entries, k, ttlSeconds, v, now);
    }

    /** DEL: removes the key; the answer says whether a live entry was removed. */
    method Del(k: Key, now: int) returns (removed: bool)
      modifies this
      ensures removed <==> Lookup(old(entries), k, now).Some?
      ensures entries == old(entries) - {k}
    {
      removed := Lookup(entries, k, now).Some?;
      entries := entries - {k};
    }
  }
}
