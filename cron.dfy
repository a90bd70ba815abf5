/**
 * src/cron.ts: the scheduled fan-out (`fetchAndSendTrendingMints`) and the
 * one-shot send that ends onboarding (`fetchAndSendTrendingMintsInContext`).
 * Each is a pure function over the store and the outbox (the specification)
 * and a method that issues the Redis commands and sends one by one, proved
 * to end in the state the function gives.
 */
module Cron {
  import opened Wrappers
  import opened AirstackTypes
  import opened RedisStore
  import opened Transport
  import opened Delivery
  import opened Preferences
  import LibAirstack

  const Announcement: string := "\U{1F680} New mints are trending! Check them out now."
  const Taste: string := "\U{1F680} Here some trending mints to give you a taste of what I can do! Check them out now."
  const FrameBaseUrl: string := "http://localhost:3001"
  const FirstBatch: nat := 5
  const LaterBatch: nat := 2
  const OnboardingPicks: nat := 2

  /** The store and everything sent so far. */
  datatype World = World(store: Store, outbox: seq<Message>)

  /** The state an operation leaves, and the failure that ended it early, if any. */
  datatype Run = Run(world: World, failure: Option<Failure>)

  /** The preference a time frame serves; the other time frames serve no one. */
  function MapTimeFrameToPreference(tf: TimeFrame): (r: Option<string>)
    ensures r == Some(OnceADay) <==> tf == OneDay
    ensures r == Some(EveryFewHours) <==> tf == TwoHours
    ensures r == Some(RightAway) <==> tf == OneHour
    ensures r.None? <==> tf in {EightHours, TwoDays, SevenDays}
  {
    match tf
    case OneDay => Some(OnceADay)
    case TwoHours => Some(EveryFewHours)
    case OneHour => Some(RightAway)
    case _ => None
  }

  // ----- message texts -----

  function DigitChar(d: nat): char
    requires d < 10
  {
    "0123456789"[d]
  }

  function Decimal(n: nat): string
    decreases n
  {
    if n < 10 then [DigitChar(n)] else Decimal(n / 10) + [DigitChar(n % 10)]
  }

  /** A template literal's rendering of a number, and of a null address. */
  function IntText(i: int): string {
    if i < 0 then "-" + Decimal(-i) else Decimal(i)
  }

  function AddressText(a: Address): string {
    match a
    case None => "null"
    case Some(s) => s
  }

  /** The frame deep link sent for an item. */
  function FrameLink(m: Mint): string {
    FrameBaseUrl + "?chain=base&a=" + AddressText(m.address) + "&c=" + IntText(m.criteriaCount)
  }

  /** One link message per item, in order. */
  function Links(peer: string, mints: seq<Mint>): (r: seq<Message>)
    ensures |r| == |mints|
    ensures forall i :: 0 <= i < |mints| ==> r[i] == Message(peer, FrameLink(mints[i]))
  {
    seq(|mints|, i requires 0 <= i < |mints| => Message(peer, FrameLink(mints[i])))
  }

  /** Sending the links of a + b is sending those of a, then those of b. */
  lemma LinksAppend(peer: string, a: seq<Mint>, b: seq<Mint>)
    ensures Links(peer, a + b) == Links(peer, a) + Links(peer, b)
  {
    var l, r := Links(peer, a + b), Links(peer, a) + Links(peer, b);
    forall i | 0 <= i < |l| ensures l[i] == r[i] {
      if i >= |a| {
        assert (a + b)[i] == b[i - |a|];
      }
    }
  }

  // ----- one recipient of a scheduled tick -----

  /** `!userPreference || userPreference !== mapTimeFrameToPreference(timeFrame)` is false. */
  predicate PreferenceMatches(stored: Option<Value>, tf: TimeFrame) {
    && Present(stored)
    && MapTimeFrameToPreference(tf).Some?
    && stored.value == Str(MapTimeFrameToPreference(tf).value)
  }

  /** `!firstSend ? 5 : 2` */
  function BatchSize(firstSend: Option<Value>): nat {
    if Present(firstSend) then LaterBatch else FirstBatch
  }

  /** The parsed `last-mints-<peer>` value, [] when there is none. */
  function HistoryOf(stored: Option<Value>): History {
    if Present(stored) && stored.value.AddressList? then stored.value.addresses else []
  }

  function StoredHistory(s: Store, peer: string, now: int): History {
    HistoryOf(Lookup(s, LastMints(peer), now))
  }

  /** The items of the tick a recipient has not been sent, and the batch it is sent. */
  function Candidates(s: Store, peer: string, mints: seq<Mint>, now: int): seq<Mint> {
    Undelivered(mints, StoredHistory(s, peer, now))
  }

  function Batch(s: Store, peer: string, mints: seq<Mint>, now: int): seq<Mint> {
    Take(Candidates(s, peer, mints, now), BatchSize(Lookup(s, FirstSend(peer), now)))
  }

  /** The store after `first-send-<peer>` is set to "true" where it was not set. */
  function Flagged(s: Store, peer: string, now: int): Store {
    if Present(Lookup(s, FirstSend(peer), now)) then s else Put(s, FirstSend(peer), Str("true"))
  }

  /** The body of the loop over conversations, for the conversation with `peer`. */
  function Deliver(w: World, peer: string, tf: TimeFrame, mints: seq<Mint>, now: int): World {
    var s := w.store;
    if !PreferenceMatches(Lookup(s, Pref(peer), now), tf) then w
    else
      var announced := w.outbox + [Message(peer, Announcement)];
      var amount := BatchSize(Lookup(s, FirstSend(peer), now));
      var flagged := Flagged(s, peer, now);
      var history := StoredHistory(flagged, peer, now);
      var candidates := Undelivered(mints, history);
      if |candidates| == 0 then World(flagged, announced)
      else
        var batch := Take(candidates, amount);
        World(Put(flagged, LastMints(peer), AddressList(Record(AddressesOf(batch), history))),
              announced + Links(peer, batch))
  }

  /** Setting the flag leaves every other key, the history among them, as it was. */
  lemma FlaggedFrame(s: Store, peer: string, now: int)
    ensures forall k :: k != FirstSend(peer) ==> Agree(s, Flagged(s, peer, now), k)
    ensures StoredHistory(Flagged(s, peer, now), peer, now) == StoredHistory(s, peer, now)
    ensures Hit(Flagged(s, peer, now), FirstSend(peer), now)
  {
  }

  /** Deliver for a matching recipient, written in terms of the state before the flag is set. */
  lemma DeliverMatched(w: World, peer: string, tf: TimeFrame, mints: seq<Mint>, now: int)
    requires PreferenceMatches(Lookup(w.store, Pref(peer), now), tf)
    ensures var announced := w.outbox + [Message(peer, Announcement)];
      var flagged := Flagged(w.store, peer, now);
      var batch := Batch(w.store, peer, mints, now);
      Deliver(w, peer, tf, mints, now)
        == if Candidates(w.store, peer, mints, now) == [] then World(flagged, announced)
           else World(Put(flagged, LastMints(peer), AddressList(Record(AddressesOf(batch), StoredHistory(w.store, peer, now)))),
                      announced + Links(peer, batch))
  {
    FlaggedFrame(w.store, peer, now);
  }

  /** A recipient whose preference is absent or is not the one the time frame serves gets nothing, and no key changes. */
  lemma DeliverSkipsNonMatching(w: World, peer: string, tf: TimeFrame, mints: seq<Mint>, now: int)
    requires !PreferenceMatches(Lookup(w.store, Pref(peer), now), tf)
    ensures Deliver(w, peer, tf, mints, now) == w
  {
  }

  /**
   * A matching recipient is sent the announcement, then exactly the first
   * min(amount, |candidates|) candidates, where the amount is 5 until the
   * first scheduled send and 2 after it; afterwards the first-send flag is set.
   */
  lemma DeliverSends(w: World, peer: string, tf: TimeFrame, mints: seq<Mint>, now: int)
    requires PreferenceMatches(Lookup(w.store, Pref(peer), now), tf)
    ensures var w' := Deliver(w, peer, tf, mints, now);
      var c := Candidates(w.store, peer, mints, now);
      var amount := BatchSize(Lookup(w.store, FirstSend(peer), now));
      && (amount == 5 <==> !Hit(w.store, FirstSend(peer), now))
      && |w'.outbox| == |w.outbox| + 1 + Min(amount, |c|)
      && w'.outbox[..|w.outbox| + 1] == w.outbox + [Message(peer, Announcement)]
      && (forall i :: 0 <= i < Min(amount, |c|) ==> w'.outbox[|w.outbox| + 1 + i] == Message(peer, FrameLink(c[i])))
      && Hit(w'.store, FirstSend(peer), now)
      && (!Hit(w.store, FirstSend(peer), now) ==> w'.store[FirstSend(peer)] == Entry(Str("true"), None))
  {
    DeliverMatched(w, peer, tf, mints, now);
    FlaggedFrame(w.store, peer, now);
    var w' := Deliver(w, peer, tf, mints, now);
    var c := Candidates(w.store, peer, mints, now);
    var amount := BatchSize(Lookup(w.store, FirstSend(peer), now));
    var announced := w.outbox + [Message(peer, Announcement)];
    if c != [] {
      var batch := Batch(w.store, peer, mints, now);
      var links := Links(peer, batch);
      assert w'.outbox == announced + links;
      forall i | 0 <= i < Min(amount, |c|)
        ensures w'.outbox[|w.outbox| + 1 + i] == Message(peer, FrameLink(c[i]))
      {
        assert w'.outbox[|w.outbox| + 1 + i] == links[i];
        assert batch[i] == c[i];
      }
    }
  }

  /**
   * The history a matching recipient is left with: unchanged when nothing
   * was new; otherwise, without duplicates, the old addresses together with
   * those just sent.
   */
  lemma DeliverRecords(w: World, peer: string, tf: TimeFrame, mints: seq<Mint>, now: int)
    requires PreferenceMatches(Lookup(w.store, Pref(peer), now), tf)
    ensures var w' := Deliver(w, peer, tf, mints, now);
      var h := StoredHistory(w.store, peer, now);
      var h' := StoredHistory(w'.store, peer, now);
      var sent := AddressesOf(Batch(w.store, peer, mints, now));
      && (Candidates(w.store, peer, mints, now) == [] ==> Agree(w.store, w'.store, LastMints(peer)))
      && (Candidates(w.store, peer, mints, now) != [] ==>
            && NoDuplicates(h')
            && (forall a :: a in h' <==> a in h || a in sent))
  {
    DeliverMatched(w, peer, tf, mints, now);
    FlaggedFrame(w.store, peer, now);
  }

  /** Delivering touches only the recipient's own two keys and sends only to it. */
  lemma DeliverFrame(w: World, peer: string, tf: TimeFrame, mints: seq<Mint>, now: int)
    ensures var w' := Deliver(w, peer, tf, mints, now);
      && (forall k :: k != FirstSend(peer) && k != LastMints(peer) ==> Agree(w.store, w'.store, k))
      && |w.outbox| <= |w'.outbox|
      && w'.outbox[..|w.outbox|] == w.outbox
      && (forall i :: |w.outbox| <= i < |w'.outbox| ==> w'.outbox[i].to == peer)
  {
    if PreferenceMatches(Lookup(w.store, Pref(peer), now), tf) {
      DeliverMatched(w, peer, tf, mints, now);
      FlaggedFrame(w.store, peer, now);
    }
  }

  /** Every item sent is recorded, so no later filter against the new history lets it through again. */
  lemma DeliverNeverRepeats(w: World, peer: string, tf: TimeFrame, mints: seq<Mint>, later: seq<Mint>, now: int)
    requires PreferenceMatches(Lookup(w.store, Pref(peer), now), tf)
    ensures var w' := Deliver(w, peer, tf, mints, now);
      forall m, b :: m in Batch(w.store, peer, mints, now) && b in Undelivered(later, StoredHistory(w'.store, peer, now))
        ==> b.address != m.address
  {
    DeliverRecords(w, peer, tf, mints, now);
  }

  /**
   * When nothing is new to a matching recipient it is sent the announcement
   * alone, and its history is left as it was.
   */
  lemma DeliverNothingNew(w: World, peer: string, tf: TimeFrame, mints: seq<Mint>, now: int)
    requires PreferenceMatches(Lookup(w.store, Pref(peer), now), tf)
    requires Candidates(w.store, peer, mints, now) == []
    ensures Deliver(w, peer, tf, mints, now) == World(Flagged(w.store, peer, now), w.outbox + [Message(peer, Announcement)])
    ensures Agree(w.store, Deliver(w, peer, tf, mints, now).store, LastMints(peer))
  {
    DeliverMatched(w, peer, tf, mints, now);
    FlaggedFrame(w.store, peer, now);
  }

  /**
   * When the batch holds every candidate, the recipient is caught up: every
   * address of the tick's list is in its new history.
   */
  lemma DeliverCatchesUp(w: World, peer: string, tf: TimeFrame, mints: seq<Mint>, now: int)
    requires PreferenceMatches(Lookup(w.store, Pref(peer), now), tf)
    requires |Candidates(w.store, peer, mints, now)| <= BatchSize(Lookup(w.store, FirstSend(peer), now))
    ensures forall m :: m in mints ==> m.address in StoredHistory(Deliver(w, peer, tf, mints, now).store, peer, now)
  {
    var h := StoredHistory(w.store, peer, now);
    var batch := Batch(w.store, peer, mints, now);
    var h' := StoredHistory(Deliver(w, peer, tf, mints, now).store, peer, now);
    DeliverRecords(w, peer, tf, mints, now);
    forall m | m in mints ensures m.address in h' {
      if m.address !in h {
        assert m in batch;
      }
    }
  }

  /**
   * Once caught up, a recipient sent the same list again gets the
   * announcement and nothing else, and no key changes.
   */
  lemma DeliverAgainAnnouncesOnly(w: World, peer: string, tf: TimeFrame, mints: seq<Mint>, now: int)
    requires PreferenceMatches(Lookup(w.store, Pref(peer), now), tf)
    requires |Candidates(w.store, peer, mints, now)| <= BatchSize(Lookup(w.store, FirstSend(peer), now))
    ensures var w' := Deliver(w, peer, tf, mints, now);
      Deliver(w', peer, tf, mints, now) == World(w'.store, w'.outbox + [Message(peer, Announcement)])
  {
    var w' := Deliver(w, peer, tf, mints, now);
    DeliverCatchesUp(w, peer, tf, mints, now);
    DeliverFrame(w, peer, tf, mints, now);
    DeliverSends(w, peer, tf, mints, now);
    assert Agree(w.store, w'.store, Pref(peer));
    UndeliveredAllKnown(mints, StoredHistory(w'.store, peer, now));
    DeliverNothingNew(w', peer, tf, mints, now);
  }

  // ----- the whole tick -----

  /** The loop over conversations, one after the other. */
  function FanOut(w: World, peers: seq<string>, tf: TimeFrame, mints: seq<Mint>, now: int): World
    decreases |peers|
  {
    if peers == [] then w
    else Deliver(FanOut(w, peers[..|peers| - 1], tf, mints, now), peers[|peers| - 1], tf, mints, now)
  }

  /** If no listed recipient's preference matches, the loop changes nothing at all. */
  lemma {:induction false} FanOutSkipsAll(w: World, peers: seq<string>, tf: TimeFrame, mints: seq<Mint>, now: int)
    requires forall p :: p in peers ==> !PreferenceMatches(Lookup(w.store, Pref(p), now), tf)
    ensures FanOut(w, peers, tf, mints, now) == w
    decreases |peers|
  {
    if peers != [] {
      FanOutSkipsAll(w, peers[..|peers| - 1], tf, mints, now);
    }
  }

  /** The loop leaves the keys of recipients it does not visit, and the keys of no recipient, alone. */
  lemma {:induction false} FanOutFrame(w: World, peers: seq<string>, tf: TimeFrame, mints: seq<Mint>, now: int, k: Key)
    requires forall p :: p in peers ==> k != FirstSend(p) && k != LastMints(p)
    ensures Agree(w.store, FanOut(w, peers, tf, mints, now).store, k)
    decreases |peers|
  {
    if peers != [] {
      var init := peers[..|peers| - 1];
      FanOutFrame(w, init, tf, mints, now, k);
      DeliverFrame(FanOut(w, init, tf, mints, now), peers[|peers| - 1], tf, mints, now);
    }
  }

  /** The outcome of caching every item's detail record. */
  datatype CacheRun = CacheRun(store: Store, failure: Option<Failure>)

  /** `Promise.all(trendingMints.filter(m => m.address).map(m => cacheNft(m.address)))`, in list order; the first failure ends it. */
  function CacheAll(s: Store, mints: seq<Mint>, detail: string -> DetailResponse, now: int): CacheRun
    decreases |mints|
  {
    if mints == [] then CacheRun(s, None)
    else
      var r := CacheAll(s, mints[..|mints| - 1], detail, now);
      var m := mints[|mints| - 1];
      if r.failure.Some? || !HasAddress(m) then r
      else
        var d := LibAirstack.CacheNftSpec(r.store, m.address.value, detail(m.address.value), now);
        CacheRun(d.store, if d.outcome.Err? then Some(d.outcome.failure) else None)
  }

  /** Caching details writes item-detail keys only. */
  lemma {:induction false} CacheAllFrame(s: Store, mints: seq<Mint>, detail: string -> DetailResponse, now: int, k: Key)
    requires !k.ItemDetail?
    ensures Agree(s, CacheAll(s, mints, detail, now).store, k)
    decreases |mints|
  {
    if mints != [] {
      var init := mints[..|mints| - 1];
      CacheAllFrame(s, init, detail, now, k);
      var r := CacheAll(s, init, detail, now);
      var m := mints[|mints| - 1];
      if r.failure.None? && HasAddress(m) {
        LibAirstack.CacheNftFrame(r.store, m.address.value, detail(m.address.value), now, k);
      }
    }
  }

  /** `fetchAndSendTrendingMints(timeFrame)` over the conversations `peers`. */
  function Tick(w: World, tf: TimeFrame, up: Upstream, peers: seq<string>, now: int): Run {
    match LibAirstack.FetchTrendingMints(up.trending(tf, UniqueWallets))
    case Err(f) => Run(w, Some(f))
    case Ok(mints) =>
      if |mints| == 0 then Run(w, None)
      else
        var c := CacheAll(w.store, mints, up.detail, now);
        if c.failure.Some? then Run(World(c.store, w.outbox), c.failure)
        else Run(FanOut(World(c.store, w.outbox), peers, tf, mints, now), None)
  }

  /** An empty trending list ends the tick before anything is written or sent. */
  lemma TickEmptyListIsNoOp(w: World, tf: TimeFrame, up: Upstream, peers: seq<string>, now: int)
    requires LibAirstack.FetchTrendingMints(up.trending(tf, UniqueWallets)) == Ok([])
    ensures Tick(w, tf, up, peers, now) == Run(w, None)
  {
  }

  /**
   * A tick whose time frame maps to no preference matches no recipient: it
   * sends nothing and writes no key but item-detail entries.
   */
  lemma UnmappedTimeFrameReachesNoOne(w: World, tf: TimeFrame, up: Upstream, peers: seq<string>, now: int)
    requires MapTimeFrameToPreference(tf).None?
    ensures var r := Tick(w, tf, up, peers, now);
      && r.world.outbox == w.outbox
      && forall k: Key :: !k.ItemDetail? ==> Agree(w.store, r.world.store, k)
  {
    TickReachesNoOne(w, tf, up, peers, now);
  }

  /**
   * A tick in which no listed recipient has the preference its time frame
   * serves sends nothing and writes no key but item-detail entries.
   */
  lemma TickReachesNoOne(w: World, tf: TimeFrame, up: Upstream, peers: seq<string>, now: int)
    requires forall p :: p in peers ==> !PreferenceMatches(Lookup(w.store, Pref(p), now), tf)
    ensures var r := Tick(w, tf, up, peers, now);
      && r.world.outbox == w.outbox
      && forall k: Key :: !k.ItemDetail? ==> Agree(w.store, r.world.store, k)
  {
    var fetched := LibAirstack.FetchTrendingMints(up.trending(tf, UniqueWallets));
    if fetched.Ok? && |fetched.value| > 0 {
      var mints := fetched.value;
      var c := CacheAll(w.store, mints, up.detail, now);
      forall k: Key | !k.ItemDetail? ensures Agree(w.store, c.store, k) {
        CacheAllFrame(w.store, mints, up.detail, now, k);
      }
      if c.failure.None? {
        forall p | p in peers ensures !PreferenceMatches(Lookup(c.store, Pref(p), now), tf) {
          assert Agree(w.store, c.store, Pref(p));
        }
        FanOutSkipsAll(World(c.store, w.outbox), peers, tf, mints, now);
      }
    }
  }

  // ----- the one-shot send that ends onboarding -----

  /** `filter(m => m.address).sort(random).slice(0, 2)` */
  function Picks(mints: seq<Mint>, random: seq<nat>): seq<Mint> {
    Take(Shuffle(Addressed(mints), random), OnboardingPicks)
  }

  /**
   * The one-shot picks are at most two items, as many as the addressed items
   * allow, each with an address, drawn without repetition from a
   * permutation of the addressed items.
   */
  lemma PicksAreAddressedSample(mints: seq<Mint>, random: seq<nat>)
    ensures var p := Picks(mints, random);
      && |p| == Min(2, |Addressed(mints)|)
      && multiset(p) <= multiset(Addressed(mints))
      && forall m :: m in p ==> m in mints && HasAddress(m)
  {
    var p := Picks(mints, random);
    forall m | m in p ensures m in mints && HasAddress(m) {
      assert m in multiset(p);
      assert m in multiset(Addressed(mints));
    }
  }

  /** `fetchAndSendTrendingMintsInContext(timeFrame, context)` for the conversation with `peer`. */
  function OneShot(w: World, tf: TimeFrame, peer: string, up: Upstream, random: seq<nat>, now: int): Run {
    match LibAirstack.FetchTrendingMints(up.trending(tf, UniqueWallets))
    case Err(f) => Run(w, Some(f))
    case Ok(mints) =>
      if |mints| == 0 then Run(w, None)
      else
        var c := CacheAll(w.store, mints, up.detail, now);
        if c.failure.Some? then Run(World(c.store, w.outbox), c.failure)
        else Run(SendPicks(World(c.store, w.outbox), peer, Picks(mints, random)), None)
  }

  /** An empty trending list ends the one-shot send: nothing is sent and no key is written. */
  lemma OneShotEmptyListIsNoOp(w: World, tf: TimeFrame, peer: string, up: Upstream, random: seq<nat>, now: int)
    requires LibAirstack.FetchTrendingMints(up.trending(tf, UniqueWallets)) == Ok([])
    ensures OneShot(w, tf, peer, up, random, now) == Run(w, None)
  {
  }

  /** Records the picked addresses as the whole history, then sends the greeting and a link per pick. */
  function SendPicks(w: World, peer: string, picks: seq<Mint>): World {
    World(Put(w.store, LastMints(peer), AddressList(Dedup(AddressesOf(picks)))),
          w.outbox + [Message(peer, Taste)] + Links(peer, picks))
  }

  /**
   * A successful one-shot send replaces the recipient's history with the
   * addresses it picked: nothing recorded before survives unless picked again.
   */
  lemma OneShotOverwritesHistory(w: World, tf: TimeFrame, peer: string, up: Upstream, random: seq<nat>, now: int)
    requires LibAirstack.FetchTrendingMints(up.trending(tf, UniqueWallets)).Ok?
    requires var mints := LibAirstack.FetchTrendingMints(up.trending(tf, UniqueWallets)).value;
      mints != [] && CacheAll(w.store, mints, up.detail, now).failure.None?
    ensures var mints := LibAirstack.FetchTrendingMints(up.trending(tf, UniqueWallets)).value;
      var picks := Picks(mints, random);
      var r' := OneShot(w, tf, peer, up, random, now);
      var h' := StoredHistory(r'.world.store, peer, now);
      && r'.failure.None?
      && NoDuplicates(h')
      && (forall a :: a in h' <==> a in AddressesOf(picks))
      && r'.world.outbox == w.outbox + [Message(peer, Taste)] + Links(peer, picks)
  {
    var mints := LibAirstack.FetchTrendingMints(up.trending(tf, UniqueWallets)).value;
    var c := CacheAll(w.store, mints, up.detail, now);
    var picks := Picks(mints, random);
    var r' := OneShot(w, tf, peer, up, random, now);
    assert r' == Run(SendPicks(World(c.store, w.outbox), peer, picks), None);
    SendPicksRecords(World(c.store, w.outbox), peer, picks, now);
  }

  lemma SendPicksRecords(w: World, peer: string, picks: seq<Mint>, now: int)
    ensures StoredHistory(SendPicks(w, peer, picks).store, peer, now) == Dedup(AddressesOf(picks))
  {
  }

  /** The one-shot send writes no key but the recipient's history and item details, and sends only to the recipient. */
  lemma OneShotFrame(w: World, tf: TimeFrame, peer: string, up: Upstream, random: seq<nat>, now: int)
    ensures var r := OneShot(w, tf, peer, up, random, now);
      && (forall k: Key :: !k.ItemDetail? && k != LastMints(peer) ==> Agree(w.store, r.world.store, k))
      && |w.outbox| <= |r.world.outbox|
      && r.world.outbox[..|w.outbox|] == w.outbox
      && (forall i :: |w.outbox| <= i < |r.world.outbox| ==> r.world.outbox[i].to == peer)
  {
    var fetched := LibAirstack.FetchTrendingMints(up.trending(tf, UniqueWallets));
    if fetched.Ok? && |fetched.value| > 0 {
      var mints := fetched.value;
      var c := CacheAll(w.store, mints, up.detail, now);
      if c.failure.None? {
        var r := OneShot(w, tf, peer, up, random, now);
        var picks := Picks(mints, random);
        assert r.world == SendPicks(World(c.store, w.outbox), peer, picks);
        SendPicksFrame(World(c.store, w.outbox), peer, picks);
        forall k: Key | !k.ItemDetail? && k != LastMints(peer) ensures Agree(w.store, r.world.store, k) {
          CacheAllFrame(w.store, mints, up.detail, now, k);
        }
      } else {
        forall k: Key | !k.ItemDetail? ensures Agree(w.store, c.store, k) {
          CacheAllFrame(w.store, mints, up.detail, now, k);
        }
      }
    }
  }

  lemma SendPicksFrame(w: World, peer: string, picks: seq<Mint>)
    ensures var w' := SendPicks(w, peer, picks);
      && (forall k: Key :: k != LastMints(peer) ==> Agree(w.store, w'.store, k))
      && |w.outbox| <= |w'.outbox|
      && w'.outbox[..|w.outbox|] == w.outbox
      && (forall i :: |w.outbox| <= i < |w'.outbox| ==> w'.outbox[i].to == peer)
  {
    var links := Links(peer, picks);
    var out := w.outbox + [Message(peer, Taste)] + links;
    assert SendPicks(w, peer, picks).outbox == out;
    assert out[..|w.outbox|] == w.outbox;
    forall i | |w.outbox| <= i < |out| ensures out[i].to == peer {
      if i > |w.outbox| {
        assert out[i] == links[i - |w.outbox| - 1];
      }
    }
  }

  // ----- the methods -----

  method CacheTrendingMints(redis: Redis, mints: seq<Mint>, detail: string -> DetailResponse, now: int)
    returns (failure: Option<Failure>)
    modifies redis
    ensures CacheRun(redis.entries, failure) == CacheAll(old(redis.entries), mints, detail, now)
  {
    failure := None;
    var i := 0;
    while i < |mints|
      invariant 0 <= i <= |mints|
      invariant CacheRun(redis.entries, failure) == CacheAll(old(redis.entries), mints[..i], detail, now)
    {
      assert mints[..i + 1][..i] == mints[..i];
      if failure.None? && HasAddress(mints[i]) {
        var address := mints[i].address.value;
        var outcome := LibAirstack.CacheNft(redis, address, detail(address), now);
        if outcome.Err? {
          failure := Some(outcome.failure);
        }
      }
      i := i + 1;
    }
    assert mints[..|mints|] == mints;
  }

  method SendLinks(outbox: Outbox, peer: string, mints: seq<Mint>)
    modifies outbox
    ensures outbox.sent == old(outbox.sent) + Links(peer, mints)
  {
    for i := 0 to |mints|
      invariant outbox.sent == old(outbox.sent) + Links(peer, mints[..i])
    {
      assert mints[..i + 1] == mints[..i] + [mints[i]];
      LinksAppend(peer, mints[..i], [mints[i]]);
      outbox.Send(peer, FrameLink(mints[i]));
    }
    assert mints[..|mints|] == mints;
  }

  method DeliverTo(redis: Redis, outbox: Outbox, peer: string, tf: TimeFrame, mints: seq<Mint>, now: int)
    modifies redis, outbox
    ensures World(redis.entries, outbox.sent) == Deliver(old(World(redis.entries, outbox.sent)), peer, tf, mints, now)
  {
    var preference := redis.Get(Pref(peer), now);
    if !PreferenceMatches(preference, tf) {
      return;
    }
    outbox.Send(peer, Announcement);
    var firstSend := redis.Get(FirstSend(peer), now);
    var amount := BatchSize(firstSend);
    if !Present(firstSend) {
      redis.Set(FirstSend(peer), Str("true"));
    }
    var lastMints := redis.Get(LastMints(peer), now);
    var history := HistoryOf(lastMints);
    var candidates := Undelivered(mints, history);
    if |candidates| == 0 {
      return;
    }
    var batch := Take(candidates, amount);
    redis.Set(LastMints(peer), AddressList(Record(AddressesOf(batch), history)));
    SendLinks(outbox, peer, batch);
  }

  method FetchAndSendTrendingMints(redis: Redis, outbox: Outbox, tf: TimeFrame, up: Upstream,
                                   conversations: seq<string>, now: int)
    returns (failure: Option<Failure>)
    modifies redis, outbox
    ensures Run(World(redis.entries, outbox.sent), failure)
         == Tick(old(World(redis.entries, outbox.sent)), tf, up, conversations, now)
  {
    var fetched := LibAirstack.FetchTrendingMints(up.trending(tf, UniqueWallets));
    if fetched.Err? {
      return Some(fetched.failure);
    }
    var mints := fetched.value;
    if |mints| == 0 {
      return None;
    }
    failure := CacheTrendingMints(redis, mints, up.detail, now);
    if failure.Some? {
      return;
    }
    ghost var start := World(redis.entries, outbox.sent);
    var i := 0;
    while i < |conversations|
      invariant 0 <= i <= |conversations|
      invariant World(redis.entries, outbox.sent) == FanOut(start, conversations[..i], tf, mints, now)
    {
      assert conversations[..i + 1][..i] == conversations[..i];
      DeliverTo(redis, outbox, conversations[i], tf, mints, now);
      i := i + 1;
    }
    assert conversations[..|conversations|] == conversations;
  }

  method FetchAndSendTrendingMintsInContext(redis: Redis, outbox: Outbox, tf: TimeFrame, peer: string,
                                            up: Upstream, random: seq<nat>, now: int)
    returns (failure: Option<Failure>)
    modifies redis, outbox
    ensures Run(World(redis.entries, outbox.sent), failure)
         == OneShot(old(World(redis.entries, outbox.sent)), tf, peer, up, random, now)
  {
    var fetched := LibAirstack.FetchTrendingMints(up.trending(tf, UniqueWallets));
    if fetched.Err? {
      return Some(fetched.failure);
    }
    var mints := fetched.value;
    if |mints| == 0 {
      return None;
    }
    failure := CacheTrendingMints(redis, mints, up.detail, now);
    if failure.Some? {
      return;
    }
    var picks := Picks(mints, random);
    redis.Set(LastMints(peer), AddressList(Dedup(AddressesOf(picks))));
    outbox.Send(peer, Taste);
    SendLinks(outbox, peer, picks);
  }
}
