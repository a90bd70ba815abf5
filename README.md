# trendingmints-bot: a Dafny model of the distribution logic

The bot watches the Airstack "trending mints" query and sends links to mints that are trending to XMTP
conversations. This project models four parts of it:

- **The message handler** (src/index.ts). A process-local map from sender to `{step, lastInteraction}`
  drives the onboarding dialogue. Any message containing "stop", "unsubscribe" or "cancel" (ignoring case)
  deletes the stored preference. Step 0 greets the sender and asks "1 or 2". At step 1, "1" sends a one-shot
  taste with nothing stored. "2" stores preference "2", then sends the same one-shot taste. Any other answer
  is refused.
- **The scheduled fan-out** (`fetchAndSendTrendingMints`, src/cron.ts).
  - It fetches the trending list, caches each item's detail record, then visits the conversations one by one.
  - A recipient whose preference matches the job's time frame gets an announcement.
  - It then gets the first 5 items (on its first scheduled send) or 2 items (afterwards) that are not in its
    `last-mints-*` history.
  - The history becomes the de-duplicated union of what was just sent and what was there before.
  - The onboarding variant (`fetchAndSendTrendingMintsInContext`) shuffles the addressed items, takes two,
    and overwrites the history with them.
- **The item-detail cache** (`cacheNft`) and the uncached trending query (src/lib/airstack.ts).
- **The cache-aside trending query** (src/airstack/airstack.ts). The list is cached under the one key
  `last-trending-mints` for a day, whatever the time frame. Per-item detail records are written for thirty
  days, never over a live entry.

The collaborators are abstracted:

- **Redis** is a map from a `Key` datatype to entries with an optional expiry instant. The clock is in
  milliseconds, expiry is lazy, and `KeyNameInjective` shows the key strings do not collide.
- **The Airstack queries** are an oracle, `Upstream`. It answers error, no data, a null list, or a list.
- **XMTP sends** are appends to an outbox.

Each imperative operation is a method over the `Redis` and `Outbox` objects (and, for the handler, the `Bot`
object with its step map). Each method is proved to end in the state a pure specification function gives:

| method | specification function |
|---|---|
| `LibAirstack.CacheNft` | `CacheNftSpec` |
| `CachedTrending.FetchTrendingMints` | `FetchCached` |
| `Cron.FetchAndSendTrendingMints` | `Tick` |
| `Cron.FetchAndSendTrendingMintsInContext` | `OneShot` |
| `Onboarding.Bot.HandleMessage` | `Handle` |

The properties the source promises are lemmas about those functions.

Failures are results, not crashes:

- An `error` in a query response makes the source call `process.exit(1)`. It is `UpstreamFailed`.
- Reading a null list as an array throws. It is `NullDereference`.

In both cases, the writes made before the failure are kept.

Where the code and its written description differ, the model follows the code:

- The scheduled filter keeps items whose address is null. It removes them only if a null was recorded.
- The batch size is 5 on the first scheduled send and 2 after it.
- The announcement goes out before the "nothing new" check.
- Every cron job passes the last hour.

## Model

| member | source | states |
|---|---|---|
| Cron.MapTimeFrameToPreference | src/cron.ts:14-23 | one day serves "2", two hours "3", one hour "1", each the only time frame to serve it; the other three time frames serve no preference |
| Cron.UnmappedTimeFrameReachesNoOne | src/cron.ts:110-115 | a tick whose time frame maps to no preference sends nothing and writes no key but item-detail entries |
| Cron.TickEmptyListIsNoOp | src/cron.ts:86-90 | an empty trending list ends the tick with nothing sent and no key written |
| Cron.TickReachesNoOne | src/cron.ts:103-115 | when no listed recipient's preference matches, the tick sends nothing and writes only item-detail keys |
| Cron.CacheAllFrame | src/cron.ts:93-97 | caching the details of every addressed item writes item-detail keys only |
| Cron.DeliverSkipsNonMatching | src/cron.ts:105-115 | a recipient whose preference is absent or differs from the mapped one gets nothing and no key changes |
| Cron.DeliverSends | src/cron.ts:118-152 | a matching recipient gets the announcement, then exactly the first min(amount, candidates) candidates; the amount is 5 exactly when the first-send flag is absent; afterwards the flag is set, to "true" if it was absent |
| Cron.DeliverRecords | src/cron.ts:154-161 | with no candidates the history is unchanged; otherwise the new history has no duplicates and holds exactly the old addresses and the sent ones |
| Cron.DeliverFrame | src/cron.ts:103-171 | visiting a recipient touches only its first-send and last-mints keys and sends only to it |
| Cron.DeliverNeverRepeats | src/cron.ts:141-161 | no item sent is let through by a later filter against the history it leaves |
| Cron.DeliverNothingNew | src/cron.ts:146-149 | with no candidates, only the announcement is sent, the first-send flag is set and the history is left as it was |
| Cron.DeliverCatchesUp | src/cron.ts:141-161 | when the batch holds every candidate, every address of the list is in the recipient's new history |
| Cron.DeliverAgainAnnouncesOnly | src/cron.ts:118-149 | once a delivery sent every candidate, delivering the same list again sends only the announcement and changes no key |
| Cron.FlaggedFrame | src/cron.ts:127-130 | setting the first-send flag changes no other key, leaves the history alone and makes the flag read as set |
| Cron.FanOutSkipsAll | src/cron.ts:103-115 | if no recipient matches, the loop over conversations changes nothing |
| Cron.FanOutFrame | src/cron.ts:103-171 | the loop leaves every key that is not a visited recipient's first-send or last-mints key unchanged |
| Cron.LinksAppend | src/cron.ts:162-170 | the link messages for a list followed by another are those of the first list, then those of the second, so the send loop may emit them one item at a time |
| Cron.PicksAreAddressedSample | src/cron.ts:49-52 | the one-shot picks are min(2, addressed) items, each addressed and from the list, drawn without repetition from a permutation of the addressed items |
| Cron.OneShotEmptyListIsNoOp | src/cron.ts:36-40 | an empty list ends the one-shot send with nothing sent and nothing written |
| Cron.OneShotOverwritesHistory | src/cron.ts:53-58 | after a successful one-shot send the history is exactly the picked addresses, without duplicates: nothing recorded before survives unless picked again |
| Cron.SendPicksRecords | src/cron.ts:53-58 | the one-shot write replaces the history by the de-duplicated picked addresses, whatever was there |
| Cron.OneShotFrame | src/cron.ts:25-73 | the one-shot send changes no key but the recipient's history and item details, and sends only to the recipient |
| Cron.SendPicksFrame | src/cron.ts:53-72 | writing the picks changes only the recipient's history, then appends the greeting and one link per pick, all to the recipient |
| Cron.CacheTrendingMints | src/cron.ts:93-97 | the detail pass ends in the state the sequentialised `Promise.all` over addressed items gives, stopping at the first failure |
| Cron.SendLinks | src/cron.ts:162-170 | the outbox gains exactly the link messages, in order |
| Cron.DeliverTo | src/cron.ts:103-171 | one iteration of the loop over conversations ends in the state `Deliver` gives |
| Cron.FetchAndSendTrendingMints | src/cron.ts:75-172 | the scheduled job ends in the store, outbox and failure `Tick` gives |
| Cron.FetchAndSendTrendingMintsInContext | src/cron.ts:25-73 | the onboarding send ends in the store, outbox and failure `OneShot` gives |
| Delivery.Undelivered | src/cron.ts:141-144 | an item is a candidate exactly when it is in the list and its address is not in the history |
| Delivery.UndeliveredAppend | src/cron.ts:141-144 | the filter keeps the input's order: it distributes over concatenation |
| Delivery.UndeliveredNoHistory | src/cron.ts:142 | with no history every item is kept, in order |
| Delivery.UndeliveredAllKnown | src/cron.ts:143 | when every address is in the history, no item is kept |
| Delivery.Take | src/cron.ts:152 | the slice is a prefix of length min(n, length); a bound at least the length keeps every candidate; no element is taken more often than the input holds it |
| Delivery.AddressesOf | src/cron.ts:155 | the address of every item of the batch is in the result, so every item sent reaches the history |
| Delivery.Dedup | src/cron.ts:57 | the array read back from a `Set` has no duplicates and exactly the input's elements |
| Delivery.DedupInto | src/cron.ts:159 | adding elements to a `Set` keeps what was there as a prefix, adds exactly the new elements and keeps it duplicate-free |
| Delivery.DedupIntoAppend | src/cron.ts:159 | adding x then y to a `Set` is adding x + y |
| Delivery.DedupIntoCovered | src/cron.ts:159 | adding elements already present changes nothing |
| Delivery.DedupIntoFresh | src/cron.ts:159 | adding duplicate-free, all-new elements appends them in order |
| Delivery.DedupIntoExtends | src/cron.ts:159 | what adding to a duplicate-free `Set` appends is itself duplicate-free and disjoint from what was there |
| Delivery.Record | src/cron.ts:158-160 | the written-back history has no duplicates and holds exactly the sent and the old addresses |
| Delivery.RecordIdempotent | src/cron.ts:158-160 | recording the same addresses again leaves the history exactly as it was, order included |
| Delivery.Shuffle | src/cron.ts:51 | whatever the random numbers, the shuffle is a permutation of its input |
| Delivery.RemoveAt | src/cron.ts:51 | removing one element leaves the others, as a multiset |
| Delivery.Addressed | src/cron.ts:50 | an item is kept exactly when it is in the list and has a non-empty address |
| LibAirstack.CacheNft | src/lib/airstack.ts:92-122 | the detail cache ends in the store and outcome `CacheNftSpec` gives |
| LibAirstack.CacheNftHit | src/lib/airstack.ts:95-99 | on a hit the cached record is returned and nothing is written, whatever the detail query would answer |
| LibAirstack.CacheNftMiss | src/lib/airstack.ts:101-121 | on a miss: an error ends it with no write; no data or no record answers null with no write; a null list fails with no write; otherwise the first record is stored for 2592000 s and nothing is returned |
| LibAirstack.CacheNftFrame | src/lib/airstack.ts:118-121 | no key but the item's own is written |
| LibAirstack.CacheNftThenHit | src/lib/airstack.ts:118-121 | after a write, every call within thirty days is a hit on the stored record |
| LibAirstack.FetchTrendingMints | src/lib/airstack.ts:124-151 | it fails exactly when the query reports an error; missing or empty data gives [], otherwise the list comes back unchanged; no key is involved |
| CachedTrending.FetchTrendingMints | src/airstack/airstack.ts:139-208 | the cached fetch ends in the store, result and query flag `FetchCached` gives |
| CachedTrending.PrepopulateDetails | src/airstack/airstack.ts:173-197 | the per-item detail pass ends in the store `Prepopulate` gives |
| CachedTrending.CachedHitIgnoresParameters | src/airstack/airstack.ts:139-147 | on a hit the cached list is returned with no query and no write, the same for every time frame, criteria and provider |
| CachedTrending.CachedMiss | src/airstack/airstack.ts:149-207 | on a miss: an error, missing data, a null list or an empty list write nothing; a non-empty list is returned unchanged and stored for 86400 s; detail writes touch only contributing items' keys and never a live entry |
| CachedTrending.CachedListLivesOneDay | src/airstack/airstack.ts:199-205 | after a stored list, calls in the next day return it without a query; from one day on the provider is asked again |
| CachedTrending.CachedAgreesWithUncached | src/airstack/airstack.ts:149-169 | on a miss the cached fetch answers as the uncached one, except on a null list, which it fails on |
| CachedTrending.PrepopulateFrame | src/airstack/airstack.ts:174-182 | the detail pass writes only the detail keys of addressed items that have a first token record; items lacking either cause no write |
| CachedTrending.PrepopulateWriteOnce | src/airstack/airstack.ts:184-187 | an entry that is live is never refreshed |
| CachedTrending.PrepopulateFills | src/airstack/airstack.ts:189-194 | an address that was absent ends up holding the first contributing item's first record, expiring in thirty days (the list-order pass; with a duplicated address the source keeps the last copy's record) |
| Onboarding.ContainsOccurs | src/index.ts:35 | `includes` holds exactly when the word occurs at some index of the text |
| Onboarding.StopRequestedOccurs | src/index.ts:34-35 | a message is a stop request exactly when, lower-cased, it contains "stop", "unsubscribe" or "cancel" |
| Onboarding.StopExamples | src/index.ts:34-35 | "please STOP now" and "Cancel" are stop requests; "1" and "2" are not |
| Onboarding.LowerKeepsLowercase | src/index.ts:35 | text without capitals is left unchanged by lower-casing, so "1" and "2" are compared as sent |
| Onboarding.StopUnsubscribes | src/index.ts:34-64 | at any step, a stop request deletes the preference, sets the step to 0 and sends one reply, which is "unsubscribed" exactly when a preference was removed; no other key changes |
| Onboarding.FirstContactPrompts | src/index.ts:65-84 | at step 0 or with no entry: "already subscribed" exactly when a preference is stored, the welcome otherwise, then the prompt; step 1; the store is untouched |
| Onboarding.InvalidAnswerKeepsStep | src/index.ts:86-95 | at step 1, content other than exactly "1" or "2" gets the invalid-option reply alone; the step stays 1 and nothing is written |
| Onboarding.AnswerRunsOneShot | src/index.ts:97-131 | a valid answer resets the step to 0 and hands over to the one-shot send for the last hour |
| Onboarding.RightAwayStoresNothing | src/index.ts:97-105 | answering "1" writes no preference, sends two replies before the one-shot send and resets the step |
| Onboarding.OnceADayStoresPreference | src/index.ts:106-131 | answering "2" stores "2" as the preference, which survives the one-shot send; three replies come first; the step is reset |
| Onboarding.LastInteractionIgnored | src/index.ts:51-60 | the time of the last message never changes the outcome; every message refreshes it; other senders' entries are untouched |
| Onboarding.HandleKeepsStepsInRange | src/index.ts:57-84 | the step map only ever holds steps 0 and 1 |
| Onboarding.HandleKeepsOnlyOnceADay | src/index.ts:106-108 | if every stored preference is "2", it stays so after any message |
| Onboarding.ScheduledJobsReachNoOnboardedRecipient | src/index.ts:148-170 | every scheduled job passes the last hour; when all preferences are "2", a job sends nothing and writes only item-detail keys |
| Onboarding.IntendedDailyJobReachesOnceADay | src/index.ts:162-170 | with the daily job passing one day, a recipient whose preference is "2" is sent the announcement |
| Onboarding.Bot.Unsubscribe | src/index.ts:38-47 | the stop branch deletes the preference key and sends "unsubscribed" exactly when a live preference was there, the not-subscribed reply otherwise |
| Onboarding.Bot.Greet | src/index.ts:68-82 | the first message sends "already subscribed" when a preference is stored and the welcome otherwise, then the prompt; no key is written |
| Onboarding.Bot.Answer | src/index.ts:97-125 | the replies to a valid answer, and the preference write for "2", give the state `Answered` describes; the step is reset |
| Onboarding.Bot.HandleMessage | src/index.ts:21-133 | one message updates the step map, the store and the outbox as `Handle` gives |
| RedisStore.KeyNameInjective | src/cron.ts:105-134 | the key strings of distinct keys differ (item addresses being 0x-prefixed) |
| RedisStore.PutExWindow | src/lib/airstack.ts:120-121 | a SETEX entry reads back until its time-to-live has passed, and reads as absent from then on |
| RedisStore.Redis.Del | src/index.ts:38-39 | DEL removes the key and answers whether a live entry was there |

## Left out

- The XMTP message loop of src/runner.ts and client creation are not part of this model. `conversations.list()`
  is a parameter (the recipients, in order), and `send`/`reply` append to the outbox.
- Mixpanel tracking is analytics I/O, with no effect on state.
- The cron expressions, the timezone and `runOnInit` are left out. Only the time frame each job passes is kept.
- `Math.random` in the shuffle is an injected sequence of numbers.
  - The comparator-based `sort` is modelled as a shuffle that picks an index each step.
  - Only the output being a permutation is used.
- `Promise.all` runs its callbacks in list order. Concurrent interleavings of the detail writes are not modelled.
  Two consequences:
  - Duplicated addresses. In src/airstack/airstack.ts:174-197 every callback reads before any callback writes,
    so each copy of a duplicated address writes and the last copy's record stays. The model's pass sees the
    first copy's write and keeps the first copy's record.
  - Failures. `Cron.CacheAll` stops the detail writes at the first failing `cacheNft`. In src/cron.ts:93-97 it
    depends on the failure:
    - On a query error, src/lib/airstack.ts:108-111 calls `process.exit(1)`, which ends the process at once.
      Callbacks whose query has not yet returned never write, so the source keeps the details of the items
      whose queries returned first, in time order. The model's list-order prefix is one possible schedule.
    - On a null `TokenNft` list, the TypeError at src/lib/airstack.ts:118 rejects `Promise.all`, and the other
      callbacks still finish their writes. The model, stopping at the first failure, does not make those writes.
- `process.env.PUBLIC_FRAME_URL` is not read: links use the fallback base `http://localhost:3001`.
- Some of the JSON encoding is left out.
  - `JSON.stringify`/`JSON.parse` are assumed to round-trip.
  - Values are typed (`Value`). A value of the wrong type at a key reads as an empty history or list.
- In a direct conversation the peer address is the sender. So the one-shot send writes `last-mints-<sender>` and
  replies to the sender.
- The two `Date.now()` calls at src/index.ts:104 and :123 read the same instant as the one at :31.
- A scheduled tick and a one-shot send read the store at the single instant `now` they are given. An entry that
  expires while a job runs is not modelled.
- Redis commands are atomic and the store is shared by handler and jobs. Concurrent handlers and jobs are not
  interleaved.
- The process-local step map is lost on restart in the source. The model keeps it for the life of the `Bot`
  object.
- Onboarding.LowerChar: `toLowerCase` is modelled on ASCII letters only. Other characters are left as they are,
  so case folding outside ASCII is not captured.
- RedisStore.KeyNameInjective: holds only when item addresses start with "0x". An address such as "pref-x"
  would collide with a preference key.
- CachedTrending.PrepopulateFills: states the list-order pass, so for a duplicated address it names the first
  copy's record where the concurrent source keeps the last copy's.
- LibAirstack.FetchTrendingMints: a null `TrendingMint` list makes the source return null. The model returns []
  instead, which every caller treats the same way.

## Findings

| source | as written | input that shows it | evidently intended | confidence | as-written member | corrected member |
|---|---|---|---|---|---|---|
| src/index.ts:149-170 | every scheduled job passes `TimeFrame.OneHour`, which serves only preference "1", while onboarding only ever stores "2" | a sender who answers "2" at step 1: no scheduled job ever sends it anything | the two-hourly job passes `TwoHours` and the daily job `OneDay`, so a "2" recipient gets the daily send | medium; not executed | Onboarding.ScheduledJobsReachNoOnboardedRecipient | Onboarding.IntendedDailyJobReachesOnceADay |
