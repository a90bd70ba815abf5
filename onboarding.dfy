/**
 * src/index.ts: the handler run for every incoming message. A process-local
 * map from sender to its onboarding step (and the time of its last message)
 * drives a two-step dialogue: a stop request unsubscribes, step 0 greets and
 * asks how often to send, step 1 takes the answer "1" or "2" and ends with a
 * one-shot send. `Handle` is the specification; `Bot.HandleMessage` updates
 * the step map, the store and the outbox in place and is proved to end in
 * the state `Handle` gives.
 */
module Onboarding {
  import opened Wrappers
  import opened AirstackTypes
  import opened RedisStore
  import opened Transport
  import opened Preferences
  import opened Cron

  const StopWords: seq<string> := ["stop", "unsubscribe", "cancel"]

  const Unsubscribed: string := "You unsubscribed successfully. You can always subscribe again by sending a message."
  const NotSubscribed: string := "You are now subscribed to the bot yet. You can subscribe by sending a message and selecting the correct option."
  const AlreadySubscribed: string := "You are already subscribed. If you wish to stop receiving updates, you can unsubscribe at any time by sending 'stop' or update your options."
  const Welcome: string := "Welcome to the trendingmints bot where you get instant alerts when mints start trending."
  const Prompt: string := "How often would you like me to send you new mints?\n\n1\U{FE0F}\U{20E3} Right away - let me know once it starts trending;\n2\U{FE0F}\U{20E3} Once a day - send me the top 2 of the day.\n\n\U{270D}\U{FE0F} (reply with 1 or 2)"
  const InvalidOption: string := "Invalid option selected. Please enter a valid option (1 or 2)\n\nIf you'd like to restart the bot,  you can do so at any time by saying 'stop'."
  const AllSet: string := "Great. You're all set."
  const RightAwayAck: string := "I'll grab you the top 2 trending today, and send them your way. Give me a few minutes."
  const OnceADayAck: string := "Since you're just getting caught up, I'll grab you the top 2 trending today, and send them your way. Give me a few minutes."
  const StopHint: string := "Also, if you'd like to unsubscribe, you can do so at any time by saying 'stop'."

  /** The time frame every scheduled job passes, in the order the jobs are registered (the first only in debug mode). */
  const CronRegistrations: seq<TimeFrame> := [OneHour, OneHour, OneHour, OneHour]

  // ----- stop-word detection -----

  /** `toLowerCase` on one character, for the ASCII letters. */
  function LowerChar(c: char): char {
    if 'A' <= c <= 'Z' then (c as int + 32) as char else c
  }

  function Lower(s: string): (r: string)
    ensures |r| == |s|
    ensures forall i :: 0 <= i < |s| ==> r[i] == LowerChar(s[i])
  {
    seq(|s|, i requires 0 <= i < |s| => LowerChar(s[i]))
  }

  /** No character of `s` is an ASCII capital. */
  predicate NoCapitals(s: string) {
    forall i :: 0 <= i < |s| ==> !('A' <= s[i] <= 'Z')
  }

  /** Lower-casing leaves text without capitals as it is. */
  lemma LowerKeepsLowercase(s: string)
    requires NoCapitals(s)
    ensures Lower(s) == s
  {
    assert forall i :: 0 <= i < |s| ==> Lower(s)[i] == s[i];
  }

  /** `word` occurs in `text` starting at index `i`. */
  predicate OccursAt(text: string, word: string, i: int) {
    0 <= i && i + |word| <= |text| && text[i..i + |word|] == word
  }

  /** `text.includes(word)`, scanning from the left. */
  function Contains(text: string, word: string): bool
    decreases |text|
  {
    if |word| > |text| then false
    else text[..|word|] == word || Contains(text[1..], word)
  }

  /** The scan finds the word exactly when it occurs somewhere in the text. */
  lemma {:induction false} ContainsOccurs(text: string, word: string)
    ensures Contains(text, word) <==> exists i :: OccursAt(text, word, i)
    decreases |text|
  {
    if |word| > |text| {
    } else if text[..|word|] == word {
      assert OccursAt(text, word, 0);
    } else {
      var rest := text[1..];
      ContainsOccurs(rest, word);
      if Contains(rest, word) {
        var j :| OccursAt(rest, word, j);
        assert rest[j..j + |word|] == text[j + 1..j + 1 + |word|];
        assert OccursAt(text, word, j + 1);
      }
      if exists i :: OccursAt(text, word, i) {
        var i :| OccursAt(text, word, i);
        assert i != 0;
        assert text[i..i + |word|] == rest[i - 1..i - 1 + |word|];
        assert OccursAt(rest, word, i - 1);
      }
    }
  }

  /** `defaultStopWords.some(word => content.toLowerCase().includes(word))` */
  predicate StopRequested(content: string) {
    exists w :: w in StopWords && Contains(Lower(content), w)
  }

  /** A message asks to stop exactly when, lower-cased, it contains one of the three stop words. */
  lemma StopRequestedOccurs(content: string)
    ensures StopRequested(content) <==>
      exists w, i :: w in StopWords && OccursAt(Lower(content), w, i)
  {
    forall w | w in StopWords {
      ContainsOccurs(Lower(content), w);
    }
  }

  /** Detection ignores ASCII case and surrounding text. */
  lemma StopExamples()
    ensures StopRequested("please STOP now")
    ensures StopRequested("Cancel")
    ensures !StopRequested(RightAway) && !StopRequested(OnceADay)
  {
    var l := Lower("please STOP now");
    assert l[7..11] == "stop";
    assert OccursAt(l, "stop", 7);
    ContainsOccurs(l, "stop");
    assert Lower("Cancel") == "cancel";
    assert OccursAt("cancel", "cancel", 0);
    ContainsOccurs("cancel", "cancel");
    LowerKeepsLowercase(RightAway);
    LowerKeepsLowercase(OnceADay);
  }

  // ----- the handler -----

  /** A step-map entry: `{ step, lastInteraction }`. */
  datatype StepEntry = StepEntry(step: nat, lastInteraction: int)

  type Steps = map<string, StepEntry>

  /** The step map, the store and the outbox a message leaves, and the failure that ended it, if any. */
  datatype Handled = Handled(steps: Steps, run: Run)

  /** `inMemoryCache.get(sender)?.step ?? 0` */
  function StepOf(steps: Steps, sender: string): nat {
    if sender in steps then steps[sender].step else 0
  }

  /** The handler for one message from `sender`, at time `now`. */
  function Handle(steps: Steps, w: World, sender: string, content: string, up: Upstream, random: seq<nat>, now: int): Handled {
    if StopRequested(content) then
      var reply := if Lookup(w.store, Pref(sender), now).Some? then Unsubscribed else NotSubscribed;
      Handled(steps[sender := StepEntry(0, now)],
              Run(World(w.store - {Pref(sender)}, w.outbox + [Message(sender, reply)]), None))
    else
      var step := StepOf(steps, sender);
      if step == 0 then
        var greeting := if Hit(w.store, Pref(sender), now) then AlreadySubscribed else Welcome;
        Handled(steps[sender := StepEntry(1, now)],
                Run(World(w.store, w.outbox + [Message(sender, greeting), Message(sender, Prompt)]), None))
      else if step == 1 then
        if content != RightAway && content != OnceADay then
          Handled(steps[sender := StepEntry(1, now)],
                  Run(World(w.store, w.outbox + [Message(sender, InvalidOption)]), None))
        else
          Handled(steps[sender := StepEntry(0, now)], OneShot(Answered(w, sender, content), OneHour, sender, up, random, now))
      else
        Handled(steps[sender := StepEntry(step, now)], Run(w, None))
  }

  /** The state after a valid answer, before the one-shot send: only "2" is stored as a preference. */
  function Answered(w: World, sender: string, content: string): World {
    if content == RightAway then
      World(w.store, w.outbox + [Message(sender, AllSet), Message(sender, RightAwayAck)])
    else
      World(Put(w.store, Pref(sender), Str(content)),
            w.outbox + [Message(sender, AllSet), Message(sender, OnceADayAck), Message(sender, StopHint)])
  }

  /**
   * A stop request, at any step, deletes the preference, resets the step to 0
   * and sends one reply, which says whether a preference was removed; no
   * other key changes and nothing else is sent.
   */
  lemma StopUnsubscribes(steps: Steps, w: World, sender: string, content: string, up: Upstream, random: seq<nat>, now: int)
    requires StopRequested(content)
    ensures var h := Handle(steps, w, sender, content, up, random, now);
      && h.steps[sender].step == 0
      && h.run.failure.None?
      && Pref(sender) !in h.run.world.store
      && (forall k :: k != Pref(sender) ==> Agree(w.store, h.run.world.store, k))
      && |h.run.world.outbox| == |w.outbox| + 1
      && h.run.world.outbox[..|w.outbox|] == w.outbox
      && h.run.world.outbox[|w.outbox|].to == sender
      && (h.run.world.outbox[|w.outbox|].text == Unsubscribed <==> Lookup(w.store, Pref(sender), now).Some?)
  {
  }

  /**
   * At step 0, or with no entry, the sender is told it is already
   * subscribed when a preference is stored and welcomed otherwise, then
   * asked how often to send; the step becomes 1 and the store is untouched.
   */
  lemma FirstContactPrompts(steps: Steps, w: World, sender: string, content: string, up: Upstream, random: seq<nat>, now: int)
    requires !StopRequested(content)
    requires StepOf(steps, sender) == 0
    ensures var h := Handle(steps, w, sender, content, up, random, now);
      && h.steps[sender].step == 1
      && h.run == Run(World(w.store, h.run.world.outbox), None)
      && |h.run.world.outbox| == |w.outbox| + 2
      && h.run.world.outbox[..|w.outbox|] == w.outbox
      && h.run.world.outbox[|w.outbox| + 1] == Message(sender, Prompt)
      && (h.run.world.outbox[|w.outbox|] == Message(sender, AlreadySubscribed) <==> Hit(w.store, Pref(sender), now))
      && (h.run.world.outbox[|w.outbox|] == Message(sender, Welcome) <==> !Hit(w.store, Pref(sender), now))
  {
  }

  /**
   * At step 1 an answer other than exactly "1" or "2" is refused: one reply,
   * the step stays 1, the store is untouched and no item is sent.
   */
  lemma InvalidAnswerKeepsStep(steps: Steps, w: World, sender: string, content: string, up: Upstream, random: seq<nat>, now: int)
    requires !StopRequested(content)
    requires StepOf(steps, sender) == 1
    requires content != RightAway && content != OnceADay
    ensures var h := Handle(steps, w, sender, content, up, random, now);
      && h.steps[sender].step == 1
      && h.run == Run(World(w.store, w.outbox + [Message(sender, InvalidOption)]), None)
  {
  }

  /** A valid answer at step 1 resets the step and hands over to the one-shot send. */
  lemma AnswerRunsOneShot(steps: Steps, w: World, sender: string, content: string, up: Upstream, random: seq<nat>, now: int)
    requires StepOf(steps, sender) == 1
    requires content == RightAway || content == OnceADay
    ensures Handle(steps, w, sender, content, up, random, now)
         == Handled(steps[sender := StepEntry(0, now)], OneShot(Answered(w, sender, content), OneHour, sender, up, random, now))
  {
    StopExamples();
  }

  /**
   * At step 1 the answer "1" writes no preference: the step returns to 0,
   * two replies go out, and the one-shot send for the last hour follows.
   */
  lemma RightAwayStoresNothing(steps: Steps, w: World, sender: string, up: Upstream, random: seq<nat>, now: int)
    requires StepOf(steps, sender) == 1
    ensures var h := Handle(steps, w, sender, RightAway, up, random, now);
      && h.steps[sender].step == 0
      && Agree(w.store, h.run.world.store, Pref(sender))
      && |w.outbox| + 2 <= |h.run.world.outbox|
      && h.run.world.outbox[..|w.outbox| + 2] == w.outbox + [Message(sender, AllSet), Message(sender, RightAwayAck)]
      && h.run == OneShot(Answered(w, sender, RightAway), OneHour, sender, up, random, now)
  {
    AnswerRunsOneShot(steps, w, sender, RightAway, up, random, now);
    var a := Answered(w, sender, RightAway);
    var r := OneShot(a, OneHour, sender, up, random, now);
    OneShotFrame(a, OneHour, sender, up, random, now);
    assert Agree(a.store, r.world.store, Pref(sender));
    assert r.world.outbox[..|w.outbox| + 2] == r.world.outbox[..|a.outbox|];
  }

  /**
   * At step 1 the answer "2" stores "2" as the preference, which the
   * one-shot send leaves in place; three replies go out before that send
   * and the step returns to 0.
   */
  lemma OnceADayStoresPreference(steps: Steps, w: World, sender: string, up: Upstream, random: seq<nat>, now: int)
    requires StepOf(steps, sender) == 1
    ensures var h := Handle(steps, w, sender, OnceADay, up, random, now);
      && h.steps[sender].step == 0
      && Lookup(h.run.world.store, Pref(sender), now) == Some(Str(OnceADay))
      && |w.outbox| + 3 <= |h.run.world.outbox|
      && h.run.world.outbox[..|w.outbox| + 3]
           == w.outbox + [Message(sender, AllSet), Message(sender, OnceADayAck), Message(sender, StopHint)]
      && h.run == OneShot(Answered(w, sender, OnceADay), OneHour, sender, up, random, now)
  {
    AnswerRunsOneShot(steps, w, sender, OnceADay, up, random, now);
    var a := Answered(w, sender, OnceADay);
    var r := OneShot(a, OneHour, sender, up, random, now);
    OneShotFrame(a, OneHour, sender, up, random, now);
    assert a.store[Pref(sender)] == Entry(Str(OnceADay), None);
    assert Agree(a.store, r.world.store, Pref(sender));
    assert r.world.outbox[..|w.outbox| + 3] == r.world.outbox[..|a.outbox|];
  }

  /**
   * The one-hour check has no effect: the time of the sender's last message
   * never changes the outcome. Every message refreshes that time, and the
   * entries of other senders are left alone.
   */
  lemma LastInteractionIgnored(steps: Steps, w: World, sender: string, content: string, up: Upstream, random: seq<nat>, now: int, earlier: int)
    ensures var h := Handle(steps, w, sender, content, up, random, now);
      && Handle(steps[sender := StepEntry(StepOf(steps, sender), earlier)], w, sender, content, up, random, now) == h
      && sender in h.steps
      && h.steps[sender].lastInteraction == now
      && (forall p :: p != sender ==> (p in steps <==> p in h.steps) && (p in steps ==> h.steps[p] == steps[p]))
  {
    var steps' := steps[sender := StepEntry(StepOf(steps, sender), earlier)];
    var step := StepOf(steps, sender);
    assert StepOf(steps', sender) == step;
    assert steps'[sender := StepEntry(0, now)] == steps[sender := StepEntry(0, now)];
    assert steps'[sender := StepEntry(1, now)] == steps[sender := StepEntry(1, now)];
    assert steps'[sender := StepEntry(step, now)] == steps[sender := StepEntry(step, now)];
  }

  /** The only steps ever stored are 0 and 1. */
  predicate StepsInRange(steps: Steps) {
    forall p :: p in steps ==> steps[p].step <= 1
  }

  lemma HandleKeepsStepsInRange(steps: Steps, w: World, sender: string, content: string, up: Upstream, random: seq<nat>, now: int)
    requires StepsInRange(steps)
    ensures StepsInRange(Handle(steps, w, sender, content, up, random, now).steps)
  {
  }

  // ----- the preferences onboarding leaves, and the scheduled jobs -----

  /** Every stored preference is "2". */
  ghost predicate OnlyOnceADay(s: Store) {
    forall p :: Pref(p) in s ==> s[Pref(p)].value == Str(OnceADay)
  }

  /**
   * Onboarding stores no preference but "2": deleting keeps the property,
   * "2" is the only answer written, and the one-shot send touches no
   * preference key.
   */
  lemma HandleKeepsOnlyOnceADay(steps: Steps, w: World, sender: string, content: string, up: Upstream, random: seq<nat>, now: int)
    requires OnlyOnceADay(w.store)
    ensures OnlyOnceADay(Handle(steps, w, sender, content, up, random, now).run.world.store)
  {
    if !StopRequested(content) && StepOf(steps, sender) == 1 && (content == RightAway || content == OnceADay) {
      var a := Answered(w, sender, content);
      assert OnlyOnceADay(a.store);
      var r := OneShot(a, OneHour, sender, up, random, now);
      OneShotFrame(a, OneHour, sender, up, random, now);
      forall p | Pref(p) in r.world.store ensures r.world.store[Pref(p)].value == Str(OnceADay) {
        assert Agree(a.store, r.world.store, Pref(p));
      }
    }
  }

  /**
   * Every scheduled job passes the last hour, which serves preference "1",
   * so a job reaches no recipient onboarding could have produced: it sends
   * nothing and writes no key but item-detail entries.
   */
  lemma ScheduledJobsReachNoOnboardedRecipient(w: World, j: nat, up: Upstream, peers: seq<string>, now: int)
    requires j < |CronRegistrations|
    requires OnlyOnceADay(w.store)
    ensures var r := Tick(w, CronRegistrations[j], up, peers, now);
      && r.world.outbox == w.outbox
      && forall k: Key :: !k.ItemDetail? ==> Agree(w.store, r.world.store, k)
  {
    var tf := CronRegistrations[j];
    assert tf == OneHour;
    forall p | p in peers ensures !PreferenceMatches(Lookup(w.store, Pref(p), now), tf) {
    }
    TickReachesNoOne(w, tf, up, peers, now);
  }

  /**
   * The time frames the jobs' own schedules suggest: the debug and hourly
   * jobs the last hour, the two-hourly job two hours, the daily job one day.
   */
  const IntendedRegistrations: seq<TimeFrame> := [OneHour, OneHour, TwoHours, OneDay]

  /**
   * With the daily job passing one day, a recipient who answered "2" is
   * reached: when the fetch and the caching succeed, it is sent the
   * announcement first.
   */
  lemma IntendedDailyJobReachesOnceADay(w: World, up: Upstream, peer: string, now: int)
    requires LibAirstack.FetchTrendingMints(up.trending(IntendedRegistrations[3], UniqueWallets)).Ok?
    requires var mints := LibAirstack.FetchTrendingMints(up.trending(IntendedRegistrations[3], UniqueWallets)).value;
      mints != [] && CacheAll(w.store, mints, up.detail, now).failure.None?
    requires Lookup(w.store, Pref(peer), now) == Some(Str(OnceADay))
    ensures var r := Tick(w, IntendedRegistrations[3], up, [peer], now);
      && r.failure.None?
      && |w.outbox| < |r.world.outbox|
      && r.world.outbox[|w.outbox|] == Message(peer, Announcement)
  {
    var tf := IntendedRegistrations[3];
    var mints := LibAirstack.FetchTrendingMints(up.trending(tf, UniqueWallets)).value;
    var c := CacheAll(w.store, mints, up.detail, now);
    CacheAllFrame(w.store, mints, up.detail, now, Pref(peer));
    var start := World(c.store, w.outbox);
    assert PreferenceMatches(Lookup(c.store, Pref(peer), now), tf);
    assert FanOut(start, [peer], tf, mints, now) == Deliver(start, peer, tf, mints, now);
    DeliverSends(start, peer, tf, mints, now);
    var out := Deliver(start, peer, tf, mints, now).outbox;
    assert out[|w.outbox|] == out[..|w.outbox| + 1][|w.outbox|];
  }

  /** Deleting an entry and setting it again is setting it, whatever was set in between. */
  lemma Rekey(steps: Steps, sender: string, d: StepEntry, e: StepEntry)
    ensures (steps - {sender})[sender := e] == steps[sender := e]
    ensures steps[sender := d][sender := e] == steps[sender := e]
  {
  }

  /** The message handler with its process-local step map. */
  class Bot {
    var inMemoryCache: Steps

    constructor ()
      ensures inMemoryCache == map[]
    {
      inMemoryCache := map[];
    }

    /** The stop branch: deletes the preference and says whether there was one. */
    method Unsubscribe(redis: Redis, outbox: Outbox, sender: string, now: int)
      modifies redis, outbox
      ensures redis.entries == old(redis.entries) - {Pref(sender)}
      ensures outbox.sent == old(outbox.sent)
        + [Message(sender, if Lookup(old(redis.entries), Pref(sender), now).Some? then Unsubscribed else NotSubscribed)]
    {
      var deleted := redis.Del(Pref(sender), now);
      if deleted {
        outbox.Send(sender, Unsubscribed);
      } else {
        outbox.Send(sender, NotSubscribed);
      }
    }

    /** The first message of the dialogue: a greeting that depends on the stored preference, then the prompt. */
    method Greet(redis: Redis, outbox: Outbox, sender: string, now: int)
      modifies outbox
      ensures outbox.sent == old(outbox.sent)
        + [Message(sender, if Hit(redis.entries, Pref(sender), now) then AlreadySubscribed else Welcome), Message(sender, Prompt)]
    {
      var existing := redis.Get(Pref(sender), now);
      if Present(existing) {
        outbox.Send(sender, AlreadySubscribed);
      } else {
        outbox.Send(sender, Welcome);
      }
      outbox.Send(sender, Prompt);
    }

    /** The replies to a valid answer, and the preference it stores when it is "2"; the step is reset. */
    method Answer(redis: Redis, outbox: Outbox, sender: string, content: string, now: int)
      requires content == RightAway || content == OnceADay
      modifies this, redis, outbox
      ensures inMemoryCache == old(inMemoryCache)[sender := StepEntry(0, now)]
      ensures World(redis.entries, outbox.sent) == Answered(old(World(redis.entries, outbox.sent)), sender, content)
    {
      if content == RightAway {
        outbox.Send(sender, AllSet);
        outbox.Send(sender, RightAwayAck);
        inMemoryCache := inMemoryCache[sender := StepEntry(0, now)];
      } else {
        redis.Set(Pref(sender), Str(content));
        outbox.Send(sender, AllSet);
        outbox.Send(sender, OnceADayAck);
        outbox.Send(sender, StopHint);
        inMemoryCache := inMemoryCache[sender := StepEntry(0, now)];
      }
    }

    method HandleMessage(redis: Redis, outbox: Outbox, sender: string, content: string,
                         up: Upstream, random: seq<nat>, now: int)
      returns (failure: Option<Failure>)
      modifies this, redis, outbox
      ensures Handled(inMemoryCache, Run(World(redis.entries, outbox.sent), failure))
           == Handle(old(inMemoryCache), old(World(redis.entries, outbox.sent)), sender, content, up, random, now)
    {
      ghost var steps0, w0 := inMemoryCache, World(redis.entries, outbox.sent);
      failure := None;
      var cacheEntry := if sender in inMemoryCache then Some(inMemoryCache[sender]) else None;
      var reset := false;
      if StopRequested(content) {
        Unsubscribe(redis, outbox, sender, now);
        reset := true;
      }
      // The check for an entry older than one hour has an empty body.
      inMemoryCache := inMemoryCache - {sender};
      var step := if reset then 0 else if cacheEntry.Some? then cacheEntry.value.step else 0;
      inMemoryCache := inMemoryCache[sender := StepEntry(step, now)];
      Rekey(steps0, sender, StepEntry(step, now), StepEntry(step, now));
      if reset {
        return;
      }
      assert step == StepOf(steps0, sender);
      if step == 0 {
        Greet(redis, outbox, sender, now);
        inMemoryCache := inMemoryCache[sender := StepEntry(1, now)];
        Rekey(steps0, sender, StepEntry(step, now), StepEntry(1, now));
      } else if step == 1 {
        if content != RightAway && content != OnceADay {
          outbox.Send(sender, InvalidOption);
          return;
        }
        Answer(redis, outbox, sender, content, now);
        Rekey(steps0, sender, StepEntry(step, now), StepEntry(0, now));
        assert World(redis.entries, outbox.sent) == Answered(w0, sender, content);
        failure := FetchAndSendTrendingMintsInContext(redis, outbox, OneHour, sender, up, random, now);
        AnswerRunsOneShot(steps0, w0, sender, content, up, random, now);
      }
    }
  }
}
