/**
 * The pure pieces of src/cron.ts that decide what a recipient gets: the
 * filter against the addresses already sent, the prefix taken from it, the
 * de-duplicated history written back (`Array.from(new Set([...]))`), and the
 * shuffle of the onboarding send.
 */
module Delivery {
  import opened Wrappers
  import opened AirstackTypes

  /** An address as the history records it: None for an item whose address was null. */
  type Address = Option<string>

  /** A history as stored: the addresses already sent. */
  type History = seq<Address>

  predicate NoDuplicates<T(==)>(s: seq<T>) {
    forall i, j :: 0 <= i < j < |s| ==> s[i] != s[j]
  }

  /**
   * `trendingMints.filter(m => !history.includes(m.address))`: the items not
   * sent before, in the order they came. Items without an address are not
   * dropped; they are kept unless a null was recorded.
   */
  function Undelivered(mints: seq<Mint>, history: History): (r: seq<Mint>)
    ensures |r| <= |mints|
    ensures forall m :: m in r <==> m in mints && m.address !in history
    decreases |mints|
  {
    if mints == [] then []
    else (if mints[0].address in history then [] else [mints[0]]) + Undelivered(mints[1..], history)
  }

  /** The filter keeps the order of its input: it distributes over concatenation. */
  lemma {:induction false} UndeliveredAppend(a: seq<Mint>, b: seq<Mint>, history: History)
    ensures Undelivered(a + b, history) == Undelivered(a, history) + Undelivered(b, history)
    decreases |a|
  {
    if a != [] {
      assert (a + b)[0] == a[0] && (a + b)[1..] == a[1..] + b;
      UndeliveredAppend(a[1..], b, history);
    } else {
      assert a + b == b;
    }
  }

  /** Once every address is in the history, nothing is kept. */
  lemma {:induction false} UndeliveredAllKnown(mints: seq<Mint>, history: History)
    requires forall m :: m in mints ==> m.address in history
    ensures Undelivered(mints, history) == []
    decreases |mints|
  {
    if mints != [] {
      UndeliveredAllKnown(mints[1..], history);
    }
  }

  /** With no history every item is kept. */
  lemma {:induction false} UndeliveredNoHistory(mints: seq<Mint>)
    ensures Undelivered(mints, []) == mints
    decreases |mints|
  {
    if mints != [] {
      UndeliveredNoHistory(mints[1..]);
    }
  }

  function Min(a: int, b: int): int {
    if a <= b then a else b
  }

  /**
   * `s.slice(0, n)`: a prefix of s, all of it when n reaches its length,
   * drawing each element of s at most as often as s holds it.
   */
  function Take<T>(s: seq<T>, n: nat): (r: seq<T>)
    ensures |r| == Min(n, |s|)
    ensures r == s[..|r|]
    ensures n >= |s| ==> r == s
    ensures multiset(r) <= multiset(s)
  {
    var k := Min(n, |s|);
    assert s == s[..k] + s[k..];
    s[..k]
  }

  /** `mints.map(m => m.address!)`: every item's address, so every item sent is recorded. */
  function AddressesOf(mints: seq<Mint>): (r: History)
    ensures |r| == |mints|
    ensures forall i :: 0 <= i < |mints| ==> r[i] == mints[i].address
    ensures forall m :: m in mints ==> m.address in r
  {
    var r := seq(|mints|, i requires 0 <= i < |mints| => mints[i].address);
    assert forall i :: 0 <= i < |mints| ==> r[i] == mints[i].address;
    r
  }

  /**
   * Appends the elements of s not yet in acc, in the order of s: the set a
   * JavaScript `Set` builds, read back as an array.
   */
  function DedupInto(acc: History, s: History): (r: History)
    ensures forall e :: e in r <==> e in acc || e in s
    ensures NoDuplicates(acc) ==> NoDuplicates(r)
    ensures |acc| <= |r| && r[..|acc|] == acc
    decreases |s|
  {
    if s == [] then acc
    else DedupInto(if s[0] in acc then acc else acc + [s[0]], s[1..])
  }

  /** `Array.from(new Set(s))`: every element of s once, in first-occurrence order. */
  function Dedup(s: History): (r: History)
    ensures NoDuplicates(r)
    ensures forall e :: e in r <==> e in s
  {
    DedupInto([], s)
  }

  lemma {:induction false} DedupIntoAppend(acc: History, x: History, y: History)
    ensures DedupInto(acc, x + y) == DedupInto(DedupInto(acc, x), y)
    decreases |x|
  {
    if x != [] {
      assert (x + y)[0] == x[0] && (x + y)[1..] == x[1..] + y;
      DedupIntoAppend(if x[0] in acc then acc else acc + [x[0]], x[1..], y);
    } else {
      assert x + y == y;
    }
  }

  lemma {:induction false} DedupIntoCovered(acc: History, s: History)
    requires forall e :: e in s ==> e in acc
    ensures DedupInto(acc, s) == acc
    decreases |s|
  {
    if s != [] {
      DedupIntoCovered(acc, s[1..]);
    }
  }

  /** Dropping the head of a duplicate-free sequence of new elements keeps both properties, for acc with the head added. */
  lemma FreshTail(acc: History, t: History)
    requires t != []
    requires NoDuplicates(t)
    requires forall e :: e in t ==> e !in acc
    ensures t[0] !in acc
    ensures NoDuplicates(t[1..])
    ensures forall e :: e in t[1..] ==> e !in acc + [t[0]]
  {
    var rest := t[1..];
    forall i, j | 0 <= i < j < |rest| ensures rest[i] != rest[j] {
      assert rest[i] == t[i + 1] && rest[j] == t[j + 1];
    }
    forall e | e in rest ensures e !in acc + [t[0]] {
      var i :| 0 <= i < |rest| && rest[i] == e;
      assert t[i + 1] == e;
    }
  }

  lemma ConcatHead<T>(acc: seq<T>, t: seq<T>)
    requires t != []
    ensures acc + [t[0]] + t[1..] == acc + t
  {
    assert t == [t[0]] + t[1..];
  }

  lemma {:induction false} DedupIntoFresh(acc: History, t: History)
    requires NoDuplicates(t)
    requires forall e :: e in t ==> e !in acc
    ensures DedupInto(acc, t) == acc + t
    decreases |t|
  {
    if t != [] {
      FreshTail(acc, t);
      var acc', rest := acc + [t[0]], t[1..];
      assert DedupInto(acc, t) == DedupInto(acc', rest);
      DedupIntoFresh(acc', rest);
      ConcatHead(acc, t);
    }
  }

  /** `Array.from(new Set([...sent, ...history]))`: the history written back after a send. */
  function Record(sent: History, history: History): (r: History)
    ensures NoDuplicates(r)
    ensures forall a :: a in r <==> a in sent || a in history
  {
    Dedup(sent + history)
  }

  /** What DedupInto adds to a duplicate-free acc is itself duplicate-free and new. */
  lemma DedupIntoExtends(acc: History, s: History)
    requires NoDuplicates(acc)
    ensures var r := DedupInto(acc, s);
      && r == acc + r[|acc|..]
      && NoDuplicates(r[|acc|..])
      && forall e :: e in r[|acc|..] ==> e !in acc
  {
    var r := DedupInto(acc, s);
    var t := r[|acc|..];
    assert r == acc + t;
    forall i, j | 0 <= i < j < |t| ensures t[i] != t[j] {
      assert t[i] == r[|acc| + i] && t[j] == r[|acc| + j];
    }
    forall e | e in t ensures e !in acc {
      var j :| 0 <= j < |t| && t[j] == e;
      assert r[|acc| + j] == e;
    }
  }

  /**
   * Recording the same addresses twice gives exactly what recording them
   * once gave: the union is idempotent, down to the order of the array.
   */
  lemma RecordIdempotent(sent: History, history: History)
    ensures Record(sent, Record(sent, history)) == Record(sent, history)
  {
    var p := DedupInto([], sent);
    var once := DedupInto([], sent + history);
    DedupIntoAppend([], sent, history);
    DedupIntoExtends(p, history);
    var t := once[|p|..];
    DedupIntoAppend([], sent, once);
    DedupIntoAppend(p, p, t);
    DedupIntoCovered(p, p);
    DedupIntoFresh(p, t);
  }

  /** Removes the element at index i. */
  function RemoveAt<T>(s: seq<T>, i: nat): (r: seq<T>)
    requires i < |s|
    ensures |r| == |s| - 1
    ensures multiset(r) + multiset{s[i]} == multiset(s)
  {
    assert s == s[..i] + [s[i]] + s[i + 1..];
    s[..i] + s[i + 1..]
  }

  /**
   * A shuffle driven by an injected source of random numbers: each step moves
   * the element at the next random index, reduced modulo what is left, to the
   * output. Whatever the numbers, the output is a permutation of the input.
   */
  function Shuffle<T>(s: seq<T>, random: seq<nat>): (r: seq<T>)
    ensures multiset(r) == multiset(s)
    decreases |s|
  {
    if s == [] then []
    else
      var i := (if random == [] then 0 else random[0]) % |s|;
      [s[i]] + Shuffle(RemoveAt(s, i), if random == [] then [] else random[1..])
  }

  /** `mints.filter(m => m.address)`: the items with an address, in order. */
  function Addressed(mints: seq<Mint>): (r: seq<Mint>)
    ensures forall m :: m in r <==> m in mints && HasAddress(m)
    decreases |mints|
  {
    if mints == [] then []
    else (if HasAddress(mints[0]) then [mints[0]] else []) + Addressed(mints[1..])
  }
}
