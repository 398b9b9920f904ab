/**
 The in-memory rate limiter: a fixed window per key that resets a window
 length after it opened, and the cleanup that drops closed windows.

 Instants and durations are nanoseconds.
 */
module RateLimiter {
  import opened Common

  const LINGER: int := 300_000_000_000

  datatype Visitor = Visitor(count: int, windowStart: int, window: int)

  type Table = map<string, Visitor>

  function Max(a: int, b: int): int { if a > b then a else b }

  function At(m: Table, key: string): Option<Visitor> { if key in m then Some(m[key]) else None }

  predicate Opens(v: Option<Visitor>, window: int, now: int) {
    v.None? || now - v.value.windowStart >= window
  }

  function Visited(v: Option<Visitor>, window: int, now: int): Visitor {
    if Opens(v, window, now) then Visitor(1, now, window) else v.value.(count := v.value.count + 1)
  }

  /** What Allow answers. */
  predicate Admits(v: Option<Visitor>, rate: int, window: int, now: int) {
    Opens(v, window, now) || v.value.count + 1 <= rate
  }

  predicate Closed(v: Visitor, now: int) { now - v.windowStart > Max(v.window, LINGER) }

  function Cleaned(m: Table, now: int): Table { map k | k in m && !Closed(m[k], now) :: m[k] }

  class Memory {
    var visitors: Table

    constructor ()
      ensures visitors == map[]
    {
      visitors := map[];
    }

    method Allow(key: string, rate: int, window: int, now: int) returns (ok: bool)
      modifies this
      ensures ok == Admits(At(old(visitors), key), rate, window, now)
      ensures visitors == old(visitors)[key := Visited(At(old(visitors), key), window, now)]
    {
      if key !in visitors || now - visitors[key].windowStart >= window {
        visitors := visitors[key := Visitor(1, now, window)];
        return true;
      }
      var v := visitors[key].(count := visitors[key].count + 1);
      visitors := visitors[key := v];
      return v.count <= rate;
    }

    method Cleanup(now: int)
      modifies this
      ensures visitors == Cleaned(old(visitors), now)
    {
      var todo := visitors.Keys;
      while todo != {}
        invariant todo <= visitors.Keys <= old(visitors).Keys
        invariant forall k :: k in visitors ==> visitors[k] == old(visitors)[k]
        invariant forall k :: k in old(visitors) && k !in todo ==> (k in visitors <==> !Closed(old(visitors)[k], now))
        decreases todo
      {
        var key :| key in todo;
        var v := visitors[key];
        var ttl := Max(v.window, LINGER);
        if now - v.windowStart > ttl { visitors := visitors - {key}; }
        todo := todo - {key};
      }
    }
  }

  // ------------------------------------------------------------- runs

  datatype Event = Call(key: string, rate: int, window: int, at: int) | Cleanup(at: int)

  function Step(m: Table, e: Event): Table {
    match e
    case Call(key, _, window, at) => m[key := Visited(At(m, key), window, at)]
    case Cleanup(at) => Cleaned(m, at)
  }

  function Run(es: seq<Event>): Table {
    if es == [] then map[] else Step(Run(es[..|es| - 1]), es[|es| - 1])
  }

  function Latest(start: int, es: seq<Event>): int { if es == [] then start else es[|es| - 1].at }

  predicate Ordered(start: int, es: seq<Event>) {
    es == [] || (Ordered(start, es[..|es| - 1]) && Latest(start, es[..|es| - 1]) <= es[|es| - 1].at)
  }

  function Uncleaned(es: seq<Event>): seq<Event> {
    if es == [] then []
    else if es[|es| - 1].Cleanup? then Uncleaned(es[..|es| - 1])
    else Uncleaned(es[..|es| - 1]) + [es[|es| - 1]]
  }

  /** No call of the key asks for a window that outlasts what cleanup leaves of another of its windows. */
  predicate Comparable(es: seq<Event>, key: string, longest: int) {
    forall i :: 0 <= i < |es| && es[i].Call? && es[i].key == key ==>
      es[i].window <= longest <= Max(es[i].window, LINGER)
  }

  // ----------------------------------------------- cleanup is invisible

  predicate Alike(a: Option<Visitor>, b: Option<Visitor>, longest: int, now: int) {
    && (b.Some? ==> longest <= Max(b.value.window, LINGER))
    && (a == b || (a.None? && b.Some? && now - b.value.windowStart > longest))
  }

  lemma {:induction false} RunsAlike(start: int, es: seq<Event>, key: string, longest: int)
    requires Ordered(start, es) && Comparable(es, key, longest)
    ensures Alike(At(Run(es), key), At(Run(Uncleaned(es)), key), longest, Latest(start, es))
  {
    if es == [] {
    } else {
      var init, e := es[..|es| - 1], es[|es| - 1];
      assert Comparable(init, key, longest);
      RunsAlike(start, init, key, longest);
      assert e.Call? ==> Uncleaned(es)[..|Uncleaned(init)|] == Uncleaned(init);
    }
  }

  /** Cleanups anywhere never change what a call is answered, for keys called with one window length. */
  lemma CleanupIsInvisible(start: int, es: seq<Event>, key: string, rate: int, window: int, now: int)
    requires Ordered(start, es) && Latest(start, es) <= now
    requires forall i :: 0 <= i < |es| && es[i].Call? && es[i].key == key ==> es[i].window == window
    ensures Admits(At(Run(es), key), rate, window, now) == Admits(At(Run(Uncleaned(es)), key), rate, window, now)
  {
    RunsAlike(start, es, key, window);
  }

  /** The same for keys called with any windows of at most five minutes. */
  lemma ShortWindowsToo(start: int, es: seq<Event>, key: string, rate: int, window: int, now: int)
    requires Ordered(start, es) && Latest(start, es) <= now && window <= LINGER
    requires forall i :: 0 <= i < |es| && es[i].Call? && es[i].key == key ==> es[i].window <= LINGER
    ensures Admits(At(Run(es), key), rate, window, now) == Admits(At(Run(Uncleaned(es)), key), rate, window, now)
  {
    RunsAlike(start, es, key, LINGER);
  }

  // ----------------------------------------------- how much gets through

  predicate OneLimit(es: seq<Event>, key: string, rate: int, window: int) {
    forall i :: 0 <= i < |es| && es[i].Call? && es[i].key == key ==> es[i].rate == rate && es[i].window == window
  }

  /** How many calls of a key were let through in a span, its ends included. */
  function Admitted(es: seq<Event>, key: string, from: int, to: int): nat {
    if es == [] then 0
    else
      var init, e := es[..|es| - 1], es[|es| - 1];
      var n := Admitted(init, key, from, to);
      if e.Call? && e.key == key && from <= e.at <= to && Admits(At(Run(init), key), e.rate, e.window, e.at)
      then n + 1 else n
  }

  lemma {:induction false} CleanupAdmitsAlike(
      start: int, es: seq<Event>, key: string, rate: int, window: int, from: int, to: int)
    requires Ordered(start, es) && OneLimit(es, key, rate, window)
    ensures Admitted(es, key, from, to) == Admitted(Uncleaned(es), key, from, to)
  {
    if es == [] {
    } else {
      var init, e := es[..|es| - 1], es[|es| - 1];
      assert OneLimit(init, key, rate, window);
      CleanupAdmitsAlike(start, init, key, rate, window, from, to);
      CleanupIsInvisible(start, init, key, rate, window, e.at);
      assert e.Call? ==> Uncleaned(es)[..|Uncleaned(init)|] == Uncleaned(init);
    }
  }

  function Min(a: int, b: int): int { if a < b then a else b }

  /** How far the calls let through in a span, so far, can have come, from where the current window is. */
  predicate Bounded(n: nat, v: Option<Visitor>, most: int, window: int, from: int) {
    if v.None? then n == 0
    else
      var Visitor(count, start, w) := v.value;
      && count >= 1 && w == window
      && (n > 0 ==> from < start + window)
      && n <= (if start <= from then Min(count, most)
               else if start <= from + window then most + Min(count, most) else 2 * most)
  }

  lemma {:induction false} SpanBounded(start: int, es: seq<Event>, key: string, rate: int, window: int, from: int)
    requires Ordered(start, es) && OneLimit(es, key, rate, window) && window > 0
    requires forall i :: 0 <= i < |es| ==> es[i].Call?
    ensures Bounded(Admitted(es, key, from, from + window), At(Run(es), key), Max(rate, 1), window, from)
    ensures key in Run(es) ==> Run(es)[key].windowStart <= Latest(start, es)
  {
    if es == [] {
    } else {
      SpanBounded(start, es[..|es| - 1], key, rate, window, from);
    }
  }

  /** And a window lets exactly the rate through, the first call always. */
  lemma {:induction false} WindowAdmitsRate(es: seq<Event>, key: string, rate: int, window: int)
    requires OneLimit(es, key, rate, window) && window > 0 && es != []
    requires forall i :: 0 <= i < |es| ==> es[i].Call? && es[i].key == key && es[0].at <= es[i].at < es[0].at + window
    ensures Admitted(es, key, es[0].at, es[0].at + window) == Min(|es|, Max(rate, 1))
    ensures At(Run(es), key) == Some(Visitor(|es|, es[0].at, window))
  {
    if |es| > 1 {
      WindowAdmitsRate(es[..|es| - 1], key, rate, window);
    } else {
      assert es[..0] == [];
    }
  }

  lemma {:induction false} UncleanedCalls(start: int, es: seq<Event>, key: string, rate: int, window: int)
    requires Ordered(start, es) && OneLimit(es, key, rate, window)
    ensures var u := Uncleaned(es);
            && OneLimit(u, key, rate, window) && (forall i :: 0 <= i < |u| ==> u[i].Call?)
            && Ordered(start, u) && Latest(start, u) <= Latest(start, es)
  {
    if es == [] {
    } else {
      var init, e := es[..|es| - 1], es[|es| - 1];
      assert OneLimit(init, key, rate, window);
      UncleanedCalls(start, init, key, rate, window);
      assert e.Call? ==> Uncleaned(es)[..|Uncleaned(init)|] == Uncleaned(init);
    }
  }

  /** Any span of one window length lets at most twice the rate through, whatever is cleaned up meanwhile. */
  lemma SpanAdmitsAtMostTwice(start: int, es: seq<Event>, key: string, rate: int, window: int, from: int)
    requires Ordered(start, es) && OneLimit(es, key, rate, window) && window > 0
    ensures Admitted(es, key, from, from + window) <= 2 * Max(rate, 1)
  {
    CleanupAdmitsAlike(start, es, key, rate, window, from, from + window);
    UncleanedCalls(start, es, key, rate, window);
    SpanBounded(start, Uncleaned(es), key, rate, window, from);
  }

  /** A window that has run its length reopens with the first call after it, whatever was turned away before. */
  lemma WindowReopens(m: Table, key: string, rate: int, window: int, now: int)
    requires key in m && now >= m[key].windowStart + window
    ensures Admits(At(m, key), rate, window, now) && Visited(At(m, key), window, now) == Visitor(1, now, window)
  {
  }

  /** Inside it a call is counted whether it is let through or not, and the window's start stays. */
  lemma WindowCounts(v: Visitor, rate: int, window: int, now: int)
    requires now < v.windowStart + window
    ensures Visited(Some(v), window, now) == Visitor(v.count + 1, v.windowStart, v.window)
    ensures Admits(Some(v), rate, window, now) <==> v.count < rate
  {
  }

  /** Cleanup drops exactly the windows that closed, and for short ones five minutes have passed since they opened. */
  lemma CleanedIsExact(m: Table, now: int, key: string)
    requires key in m
    ensures key !in Cleaned(m, now) <==>
            now - m[key].windowStart > m[key].window && now - m[key].windowStart > 300_000_000_000
    ensures key in Cleaned(m, now) ==> Cleaned(m, now)[key] == m[key]
  {
  }
}
