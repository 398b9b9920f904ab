/**
 The brute-force lockout: failures counted per address, lockouts that double,
 and the sweep that forgets quiet addresses.

 Instants and durations are nanoseconds. An absent instant is the zero time,
 longer ago than any duration.
 */
module BruteForce {
  import opened Common

  datatype Config = Config(maxFails: int, lockout: int, maxLockout: int, window: int)

  datatype Attempts = Attempts(failures: int, firstFailure: Option<int>, lockedUntil: Option<int>, lockouts: nat)

  const FRESH := Attempts(0, None, None, 0)

  type Table = map<string, Attempts>

  predicate After(t: Option<int>, now: int) { t.Some? && t.value > now }

  /** now.Sub(t) > d. */
  predicate Longer(now: int, t: Option<int>, d: int) { t.None? || now - t.value > d }

  function Min(a: int, b: int): int { if a < b then a else b }

  function Max(a: int, b: int): int { if a > b then a else b }

  function Pow2(n: nat): (r: int)
    ensures r >= 1
  {
    if n == 0 then 1 else 2 * Pow2(n - 1)
  }

  /** The lockout after n earlier ones: doubled each time, capped, and nothing when it is set to nothing. */
  function Lockout(c: Config, n: nat): int {
    if c.lockout <= 0 then Min(c.lockout, c.maxLockout) else Min(c.lockout * Pow2(n), c.maxLockout)
  }

  function NewWindow(c: Config, r: Attempts, now: int): Attempts {
    if Longer(now, r.firstFailure, c.window)
    then Attempts(0, Some(now), r.lockedUntil, if Longer(now, r.lockedUntil, c.maxLockout) then 0 else r.lockouts)
    else r
  }

  function Counted(c: Config, r: Attempts, now: int): Attempts {
    if r.failures + 1 >= c.maxFails
    then Attempts(0, Some(now), Some(now + Lockout(c, r.lockouts)), r.lockouts + 1)
    else r.(failures := r.failures + 1)
  }

  function Failed(c: Config, r: Attempts, now: int): Attempts {
    if After(r.lockedUntil, now) then r else Counted(c, NewWindow(c, r, now), now)
  }

  predicate Quiet(c: Config, r: Attempts, now: int) {
    && !After(r.lockedUntil, now)
    && !(r.lockouts > 0 && !Longer(now, r.lockedUntil, c.maxLockout))
    && Longer(now, r.firstFailure, c.window * 4)
  }

  function At(m: Table, key: string): Option<Attempts> { if key in m then Some(m[key]) else None }

  function Swept(c: Config, m: Table, now: int): Table {
    map k | k in m && !Quiet(c, m[k], now) :: m[k]
  }

  /** What IsBlocked answers. */
  function Blocked(r: Option<Attempts>, now: int): (bool, int) {
    if r.Some? && After(r.value.lockedUntil, now) then (true, r.value.lockedUntil.value - now) else (false, 0)
  }

  class Protection {
    const config: Config
    var attempts: Table

    constructor (c: Config)
      ensures config == c && attempts == map[]
    {
      config, attempts := c, map[];
    }

    method Duration(lockouts: nat) returns (duration: int)
      ensures duration == Lockout(config, lockouts)
    {
      duration := Min(config.lockout, config.maxLockout);
      var i := 0;
      while i < lockouts && duration > 0 && duration < config.maxLockout
        invariant i <= lockouts && duration == Lockout(config, i)
        decreases lockouts - i
      {
        duration := Min(duration * 2, config.maxLockout);
        i := i + 1;
      }
      Capped(config, i, lockouts);
    }

    method RecordFailure(key: string, now: int)
      modifies this`attempts
      ensures attempts ==
              old(attempts)[key := Failed(config, if key in old(attempts) then old(attempts)[key] else FRESH, now)]
    {
      var rec := if key in attempts then attempts[key] else FRESH;
      attempts := attempts[key := rec];
      if After(rec.lockedUntil, now) { return; }
      if Longer(now, rec.firstFailure, config.window) {
        rec := rec.(failures := 0, firstFailure := Some(now));
        if Longer(now, rec.lockedUntil, config.maxLockout) { rec := rec.(lockouts := 0); }
      }
      rec := rec.(failures := rec.failures + 1);
      if rec.failures >= config.maxFails {
        var duration := Duration(rec.lockouts);
        rec := rec.(lockedUntil := Some(now + duration), lockouts := rec.lockouts + 1);
        rec := rec.(failures := 0, firstFailure := Some(now));
      }
      attempts := attempts[key := rec];
    }

    method RecordSuccess(key: string)
      modifies this`attempts
      ensures attempts == old(attempts) - {key}
    {
      attempts := attempts - {key};
    }

    method IsBlocked(key: string, now: int) returns (blocked: bool, left: int)
      ensures (blocked, left) == Blocked(At(attempts, key), now)
    {
      if key !in attempts { return false, 0; }
      var rec := attempts[key];
      if After(rec.lockedUntil, now) { return true, rec.lockedUntil.value - now; }
      return false, 0;
    }

    method Sweep(now: int)
      modifies this`attempts
      ensures attempts == Swept(config, old(attempts), now)
    {
      var todo := attempts.Keys;
      while todo != {}
        invariant todo <= attempts.Keys <= old(attempts).Keys
        invariant forall k :: k in attempts ==> attempts[k] == old(attempts)[k]
        invariant forall k :: k in old(attempts) && k !in todo ==>
                    (k in attempts <==> !Quiet(config, old(attempts)[k], now))
        decreases todo
      {
        var key :| key in todo;
        var rec := attempts[key];
        if After(rec.lockedUntil, now) {
        } else if rec.lockouts > 0 && !Longer(now, rec.lockedUntil, config.maxLockout) {
        } else if Longer(now, rec.firstFailure, config.window * 4) {
          attempts := attempts - {key};
        }
        todo := todo - {key};
      }
    }
  }

  lemma {:induction false} Capped(c: Config, i: nat, n: nat)
    requires i <= n && (i == n || Lockout(c, i) <= 0 || Lockout(c, i) >= c.maxLockout)
    ensures Lockout(c, i) == Lockout(c, n)
  {
    if i < n && c.lockout > 0 {
      Capped(c, i, n - 1);
      assert c.lockout * Pow2(n) == 2 * (c.lockout * Pow2(n - 1));
      assert c.lockout * Pow2(n - 1) >= 1 by { Positive(c.lockout, Pow2(n - 1)); }
    }
  }

  lemma Positive(a: int, b: int)
    requires a >= 1 && b >= 1
    ensures a * b >= 1
  {
  }

  // ------------------------------------------------------------- runs

  datatype Event = Fail(key: string, at: int) | Succeed(key: string, at: int) | Sweep(at: int)

  function Step(c: Config, m: Table, e: Event): Table {
    match e
    case Fail(key, at) => m[key := Failed(c, if key in m then m[key] else FRESH, at)]
    case Succeed(key, _) => m - {key}
    case Sweep(at) => Swept(c, m, at)
  }

  function Run(c: Config, es: seq<Event>): Table {
    if es == [] then map[] else Step(c, Run(c, es[..|es| - 1]), es[|es| - 1])
  }

  function Latest(start: int, es: seq<Event>): int { if es == [] then start else es[|es| - 1].at }

  /** The clock never goes back. */
  predicate Ordered(start: int, es: seq<Event>) {
    es == [] || (Ordered(start, es[..|es| - 1]) && Latest(start, es[..|es| - 1]) <= es[|es| - 1].at)
  }

  function Unswept(es: seq<Event>): seq<Event> {
    if es == [] then []
    else if es[|es| - 1].Sweep? then Unswept(es[..|es| - 1])
    else Unswept(es[..|es| - 1]) + [es[|es| - 1]]
  }

  // ---------------------------------------------------------- lockouts

  /** A record after failures at these instants. */
  function Streak(c: Config, r: Attempts, times: seq<int>): Attempts {
    if times == [] then r else Failed(c, Streak(c, r, times[..|times| - 1]), times[|times| - 1])
  }

  /**
   Failures in one window: the maxFails-th locks the address out, and none before it does. The
   lockout is the next longer one when the last ended no longer ago than the longest, else the first.
   */
  lemma {:induction false} StreakLocks(c: Config, r: Attempts, times: seq<int>)
    requires 0 < |times| <= Max(c.maxFails, 1)
    requires !After(r.lockedUntil, times[0]) && Longer(times[0], r.firstFailure, c.window)
    requires forall i :: 0 <= i < |times| ==> times[0] <= times[i] <= times[0] + c.window
    ensures var n := if Longer(times[0], r.lockedUntil, c.maxLockout) then 0 else r.lockouts;
            var last := times[|times| - 1];
            Streak(c, r, times) ==
            if |times| < c.maxFails then Attempts(|times|, Some(times[0]), r.lockedUntil, n)
            else Attempts(0, Some(last), Some(last + Lockout(c, n)), n + 1)
  {
    if |times| > 1 {
      StreakLocks(c, r, times[..|times| - 1]);
    } else {
      assert times[..0] == [];
    }
  }

  // ----------------------------------------------------- bisimulation

  /** Nothing in this record can matter any more, except that it is there. */
  predicate Lapsed(c: Config, r: Attempts, now: int) {
    && !After(r.lockedUntil, now) && Longer(now, r.firstFailure, c.window)
    && (r.lockouts == 0 || Longer(now, r.lockedUntil, c.maxLockout))
  }

  /** The same record but for the end of a lockout that is over and counts for nothing. */
  predicate SameButOld(a: Attempts, b: Attempts, now: int) {
    && a.(lockedUntil := None) == b.(lockedUntil := None) && a.lockouts == 0
    && !After(a.lockedUntil, now) && !After(b.lockedUntil, now)
  }

  predicate Alike(c: Config, a: Option<Attempts>, b: Option<Attempts>, now: int) {
    && (b.Some? ==> !After(b.value.firstFailure, now))
    && (|| a == b
        || (a.None? && b.Some? && Lapsed(c, b.value, now))
        || (a.Some? && b.Some? && SameButOld(a.value, b.value, now)))
  }

  lemma FailKeepsAlike(c: Config, a: Option<Attempts>, b: Option<Attempts>, now: int)
    requires Alike(c, a, b, now)
    ensures Alike(c, Some(Failed(c, if a.Some? then a.value else FRESH, now)),
                     Some(Failed(c, if b.Some? then b.value else FRESH, now)), now)
  {
  }

  lemma TimeKeepsAlike(c: Config, a: Option<Attempts>, b: Option<Attempts>, then_: int, now: int)
    requires Alike(c, a, b, then_) && then_ <= now
    ensures Alike(c, a, b, now)
  {
  }

  lemma SweepKeepsAlike(c: Config, a: Option<Attempts>, b: Option<Attempts>, now: int)
    requires Alike(c, a, b, now) && a.Some? && Quiet(c, a.value, now)
    ensures Alike(c, None, b, now)
  {
  }

  lemma {:induction false} RunsAlike(c: Config, start: int, es: seq<Event>, key: string)
    requires Ordered(start, es)
    ensures Alike(c, At(Run(c, es), key), At(Run(c, Unswept(es)), key), Latest(start, es))
  {
    if es == [] {
    } else {
      var init, e := es[..|es| - 1], es[|es| - 1];
      RunsAlike(c, start, init, key);
      var a, b := Run(c, init), Run(c, Unswept(init));
      TimeKeepsAlike(c, At(a, key), At(b, key), Latest(start, init), e.at);
      assert !e.Sweep? ==> Unswept(es)[..|Unswept(init)|] == Unswept(init);
      match e {
        case Fail(k, at) => if k == key { FailKeepsAlike(c, At(a, key), At(b, key), at); }
        case Succeed(_, _) =>
        case Sweep(at) => if key in a && Quiet(c, a[key], at) { SweepKeepsAlike(c, At(a, key), At(b, key), at); }
      }
    }
  }

  /** Sweeping anywhere, any number of times, never changes what any address is told. */
  lemma SweepIsInvisible(c: Config, start: int, es: seq<Event>, key: string, now: int)
    requires Ordered(start, es) && Latest(start, es) <= now
    ensures Blocked(At(Run(c, es), key), now) == Blocked(At(Run(c, Unswept(es)), key), now)
  {
    RunsAlike(c, start, es, key);
    TimeKeepsAlike(c, At(Run(c, es), key), At(Run(c, Unswept(es)), key), Latest(start, es), now);
  }

  // ------------------------------------------- what a caller is answered

  /** The first lockout is the shortest; each further one is twice the last, up to the longest. */
  lemma LockoutDoubles(c: Config, n: nat)
    ensures Lockout(c, 0) == Min(c.lockout, c.maxLockout)
    ensures c.lockout > 0 && c.maxLockout > 0 ==> Lockout(c, n + 1) == Min(2 * Lockout(c, n), c.maxLockout) > 0
    ensures c.lockout <= 0 ==> Lockout(c, n) <= 0
  {
    if c.lockout > 0 {
      Positive(c.lockout, Pow2(n));
      assert c.lockout * Pow2(n + 1) == 2 * (c.lockout * Pow2(n));
    }
  }

  /** How many lockouts a streak that begins now finds behind it. */
  function Behind(c: Config, r: Attempts, now: int): nat {
    if Longer(now, r.lockedUntil, c.maxLockout) then 0 else r.lockouts
  }

  /**
   After failures in one window: locked out from the maxFails-th on, for what is left of the lockout,
   and not at all before it or once it is over.
   */
  lemma StreakBlocks(c: Config, r: Attempts, times: seq<int>, now: int)
    requires 0 < |times| <= Max(c.maxFails, 1) && times[|times| - 1] <= now
    requires !After(r.lockedUntil, times[0]) && Longer(times[0], r.firstFailure, c.window)
    requires forall i :: 0 <= i < |times| ==> times[0] <= times[i] <= times[0] + c.window
    ensures var left := times[|times| - 1] + Lockout(c, Behind(c, r, times[0])) - now;
            Blocked(Some(Streak(c, r, times)), now) ==
            if |times| >= c.maxFails && left > 0 then (true, left) else (false, 0)
  {
    StreakLocks(c, r, times);
  }

  function Fails(key: string, times: seq<int>): (es: seq<Event>)
    ensures |es| == |times| && forall i :: 0 <= i < |es| ==> es[i] == Fail(key, times[i])
  {
    seq(|times|, i requires 0 <= i < |times| => Fail(key, times[i]))
  }

  lemma {:induction false} RunStreaks(c: Config, es: seq<Event>, key: string, times: seq<int>)
    requires times != []
    ensures var r := At(Run(c, es), key);
            At(Run(c, es + Fails(key, times)), key) == Some(Streak(c, if r.Some? then r.value else FRESH, times))
  {
    var init, fs := times[..|times| - 1], es + Fails(key, times);
    assert fs[..|fs| - 1] == es + Fails(key, init) && fs[|fs| - 1] == Fail(key, times[|times| - 1]);
    var m := Run(c, es + Fails(key, init));
    assert Run(c, fs) == Step(c, m, Fail(key, times[|times| - 1]));
    if init == [] {
      assert es + Fails(key, init) == es;
    } else {
      RunStreaks(c, es, key, init);
    }
  }

  /** So, after any history: an address that fails maxFails times in a new window is told how long it is locked out. */
  lemma LockedOut(c: Config, es: seq<Event>, key: string, times: seq<int>, now: int)
    requires 0 < |times| <= Max(c.maxFails, 1) && times[|times| - 1] <= now
    requires forall i :: 0 <= i < |times| ==> times[0] <= times[i] <= times[0] + c.window
    requires var r := At(Run(c, es), key);
             r.Some? ==> !After(r.value.lockedUntil, times[0]) && Longer(times[0], r.value.firstFailure, c.window)
    ensures var r := At(Run(c, es), key);
            var n := if r.Some? then Behind(c, r.value, times[0]) else 0;
            var left := times[|times| - 1] + Lockout(c, n) - now;
            Blocked(At(Run(c, es + Fails(key, times)), key), now) ==
            if |times| >= c.maxFails && left > 0 then (true, left) else (false, 0)
  {
    var r := At(Run(c, es), key);
    RunStreaks(c, es, key, times);
    StreakBlocks(c, if r.Some? then r.value else FRESH, times, now);
  }

  /** A failure during a lockout costs nothing: the answer is the same, now and later. */
  lemma LockedFailureIsFree(c: Config, r: Attempts, now: int)
    requires Blocked(Some(r), now).0
    ensures Failed(c, r, now) == r
  {
  }

  function Only(es: seq<Event>, key: string): seq<Event> {
    if es == [] then []
    else if !es[|es| - 1].Sweep? && es[|es| - 1].key != key then Only(es[..|es| - 1], key)
    else Only(es[..|es| - 1], key) + [es[|es| - 1]]
  }

  /** No address is answered by what another one did. */
  lemma {:induction false} OthersDoNotMatter(c: Config, es: seq<Event>, key: string)
    ensures At(Run(c, es), key) == At(Run(c, Only(es, key)), key)
  {
    if es == [] {
    } else {
      var init, e := es[..|es| - 1], es[|es| - 1];
      OthersDoNotMatter(c, init, key);
      var w := Only(init, key);
      assert (w + [e])[..|w|] == w;
    }
  }

  /** A success forgets everything: not blocked, and the next lockout is the first. */
  lemma SuccessClears(c: Config, es: seq<Event>, key: string, at: int)
    ensures At(Run(c, es + [Succeed(key, at)]), key).None?
    ensures forall now :: Blocked(At(Run(c, es + [Succeed(key, at)]), key), now) == (false, 0)
  {
    assert (es + [Succeed(key, at)])[..|es|] == es;
  }

  /** A sweep forgets exactly those not locked out, whose last lockout is long over, and that are long quiet. */
  lemma ForgottenIsExact(c: Config, m: Table, now: int, key: string)
    requires key in m
    ensures var r := m[key];
            key !in Swept(c, m, now) <==>
            && (r.lockedUntil.Some? ==> r.lockedUntil.value <= now)
            && (r.lockedUntil.Some? && r.lockouts > 0 ==> now - r.lockedUntil.value > c.maxLockout)
            && (r.firstFailure.Some? ==> now - r.firstFailure.value > 4 * c.window)
    ensures key in Swept(c, m, now) ==> Swept(c, m, now)[key] == m[key]
  {
  }
}
