/**
 The circuit breaker, one atomic operation at a time: any number of callers
 interleave between the loads, stores, adds and swaps of `fails` and
 `openUntil`, each with clock readings of its own, in no agreed order.
 */
module Breaker {
  /** Where a caller is: inside Allow, Success or Failure, between two atomics. */
  datatype Place =
    | Idle
    | Open(until: int)              // Allow loaded a deadline
    | Over(until: int, now: int)    // ... and its clock has reached it
    | ClearFails | LoadOpen | Close // Success
    | ResetFails | Trip             // Failure

  /**
   Since a report last wrote openUntil: `swapped` the values a probe was let through on, and
   `probes` the clock readings of those probes. `told` is what Allow last answered each caller.
   */
  datatype State = State(
    trip: int, cooldown: int, fails: int, openUntil: int, callers: map<int, Place>,
    swapped: seq<int>, probes: seq<int>, told: map<int, bool>)

  datatype Event =
    | AllowLoad(c: int)
    | AllowClock(c: int, now: int)
    | AllowSwap(c: int)
    | SuccessLoad(c: int)
    | SuccessClear(c: int)
    | SuccessLoadOpen(c: int)
    | SuccessClose(c: int)
    | FailureAdd(c: int)
    | FailureReset(c: int)
    | FailureTrip(c: int, now: int)

  function At(s: State, c: int): Place { if c in s.callers then s.callers[c] else Idle }

  predicate Enabled(s: State, e: Event) {
    match e
    case AllowLoad(c) => At(s, c).Idle?
    case AllowClock(c, _) => At(s, c).Open?
    case AllowSwap(c) => At(s, c).Over?
    case SuccessLoad(c) => At(s, c).Idle?
    case SuccessClear(c) => At(s, c).ClearFails?
    case SuccessLoadOpen(c) => At(s, c).LoadOpen?
    case SuccessClose(c) => At(s, c).Close?
    case FailureAdd(c) => At(s, c).Idle?
    case FailureReset(c) => At(s, c).ResetFails?
    case FailureTrip(c, _) => At(s, c).Trip?
  }

  function Go(s: State, c: int, p: Place): State { s.(callers := s.callers[c := p]) }

  /** Allow answers. */
  function Tell(s: State, c: int, ok: bool): State { Go(s, c, Idle).(told := s.told[c := ok]) }

  /** A report writes openUntil. */
  function Report(s: State, v: int): State { s.(openUntil := v, swapped := [], probes := []) }

  /** A probe is let through: it swaps the deadline for the next one. */
  function Probe(s: State, now: int): State {
    s.(openUntil := now + s.cooldown, swapped := s.swapped + [s.openUntil], probes := s.probes + [now])
  }

  function Next(s: State, e: Event): State
    requires Enabled(s, e)
  {
    match e
    case AllowLoad(c) => if s.openUntil == 0 then Tell(s, c, true) else Go(s, c, Open(s.openUntil))
    case AllowClock(c, now) =>
      if now < At(s, c).until then Tell(s, c, false) else Go(s, c, Over(At(s, c).until, now))
    case AllowSwap(c) =>
      var Over(until, now) := At(s, c);
      if s.openUntil == until then Tell(Probe(s, now), c, true) else Tell(s, c, false)
    case SuccessLoad(c) => Go(s, c, if s.fails != 0 then ClearFails else LoadOpen)
    case SuccessClear(c) => Go(s.(fails := 0), c, LoadOpen)
    case SuccessLoadOpen(c) => Go(s, c, if s.openUntil != 0 then Close else Idle)
    case SuccessClose(c) => Go(Report(s, 0), c, Idle)
    case FailureAdd(c) => Go(s.(fails := s.fails + 1), c, if s.fails + 1 >= s.trip then ResetFails else Idle)
    case FailureReset(c) => Go(s.(fails := 0), c, Trip)
    case FailureTrip(c, now) => Go(Report(s, now + s.cooldown), c, Idle)
  }

  /** Probes with no report between them are a cooldown apart by their own clocks. */
  ghost predicate Spaced(s: State) {
    forall i :: 0 <= i < |s.probes| - 1 ==> s.probes[i + 1] - s.probes[i] >= s.cooldown
  }

  /** No value of openUntil let two of them through. */
  ghost predicate OncePerValue(s: State) {
    forall i, j :: 0 <= i < j < |s.swapped| ==> s.swapped[i] != s.swapped[j]
  }

  /** What is known of the probes since the last report. */
  ghost predicate Listed(s: State) {
    && Spaced(s) && |s.swapped| == |s.probes|
    && (s.probes != [] ==> s.openUntil == s.probes[|s.probes| - 1] + s.cooldown)
    && (s.cooldown > 0 ==>
          && (forall i, j :: 0 <= i < j < |s.swapped| ==> s.swapped[i] < s.swapped[j])
          && (forall i :: 0 <= i < |s.swapped| ==> s.swapped[i] < s.openUntil))
  }

  ghost predicate Inv(s: State) {
    Listed(s) && forall c :: At(s, c).Over? ==> At(s, c).until <= At(s, c).now
  }

  lemma ProbeKeeps(s: State, now: int)
    requires Listed(s) && s.openUntil <= now
    ensures Listed(Probe(s, now))
  {
  }

  lemma SwapKeeps(s: State, e: Event)
    requires Inv(s) && Enabled(s, e) && e.AllowSwap?
    ensures Inv(Next(s, e))
  {
    var t := Next(s, e);
    assert forall c :: c != e.c ==> At(t, c) == At(s, c);
    if s.openUntil == At(s, e.c).until { ProbeKeeps(s, At(s, e.c).now); }
  }

  lemma StepKeeps(s: State, e: Event)
    requires Inv(s) && Enabled(s, e)
    ensures Inv(Next(s, e))
  {
    if e.AllowSwap? {
      SwapKeeps(s, e);
    } else {
      var t := Next(s, e);
      assert forall c :: c != e.c ==> At(t, c) == At(s, c);
      assert || (t.probes == s.probes && t.swapped == s.swapped && t.openUntil == s.openUntil)
             || (t.probes == [] && t.swapped == []);
    }
  }

  // -------------------------------------------------------- whole runs

  ghost predicate Follows(s: State, es: seq<Event>)
    decreases |es|, 0
  {
    es == [] || (Follows(s, es[..|es| - 1]) && Enabled(End(s, es[..|es| - 1]), es[|es| - 1]))
  }

  ghost function End(s: State, es: seq<Event>): State
    requires Follows(s, es)
    decreases |es|, 1
  {
    if es == [] then s else Next(End(s, es[..|es| - 1]), es[|es| - 1])
  }

  function New(trip: int, cooldown: int): State { State(trip, cooldown, 0, 0, map[], [], [], map[]) }

  lemma {:induction false} RunKeeps(s: State, es: seq<Event>)
    requires Inv(s) && Follows(s, es)
    ensures Inv(End(s, es)) && End(s, es).cooldown == s.cooldown
  {
    if es == [] {
    } else {
      RunKeeps(s, es[..|es| - 1]);
      StepKeeps(End(s, es[..|es| - 1]), es[|es| - 1]);
    }
  }

  /** Left alone, a caller is let through if, and only if, the breaker is closed or its deadline has come. */
  lemma AllowAlone(s: State, c: int, now: int)
    requires At(s, c).Idle?
    ensures var a := Next(s, AllowLoad(c));
            if s.openUntil == 0 then At(a, c).Idle? && a.told == s.told[c := true] && a.probes == s.probes
            else
              && Enabled(a, AllowClock(c, now))
              && var b := Next(a, AllowClock(c, now));
                 if now < s.openUntil then At(b, c).Idle? && b.told == s.told[c := false] && b.probes == s.probes
                 else
                   && Enabled(b, AllowSwap(c))
                   && var d := Next(b, AllowSwap(c));
                      && d.told == s.told[c := true] && d.probes == s.probes + [now]
                      && d.openUntil == now + s.cooldown && d.fails == s.fails
  {
  }

  /** A success reported alone closes the breaker and clears the failures, whatever they were. */
  lemma SuccessAlone(s: State, c: int)
    requires At(s, c).Idle?
    ensures var a := Next(s, SuccessLoad(c));
            var b := if s.fails != 0 then Next(a, SuccessClear(c)) else a;
            && Enabled(b, SuccessLoadOpen(c))
            && var d := Next(b, SuccessLoadOpen(c));
               var t := if s.openUntil != 0 then Next(d, SuccessClose(c)) else d;
               t.fails == 0 && t.openUntil == 0 && At(t, c).Idle?
  {
  }

  /** A failure reported alone is counted, and the one that makes the count opens it for a cooldown and starts again. */
  lemma FailureAlone(s: State, c: int, now: int)
    requires At(s, c).Idle?
    ensures var a := Next(s, FailureAdd(c));
            if s.fails + 1 < s.trip then At(a, c).Idle? && a.fails == s.fails + 1 && a.openUntil == s.openUntil
            else
              && Enabled(a, FailureReset(c)) && Enabled(Next(a, FailureReset(c)), FailureTrip(c, now))
              && var t := Next(Next(a, FailureReset(c)), FailureTrip(c, now));
                 t.fails == 0 && t.openUntil == now + s.cooldown && At(t, c).Idle?
  {
  }

  /** However callers interleave. */
  lemma ProbesAreSpaced(trip: int, cooldown: int, es: seq<Event>)
    requires Follows(New(trip, cooldown), es)
    ensures Spaced(End(New(trip, cooldown), es))
  {
    RunKeeps(New(trip, cooldown), es);
  }

  /** So the probes of one outage that no report ends are no more than its length allows. */
  lemma {:induction false} ProbesAreFew(s: State, i: nat, j: nat)
    requires Spaced(s) && i <= j < |s.probes|
    ensures s.probes[j] - s.probes[i] >= (j - i) * s.cooldown
  {
    if i == j {
    } else {
      ProbesAreFew(s, i, j - 1);
      assert s.probes[j - 1 + 1] - s.probes[j - 1] >= s.cooldown;
      assert (j - i) * s.cooldown == (j - 1 - i) * s.cooldown + s.cooldown;
    }
  }

  // -------------------------------------------------- once per deadline

  ghost predicate Reaches(s: State, t: State) { exists es :: Follows(s, es) && End(s, es) == t }

  lemma Reach(s: State, t: State, e: Event, u: State)
    requires Reaches(s, t) && Enabled(t, e) && Next(t, e) == u
    ensures Reaches(s, u)
  {
    var es :| Follows(s, es) && End(s, es) == t;
    assert (es + [e])[..|es|] == es;
    assert Follows(s, es + [e]);
  }

  function Failing(trip: int, cooldown: int, n: int, p: Place): State {
    State(trip, cooldown, n, 0, map[0 := p], [], [], map[])
  }

  /** One caller reports failures up to the last that does not trip the breaker. */
  lemma {:induction false} Fails(trip: int, cooldown: int, n: nat)
    requires 0 < n < trip
    ensures Reaches(New(trip, cooldown), Failing(trip, cooldown, n, Idle))
  {
    var s := New(trip, cooldown);
    if n == 1 {
      assert Follows(s, []) && End(s, []) == s;
      Reach(s, s, FailureAdd(0), Failing(trip, cooldown, 1, Idle));
    } else {
      Fails(trip, cooldown, n - 1);
      Reach(s, Failing(trip, cooldown, n - 1, Idle), FailureAdd(0), Failing(trip, cooldown, n, Idle));
    }
  }

  /** The failure that trips it opens it until 100. */
  lemma Trips(trip: int, cooldown: int)
    ensures Reaches(New(trip, cooldown), Failing(trip, cooldown, 0, Idle).(openUntil := 100))
  {
    var s := New(trip, cooldown);
    var n := if trip > 1 then trip else 1;
    var a := Failing(trip, cooldown, n, ResetFails);
    if trip > 1 {
      Fails(trip, cooldown, n - 1);
      Reach(s, Failing(trip, cooldown, n - 1, Idle), FailureAdd(0), a);
    } else {
      assert Follows(s, []) && End(s, []) == s;
      Reach(s, s, FailureAdd(0), a);
    }
    Reach(s, a, FailureReset(0), Failing(trip, cooldown, 0, Trip));
    var b := Failing(trip, cooldown, 0, Trip);
    Reach(s, b, FailureTrip(0, 100 - cooldown), Failing(trip, cooldown, 0, Idle).(openUntil := 100));
  }

  function Waiting(trip: int, cooldown: int, p: Place, q: Place): State {
    State(trip, cooldown, 0, 100, map[0 := Idle, 1 := p, 2 := q], [], [], map[])
  }

  lemma BothWait(trip: int, cooldown: int)
    requires cooldown <= 0
    ensures var p := Over(100, 100 - cooldown); Reaches(New(trip, cooldown), Waiting(trip, cooldown, p, p))
  {
    var s, a, p := New(trip, cooldown), Failing(trip, cooldown, 0, Idle).(openUntil := 100), Over(100, 100 - cooldown);
    Trips(trip, cooldown);
    var b := a.(callers := map[0 := Idle, 1 := Open(100)]);
    assert Reaches(s, b) by { Reach(s, a, AllowLoad(1), b); }
    var c := Waiting(trip, cooldown, Open(100), Open(100));
    assert Reaches(s, c) by { Reach(s, b, AllowLoad(2), c); }
    BothRead(c, p);
  }

  lemma BothRead(c: State, p: Place)
    requires p.Over? && p.until == 100 <= p.now && c == Waiting(c.trip, c.cooldown, Open(100), Open(100))
    requires Reaches(New(c.trip, c.cooldown), c)
    ensures Reaches(New(c.trip, c.cooldown), Waiting(c.trip, c.cooldown, p, p))
  {
    var s, trip, cooldown := New(c.trip, c.cooldown), c.trip, c.cooldown;
    var d := Waiting(trip, cooldown, p, Open(100));
    assert Reaches(s, d) by { Reach(s, c, AllowClock(1, p.now), d); }
    Reach(s, d, AllowClock(2, p.now), Waiting(trip, cooldown, p, p));
  }

  /** A caller whose clock reads the deadline less the cooldown writes the same deadline again. */
  lemma BothPass(trip: int, cooldown: int)
    requires cooldown <= 0
    ensures exists t :: Reaches(New(trip, cooldown), t) && !OncePerValue(t)
  {
    var s, now := New(trip, cooldown), 100 - cooldown;
    BothWait(trip, cooldown);
    var a := Waiting(trip, cooldown, Over(100, now), Over(100, now));
    var b := Waiting(trip, cooldown, Idle, Over(100, now)).(swapped := [100], probes := [now], told := map[1 := true]);
    assert Reaches(s, b) by { Reach(s, a, AllowSwap(1), b); }
    var c := Waiting(trip, cooldown, Idle, Idle).(swapped := [100, 100], probes := [now, now],
                                                  told := map[1 := true, 2 := true]);
    assert Reaches(s, c) by { Reach(s, b, AllowSwap(2), c); }
    assert c.swapped[0] == c.swapped[1];
  }

  /** Every deadline lets at most one probe through, in every run, if and only if the cooldown is more than nothing. */
  lemma OneProbeIsExact(trip: int, cooldown: int)
    ensures cooldown > 0 <==>
            forall es :: Follows(New(trip, cooldown), es) ==> OncePerValue(End(New(trip, cooldown), es))
  {
    var s := New(trip, cooldown);
    if cooldown > 0 {
      forall es | Follows(s, es) ensures OncePerValue(End(s, es)) { RunKeeps(s, es); }
    } else {
      BothPass(trip, cooldown);
      var t :| Reaches(s, t) && !OncePerValue(t);
      var es :| Follows(s, es) && End(s, es) == t;
      assert !OncePerValue(End(s, es));
    }
  }
}
