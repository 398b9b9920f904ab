/**
 The two-row claim on a Stripe event: a reservation, which stays once the
 event is done, and an in-flight marker, which is there while it is handled.

 Each transaction or single statement is one step; deliveries of the event
 interleave freely and may die anywhere. Instants are microseconds of the
 database clock.
 */
module EventClaim {
  import opened Common

  /** A marker older than this is taken over. */
  const STALE: int := 600_000_000

  /** How far one delivery of the event has come. */
  datatype Phase =
    | Arrived
    | Looking              // found the reservation taken
    | Found                // ... and the marker there
    | Between              // removed a stale marker, has not written its own yet
    | Working(since: int)  // holds the claim
    | Answered(done: bool) // told Stripe: done, or come back later
    | Ended                // handled it and recorded so
    | Dead                 // stopped, or gave its claim back

  /**
   `limit` bounds how long a delivery works on the event after its marker was written. `done`
   counts recorded completions and `lost` says that a taker died between its two statements.
   */
  datatype State = State(
    now: int, limit: int, reserved: bool, marker: Option<int>,
    phases: map<int, Phase>, done: nat, lost: bool)

  datatype Event =
    | Reserve(h: int, at: int)  // both rows, in one transaction
    | Look(h: int, at: int)     // is there a marker?
    | Remove(h: int, at: int)   // DELETE of a stale marker
    | Take(h: int, at: int)     // INSERT of the taker's own
    | Complete(h: int, at: int) // handled: the marker goes
    | Release(h: int, at: int)  // failed: both rows go, in one transaction
    | Die(h: int, at: int)      // crash, or a statement that failed

  function At(s: State, h: int): Phase { if h in s.phases then s.phases[h] else Arrived }

  predicate Enabled(s: State, e: Event) {
    s.now < e.at &&
    match e
    case Reserve(h, _) => At(s, h).Arrived?
    case Look(h, _) => At(s, h).Looking?
    case Remove(h, _) => At(s, h).Found?
    case Take(h, _) => At(s, h).Between?
    case Complete(h, at) => At(s, h).Working? && at <= At(s, h).since + s.limit
    case Release(h, at) => At(s, h).Working? && at <= At(s, h).since + s.limit
    case Die(h, _) => true
  }

  function Go(s: State, h: int, p: Phase): State { s.(phases := s.phases[h := p]) }

  function Next(s: State, e: Event): State
    requires Enabled(s, e)
  {
    (match e
     case Reserve(h, at) =>
       if s.reserved then Go(s, h, Looking) else Go(s.(reserved := true, marker := Some(at)), h, Working(at))
     case Look(h, _) => Go(s, h, if s.marker.Some? then Found else Answered(true))
     case Remove(h, at) =>
       if s.marker.Some? && s.marker.value < at - STALE then Go(s.(marker := None), h, Between)
       else Go(s, h, Answered(false))
     case Take(h, at) =>
       if s.marker.Some? then Go(s, h, Answered(false)) else Go(s.(marker := Some(at)), h, Working(at))
     case Complete(h, _) => Go(s.(marker := None, done := s.done + 1), h, Ended)
     case Release(h, _) => Go(s.(reserved := false, marker := None), h, Dead)
     case Die(h, _) => Go(s.(lost := s.lost || At(s, h).Between?), h, Dead)).(now := e.at)
  }

  /** This delivery may still write the event's rows as their owner. */
  predicate Owns(s: State, h: int) {
    At(s, h).Between? || (At(s, h).Working? && s.now <= At(s, h).since + s.limit)
  }

  ghost predicate Exclusive(s: State) { forall h, k :: Owns(s, h) && Owns(s, k) ==> h == k }

  ghost predicate Taking(s: State) { exists h :: At(s, h).Between? }

  /** A reservation without a marker: finished, being taken over, or lost in the middle of that. */
  ghost predicate Explained(s: State) {
    && (s.reserved && s.marker.None? <==> s.done == 1 || Taking(s) || s.lost)
    && !(s.done == 1 && (Taking(s) || s.lost)) && !(Taking(s) && s.lost)
  }

  ghost predicate Inv(s: State) {
    && s.limit <= STALE && s.done <= 1 && Exclusive(s) && Explained(s)
    && (s.marker.Some? ==> s.reserved)
    && (forall h :: Owns(s, h) && At(s, h).Working? ==> s.marker == Some(At(s, h).since))
  }

  /** Everybody but the one that steps is where it was. */
  lemma OthersStay(s: State, e: Event)
    requires Enabled(s, e)
    ensures forall h :: h != e.h ==> At(Next(s, e), h) == At(s, h) && (Owns(Next(s, e), h) ==> Owns(s, h))
  {
  }

  /** A delivery that finds the rows free, or looks, or is turned away. */
  lemma LookKeeps(s: State, e: Event)
    requires Inv(s) && Enabled(s, e) && (e.Reserve? || e.Look?)
    ensures Inv(Next(s, e))
  {
    var t := Next(s, e);
    OthersStay(s, e);
    if Taking(s) {
      var k :| At(s, k).Between?;
      assert Owns(s, k) && At(t, k).Between?;
    }
  }

  /** A taker's two statements. */
  lemma TakeKeeps(s: State, e: Event)
    requires Inv(s) && Enabled(s, e) && (e.Remove? || e.Take?)
    ensures Inv(Next(s, e))
  {
    var t := Next(s, e);
    OthersStay(s, e);
    if e.Take? { assert Owns(s, e.h); }
    if e.Remove? && At(t, e.h).Between? { assert Taking(t); }
    if Taking(s) {
      var k :| At(s, k).Between?;
      assert Owns(s, k);
      if k != e.h { assert At(t, k).Between?; }
    }
  }

  /** The end of a delivery. */
  lemma FinishKeeps(s: State, e: Event)
    requires Inv(s) && Enabled(s, e) && (e.Complete? || e.Release? || e.Die?)
    ensures Inv(Next(s, e))
  {
    var t := Next(s, e);
    OthersStay(s, e);
    if !e.Die? || At(s, e.h).Between? { assert Owns(s, e.h); }
    if Taking(t) {
      var k :| At(t, k).Between?;
      assert k != e.h && At(s, k).Between? && Owns(s, k);
    }
    if Taking(s) {
      var k :| At(s, k).Between?;
      assert Owns(s, k);
      if k != e.h { assert At(t, k).Between?; }
    }
  }

  lemma StepKeeps(s: State, e: Event)
    requires Inv(s) && Enabled(s, e)
    ensures Inv(Next(s, e))
  {
    if e.Reserve? || e.Look? {
      LookKeeps(s, e);
    } else if e.Remove? || e.Take? {
      TakeKeeps(s, e);
    } else {
      FinishKeeps(s, e);
    }
  }

  // -------------------------------------------------------- whole runs

  ghost predicate Follows(s: State, es: seq<Event>)
    decreases |es|, 0
  {
    es == [] || (Follows(s, es[..|es| - 1]) && Enabled(End(s, es[..|es| - 1]), es[|es| - 1]))
  }

  ghost function End(s: State, es: seq<Event>): State
    requires Follows(s, es)
    decreases |es|, 1
  {
    if es == [] then s else Next(End(s, es[..|es| - 1]), es[|es| - 1])
  }

  /** An event no delivery of which has arrived. */
  function Unseen(limit: int): State { State(0, limit, false, None, map[], 0, false) }

  lemma {:induction false} RunKeeps(s: State, es: seq<Event>)
    requires Inv(s) && Follows(s, es)
    ensures Inv(End(s, es))
  {
    if es == [] {
    } else {
      RunKeeps(s, es[..|es| - 1]);
      StepKeeps(End(s, es[..|es| - 1]), es[|es| - 1]);
    }
  }

  /**
   While a delivery works no longer than the stale age: at most one owns the event at a time, at
   most one completion is ever recorded, and a reservation without a marker means exactly one of
   three things.
   */
  lemma ClaimSafety(limit: int, es: seq<Event>)
    requires limit <= STALE && Follows(Unseen(limit), es)
    ensures var s := End(Unseen(limit), es); Exclusive(s) && s.done <= 1 && Explained(s)
  {
    RunKeeps(Unseen(limit), es);
  }

  lemma Extend(s: State, es: seq<Event>, e: Event)
    requires Follows(s, es) && Enabled(End(s, es), e)
    ensures Follows(s, es + [e]) && End(s, es + [e]) == Next(End(s, es), e)
  {
    assert (es + [e])[..|es|] == es;
  }

  /** A second delivery finds the event reserved by the first. */
  lemma SecondDelivery(limit: int) returns (es: seq<Event>)
    ensures Follows(Unseen(limit), es)
    ensures End(Unseen(limit), es) == State(2, limit, true, Some(1), map[1 := Working(1), 2 := Looking], 0, false)
  {
    var s, a, b := Unseen(limit), Reserve(1, 1), Reserve(2, 2);
    assert Follows(s, []) && End(s, []) == s;
    Extend(s, [], a);
    Extend(s, [] + [a], b);
    es := [] + [a] + [b];
  }

  lemma TakenOver(limit: int) returns (es: seq<Event>)
    ensures Follows(Unseen(limit), es)
    ensures End(Unseen(limit), es) ==
            State(STALE + 2, limit, true, None, map[1 := Working(1), 2 := Between], 0, false)
  {
    var s := Unseen(limit);
    es := SecondDelivery(limit);
    Extend(s, es, Look(2, 3));
    es := es + [Look(2, 3)];
    Extend(s, es, Remove(2, STALE + 2));
    es := es + [Remove(2, STALE + 2)];
  }

  /** The bound is the right one: with any longer a delivery may still work while another takes over. */
  lemma LimitIsExact(limit: int)
    ensures limit <= STALE <==>
            forall es :: Follows(Unseen(limit), es) ==> Exclusive(End(Unseen(limit), es))
  {
    if limit <= STALE {
      forall es | Follows(Unseen(limit), es) ensures Exclusive(End(Unseen(limit), es)) { ClaimSafety(limit, es); }
    } else {
      var es := TakenOver(limit);
      var s := End(Unseen(limit), es);
      assert Owns(s, 1) && Owns(s, 2);
    }
  }

  // ------------------------------------------------ what Stripe is told

  /**
   A delivery is told that the event is done, and it is not, exactly when it looks for the marker
   while the reservation has been given back, a taker is between its statements, or one died there.
   */
  lemma DoneAnswerIsExact(limit: int, es: seq<Event>, h: int, at: int)
    requires limit <= STALE && Follows(Unseen(limit), es) && Enabled(End(Unseen(limit), es), Look(h, at))
    ensures var s := End(Unseen(limit), es);
            At(Next(s, Look(h, at)), h) == Answered(true) && s.done == 0 <==> !s.reserved || Taking(s) || s.lost
  {
    RunKeeps(Unseen(limit), es);
  }

  /** The first delivery fails between the second one's two looks: the second is told "done", and nobody is. */
  lemma ToldDoneTooSoon(limit: int)
    requires limit >= 2
    ensures exists es :: Follows(Unseen(limit), es) &&
              var s := End(Unseen(limit), es);
              At(s, 2) == Answered(true) && s.done == 0 && !s.reserved && !s.lost && forall h :: !Owns(s, h)
  {
    var s := Unseen(limit);
    var es := SecondDelivery(limit);
    Extend(s, es, Release(1, 3));
    es := es + [Release(1, 3)];
    Extend(s, es, Look(2, 4));
    es := es + [Look(2, 4)];
    var t := End(s, es);
    assert t == State(4, limit, false, None, map[1 := Dead, 2 := Answered(true)], 0, false);
    assert forall h :: !Owns(t, h);
  }

  /** A taker that dies between its two statements loses the event. */
  lemma TakerDies(limit: int)
    ensures exists es :: Follows(Unseen(limit), es) && End(Unseen(limit), es).lost
  {
    var es := TakenOver(limit);
    Extend(Unseen(limit), es, Die(2, STALE + 3));
    assert Follows(Unseen(limit), es + [Die(2, STALE + 3)]);
  }

  /** Once lost, no later delivery ever works on it: it keeps looking done, and never is. */
  lemma {:induction false} LostForGood(s: State, es: seq<Event>)
    requires Inv(s) && s.lost && Follows(s, es)
    ensures var t := End(s, es);
            t.lost && t.done == 0 && t.reserved && t.marker.None? && forall h :: !Owns(t, h)
  {
    RunKeeps(s, es);
    if es == [] {
    } else {
      LostForGood(s, es[..|es| - 1]);
    }
    var t := End(s, es);
    assert forall h :: At(t, h).Between? ==> Taking(t);
  }

  ghost predicate Reaches(s: State, t: State) { exists es :: Follows(s, es) && End(s, es) == t }

  lemma Reach(s: State, t: State, e: Event, u: State)
    requires Reaches(s, t) && Enabled(t, e) && Next(t, e) == u
    ensures Reaches(s, u)
  {
    var es :| Follows(s, es) && End(s, es) == t;
    Extend(s, es, e);
  }

  /** Otherwise nothing is lost: once the stale age has passed, a new delivery gets to work on the event. */
  lemma TakenUpAgain(s: State, h: int, at: int)
    requires Inv(s) && s.done == 0 && !s.lost && (forall k :: !Owns(s, k))
    requires At(s, h).Arrived? && s.now < at && (s.marker.Some? ==> s.marker.value + STALE < at)
    ensures exists t :: Reaches(s, t) && At(t, h) == Working(t.now)
  {
    assert !Taking(s) by { if k :| At(s, k).Between? { assert Owns(s, k); } }
    assert Follows(s, []) && End(s, []) == s;
    var a := Next(s, Reserve(h, at));
    Reach(s, s, Reserve(h, at), a);
    if s.reserved {
      var b := Next(a, Look(h, at + 1));
      Reach(s, a, Look(h, at + 1), b);
      StaleTaken(s, b, h, at + 2);
    }
  }

  lemma StaleTaken(s: State, b: State, h: int, at: int)
    requires Reaches(s, b) && At(b, h).Found? && b.marker.Some? && b.marker.value + STALE < at && b.now < at
    ensures exists t :: Reaches(s, t) && At(t, h) == Working(t.now)
  {
    var c := Next(b, Remove(h, at));
    Reach(s, b, Remove(h, at), c);
    var d := Next(c, Take(h, at + 1));
    Reach(s, c, Take(h, at + 1), d);
  }

  /** A delivery that failed gives its claim back at once: the very next one works on the event. */
  lemma ReleasedIsRetaken(s: State, h: int, at: int, k: int, z: int)
    requires Inv(s) && Enabled(s, Release(h, at)) && At(s, k).Arrived? && at < z
    ensures Enabled(Next(s, Release(h, at)), Reserve(k, z))
    ensures var t := Next(Next(s, Release(h, at)), Reserve(k, z));
            At(t, k) == Working(z) && t.reserved && t.marker == Some(z) && t.done == s.done && At(t, h) == Dead
  {
  }

  /** One that succeeded leaves it done: every later delivery is told so, and nothing is worked on again. */
  lemma CompletedIsSkipped(s: State, h: int, at: int, k: int, y: int, z: int)
    requires Inv(s) && Enabled(s, Complete(h, at)) && At(s, k).Arrived? && at < y < z
    ensures var t := Next(s, Complete(h, at));
            && Enabled(t, Reserve(k, y)) && Enabled(Next(t, Reserve(k, y)), Look(k, z))
            && var u := Next(Next(t, Reserve(k, y)), Look(k, z));
               At(u, k) == Answered(true) && u.done == 1 && u.reserved && u.marker.None?
  {
    assert Owns(s, h);
    StepKeeps(s, Complete(h, at));
  }

  /** A marker is taken over once it is more than ten minutes old, and until then the taker is sent away. */
  lemma TakeoverIsExact(s: State, h: int, y: int, z: int)
    requires At(s, h).Found? && s.marker.Some? && s.now < y < z
    ensures var t := Next(s, Remove(h, y));
            if y - s.marker.value <= 600_000_000 then At(t, h) == Answered(false) && t.marker == s.marker
            else && At(t, h) == Between && Enabled(t, Take(h, z))
                 && At(Next(t, Take(h, z)), h) == Working(z) && Next(t, Take(h, z)).marker == Some(z)
  {
  }

  /** Should a marker be there after all when a taker writes its own, it is left, and the taker sent away. */
  lemma LateTakerIsRefused(s: State, h: int, at: int)
    requires Enabled(s, Take(h, at)) && s.marker.Some?
    ensures At(Next(s, Take(h, at)), h) == Answered(false) && Next(s, Take(h, at)).marker == s.marker
  {
  }
}
