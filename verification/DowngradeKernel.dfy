/**
 The states from which no run can go wrong, said in terms of what is in the
 state: reads on their way, requests Stripe may yet serve, the hold, and the
 change under way. Every step that keeps the conditions keeps it.
 */
module DowngradeKernel {
  import opened Common
  import opened PlanLimits
  import opened Downgrade

  /** A read that the row may still take. */
  predicate Alive(s: State, q: Read) { q in s.inFlight && s.now < q.stamp + APPLY && s.synced <= q.stamp }

  /** A read on its way shows the licence's terms, and with x billed none stamped later shows more. */
  ghost predicate Shown(s: State, x: Terms) {
    exists q :: Alive(s, q) && q.terms == s.licence && Clear(s, q, x)
  }

  ghost predicate Clear(s: State, q: Read, x: Terms) {
    forall r :: r in s.inFlight && q.stamp <= r.stamp && s.now < r.stamp + APPLY ==> Leq(s, r.terms, x)
  }

  /** With x billed, the hold can be ended before its time. */
  ghost predicate Ends(s: State, x: Terms) {
    x == s.licence || Shown(s, x) || s.phase.Seen? || s.phase.Marked?
  }

  ghost predicate PendingOk(s: State) { s.pending.Some? ==> Leq(s, s.billed, s.pending.value) }

  /** A read that may still land shows no more than is billed, or dies before the hold does. */
  ghost predicate ReadsOk(s: State) {
    forall r :: Alive(s, r) ==> Leq(s, r.terms, s.billed) || (s.held.Some? && r.stamp + APPLY <= s.held.value)
  }

  /** Every downgrade Stripe may yet make leaves room for the licence and for what is in use. */
  ghost predicate Guarded(s: State) {
    forall k: nat :: Open(s, k) ==> Leq(s, s.licence, To(s, k)) && Fits(s, s.used, To(s, k))
  }

  ghost predicate CalmFor(s: State, k: nat)
    requires k < |s.requests|
  {
    Calm(s, s.billed, s.served, k) && (s.pending.Some? ==> Leq(s, s.pending.value, To(s, k)))
  }

  ghost predicate CalmNow(s: State) { forall k: nat :: Open(s, k) ==> CalmFor(s, k) }

  /** Wherever the hold can end, and when there is none, Stripe can bill no more before it makes a downgrade. */
  ghost predicate HoldOk(s: State) {
    if Running(s) then
      && (Ends(s, s.billed) ==> CalmNow(s))
      && (s.pending.Some? && Ends(s, s.pending.value) ==> AllCalm(s, s.pending.value, s.served))
      && (forall i: nat :: Can(s, s.billed, s.served, i) && Ends(s, To(s, i)) ==> AllCalm(s, To(s, i), i + 1))
    else CalmNow(s)
  }

  /** The change under way can still put back what it lowered. */
  predicate Restores(s: State) {
    match s.phase
    case Asked(to, prev, id) => id in s.live && id < |s.requests| && s.requests[id].downgrade && prev != to
    case NotMade(to, prev, downgrade) => downgrade && prev != to
    case _ => false
  }

  /** The request of the change under way. */
  function Own(s: State): nat { if s.phase.Asked? then s.phase.id else |s.requests| }

  /** The licence has the lowered terms, or a read can give it them. */
  ghost predicate Back(s: State, to: Terms) {
    s.licence == to || s.billed == to || exists q :: Alive(s, q) && q.terms == to
  }

  /** What would be put back is no more than is billed, and nobody counts on its hold. */
  ghost predicate RestoreOk(s: State) {
    Restores(s) ==>
      && (Back(s, s.phase.to) ==> Leq(s, s.phase.prev, s.billed))
      && (s.pending == Some(s.phase.to) ==> Leq(s, s.phase.prev, s.phase.to))
      && (forall i: nat :: i != Own(s) && Can(s, s.billed, s.served, i) && To(s, i) == s.phase.to ==>
            Leq(s, s.phase.prev, s.phase.to))
      && (Running(s) ==> forall k: nat :: k != Own(s) && Open(s, k) ==> CalmFor(s, k))
  }

  ghost predicate MarkedOk(s: State) {
    s.phase.Marked? ==> forall r :: Alive(s, r) ==> Leq(s, r.terms, s.billed)
  }

  ghost predicate Secure(s: State) {
    Safe(s) && PendingOk(s) && ReadsOk(s) && Guarded(s) && HoldOk(s) && RestoreOk(s) && MarkedOk(s)
  }

  // --------------------------------------------------------- calmness

  /** t knows no request due that s does not, among those s knows. */
  ghost predicate Fewer(s: State, t: State) {
    && t.product == s.product && |s.requests| <= |t.requests| && t.requests[..|s.requests|] == s.requests
    && forall i: nat :: i < |s.requests| && Due(t, i) ==> Due(s, i)
  }

  lemma CanShrinks(s: State, t: State, x: Terms, j: nat, i: nat)
    requires Fewer(s, t) && i < |s.requests| && Can(t, x, j, i)
    ensures Can(s, x, j, i)
  {
    assert t.requests[i] == s.requests[i];
    if !t.requests[i].downgrade && !Leq(t, x, To(t, i)) {
      var d: nat :| j <= d < i && Open(t, d) && Leq(t, To(t, d), To(t, i));
      assert t.requests[d] == s.requests[d] && Open(s, d);
    }
  }

  lemma CalmShrinks(s: State, t: State, x: Terms, j: nat, k: nat)
    requires Fewer(s, t) && k < |s.requests| && Calm(s, x, j, k)
    ensures Calm(t, x, j, k)
  {
    assert t.requests[k] == s.requests[k];
    forall i: nat | i < k && Can(t, x, j, i) ensures Leq(t, To(t, i), To(t, k)) {
      CanShrinks(s, t, x, j, i);
      assert t.requests[i] == s.requests[i];
    }
  }

  /** From farther on there is no more to come. */
  lemma CanOnward(s: State, x: Terms, j: nat, i: nat, m: nat)
    requires Can(s, x, j, i) && Can(s, To(s, i), i + 1, m)
    ensures Can(s, x, j, m)
  {
    if !s.requests[m].downgrade {
      if Leq(s, To(s, i), To(s, m)) {
        if s.requests[i].downgrade {
          assert Open(s, i);
        } else if Leq(s, x, To(s, i)) {
          LeqTransitive(s, x, To(s, i));
        } else {
          var d: nat :| j <= d < i && Open(s, d) && Leq(s, To(s, d), To(s, i));
          LeqTransitive(s, To(s, d), To(s, i));
        }
      } else {
        var d: nat :| i + 1 <= d < m && Open(s, d) && Leq(s, To(s, d), To(s, m));
      }
    }
  }

  lemma CalmOnward(s: State, x: Terms, j: nat, i: nat, k: nat)
    requires Can(s, x, j, i) && i < k && Open(s, k) && Calm(s, x, j, k)
    ensures Calm(s, To(s, i), i + 1, k)
  {
    forall m: nat | m < k && Can(s, To(s, i), i + 1, m) ensures Leq(s, To(s, m), To(s, k)) {
      CanOnward(s, x, j, i, m);
    }
  }

  /** With more billed there is no more to come. */
  lemma CalmAbove(s: State, x: Terms, y: Terms, j: nat, n: nat, k: nat)
    requires k < |s.requests| && Calm(s, x, j, k) && Leq(s, x, y) && Leq(s, y, To(s, k)) && j <= n
    ensures Calm(s, y, n, k)
  {
    LeqTransitive(s, x, y);
    forall i: nat | i < k && Can(s, y, n, i) ensures Leq(s, To(s, i), To(s, k)) {
      assert Can(s, x, j, i);
    }
  }

  /** Where Stripe can go from calm, it bills no less. */
  lemma CanRaises(s: State, i: nat)
    requires CalmNow(s) && Can(s, s.billed, s.served, i)
    ensures Leq(s, s.billed, To(s, i))
  {
    if s.requests[i].downgrade {
      assert CalmFor(s, i);
    } else if !Leq(s, s.billed, To(s, i)) {
      var d: nat :| s.served <= d < i && Open(s, d) && Leq(s, To(s, d), To(s, i));
      assert CalmFor(s, d);
      LeqTransitive(s, s.billed, To(s, d));
    }
  }

  // -------------------------------------------- steps that bill nothing

  /** Nothing moved at Stripe but requests that ended, and the licence has the terms it had. */
  ghost predicate Still(s: State, t: State) {
    && t.requests == s.requests && t.served == s.served && t.live <= s.live && t.product == s.product
    && t.billed == s.billed && (t.pending == s.pending || t.pending.None?)
    && t.licence == s.licence && s.now <= t.now
  }

  lemma StillFewer(s: State, t: State)
    requires Still(s, t)
    ensures Fewer(s, t)
    ensures forall i: nat :: Can(t, t.billed, t.served, i) ==> Can(s, s.billed, s.served, i)
  {
    forall i: nat | Can(t, t.billed, t.served, i) ensures Can(s, s.billed, s.served, i) {
      CanShrinks(s, t, t.billed, t.served, i);
    }
  }

  lemma StillCalm(s: State, t: State, k: nat)
    requires Still(s, t) && k < |s.requests| && CalmFor(s, k)
    ensures CalmFor(t, k)
  {
    StillFewer(s, t);
    CalmShrinks(s, t, s.billed, s.served, k);
  }

  lemma AllCalmShrinks(s: State, t: State, x: Terms, j: nat)
    requires Fewer(s, t) && AllCalm(s, x, j) && |t.requests| == |s.requests|
    ensures AllCalm(t, x, j)
  {
    forall k: nat | Open(t, k) && j <= k ensures Calm(t, x, j, k) {
      assert t.requests[k] == s.requests[k] && Open(s, k);
      CalmShrinks(s, t, x, j, k);
    }
  }

  /** A hold that lapses leaves no downgrade to be made. */
  lemma LapsedIsDone(s: State, t: State)
    requires Clocked(s) && Still(s, t) && s.held.Some? && s.held.value <= t.now
    ensures forall k: nat :: !Open(t, k)
  {
  }

  lemma StillHolds(s: State, t: State)
    requires Clocked(s) && HoldOk(s) && Still(s, t)
    requires Running(t) ==> Running(s) && forall x :: Ends(t, x) ==> Ends(s, x)
    requires !Running(t) ==> CalmNow(s) || (s.held.Some? && s.held.value <= t.now)
    ensures HoldOk(t)
  {
    StillFewer(s, t);
    if !Running(t) {
      if CalmNow(s) {
        forall k: nat | Open(t, k) ensures CalmFor(t, k) { assert Open(s, k); StillCalm(s, t, k); }
      } else {
        LapsedIsDone(s, t);
      }
    } else {
      if Ends(t, t.billed) {
        assert Ends(s, s.billed);
        forall k: nat | Open(t, k) ensures CalmFor(t, k) { assert Open(s, k); StillCalm(s, t, k); }
      }
      if t.pending.Some? && Ends(t, t.pending.value) { AllCalmShrinks(s, t, t.pending.value, t.served); }
      forall i: nat | Can(t, t.billed, t.served, i) && Ends(t, To(t, i)) ensures AllCalm(t, To(t, i), i + 1) {
        assert Can(s, s.billed, s.served, i) && Ends(s, To(s, i));
        AllCalmShrinks(s, t, To(s, i), i + 1);
      }
    }
  }

  /** The same for what the change under way can put back. */
  lemma StillRestores(s: State, t: State)
    requires RestoreOk(s) && Still(s, t)
    requires Restores(t) ==>
      && Restores(s) && t.phase.to == s.phase.to && t.phase.prev == s.phase.prev
      && (Back(t, t.phase.to) ==> Back(s, s.phase.to))
      && (Own(t) == Own(s) || (Own(s) !in t.live && Own(t) == |t.requests|))
      && (Running(t) ==> Running(s))
    ensures RestoreOk(t)
  {
    StillFewer(s, t);
    if Restores(t) {
      forall i: nat | i != Own(t) && Can(t, t.billed, t.served, i) && To(t, i) == t.phase.to
        ensures Leq(t, t.phase.prev, t.phase.to)
      {
        assert i != Own(s) && Can(s, s.billed, s.served, i);
      }
      if Running(t) {
        forall k: nat | k != Own(t) && Open(t, k) ensures CalmFor(t, k) {
          assert k != Own(s) && Open(s, k);
          StillCalm(s, t, k);
        }
      }
    }
  }

  /** The reads and the row's stamp are as they were, or as good as. */
  lemma QuietEnds(s: State, t: State, x: Terms)
    requires Still(s, t) && t.inFlight == s.inFlight && s.synced <= t.synced && Ends(t, x)
    requires t.phase.Seen? || t.phase.Marked? ==> Ends(s, x)
    ensures Ends(s, x)
  {
    if Shown(t, x) {
      var q :| Alive(t, q) && q.terms == t.licence && Clear(t, q, x);
      assert Alive(s, q);
      forall r | r in s.inFlight && q.stamp <= r.stamp && s.now < r.stamp + APPLY ensures Leq(s, r.terms, x) {
        assert t.now < q.stamp + APPLY <= r.stamp + APPLY;
      }
      assert Clear(s, q, x);
    }
  }

  /** Where all is calm no hold is needed. */
  lemma CalmIsEnough(s: State)
    requires CalmNow(s) && PendingOk(s)
    ensures HoldOk(s)
  {
    if s.pending.Some? {
      forall k: nat | Open(s, k) && s.served <= k ensures Calm(s, s.pending.value, s.served, k) {
        assert CalmFor(s, k);
        CalmAbove(s, s.billed, s.pending.value, s.served, s.served, k);
      }
    }
    forall i: nat | Can(s, s.billed, s.served, i) ensures AllCalm(s, To(s, i), i + 1) {
      forall k: nat | Open(s, k) && i + 1 <= k ensures Calm(s, To(s, i), i + 1, k) {
        assert CalmFor(s, k);
        CalmOnward(s, s.billed, s.served, i, k);
      }
    }
  }

  lemma StillCalmNow(s: State, t: State)
    requires Still(s, t) && CalmNow(s) && PendingOk(s)
    ensures CalmNow(t) && HoldOk(t)
  {
    forall k: nat | Open(t, k) ensures CalmFor(t, k) { assert Open(s, k); StillCalm(s, t, k); }
    CalmIsEnough(t);
  }

  /** The change under way goes on, stops, or is told no. */
  ghost predicate SameRestore(s: State, t: State) {
    Restores(t) ==>
      && Restores(s) && t.phase.to == s.phase.to && t.phase.prev == s.phase.prev
      && (Own(t) == Own(s) || (Own(s) !in t.live && Own(t) == |t.requests|))
  }

  /** Steps that move nothing but the clock, the usage, the stamp upward, or the change under way. */
  lemma QuietKeeps(s: State, t: State)
    requires Formed(s) && Secure(s) && Still(s, t)
    requires t.inFlight == s.inFlight && s.synced <= t.synced && t.held == s.held
    requires Safe(t) && Guarded(t) && MarkedOk(t) && SameRestore(s, t)
    requires t.phase.Seen? || t.phase.Marked? ==> CalmNow(s)
    ensures Secure(t)
  {
    if CalmNow(s) {
      StillCalmNow(s, t);
    } else {
      forall x | Ends(t, x) ensures Ends(s, x) { QuietEnds(s, t, x); }
      StillHolds(s, t);
    }
    StillRestores(s, t);
  }

  lemma UseKeeps(s: State, e: Event)
    requires Formed(s) && Secure(s) && e.Use? && Enabled(s, e)
    ensures Secure(Next(s, e))
  {
    var t := Next(s, e);
    forall k: nat | Open(t, k) ensures Leq(t, t.licence, To(t, k)) && Fits(t, t.used, To(t, k)) {
      assert Open(s, k) && To(t, k) == To(s, k);
    }
    QuietKeeps(s, t);
  }

  lemma ReadStripeKeeps(s: State, e: Event)
    requires Formed(s) && Secure(s) && e.ReadStripe? && Enabled(s, e)
    ensures Secure(Next(s, e))
  {
    var t := Next(s, e);
    if CalmNow(s) {
      StillCalmNow(s, t);
    } else {
      if Running(t) { forall x | Ends(t, x) ensures Ends(s, x) { ReadStripeEnds(s, e, x); } }
      StillHolds(s, t);
    }
    StillRestores(s, t);
    assert forall k: nat :: Open(t, k) ==> Open(s, k);
  }

  /** A new answer shows the licence's terms only when they are billed. */
  lemma ReadStripeEnds(s: State, e: Event, x: Terms)
    requires Formed(s) && HoldOk(s) && !CalmNow(s) && e.ReadStripe? && Enabled(s, e)
    requires Running(Next(s, e)) && Ends(Next(s, e), x)
    ensures Ends(s, x)
  {
    var t := Next(s, e);
    if x != s.licence && Shown(t, x) {
      var q :| Alive(t, q) && q.terms == t.licence && Clear(t, q, x);
      assert !Ends(s, s.billed);
      assert q in s.inFlight && Alive(s, q);
      forall r | r in s.inFlight && q.stamp <= r.stamp && s.now < r.stamp + APPLY ensures Leq(s, r.terms, x) {
        assert t.now < q.stamp + APPLY <= r.stamp + APPLY;
      }
      assert Clear(s, q, x);
    }
  }

  /** A read the row refuses, or that waits behind a hold, moves nothing but the stamp. */
  lemma LateReadKeeps(s: State, e: Event)
    requires Formed(s) && Secure(s) && e.Apply? && Enabled(s, e)
    requires e.r.stamp < s.synced || HeldAt(s, e.at)
    requires !EndsHold(s, e)
    ensures Secure(Next(s, e))
  {
    var t := Next(s, e);
    assert t == s.(now := e.at, synced := t.synced);
    assert forall k: nat :: Open(t, k) ==> Open(s, k);
    QuietKeeps(s, t);
  }

  /** A read that lands with no hold, or ends one, finds all calm and shows no more than is billed. */
  lemma LandingIsCalm(s: State, e: Event)
    requires Formed(s) && Secure(s) && e.Apply? && Enabled(s, e) && Uncrossed(s, e)
    requires s.synced <= e.r.stamp && (HeldAt(s, e.at) ==> EndsHold(s, e))
    ensures Leq(s, e.r.terms, s.billed)
    ensures CalmNow(Next(s, e))
  {
    var t := Next(s, e);
    var u := s.(now := e.at);
    assert Alive(s, e.r);
    if HeldAt(s, e.at) {
      forall r | r in s.inFlight && e.r.stamp <= r.stamp && s.now < r.stamp + APPLY ensures Leq(s, r.terms, s.billed) {
        assert e.at < e.r.stamp + APPLY <= r.stamp + APPLY;
      }
      assert Clear(s, e.r, s.billed) && Shown(s, s.billed);
      StillCalmNow(s, u);
    } else if s.held.Some? {
      LapsedIsDone(s, u);
    } else {
      StillCalmNow(s, u);
    }
    forall k: nat | Open(t, k) ensures CalmFor(t, k) {
      assert Open(u, k);
      assert CalmFor(u, k);
      CalmShrinks(u, t, u.billed, u.served, k);
    }
  }

  lemma LandingKeeps(s: State, e: Event)
    requires Formed(s) && Secure(s) && e.Apply? && Enabled(s, e) && Uncrossed(s, e)
    requires s.synced <= e.r.stamp && (HeldAt(s, e.at) ==> EndsHold(s, e))
    ensures Secure(Next(s, e))
  {
    var t := Next(s, e);
    LandingIsCalm(s, e);
    CalmIsEnough(t);
    assert Guarded(t) by {
      forall k: nat | Open(t, k) ensures Leq(t, t.licence, To(t, k)) && Fits(t, t.used, To(t, k)) {
        assert CalmFor(t, k);
        LeqTransitive(t, t.billed, To(t, k));
      }
    }
    assert ReadsOk(t) && MarkedOk(t);
    if Restores(t) {
      assert Back(t, t.phase.to) ==> Back(s, s.phase.to);
      var u := s.(now := e.at);
      StillFewer(s, u);
      forall i: nat | i != Own(t) && Can(t, t.billed, t.served, i) && To(t, i) == t.phase.to
        ensures Leq(t, t.phase.prev, t.phase.to)
      {
        CanShrinks(s, t, t.billed, t.served, i);
      }
    }
  }

  lemma ApplyKeeps(s: State, e: Event)
    requires Formed(s) && Secure(s) && e.Apply? && Enabled(s, e) && Uncrossed(s, e)
    ensures Secure(Next(s, e))
  {
    if s.synced <= e.r.stamp && (HeldAt(s, e.at) ==> EndsHold(s, e)) {
      LandingKeeps(s, e);
    } else {
      LateReadKeeps(s, e);
    }
  }

  /** Steps of the change under way that leave the row alone, but for its stamp. */
  lemma PhaseKeeps(s: State, e: Event)
    requires Formed(s) && Secure(s) && Enabled(s, e)
    requires e.Begin? || e.Check? || e.Stop? || e.GiveUp? || e.Refuse? || e.Expire?
    ensures Secure(Next(s, e))
  {
    var t := Next(s, e);
    assert forall k: nat :: Open(t, k) ==> Open(s, k);
    QuietKeeps(s, t);
  }

  lemma LearnKeeps(s: State, e: Event)
    requires Formed(s) && Secure(s) && (e.Learn? || e.Mark? || e.MarkFails?) && Enabled(s, e) && Uncrossed(s, e)
    ensures Secure(Next(s, e))
  {
    var t := Next(s, e);
    assert forall k: nat :: Open(t, k) ==> Open(s, k);
    assert CalmNow(s) by { if Running(s) { assert Ends(s, s.billed); } }
    QuietKeeps(s, t);
  }

  /** Steps that end the hold. */
  lemma ReleaseKeeps(s: State, e: Event)
    requires Formed(s) && Secure(s) && (e.Release? || e.Settle?) && Enabled(s, e)
    ensures Secure(Next(s, e))
  {
    var t := Next(s, e);
    assert forall k: nat :: Open(t, k) ==> Open(s, k);
    if e.Settle? {
      LapsedIsDone(s, t);
    } else {
      assert CalmNow(s) by { if Running(s) { assert Ends(s, s.billed); } }
      StillCalmNow(s, t);
    }
  }

  lemma RestoreKeeps(s: State, e: Event)
    requires Formed(s) && Secure(s) && e.Restore? && Enabled(s, e)
    ensures Secure(Next(s, e))
  {
    var t := Next(s, e);
    assert forall k: nat :: Open(t, k) ==> Open(s, k);
    var p := s.phase;
    if p.downgrade && p.prev != p.to && s.licence == p.to {
      var u := s.(now := e.at, live := t.live);
      assert CalmNow(s) by {
        forall k: nat | Open(s, k) ensures CalmFor(s, k) { assert k != Own(s); }
      }
      StillCalmNow(s, u);
      forall k: nat | Open(t, k) ensures CalmFor(t, k) && Leq(t, t.licence, To(t, k)) && Fits(t, t.used, To(t, k)) {
        assert Open(u, k);
        CalmShrinks(u, t, u.billed, u.served, k);
        LeqTransitive(t, t.billed, To(t, k));
      }
      CalmIsEnough(t);
    } else {
      QuietKeeps(s, t);
    }
  }

  // ---------------------------------------------- steps that ask Stripe

  /** A new request is behind all others. */
  lemma AskFewer(s: State, e: Event)
    requires Formed(s) && e.Ask? && Enabled(s, e) && Next(s, e).phase.Asked?
    ensures var t := Next(s, e);
            && Fewer(s, t) && |t.requests| == |s.requests| + 1
            && (forall k: nat :: k < |s.requests| && Open(t, k) ==> Open(s, k) && To(t, k) == To(s, k))
            && (forall x, j: nat, i: nat :: i < |s.requests| && Can(t, x, j, i) ==> Can(s.(now := e.at), x, j, i))
  {
    var t, u := Next(s, e), s.(now := e.at);
    assert Fewer(u, t);
    forall x, j: nat, i: nat | i < |s.requests| && Can(t, x, j, i) ensures Can(u, x, j, i) {
      CanShrinks(u, t, x, j, i);
    }
  }

  /** Steps at Ask are asked of the state at that instant. */
  lemma TickKeeps(s: State, at: real)
    requires Formed(s) && Secure(s) && s.now < at
    ensures Formed(s.(now := at)) && Secure(s.(now := at))
  {
    UseKeeps(s, Use(s.used, at));
    StepForms(s, Use(s.used, at));
  }

  lemma AskUpgradeKeeps(s: State, e: Event)
    requires Formed(s) && Secure(s) && e.Ask? && Enabled(s, e) && !IsDowngrade(s, s.phase.from, s.phase.to)
    ensures Secure(Next(s, e))
  {
    var t, u, n := Next(s, e), s.(now := e.at), |s.requests|;
    TickKeeps(s, e.at);
    AskFewer(s, e);
    assert forall k: nat :: Open(t, k) ==> k < n && Open(u, k);
    assert forall x :: Ends(t, x) ==> Ends(u, x);
    forall k: nat | Open(t, k) && CalmFor(u, k) ensures CalmFor(t, k) { CalmShrinks(u, t, u.billed, u.served, k); }
    if Running(t) {
      if t.pending.Some? && Ends(t, t.pending.value) { AskCalm(u, t, t.pending.value, t.served); }
      forall i: nat | Can(t, t.billed, t.served, i) && Ends(t, To(t, i)) ensures AllCalm(t, To(t, i), i + 1) {
        if i < n { AskCalm(u, t, To(t, i), i + 1); }
      }
    }
  }

  lemma AskCalm(u: State, t: State, x: Terms, j: nat)
    requires Fewer(u, t) && AllCalm(u, x, j) && forall k: nat :: Open(t, k) ==> k < |u.requests| && Open(u, k)
    ensures AllCalm(t, x, j)
  {
    forall k: nat | Open(t, k) && j <= k ensures Calm(t, x, j, k) { CalmShrinks(u, t, x, j, k); }
  }

  /** Lowered, the licence is within every downgrade that Stripe may yet make. */
  lemma AskGuarded(s: State, e: Event)
    requires Formed(s) && Secure(s) && e.Ask? && Enabled(s, e) && IsDowngrade(s, s.phase.from, s.phase.to)
    requires Next(s, e).phase.Asked? && Leq(s, s.phase.to, s.billed) && Fits(s, s.used, s.phase.to)
    ensures Safe(Next(s, e)) && Guarded(Next(s, e))
  {
    var t, n := Next(s, e), |s.requests|;
    AskFewer(s, e);
    LeqTransitive(s, s.phase.to, s.billed);
    forall k: nat | Open(t, k) ensures Leq(t, t.licence, To(t, k)) && Fits(t, t.used, To(t, k)) {
      if k < n {
        assert Open(s, k);
        if !Running(s) { assert CalmFor(s, k); LeqTransitive(s, s.billed, To(s, k)); }
      }
    }
  }

  /** Where the terms a change lowers to can show, all is calm before it. */
  lemma ShowingIsCalm(u: State, to: Terms)
    requires Secure(u) && (Running(u) ==> u.licence == to)
    ensures u.billed == to ==> CalmNow(u)
    ensures u.pending == Some(to) ==> AllCalm(u, to, u.served)
    ensures forall i: nat :: Can(u, u.billed, u.served, i) && To(u, i) == to ==> AllCalm(u, to, i + 1)
  {
    if !Running(u) {
      assert CalmNow(u);
      if u.pending == Some(to) {
        forall k: nat | Open(u, k) && u.served <= k ensures Calm(u, to, u.served, k) {
          assert CalmFor(u, k);
          CalmAbove(u, u.billed, to, u.served, u.served, k);
        }
      }
      forall i: nat, k: nat | Can(u, u.billed, u.served, i) && Open(u, k) && i + 1 <= k
        ensures Calm(u, To(u, i), i + 1, k)
      {
        assert CalmFor(u, k);
        CalmOnward(u, u.billed, u.served, i, k);
      }
    }
  }

  /** The new request itself is calm wherever its terms can show. */
  lemma AskCalmAt(s: State, e: Event, j: nat, k: nat)
    requires Formed(s) && e.Ask? && Enabled(s, e) && IsDowngrade(s, s.phase.from, s.phase.to)
    requires Next(s, e).phase.Asked? && Open(Next(s, e), k) && j <= k
    requires AllCalm(s.(now := e.at), s.phase.to, j)
    requires NoMore(s.(now := e.at), s.phase.to, j)
    ensures Calm(Next(s, e), s.phase.to, j, k)
  {
    var t, u, n := Next(s, e), s.(now := e.at), |s.requests|;
    AskFewer(s, e);
    if k < n {
      assert Open(u, k);
      CalmShrinks(u, t, s.phase.to, j, k);
    } else {
      forall i: nat | i < k && Can(t, s.phase.to, j, i) ensures Leq(t, To(t, i), To(t, k)) {
        assert Can(u, s.phase.to, j, i) && To(t, i) == To(s, i);
      }
    }
  }

  lemma AskHolds(s: State, e: Event)
    requires Formed(s) && Secure(s) && e.Ask? && Enabled(s, e) && IsDowngrade(s, s.phase.from, s.phase.to)
    requires Next(s, e).phase.Asked? && ShowsCalmly(s.(now := e.at), s.phase.to)
    ensures HoldOk(Next(s, e))
  {
    var t, u, to := Next(s, e), s.(now := e.at), s.phase.to;
    TickKeeps(s, e.at);
    AskFewer(s, e);
    ShowingIsCalm(u, to);
    assert forall x :: Ends(t, x) ==> x == to;
    if t.billed == to {
      assert AllCalm(u, to, u.served) by { assert forall k: nat :: Open(u, k) ==> CalmFor(u, k); }
      forall k: nat | Open(t, k) ensures CalmFor(t, k) {
        AskCalmAt(s, e, t.served, k);
        if k < |s.requests| { assert Open(u, k) && CalmFor(u, k); }
      }
    }
    if t.pending == Some(to) {
      forall k: nat | Open(t, k) && t.served <= k ensures Calm(t, to, t.served, k) { AskCalmAt(s, e, t.served, k); }
    }
    forall i: nat, k: nat | Can(t, t.billed, t.served, i) && To(t, i) == to && Open(t, k) && i + 1 <= k
      ensures Calm(t, to, i + 1, k)
    {
      assert Can(u, u.billed, u.served, i) && To(u, i) == to;
      AskCalmAt(s, e, i + 1, k);
    }
  }

  lemma AskRestores(s: State, e: Event)
    requires Formed(s) && Secure(s) && e.Ask? && Enabled(s, e) && IsDowngrade(s, s.phase.from, s.phase.to)
    requires Next(s, e).phase.Asked?
    ensures RestoreOk(Next(s, e))
  {
    var t, u := Next(s, e), s.(now := e.at);
    TickKeeps(s, e.at);
    AskFewer(s, e);
    if Restores(t) {
      assert CalmNow(u);
      LeqTransitive(s, s.licence, s.billed);
      forall i: nat | i != Own(t) && Can(t, t.billed, t.served, i) ensures Leq(t, t.phase.prev, To(t, i)) {
        assert Can(u, u.billed, u.served, i) && To(t, i) == To(u, i);
        CanRaises(u, i);
      }
      forall k: nat | k != Own(t) && Open(t, k) ensures CalmFor(t, k) {
        assert Open(u, k) && CalmFor(u, k);
        CalmShrinks(u, t, u.billed, u.served, k);
      }
    }
  }

  /** A lowering to no more than is billed and no less than is in use. */
  lemma LoweredKeeps(s: State, e: Event)
    requires Formed(s) && Secure(s) && e.Ask? && Enabled(s, e) && IsDowngrade(s, s.phase.from, s.phase.to)
    requires Next(s, e).phase.Asked? && Leq(s, s.phase.to, s.billed) && Fits(s, s.used, s.phase.to)
    requires ShowsCalmly(s.(now := e.at), s.phase.to)
    ensures Secure(Next(s, e))
  {
    AskGuarded(s, e);
    AskHolds(s, e);
    AskRestores(s, e);
  }

  /** The count under the lock refuses the rest. */
  lemma CountedFits(s: State, e: Event)
    requires Safe(s) && e.Ask? && Enabled(s, e) && IsDowngrade(s, s.phase.from, s.phase.to)
    requires Next(s, e).phase.Asked? && CountCovers(s, s.phase.from, s.phase.to)
    ensures Fits(s, s.used, s.phase.to)
  {
    LowerCheckIsExact(s, s.phase.from, s.phase.to);
  }

  lemma AskDowngradeKeeps(s: State, e: Event)
    requires Formed(s) && Secure(s) && e.Ask? && Enabled(s, e) && IsDowngrade(s, s.phase.from, s.phase.to)
    requires Undisturbed(s, e) && Unraised(s, e)
    ensures Secure(Next(s, e))
  {
    var t := Next(s, e);
    if t.phase.Asked? {
      CountedFits(s, e);
      LoweredKeeps(s, e);
    } else {
      assert forall k: nat :: Open(t, k) ==> Open(s, k);
      QuietKeeps(s, t);
    }
  }

  // -------------------------------------------------- steps Stripe makes

  /** Stripe moves on: what it bills or holds for payment, and how far it has come, change; nothing else does. */
  ghost predicate Moves(s: State, t: State) {
    && t == s.(now := t.now, billed := t.billed, pending := t.pending, live := t.live, served := t.served)
    && s.now <= t.now && t.live <= s.live && s.served <= t.served
  }

  lemma MovesEnds(s: State, t: State, x: Terms)
    requires Moves(s, t) && Ends(t, x)
    ensures Ends(s, x)
  {
    var u := s.(now := t.now, live := t.live);
    if Shown(t, x) {
      var q :| Alive(t, q) && q.terms == t.licence && Clear(t, q, x);
      assert Alive(u, q) && Clear(u, q, x);
    }
    QuietEnds(s, u, x);
  }

  /** What Stripe can come to from t it could come to from s. */
  ghost predicate Onward(s: State, t: State) {
    && Moves(s, t)
    && (forall i: nat :: Can(t, t.billed, t.served, i) ==> Can(s, s.billed, s.served, i))
    && (forall k: nat :: Open(t, k) ==> Open(s, k))
  }

  lemma MovesFewer(s: State, t: State)
    requires Moves(s, t)
    ensures Fewer(s, t) && forall k: nat :: Open(t, k) ==> Open(s, k)
  {
  }

  /** A move keeps the hold's part if it keeps calm what was calm, and is calm where the hold can end. */
  lemma MoveHolds(s: State, t: State)
    requires Clocked(s) && HoldOk(s) && Onward(s, t) && PendingOk(t)
    requires CalmNow(s) ==> CalmNow(t)
    requires Running(t) && Ends(s, t.billed) ==> CalmNow(t)
    requires Running(t) && t.pending.Some? && Ends(s, t.pending.value) ==> AllCalm(s, t.pending.value, t.served)
    ensures HoldOk(t)
  {
    MovesFewer(s, t);
    if CalmNow(s) {
      CalmIsEnough(t);
    } else if Running(t) {
      if Ends(t, t.billed) { MovesEnds(s, t, t.billed); }
      if t.pending.Some? && Ends(t, t.pending.value) {
        MovesEnds(s, t, t.pending.value);
        AllCalmShrinks(s, t, t.pending.value, t.served);
      }
      forall i: nat | Can(t, t.billed, t.served, i) && Ends(t, To(t, i)) ensures AllCalm(t, To(t, i), i + 1) {
        MovesEnds(s, t, To(t, i));
        assert Can(s, s.billed, s.served, i);
        AllCalmShrinks(s, t, To(t, i), i + 1);
      }
    }
  }

  /** What the change under way puts back stays within what is billed, if Stripe bills no less than before. */
  lemma MoveRestores(s: State, t: State)
    requires RestoreOk(s) && Onward(s, t)
    requires Restores(t) ==>
      && Leq(s, s.billed, t.billed)
      && (t.billed == s.billed || (t.billed == s.phase.to ==> Leq(s, s.phase.prev, s.phase.to)))
      && (t.pending == Some(s.phase.to) ==> Leq(s, s.phase.prev, s.phase.to))
      && (forall k: nat :: k != Own(s) && Open(t, k) && CalmFor(s, k) ==> CalmFor(t, k))
    ensures RestoreOk(t)
  {
    if Restores(t) {
      LeqTransitive(s, s.billed, t.billed);
      if Back(t, t.phase.to) && t.billed != t.phase.to { assert Back(s, s.phase.to); }
      forall i: nat | i != Own(t) && Can(t, t.billed, t.served, i) && To(t, i) == t.phase.to
        ensures Leq(t, t.phase.prev, t.phase.to)
      {
        assert i != Own(s) && Can(s, s.billed, s.served, i);
      }
    }
  }

  lemma PayKeeps(s: State, e: Event)
    requires Formed(s) && Secure(s) && e.Pay? && Enabled(s, e)
    ensures Secure(Next(s, e))
  {
    var t := Next(s, e);
    LeqTransitive(s, s.billed, t.billed);
    MovesFewer(s, t);
    forall i: nat | Can(t, t.billed, t.served, i) ensures Can(s, s.billed, s.served, i) {
      CanShrinks(s, t, t.billed, t.served, i);
    }
    forall k: nat | Open(t, k) && CalmFor(s, k) ensures CalmFor(t, k) {
      CalmAbove(s, s.billed, t.billed, s.served, s.served, k);
      CalmShrinks(s, t, t.billed, s.served, k);
    }
    if Running(t) && Ends(s, t.billed) { AllCalmShrinks(s, t, t.billed, t.served); }
    MoveHolds(s, t);
    MoveRestores(s, t);
    assert Guarded(t);
  }

  /** A request served in its turn: what it leaves can be come to from before it. */
  lemma ServeFewer(s: State, e: Event)
    requires Formed(s) && e.Serve? && Enabled(s, e) && s.served <= e.id && Undisturbed(s, e)
    ensures Can(s, s.billed, s.served, e.id)
    ensures var t := Next(s, e);
            Onward(s, t) && Fewer(s, t) && t.served == e.id + 1 && forall k: nat :: Open(t, k) ==> e.id < k
  {
    var t := Next(s, e);
    MovesFewer(s, t);
    forall i: nat | Can(t, t.billed, t.served, i) ensures Can(s, s.billed, s.served, i) {
      CanShrinks(s, t, t.billed, t.served, i);
      if t.billed == To(s, e.id) { CanOnward(s, s.billed, s.served, e.id, i); }
    }
  }

  lemma ServeCalm(s: State, e: Event, k: nat)
    requires Formed(s) && e.Serve? && Enabled(s, e) && s.served <= e.id && Undisturbed(s, e)
    requires Open(Next(s, e), k) && CalmFor(s, k)
    ensures CalmFor(Next(s, e), k)
  {
    var t := Next(s, e);
    ServeFewer(s, e);
    if e.waits && !s.requests[e.id].downgrade {
      CalmAbove(s, s.billed, s.billed, s.served, t.served, k);
      CalmShrinks(s, t, s.billed, t.served, k);
    } else {
      CalmOnward(s, s.billed, s.served, e.id, k);
      CalmShrinks(s, t, To(s, e.id), e.id + 1, k);
    }
  }

  /** It bills no less than before, unless a hold covers a downgrade. */
  lemma ServeRaises(s: State, e: Event)
    requires Formed(s) && Secure(s) && e.Serve? && Enabled(s, e) && s.served <= e.id && Undisturbed(s, e)
    ensures CalmNow(s) || (Restores(s) && e.id != Own(s)) ==> Leq(s, s.billed, Next(s, e).billed)
    ensures !Leq(s, s.billed, Next(s, e).billed) ==> s.requests[e.id].downgrade && Running(s)
  {
    assert Due(s, e.id);
    if s.requests[e.id].downgrade {
      assert Open(s, e.id);
      if CalmNow(s) || (Restores(s) && e.id != Own(s)) { assert CalmFor(s, e.id); }
    }
  }

  lemma ServeHolds(s: State, e: Event)
    requires Formed(s) && Secure(s) && e.Serve? && Enabled(s, e) && s.served <= e.id && Undisturbed(s, e)
    ensures HoldOk(Next(s, e)) && RestoreOk(Next(s, e))
  {
    var t := Next(s, e);
    ServeFewer(s, e);
    ServeRaises(s, e);
    forall k: nat | Open(t, k) && CalmFor(s, k) ensures CalmFor(t, k) { ServeCalm(s, e, k); }
    if Running(t) && Ends(s, To(s, e.id)) { AllCalmShrinks(s, t, To(s, e.id), t.served); }
    MoveHolds(s, t);
    MoveRestores(s, t);
  }

  lemma ServeKeeps(s: State, e: Event)
    requires Formed(s) && Secure(s) && e.Serve? && Enabled(s, e) && Undisturbed(s, e) && InOrder(s, e)
    ensures Secure(Next(s, e))
  {
    var t := Next(s, e);
    MovesFewer(s, t);
    if e.id < s.served {
      QuietKeeps(s, t);
    } else {
      ServeHolds(s, e);
      ServeRaises(s, e);
      assert Due(s, e.id);
      assert s.requests[e.id].downgrade ==> Open(s, e.id);
      LeqTransitive(s, s.licence, s.billed);
      if Leq(s, s.billed, t.billed) { LeqTransitive(s, s.billed, t.billed); }
      assert Safe(t) && Guarded(t);
      assert t.phase.Marked? ==> CalmNow(s) by { if t.phase.Marked? && Running(s) { assert Ends(s, s.billed); } }
    }
  }

  // ------------------------------------------------------------- steps

  lemma StepKeeps(s: State, e: Event)
    requires Formed(s) && Secure(s) && Allowed(s, e, ALL)
    ensures Secure(Next(s, e))
  {
    match e {
      case Use(_, _) => UseKeeps(s, e);
      case ReadStripe(_, _) => ReadStripeKeeps(s, e);
      case Apply(_, _, _) => ApplyKeeps(s, e);
      case Ask(_) =>
        if IsDowngrade(s, s.phase.from, s.phase.to) { AskDowngradeKeeps(s, e); } else { AskUpgradeKeeps(s, e); }
      case Serve(_, _, _) => ServeKeeps(s, e);
      case Pay(_) => PayKeeps(s, e);
      case Restore(_) => RestoreKeeps(s, e);
      case Learn(_) => LearnKeeps(s, e);
      case Mark(_) => LearnKeeps(s, e);
      case MarkFails(_) => LearnKeeps(s, e);
      case Release(_) => ReleaseKeeps(s, e);
      case Settle(_) => ReleaseKeeps(s, e);
      case _ => PhaseKeeps(s, e);
    }
  }

  lemma {:induction false} RunKeeps(s: State, es: seq<Event>)
    requires Formed(s) && Secure(s) && Follows(s, es, ALL)
    ensures Formed(End(s, es, ALL)) && Secure(End(s, es, ALL))
  {
    if es == [] {
    } else {
      RunKeeps(s, es[..|es| - 1]);
      StepKeeps(End(s, es[..|es| - 1], ALL), es[|es| - 1]);
      StepForms(End(s, es[..|es| - 1], ALL), es[|es| - 1]);
    }
  }
}
