/**
 The other half: from every state outside the kernel some run that keeps all
 the conditions ends with more in use, or on offer, than Stripe bills. So the
 kernel says exactly when a step may be taken.
 */
module DowngradeExact {
  import opened Common
  import opened PlanLimits
  import opened Downgrade
  import opened DowngradeKernel
  import DowngradeSafety

  /** All runs that keep the conditions, from here on, are safe. */
  ghost predicate SafeOn(s: State) { forall es :: Follows(s, es, ALL) ==> Safe(End(s, es, ALL)) }

  /** Some run from here that keeps the conditions goes wrong. */
  ghost predicate Doomed(s: State) { exists t :: Reaches(s, t, ALL) && !Safe(t) }

  lemma DoomedNow(s: State)
    requires !Safe(s)
    ensures Doomed(s)
  {
    assert Follows(s, [], ALL) && End(s, [], ALL) == s;
    assert Reaches(s, s, ALL);
  }

  lemma {:induction false} Prepend(s: State, e: Event, es: seq<Event>)
    requires Allowed(s, e, ALL) && Follows(Next(s, e), es, ALL)
    ensures Follows(s, [e] + es, ALL) && End(s, [e] + es, ALL) == End(Next(s, e), es, ALL)
  {
    if es == [] {
      assert [e] + es == [e] && [e][..0] == [];
      assert Follows(s, [], ALL) && End(s, [], ALL) == s;
    } else {
      var init := es[..|es| - 1];
      Prepend(s, e, init);
      assert ([e] + es)[..|es|] == [e] + init;
    }
  }

  lemma DoomedStep(s: State, e: Event)
    requires Allowed(s, e, ALL) && Doomed(Next(s, e))
    ensures Doomed(s)
  {
    var t :| Reaches(Next(s, e), t, ALL) && !Safe(t);
    var es :| Follows(Next(s, e), es, ALL) && End(Next(s, e), es, ALL) == t;
    Prepend(s, e, es);
    assert Reaches(s, t, ALL);
  }

  function Between(a: real, b: real): real { (a + b) / 2.0 }

  function Least(a: real, b: real): real { if a < b then a else b }

  // ------------------------------------------------------- single moves

  /** A read made and taken up while nothing is held. */
  function TakenUp(s: State, y: real, z: real): State {
    s.(inFlight := s.inFlight + {Read(y, s.billed)}, licence := s.billed, synced := y, held := None, now := z)
  }

  lemma TakeUp(s: State, y: real, z: real)
    requires Formed(s) && s.now < y < z < y + APPLY && !HeldAt(s, z) && Doomed(TakenUp(s, y, z))
    ensures Doomed(s)
  {
    var t := Next(s, ReadStripe(y, y));
    var e := Apply(Read(y, s.billed), false, z);
    assert t == s.(inFlight := s.inFlight + {Read(y, s.billed)}, now := y);
    assert Next(t, e) == TakenUp(s, y, z);
    DoomedStep(t, e);
    DoomedStep(s, ReadStripe(y, y));
  }

  /** Unheld, with more billed than an open downgrade asks for. */
  lemma Exposed(s: State, k: nat)
    requires Formed(s) && !Running(s) && Open(s, k) && !Leq(s, s.billed, To(s, k))
    ensures Doomed(s)
  {
    var d := s.requests[k].deadline;
    var y, z := s.now + (d - s.now) / 3.0, s.now + 2.0 * (d - s.now) / 3.0;
    var t, e := TakenUp(s, y, z), Serve(k, false, d);
    assert Allowed(t, e, ALL);
    assert Next(t, e).billed == To(s, k) && Next(t, e).licence == s.billed;
    DoomedNow(Next(t, e));
    DoomedStep(t, e);
    TakeUp(s, y, z);
  }

  /** Stripe comes to bill what i asks for, before m. */
  lemma Come(s: State, i: nat, m: real) returns (t: State)
    requires Formed(s) && Can(s, s.billed, s.served, i) && s.now < m
    ensures Formed(t) && Moves(s, t) && t.now < m
    ensures t.billed == To(s, i) && t.pending.None? && t.served == i + 1
    ensures forall j: nat :: j > i && j in s.live ==> j in t.live
    ensures Doomed(t) ==> Doomed(s)
  {
    if s.requests[i].downgrade || Leq(s, s.billed, To(s, i)) {
      t := ComeNext(s, i, m);
    } else {
      var d: nat :| s.served <= d < i && Open(s, d) && Leq(s, To(s, d), To(s, i));
      var u := ComeNext(s, d, Least(m, s.requests[i].deadline));
      t := ComeNext(u, i, m);
    }
  }

  lemma ComeNext(s: State, i: nat, m: real) returns (t: State)
    requires Formed(s) && Due(s, i) && s.now < m && (s.requests[i].downgrade || Leq(s, s.billed, To(s, i)))
    ensures Formed(t) && Moves(s, t) && t.now < m
    ensures t.billed == To(s, i) && t.pending.None? && t.served == i + 1
    ensures forall j: nat :: j > i && j in s.live ==> j in t.live
    ensures Doomed(t) ==> Doomed(s)
  {
    var e := Serve(i, false, Between(s.now, Least(m, s.requests[i].deadline)));
    t := Next(s, e);
    StepForms(s, e);
    if Doomed(t) { DoomedStep(s, e); }
  }

  /** Until when k stays as it is: open, and more to come before it. */
  lemma Horizon(s: State, x: Terms, j: nat, k: nat) returns (m: real)
    requires Open(s, k) && !Calm(s, x, j, k) && j <= k
    ensures s.now < m <= s.requests[k].deadline
    ensures forall t: State :: Later(s, t, j, k) && t.now < m ==> Open(t, k) && !Calm(t, x, j, k)
  {
    m := s.requests[k].deadline;
    if Leq(s, x, To(s, k)) {
      var i: nat :| i < k && Can(s, x, j, i) && !Leq(s, To(s, i), To(s, k));
      m := Least(m, s.requests[i].deadline);
      if s.requests[i].downgrade || Leq(s, x, To(s, i)) {
        forall t: State | Later(s, t, j, k) && t.now < m ensures Open(t, k) && !Calm(t, x, j, k) {
          assert Can(t, x, j, i);
        }
      } else {
        var d: nat :| j <= d < i && Open(s, d) && Leq(s, To(s, d), To(s, i));
        m := Least(m, s.requests[d].deadline);
        forall t: State | Later(s, t, j, k) && t.now < m ensures Open(t, k) && !Calm(t, x, j, k) {
          assert Open(t, d) && Can(t, x, j, i);
        }
      }
    }
  }

  /** The requests from j up to k are as they were. */
  ghost predicate Later(s: State, t: State, j: nat, k: nat) {
    && t.requests == s.requests && t.product == s.product && t.served <= j
    && forall i: nat :: j <= i <= k && i in s.live ==> i in t.live
  }

  /** Unheld, with an open downgrade before which more can come to be billed. */
  lemma ExposedLater(s: State, k: nat)
    requires Formed(s) && !Running(s) && Open(s, k) && !CalmFor(s, k)
    ensures Doomed(s)
  {
    var d := s.requests[k].deadline;
    if !Leq(s, s.billed, To(s, k)) {
      Exposed(s, k);
    } else if s.pending.Some? && !Leq(s, s.pending.value, To(s, k)) {
      var e := Pay(Between(s.now, d));
      StepForms(s, e);
      Exposed(Next(s, e), k);
      DoomedStep(s, e);
    } else {
      var i: nat :| i < k && Can(s, s.billed, s.served, i) && !Leq(s, To(s, i), To(s, k));
      var t := Come(s, i, d);
      assert Open(t, k);
      Exposed(t, k);
    }
  }

  // ---------------------------------------------------- a hold ended early

  /** A read that shows the held terms ends the hold. */
  lemma EndOnRead(s: State, q: Read, at: real)
    requires Formed(s) && Alive(s, q) && q.terms == s.licence && Clear(s, q, s.billed)
    requires s.now < at < q.stamp + APPLY && HeldAt(s, at)
    requires Doomed(s.(synced := q.stamp, held := None, now := at))
    ensures Doomed(s)
  {
    var e := Apply(q, false, at);
    assert Allowed(s, e, ALL);
    assert Next(s, e) == s.(synced := q.stamp, held := None, now := at);
    DoomedStep(s, e);
  }

  /** A change seen to be made ends its own hold. */
  lemma EndOnRelease(s: State, m: real) returns (t: State)
    requires Formed(s) && (s.phase.Seen? || s.phase.Marked?) && s.now < m
    ensures Formed(t) && t.held.None? && Still(s, t) && t.live == s.live && t.pending == s.pending && t.now < m
    ensures Doomed(t) ==> Doomed(s)
  {
    var a, b := Between(s.now, m), Between(Between(s.now, m), m);
    var u := s;
    if s.phase.Seen? {
      u := Next(s, Mark(a));
      StepForms(s, Mark(a));
    }
    t := Next(u, Release(b));
    StepForms(u, Release(b));
    if Doomed(t) {
      DoomedStep(u, Release(b));
      if s.phase.Seen? { DoomedStep(s, Mark(a)); }
    }
  }

  lemma EndOnShown(s: State, m: real) returns (t: State)
    requires Formed(s) && Running(s) && Shown(s, s.billed) && s.now < m
    ensures Formed(t) && t.held.None? && Still(s, t) && t.live == s.live && t.pending == s.pending && t.now < m
    ensures Doomed(t) ==> Doomed(s)
  {
    var q :| Alive(s, q) && q.terms == s.licence && Clear(s, q, s.billed);
    var at := Between(s.now, Least(Least(m, s.held.value), q.stamp + APPLY));
    t := s.(synced := q.stamp, held := None, now := at);
    assert t == Next(s, Apply(q, false, at));
    StepForms(s, Apply(q, false, at));
    if Doomed(t) { EndOnRead(s, q, at); }
  }

  /** Where it can end, a hold can end before m, with all else at Stripe as it was. */
  lemma EndHold(s: State, m: real) returns (t: State)
    requires Formed(s) && Running(s) && Ends(s, s.billed) && s.now < m
    ensures Formed(t) && t.held.None? && Still(s, t) && t.live == s.live && t.pending == s.pending && t.now < m
    ensures Doomed(t) ==> Doomed(s)
  {
    if s.phase.Seen? || s.phase.Marked? {
      t := EndOnRelease(s, m);
    } else if s.billed == s.licence {
      var n := Least(Least(m, s.held.value), s.now + APPLY);
      t := EndOnNewRead(s, Between(s.now, n), Between(Between(s.now, n), n));
    } else {
      t := EndOnShown(s, m);
    }
  }

  lemma EndOnNewRead(s: State, y: real, z: real) returns (t: State)
    requires Formed(s) && s.billed == s.licence && s.now < y < z < y + APPLY && HeldAt(s, z)
    ensures Formed(t) && t == s.(inFlight := s.inFlight + {Read(y, s.billed)}, synced := y, held := None, now := z)
    ensures Doomed(t) ==> Doomed(s)
  {
    var q, u := Read(y, s.billed), Next(s, ReadStripe(y, y));
    StepForms(s, ReadStripe(y, y));
    assert Alive(u, q) && Clear(u, q, u.billed);
    t := u.(synced := y, held := None, now := z);
    assert t == Next(u, Apply(q, false, z));
    StepForms(u, Apply(q, false, z));
    if Doomed(t) { EndOnRead(u, q, z); DoomedStep(s, ReadStripe(y, y)); }
  }

  /** The hold can end while an open downgrade still counts on it. */
  lemma HoldEnds(s: State, k: nat)
    requires Formed(s) && Running(s) && Ends(s, s.billed) && Open(s, k) && !CalmFor(s, k)
    ensures Doomed(s)
  {
    var m := s.requests[k].deadline;
    if !Calm(s, s.billed, s.served, k) { m := Horizon(s, s.billed, s.served, k); }
    var t := EndHold(s, m);
    assert Later(s, t, s.served, k);
    ExposedLater(t, k);
  }

  /** Until when the hold stays one that can end. */
  lemma EndsHorizon(s: State, x: Terms) returns (m: real)
    requires Ends(s, x)
    ensures s.now < m
    ensures forall t: State :: SameRow(s, t) && s.now <= t.now < m ==> Ends(t, x)
  {
    m := s.now + 1.0;
    if Shown(s, x) {
      var q :| Alive(s, q) && q.terms == s.licence && Clear(s, q, x);
      m := q.stamp + APPLY;
      forall t: State | SameRow(s, t) && s.now <= t.now < m ensures Ends(t, x) {
        assert Alive(t, q) && Clear(t, q, x);
      }
    }
  }

  ghost predicate SameRow(s: State, t: State) {
    && t.licence == s.licence && t.synced == s.synced && t.inFlight == s.inFlight && t.phase == s.phase
    && t.product == s.product
  }

  lemma HoldEndsAfterPay(s: State, k: nat)
    requires Formed(s) && Running(s) && s.pending.Some? && Ends(s, s.pending.value)
    requires Open(s, k) && !Calm(s, s.pending.value, s.served, k)
    ensures Doomed(s)
  {
    var m := Horizon(s, s.pending.value, s.served, k);
    var n := EndsHorizon(s, s.pending.value);
    var e := Pay(Between(s.now, Least(s.held.value, Least(m, n))));
    var t := Next(s, e);
    StepForms(s, e);
    assert Later(s, t, s.served, k) && SameRow(s, t);
    HoldEnds(t, k);
    DoomedStep(s, e);
  }

  lemma HoldEndsAfter(s: State, i: nat, k: nat)
    requires Formed(s) && Running(s) && Can(s, s.billed, s.served, i) && Ends(s, To(s, i))
    requires Open(s, k) && i < k && !Calm(s, To(s, i), i + 1, k)
    ensures Doomed(s)
  {
    var m := Horizon(s, To(s, i), i + 1, k);
    var n := EndsHorizon(s, To(s, i));
    var t := Come(s, i, Least(s.held.value, Least(m, n)));
    assert Later(s, t, i + 1, k) && SameRow(s, t);
    HoldEnds(t, k);
  }

  lemma UnheldDooms(s: State)
    requires Formed(s) && !HoldOk(s)
    ensures Doomed(s)
  {
    if !Running(s) || (Ends(s, s.billed) && !CalmNow(s)) {
      var k: nat :| Open(s, k) && !CalmFor(s, k);
      if Running(s) { HoldEnds(s, k); } else { ExposedLater(s, k); }
    } else if s.pending.Some? && Ends(s, s.pending.value) && !AllCalm(s, s.pending.value, s.served) {
      var k: nat :| Open(s, k) && s.served <= k && !Calm(s, s.pending.value, s.served, k);
      HoldEndsAfterPay(s, k);
    } else {
      var i: nat :| Can(s, s.billed, s.served, i) && Ends(s, To(s, i)) && !AllCalm(s, To(s, i), i + 1);
      var k: nat :| Open(s, k) && i + 1 <= k && !Calm(s, To(s, i), i + 1, k);
      HoldEndsAfter(s, i, k);
    }
  }

  // ------------------------------------------------- terms put back

  /** The change under way is told no and puts back what it lowered, before m. */
  lemma PutBack(s: State, m: real) returns (t: State)
    requires Formed(s) && Restores(s) && s.licence == s.phase.to && s.now < m
    ensures Formed(t) && t.now < m && s.now < t.now
    ensures t == s.(live := s.live - {Own(s)}, licence := s.phase.prev, synced := t.now, held := None, phase := Free,
                    now := t.now)
    ensures Doomed(t) ==> Doomed(s)
  {
    var a, b := Between(s.now, m), Between(Between(s.now, m), m);
    if s.phase.Asked? {
      var u := Next(s, Refuse(a));
      StepForms(s, Refuse(a));
      t := Next(u, Restore(b));
      StepForms(u, Restore(b));
      if Doomed(t) { DoomedStep(u, Restore(b)); DoomedStep(s, Refuse(a)); }
    } else {
      t := Next(s, Restore(b));
      StepForms(s, Restore(b));
      assert s.live - {Own(s)} == s.live;
      if Doomed(t) { DoomedStep(s, Restore(b)); }
    }
  }

  lemma PutBackDooms(s: State)
    requires Formed(s) && Restores(s) && Back(s, s.phase.to) && !Leq(s, s.phase.prev, s.billed)
    ensures Doomed(s)
  {
    if s.licence == s.phase.to {
      var t := PutBack(s, s.now + 1.0);
      DoomedNow(t);
    } else if s.billed == s.phase.to {
      var t := TakenUp(s, s.now + 1.0, s.now + 2.0);
      TakenUpForms(s, s.now + 1.0, s.now + 2.0);
      var u := PutBack(t, t.now + 1.0);
      DoomedNow(u);
      TakeUp(s, s.now + 1.0, s.now + 2.0);
    } else {
      var q :| Alive(s, q) && q.terms == s.phase.to;
      var e := Apply(q, false, Between(s.now, q.stamp + APPLY));
      StepForms(s, e);
      var u := PutBack(Next(s, e), e.at + 1.0);
      DoomedNow(u);
      DoomedStep(s, e);
    }
  }

  lemma TakenUpForms(s: State, y: real, z: real)
    requires Formed(s) && s.now < y < z < y + APPLY && !HeldAt(s, z)
    ensures Formed(TakenUp(s, y, z))
  {
    var t := Next(s, ReadStripe(y, y));
    StepForms(s, ReadStripe(y, y));
    StepForms(t, Apply(Read(y, s.billed), false, z));
    assert Next(t, Apply(Read(y, s.billed), false, z)) == TakenUp(s, y, z);
  }

  lemma RestoreDooms(s: State)
    requires Formed(s) && !RestoreOk(s)
    ensures Doomed(s)
  {
    var to, prev := s.phase.to, s.phase.prev;
    if Back(s, to) && !Leq(s, prev, s.billed) {
      PutBackDooms(s);
    } else if s.pending == Some(to) && !Leq(s, prev, to) {
      var e := Pay(s.now + 1.0);
      StepForms(s, e);
      PutBackDooms(Next(s, e));
      DoomedStep(s, e);
    } else if i: nat :| i != Own(s) && Can(s, s.billed, s.served, i) && To(s, i) == to && !Leq(s, prev, to) {
      var t := Come(s, i, s.now + 1.0);
      PutBackDooms(t);
    } else {
      var k: nat :| k != Own(s) && Open(s, k) && !CalmFor(s, k);
      var m := s.requests[k].deadline;
      if !Calm(s, s.billed, s.served, k) { m := Horizon(s, s.billed, s.served, k); }
      var t := PutBack(s, m);
      assert Later(s, t, s.served, k);
      ExposedLater(t, k);
    }
  }

  // ------------------------------------------------------- what is left

  lemma ReadDooms(s: State, r: Read)
    requires Formed(s) && Alive(s, r) && !Leq(s, r.terms, s.billed)
    requires s.held.Some? ==> s.held.value < r.stamp + APPLY
    ensures Doomed(s)
  {
    var e := Apply(r, false, if Running(s) then s.held.value else Between(s.now, r.stamp + APPLY));
    DoomedNow(Next(s, e));
    DoomedStep(s, e);
  }

  lemma MarkedDooms(s: State)
    requires Formed(s) && !MarkedOk(s)
    ensures Doomed(s)
  {
    var r :| Alive(s, r) && !Leq(s, r.terms, s.billed);
    var e := Release(Between(s.now, r.stamp + APPLY));
    StepForms(s, e);
    assert Alive(Next(s, e), r);
    ReadDooms(Next(s, e), r);
    DoomedStep(s, e);
  }

  lemma PendingDooms(s: State)
    requires Formed(s) && !PendingOk(s)
    ensures Doomed(s)
  {
    var y := 1.0 + if s.held.Some? && s.held.value > s.now then s.held.value else s.now;
    var t := TakenUp(s, y, y + 1.0);
    var e := Pay(y + 2.0);
    DoomedNow(Next(t, e));
    DoomedStep(t, e);
    TakeUp(s, y, y + 1.0);
  }

  lemma UnguardedDooms(s: State)
    requires Formed(s) && !Guarded(s)
    ensures Doomed(s)
  {
    var k: nat :| Open(s, k) && !(Leq(s, s.licence, To(s, k)) && Fits(s, s.used, To(s, k)));
    var e := Serve(k, false, s.requests[k].deadline);
    DoomedNow(Next(s, e));
    DoomedStep(s, e);
  }

  /** The kernel is exact: every run from a state that keeps the conditions is safe if, and only if, it is in it. */
  lemma SecureIsExact(s: State)
    requires Formed(s)
    ensures Secure(s) <==> SafeOn(s)
  {
    if Secure(s) {
      forall es | Follows(s, es, ALL) ensures Safe(End(s, es, ALL)) { RunKeeps(s, es); }
    } else {
      InsecureDooms(s);
      var t :| Reaches(s, t, ALL) && !Safe(t);
      var es :| Follows(s, es, ALL) && End(s, es, ALL) == t;
      assert !Safe(End(s, es, ALL));
    }
  }

  lemma InsecureDooms(s: State)
    requires Formed(s) && !Secure(s)
    ensures Doomed(s)
  {
    if !Safe(s) {
      DoomedNow(s);
    } else if !PendingOk(s) {
      PendingDooms(s);
    } else if !ReadsOk(s) {
      var r :| Alive(s, r) && !Leq(s, r.terms, s.billed) && (s.held.Some? ==> s.held.value < r.stamp + APPLY);
      ReadDooms(s, r);
    } else if !Guarded(s) {
      UnguardedDooms(s);
    } else if !HoldOk(s) {
      UnheldDooms(s);
    } else if !RestoreOk(s) {
      RestoreDooms(s);
    } else {
      MarkedDooms(s);
    }
  }

  // ------------------------------------------------- when to take a step

  /** A read may end a hold exactly when no read stamped later is on its way with more than is billed. */
  lemma HoldEndIsExact(s: State, e: Event)
    requires Formed(s) && Secure(s) && Enabled(s, e) && EndsHold(s, e)
    ensures Uncrossed(s, e) <==> SafeOn(Next(s, e))
  {
    var t := Next(s, e);
    StepForms(s, e);
    SecureIsExact(t);
    if Uncrossed(s, e) {
      StepKeeps(s, e);
    } else {
      var q :| q in s.inFlight && e.r.stamp <= q.stamp && e.at < q.stamp + APPLY && !Leq(s, q.terms, s.billed);
      assert Alive(t, q);
    }
  }

  /** A hold about to end may go without its stamp exactly when no read still to come shows more than is billed. */
  lemma UnmarkedIsExact(s: State, e: Event)
    requires Formed(s) && Secure(s) && Enabled(s, e) && e.MarkFails?
    ensures Uncrossed(s, e) <==> SafeOn(Next(s, e))
  {
    var t := Next(s, e);
    StepForms(s, e);
    SecureIsExact(t);
    if Uncrossed(s, e) {
      StepKeeps(s, e);
    } else {
      var q :| q in s.inFlight && s.synced <= q.stamp && e.at < q.stamp + APPLY && !Leq(s, q.terms, s.billed);
      assert Alive(t, q);
    }
  }

  /**
   A downgrade may be lowered exactly when what it lowers to is no more than is billed and no less
   than is in use, and its showing could not end the hold with an upgrade still due.
   */
  lemma LoweringIsExact(s: State, e: Event)
    requires Formed(s) && Secure(s) && e.Ask? && Enabled(s, e) && IsDowngrade(s, s.phase.from, s.phase.to)
    requires Next(s, e).phase.Asked?
    ensures SafeOn(Next(s, e)) <==>
            && Leq(s, s.phase.to, s.billed) && Fits(s, s.used, s.phase.to)
            && ShowsCalmly(s.(now := e.at), s.phase.to)
  {
    var t, to, n := Next(s, e), s.phase.to, |s.requests|;
    StepForms(s, e);
    SecureIsExact(t);
    if Leq(s, to, s.billed) && Fits(s, s.used, to) && ShowsCalmly(s.(now := e.at), to) {
      LoweredKeeps(s, e);
    } else if Secure(t) {
      assert Open(t, n) && To(t, n) == to;
      LoweredCalmly(s, e);
    }
  }

  /** In the runs of a licence from its start the last part holds of itself. */
  lemma LoweringInRunsIsExact(s: State, e: Event)
    requires DowngradeSafety.Inv(s) && e.Ask? && Enabled(s, e) && IsDowngrade(s, s.phase.from, s.phase.to)
    requires Next(s, e).phase.Asked?
    ensures SafeOn(Next(s, e)) <==> Leq(s, s.phase.to, s.billed) && Fits(s, s.used, s.phase.to)
  {
    LoweringIsExact(s, e);
    if Leq(s, s.phase.to, s.billed) {
      DowngradeSafety.TickTidies(s, e.at);
      DowngradeSafety.ShowsTidily(s.(now := e.at), s.phase.from, s.phase.to);
    }
  }

  /**
   Whatever is in use within what is billed when the count is taken: every lowering it lets through
   is safe from there on exactly when the terms are no more than is billed, every limit lowered
   against what is billed was found to be lowered, and their showing could not end the hold too soon.
   */
  lemma CountIsExact(s: State, e: Event)
    requires Formed(s) && Secure(s) && e.Ask? && Enabled(s, e) && IsDowngrade(s, s.phase.from, s.phase.to)
    ensures (forall u :: Fits(s, u, s.billed) && Next(s.(used := u), e).phase.Asked? ==> SafeOn(Next(s.(used := u), e)))
            <==> && Leq(s, s.phase.to, s.billed) && CountCovers(s, s.phase.from, s.phase.to)
                 && ShowsCalmly(s.(now := e.at), s.phase.to)
  {
    var z := s.(used := Usage(0, 0));
    assert Formed(z) && Secure(z) by { UnusedIsSecure(s); }
    LoweringIsExact(z, e);
    CalmlyUnused(s, e.at, s.phase.to);
    LowerCheckIsExact(s, s.phase.from, s.phase.to);
    forall u | Fits(s, u, s.billed) && Next(s.(used := u), e).phase.Asked?
      ensures SafeOn(Next(s.(used := u), e)) <==> SafeOn(Next(z, e)) && Fits(s, u, s.phase.to)
    {
      UsageIsExact(s, e, u);
    }
    if !CountCovers(s, s.phase.from, s.phase.to) {
      var u :| Fits(s, u, s.billed) && Passes(s, s.phase.from, s.phase.to, u) && !Fits(s, u, s.phase.to);
      assert Next(s.(used := u), e).phase.Asked?;
    }
    assert Fits(s, Usage(0, 0), s.billed) && Next(z, e).phase.Asked?;
  }

  lemma UnusedIsSecure(s: State)
    requires Formed(s) && Secure(s)
    ensures Formed(s.(used := Usage(0, 0))) && Secure(s.(used := Usage(0, 0)))
  {
    var z := s.(used := Usage(0, 0));
    assert Still(s, z) && Still(z, s);
    assert forall k: nat :: Open(z, k) ==> Open(s, k);
    QuietKeeps(s, z);
  }

  lemma CalmlyUnused(s: State, at: real, to: Terms)
    ensures var z := s.(used := Usage(0, 0)); ShowsCalmly(s.(now := at), to) <==> ShowsCalmly(z.(now := at), to)
  {
    var a, b := s.(now := at), s.(used := Usage(0, 0), now := at);
    assert forall i: nat :: Due(a, i) <==> Due(b, i);
    assert Fewer(a, b) && Fewer(b, a);
    forall x, j: nat, i: nat ensures Can(a, x, j, i) <==> Can(b, x, j, i) {
      if Can(a, x, j, i) { CanShrinks(b, a, x, j, i); }
      if Can(b, x, j, i) { CanShrinks(a, b, x, j, i); }
    }
    assert forall j: nat :: NoMore(a, to, j) <==> NoMore(b, to, j);
  }

  /** Of what is in use only whether it fits the lowered terms matters. */
  lemma FittingIsSecure(a: State, b: State, to: Terms)
    requires Formed(b) && Secure(b) && b == a.(used := Usage(0, 0)) && Safe(a) && a.licence == to && Fits(a, a.used, to)
    ensures Secure(a)
  {
    assert Still(b, a);
    forall k: nat | Open(a, k) ensures Leq(a, a.licence, To(a, k)) && Fits(a, a.used, To(a, k)) {
      assert Open(b, k) && To(b, k) == To(a, k);
      LeqTransitive(a, a.licence, To(a, k));
    }
    QuietKeeps(b, a);
  }

  lemma UsageIsExact(s: State, e: Event, u: Usage)
    requires Formed(s) && e.Ask? && Enabled(s, e) && IsDowngrade(s, s.phase.from, s.phase.to)
    requires Fits(s, u, s.billed) && Next(s.(used := u), e).phase.Asked?
    ensures SafeOn(Next(s.(used := u), e)) <==>
            SafeOn(Next(s.(used := Usage(0, 0)), e)) && Fits(s, u, s.phase.to)
  {
    var y, z := s.(used := u), s.(used := Usage(0, 0));
    var a, b, n := Next(y, e), Next(z, e), |s.requests|;
    assert Formed(y) && Formed(z);
    StepForms(y, e);
    StepForms(z, e);
    SecureIsExact(a);
    SecureIsExact(b);
    assert b == a.(used := Usage(0, 0));
    if Secure(a) {
      assert Open(a, n) && To(a, n) == s.phase.to;
      UnusedIsSecure(a);
    } else if Secure(b) && Fits(s, u, s.phase.to) {
      FittingIsSecure(a, b, s.phase.to);
    }
  }

  lemma LoweredCalmly(s: State, e: Event)
    requires Formed(s) && e.Ask? && Enabled(s, e) && IsDowngrade(s, s.phase.from, s.phase.to)
    requires Next(s, e).phase.Asked? && Secure(Next(s, e))
    ensures ShowsCalmly(s.(now := e.at), s.phase.to)
  {
    var t, u, to, n := Next(s, e), s.(now := e.at), s.phase.to, |s.requests|;
    assert Running(t) && Open(t, n) && To(t, n) == to;
    forall x, j: nat, i: nat | Can(u, x, j, i) ensures i < n && Can(t, x, j, i) && To(t, i) == To(u, i) {
      AskCan(s, e, x, j, i);
    }
    if u.billed == to { assert CalmFor(t, n); }
    if u.pending == Some(to) { assert Calm(t, to, t.served, n); }
    forall i: nat | Can(u, u.billed, u.served, i) && To(u, i) == to ensures NoMore(u, to, i + 1) {
      assert Can(t, t.billed, t.served, i) && Ends(t, To(t, i));
      assert Calm(t, to, i + 1, n);
    }
  }

  lemma AskCan(s: State, e: Event, x: Terms, j: nat, i: nat)
    requires Formed(s) && e.Ask? && Enabled(s, e) && Next(s, e).phase.Asked? && Can(s.(now := e.at), x, j, i)
    ensures i < |s.requests| && Can(Next(s, e), x, j, i) && To(Next(s, e), i) == To(s, i)
  {
    var t, u := Next(s, e), s.(now := e.at);
    assert t.requests[i] == s.requests[i];
    if !s.requests[i].downgrade && !Leq(s, x, To(s, i)) {
      var d: nat :| j <= d < i && Open(u, d) && Leq(u, To(u, d), To(u, i));
      assert t.requests[d] == s.requests[d] && Open(t, d);
    }
  }

  /**
   What the state before it must be like for Stripe to make a change whenever it likes: what it
   then bills leaves room for the licence, for what is in use, for what waits for payment and for
   every read that may still land; nothing more can be billed before a downgrade still due, unless
   a hold covers it that cannot end first; and the change under way can put back no more.
   */
  ghost predicate Harmless(s: State, e: Event)
    requires e.Serve? && Enabled(s, e)
  {
    var t := Next(s, e);
    && Leq(s, s.licence, t.billed) && Fits(s, s.used, t.billed)
    && (t.pending.Some? ==> Leq(s, t.billed, t.pending.value))
    && (forall r :: Alive(t, r) ==>
          Leq(s, r.terms, t.billed) || (!s.phase.Marked? && s.held.Some? && r.stamp + APPLY <= s.held.value))
    && HoldOk(t) && RestoreOk(t)
  }

  /**
   A change made in its turn or out of it, over what it was asked over or something else, whatever
   is under way: all later runs are safe exactly when it is harmless.
   */
  lemma LateServiceIsExact(s: State, e: Event)
    requires Formed(s) && Secure(s) && e.Serve? && Enabled(s, e)
    ensures SafeOn(Next(s, e)) <==> Harmless(s, e)
  {
    var t := Next(s, e);
    StepForms(s, e);
    SecureIsExact(t);
    assert forall k: nat :: Open(t, k) ==> Open(s, k);
  }

  /**
   With nothing held or under way, in full: exactly when what the change bills is no less than the
   licence, what is in use and every read that may still land, and with it billed nothing more can
   be billed before any downgrade still due.
   */
  lemma UnheldServiceIsExact(s: State, e: Event)
    requires Formed(s) && Secure(s) && e.Serve? && Enabled(s, e) && s.phase.Free? && !HeldAt(s, e.at)
    requires s.requests[e.id].downgrade || !e.waits
    ensures SafeOn(Next(s, e)) <==>
            var t, to := Next(s, e), To(s, e.id);
            && Leq(s, s.licence, to) && Fits(s, s.used, to)
            && (forall r :: Alive(t, r) ==> Leq(s, r.terms, to))
            && (forall k: nat :: Open(t, k) ==> Calm(t, to, t.served, k))
  {
    LateServiceIsExact(s, e);
  }

  /**
   Under a hold with nothing under way, in full: a read that shows more may also die before the hold
   does; and where the hold can end, because what is billed is what the licence has or a read on its
   way shows it, nothing more can be billed before any downgrade still due.
   */
  lemma HeldServiceIsExact(s: State, e: Event)
    requires Formed(s) && Secure(s) && e.Serve? && Enabled(s, e) && s.phase.Free? && HeldAt(s, e.at)
    requires s.requests[e.id].downgrade || !e.waits
    ensures SafeOn(Next(s, e)) <==>
            var t, to := Next(s, e), To(s, e.id);
            && Leq(s, s.licence, to) && Fits(s, s.used, to)
            && (forall r :: Alive(t, r) ==> Leq(s, r.terms, to) || r.stamp + APPLY <= s.held.value)
            && (to == s.licence || Shown(t, to) ==> forall k: nat :: Open(t, k) ==> Calm(t, to, t.served, k))
            && (forall i: nat :: Can(t, to, t.served, i) && (To(t, i) == s.licence || Shown(t, To(t, i))) ==>
                  forall k: nat :: Open(t, k) && i < k ==> Calm(t, To(t, i), i + 1, k))
  {
    var t, to := Next(s, e), To(s, e.id);
    LateServiceIsExact(s, e);
    assert AllCalm(t, to, t.served) <==> forall k: nat :: Open(t, k) ==> Calm(t, to, t.served, k);
    assert forall x :: Ends(t, x) <==> x == s.licence || Shown(t, x);
  }

  /** A charged change that Stripe holds for payment in its turn: exactly when it raises what is billed. */
  lemma LateWaitIsExact(s: State, e: Event)
    requires Formed(s) && Secure(s) && e.Serve? && Enabled(s, e)
    requires !s.requests[e.id].downgrade && e.waits && s.served <= e.id
    ensures SafeOn(Next(s, e)) <==> Leq(s, s.billed, To(s, e.id))
  {
    var t := Next(s, e);
    StepForms(s, e);
    SecureIsExact(t);
    if Leq(s, s.billed, To(s, e.id)) { ServeKeeps(s, e); }
  }
}
