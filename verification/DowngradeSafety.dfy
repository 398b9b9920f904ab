/**
 Runs of a licence from its start: with what is billed, asked and held in the
 order this program brings about, three conditions on the environment are
 enough for every run to be safe.
 */
module DowngradeSafety {
  import opened Common
  import opened PlanLimits
  import opened Downgrade
  import opened DowngradeKernel

  /** Made already, or its terms are billed: making it again changes nothing. */
  ghost predicate Moot(s: State, k: nat)
    requires k < |s.requests|
  {
    && s.billed == To(s, k) && (s.pending.Some? ==> s.pending.value == s.billed)
    && (forall i: nat :: i < k && Due(s, i) ==> To(s, i) == s.billed)
  }

  /** Not made yet: its terms are held, nothing can show them, and all asked since is for the same. */
  ghost predicate Held(s: State, k: nat)
    requires k < |s.requests|
  {
    && Running(s) && To(s, k) == s.licence && s.billed != s.licence && s.pending != Some(s.licence)
    && (forall i :: i in s.live && k < i < |s.requests| ==> s.requests[i].to == s.licence)
    && (forall i: nat :: i < k && Due(s, i) && To(s, i) == s.licence ==>
          s.requests[i].downgrade || !Leq(s, s.billed, s.licence))
    && (forall q :: q in s.inFlight && s.synced <= q.stamp ==> q.terms != s.licence)
  }

  ghost predicate MootButOwn(s: State) {
    forall k: nat :: k != Own(s) && Open(s, k) ==> Moot(s, k)
  }

  /** What is billed has only been raised since the change under way was checked, or nothing can raise it. */
  ghost predicate Checks(s: State, from: Terms) {
    || Leq(s, from, s.billed)
    || (&& (s.pending.Some? ==> s.pending.value == s.billed)
        && forall i: nat :: Due(s, i) && !s.requests[i].downgrade ==> To(s, i) == s.billed)
  }

  ghost predicate Tidy(s: State) {
    && (forall k: nat :: Open(s, k) ==> Moot(s, k) || Held(s, k))
    && (Restores(s) ==> MootButOwn(s))
    && (s.phase.Seen? || s.phase.Marked? ==> forall k: nat :: Open(s, k) ==> Moot(s, k))
    && (s.phase.Checking? || s.phase.Checked? ==> Checks(s, s.phase.from))
  }

  ghost predicate Inv(s: State) { Formed(s) && Secure(s) && Tidy(s) }

  // ----------------------------------- the fourth condition keeps itself

  lemma TickTidies(s: State, at: real)
    requires Inv(s) && s.now < at
    ensures Inv(s.(now := at))
  {
    var u := s.(now := at);
    TickKeeps(s, at);
    assert forall i: nat :: Due(u, i) ==> Due(s, i);
    assert forall k: nat :: Open(u, k) ==> Open(s, k);
  }

  /** Where a downgrade's terms show, nothing due asks for more. */
  lemma ShowsTidily(s: State, from: Terms, to: Terms)
    requires Inv(s) && s.phase == Checked(from, to) && IsDowngrade(s, from, to) && Leq(s, to, s.billed)
    ensures ShowsCalmly(s, to)
  {
    ChangesCompare(s.product, from.bounds, to.bounds);
    assert Leq(s, s.billed, to) ==> !Leq(s, from, s.billed);
    forall i: nat | Due(s, i) && s.billed == to ensures To(s, i) == to {
      if s.requests[i].downgrade { assert Open(s, i); }
    }
    forall i: nat | Can(s, s.billed, s.served, i) && To(s, i) == to ensures NoMore(s, to, i + 1) {
      if s.billed != to { ShowsAfter(s, from, to, i); }
    }
  }

  /** Terms not billed yet can be shown only by a held downgrade to them, and those behind it ask for the same. */
  lemma ShowsAfter(s: State, from: Terms, to: Terms, i: nat)
    requires Inv(s) && s.phase == Checked(from, to) && IsDowngrade(s, from, to)
    requires Leq(s, to, s.billed) && s.billed != to
    requires Can(s, s.billed, s.served, i) && To(s, i) == to
    ensures NoMore(s, to, i + 1)
  {
    ChangesCompare(s.product, from.bounds, to.bounds);
    var d: nat := i;
    if !s.requests[i].downgrade && !Leq(s, s.billed, to) {
      d :| s.served <= d < i && Open(s, d) && Leq(s, To(s, d), To(s, i));
    }
    if Open(s, d) {
      assert Held(s, d);
      forall m: nat | Can(s, to, i + 1, m) ensures Leq(s, To(s, m), to) { assert m in s.live && d < m; }
    }
  }

  lemma AskUnraised(s: State, e: Event)
    requires Inv(s) && e.Ask? && Allowed(s, e, SOUND)
    ensures Unraised(s, e)
  {
    if IsDowngrade(s, s.phase.from, s.phase.to) && Next(s, e).phase.Asked? {
      TickTidies(s, e.at);
      ShowsTidily(s.(now := e.at), s.phase.from, s.phase.to);
    }
  }

  // ------------------------------------------------ every step keeps it

  /** Steps that move nothing at Stripe. */
  lemma StillTidies(s: State, e: Event)
    requires Inv(s) && Allowed(s, e, SOUND) && (e.Use? || e.ReadStripe? || e.Expire?)
    ensures Tidy(Next(s, e))
  {
    var t := Next(s, e);
    assert forall i: nat :: Due(t, i) ==> Due(s, i);
    assert forall k: nat :: Open(t, k) ==> Open(s, k);
  }

  /** Steps that move nothing but the change under way. */
  lemma PhaseTidies(s: State, e: Event)
    requires Inv(s) && Allowed(s, e, SOUND) && (e.Begin? || e.Check?)
    ensures Tidy(Next(s, e))
  {
    var t := Next(s, e);
    assert forall i: nat :: Due(t, i) ==> Due(s, i);
    assert forall k: nat :: Open(t, k) ==> Open(s, k);
  }

  lemma StopTidies(s: State, e: Event)
    requires Inv(s) && Allowed(s, e, SOUND) && (e.GiveUp? || e.Stop?)
    ensures Tidy(Next(s, e))
  {
    var t := Next(s, e);
    assert forall i: nat :: Due(t, i) ==> Due(s, i);
    assert forall k: nat :: Open(t, k) ==> Open(s, k);
  }

  lemma RefuseTidies(s: State, e: Event)
    requires Inv(s) && Allowed(s, e, SOUND) && e.Refuse?
    ensures Tidy(Next(s, e))
  {
    var t := Next(s, e);
    assert forall i: nat :: Due(t, i) ==> Due(s, i);
    assert forall k: nat :: Open(t, k) ==> Open(s, k);
  }

  /** Steps that end the hold, or learn that it may end. */
  lemma EndTidies(s: State, e: Event)
    requires Inv(s) && Allowed(s, e, SOUND)
    requires e.Restore? || e.Learn? || e.Mark? || e.MarkFails? || e.Release? || e.Settle?
    ensures Tidy(Next(s, e))
  {
    var t := Next(s, e);
    assert forall i: nat :: Due(t, i) ==> Due(s, i);
    assert forall k: nat :: Open(t, k) ==> Open(s, k);
  }

  /** A read that lands finds no downgrade counting on the hold. */
  lemma LandsMoot(s: State, e: Event, k: nat)
    requires Inv(s) && e.Apply? && Allowed(s, e, SOUND) && Open(Next(s, e), k)
    ensures Open(s, k)
    ensures Held(s, k) && !Moot(s, k) ==>
              Next(s, e) == s.(now := e.at, synced := Next(s, e).synced) && Running(Next(s, e))
  {
    assert Open(s, k);
  }

  lemma ApplyTidies(s: State, e: Event)
    requires Inv(s) && e.Apply? && Allowed(s, e, SOUND)
    ensures Tidy(Next(s, e))
  {
    var t := Next(s, e);
    assert forall i: nat :: Due(t, i) ==> Due(s, i);
    forall k: nat | Open(t, k)
      ensures Open(s, k) && (Moot(s, k) ==> Moot(t, k)) && (Held(s, k) && !Moot(s, k) ==> Held(t, k))
    {
      LandsMoot(s, e, k);
    }
  }

  /** A new downgrade's terms are held, or billed already with nothing due that asks for other terms. */
  lemma AskedTidily(s: State, e: Event)
    requires Inv(s) && e.Ask? && Allowed(s, e, SOUND)
    requires IsDowngrade(s, s.phase.from, s.phase.to) && Next(s, e).phase.Asked?
    ensures Moot(Next(s, e), |s.requests|) || Held(Next(s, e), |s.requests|)
  {
    var t, n, to := Next(s, e), |s.requests|, s.phase.to;
    ChangesCompare(s.product, s.phase.from.bounds, to.bounds);
    assert Leq(s, s.billed, to) ==> !Leq(s, s.phase.from, s.billed);
    forall i: nat | i < n && Due(t, i)
      ensures Due(s, i) && To(t, i) == To(s, i) && (s.billed == to ==> To(s, i) == to)
    {
      assert Due(s, i);
      if s.requests[i].downgrade { assert Open(s, i); }
    }
    assert s.billed != to ==> s.pending != Some(to);
  }

  /** Those asked before it stand as they did. */
  lemma AskLeaves(s: State, e: Event, k: nat)
    requires Inv(s) && e.Ask? && Allowed(s, e, SOUND) && k < |s.requests| && Open(Next(s, e), k)
    ensures Open(s, k) && (Moot(s, k) ==> Moot(Next(s, e), k)) && (Held(s, k) ==> Held(Next(s, e), k))
  {
    var t, n := Next(s, e), |s.requests|;
    assert Open(s, k);
    assert forall i: nat :: i < n && Due(t, i) ==> Due(s, i) && To(t, i) == To(s, i);
  }

  lemma AskTidies(s: State, e: Event)
    requires Inv(s) && e.Ask? && Allowed(s, e, SOUND)
    ensures Tidy(Next(s, e))
  {
    var t, n := Next(s, e), |s.requests|;
    if IsDowngrade(s, s.phase.from, s.phase.to) && t.phase.Asked? { AskedTidily(s, e); }
    forall k: nat | k < n && Open(t, k)
      ensures Open(s, k) && (Moot(s, k) ==> Moot(t, k)) && (Held(s, k) ==> Held(t, k))
    {
      AskLeaves(s, e, k);
    }
  }

  lemma PayTidies(s: State, e: Event)
    requires Inv(s) && e.Pay? && Allowed(s, e, SOUND)
    ensures Tidy(Next(s, e))
  {
    var t := Next(s, e);
    LeqTransitive(s, s.billed, t.billed);
    assert forall i: nat :: Due(t, i) ==> Due(s, i);
    assert forall k: nat :: Open(t, k) ==> Open(s, k);
  }

  lemma ServeUpgradeTidies(s: State, e: Event)
    requires Inv(s) && e.Serve? && Allowed(s, e, SOUND) && s.served <= e.id && !s.requests[e.id].downgrade
    ensures Tidy(Next(s, e))
  {
    var t := Next(s, e);
    assert Due(s, e.id);
    assert forall i: nat :: Due(t, i) ==> Due(s, i) && e.id < i;
    assert forall k: nat :: Open(t, k) ==> Open(s, k);
    LeqTransitive(s, s.billed, t.billed);
  }

  lemma ServeDowngradeTidies(s: State, e: Event)
    requires Inv(s) && e.Serve? && Allowed(s, e, SOUND) && s.served <= e.id && s.requests[e.id].downgrade
    ensures Tidy(Next(s, e))
  {
    var t := Next(s, e);
    assert Open(s, e.id);
    assert forall i: nat :: Due(t, i) ==> Due(s, i) && e.id < i;
    assert forall k: nat :: Open(t, k) ==> Open(s, k);
  }

  lemma ServeTidies(s: State, e: Event)
    requires Inv(s) && e.Serve? && Allowed(s, e, SOUND)
    ensures Tidy(Next(s, e))
  {
    var t := Next(s, e);
    if e.id < s.served {
      assert forall i: nat :: Due(t, i) ==> Due(s, i);
      assert forall k: nat :: Open(t, k) ==> Open(s, k);
    } else if s.requests[e.id].downgrade {
      ServeDowngradeTidies(s, e);
    } else {
      ServeUpgradeTidies(s, e);
    }
  }

  lemma StepTidies(s: State, e: Event)
    requires Inv(s) && Allowed(s, e, SOUND)
    ensures Inv(Next(s, e))
  {
    StepForms(s, e);
    if e.Ask? { AskUnraised(s, e); }
    StepKeeps(s, e);
    match e {
      case Apply(_, _, _) => ApplyTidies(s, e);
      case Ask(_) => AskTidies(s, e);
      case Pay(_) => PayTidies(s, e);
      case Serve(_, _, _) => ServeTidies(s, e);
      case Restore(_) => EndTidies(s, e);
      case Learn(_) => EndTidies(s, e);
      case Mark(_) => EndTidies(s, e);
      case MarkFails(_) => EndTidies(s, e);
      case Release(_) => EndTidies(s, e);
      case Settle(_) => EndTidies(s, e);
      case Use(_, _) => StillTidies(s, e);
      case ReadStripe(_, _) => StillTidies(s, e);
      case Expire(_) => StillTidies(s, e);
      case Refuse(_) => RefuseTidies(s, e);
      case GiveUp(_) => StopTidies(s, e);
      case Stop(_) => StopTidies(s, e);
      case _ => PhaseTidies(s, e);
    }
  }

  lemma StartTidies(s: State)
    requires Start(s)
    ensures Inv(s)
  {
    assert forall k: nat :: !Open(s, k);
  }

  lemma {:induction false} RunTidies(s: State, es: seq<Event>)
    requires Inv(s) && Follows(s, es, SOUND)
    ensures Inv(End(s, es, SOUND))
  {
    if es == [] {
    } else {
      RunTidies(s, es[..|es| - 1]);
      StepTidies(End(s, es[..|es| - 1], SOUND), es[|es| - 1]);
    }
  }

  /**
   In every run of upgrades, downgrades, refusals, lost answers, retries, restarts, delayed reads
   and lapsed holds that keeps the three conditions, nothing in use is ever more than Stripe bills.
   */
  lemma NeverAboveBilled(s: State, es: seq<Event>)
    requires Start(s) && Follows(s, es, SOUND)
    ensures Safe(End(s, es, SOUND))
  {
    StartTidies(s);
    RunTidies(s, es);
  }
}
