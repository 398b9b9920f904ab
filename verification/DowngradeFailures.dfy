/**
 What happens without a condition: for each, a run from the start that keeps
 the others and ends with more in use, or on offer, than Stripe bills.
 */
module DowngradeFailures {
  import opened Common
  import opened PlanLimits
  import opened Downgrade
  import DowngradeSafety
  import opened DowngradeExact

  // Each is stated for runs held to all conditions but the one it shows.

  const FULL := Terms(0, Bounds(5, 10))
  const LESS := Terms(1, Bounds(3, 6))

  function Sample(pending: Option<Terms>): State {
    State(Hybrid, 0.0, FULL, pending, FULL, 0.0, None, Usage(1, 1), {}, [], {}, 0, Free)
  }

  lemma SampleStarts(pending: Option<Terms>, r: Rules)
    ensures Reaches(Sample(pending), Sample(pending), r)
  {
    assert Follows(Sample(pending), [], r);
  }

  // More devices wait for payment; the downgrade gives up seats and keeps the devices.
  const MORE := Terms(2, Bounds(5, 20))
  const FEWER := Terms(3, Bounds(3, 10))

  function PaidMeanwhile(): State {
    Sample(None).(now := 5.0, billed := MORE, licence := MORE, synced := 4.0, inFlight := {Read(4.0, MORE)},
                  phase := Checked(FULL, FEWER))
  }

  lemma PaidMeanwhileReached(r: Rules)
    ensures Reaches(Sample(Some(MORE)), PaidMeanwhile(), r)
  {
    var s := Sample(Some(MORE));
    SampleStarts(Some(MORE), r);
    var a := s.(now := 1.0, phase := Checking(FULL, FEWER));
    assert Reaches(s, a, r) by { Go(s, s, Begin(FEWER, 1.0), a, r); }
    var b := a.(now := 2.0, phase := Checked(FULL, FEWER));
    assert Reaches(s, b, r) by { Go(s, a, Check(2.0), b, r); }
    PaidAfterCheck(b, r);
  }

  lemma PaidAfterCheck(b: State, r: Rules)
    requires b == Sample(Some(MORE)).(now := 2.0, phase := Checked(FULL, FEWER)) && Reaches(Sample(Some(MORE)), b, r)
    ensures Reaches(Sample(Some(MORE)), PaidMeanwhile(), r)
  {
    var s := Sample(Some(MORE));
    var c := b.(now := 3.0, billed := MORE, pending := None);
    assert Reaches(s, c, r) by { Go(s, b, Pay(3.0), c, r); }
    var d := c.(now := 4.0, inFlight := {Read(4.0, MORE)});
    assert Reaches(s, d, r) by { Go(s, c, ReadStripe(4.0, 4.0), d, r); }
    assert Reaches(s, PaidMeanwhile(), r) by { Go(s, d, Apply(Read(4.0, MORE), false, 5.0), PaidMeanwhile(), r); }
  }

  /** A change waiting for payment is paid between the check and the lowering: what it let in is never counted. */
  lemma DisturbedIsUnsafe()
    ensures exists s, t :: Start(s) && Reaches(s, t, Rules(false, true, true, true)) && !Safe(t)
  {
    var r, s, a := Rules(false, true, true, true), Sample(Some(MORE)), PaidMeanwhile();
    PaidMeanwhileReached(r);
    var b := a.(now := 6.0, used := Usage(3, 15));
    assert Reaches(s, b, r) by { Go(s, a, Use(Usage(3, 15), 6.0), b, r); }
    var c := b.(now := 7.0, licence := FEWER, synced := 7.0, held := Some(7.0 + HOLD), live := {0},
                requests := [Request(FULL, FEWER, true, 7.0 + ATTEMPT)], phase := Asked(FEWER, MORE, 0));
    assert Reaches(s, c, r) by { Go(s, b, Ask(7.0), c, r); }
    var d := c.(now := 8.0, billed := FEWER, live := {}, served := 1);
    assert Reaches(s, d, r) by { Go(s, c, Serve(0, false, 8.0), d, r); }
    assert Start(s) && !Safe(d);
  }

  // Seats are added while more devices wait for payment.
  const ROOMIER := Terms(4, Bounds(6, 10))

  function Overtaking(): State {
    Sample(Some(MORE)).(now := 3.0, live := {0}, requests := [Request(FULL, ROOMIER, false, 3.0 + ATTEMPT)],
                        phase := Asked(ROOMIER, FULL, 0))
  }

  lemma OvertakingReached(r: Rules)
    ensures Reaches(Sample(Some(MORE)), Overtaking(), r)
  {
    var s := Sample(Some(MORE));
    SampleStarts(Some(MORE), r);
    var a := s.(now := 1.0, phase := Checking(FULL, ROOMIER));
    assert Reaches(s, a, r) by { Go(s, s, Begin(ROOMIER, 1.0), a, r); }
    var b := a.(now := 2.0, phase := Checked(FULL, ROOMIER));
    assert Reaches(s, b, r) by { Go(s, a, Check(2.0), b, r); }
    assert Reaches(s, Overtaking(), r) by { Go(s, b, Ask(3.0), Overtaking(), r); }
  }

  lemma OvertakenRead(c: State, d: State, r: Rules)
    requires Reaches(Sample(Some(MORE)), c, r)
    requires c == Overtaking().(now := 5.0, billed := MORE, pending := None, inFlight := {Read(5.0, MORE)})
    requires d == c.(now := 6.0, licence := MORE, synced := 5.0)
    ensures Reaches(Sample(Some(MORE)), d, r)
  {
    Go(Sample(Some(MORE)), c, Apply(Read(5.0, MORE), false, 6.0), d, r);
  }

  /** The change that waited is paid while the other is with Stripe, which then replaces it with less. */
  lemma OvertakenIsUnsafe()
    ensures exists s, t :: Start(s) && Reaches(s, t, Rules(false, true, true, true)) && !Safe(t)
  {
    var r, s, a := Rules(false, true, true, true), Sample(Some(MORE)), Overtaking();
    OvertakingReached(r);
    var b := a.(now := 4.0, billed := MORE, pending := None);
    assert Reaches(s, b, r) by { Go(s, a, Pay(4.0), b, r); }
    var c := b.(now := 5.0, inFlight := {Read(5.0, MORE)});
    assert Reaches(s, c, r) by { Go(s, b, ReadStripe(5.0, 5.0), c, r); }
    var d := c.(now := 6.0, licence := MORE, synced := 5.0);
    OvertakenRead(c, d, r);
    var e := d.(now := 7.0, billed := ROOMIER, live := {}, served := 1);
    assert Reaches(s, e, r) by { Go(s, d, Serve(0, false, 7.0), e, r); }
    assert Start(s) && !Safe(e);
  }

  function Abandoned(): State {
    Sample(None).(now := 4.0, licence := LESS, synced := 3.0, held := Some(3.0 + HOLD),
                  requests := [Request(FULL, LESS, true, 3.0 + ATTEMPT)], live := {0})
  }

  lemma FirstAsked(b: State, r: Rules)
    requires Reaches(Sample(None), b, r) && b == Sample(None).(now := 2.0, phase := Checked(FULL, LESS))
    ensures Reaches(Sample(None), Abandoned().(now := 3.0, phase := Asked(LESS, FULL, 0)), r)
  {
    Go(Sample(None), b, Ask(3.0), Abandoned().(now := 3.0, phase := Asked(LESS, FULL, 0)), r);
  }

  lemma AbandonedReached(r: Rules)
    ensures Reaches(Sample(None), Abandoned(), r)
    ensures Reaches(Sample(None), Abandoned().(now := 3.0, phase := Asked(LESS, FULL, 0)), r)
  {
    var s := Sample(None);
    SampleStarts(None, r);
    var a := s.(now := 1.0, phase := Checking(FULL, LESS));
    assert Reaches(s, a, r) by { Go(s, s, Begin(LESS, 1.0), a, r); }
    var b := a.(now := 2.0, phase := Checked(FULL, LESS));
    assert Reaches(s, b, r) by { Go(s, a, Check(2.0), b, r); }
    var c := Abandoned().(now := 3.0, phase := Asked(LESS, FULL, 0));
    FirstAsked(b, r);
    assert Reaches(s, Abandoned(), r) by { Go(s, c, Stop(4.0), Abandoned(), r); }
  }

  // Between what is billed at first and what the abandoned downgrade asked for.
  const MIDDLE := Terms(5, Bounds(4, 8))

  function ReadEarlier(): State {
    Abandoned().(now := 8.0, billed := LESS, synced := 7.0, held := None, live := {}, served := 1,
                 inFlight := {Read(7.0, LESS)}, phase := Checking(FULL, MIDDLE))
  }

  lemma ReadEarlierReached(r: Rules)
    ensures Reaches(Sample(None), ReadEarlier(), r)
  {
    var s, a := Sample(None), Abandoned();
    AbandonedReached(r);
    var b := a.(now := 5.0, phase := Checking(FULL, MIDDLE));
    assert Reaches(s, b, r) by { Go(s, a, Begin(MIDDLE, 5.0), b, r); }
    var c := b.(now := 6.0, billed := LESS, live := {}, served := 1);
    assert Reaches(s, c, r) by { Go(s, b, Serve(0, false, 6.0), c, r); }
    var d := c.(now := 7.0, inFlight := {Read(7.0, LESS)});
    assert Reaches(s, d, r) by { Go(s, c, ReadStripe(7.0, 7.0), d, r); }
    ShownEarlier(d, r);
  }

  lemma ShownEarlier(d: State, r: Rules)
    requires Reaches(Sample(None), d, r)
    requires d == ReadEarlier().(now := 7.0, synced := 3.0, held := Some(3.0 + HOLD))
    ensures Reaches(Sample(None), ReadEarlier(), r)
  {
    var s := Sample(None);
    assert Reaches(s, ReadEarlier(), r) by { Go(s, d, Apply(Read(7.0, LESS), false, 8.0), ReadEarlier(), r); }
  }

  /** A lost downgrade is made, and its hold ends, between another's read and its lowering, which raises the licence. */
  lemma StaleLoweringIsUnsafe()
    ensures exists s, t :: Start(s) && Reaches(s, t, Rules(false, true, true, true)) && !Safe(t)
  {
    var r, s, a := Rules(false, true, true, true), Sample(None), ReadEarlier();
    ReadEarlierReached(r);
    var b := a.(now := 9.0, phase := Checked(FULL, MIDDLE));
    assert Reaches(s, b, r) by { Go(s, a, Check(9.0), b, r); }
    var c := b.(now := 10.0, licence := MIDDLE, synced := 10.0, held := Some(10.0 + HOLD), live := {1},
                requests := b.requests + [Request(FULL, MIDDLE, true, 10.0 + ATTEMPT)],
                phase := Asked(MIDDLE, LESS, 1));
    assert Reaches(s, c, r) by { Go(s, b, Ask(10.0), c, r); }
    assert Start(s) && !Safe(c);
  }

  function MadeAgain(): State {
    Abandoned().(now := 8.0, synced := 7.0, held := Some(7.0 + HOLD), billed := LESS, served := 2,
                 requests := [Request(FULL, LESS, true, 3.0 + ATTEMPT), Request(FULL, LESS, true, 7.0 + ATTEMPT)],
                 phase := Asked(LESS, LESS, 1))
  }

  lemma MadeAgainReached(r: Rules)
    ensures Reaches(Sample(None), MadeAgain(), r)
  {
    var s, a := Sample(None), Abandoned();
    AbandonedReached(r);
    var b := a.(now := 5.0, phase := Checking(FULL, LESS));
    assert Reaches(s, b, r) by { Go(s, a, Begin(LESS, 5.0), b, r); }
    var c := b.(now := 6.0, phase := Checked(FULL, LESS));
    assert Reaches(s, c, r) by { Go(s, b, Check(6.0), c, r); }
    AskedAgain(c, r);
  }

  lemma AskedAgain(c: State, r: Rules)
    requires c == Abandoned().(now := 6.0, phase := Checked(FULL, LESS)) && Reaches(Sample(None), c, r)
    ensures Reaches(Sample(None), MadeAgain(), r)
  {
    var s := Sample(None);
    var d := MadeAgain().(now := 7.0, billed := FULL, served := 0, live := {0, 1});
    assert Reaches(s, d, r) by { Go(s, c, Ask(7.0), d, r); }
    assert Reaches(s, MadeAgain(), r) by { Go(s, d, Serve(1, false, 8.0), MadeAgain(), r); }
  }

  function TakenBack(): State {
    MadeAgain().(now := 15.0, synced := 10.0, held := None, billed := FULL, served := 3,
                 requests := MadeAgain().requests + [Request(LESS, FULL, false, 14.0 + ATTEMPT)],
                 phase := Asked(FULL, LESS, 2))
  }

  function Released(): State { MadeAgain().(now := 11.0, synced := 10.0, held := None, phase := Free) }

  lemma ReleasedReached(r: Rules)
    ensures Reaches(Sample(None), Released(), r)
  {
    var s, a := Sample(None), MadeAgain();
    MadeAgainReached(r);
    var b := a.(now := 9.0, phase := Seen(LESS));
    assert Reaches(s, b, r) by { Go(s, a, Learn(9.0), b, r); }
    var c := b.(now := 10.0, synced := 10.0, phase := Marked(LESS));
    assert Reaches(s, c, r) by { Go(s, b, Mark(10.0), c, r); }
    assert Reaches(s, Released(), r) by { Go(s, c, Release(11.0), Released(), r); }
  }

  lemma TakenBackReached(r: Rules)
    ensures Reaches(Sample(None), TakenBack(), r)
  {
    ReleasedReached(r);
    UpgradedBack(Released(), r);
  }

  lemma UpgradedBack(d: State, r: Rules)
    requires d == Released() && Reaches(Sample(None), d, r)
    ensures Reaches(Sample(None), TakenBack(), r)
  {
    var s := Sample(None);
    var e := d.(now := 12.0, phase := Checking(LESS, FULL));
    assert Reaches(s, e, r) by { Go(s, d, Begin(FULL, 12.0), e, r); }
    var f := e.(now := 13.0, phase := Checked(LESS, FULL));
    assert Reaches(s, f, r) by { Go(s, e, Check(13.0), f, r); }
    AskedBack(f, r);
  }

  lemma AskedBack(f: State, r: Rules)
    requires f == MadeAgain().(now := 13.0, synced := 10.0, held := None, phase := Checked(LESS, FULL))
    requires Reaches(Sample(None), f, r)
    ensures Reaches(Sample(None), TakenBack(), r)
  {
    var s := Sample(None);
    var g := TakenBack().(now := 14.0, billed := LESS, served := 2, live := {0, 2});
    assert Reaches(s, g, r) by { Go(s, f, Ask(14.0), g, r); }
    assert Reaches(s, TakenBack(), r) by { Go(s, g, Serve(2, false, 15.0), TakenBack(), r); }
  }

  /** A restart, the same change made again and then taken back: now Stripe serves the first request. */
  lemma LateServiceIsUnsafe()
    ensures exists s, t :: Start(s) && Reaches(s, t, Rules(true, false, true, true)) && !Safe(t)
  {
    var r, s, a := Rules(true, false, true, true), Sample(None), TakenBack();
    TakenBackReached(r);
    var b := a.(now := 16.0, inFlight := {Read(16.0, FULL)});
    assert Reaches(s, b, r) by { Go(s, a, ReadStripe(16.0, 16.0), b, r); }
    var c := b.(now := 17.0, licence := FULL, synced := 16.0);
    assert Reaches(s, c, r) by { Go(s, b, Apply(Read(16.0, FULL), false, 17.0), c, r); }
    var d := c.(now := 18.0, used := Usage(5, 10));
    assert Reaches(s, d, r) by { Go(s, c, Use(Usage(5, 10), 18.0), d, r); }
    var e := d.(now := 19.0, billed := LESS, live := {});
    assert Reaches(s, e, r) by { Go(s, d, Serve(0, false, 19.0), e, r); }
    assert Start(s) && !Safe(e);
  }

  /** The read stamped 5 was answered before Stripe made the change, the one stamped 4 after it. */
  function Crossing(): State {
    Abandoned().(now := 8.0, billed := LESS, live := {}, served := 1, phase := Asked(LESS, FULL, 0),
                 inFlight := {Read(5.0, FULL), Read(4.0, LESS)})
  }

  lemma CrossingReached(r: Rules)
    ensures Reaches(Sample(None), Crossing(), r)
  {
    var s, a := Sample(None), Abandoned().(now := 3.0, phase := Asked(LESS, FULL, 0));
    AbandonedReached(r);
    var b := a.(now := 6.0, inFlight := {Read(5.0, FULL)});
    assert Reaches(s, b, r) by { Go(s, a, ReadStripe(5.0, 6.0), b, r); }
    var c := b.(now := 7.0, billed := LESS, live := {}, served := 1);
    assert Reaches(s, c, r) by { Go(s, b, Serve(0, false, 7.0), c, r); }
    assert Reaches(s, Crossing(), r) by { Go(s, c, ReadStripe(4.0, 8.0), Crossing(), r); }
  }

  /** Two reads cross while Stripe makes a downgrade whose answer was lost. */
  lemma CrossedIsUnsafe()
    ensures exists s, t :: Start(s) && Reaches(s, t, Rules(true, true, false, true)) && !Safe(t)
  {
    var r, s, a := Rules(true, true, false, true), Sample(None), Crossing();
    CrossingReached(r);
    var b := a.(now := 9.0, synced := 4.0, held := None);
    assert Reaches(s, b, r) by { Go(s, a, Apply(Read(4.0, LESS), false, 9.0), b, r); }
    var c := b.(now := 10.0, licence := FULL, synced := 5.0);
    assert Reaches(s, c, r) by { Go(s, b, Apply(Read(5.0, FULL), false, 10.0), c, r); }
    var d := c.(now := 11.0, used := Usage(5, 10));
    assert Reaches(s, d, r) by { Go(s, c, Use(Usage(5, 10), 11.0), d, r); }
    assert Start(s) && !Safe(d);
  }

  // ------------------------------------------ a late service that raises

  const LEAST := Terms(6, Bounds(2, 4))

  /** A second downgrade is asked for, and its process dies. */
  function Further(): State {
    Released().(now := 15.0, licence := LEAST, synced := 14.0, held := Some(14.0 + HOLD), live := {0, 2},
                requests := Released().requests + [Request(LESS, LEAST, true, 14.0 + ATTEMPT)])
  }

  lemma FurtherReached(r: Rules)
    ensures Reaches(Sample(None), Further(), r)
  {
    var s, a := Sample(None), Released();
    ReleasedReached(r);
    var b := a.(now := 12.0, phase := Checking(LESS, LEAST));
    assert Reaches(s, b, r) by { Go(s, a, Begin(LEAST, 12.0), b, r); }
    var c := b.(now := 13.0, phase := Checked(LESS, LEAST));
    assert Reaches(s, c, r) by { Go(s, b, Check(13.0), c, r); }
    var d := Further().(now := 14.0, phase := Asked(LEAST, LESS, 2));
    FurtherAsked(c, d, r);
    assert Reaches(s, Further(), r) by { Go(s, d, Stop(15.0), Further(), r); }
  }

  lemma FurtherAsked(c: State, d: State, r: Rules)
    requires Reaches(Sample(None), c, r) && c == Released().(now := 13.0, phase := Checked(LESS, LEAST))
    requires d == Further().(now := 14.0, phase := Asked(LEAST, LESS, 2))
    ensures Reaches(Sample(None), d, r)
  {
    Go(Sample(None), c, Ask(14.0), d, r);
  }

  /** It is asked for again. */
  function Again(): State {
    Further().(now := 18.0, synced := 18.0, held := Some(18.0 + HOLD), live := {0, 2, 3},
               requests := Further().requests + [Request(LESS, LEAST, true, 18.0 + ATTEMPT)],
               phase := Asked(LEAST, LEAST, 3))
  }

  lemma AgainReached(r: Rules)
    ensures Reaches(Sample(None), Again(), r)
  {
    var s, a := Sample(None), Further();
    FurtherReached(r);
    var b := a.(now := 16.0, phase := Checking(LESS, LEAST));
    assert Reaches(s, b, r) by { Go(s, a, Begin(LEAST, 16.0), b, r); }
    var c := b.(now := 17.0, phase := Checked(LESS, LEAST));
    assert Reaches(s, c, r) by { Go(s, b, Check(17.0), c, r); }
    AgainAsked(c, r);
  }

  lemma AgainAsked(c: State, r: Rules)
    requires Reaches(Sample(None), c, r) && c == Further().(now := 17.0, phase := Checked(LESS, LEAST))
    ensures Reaches(Sample(None), Again(), r)
  {
    Go(Sample(None), c, Ask(18.0), Again(), r);
  }

  /** Stripe makes the first of the two, and the hold is released; the second is still due. */
  function MadeOnce(): State {
    Again().(now := 22.0, billed := LEAST, synced := 21.0, held := None, live := {0, 3}, served := 3, phase := Free)
  }

  lemma MadeOnceReached(r: Rules)
    ensures Reaches(Sample(None), MadeOnce(), r)
  {
    var s, a := Sample(None), Again();
    AgainReached(r);
    var b := a.(now := 19.0, billed := LEAST, live := {0, 3}, served := 3);
    assert Reaches(s, b, r) by { Go(s, a, Serve(2, false, 19.0), b, r); }
    var c := b.(now := 20.0, phase := Seen(LEAST));
    assert Reaches(s, c, r) by { Go(s, b, Learn(20.0), c, r); }
    MadeOnceReleased(c, r);
  }

  lemma MadeOnceReleased(c: State, r: Rules)
    requires Reaches(Sample(None), c, r)
    requires c == Again().(now := 20.0, billed := LEAST, live := {0, 3}, served := 3, phase := Seen(LEAST))
    ensures Reaches(Sample(None), MadeOnce(), r)
  {
    var s := Sample(None);
    var d := c.(now := 21.0, synced := 21.0, phase := Marked(LEAST));
    assert Reaches(s, d, r) by { Go(s, c, Mark(21.0), d, r); }
    assert Reaches(s, MadeOnce(), r) by { Go(s, d, Release(22.0), MadeOnce(), r); }
  }

  /** A run that keeps the conditions leads to t, where a service raises what is billed and is safe, but not later. */
  ghost predicate RaisedInVain(s: State, t: State, e: Event) {
    && Start(s) && Reaches(s, t, SOUND) && e.Serve? && Enabled(t, e)
    && Leq(t, t.billed, Next(t, e).billed) && Safe(Next(t, e)) && !SafeOn(Next(t, e))
  }

  /** That a late service raises what is billed, and is safe at once, is not enough: a downgrade still due undoes it. */
  lemma RaisingIsNotEnough()
    ensures exists s, t, e :: RaisedInVain(s, t, e)
  {
    MadeOnceReached(SOUND);
    MadeOnceIsSecure();
    MadeOnceExposed();
    Undone(MadeOnce(), Serve(0, false, 23.0), 3);
    assert RaisedInVain(Sample(None), MadeOnce(), Serve(0, false, 23.0));
  }

  /** A downgrade still due for less than a service bills undoes it. */
  lemma Undone(t: State, e: Event, k: nat)
    requires DowngradeSafety.Inv(t) && e.Serve? && Enabled(t, e) && t.phase.Free? && t.held.None?
    requires t.requests[e.id].downgrade && Open(Next(t, e), k) && !Leq(t, To(t, e.id), To(t, k))
    ensures !SafeOn(Next(t, e))
  {
    UnheldServiceIsExact(t, e);
    assert !Calm(Next(t, e), To(t, e.id), Next(t, e).served, k);
  }

  /** What the late service does there. */
  lemma MadeOnceExposed()
    ensures var t, e := MadeOnce(), Serve(0, false, 23.0);
            && Enabled(t, e) && t.phase.Free? && t.held.None? && Leq(t, t.billed, Next(t, e).billed) && Safe(Next(t, e))
            && Open(Next(t, e), 3) && t.requests[0].downgrade && !Leq(t, To(t, 0), To(t, 3))
  {
  }

  lemma MadeOnceIsSecure()
    ensures DowngradeSafety.Inv(MadeOnce())
  {
    var s := Sample(None);
    MadeOnceReached(SOUND);
    var es :| Follows(s, es, SOUND) && End(s, es, SOUND) == MadeOnce();
    DowngradeSafety.StartTidies(s);
    DowngradeSafety.RunTidies(s, es);
  }

  /** A hold is released though its stamp could not be written, with a read from before on its way. */
  lemma UnmarkedIsUnsafe()
    ensures exists s, t :: Start(s) && Reaches(s, t, Rules(true, true, false, true)) && !Safe(t)
  {
    var r, s, a := Rules(true, true, false, true), Sample(None), Crossing();
    CrossingReached(r);
    var b := a.(now := 9.0, phase := Seen(LESS));
    assert Reaches(s, b, r) by { Go(s, a, Learn(9.0), b, r); }
    var c := b.(now := 10.0, phase := Marked(LESS));
    assert Reaches(s, c, r) by { Go(s, b, MarkFails(10.0), c, r); }
    var d := c.(now := 11.0, held := None, phase := Free);
    assert Reaches(s, d, r) by { Go(s, c, Release(11.0), d, r); }
    var e := d.(now := 12.0, licence := FULL, synced := 5.0);
    assert Reaches(s, e, r) by { Go(s, d, Apply(Read(5.0, FULL), false, 12.0), e, r); }
    assert Start(s) && !Safe(e);
  }
}
