/**
 Changes to a subscription: how a licence row, Stripe and what is in use move
 while a change is asked for, refused, lost or retried, and while reads of the
 subscription taken earlier are still on their way to the row.

 Every store call is one atomic step. Stripe and the customers are the
 environment. Instants and durations are seconds of the database clock. Time is
 dense and every step has an instant of its own.
 */
module Downgrade {
  import opened Common
  import opened PlanLimits

  const HOLD: real := 600.0
  /** One call of 30 s and three more, each 2 s later and bounded by 10 s. */
  const ATTEMPT: real := 66.0
  /** How long after its stamp a read of the subscription may still be applied. */
  const APPLY: real := 120.0

  /** A plan and quantity, with the limits they come to. */
  datatype Terms = Terms(id: int, bounds: Bounds)

  /** People on the licence, and devices: activations, or floating sessions if more. */
  datatype Usage = Usage(people: nat, devices: nat)

  datatype Read = Read(stamp: real, terms: Terms)

  datatype Request = Request(from: Terms, to: Terms, downgrade: bool, deadline: real)

  /** Where the change holding the licence's change lock is; Free when none does. */
  datatype Phase =
    | Free
    | Checking(from: Terms, to: Terms)
    | Checked(from: Terms, to: Terms)
    | Asked(to: Terms, prev: Terms, id: nat)
    | NotMade(to: Terms, prev: Terms, downgrade: bool)
    | Seen(to: Terms)
    | Marked(to: Terms)

  datatype State = State(
    product: ProductType,
    now: real,
    billed: Terms, pending: Option<Terms>,
    licence: Terms, synced: real, held: Option<real>,
    used: Usage,
    inFlight: set<Read>,
    requests: seq<Request>, live: set<nat>, served: nat,
    phase: Phase)

  datatype Event =
    | Use(u: Usage, at: real)                   // slots are taken and freed
    | ReadStripe(stamp: real, at: real)          // Stripe answers a read stamped earlier
    | Apply(r: Read, restricted: bool, at: real) // a read reaches the row
    | Begin(to: Terms, at: real)                // the change lock is taken, the subscription read
    | Check(at: real)                           // held terms and mixed changes are refused
    | Ask(at: real)                             // a downgrade lowers and holds; Stripe is asked
    | Serve(id: nat, waits: bool, at: real)     // Stripe makes a change, or holds it for payment
    | Pay(at: real)                             // a change waiting for payment is paid
    | Expire(at: real)                          // ... or runs out
    | Refuse(at: real)                          // Stripe says no, or replays an old answer
    | Restore(at: real)                         // notMade
    | Learn(at: real)                           // an answer or a read shows the change made
    | Mark(at: real)                            // markRead
    | MarkFails(at: real)                       // ... whose write fails, which is only logged
    | Release(at: real)                         // ReleaseLicenseTerms
    | GiveUp(at: real)                          // no answer: the hold is left to lapse
    | Stop(at: real)                            // the request ends, or its process dies
    | Settle(at: real)                          // the lapsed-hold sweep ends a hold

  predicate Leq(s: State, a: Terms, b: Terms) { AtMost(s.product, a.bounds, b.bounds) }

  function Counted(u: Usage): InUse { InUse(u.people, u.devices, 0) }

  predicate Fits(s: State, u: Usage, b: Terms) {
    PeopleFit(s.product, b.bounds, Counted(u)) && DevicesFit(s.product, b.bounds, Counted(u))
  }

  predicate IsDowngrade(s: State, from: Terms, to: Terms) {
    PlanLimits.Downgrade(s.product, from.bounds, to.bounds)
  }

  predicate HeldAt(s: State, at: real) { s.held.Some? && s.held.value > at }

  predicate Running(s: State) { HeldAt(s, s.now) }

  predicate Enabled(s: State, e: Event) {
    s.now < e.at &&
    match e
    case Use(u, _) =>
      && (u.people <= s.used.people || PeopleFit(s.product, s.licence.bounds, Counted(u)))
      && (u.devices <= s.used.devices || DevicesFit(s.product, s.licence.bounds, Counted(u)))
    case ReadStripe(stamp, at) => stamp <= at
    case Apply(r, _, at) => r in s.inFlight && at < r.stamp + APPLY
    case Begin(to, _) => s.phase.Free? && !(to == s.billed && s.pending.None?)
    case Check(_) => s.phase.Checking?
    case Ask(_) => s.phase.Checked?
    case Serve(id, _, at) => id in s.live && id < |s.requests| && at <= s.requests[id].deadline
    case Pay(_) => s.pending.Some?
    case Expire(_) => s.pending.Some?
    case Refuse(_) => s.phase.Asked? && s.phase.id in s.live && s.phase.id < |s.requests|
    case Restore(_) => s.phase.NotMade?
    case Learn(_) =>
      && s.phase.Asked? && s.phase.id < |s.requests| && s.requests[s.phase.id].downgrade
      && s.pending.None? && s.billed == s.phase.to
    case Mark(_) => s.phase.Seen?
    case MarkFails(_) => s.phase.Seen?
    case Release(_) => s.phase.Marked?
    case GiveUp(_) => s.phase.Asked? && s.phase.id < |s.requests|
    case Stop(_) => true
    case Settle(at) => s.phase.Free? && s.held.Some? && s.held.value <= at
  }

  /** UpdateLicenseFromSubscriptionReadTerms. */
  function Applied(s: State, r: Read, restricted: bool, at: real): State {
    if r.stamp < s.synced then s
    else if HeldAt(s, at) && r.terms != s.licence then (if restricted then s else s.(synced := r.stamp))
    else s.(licence := r.terms, synced := r.stamp, held := if restricted then s.held else None)
  }

  /** LowerLicenseTerms, then the request to Stripe. */
  function Lowered(s: State, at: real): State
    requires s.phase.Checked?
  {
    var Checked(from, to) := s.phase;
    if IsDowngrade(s, from, to) then
      if !Passes(s, from, to, s.used) then s.(phase := Free)
      else Requested(s.(licence := to, synced := at, held := Some(at + HOLD)), s.licence, from, to, true, at)
    else Requested(s, s.licence, from, to, false, at)
  }

  function Requested(s: State, prev: Terms, from: Terms, to: Terms, downgrade: bool, at: real): State {
    s.(requests := s.requests + [Request(from, to, downgrade, at + ATTEMPT)],
       live := s.live + {|s.requests|}, phase := Asked(to, prev, |s.requests|))
  }

  function Served(s: State, id: nat, waits: bool): State
    requires id < |s.requests|
  {
    var r := s.requests[id];
    var t := s.(live := s.live - {id}, served := if id < s.served then s.served else id + 1);
    if waits && !r.downgrade then t.(pending := Some(r.to)) else t.(billed := r.to, pending := None)
  }

  function Next(s: State, e: Event): State
    requires Enabled(s, e)
  {
    (match e
     case Use(u, _) => s.(used := u)
     case ReadStripe(stamp, _) => s.(inFlight := s.inFlight + {Read(stamp, s.billed)})
     case Apply(r, restricted, at) => Applied(s, r, restricted, at)
     case Begin(to, _) => s.(phase := Checking(s.billed, to))
     case Check(at) =>
       var Checking(from, to) := s.phase;
       if (HeldAt(s, at) && to != s.licence) || Mixed(s.product, from.bounds, to.bounds) then s.(phase := Free)
       else s.(phase := Checked(from, to))
     case Ask(at) => Lowered(s, at)
     case Serve(id, waits, _) => Served(s, id, waits)
     case Pay(_) => s.(billed := s.pending.value, pending := None)
     case Expire(_) => s.(pending := None)
     case Refuse(_) =>
       s.(live := s.live - {s.phase.id},
          phase := NotMade(s.phase.to, s.phase.prev, s.requests[s.phase.id].downgrade))
     case Restore(at) =>
       var p := s.phase;
       if p.downgrade && p.prev != p.to && s.licence == p.to
       then s.(licence := p.prev, synced := at, held := None, phase := Free)
       else s.(phase := Free)
     case Learn(_) => s.(phase := Seen(s.phase.to))
     case Mark(at) => s.(synced := at, phase := Marked(s.phase.to))
     case MarkFails(_) => s.(phase := Marked(s.phase.to))
     case Release(_) => s.(held := None, phase := Free)
     case GiveUp(at) => s.(synced := if s.requests[s.phase.id].downgrade then at else s.synced, phase := Free)
     case Stop(_) => s.(phase := Free)
     case Settle(_) => s.(held := None)).(now := e.at)
  }

  /** Nothing in use, and nothing the licence offers, is more than Stripe bills. */
  ghost predicate Safe(s: State) { Leq(s, s.licence, s.billed) && Fits(s, s.used, s.billed) }

  lemma LeqTransitive(s: State, b: Terms, c: Terms)
    requires Leq(s, b, c)
    ensures forall a :: Leq(s, a, b) ==> Leq(s, a, c)
    ensures forall a :: Leq(s, c, a) ==> Leq(s, b, a)
    ensures forall u :: Fits(s, u, b) ==> Fits(s, u, c)
  {
  }

  // ---------------------------------------------- what Stripe may yet do

  /** Stripe may yet make this change, in its turn. */
  ghost predicate Due(s: State, i: nat) {
    i in s.live && s.served <= i < |s.requests| && s.now < s.requests[i].deadline
  }

  ghost predicate Open(s: State, k: nat) { Due(s, k) && s.requests[k].downgrade }

  function To(s: State, i: nat): Terms
    requires i < |s.requests|
  {
    s.requests[i].to
  }

  /**
   With x billed and the requests before j behind it, Stripe may come to bill what i asks for. It
   makes an upgrade only over less, which a downgrade due before it may leave.
   */
  ghost predicate Can(s: State, x: Terms, j: nat, i: nat) {
    && Due(s, i) && j <= i
    && (|| s.requests[i].downgrade || Leq(s, x, To(s, i))
        || exists d: nat :: j <= d < i && Open(s, d) && Leq(s, To(s, d), To(s, i)))
  }

  /** From there, nothing Stripe can come to bill before k is made is more than k asks for. */
  ghost predicate Calm(s: State, x: Terms, j: nat, k: nat)
    requires k < |s.requests|
  {
    Leq(s, x, To(s, k)) && forall i: nat :: i < k && Can(s, x, j, i) ==> Leq(s, To(s, i), To(s, k))
  }

  ghost predicate AllCalm(s: State, x: Terms, j: nat) {
    forall k: nat :: Open(s, k) && j <= k ==> Calm(s, x, j, k)
  }

  // -------------------------------------------- the count under the lock

  /** Every limit that going from what is billed would lower is one the checked change was found to lower. */
  predicate CountCovers(s: State, from: Terms, to: Terms) {
    && (LowersSeats(s.product, s.billed.bounds, to.bounds) ==> LowersSeats(s.product, from.bounds, to.bounds))
    && (LowersDevices(s.product, s.billed.bounds, to.bounds) ==> LowersDevices(s.product, from.bounds, to.bounds))
  }

  /** The count lets a change through with this in use. */
  predicate Passes(s: State, from: Terms, to: Terms, u: Usage) {
    OverLimit(s.product, from.bounds, to.bounds, false, Counted(u)).None?
  }

  /**
   What the count under the licence lock covers: whatever is in use within what Stripe bills fits
   the lower terms if, and only if, every limit lowered against what is billed is one the change
   was found to lower when it was checked.
   */
  lemma LowerCheckIsExact(s: State, from: Terms, to: Terms)
    ensures (forall u :: Fits(s, u, s.billed) && Passes(s, from, to, u) ==> Fits(s, u, to))
            <==> CountCovers(s, from, to)
  {
    var p, q := Usage(to.bounds.seats + 1, 0), Usage(0, to.bounds.devices + 1);
    if forall u :: Fits(s, u, s.billed) && Passes(s, from, to, u) ==> Fits(s, u, to) {
      assert Fits(s, p, s.billed) && Passes(s, from, to, p) ==> Fits(s, p, to);
      assert Fits(s, q, s.billed) && Passes(s, from, to, q) ==> Fits(s, q, to);
    }
  }

  // ---------------------------------------------------- the conditions

  /**
   What is billed has not moved, since a change was checked, so far that the change goes the other
   way: a downgrade asks for no more than is billed, and lowers no limit of that but those it was
   found to lower; an upgrade still raises what is billed.
   */
  predicate Undisturbed(s: State, e: Event)
    requires Enabled(s, e)
  {
    && (e.Ask? && IsDowngrade(s, s.phase.from, s.phase.to) && Next(s, e).phase.Asked? ==>
          Leq(s, s.phase.to, s.billed) && CountCovers(s, s.phase.from, s.phase.to))
    && (e.Serve? && !s.requests[e.id].downgrade && s.served <= e.id ==> Leq(s, s.billed, s.requests[e.id].to))
  }

  /** Stripe makes the changes asked of one subscription in turn, but for those that change nothing. */
  predicate InOrder(s: State, e: Event)
    requires Enabled(s, e)
  {
    e.Serve? ==>
      || s.served <= e.id
      || (&& s.billed == s.requests[e.id].to && s.pending.None?
          && (s.requests[e.id].downgrade || !e.waits))
  }

  /** This step ends a hold that still runs, on a read that shows the held terms. */
  predicate EndsHold(s: State, e: Event) {
    e.Apply? && !e.restricted && s.synced <= e.r.stamp && HeldAt(s, e.at) && e.r.terms == s.licence
  }

  /**
   When a hold ends, or is about to without the stamp that should go before, no read that the row
   may still take is on its way with more than Stripe bills.
   */
  predicate Uncrossed(s: State, e: Event) {
    && (EndsHold(s, e) ==> Within(s, e.r.stamp, e.at))
    && (e.MarkFails? ==> Within(s, s.synced, e.at))
  }

  /** No read with this stamp or a later one is still to come with more than Stripe bills. */
  predicate Within(s: State, stamp: real, at: real) {
    forall q :: q in s.inFlight && stamp <= q.stamp && at < q.stamp + APPLY ==> Leq(s, q.terms, s.billed)
  }

  /** With these terms billed, and the requests before j behind them, Stripe can bill no more. */
  ghost predicate NoMore(s: State, to: Terms, j: nat) {
    forall i: nat :: Can(s, to, j, i) ==> Leq(s, To(s, i), to)
  }

  /** Whenever Stripe can come to bill these terms, what it can bill after them is no more. */
  ghost predicate ShowsCalmly(s: State, to: Terms) {
    && (s.billed == to ==> (s.pending.Some? ==> Leq(s, s.pending.value, to)) && NoMore(s, to, s.served))
    && (s.pending == Some(to) ==> NoMore(s, to, s.served))
    && (forall i: nat :: Can(s, s.billed, s.served, i) && To(s, i) == to ==> NoMore(s, to, i + 1))
  }

  /** A downgrade is not lowered to terms whose showing could end its hold with an upgrade still due. */
  ghost predicate Unraised(s: State, e: Event)
    requires Enabled(s, e)
  {
    e.Ask? && IsDowngrade(s, s.phase.from, s.phase.to) && Next(s, e).phase.Asked? ==>
      ShowsCalmly(s.(now := e.at), s.phase.to)
  }

  // --------------------------------------------------------- whole runs

  /** Which of the conditions a run is held to. */
  datatype Rules = Rules(undisturbed: bool, inOrder: bool, uncrossed: bool, unraised: bool)

  const ALL := Rules(true, true, true, true)
  const SOUND := Rules(true, true, true, false)

  ghost predicate Allowed(s: State, e: Event, r: Rules) {
    && Enabled(s, e)
    && (r.undisturbed ==> Undisturbed(s, e))
    && (r.inOrder ==> InOrder(s, e))
    && (r.uncrossed ==> Uncrossed(s, e))
    && (r.unraised ==> Unraised(s, e))
  }

  ghost predicate Follows(s: State, es: seq<Event>, r: Rules)
    decreases |es|, 0
  {
    es == [] ||
    (Follows(s, es[..|es| - 1], r) && Allowed(End(s, es[..|es| - 1], r), es[|es| - 1], r))
  }

  ghost function End(s: State, es: seq<Event>, r: Rules): State
    requires Follows(s, es, r)
    decreases |es|, 1
  {
    if es == [] then s else Next(End(s, es[..|es| - 1], r), es[|es| - 1])
  }

  ghost predicate Reaches(s: State, t: State, r: Rules) {
    exists es :: Follows(s, es, r) && End(s, es, r) == t
  }

  lemma Go(s: State, t: State, e: Event, u: State, r: Rules)
    requires Reaches(s, t, r) && Allowed(t, e, r) && Next(t, e) == u
    ensures Reaches(s, u, r)
  {
    var es :| Follows(s, es, r) && End(s, es, r) == t;
    assert (es + [e])[..|es|] == es;
    assert Follows(s, es + [e], r);
  }

  /** A licence in line with its subscription; the only change under way may be one waiting for payment. */
  predicate Start(s: State) {
    && s.licence == s.billed && Fits(s, s.used, s.billed)
    && (s.pending.Some? ==> Leq(s, s.billed, s.pending.value))
    && s.held.None? && s.inFlight == {} && s.requests == [] && s.live == {} && s.served == 0
    && s.phase.Free? && s.synced <= s.now
  }

  // ------------------------------------------------ in every run at all

  ghost predicate Clocked(s: State) {
    && s.synced <= s.now && s.served <= |s.requests| && (forall i :: i in s.live ==> i < |s.requests|)
    && (forall r :: r in s.inFlight ==> r.stamp <= s.now)
    && (forall i :: 0 <= i < |s.requests| ==> s.requests[i].deadline <= s.now + ATTEMPT)
    && (s.held.Some? ==> forall i :: 0 <= i < |s.requests| && s.requests[i].downgrade ==>
          s.requests[i].deadline + APPLY < s.held.value)
  }

  /** While a hold runs the licence has the terms of the change that set it. */
  ghost predicate Steady(s: State) {
    match s.phase
    case Checked(from, to) => !Mixed(s.product, from.bounds, to.bounds) && (Running(s) ==> s.licence == to)
    case Asked(to, _, id) =>
      id == |s.requests| - 1 && s.requests[id].to == to && (s.requests[id].downgrade && Running(s) ==> s.licence == to)
    case NotMade(to, _, downgrade) => downgrade && Running(s) ==> s.licence == to
    case Seen(to) => Running(s) ==> s.licence == to
    case Marked(to) => Running(s) ==> s.licence == to
    case _ => true
  }

  /** An upgrade asks for no less than what it was asked over. */
  ghost predicate Raising(s: State) {
    forall i :: 0 <= i < |s.requests| && !s.requests[i].downgrade ==> Leq(s, s.requests[i].from, s.requests[i].to)
  }

  ghost predicate Formed(s: State) { Clocked(s) && Steady(s) && Raising(s) }

  lemma AskForms(s: State, e: Event)
    requires Formed(s) && e.Ask? && Enabled(s, e)
    ensures Formed(Next(s, e))
  {
    var t := Next(s, e);
    ChangesCompare(s.product, s.phase.from.bounds, s.phase.to.bounds);
    assert forall i :: 0 <= i < |s.requests| ==> t.requests[i] == s.requests[i];
  }

  lemma ApplyForms(s: State, e: Event)
    requires Formed(s) && e.Apply? && Enabled(s, e)
    ensures Formed(Next(s, e))
  {
  }

  /** Steps Stripe makes. */
  lemma ServeForms(s: State, e: Event)
    requires Formed(s) && (e.Serve? || e.Pay? || e.Expire? || e.ReadStripe? || e.Use?) && Enabled(s, e)
    ensures Formed(Next(s, e))
  {
  }

  /** Steps of the change under way. */
  lemma PhaseForms(s: State, e: Event)
    requires Formed(s) && (e.Begin? || e.Check? || e.Refuse? || e.Restore? || e.Learn?) && Enabled(s, e)
    ensures Formed(Next(s, e))
  {
  }

  lemma StopForms(s: State, e: Event)
    requires Formed(s) && Enabled(s, e)
    requires e.Mark? || e.MarkFails? || e.Release? || e.GiveUp? || e.Stop? || e.Settle?
    ensures Formed(Next(s, e))
  {
  }

  lemma StepForms(s: State, e: Event)
    requires Formed(s) && Enabled(s, e)
    ensures Formed(Next(s, e))
  {
    if e.Ask? {
      AskForms(s, e);
    } else if e.Apply? {
      ApplyForms(s, e);
    } else if e.Serve? || e.Pay? || e.Expire? || e.ReadStripe? || e.Use? {
      ServeForms(s, e);
    } else if e.Begin? || e.Check? || e.Refuse? || e.Restore? || e.Learn? {
      PhaseForms(s, e);
    } else {
      StopForms(s, e);
    }
  }

  lemma {:induction false} RunForms(s: State, es: seq<Event>, r: Rules)
    requires Formed(s) && Follows(s, es, r)
    ensures Formed(End(s, es, r))
  {
    if es == [] {
    } else {
      RunForms(s, es[..|es| - 1], r);
      StepForms(End(s, es[..|es| - 1], r), es[|es| - 1]);
    }
  }

  /** What is billed is what the change was read over. */
  predicate Unmoved(s: State, e: Event)
    requires Enabled(s, e)
  {
    && (e.Ask? ==> s.billed == s.phase.from)
    && (e.Serve? && !s.requests[e.id].downgrade ==> s.billed == s.requests[e.id].from)
  }

  /** Then nothing is disturbed: a change that is not mixed lowers what it was found to lower, and raises nothing. */
  lemma UnmovedIsUndisturbed(s: State, e: Event)
    requires Formed(s) && Enabled(s, e) && Unmoved(s, e)
    ensures Undisturbed(s, e)
  {
    if e.Ask? { ChangesCompare(s.product, s.phase.from.bounds, s.phase.to.bounds); }
  }

  // ------------------------------------------------- where changes end

  /** The change under way at s is under way all through a run. */
  ghost predicate Underway(s: State, es: seq<Event>, r: Rules)
    requires Follows(s, es, r)
  {
    !End(s, es, r).phase.Free? && (es == [] || Underway(s, es[..|es| - 1], r))
  }

  /** It goes on with the terms it was asked for and those it replaced. */
  lemma {:induction false} Carries(s: State, es: seq<Event>, r: Rules)
    requires Formed(s) && s.phase.Asked? && s.requests[s.phase.id].downgrade && Follows(s, es, r) && Underway(s, es, r)
    ensures Formed(End(s, es, r)) && End(s, es, r).requests == s.requests
    ensures match End(s, es, r).phase
            case Asked(to, prev, id) => to == s.phase.to && prev == s.phase.prev && id == s.phase.id
            case NotMade(to, prev, downgrade) => to == s.phase.to && prev == s.phase.prev && downgrade
            case Seen(to) => to == s.phase.to
            case Marked(to) => to == s.phase.to
            case _ => false
  {
    if es == [] {
    } else {
      Carries(s, es[..|es| - 1], r);
      StepForms(End(s, es[..|es| - 1], r), es[|es| - 1]);
    }
  }

  /**
   Whatever happens between the asking and the putting back (reads, payments, other requests
   served, slots taken and freed), a downgrade Stripe refuses while its hold runs leaves the
   licence with the terms it had.
   */
  lemma RefusedGivesBack(s: State, at: real, es: seq<Event>, r: Rules, z: real)
    requires Formed(s) && Enabled(s, Ask(at)) && IsDowngrade(s, s.phase.from, s.phase.to)
    requires Next(s, Ask(at)).phase.Asked?
    requires Follows(Next(s, Ask(at)), es, r) && Underway(Next(s, Ask(at)), es, r)
    requires Running(End(Next(s, Ask(at)), es, r)) && Enabled(End(Next(s, Ask(at)), es, r), Restore(z))
    ensures var t := Next(End(Next(s, Ask(at)), es, r), Restore(z));
            t.licence == s.licence && t.phase.Free? && (s.licence != s.phase.to ==> t.held.None?)
  {
    StepForms(s, Ask(at));
    Carries(Next(s, Ask(at)), es, r);
  }

  /** And one it makes leaves it with the terms asked for, and nothing held. */
  lemma MadeIsReleased(s: State, at: real, es: seq<Event>, r: Rules, z: real)
    requires Formed(s) && Enabled(s, Ask(at)) && IsDowngrade(s, s.phase.from, s.phase.to)
    requires Next(s, Ask(at)).phase.Asked?
    requires Follows(Next(s, Ask(at)), es, r) && Underway(Next(s, Ask(at)), es, r)
    requires Running(End(Next(s, Ask(at)), es, r)) && Enabled(End(Next(s, Ask(at)), es, r), Release(z))
    ensures var t := Next(End(Next(s, Ask(at)), es, r), Release(z));
            t.licence == s.phase.to && t.phase.Free? && t.held.None?
  {
    StepForms(s, Ask(at));
    Carries(Next(s, Ask(at)), es, r);
  }

  /** Whatever happened, once no hold runs a new read puts the licence in line with what is billed. */
  lemma NewReadSettles(s: State, at: real, z: real)
    requires Formed(s) && s.now < at < z < at + APPLY && !HeldAt(s, z)
    ensures var a, r := Next(s, ReadStripe(at, at)), Read(at, s.billed);
            && Enabled(a, Apply(r, false, z))
            && var t := Next(a, Apply(r, false, z)); t.licence == s.billed && t.held.None?
  {
  }

  /**
   A licence an operator suspended takes the terms Stripe bills all the same, so that it does not
   come back with seats nobody pays for; a lapsed hold is left for the sweep.
   */
  lemma SuspendedTakesTerms(s: State, at: real, z: real)
    requires Formed(s) && s.now < at < z < at + APPLY && !HeldAt(s, z)
    ensures var a, r := Next(s, ReadStripe(at, at)), Read(at, s.billed);
            && Enabled(a, Apply(r, true, z))
            && var t := Next(a, Apply(r, true, z));
               t.licence == s.billed && t.synced == at && t.held == s.held && t.used == s.used && t.phase == s.phase
  {
  }

  /** While a hold runs, a read that does not show its terms moves the stamp at most, and not on a suspended licence. */
  lemma HoldKeepsTerms(s: State, r: Read, restricted: bool, at: real)
    requires Enabled(s, Apply(r, restricted, at)) && HeldAt(s, at) && r.terms != s.licence
    ensures Next(s, Apply(r, restricted, at)) ==
            s.(now := at, synced := if restricted || r.stamp < s.synced then s.synced else r.stamp)
  {
  }

  /** One that shows them ends it, unless the licence is suspended; one older than the stamp does nothing. */
  lemma ShowingEndsHold(s: State, r: Read, restricted: bool, at: real)
    requires Enabled(s, Apply(r, restricted, at)) && HeldAt(s, at) && r.terms == s.licence
    ensures Next(s, Apply(r, restricted, at)) ==
            if r.stamp < s.synced then s.(now := at)
            else s.(now := at, synced := r.stamp, held := if restricted then s.held else None)
  {
  }

  /** A change asked for, up to its request: what it is read over, refused for, lowered to and held until. */
  lemma ChangeIsAsked(s: State, to: Terms, a: real, b: real, c: real)
    requires s.phase.Free? && (to != s.billed || s.pending.Some?) && s.now < a < b < c
    ensures var t := Next(s, Begin(to, a));
            && Enabled(t, Check(b))
            && var u := Next(t, Check(b));
               if (HeldAt(s, b) && to != s.licence) || (!Leq(s, to, s.billed) && !Leq(s, s.billed, to)) then
                 u == s.(now := b)
               else
                 && Enabled(u, Ask(c))
                 && var v := Next(u, Ask(c));
                    if Leq(s, s.billed, to) then
                      v == s.(now := c, requests := s.requests + [Request(s.billed, to, false, c + 66.0)],
                              live := s.live + {|s.requests|}, phase := Asked(to, s.licence, |s.requests|))
                    else if !Passes(s, s.billed, to, s.used) then v == s.(now := c)
                    else
                      v == s.(now := c, licence := to, synced := c, held := Some(c + 600.0),
                              requests := s.requests + [Request(s.billed, to, true, c + 66.0)],
                              live := s.live + {|s.requests|}, phase := Asked(to, s.licence, |s.requests|))
  {
    ChangesCompare(s.product, s.billed.bounds, to.bounds);
    MixedIsExact(s.product, s.billed.bounds, to.bounds);
  }

  /** Stripe bills a change at once, unless it waits for payment; paid, it is billed, and run out, dropped. */
  lemma StripeMakes(s: State, id: nat, waits: bool, a: real, b: real)
    requires Enabled(s, Serve(id, waits, a)) && a < b
    ensures var t, to := Next(s, Serve(id, waits, a)), s.requests[id].to;
            if s.requests[id].downgrade || !waits then
              t.billed == to && t.pending.None? && t.licence == s.licence
            else
              && t.billed == s.billed && t.pending == Some(to) && Enabled(t, Pay(b)) && Enabled(t, Expire(b))
              && Next(t, Pay(b)).billed == to && Next(t, Pay(b)).pending.None?
              && Next(t, Expire(b)).billed == s.billed && Next(t, Expire(b)).pending.None?
  {
  }

  /** No answer leaves a downgrade's terms held, reads from before it out of date, and the hold for the sweep to end. */
  lemma GivenUpIsSwept(s: State, a: real, b: real)
    requires Enabled(s, GiveUp(a)) && s.requests[s.phase.id].downgrade && s.held.Some? && a < b && s.held.value <= b
    ensures var t := Next(s, GiveUp(a));
            && t == s.(now := a, synced := a, phase := Free) && Enabled(t, Settle(b))
            && Next(t, Settle(b)) == s.(now := b, synced := a, held := None, phase := Free)
  {
  }

  /** Seen to be made, a downgrade stamps the row, gives its hold up, and leaves the rest as it was. */
  lemma SeenIsReleased(s: State, a: real, b: real, c: real)
    requires Enabled(s, Learn(a)) && a < b < c
    ensures var t := Next(s, Learn(a));
            && Enabled(t, Mark(b)) && Enabled(Next(t, Mark(b)), Release(c))
            && Next(Next(t, Mark(b)), Release(c)) == s.(now := c, synced := b, held := None, phase := Free)
  {
  }
}
