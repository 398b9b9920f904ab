/**
 What a plan holds, and what a requested change of plan or seats does to it:
 the checks a change passes before Stripe is asked for anything.
 */
module PlanLimits {
  import opened Common

  datatype ProductType = Desktop | SaaS | Hybrid | Unknown
  datatype Capability = Activations | Seats | Releases

  predicate Supports(t: ProductType, c: Capability) {
    match t
    case Desktop => c == Activations || c == Releases
    case SaaS => c == Seats
    case Hybrid => true
    case Unknown => false
  }

  /** How many people and devices a licence holds: 0 seats is no limit, 0 devices is none. */
  datatype Bounds = Bounds(seats: nat, devices: nat)

  datatype Plan = Plan(
    perSeat: bool, maxSeats: nat, maxActivations: nat, minQuantity: int, maxQuantity: int, floating: bool)
  {
    function Limits(quantity: int): Bounds {
      if !perSeat then Bounds(maxSeats, maxActivations)
      else
        var q := if quantity < 1 then 1 else quantity;
        Bounds(q, maxActivations * q)
    }
  }

  /** A quantity read from Stripe, kept inside what a licence row holds. */
  function Clamp(q: int): int {
    if q < 1 then 1 else if q > 0x7fff_ffff then 0x7fff_ffff else q
  }

  datatype InUse = InUse(people: nat, activations: nat, sessions: nat)

  /** a is a lower seat limit than b. */
  predicate FewerSeats(a: nat, b: nat) { a > 0 && (b == 0 || a < b) }

  predicate LowersSeats(t: ProductType, was: Bounds, now: Bounds) {
    Supports(t, Seats) && FewerSeats(now.seats, was.seats)
  }

  predicate LowersDevices(t: ProductType, was: Bounds, now: Bounds) {
    Supports(t, Activations) && now.devices < was.devices
  }

  predicate Downgrade(t: ProductType, was: Bounds, now: Bounds) {
    LowersSeats(t, was, now) || LowersDevices(t, was, now)
  }

  /** Lowers one limit and raises the other; never let through as a downgrade. */
  predicate Mixed(t: ProductType, was: Bounds, now: Bounds) {
    || (LowersSeats(t, was, now) && LowersDevices(t, now, was))
    || (LowersDevices(t, was, now) && LowersSeats(t, now, was))
  }

  /** Nothing a product of this type uses is larger in a than in b. */
  predicate AtMost(t: ProductType, a: Bounds, b: Bounds) {
    !LowersSeats(t, a, b) && !LowersDevices(t, a, b)
  }

  datatype Kind = Activation | Session

  datatype Refusal =
    | NotPerSeat | QuantityOutOfRange | NoChange | PaymentUnsupported
    | SeatsInUse(inUse: nat, limit: nat)
    | DevicesInUse(kind: Kind, inUse: nat, limit: nat)

  /** Refuses a downgrade below what is in use; naming what is over it. */
  function OverLimit(t: ProductType, was: Bounds, now: Bounds, floating: bool, u: InUse): Option<Refusal> {
    if LowersSeats(t, was, now) && u.people > now.seats then Some(SeatsInUse(u.people, now.seats))
    else if LowersDevices(t, was, now) then
      var sessions := floating && u.sessions > now.devices && u.sessions >= u.activations;
      var n := if sessions then u.sessions else u.activations;
      if n > now.devices then Some(DevicesInUse(if sessions then Session else Activation, n, now.devices)) else None
    else None
  }

  datatype Change = Change(to: Plan, quantity: int, done: bool, keep: bool, downgrade: bool, mixed: bool)
  datatype Outcome = Refused(why: Refusal) | Resolved(change: Change)

  /**
   The decision part of resolveChange. `item` is the quantity Stripe bills, `target` the plan of
   another price when one is asked for, `wanted` the quantity asked for (0 keeps it), `pending`
   whether a change waits for payment, `made` whether finding it made already is fine, and
   `holds` whether Stripe can hold a charged change until it is paid.
   */
  function Resolve(t: ProductType, from: Plan, item: int, target: Option<Plan>, wanted: nat,
                   pending: bool, made: bool, holds: bool, used: InUse): Outcome {
    var same := target.None?;
    var to := if same then from else target.value;
    var asked := if wanted == 0 then Clamp(item) else wanted;
    var own := if from.perSeat then 1 else Clamp(item);
    if !to.perSeat && wanted > 1 && wanted != own then Refused(NotPerSeat)
    else
      var quantity := if to.perSeat then asked else own;
      var still := same && quantity == item;
      if to.perSeat && !still && (quantity < to.minQuantity || quantity > to.maxQuantity)
      then Refused(QuantityOutOfRange)
      else if still && !pending && !made then Refused(NoChange)
      else
        var was, now := from.Limits(Clamp(item)), to.Limits(quantity);
        var change := Change(to, quantity, still && !pending, still && pending,
                             Downgrade(t, was, now), Mixed(t, was, now));
        if still then Resolved(change)
        else if !change.downgrade then (if holds then Resolved(change) else Refused(PaymentUnsupported))
        else
          match OverLimit(t, was, now, to.floating, used)
          case Some(r) => Refused(r)
          case None => Resolved(change)
  }

  predicate PeopleFit(t: ProductType, b: Bounds, u: InUse) {
    Supports(t, Seats) ==> b.seats == 0 || u.people <= b.seats
  }

  predicate DevicesFit(t: ProductType, b: Bounds, u: InUse) {
    Supports(t, Activations) ==> u.activations <= b.devices
  }

  predicate SessionsFit(t: ProductType, b: Bounds, floating: bool, u: InUse) {
    Supports(t, Activations) && floating ==> u.sessions <= b.devices
  }

  /** A refusal names a count above a limit that is lowered, and nothing lowered is exceeded without one. */
  lemma OverLimitIsExact(t: ProductType, was: Bounds, now: Bounds, floating: bool, u: InUse)
    ensures OverLimit(t, was, now, floating, u).None? <==>
              && (LowersSeats(t, was, now) ==> PeopleFit(t, now, u))
              && (LowersDevices(t, was, now) ==> DevicesFit(t, now, u) && SessionsFit(t, now, floating, u))
    ensures match OverLimit(t, was, now, floating, u)
            case Some(SeatsInUse(n, limit)) => n == u.people > limit == now.seats
            case Some(DevicesInUse(kind, n, limit)) =>
              n > limit == now.devices && n == if kind == Session then u.sessions else u.activations
            case _ => true
  {
  }

  lemma Scales(m: nat, p: int, q: int)
    requires p <= q
    ensures m * p <= m * q
  {
  }

  /** Any change let through leaves what was within the old limits within the new ones. */
  lemma ChangeKeepsInUse(t: ProductType, from: Plan, item: int, target: Option<Plan>, wanted: nat,
                         pending: bool, made: bool, holds: bool, used: InUse)
    requires Resolve(t, from, item, target, wanted, pending, made, holds, used).Resolved?
    ensures var ch := Resolve(t, from, item, target, wanted, pending, made, holds, used).change;
            var was, now := from.Limits(Clamp(item)), ch.to.Limits(ch.quantity);
            && (PeopleFit(t, was, used) ==> PeopleFit(t, now, used))
            && (DevicesFit(t, was, used) ==> DevicesFit(t, now, used))
            && (SessionsFit(t, was, ch.to.floating, used) ==> SessionsFit(t, now, ch.to.floating, used))
  {
    var ch := Resolve(t, from, item, target, wanted, pending, made, holds, used).change;
    var was, now := from.Limits(Clamp(item)), ch.to.Limits(ch.quantity);
    OverLimitIsExact(t, was, now, ch.to.floating, used);
    if (ch.done || ch.keep) && from.perSeat {
      Scales(from.maxActivations, Clamp(item), ch.quantity);
    }
  }

  /** A downgrade that is not mixed raises nothing; a change that is no downgrade lowers nothing. */
  lemma ChangesCompare(t: ProductType, was: Bounds, now: Bounds)
    ensures Downgrade(t, was, now) && !Mixed(t, was, now) ==> AtMost(t, now, was) && !AtMost(t, was, now)
    ensures !Downgrade(t, was, now) <==> AtMost(t, was, now)
  {
  }

  /** What each kind of product has. */
  lemma Capabilities()
    ensures Supports(Desktop, Activations) && Supports(Desktop, Releases) && !Supports(Desktop, Seats)
    ensures Supports(SaaS, Seats) && !Supports(SaaS, Activations) && !Supports(SaaS, Releases)
    ensures forall c :: Supports(Hybrid, c) && !Supports(Unknown, c)
  {
  }

  /** A limit is lowered exactly when something fitted it before and does not now. */
  lemma LowersIsExact(t: ProductType, was: Bounds, now: Bounds)
    ensures LowersSeats(t, was, now) <==> exists n: nat :: Room(t, was, n, 0) && !Room(t, now, n, 0)
    ensures LowersDevices(t, was, now) <==> exists n: nat :: Room(t, was, 0, n) && !Room(t, now, 0, n)
  {
    if LowersSeats(t, was, now) { assert Room(t, was, now.seats + 1, 0) && !Room(t, now, now.seats + 1, 0); }
    if LowersDevices(t, was, now) { assert Room(t, was, 0, now.devices + 1) && !Room(t, now, 0, now.devices + 1); }
  }

  /** A product of this type with these limits has room for so many people and devices. */
  predicate Room(t: ProductType, b: Bounds, people: nat, devices: nat) {
    && (t == SaaS || t == Hybrid ==> b.seats == 0 || people <= b.seats)
    && (t == Desktop || t == Hybrid ==> devices <= b.devices)
  }

  lemma FitIsRoom(t: ProductType, b: Bounds, u: InUse)
    ensures PeopleFit(t, b, u) && DevicesFit(t, b, u) <==> Room(t, b, u.people, u.activations)
    ensures SessionsFit(t, b, true, u) <==> Room(t, b, 0, u.sessions)
  {
  }

  /** A change is mixed exactly when each side has something the other has not. */
  lemma MixedIsExact(t: ProductType, was: Bounds, now: Bounds)
    ensures Mixed(t, was, now) <==> !AtMost(t, was, now) && !AtMost(t, now, was)
  {
  }

  /** Sold per seat, a plan holds the seats bought, at least one, and its devices for each; else what it says. */
  lemma LimitsOfPlan(p: Plan, quantity: int)
    ensures var b := p.Limits(quantity);
            if p.perSeat then
              && b.seats >= 1 && (quantity >= 1 ==> b.seats == quantity) && (quantity < 1 ==> b.seats == 1)
              && b.devices == p.maxActivations * b.seats
            else b.seats == p.maxSeats && b.devices == p.maxActivations
  {
  }

  /** The nearest quantity a licence row holds. */
  lemma ClampIsNearest(q: int, n: int)
    requires 1 <= n <= 2_147_483_647
    ensures 1 <= Clamp(q) <= 2_147_483_647
    ensures (if Clamp(q) < q then q - Clamp(q) else Clamp(q) - q) <= (if n < q then q - n else n - q)
  {
  }

  /**
   What a change let through is: to the plan asked for, or the one there is; of the quantity asked
   for, or the one billed; within what the plan sells, unless nothing changes; and a downgrade or
   not by the limits it leaves and those it comes to.
   */
  lemma ResolvedIsAsked(t: ProductType, from: Plan, item: int, target: Option<Plan>, wanted: nat,
                        pending: bool, made: bool, holds: bool, used: InUse)
    requires Resolve(t, from, item, target, wanted, pending, made, holds, used).Resolved?
    ensures var ch := Resolve(t, from, item, target, wanted, pending, made, holds, used).change;
            var still := target.None? && ch.quantity == item;
            && ch.to == (if target.Some? then target.value else from)
            && ch.quantity == (if ch.to.perSeat && wanted > 0 then wanted
                               else if !ch.to.perSeat && from.perSeat then 1 else Clamp(item))
            && (!ch.to.perSeat ==> wanted <= 1 || wanted == ch.quantity)
            && (ch.to.perSeat && !still ==> ch.to.minQuantity <= ch.quantity <= ch.to.maxQuantity)
            && ch.done == (still && !pending) && ch.keep == (still && pending)
            && ch.downgrade == !AtMost(t, from.Limits(Clamp(item)), ch.to.Limits(ch.quantity))
            && ch.mixed == (ch.downgrade && !AtMost(t, ch.to.Limits(ch.quantity), from.Limits(Clamp(item))))
  {
    var ch := Resolve(t, from, item, target, wanted, pending, made, holds, used).change;
    MixedIsExact(t, from.Limits(Clamp(item)), ch.to.Limits(ch.quantity));
  }

  /** What is refused, and for what: nothing else is. */
  lemma RefusedIsExact(t: ProductType, from: Plan, item: int, target: Option<Plan>, wanted: nat,
                       pending: bool, made: bool, holds: bool, used: InUse)
    ensures var to := if target.Some? then target.value else from;
            var own := if from.perSeat then 1 else Clamp(item);
            var quantity := if to.perSeat then (if wanted > 0 then wanted else Clamp(item)) else own;
            var still := target.None? && quantity == item;
            var was, now := from.Limits(Clamp(item)), to.Limits(quantity);
            match Resolve(t, from, item, target, wanted, pending, made, holds, used)
            case Refused(NotPerSeat) => !to.perSeat && wanted > 1 && wanted != own
            case Refused(QuantityOutOfRange) => to.perSeat && !still && !(to.minQuantity <= quantity <= to.maxQuantity)
            case Refused(NoChange) => still && !pending && !made
            case Refused(PaymentUnsupported) => !still && AtMost(t, was, now) && !holds
            case Refused(SeatsInUse(n, limit)) =>
              !still && n == used.people > limit == now.seats > 0 && LowersSeats(t, was, now)
            case Refused(DevicesInUse(kind, n, limit)) =>
              && !still && n > limit == now.devices && LowersDevices(t, was, now)
              && n == (if kind == Session then used.sessions else used.activations)
              && (kind == Session ==> to.floating && used.sessions >= used.activations)
            case Resolved(_) =>
              && !(!to.perSeat && wanted > 1 && wanted != own) && !(still && !pending && !made)
              && (still || holds || !AtMost(t, was, now))
  {
  }
}
