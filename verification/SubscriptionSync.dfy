/**
 How a licence follows its Stripe subscription: the guarded row write every
 subscription event ends in, what is announced about it, and what holds while
 reads, payloads and deletions of one subscription arrive late, twice and out
 of order.

 Stripe is a history of statuses. A read carries a stamp taken before Stripe
 answered. Instants are microseconds of the database clock.
 */
module SubscriptionSync {
  import opened Common

  datatype Status = Active | Trialing | PastDue | Suspended | Canceled | Expired | Revoked

  datatype By = Nobody | Stripe | Operator

  /** A subscription's status in Stripe, as far as a licence follows it. */
  datatype Sub = SubActive | SubTrialing | SubPastDue | SubPaused | SubCanceled | SubUnpaid

  /** `suspendedBy` is who suspended the licence; `synced` the newest stamp applied to it. */
  datatype Row = Row(status: Status, suspendedBy: By, pastDueAt: Option<int>, synced: Option<int>)
  {
    predicate WasStripePaused() { status == Suspended && suspendedBy == Stripe }
    predicate WasCanceled() { status == Canceled }
    predicate WasExpired() { status == Expired }
  }

  predicate Usable(s: Status) { s == Active || s == Trialing || s == PastDue }

  predicate Live(d: Sub) { d == SubActive || d == SubTrialing || d == SubPastDue }

  function Target(d: Sub): Status {
    match d
    case SubActive => Active
    case SubTrialing => Trialing
    case SubPastDue => PastDue
    case SubPaused => Suspended
    case SubCanceled => Canceled
    case SubUnpaid => Canceled
  }

  /** The write's own conditions on the row; `asOf` is absent for a payload. */
  predicate Accepts(row: Row, to: Status, asOf: Option<int>) {
    && row.status != Revoked
    && (asOf.Some? && row.synced.Some? ==> row.synced.value <= asOf.value)
    && (Usable(to) || to == Suspended ==> !(row.status == Suspended && row.suspendedBy != Stripe))
    && (Usable(to) ==>
          && !(row.status == Canceled && row.suspendedBy == Operator)
          && (asOf.None? ==> row.status != Canceled)
          && (to == PastDue ==> !(row.status == Expired && row.pastDueAt.Some?)))
    && (to == Suspended ==> row.status != Canceled)
  }

  /** The row once the write has landed; `copy` is past_due_at as the handler had read it. */
  function Put(row: Row, to: Status, asOf: Option<int>, copy: Option<int>, now: int): Row {
    Row(to,
        if Usable(to) then Nobody
        else if to == Suspended then Stripe
        else if row.WasStripePaused() then Nobody else row.suspendedBy,
        if to == Active || to == Canceled then None
        else if to == PastDue then (if row.status == PastDue && row.pastDueAt.Some? then row.pastDueAt else Some(now))
        else copy,
        if asOf.Some? then asOf else row.synced)
  }

  /**
   The row when the write is refused for the licence's own state: a current read of a live
   subscription that carries the plan and seats still writes those, and its stamp.
   */
  function Refused(row: Row, d: Sub, asOf: Option<int>, terms: bool): Row {
    if terms && Live(d) && asOf.Some? && (row.synced.None? || row.synced.value <= asOf.value)
    then row.(synced := asOf) else row
  }

  function Later(a: Option<int>, b: int): int { if a.Some? && a.value > b then a.value else b }

  /** The write for a subscription that is over: it moves the stamp up, never back. */
  function PutEnded(row: Row, stamp: int): Row {
    Put(row, Canceled, Some(Later(row.synced, stamp)), None, stamp)
  }

  datatype Notice = TellSuspended | TellReinstated | TellCanceled | TellExpired | TellRevoked

  /** What applySubscriptionState announces, from the row as its write found it. */
  function Tells(row: Row, d: Sub): Option<Notice> {
    if d == SubPaused && !row.WasStripePaused() then Some(TellSuspended)
    else if Live(d) && (row.WasStripePaused() || row.WasCanceled() || row.WasExpired()) then Some(TellReinstated)
    else if Target(d) == Canceled && !row.WasCanceled() then Some(TellCanceled)
    else None
  }

  /** A licence row and the handlers that write it, each under the row's lock. */
  class Licence {
    var row: Row

    constructor (row: Row)
      ensures this.row == row
    {
      this.row := row;
    }

    method ApplySubscriptionState(d: Sub, readAt: Option<int>, copy: Option<int>, terms: bool, now: int)
      returns (landed: bool, tell: Option<Notice>)
      modifies this
      ensures landed == Accepts(old(row), Target(d), readAt)
      ensures row == if landed then Put(old(row), Target(d), readAt, copy, now) else Refused(old(row), d, readAt, terms)
      ensures tell == if landed then Tells(old(row), d) else None
    {
      var prior, lic, usable := row, row.(pastDueAt := copy), false;
      match d {
        case SubActive => lic := lic.(status := Active, pastDueAt := None); usable := true;
        case SubPastDue => lic := lic.(status := PastDue, pastDueAt := Some(now)); usable := true;
        case SubTrialing => lic := lic.(status := Trialing); usable := true;
        case SubPaused => lic := lic.(status := Suspended, suspendedBy := Stripe);
        case _ => lic := lic.(status := Canceled, pastDueAt := None);
      }
      if usable { lic := lic.(suspendedBy := Nobody); }
      if lic.status == PastDue && prior.status == PastDue && prior.pastDueAt.Some? {
        lic := lic.(pastDueAt := prior.pastDueAt);
      }
      if lic.status == Canceled && prior.WasStripePaused() { lic := lic.(suspendedBy := Nobody); }
      if readAt.Some? { lic := lic.(synced := readAt); }
      landed := Accepts(prior, lic.status, readAt);
      tell := None;
      if !landed {
        if terms && usable && readAt.Some? && (prior.synced.None? || prior.synced.value <= readAt.value) {
          row := prior.(synced := readAt);
        }
        return;
      }
      row := lic;
      if d == SubPaused && !prior.WasStripePaused() {
        tell := Some(TellSuspended);
      } else if usable && prior.WasStripePaused() {
        tell := Some(TellReinstated);
      } else if usable && (prior.WasCanceled() || prior.WasExpired()) {
        tell := Some(TellReinstated);
      }
      if lic.status == Canceled && !prior.WasCanceled() { tell := Some(TellCanceled); }
    }

    /** onSubscriptionDeleted, and the portal's immediate cancel. */
    method End(asOf: int) returns (landed: bool, tell: Option<Notice>)
      modifies this
      ensures landed == (old(row).status != Revoked)
      ensures row == if landed then PutEnded(old(row), asOf) else old(row)
      ensures tell == if landed && old(row).status != Canceled then Some(TellCanceled) else None
    {
      landed, tell := row.status != Revoked, None;
      if landed {
        var stamp := asOf;
        if row.synced.Some? && row.synced.value > stamp { stamp := row.synced.value; }
        if row.status != Canceled { tell := Some(TellCanceled); }
        row := Row(Canceled, if row.WasStripePaused() then Nobody else row.suspendedBy, None, Some(stamp));
      }
    }
  }

  // ------------------------------------------------------- the system

  datatype Change = Change(at: int, sub: Sub)

  /** An answer from Stripe: stamped, then given at `at`, when the subscription was `sub`. */
  datatype Read = Read(stamp: int, at: int, sub: Sub)

  /** What a customer or a downstream system believes from the announcements. */
  datatype Belief = Works | Paused | Over | Lapsed | Gone

  /**
   `applied` is the read the row's status came from, if it came from one, and `newest` the newest
   stamp of a read or deletion written; `been` the statuses a handler may have read before its
   write; `told` what the announcements so far add up to.
   */
  datatype State = State(
    now: int, first: Sub, history: seq<Change>, inFlight: set<Read>,
    row: Row, applied: Option<Read>, newest: Option<int>, been: set<Status>, told: Belief)

  datatype Event =
    | Move(sub: Sub, at: int)                    // the subscription changes in Stripe
    | ReadStripe(stamp: int, at: int)
    | Apply(r: Read, copy: Option<int>, terms: bool, at: int) // a current read is written
    | Payload(sub: Sub, copy: Option<int>, at: int)
    | Paid(at: int)                              // invoice.paid without a current read
    | Failed(at: int)                            // invoice.payment_failed without a current read
    | Deleted(stamp: int, at: int)               // a deletion or an immediate cancel is written
    | Stamp(stamp: int, at: int)                 // a write moves the stamp and leaves the status alone
    | Expire(at: int)                            // the expiry sweeps
    | Suspend(at: int)                           // by an operator
    | Revoke(at: int)

  function HadAt(first: Sub, h: seq<Change>, t: int): Sub {
    if h == [] then first
    else if h[|h| - 1].at <= t then h[|h| - 1].sub
    else HadAt(first, h[..|h| - 1], t)
  }

  function Current(s: State): Sub { if s.history == [] then s.first else s.history[|s.history| - 1].sub }

  function Since(s: State): Option<int> {
    if s.history == [] then None else Some(s.history[|s.history| - 1].at)
  }

  predicate Enabled(s: State, e: Event) {
    s.now < e.at &&
    match e
    case Move(_, _) => Current(s) != SubCanceled
    case ReadStripe(stamp, at) => stamp <= at
    case Apply(r, _, _, _) => r in s.inFlight
    case Failed(_) => Active in s.been || Trialing in s.been
    case Deleted(stamp, at) =>
      Current(s) == SubCanceled && stamp <= at && (Since(s).Some? ==> Since(s).value <= stamp)
    case Stamp(stamp, at) => stamp <= at && (s.row.synced.Some? ==> s.row.synced.value <= stamp)
    case Expire(_) => Usable(s.row.status)
    case Suspend(_) => Usable(s.row.status)
    case _ => true
  }

  /** The status the step wants to write, and whether the row takes it. */
  predicate Lands(s: State, e: Event) {
    match e
    case Apply(r, _, _, _) => Accepts(s.row, Target(r.sub), Some(r.stamp))
    case Payload(d, _, _) => Accepts(s.row, Target(d), None)
    case Paid(_) => Accepts(s.row, Active, None)
    case Failed(_) => Accepts(s.row, PastDue, None)
    case Deleted(_, _) => s.row.status != Revoked
    case Expire(_) => true
    case Suspend(_) => true
    case Revoke(_) => true
    case _ => false
  }

  function Written(s: State, e: Event): Row {
    match e
    case Apply(r, copy, _, at) => Put(s.row, Target(r.sub), Some(r.stamp), copy, at)
    case Payload(d, copy, at) => Put(s.row, Target(d), None, copy, at)
    case Paid(at) => Put(s.row, Active, None, None, at)
    case Failed(at) => Put(s.row, PastDue, None, None, at).(suspendedBy := s.row.suspendedBy)
    case Deleted(stamp, _) => PutEnded(s.row, stamp)
    case Expire(_) => s.row.(status := Expired)
    case Suspend(_) => s.row.(status := Suspended, suspendedBy := Operator)
    case Revoke(_) => s.row.(status := Revoked)
    case _ => s.row
  }

  function Announces(s: State, e: Event): Option<Notice> {
    if !Lands(s, e) then None
    else
      match e
      case Apply(r, _, _, _) => Tells(s.row, r.sub)
      case Payload(d, _, _) => Tells(s.row, d)
      case Paid(_) => if s.row.WasStripePaused() || s.row.WasExpired() then Some(TellReinstated) else None
      case Deleted(_, _) => if s.row.WasCanceled() then None else Some(TellCanceled)
      case Expire(_) => Some(TellExpired)
      case Suspend(_) => Some(TellSuspended)
      case Revoke(_) => Some(TellRevoked)
      case _ => None
  }

  function Hear(b: Belief, n: Option<Notice>): Belief {
    match n
    case None => b
    case Some(TellSuspended) => Paused
    case Some(TellReinstated) => Works
    case Some(TellCanceled) => Over
    case Some(TellExpired) => Lapsed
    case Some(TellRevoked) => Gone
  }

  /** The same, read off the row. */
  function Stands(s: Status): Belief {
    match s
    case Suspended => Paused
    case Canceled => Over
    case Expired => Lapsed
    case Revoked => Gone
    case _ => Works
  }

  function Source(s: State, e: Event): Option<Read> {
    match e
    case Apply(r, _, _, _) => Some(r)
    case Deleted(stamp, at) => Some(Read(stamp, at, SubCanceled))
    case _ => None
  }

  function Newest(s: State, e: Event): Option<int> {
    match Source(s, e)
    case None => s.newest
    case Some(r) => Some(Later(s.newest, r.stamp))
  }

  function Next(s: State, e: Event): State
    requires Enabled(s, e)
  {
    var t := s.(now := e.at, told := Hear(s.told, Announces(s, e)));
    if Lands(s, e) then
      t.(row := Written(s, e), applied := Source(s, e), newest := Newest(s, e), been := s.been + {Written(s, e).status})
    else
      match e
      case Move(d, at) => t.(history := s.history + [Change(at, d)])
      case ReadStripe(stamp, at) => t.(inFlight := s.inFlight + {Read(stamp, at, Current(s))})
      case Apply(r, _, terms, _) => t.(row := Refused(s.row, r.sub, Some(r.stamp), terms))
      case Stamp(stamp, _) => t.(row := s.row.(synced := Some(stamp)))
      case _ => t
  }

  // -------------------------------------------------------- freshness

  predicate True(s: State, r: Read) { r.at <= s.now && HadAt(s.first, s.history, r.at) == r.sub }

  ghost predicate ReadsOk(s: State) {
    && (Since(s).Some? ==> Since(s).value <= s.now)
    && (s.row.synced.Some? ==> s.row.synced.value <= s.now)
    && (s.newest.Some? ==> s.row.synced.Some? && s.newest.value <= s.row.synced.value)
    && (forall r :: r in s.inFlight ==> r.stamp <= r.at && True(s, r))
  }

  /** The row's status is one Stripe had at a moment not before the newest stamp of a read written to it. */
  ghost predicate Fresh(s: State) {
    s.applied.Some? ==>
      && s.row.status == Target(s.applied.value.sub) && True(s, s.applied.value)
      && s.newest.Some? && s.newest.value <= s.applied.value.at
  }

  lemma HistoryKeeps(s: State, e: Event, r: Read)
    requires Enabled(s, e) && True(s, r)
    ensures True(Next(s, e), r)
  {
    var t := Next(s, e);
    if t.history != s.history { assert t.history[..|s.history|] == s.history; }
  }

  /** A write that lands leaves the history and the reads alone. */
  lemma LandingFresh(s: State, e: Event)
    requires ReadsOk(s) && Fresh(s) && Enabled(s, e) && Lands(s, e)
    ensures ReadsOk(Next(s, e)) && Fresh(Next(s, e))
  {
    var t := Next(s, e);
    assert forall r :: True(s, r) ==> True(t, r);
    assert e.Apply? ==> True(s, e.r);
  }

  lemma MoveFresh(s: State, e: Event)
    requires ReadsOk(s) && Fresh(s) && Enabled(s, e) && e.Move?
    ensures ReadsOk(Next(s, e)) && Fresh(Next(s, e))
  {
    var t := Next(s, e);
    forall r | True(s, r) ensures True(t, r) { HistoryKeeps(s, e, r); }
  }

  lemma FreshStep(s: State, e: Event)
    requires ReadsOk(s) && Fresh(s) && Enabled(s, e)
    ensures ReadsOk(Next(s, e)) && Fresh(Next(s, e))
  {
    if Lands(s, e) {
      LandingFresh(s, e);
    } else if e.Move? {
      MoveFresh(s, e);
    } else {
      var t := Next(s, e);
      assert forall r :: True(s, r) ==> True(t, r);
    }
  }

  // ------------------------------------------------------- whole runs

  ghost predicate Follows(s: State, es: seq<Event>)
    decreases |es|, 0
  {
    es == [] || (Follows(s, es[..|es| - 1]) && Enabled(End(s, es[..|es| - 1]), es[|es| - 1]))
  }

  ghost function End(s: State, es: seq<Event>): State
    requires Follows(s, es)
    decreases |es|, 1
  {
    if es == [] then s else Next(End(s, es[..|es| - 1]), es[|es| - 1])
  }

  lemma Extend(s: State, es: seq<Event>, e: Event)
    requires Follows(s, es) && Enabled(End(s, es), e)
    ensures Follows(s, es + [e]) && End(s, es + [e]) == Next(End(s, es), e)
  {
    assert (es + [e])[..|es|] == es;
  }

  ghost predicate Leads(s: State, t: State) { exists es :: Follows(s, es) && End(s, es) == t }

  lemma Lead(s: State, t: State, e: Event, u: State)
    requires Leads(s, t) && Enabled(t, e) && Next(t, e) == u
    ensures Leads(s, u)
  {
    var es :| Follows(s, es) && End(s, es) == t;
    Extend(s, es, e);
  }

  predicate Start(s: State) {
    s.history == [] && s.inFlight == {} && s.applied.None? && s.newest.None? && s.row.synced.None?
    && s.been == {s.row.status} && s.told == Stands(s.row.status)
  }

  lemma {:induction false} RunKeeps(s: State, es: seq<Event>)
    requires ReadsOk(s) && Fresh(s) && Follows(s, es)
    ensures ReadsOk(End(s, es)) && Fresh(End(s, es))
  {
    if es == [] {
    } else {
      RunKeeps(s, es[..|es| - 1]);
      FreshStep(End(s, es[..|es| - 1]), es[|es| - 1]);
    }
  }

  /** Whatever is late or reordered, the status a read left on the row is as new as the newest read written. */
  lemma Freshness(s: State, es: seq<Event>)
    requires Start(s) && Follows(s, es)
    ensures Fresh(End(s, es))
  {
    RunKeeps(s, es);
  }

  /** The same of the row's own stamp, which other writes move too. */
  ghost predicate OwnFresh(s: State) {
    s.applied.Some? && s.row.synced.Some? ==> exists m :: s.row.synced.value <= m <= s.now && HasStatusAt(s, m)
  }

  predicate HasStatusAt(s: State, m: int) { Target(HadAt(s.first, s.history, m)) == s.row.status }

  /** Stripe never brings a canceled subscription back. */
  predicate Ended(s: State) {
    forall i :: 0 <= i < |s.history| - 1 ==> s.history[i].sub != SubCanceled
  }

  /** Every moment of Stripe's history that a licence knows of, seen from its row. */
  ghost predicate Knows(s: State, row: Row, applied: Read) {
    && ReadsOk(s) && Fresh(s) && Ended(s) && (s.history != [] ==> s.first != SubCanceled)
    && s.row == row && s.applied == Some(applied)
  }

  lemma CanceledLasts(s: State, m: int)
    requires Ended(s) && (s.history != [] ==> s.first != SubCanceled) && HadAt(s.first, s.history, m) == SubCanceled
    ensures Current(s) == SubCanceled && forall n :: m <= n ==> HadAt(s.first, s.history, n) == SubCanceled
  {
    if s.history != [] && s.history[|s.history| - 1].at > m {
      NeverCanceledBefore(s.first, s.history, |s.history| - 1, m);
    }
  }

  lemma {:induction false} NeverCanceledBefore(first: Sub, h: seq<Change>, n: nat, m: int)
    requires n <= |h| && first != SubCanceled && forall i :: 0 <= i < n ==> h[i].sub != SubCanceled
    ensures HadAt(first, h[..n], m) != SubCanceled
  {
    if n == 0 {
    } else {
      assert h[..n][..n - 1] == h[..n - 1];
      NeverCanceledBefore(first, h, n - 1, m);
    }
  }

  /**
   A write that moves the stamp alone: whatever Stripe's history, the row's own stamp still bounds
   how old its status is if, and only if, the stamp is no later than the moment the status was
   read at, or the subscription had ended.
   */
  lemma StampIsExact(row: Row, applied: Read, stamp: int)
    requires row.status == Target(applied.sub) && applied.stamp <= applied.at
    requires row.synced.Some? && applied.stamp <= row.synced.value <= stamp
    ensures (forall s, at :: Knows(s, row, applied) && s.now < at && stamp <= at ==>
               OwnFresh(Next(s, Stamp(stamp, at))))
            <==> stamp <= applied.at || applied.sub == SubCanceled
  {
    if stamp <= applied.at || applied.sub == SubCanceled {
      forall s, at | Knows(s, row, applied) && s.now < at && stamp <= at ensures OwnFresh(Next(s, Stamp(stamp, at))) {
        var t := Next(s, Stamp(stamp, at));
        if stamp <= applied.at {
          assert HasStatusAt(t, applied.at);
        } else {
          CanceledLasts(s, applied.at);
          assert HasStatusAt(t, at);
        }
      }
    } else {
      var other := if applied.sub == SubActive then SubPastDue else SubActive;
      var s := State(stamp, applied.sub, [Change(applied.at + 1, other)], {}, row, Some(applied), Some(applied.stamp),
                     {}, Works);
      assert s.history[..0] == [];
      assert HadAt(s.first, s.history, applied.at) == applied.sub;
      assert Knows(s, row, applied);
      var t := Next(s, Stamp(stamp, stamp + 1));
      assert forall m :: stamp <= m ==> HadAt(t.first, t.history, m) == other;
    }
  }

  /** A step that moves the stamp and leaves the status alone. */
  predicate Stamps(s: State, e: Event)
    requires Enabled(s, e)
  {
    !Lands(s, e) && Next(s, e).row != s.row
  }

  ghost predicate Unstamped(s: State, es: seq<Event>)
    requires Follows(s, es)
  {
    es == [] || (Unstamped(s, es[..|es| - 1]) && !Stamps(End(s, es[..|es| - 1]), es[|es| - 1]))
  }

  /** With no such write the row's stamp is that of the newest read, and the bound is its own. */
  lemma {:induction false} UnstampedIsFresh(s: State, es: seq<Event>)
    requires Start(s) && Follows(s, es) && Unstamped(s, es)
    ensures End(s, es).row.synced == End(s, es).newest && OwnFresh(End(s, es))
  {
    RunKeeps(s, es);
    var t := End(s, es);
    if es == [] {
    } else {
      UnstampedIsFresh(s, es[..|es| - 1]);
    }
    if t.applied.Some? { assert HasStatusAt(t, t.applied.value.at); }
  }

  /** A cancel at the period's end is written over a status read before Stripe moved on. */
  lemma StampOutrunsStatus()
    ensures exists s, es :: Start(s) && Follows(s, es) && !OwnFresh(End(s, es))
  {
    var s := State(0, SubActive, [], {}, Row(Trialing, Nobody, None, None), None, None, {Trialing}, Works);
    var r := Read(1, 2, SubActive);
    var a := s.(now := 2, inFlight := {r});
    var b := a.(now := 3, row := Row(Active, Nobody, None, Some(1)), applied := Some(r), newest := Some(1),
                been := {Trialing, Active});
    var c := b.(now := 4, history := [Change(4, SubPastDue)]);
    var d := c.(now := 6, row := Row(Active, Nobody, None, Some(5)));
    assert Follows(s, []) && End(s, []) == s;
    assert Leads(s, a) by { Lead(s, s, ReadStripe(1, 2), a); }
    assert Leads(s, b) by { Lead(s, a, Apply(r, None, true, 3), b); }
    assert Leads(s, c) by { Lead(s, b, Move(SubPastDue, 4), c); }
    assert Leads(s, d) by { Lead(s, c, Stamp(5, 6), d); }
    assert !OwnFresh(d);
    var es :| Follows(s, es) && End(s, es) == d;
    assert Start(s) && !OwnFresh(End(s, es));
  }

  /** A new read always brings the licence in line, unless the licence's own state forbids it. */
  lemma NewReadSettles(s: State, copy: Option<int>, terms: bool, at: int)
    requires ReadsOk(s) && s.now < at
    ensures var d, r := Current(s), Read(at, at, Current(s));
            && Enabled(Next(s, ReadStripe(at, at)), Apply(r, copy, terms, at + 1))
            && var t := Next(Next(s, ReadStripe(at, at)), Apply(r, copy, terms, at + 1));
               if || s.row.status == Revoked
                  || (s.row.status == Suspended && s.row.suspendedBy != Stripe && Target(d) != Canceled)
                  || (s.row.status == Canceled && (d == SubPaused || (Live(d) && s.row.suspendedBy == Operator)))
                  || (s.row.status == Expired && s.row.pastDueAt.Some? && d == SubPastDue)
               then t.row == s.row.(synced := if terms && Live(d) then Some(at) else s.row.synced)
               else t.row.status == Target(d) && t.row.synced == Some(at)
  {
  }

  // --------------------------------------------------------- finality

  predicate NotOlder(r: Read, row: Row) { row.synced.None? || row.synced.value <= r.stamp }

  /** Over in Stripe, over on the row, and nothing on its way can say otherwise and be heard. */
  ghost predicate Final(s: State) {
    && Current(s) == SubCanceled
    && (|| s.row.status == Revoked
        || (s.row.status == Canceled &&
            (s.row.suspendedBy == Operator || forall r :: r in s.inFlight && NotOlder(r, s.row) ==> !Live(r.sub))))
  }

  lemma FinalStep(s: State, e: Event)
    requires Final(s) && Enabled(s, e)
    ensures Final(Next(s, e))
  {
  }

  lemma {:induction false} FinalRun(s: State, es: seq<Event>)
    requires Final(s) && Follows(s, es)
    ensures Final(End(s, es))
  {
    if es == [] {
    } else {
      FinalRun(s, es[..|es| - 1]);
      FinalStep(End(s, es[..|es| - 1]), es[|es| - 1]);
    }
  }

  /** A deletion written with its stamp is final, whatever reads are still on their way. */
  lemma DeletionIsFinal(s: State, e: Event)
    requires ReadsOk(s) && e.Deleted? && Enabled(s, e)
    ensures Final(Next(s, e))
  {
    assert s.history != [] ==> forall r :: r in s.inFlight && Since(s).value <= r.at ==> r.sub == SubCanceled;
    if s.history == [] {
      assert forall r :: r in s.inFlight ==> r.sub == s.first;
    }
  }

  /** After a deletion or an immediate cancel, no run of late reads or payloads makes the licence usable. */
  lemma Finality(s: State, es: seq<Event>, e: Event, fs: seq<Event>)
    requires Start(s) && Follows(s, es) && e.Deleted? && Enabled(End(s, es), e)
    requires Follows(Next(End(s, es), e), fs)
    ensures !Usable(End(Next(End(s, es), e), fs).row.status)
  {
    RunKeeps(s, es);
    DeletionIsFinal(End(s, es), e);
    FinalRun(Next(End(s, es), e), fs);
  }

  /**
   A cancellation seen by a read alone is final exactly when no read stamped no earlier is on its
   way with a live subscription: a stamp is taken before its read, so the later stamp may carry
   the earlier answer.
   */
  lemma CancellationIsExact(s: State)
    requires s.row.status == Canceled && Current(s) == SubCanceled
    ensures Final(s) <==> forall es :: Follows(s, es) ==> !Usable(End(s, es).row.status)
  {
    if Final(s) {
      forall es | Follows(s, es) ensures !Usable(End(s, es).row.status) { FinalRun(s, es); }
    } else {
      var r :| r in s.inFlight && NotOlder(r, s.row) && Live(r.sub);
      var e := Apply(r, None, true, s.now + 1);
      assert Follows(s, []) && End(s, []) == s;
      Extend(s, [], e);
      assert Usable(End(s, [] + [e]).row.status);
    }
  }

  // ------------------------------------------------- told exactly once

  /** A failed payment known only from its payload finds the licence as its handler read it: in use. */
  predicate Told(s: State, e: Event) { e.Failed? && Lands(s, e) ==> Usable(s.row.status) }

  ghost predicate AllTold(s: State, es: seq<Event>)
    requires Follows(s, es)
  {
    es == [] || (AllTold(s, es[..|es| - 1]) && Told(End(s, es[..|es| - 1]), es[|es| - 1]))
  }

  /** A landed subscription write is announced if, and only if, it changes how the licence stands. */
  lemma AnnouncedExactly(s: State, e: Event)
    requires Enabled(s, e) && !e.Revoke? && Told(s, e)
    ensures Announces(s, e).Some? <==> Stands(Next(s, e).row.status) != Stands(s.row.status)
    ensures Stands(Next(s, e).row.status) == Hear(Stands(s.row.status), Announces(s, e))
  {
  }

  /** The one write that changes it silently, and exactly when. */
  lemma UntoldIsExact(s: State, e: Event)
    requires Enabled(s, e) && s.told == Stands(s.row.status)
    ensures Told(s, e) <==> Next(s, e).told == Stands(Next(s, e).row.status)
  {
    if !e.Revoke? && Told(s, e) { AnnouncedExactly(s, e); }
  }

  /** What the announcements add up to is how the licence stands. */
  lemma {:induction false} ToldOnce(s: State, es: seq<Event>)
    requires Start(s) && Follows(s, es) && AllTold(s, es)
    ensures End(s, es).told == Stands(End(s, es).row.status)
  {
    if es == [] {
    } else {
      ToldOnce(s, es[..|es| - 1]);
      UntoldIsExact(End(s, es[..|es| - 1]), es[|es| - 1]);
    }
  }

  /** A payment fails while its licence is paused: the pause ends, and nobody is told. */
  lemma FailureUnpauses()
    ensures exists s, es :: Start(s) && Follows(s, es) && End(s, es).told != Stands(End(s, es).row.status)
  {
    var s := State(0, SubActive, [], {}, Row(Active, Nobody, None, None), None, None, {Active}, Works);
    var a, b := Payload(SubPaused, None, 1), Failed(2);
    assert Follows(s, []) && End(s, []) == s;
    Extend(s, [], a);
    Extend(s, [] + [a], b);
    assert Start(s) && End(s, [] + [a] + [b]).told != Stands(End(s, [] + [a] + [b]).row.status);
  }

  // ------------------------------------------- field by field

  /** The licence status each status of the subscription comes to, and which of them a customer can use. */
  lemma StatusTable()
    ensures Target(SubActive) == Active && Target(SubTrialing) == Trialing && Target(SubPastDue) == PastDue
    ensures Target(SubPaused) == Suspended && Target(SubCanceled) == Canceled && Target(SubUnpaid) == Canceled
    ensures forall d :: Live(d) <==> Usable(Target(d))
    ensures Usable(Active) && Usable(Trialing) && Usable(PastDue)
    ensures !Usable(Suspended) && !Usable(Canceled) && !Usable(Expired) && !Usable(Revoked)
  {
  }

  /** A write from the subscription alone: payloads, invoices, reads and deletions. */
  predicate Driven(e: Event) { e.Apply? || e.Payload? || e.Paid? || e.Failed? || e.Deleted? }

  /**
   Of every step: an episode of non-payment that goes on keeps its date, one that begins is dated now, and a
   licence that is active or canceled by its subscription has none.
   */
  lemma PastDueDate(s: State, e: Event)
    requires Enabled(s, e)
    ensures var t := Next(s, e);
            && (t.row.status == PastDue && s.row.status == PastDue && s.row.pastDueAt.Some? ==>
                  t.row.pastDueAt == s.row.pastDueAt)
            && (t.row.status == PastDue && s.row.status != PastDue ==> t.row.pastDueAt == Some(e.at))
            && (Lands(s, e) && Driven(e) && (t.row.status == Active || t.row.status == Canceled) ==>
                  t.row.pastDueAt.None?)
            && (!Driven(e) || !Lands(s, e) ==> t.row.pastDueAt == s.row.pastDueAt)
            && (Lands(s, e) && (t.row.status == Trialing || t.row.status == Suspended) && (e.Apply? || e.Payload?) ==>
                  t.row.pastDueAt == e.copy)
  {
  }

  ghost predicate StaysPastDue(s: State, es: seq<Event>)
    requires Follows(s, es)
  {
    End(s, es).row.status == PastDue && (es == [] || StaysPastDue(s, es[..|es| - 1]))
  }

  /** So all through an episode its date is the instant it began, however many failures are reported. */
  lemma {:induction false} EpisodeKeepsDate(s: State, e: Event, es: seq<Event>)
    requires Enabled(s, e) && s.row.status != PastDue && Follows(Next(s, e), es) && StaysPastDue(Next(s, e), es)
    ensures End(Next(s, e), es).row.pastDueAt == Some(e.at)
  {
    if es == [] {
      PastDueDate(s, e);
    } else {
      EpisodeKeepsDate(s, e, es[..|es| - 1]);
      PastDueDate(End(Next(s, e), es[..|es| - 1]), es[|es| - 1]);
    }
  }

  /** Who suspended the licence, after every step. */
  lemma SuspendedByWhom(s: State, e: Event)
    requires Enabled(s, e)
    ensures var t := Next(s, e);
            && (Lands(s, e) && Usable(t.row.status) && !e.Failed? ==> t.row.suspendedBy == Nobody)
            && (Lands(s, e) && Driven(e) && t.row.status == Suspended ==> t.row.suspendedBy == Stripe)
            && (Lands(s, e) && Driven(e) && t.row.status == Canceled ==>
                  t.row.suspendedBy == if s.row.status == Suspended && s.row.suspendedBy == Stripe then Nobody
                                       else s.row.suspendedBy)
            && (e.Suspend? ==> t.row.status == Suspended && t.row.suspendedBy == Operator)
            && (!Lands(s, e) || e.Failed? || e.Expire? || e.Revoke? ==> t.row.suspendedBy == s.row.suspendedBy)
  {
  }

  /** An operator's word stands: suspended by one, ended with that on record, or revoked. */
  predicate Stopped(row: Row) {
    || row.status == Revoked
    || ((row.status == Suspended || row.status == Canceled) && row.suspendedBy == Operator)
  }

  /** No run of reads, payloads, invoices, deletions and sweeps undoes what an operator stopped. */
  lemma {:induction false} OperatorsWordStands(s: State, es: seq<Event>)
    requires Stopped(s.row) && Follows(s, es)
    ensures Stopped(End(s, es).row)
  {
    if es == [] {
    } else {
      OperatorsWordStands(s, es[..|es| - 1]);
      StoppedStays(End(s, es[..|es| - 1]), es[|es| - 1]);
    }
  }

  lemma StoppedStays(s: State, e: Event)
    requires Stopped(s.row) && Enabled(s, e)
    ensures Stopped(Next(s, e).row)
  {
  }

  /** An event without a current read lands but on what an operator stopped, what ended, and what did not pay. */
  lemma PayloadSettles(s: State, d: Sub, copy: Option<int>, at: int)
    requires s.now < at
    ensures var t := Next(s, Payload(d, copy, at));
            if || s.row.status == Revoked
               || (s.row.status == Suspended && s.row.suspendedBy != Stripe && Target(d) != Canceled)
               || (s.row.status == Canceled && Target(d) != Canceled)
               || (s.row.status == Expired && s.row.pastDueAt.Some? && d == SubPastDue)
            then t.row == s.row
            else t.row.status == Target(d) && t.row.synced == s.row.synced
  {
  }

  /** A paid invoice alone makes a licence active and a failed one past due, on like terms; neither moves the stamp. */
  lemma InvoiceSettles(s: State, at: int)
    requires s.now < at
    ensures var t := Next(s, Paid(at));
            if || s.row.status == Revoked || s.row.status == Canceled
               || (s.row.status == Suspended && s.row.suspendedBy != Stripe)
            then t.row == s.row
            else t.row == Row(Active, Nobody, None, s.row.synced)
    ensures Enabled(s, Failed(at)) ==>
            var t := Next(s, Failed(at));
            if || s.row.status == Revoked || s.row.status == Canceled
               || (s.row.status == Suspended && s.row.suspendedBy != Stripe)
               || (s.row.status == Expired && s.row.pastDueAt.Some?)
            then t.row == s.row
            else t.row.status == PastDue && t.row.synced == s.row.synced
  {
  }

  /** A deletion ends any licence but a revoked one, and its stamp is the later of the two. */
  lemma DeletionSettles(s: State, stamp: int, at: int)
    requires Enabled(s, Deleted(stamp, at))
    ensures var t := Next(s, Deleted(stamp, at));
            if s.row.status == Revoked then t.row == s.row
            else && t.row.status == Canceled && t.row.pastDueAt.None? && t.row.synced.Some?
                 && t.row.synced.value >= stamp && (s.row.synced.Some? ==> t.row.synced.value >= s.row.synced.value)
                 && (t.row.synced.value == stamp || t.row.synced == s.row.synced)
  {
  }

  /** The expiry sweeps and an operator's suspension reach exactly the licences in use; a revocation reaches any. */
  lemma OthersSettle(s: State, at: int)
    requires s.now < at
    ensures Enabled(s, Expire(at)) <==> s.row.status in {Active, Trialing, PastDue}
    ensures Enabled(s, Suspend(at)) <==> s.row.status in {Active, Trialing, PastDue}
    ensures Enabled(s, Expire(at)) ==> Next(s, Expire(at)).row == s.row.(status := Expired)
    ensures Enabled(s, Suspend(at)) ==> Next(s, Suspend(at)).row == s.row.(status := Suspended, suspendedBy := Operator)
    ensures Next(s, Revoke(at)).row == s.row.(status := Revoked)
  {
  }
}
