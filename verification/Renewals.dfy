/**
 The maintenance-renewal ledger of a perpetual licence: the replay that
 derives the maintenance end from the recorded renewals, and the three row
 transactions that write the ledger (a paid renewal, its full refund, and a
 refund delivered before the renewal it refunds).

 Instants and durations are nanoseconds.
 */
module Renewals {
  import opened Common

  const SECOND: int := 1_000_000_000
  const DAY: int := 86_400 * SECOND

  /** One ledger row; `intent` is the payment intent both of its events share. */
  datatype Renewal = Renewal(
    intent: int, days: int, createdAt: int,
    previous: Option<int>, updatesUntil: Option<int>, refundedAt: Option<int>)

  function RenewedUpdatesUntil(current: Option<int>, now: int, days: int): int {
    (if current.Some? && current.value > now then current.value else now) + days * DAY
  }

  predicate Within(a: int, b: int, d: int) { -d < a - b < d }

  predicate SameEnd(a: Option<int>, b: Option<int>) {
    if a.None? || b.None? then a.None? && b.None? else Within(a.value, b.value, SECOND)
  }

  // ---------------------------------------------------------------- replay

  /** What happened outside the ledger just before a row. */
  datatype Outside = Outside(restart: bool, shift: int)

  const NOTHING := Outside(false, 0)
  const RESTART := Outside(true, 0)

  /** Which renewals a walk counts: those in effect at an instant, or those never refunded. */
  datatype View = AsOf(t: int) | Finally

  predicate InEffect(r: Renewal, v: View) {
    match v
    case AsOf(t) => r.refundedAt.None? || r.refundedAt.value >= t
    case Finally => r.refundedAt.None?
  }

  function Enter(end: Option<int>, r: Renewal, o: Outside): Option<int> {
    if o.restart then r.previous
    else if o.shift != 0 && end.Some? then Some(end.value + o.shift)
    else end
  }

  function Credit(end: Option<int>, r: Renewal, v: View): Option<int> {
    if r.updatesUntil.Some? && InEffect(r, v)
    then Some(RenewedUpdatesUntil(end, r.createdAt, r.days)) else end
  }

  function Walk(rows: seq<Renewal>, before: seq<Outside>, n: nat, v: View): Option<int>
    requires n <= |rows| && n <= |before|
  {
    if n == 0 then None
    else Credit(Enter(Walk(rows, before, n - 1, v), rows[n - 1], before[n - 1]), rows[n - 1], v)
  }

  function Classify(i: nat, previous: Option<int>, predicted: Option<int>): Outside {
    if i == 0 then RESTART
    else if SameEnd(previous, predicted) then NOTHING
    else if previous.None? || predicted.None? then RESTART
    else Outside(false, previous.value - predicted.value)
  }

  function Outsides(rows: seq<Renewal>, n: nat): (b: seq<Outside>)
    requires n <= |rows|
    ensures |b| == n
  {
    if n == 0 then []
    else
      var b := Outsides(rows, n - 1);
      b + [Classify(n - 1, rows[n - 1].previous, Walk(rows, b, n - 1, AsOf(rows[n - 1].createdAt)))]
  }

  function Replay(rows: seq<Renewal>): Option<int> {
    Walk(rows, Outsides(rows, |rows|), |rows|, Finally)
  }

  method WalkRows(rows: seq<Renewal>, before: array<Outside>, n: nat, v: View) returns (end: Option<int>)
    requires n <= |rows| && n <= before.Length
    ensures end == Walk(rows, before[..n], n, v)
  {
    end := None;
    for k := 0 to n
      invariant end == Walk(rows, before[..n], k, v)
    {
      var r, o := rows[k], before[k];
      if o.restart {
        end := r.previous;
      } else if o.shift != 0 && end.Some? {
        end := Some(end.value + o.shift);
      }
      if r.updatesUntil.Some? && InEffect(r, v) {
        end := Some(RenewedUpdatesUntil(end, r.createdAt, r.days));
      }
    }
  }

  /** The nested-loop replay computes `Replay`, which the lemmas below are about. */
  method ReplayRenewals(rows: seq<Renewal>) returns (end: Option<int>)
    ensures end == Replay(rows)
  {
    var before := new Outside[|rows|](_ => NOTHING);
    for i := 0 to |rows|
      invariant before[..i] == Outsides(rows, i)
      invariant forall k :: i <= k < |rows| ==> before[k] == NOTHING
    {
      var predicted := WalkRows(rows, before, i, AsOf(rows[i].createdAt));
      if i == 0 {
        before[i] := RESTART;
      } else if SameEnd(rows[i].previous, predicted) {
      } else if rows[i].previous.None? || predicted.None? {
        before[i] := RESTART;
      } else {
        before[i] := Outside(false, rows[i].previous.value - predicted.value);
      }
      assert before[..i + 1] == before[..i] + [before[i]];
    }
    end := WalkRows(rows, before, |rows|, Finally);
    assert before[..] == before[..|rows|];
  }

  // ------------------------------------------------- the ledger's own rows

  /** A licence's maintenance end, its ledger, and the refunds that came before their renewal. */
  datatype State = State(now: int, end: Option<int>, rows: seq<Renewal>, early: set<int>)

  /**
   A delivery from Stripe, taken up at an instant of the database clock. `eligible` is whether
   the licence is active on a perpetual plan; `full` whether the whole charge was refunded.
   */
  datatype Event =
    | Completed(intent: int, days: int, eligible: bool, at: int)
    | Refunded(intent: int, full: bool, at: int)

  function IndexOf(rows: seq<Renewal>, intent: int): (i: nat)
    ensures i <= |rows|
    ensures i < |rows| ==> rows[i].intent == intent
    ensures forall k :: 0 <= k < i ==> rows[k].intent != intent
  {
    if rows == [] then 0
    else if rows[0].intent == intent then 0
    else 1 + IndexOf(rows[1..], intent)
  }

  function Fulfil(s: State, e: Event): State
    requires e.Completed?
  {
    if e.days <= 0 || IndexOf(s.rows, e.intent) < |s.rows| then s
    else if e.intent in s.early then
      s.(rows := s.rows + [Renewal(e.intent, e.days, e.at, s.end, None, Some(e.at))],
         early := s.early - {e.intent})
    else if !e.eligible || s.end.None? then s
    else
      var end := Some(RenewedUpdatesUntil(s.end, e.at, e.days));
      s.(rows := s.rows + [Renewal(e.intent, e.days, e.at, s.end, end, None)], end := end)
  }

  function MarkRefunded(rows: seq<Renewal>, i: nat, at: int): seq<Renewal>
    requires i < |rows|
  {
    rows[i := rows[i].(refundedAt := Some(at))]
  }

  function Revert(s: State, i: nat, at: int): State
    requires i < |s.rows|
  {
    var rows := MarkRefunded(s.rows, i, at);
    if s.end.None? || s.rows[i].updatesUntil.None? then s.(rows := rows)
    else
      var predicted, without := Replay(s.rows), Replay(rows);
      if predicted.Some? && without.Some?
      then s.(rows := rows, end := Some(without.value + (s.end.value - predicted.value)))
      else s.(rows := rows, end := Some(s.end.value - s.rows[i].days * DAY))
  }

  function TakeBack(s: State, e: Event): State
    requires e.Refunded?
  {
    var i := IndexOf(s.rows, e.intent);
    if !e.full then s
    else if i == |s.rows| then s.(early := s.early + {e.intent})
    else if s.rows[i].refundedAt.Some? then s
    else Revert(s, i, e.at)
  }

  function Step(s: State, e: Event): State {
    (if e.Completed? then Fulfil(s, e) else TakeBack(s, e)).(now := e.at)
  }

  function Run(s: State, es: seq<Event>): State {
    if es == [] then s else Step(Run(s, es[..|es| - 1]), es[|es| - 1])
  }

  function Latest(start: int, es: seq<Event>): int {
    if es == [] then start else es[|es| - 1].at
  }

  /** Row locks and the database clock give every delivery an instant of its own. */
  predicate Ordered(start: int, es: seq<Event>) {
    es == [] || (Ordered(start, es[..|es| - 1]) && Latest(start, es[..|es| - 1]) < es[|es| - 1].at)
  }

  function Fresh(start: int, end: int): State { State(start, Some(end), [], {}) }

  // ------------------------------------------------------- the reference

  /** The plain fold of renewals from the first recorded end, with no replay and no offsets. */
  function Fold(end: int, rows: seq<Renewal>, n: nat, v: View): Option<int>
    requires n <= |rows|
  {
    if n == 0 then Some(end) else Credit(Fold(end, rows, n - 1, v), rows[n - 1], v)
  }

  predicate Counted(r: Renewal, v: View) { r.updatesUntil.Some? && InEffect(r, v) }

  predicate Alike(a: Renewal, v: View, b: Renewal, w: View) {
    && Counted(a, v) == Counted(b, w)
    && (Counted(a, v) ==> a.createdAt == b.createdAt && a.days == b.days)
  }

  /** Every row records the end the plain fold predicts for its instant. */
  predicate Predicted(rows: seq<Renewal>, end: int) {
    forall i :: 0 <= i < |rows| ==> rows[i].previous == Fold(end, rows, i, AsOf(rows[i].createdAt))
  }

  predicate Stamped(rows: seq<Renewal>, now: int) {
    forall i :: 0 <= i < |rows| ==>
      rows[i].createdAt <= now && (rows[i].refundedAt.Some? ==> rows[i].refundedAt.value <= now)
  }

  predicate Keyed(rows: seq<Renewal>, early: set<int>) {
    && (forall i, j :: 0 <= i < j < |rows| ==> rows[i].intent != rows[j].intent)
    && (forall i :: 0 <= i < |rows| ==> rows[i].intent !in early)
  }

  predicate LedgerOk(s: State, end: int) {
    && s.end == Fold(end, s.rows, |s.rows|, Finally)
    && Predicted(s.rows, end) && Stamped(s.rows, s.now) && Keyed(s.rows, s.early)
  }

  lemma {:induction false} FoldSome(end: int, rows: seq<Renewal>, n: nat, v: View)
    requires n <= |rows|
    ensures Fold(end, rows, n, v).Some?
  {
    if n == 0 {
    } else {
      FoldSome(end, rows, n - 1, v);
    }
  }

  /** Two ledgers whose rows credit alike fold alike. */
  lemma {:induction false} FoldAlike(end: int, a: seq<Renewal>, v: View, b: seq<Renewal>, w: View, n: nat)
    requires n <= |a| && n <= |b|
    requires forall i :: 0 <= i < n ==> Alike(a[i], v, b[i], w)
    ensures Fold(end, a, n, v) == Fold(end, b, n, w)
  {
    if n == 0 {
    } else {
      FoldAlike(end, a, v, b, w, n - 1);
      assert Alike(a[n - 1], v, b[n - 1], w);
    }
  }

  /** With nothing outside the ledger but its start, the walk is the plain fold. */
  lemma {:induction false} WalkIsFold(end: int, rows: seq<Renewal>, b: seq<Outside>, n: nat, v: View)
    requires 0 < n <= |rows| && n <= |b|
    requires rows[0].previous == Some(end) && b[0] == RESTART
    requires forall k :: 0 < k < n ==> b[k] == NOTHING
    ensures Walk(rows, b, n, v) == Fold(end, rows, n, v)
  {
    if n == 1 {
    } else {
      WalkIsFold(end, rows, b, n - 1, v);
    }
  }

  /** Every recorded previous end is the one predicted: no shift and no restart ever appears. */
  lemma {:induction false} NoOutsides(rows: seq<Renewal>, end: int, n: nat)
    requires Predicted(rows, end) && n <= |rows|
    ensures forall k :: 0 <= k < n ==> Outsides(rows, n)[k] == if k == 0 then RESTART else NOTHING
  {
    if n == 0 {
    } else {
      NoOutsides(rows, end, n - 1);
      var b, at := Outsides(rows, n - 1), AsOf(rows[n - 1].createdAt);
      if n > 1 {
        WalkIsFold(end, rows, b, n - 1, at);
        FoldSome(end, rows, n - 1, at);
      }
    }
  }

  lemma ReplayIsFold(rows: seq<Renewal>, end: int)
    requires Predicted(rows, end) && rows != []
    ensures Replay(rows) == Fold(end, rows, |rows|, Finally)
  {
    NoOutsides(rows, end, |rows|);
    WalkIsFold(end, rows, Outsides(rows, |rows|), |rows|, Finally);
  }

  /** A row added at its own instant is predicted too, and disturbs no earlier prediction. */
  lemma AppendKeepsPredictions(rows: seq<Renewal>, r: Renewal, end: int, now: int)
    requires Predicted(rows, end) && Stamped(rows, now) && now < r.createdAt
    requires r.previous == Fold(end, rows, |rows|, Finally)
    ensures Predicted(rows + [r], end)
    ensures Fold(end, rows + [r], |rows| + 1, Finally) == Credit(r.previous, r, Finally)
  {
    var t := rows + [r];
    FoldAlike(end, rows, Finally, t, Finally, |rows|);
    forall i | 0 <= i < |t| ensures t[i].previous == Fold(end, t, i, AsOf(t[i].createdAt)) {
      FoldAlike(end, rows, if i < |rows| then AsOf(t[i].createdAt) else Finally, t, AsOf(t[i].createdAt), i);
    }
  }

  lemma FulfilKeepsLedger(s: State, e: Event, end: int)
    requires LedgerOk(s, end) && e.Completed? && s.now < e.at
    ensures LedgerOk(Step(s, e), end)
  {
    var t := Step(s, e);
    FoldSome(end, s.rows, |s.rows|, Finally);
    if |t.rows| > |s.rows| {
      AppendKeepsPredictions(s.rows, t.rows[|s.rows|], end, s.now);
    }
  }

  /** Marking a row refunded after every purchase changes no prediction made for them. */
  lemma RefundKeepsPredictions(rows: seq<Renewal>, i: nat, at: int, end: int, now: int)
    requires Predicted(rows, end) && Stamped(rows, now) && i < |rows| && now < at && rows[i].refundedAt.None?
    ensures Predicted(MarkRefunded(rows, i, at), end)
  {
    var t := MarkRefunded(rows, i, at);
    forall j | 0 <= j < |t| ensures t[j].previous == Fold(end, t, j, AsOf(t[j].createdAt)) {
      FoldAlike(end, rows, AsOf(rows[j].createdAt), t, AsOf(rows[j].createdAt), j);
    }
  }

  /** The end a refund leaves is the plain fold without the renewal. */
  lemma RevertFolds(s: State, i: nat, at: int, end: int)
    requires LedgerOk(s, end) && i < |s.rows| && Predicted(MarkRefunded(s.rows, i, at), end)
    ensures Revert(s, i, at).end == Fold(end, MarkRefunded(s.rows, i, at), |s.rows|, Finally)
  {
    var rows := MarkRefunded(s.rows, i, at);
    FoldSome(end, s.rows, |s.rows|, Finally);
    if s.rows[i].updatesUntil.None? {
      FoldAlike(end, s.rows, Finally, rows, Finally, |rows|);
    } else {
      FoldSome(end, rows, |rows|, Finally);
      ReplayIsFold(s.rows, end);
      ReplayIsFold(rows, end);
    }
  }

  lemma RevertKeepsLedger(s: State, i: nat, at: int, end: int)
    requires LedgerOk(s, end) && i < |s.rows| && s.now < at && s.rows[i].refundedAt.None?
    ensures LedgerOk(Revert(s, i, at).(now := at), end)
  {
    RefundKeepsPredictions(s.rows, i, at, end, s.now);
    RevertFolds(s, i, at, end);
    var t := Revert(s, i, at).(now := at);
    assert t.rows == MarkRefunded(s.rows, i, at) && t.early == s.early;
  }

  lemma {:induction false} RunKeepsLedger(start: int, end: int, es: seq<Event>)
    requires Ordered(start, es)
    ensures LedgerOk(Run(Fresh(start, end), es), end)
    ensures Run(Fresh(start, end), es).now == Latest(start, es)
  {
    if es == [] {
    } else {
      var init, e := es[..|es| - 1], es[|es| - 1];
      RunKeepsLedger(start, end, init);
      var s := Run(Fresh(start, end), init);
      var i := IndexOf(s.rows, e.intent);
      if e.Completed? {
        FulfilKeepsLedger(s, e, end);
      } else if e.full && i < |s.rows| && s.rows[i].refundedAt.None? {
        RevertKeepsLedger(s, i, e.at, end);
      }
    }
  }

  // -------------------------------------------------------- ledger truth

  /** A renewal stripped of every recorded date but the instant it was bought at. */
  datatype Purchase = Purchase(intent: int, days: int, at: int, granted: bool, refunded: bool)

  function Entry(r: Renewal): Purchase {
    Purchase(r.intent, r.days, r.createdAt, r.updatesUntil.Some?, r.refundedAt.Some?)
  }

  function Entries(rows: seq<Renewal>): (b: seq<Purchase>)
    ensures |b| == |rows| && forall i :: 0 <= i < |b| ==> b[i] == Entry(rows[i])
  {
    seq(|rows|, i requires 0 <= i < |rows| => Entry(rows[i]))
  }

  /** Where a customer stands who made exactly the purchases still paid for. */
  function PlainEnd(end: int, b: seq<Purchase>): int {
    if b == [] then end
    else
      var e, p := PlainEnd(end, b[..|b| - 1]), b[|b| - 1];
      if p.granted && !p.refunded then RenewedUpdatesUntil(Some(e), p.at, p.days) else e
  }

  lemma {:induction false} FoldIsPlain(end: int, rows: seq<Renewal>, n: nat)
    requires n <= |rows|
    ensures Fold(end, rows, n, Finally) == Some(PlainEnd(end, Entries(rows)[..n]))
  {
    if n == 0 {
    } else {
      FoldIsPlain(end, rows, n - 1);
      assert Entries(rows)[..n][..n - 1] == Entries(rows)[..n - 1];
    }
  }

  /**
   Whatever the interleaving of purchases, refunds and refunds ahead of their purchase, the
   licence's end is the plain fold over the purchases not refunded, the replay agrees with it,
   and the replay sees no change made outside the ledger.
   */
  lemma LedgerTruth(start: int, end: int, es: seq<Event>)
    requires Ordered(start, es)
    ensures var s := Run(Fresh(start, end), es);
            && s.end == Some(PlainEnd(end, Entries(s.rows)))
            && (s.rows != [] ==> Replay(s.rows) == s.end)
            && forall k :: 0 <= k < |s.rows| ==>
                 Outsides(s.rows, |s.rows|)[k] == if k == 0 then RESTART else NOTHING
  {
    RunKeepsLedger(start, end, es);
    var s := Run(Fresh(start, end), es);
    FoldIsPlain(end, s.rows, |s.rows|);
    assert Entries(s.rows)[..|s.rows|] == Entries(s.rows);
    NoOutsides(s.rows, end, |s.rows|);
    if s.rows != [] { ReplayIsFold(s.rows, end); }
  }

  // ------------------------------------------ a refund leaves no trace

  datatype Book = Book(list: seq<Purchase>, early: set<int>)

  predicate Has(b: seq<Purchase>, x: int) { exists i :: 0 <= i < |b| && b[i].intent == x }

  function MarkAll(b: seq<Purchase>, x: int): (c: seq<Purchase>)
    ensures |c| == |b|
    ensures forall i :: 0 <= i < |b| ==> c[i] == if b[i].intent == x then b[i].(refunded := true) else b[i]
  {
    seq(|b|, i requires 0 <= i < |b| => if b[i].intent == x then b[i].(refunded := true) else b[i])
  }

  function BookStep(b: Book, e: Event): Book {
    match e
    case Completed(x, days, eligible, at) =>
      if days <= 0 || Has(b.list, x) then b
      else if x in b.early then Book(b.list + [Purchase(x, days, at, false, true)], b.early - {x})
      else if !eligible then b
      else b.(list := b.list + [Purchase(x, days, at, true, false)])
    case Refunded(x, full, _) =>
      if !full then b
      else if Has(b.list, x) then b.(list := MarkAll(b.list, x))
      else b.(early := b.early + {x})
  }

  function BookRun(es: seq<Event>): Book {
    if es == [] then Book([], {}) else BookStep(BookRun(es[..|es| - 1]), es[|es| - 1])
  }

  lemma HasIndex(rows: seq<Renewal>, x: int)
    ensures Has(Entries(rows), x) <==> IndexOf(rows, x) < |rows|
  {
    var i := IndexOf(rows, x);
    assert i < |rows| ==> Entries(rows)[i].intent == x;
  }

  lemma FulfilIsBookStep(s: State, e: Event)
    requires e.Completed? && s.end.Some?
    ensures Book(Entries(Fulfil(s, e).rows), Fulfil(s, e).early) == BookStep(Book(Entries(s.rows), s.early), e)
  {
    HasIndex(s.rows, e.intent);
    var t := Fulfil(s, e);
    if |t.rows| > |s.rows| {
      assert Entries(t.rows) == Entries(s.rows) + [Entry(t.rows[|s.rows|])];
    }
  }

  lemma TakeBackIsBookStep(s: State, e: Event)
    requires e.Refunded? && Keyed(s.rows, s.early)
    ensures Book(Entries(TakeBack(s, e).rows), TakeBack(s, e).early) == BookStep(Book(Entries(s.rows), s.early), e)
  {
    HasIndex(s.rows, e.intent);
    var i := IndexOf(s.rows, e.intent);
    if e.full && i < |s.rows| {
      assert forall j :: 0 <= j < |s.rows| && j != i ==> s.rows[j].intent != e.intent;
      assert Entries(TakeBack(s, e).rows) == MarkAll(Entries(s.rows), e.intent);
    }
  }

  lemma {:induction false} RunIsBookRun(start: int, end: int, es: seq<Event>)
    requires Ordered(start, es)
    ensures var s := Run(Fresh(start, end), es); Book(Entries(s.rows), s.early) == BookRun(es)
  {
    if es == [] {
    } else {
      RunIsBookRun(start, end, es[..|es| - 1]);
      RunKeepsLedger(start, end, es[..|es| - 1]);
      var s, e := Run(Fresh(start, end), es[..|es| - 1]), es[|es| - 1];
      FoldSome(end, s.rows, |s.rows|, Finally);
      if e.Completed? { FulfilIsBookStep(s, e); } else { TakeBackIsBookStep(s, e); }
    }
  }

  function Drop(b: seq<Purchase>, x: int): seq<Purchase> {
    if b == [] then []
    else if b[|b| - 1].intent == x then Drop(b[..|b| - 1], x)
    else Drop(b[..|b| - 1], x) + [b[|b| - 1]]
  }

  /** The same deliveries with every one of payment intent x taken out. */
  function Without(es: seq<Event>, x: int): seq<Event> {
    if es == [] then []
    else if es[|es| - 1].intent == x then Without(es[..|es| - 1], x)
    else Without(es[..|es| - 1], x) + [es[|es| - 1]]
  }

  lemma {:induction false} WithoutOrdered(start: int, es: seq<Event>, x: int)
    requires Ordered(start, es)
    ensures Ordered(start, Without(es, x)) && start <= Latest(start, Without(es, x)) <= Latest(start, es)
  {
    if es == [] {
    } else {
      WithoutOrdered(start, es[..|es| - 1], x);
      var w := Without(es[..|es| - 1], x);
      assert (w + [es[|es| - 1]])[..|w|] == w;
    }
  }

  lemma {:induction false} DropKeepsOthers(b: seq<Purchase>, x: int, y: int)
    requires x != y
    ensures Has(Drop(b, x), y) == Has(b, y)
  {
    if b == [] {
    } else {
      var a, p := b[..|b| - 1], b[|b| - 1];
      DropKeepsOthers(a, x, y);
      HasLast(a, p, y);
      HasLast(Drop(a, x), p, y);
      assert a + [p] == b;
    }
  }

  lemma HasLast(b: seq<Purchase>, p: Purchase, y: int)
    ensures Has(b + [p], y) <==> Has(b, y) || p.intent == y
  {
    if p.intent == y { assert (b + [p])[|b|].intent == y; }
    if Has(b, y) { var i :| 0 <= i < |b| && b[i].intent == y; assert (b + [p])[i].intent == y; }
  }

  lemma DropLast(b: seq<Purchase>, p: Purchase, x: int)
    ensures Drop(b + [p], x) == if p.intent == x then Drop(b, x) else Drop(b, x) + [p]
  {
    assert (b + [p])[..|b|] == b;
  }

  /** Marking refunds and leaving x out can be done in either order. */
  lemma {:induction false} DropMarks(b: seq<Purchase>, x: int, y: int)
    requires x != y
    ensures Drop(MarkAll(b, y), x) == MarkAll(Drop(b, x), y)
  {
    if b == [] {
    } else {
      var a, p := b[..|b| - 1], b[|b| - 1];
      DropMarks(a, x, y);
      var q := if p.intent == y then p.(refunded := true) else p;
      assert MarkAll(b, y) == MarkAll(a, y) + [q] && MarkAll(Drop(a, x) + [p], y) == MarkAll(Drop(a, x), y) + [q];
      DropLast(MarkAll(a, y), q, x);
    }
  }

  lemma {:induction false} DropMarked(b: seq<Purchase>, x: int)
    ensures Drop(MarkAll(b, x), x) == Drop(b, x)
  {
    if b == [] {
    } else {
      var a, p := b[..|b| - 1], b[|b| - 1];
      DropMarked(a, x);
      var q := if p.intent == x then p.(refunded := true) else p;
      assert MarkAll(b, x) == MarkAll(a, x) + [q];
      DropLast(MarkAll(a, x), q, x);
    }
  }

  /** A delivery of x itself shows nowhere once x is left out. */
  lemma DropOwnStep(b: Book, e: Event)
    ensures Drop(BookStep(b, e).list, e.intent) == Drop(b.list, e.intent)
    ensures BookStep(b, e).early - {e.intent} == b.early - {e.intent}
  {
    if e.Completed? {
      DropLast(b.list, Purchase(e.intent, e.days, e.at, false, true), e.intent);
      DropLast(b.list, Purchase(e.intent, e.days, e.at, true, false), e.intent);
    } else {
      DropMarked(b.list, e.intent);
    }
  }

  lemma DropOtherStep(b: Book, c: Book, e: Event, x: int)
    requires e.intent != x && c == Book(Drop(b.list, x), b.early - {x})
    ensures Drop(BookStep(b, e).list, x) == BookStep(c, e).list
    ensures BookStep(b, e).early - {x} == BookStep(c, e).early
  {
    DropKeepsOthers(b.list, x, e.intent);
    assert e.intent in b.early <==> e.intent in c.early;
    var l := BookStep(b, e).list;
    if e.Completed? && l != b.list {
      var p := l[|b.list|];
      assert l == b.list + [p];
      DropLast(b.list, p, x);
    } else if e.Refunded? {
      DropMarks(b.list, x, e.intent);
    }
  }

  lemma {:induction false} BookWithout(es: seq<Event>, x: int)
    ensures Drop(BookRun(es).list, x) == BookRun(Without(es, x)).list
    ensures BookRun(es).early - {x} == BookRun(Without(es, x)).early
  {
    if es == [] {
    } else {
      var init, e := es[..|es| - 1], es[|es| - 1];
      BookWithout(init, x);
      var w := Without(init, x);
      assert (w + [e])[..|w|] == w;
      if e.intent == x { DropOwnStep(BookRun(init), e); } else { DropOtherStep(BookRun(init), BookRun(w), e, x); }
    }
  }

  predicate Idle(b: seq<Purchase>, x: int) {
    forall i :: 0 <= i < |b| && b[i].intent == x ==> b[i].refunded || !b[i].granted
  }

  lemma {:induction false} IdleDrops(end: int, b: seq<Purchase>, x: int)
    requires Idle(b, x)
    ensures PlainEnd(end, Drop(b, x)) == PlainEnd(end, b)
  {
    if b == [] {
    } else {
      IdleDrops(end, b[..|b| - 1], x);
      var d := Drop(b[..|b| - 1], x);
      assert (d + [b[|b| - 1]])[..|d|] == d;
    }
  }

  predicate RefundSeen(es: seq<Event>, x: int) {
    exists i :: 0 <= i < |es| && es[i].Refunded? && es[i].full && es[i].intent == x
  }

  /** A completion of x that is applied, or that finds its refund there before it. */
  predicate Lands(es: seq<Event>, x: int) {
    exists i :: 0 <= i < |es| && es[i].Completed? && es[i].intent == x && es[i].days > 0 &&
      (es[i].eligible || RefundSeen(es[..i], x))
  }

  lemma LastSeen(es: seq<Event>, x: int)
    requires es != []
    ensures var init, e := es[..|es| - 1], es[|es| - 1];
            && (RefundSeen(es, x) <==> RefundSeen(init, x) || (e.Refunded? && e.full && e.intent == x))
            && (Lands(es, x) ==>
                  || Lands(init, x)
                  || (e.Completed? && e.intent == x && e.days > 0 && (e.eligible || RefundSeen(init, x))))
  {
    var init, e := es[..|es| - 1], es[|es| - 1];
    if RefundSeen(init, x) {
      var i :| 0 <= i < |init| && init[i].Refunded? && init[i].full && init[i].intent == x;
      assert es[i] == init[i];
    }
    if Lands(es, x) {
      var i :| 0 <= i < |es| && es[i].Completed? && es[i].intent == x && es[i].days > 0 &&
        (es[i].eligible || RefundSeen(es[..i], x));
      if i < |init| { assert init[i] == es[i] && init[..i] == es[..i]; }
    }
  }

  /** After a full refund x counts for nothing; with its completion too, it is one refunded row and no marker. */
  lemma {:induction false} RefundSettles(es: seq<Event>, x: int)
    ensures var b := BookRun(es);
            && (RefundSeen(es, x) ==> (forall i :: 0 <= i < |b.list| && b.list[i].intent == x ==> b.list[i].refunded))
            && (RefundSeen(es, x) ==> Has(b.list, x) || x in b.early)
            && (Lands(es, x) ==> Has(b.list, x))
  {
    if es == [] {
    } else {
      var init, e := es[..|es| - 1], es[|es| - 1];
      RefundSettles(init, x);
      LastSeen(es, x);
      var b, c := BookRun(init), BookRun(es);
      if Has(b.list, x) {
        var i :| 0 <= i < |b.list| && b.list[i].intent == x;
        assert c.list[i].intent == x;
      }
      if |c.list| > |b.list| { assert c.list[|b.list|].intent == e.intent; }
    }
  }

  /**
   A renewal refunded in full leaves the licence where it would be had it never been bought:
   taking every delivery of its payment intent out of the run, in whatever order and however
   often they came, does not change where the licence ends.
   */
  lemma NeverBought(start: int, end: int, es: seq<Event>, x: int)
    requires Ordered(start, es) && RefundSeen(es, x)
    ensures Run(Fresh(start, end), es).end == Run(Fresh(start, end), Without(es, x)).end
  {
    WithoutOrdered(start, es, x);
    LedgerTruth(start, end, es);
    LedgerTruth(start, end, Without(es, x));
    RunIsBookRun(start, end, es);
    RunIsBookRun(start, end, Without(es, x));
    BookWithout(es, x);
    RefundSettles(es, x);
    IdleDrops(end, BookRun(es).list, x);
  }

  /** Completion and full refund of one payment intent, in any order and any number, end in one refunded row. */
  lemma RefundConfluence(start: int, end: int, es: seq<Event>, x: int)
    requires Ordered(start, es) && RefundSeen(es, x) && Lands(es, x)
    ensures var s := Run(Fresh(start, end), es);
            && x !in s.early
            && exists i :: 0 <= i < |s.rows| && s.rows[i].intent == x && s.rows[i].refundedAt.Some? &&
                 forall j :: 0 <= j < |s.rows| && s.rows[j].intent == x ==> j == i
  {
    RunKeepsLedger(start, end, es);
    RunIsBookRun(start, end, es);
    RefundSettles(es, x);
    var s := Run(Fresh(start, end), es);
    var i :| 0 <= i < |s.rows| && Entries(s.rows)[i].intent == x;
    assert Entries(s.rows)[i].refunded;
  }

  // ------------------------------------------------ ledgers with admin edits

  /** Both walks see the same ledger apart from what each counts, and count the same rows. */
  lemma {:induction false} WalkAlike(
      a: seq<Renewal>, b: seq<Outside>, v: View, c: seq<Renewal>, d: seq<Outside>, w: View, n: nat)
    requires n <= |a| && n <= |b| && n <= |c| && n <= |d|
    requires forall i :: 0 <= i < n ==> Alike(a[i], v, c[i], w) && a[i].previous == c[i].previous && b[i] == d[i]
    ensures Walk(a, b, n, v) == Walk(c, d, n, w)
  {
    if n == 0 {
    } else {
      WalkAlike(a, b, v, c, d, w, n - 1);
      assert Alike(a[n - 1], v, c[n - 1], w);
    }
  }

  /** A ledger no refund ever touched; its previous ends may have been edited to any finite date. */
  predicate Unrefunded(rows: seq<Renewal>) {
    forall i :: 0 <= i < |rows| ==>
      && rows[i].refundedAt.None? && rows[i].previous.Some?
      && rows[i].updatesUntil == Some(RenewedUpdatesUntil(rows[i].previous, rows[i].createdAt, rows[i].days))
  }

  lemma {:induction false} WalkTracks(rows: seq<Renewal>, n: nat, v: View)
    requires Unrefunded(rows) && 0 < n <= |rows|
    ensures SameEnd(Walk(rows, Outsides(rows, n), n, v), rows[n - 1].updatesUntil)
  {
    if n == 1 {
    } else {
      WalkTracks(rows, n - 1, v);
      var at := AsOf(rows[n - 1].createdAt);
      WalkAlike(rows, Outsides(rows, n), v, rows, Outsides(rows, n - 1), v, n - 1);
      WalkAlike(rows, Outsides(rows, n - 1), v, rows, Outsides(rows, n - 1), at, n - 1);
    }
  }

  /** Any number of edits, each within or beyond the tolerance, never adds up to a second of drift. */
  lemma NoDrift(rows: seq<Renewal>)
    requires Unrefunded(rows) && rows != []
    ensures Replay(rows).Some?
    ensures Within(Replay(rows).value, rows[|rows| - 1].updatesUntil.value, SECOND)
  {
    WalkTracks(rows, |rows|, Finally);
  }

  /** Every recorded previous end is finite, as ApplyLicenseRenewalIn requires of the licence. */
  predicate Finite(rows: seq<Renewal>) {
    forall i :: 0 <= i < |rows| ==> rows[i].previous.Some? && rows[i].days >= 0
  }

  lemma {:induction false} RefundKeepsOutsides(rows: seq<Renewal>, k: nat, at: int, n: nat)
    requires k < |rows| && n <= |rows| && rows[k].refundedAt.None?
    requires forall i :: 0 <= i < |rows| ==> rows[i].createdAt <= at
    ensures Outsides(MarkRefunded(rows, k, at), n) == Outsides(rows, n)
  {
    if n == 0 {
    } else {
      RefundKeepsOutsides(rows, k, at, n - 1);
      var b, v := Outsides(rows, n - 1), AsOf(rows[n - 1].createdAt);
      WalkAlike(rows, b, v, MarkRefunded(rows, k, at), b, v, n - 1);
    }
  }

  lemma {:induction false} WalkMonotone(rows: seq<Renewal>, k: nat, at: int, b: seq<Outside>, n: nat)
    requires Finite(rows) && k < |rows| && rows[k].refundedAt.None? && 0 < n <= |rows| && n <= |b| && b[0].restart
    ensures var x, y := Walk(MarkRefunded(rows, k, at), b, n, Finally), Walk(rows, b, n, Finally);
            x.Some? && y.Some? && x.value <= y.value
  {
    if n == 1 {
    } else {
      WalkMonotone(rows, k, at, b, n - 1);
    }
  }

  /** A refund made after every purchase never moves the replayed end later, edits or not. */
  lemma RefundNeverExtends(rows: seq<Renewal>, k: nat, at: int)
    requires Finite(rows) && k < |rows| && rows[k].refundedAt.None?
    requires forall i :: 0 <= i < |rows| ==> rows[i].createdAt <= at
    ensures Replay(MarkRefunded(rows, k, at)).Some? && Replay(rows).Some?
    ensures Replay(MarkRefunded(rows, k, at)).value <= Replay(rows).value
  {
    RefundKeepsOutsides(rows, k, at, |rows|);
    OutsidesStart(rows, |rows|);
    WalkMonotone(rows, k, at, Outsides(rows, |rows|), |rows|);
  }

  lemma {:induction false} OutsidesStart(rows: seq<Renewal>, n: nat)
    requires 0 < n <= |rows|
    ensures Outsides(rows, n)[0] == RESTART
  {
    if n == 1 {
    } else {
      OutsidesStart(rows, n - 1);
    }
  }

  /** So the licence itself, edited since or not, never gains days from a refund. */
  lemma RevertNeverExtends(s: State, i: nat, at: int)
    requires Finite(s.rows) && s.end.Some? && i < |s.rows| && s.rows[i].refundedAt.None?
    requires forall j :: 0 <= j < |s.rows| ==> s.rows[j].createdAt <= at
    ensures Revert(s, i, at).end.Some? && Revert(s, i, at).end.value <= s.end.value
  {
    RefundNeverExtends(s.rows, i, at);
  }

  // ------------------------------------- a refund takes exactly its days

  lemma {:induction false} OutsidesPrefix(rows: seq<Renewal>, i: nat, n: nat)
    requires i <= n <= |rows|
    ensures Outsides(rows, n)[..i] == Outsides(rows, i)
  {
    if i == n {
      assert Outsides(rows, n)[..n] == Outsides(rows, n);
    } else {
      OutsidesPrefix(rows, i, n - 1);
      assert Outsides(rows, n)[..n - 1] == Outsides(rows, n - 1);
      assert Outsides(rows, n)[..n - 1][..i] == Outsides(rows, n)[..i];
    }
  }

  /** What the replay enters a row with is what the row recorded, to the second; and after the first none restarts. */
  lemma EntersAsRecorded(rows: seq<Renewal>, i: nat)
    requires Unrefunded(rows) && i < |rows|
    ensures var b := Outsides(rows, |rows|);
            && SameEnd(Enter(Walk(rows, b, i, Finally), rows[i], b[i]), rows[i].previous)
            && (i > 0 ==> !b[i].restart)
  {
    var b, at := Outsides(rows, |rows|), AsOf(rows[i].createdAt);
    OutsidesPrefix(rows, i, |rows|);
    OutsidesPrefix(rows, i + 1, |rows|);
    assert b[i] == b[..i + 1][i];
    WalkAlike(rows, b, Finally, rows, Outsides(rows, i), at, i);
    if i > 0 { WalkTracks(rows, i, at); }
  }

  /** The renewal at k and every later one was bought with time in hand, and would have been without k's days. */
  predicate InHand(rows: seq<Renewal>, k: nat)
    requires k < |rows| && Unrefunded(rows)
  {
    && rows[k].days >= 0 && rows[k].previous.value > rows[k].createdAt + SECOND
    && forall i :: k < i < |rows| ==> rows[i].previous.value - rows[k].days * DAY > rows[i].createdAt + SECOND
  }

  /** A row that does not restart carries a difference on. */
  lemma EnterCarries(x: int, d: int, r: Renewal, o: Outside)
    requires !o.restart
    ensures Enter(Some(x), r, o).Some? && Enter(Some(x - d), r, o) == Some(Enter(Some(x), r, o).value - d)
  {
  }

  /** So does a renewal bought with time in hand on both sides. */
  lemma CreditCarries(x: int, d: int, r: Renewal)
    requires r.updatesUntil.Some? && r.refundedAt.None? && d >= 0 && x - d > r.createdAt
    ensures Credit(Some(x), r, Finally).Some?
    ensures Credit(Some(x - d), r, Finally) == Some(Credit(Some(x), r, Finally).value - d)
  {
  }

  /** The refunded row itself makes the difference. */
  lemma CreditDiffers(x: int, r: Renewal, at: int)
    requires r.updatesUntil.Some? && r.refundedAt.None? && x > r.createdAt
    ensures Credit(Some(x), r, Finally) == Some(x + r.days * DAY)
    ensures Credit(Some(x), r.(refundedAt := Some(at)), Finally) == Some(x)
  {
  }

  /** x is y less d. */
  predicate Less(x: Option<int>, y: Option<int>, d: int) { x.Some? && y.Some? && x.value == y.value - d }

  lemma {:induction false} WalkTakesDays(rows: seq<Renewal>, k: nat, at: int, n: nat)
    requires Unrefunded(rows) && k < n <= |rows| && InHand(rows, k)
    ensures var b := Outsides(rows, |rows|);
            Less(Walk(MarkRefunded(rows, k, at), b, n, Finally), Walk(rows, b, n, Finally), rows[k].days * DAY)
  {
    var b, t, i, d := Outsides(rows, |rows|), MarkRefunded(rows, k, at), n - 1, rows[k].days * DAY;
    EntersAsRecorded(rows, i);
    var y := Walk(rows, b, i, Finally);
    var e := Enter(y, rows[i], b[i]);
    assert e.value > rows[i].previous.value - SECOND;
    if i == k {
      WalkAlike(rows, b, Finally, t, b, Finally, k);
      CreditDiffers(e.value, rows[k], at);
    } else {
      WalkTakesDays(rows, k, at, i);
      EnterCarries(y.value, d, rows[i], b[i]);
      CreditCarries(e.value, d, rows[i]);
    }
  }

  /**
   Across admin edits of any size: a renewal bought with time in hand, refunded after every purchase,
   takes back exactly the days it gave, and leaves the edits and the other renewals theirs.
   */
  lemma RefundTakesItsDays(rows: seq<Renewal>, k: nat, at: int)
    requires Unrefunded(rows) && k < |rows| && InHand(rows, k)
    requires forall i :: 0 <= i < |rows| ==> rows[i].createdAt <= at
    ensures Replay(rows).Some? && Replay(MarkRefunded(rows, k, at)).Some?
    ensures Replay(MarkRefunded(rows, k, at)).value == Replay(rows).value - rows[k].days * DAY
  {
    RefundKeepsOutsides(rows, k, at, |rows|);
    WalkTakesDays(rows, k, at, |rows|);
  }

  /** So does the licence, whatever was edited after the last renewal: the edit stays on top. */
  lemma RevertTakesItsDays(s: State, k: nat, at: int)
    requires Unrefunded(s.rows) && s.end.Some? && k < |s.rows| && InHand(s.rows, k)
    requires forall i :: 0 <= i < |s.rows| ==> s.rows[i].createdAt <= at
    ensures Revert(s, k, at).end == Some(s.end.value - s.rows[k].days * DAY)
    ensures Revert(s, k, at).rows == s.rows[k := s.rows[k].(refundedAt := Some(at))]
  {
    RefundTakesItsDays(s.rows, k, at);
  }

  /** Any later edit of the licence survives a refund to the nanosecond, time in hand or not. */
  lemma RevertKeepsEdit(s: State, k: nat, at: int, edit: int)
    requires s.end.Some? && k < |s.rows|
    ensures Revert(s, k, at).end.Some?
    ensures Revert(s.(end := Some(s.end.value + edit)), k, at).end == Some(Revert(s, k, at).end.value + edit)
  {
  }

  /** A renewal runs for its days from what is left of the period, or from now when nothing is. */
  lemma RenewalRuns(current: Option<int>, now: int, days: int)
    ensures var end := RenewedUpdatesUntil(current, now, days);
            var from := end - days * 86_400 * 1_000_000_000;
            && from >= now && (current.Some? ==> from >= current.value)
            && (from == now || (current.Some? && from == current.value))
  {
  }

  /** Two ends are the same when they are less than a second apart, or when neither is an end at all. */
  lemma SameEndIsExact(a: Option<int>, b: Option<int>)
    ensures SameEnd(a, b) <==>
            || (a.None? && b.None?)
            || (a.Some? && b.Some? && a.value - b.value < 1_000_000_000 && b.value - a.value < 1_000_000_000)
  {
  }

  /** A licence with updates for life, or not to be renewed, keeps what it has, and nothing is recorded. */
  lemma IneligibleIsLeft(s: State, e: Event)
    requires e.Completed? && e.intent !in s.early && (s.end.None? || !e.eligible || e.days <= 0)
    ensures Fulfil(s, e) == s
  {
  }

  /** Where the ledger gives no end to go by, a refund takes the days the renewal gave. */
  lemma RevertWithoutReplay(s: State, i: nat, at: int)
    requires i < |s.rows| && s.end.Some? && s.rows[i].updatesUntil.Some?
    requires Replay(s.rows).None? || Replay(MarkRefunded(s.rows, i, at)).None?
    ensures Revert(s, i, at).end == Some(s.end.value - s.rows[i].days * 86_400 * 1_000_000_000)
  {
  }

  /** A renewal that gave nothing takes nothing, nor does any from a licence with updates for life. */
  lemma RevertOfNothing(s: State, i: nat, at: int)
    requires i < |s.rows| && (s.end.None? || s.rows[i].updatesUntil.None?)
    ensures Revert(s, i, at).end == s.end && Revert(s, i, at).rows[i].refundedAt == Some(at)
  {
  }
}
