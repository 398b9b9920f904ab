/**
 The feed gate: whether a product's update feeds ask for the licence key, the
 wait for links its public feeds handed out earlier, and the writes of update
 periods that depend on both.

 A transaction is one step at one instant of the database clock. Between the
 row a product edit reads and the transaction that writes it, anything may
 happen. Instants and durations are nanoseconds.
 */
module FeedGate {
  import opened Common
  import opened PlanLimits

  const MAX_AGE: int := 60_000_000_000

  datatype Row = Row(kind: ProductType, gate: bool, gatedAt: Option<int>)

  /**
   `bounded` holds the plans that sell an update period or renewals and the licences with a
   cutoff, `former` those that held one once; `ttl` is the recorded bound on link lifetimes;
   `links` the latest instant to which
   anything a public feed handed out can be used; `rows` every row an edit may have read.
   */
  datatype State = State(
    now: int, row: Row, bounded: set<int>, former: set<int>, published: bool, ttl: int, links: Option<int>,
    rows: set<Row>)

  /** The fields of a product edit that concern the gate; absent ones are left alone. */
  datatype Edit = Edit(kind: Option<ProductType>, gate: Option<bool>)

  datatype Event =
    | Publish(at: int)
    | Serve(life: int, at: int)                             // the public feed answers
    | Raise(ttl: int, at: int)                              // a replica records a longer lifetime
    | Update(read: Row, edit: Edit, own: int, at: int)      // UpdateProduct commits
    | Bound(id: int, own: int, at: int)                     // a period, renewals or a cutoff is written
    | Issue(id: int, at: int)                               // a licence takes its cutoff from its plan
    | Unbound(id: int, at: int)                             // ... is cleared or deleted
    | Revert(id: int, at: int)                              // an upgrade is undone: its cutoff comes back

  predicate Serves(t: ProductType) { Supports(t, Releases) }

  function Max(a: int, b: int): int { if a > b then a else b }

  /** What a public feed hands out can be used for this long, at most. */
  function Drain(s: State, own: int): int { Max(Max(s.ttl, own), MAX_AGE) }

  /** FeedDrainLeftIn: still waiting for what the public feed handed out before gatedAt. */
  predicate Draining(s: State, gatedAt: Option<int>, own: int, at: int) {
    gatedAt.Some? && s.published && at < gatedAt.value + Drain(s, own)
  }

  predicate Links(s: State, at: int) { s.links.Some? && at < s.links.value }

  // ------------------------------------------------------ product edits

  /** The database trigger on products: stamps a gate switched on, refuses feeds left open. */
  function Triggered(was: Row, to: Row, bounded: bool, at: int): Option<Row> {
    var r := if to.gate && !was.gate && to.gatedAt == was.gatedAt then to.(gatedAt := Some(at)) else to;
    if Serves(r.kind) && !r.gate && (was.gate || !Serves(was.kind)) && bounded then None else Some(r)
  }

  function Kind(read: Row, e: Edit): ProductType { if e.kind.Some? then e.kind.value else read.kind }

  predicate Gate(read: Row, e: Edit) { if e.gate.Some? then e.gate.value else read.gate }

  predicate GatingNow(read: Row, e: Edit) { e.gate == Some(true) && !read.gate }

  predicate Restoring(read: Row, e: Edit) { !Serves(read.kind) && Serves(Kind(read, e)) && Gate(read, e) }

  /** The gate, stamped in a statement of its own. */
  function Stamp(row: Row, read: Row, e: Edit, at: int): Row {
    if GatingNow(read, e) then row.(gate := true, gatedAt := Some(at)) else row
  }

  /** The columns an edit names, over a row. */
  function Written(row: Row, read: Row, e: Edit): Row {
    row.(kind := if e.kind.Some? then e.kind.value else row.kind,
         gate := if e.gate.Some? && !GatingNow(read, e) then e.gate.value else row.gate)
  }

  datatype Outcome = Saved(row: Row) | Waiting(row: Row) | Conflict

  function Edited(s: State, read: Row, e: Edit, own: int, at: int): Outcome {
    var first := Stamp(s.row, read, e, at);
    if Restoring(read, e) && s.bounded != {} && Draining(s, first.gatedAt, own, at) then Waiting(first)
    else
      match Triggered(first, Written(first, read, e), s.bounded != {}, at)
      case None => Conflict
      case Some(r) => Saved(r)
  }

  /** The transaction of UpdateProduct, statement by statement, on the stored row. */
  class Product {
    var row: Row
    var bounded: set<int>
    var published: bool
    var ttl: int

    constructor (row: Row)
      ensures this.row == row && bounded == {} && !published && ttl == 0
    {
      this.row, bounded, published, ttl := row, {}, false, 0;
    }

    function Here(): State
      reads this
    {
      State(0, row, bounded, {}, published, ttl, None, {row})
    }

    /** One UPDATE of the type or gate column, with its trigger. */
    method Write(to: Row, at: int) returns (ok: bool)
      modifies this`row
      ensures ok == Triggered(old(row), to, bounded != {}, at).Some?
      ensures row == if ok then Triggered(old(row), to, bounded != {}, at).value else old(row)
    {
      var t := to;
      if t.gate && !row.gate && t.gatedAt == row.gatedAt { t := t.(gatedAt := Some(at)); }
      ok := !(Serves(t.kind) && !t.gate && (row.gate || !Serves(row.kind)) && bounded != {});
      if ok { row := t; }
    }

    method Update(read: Row, e: Edit, own: int, at: int) returns (o: Outcome)
      modifies this`row
      ensures o == old(Edited(Here(), read, e, own, at))
      ensures row == if o.Conflict? then old(row) else o.row
    {
      var before := row;
      var p := read.(kind := if e.kind.Some? then e.kind.value else read.kind);
      var gatingNow := false;
      if e.gate.Some? {
        gatingNow := e.gate.value && !read.gate;
        p := p.(gate := e.gate.value);
      }
      var restoring := !Serves(read.kind) && Serves(p.kind) && p.gate;
      if gatingNow {
        var _ := Write(row.(gate := true, gatedAt := Some(at)), at);
      }
      p := p.(gatedAt := row.gatedAt);
      if restoring && bounded != {} && Draining(Here(), p.gatedAt, own, at) {
        return Waiting(row);
      }
      var to := row;
      if e.kind.Some? { to := to.(kind := p.kind); }
      if e.gate.Some? && !gatingNow { to := to.(gate := p.gate); }
      var ok := Write(to, at);
      if !ok {
        row := before;
        return Conflict;
      }
      return Saved(row);
    }
  }

  // ------------------------------------------------------------- steps

  predicate Enabled(s: State, e: Event) {
    s.now < e.at &&
    match e
    case Publish(_) => Serves(s.row.kind)
    case Serve(life, _) => Serves(s.row.kind) && !s.row.gate && s.published && 0 <= life <= Max(s.ttl, MAX_AGE)
    case Update(read, _, _, _) => read in s.rows
    case Issue(_, _) => s.bounded != {}
    case Revert(id, _) => id in s.former
    case _ => true
  }

  function WithRow(s: State, r: Row): State { s.(row := r, rows := s.rows + {r}) }

  function Next(s: State, e: Event): State
    requires Enabled(s, e)
  {
    (match e
     case Publish(_) => s.(published := true)
     case Serve(life, at) =>
       s.(links := Some(if s.links.Some? then Max(s.links.value, at + life) else at + life))
     case Raise(ttl, _) => s.(ttl := Max(s.ttl, ttl))
     case Update(read, edit, own, at) =>
       var o := Edited(s, read, edit, own, at);
       if o.Conflict? then s else WithRow(s, o.row)
     case Bound(id, own, at) =>
       if Serves(s.row.kind) && (!s.row.gate || Draining(s, s.row.gatedAt, own, at)) then s
       else s.(bounded := s.bounded + {id})
     case Issue(id, _) =>
       if Serves(s.row.kind) && !s.row.gate then s else s.(bounded := s.bounded + {id})
     case Unbound(id, _) =>
       s.(bounded := s.bounded - {id}, former := if id in s.bounded then s.former + {id} else s.former)
     case Revert(id, _) =>
       if Serves(s.row.kind) && !s.row.gate then s else s.(bounded := s.bounded + {id})).(now := e.at)
  }

  /** What an update period promises: no feed, or no public link, serves a release past it. */
  ghost predicate Safe(s: State) {
    Serves(s.row.kind) && s.bounded != {} ==> s.row.gate && !Links(s, s.now)
  }

  ghost predicate Inv(s: State) {
    && Safe(s) && s.row in s.rows
    && (s.links.Some? ==> s.published && s.links.value <= s.now + Max(s.ttl, MAX_AGE))
    && (s.row.gate ==>
          && s.row.gatedAt.Some? && s.row.gatedAt.value <= s.now
          && (s.links.Some? ==> s.links.value <= s.row.gatedAt.value + Max(s.ttl, MAX_AGE)))
  }

  /**
   An edit decides from the row it read whether to wait for links. This is when that decision
   is right for the row it is written over: when it opens feeds on a product that served none,
   it had read one that served none, and the gate it waits from is the one it leaves on.
   */
  predicate Current(row: Row, read: Row, e: Edit) {
    !Serves(row.kind) && e.kind.Some? && Serves(e.kind.value) && Written(Stamp(row, read, e, 0), read, e).gate ==>
      && !Serves(read.kind)
      && (if e.gate == Some(true) then !read.gate || row.gate else read.gate)
  }

  /** A cutoff that comes back is the first thing bounded only when the links of public feeds have been waited for. */
  predicate Waited(s: State, e: Event) {
    e.Revert? && s.bounded == {} && Serves(s.row.kind) && s.row.gate ==> !Draining(s, s.row.gatedAt, 0, e.at)
  }

  predicate Timely(s: State, e: Event) { e.Update? && s.bounded != {} ==> Current(s.row, e.read, e.edit) }

  /** Which of the two conditions a run is held to. */
  datatype Rules = Rules(timely: bool, waited: bool)

  const ALL := Rules(true, true)

  predicate Allowed(s: State, e: Event, r: Rules) {
    Enabled(s, e) && (r.timely ==> Timely(s, e)) && (r.waited ==> Waited(s, e))
  }

  lemma StepKeeps(s: State, e: Event)
    requires Inv(s) && Allowed(s, e, ALL)
    ensures Inv(Next(s, e))
  {
  }

  /** An edit that read `read` can land on s, a product with something bounded and row's type and gate. */
  ghost predicate Lands(s: State, row: Row, read: Row, at: int) {
    Inv(s) && s.row.kind == row.kind && s.row.gate == row.gate && s.bounded != {} && read in s.rows && s.now < at
  }

  /**
   Exactly the edits that may land late: over a row of this type and gate the edit leaves every
   product whose links have been waited for as it must be if, and only if, it is current.
   */
  lemma LateEditIsExact(row: Row, read: Row, edit: Edit, own: int)
    ensures Current(row, read, edit) <==>
            forall s, at :: Lands(s, row, read, at) ==> Safe(Next(s, Update(read, edit, own, at)))
  {
    if Current(row, read, edit) {
      forall s, at | Lands(s, row, read, at) ensures Safe(Next(s, Update(read, edit, own, at)))
      {
        assert Current(s.row, read, edit);
        StepKeeps(s, Update(read, edit, own, at));
      }
    } else {
      var d := Max(Max(0, own), MAX_AGE);
      var r := row.(gatedAt := Some(if row.gate then 0 else -d));
      var s := State(0, r, {0}, {}, true, 0, Some(MAX_AGE), {r, read});
      assert Lands(s, row, read, 1);
      assert !Safe(Next(s, Update(read, edit, own, 1)));
    }
  }

  /** A product with this row, publishing history and link bound, and something bounded or nothing. */
  ghost predicate Holds(s: State, row: Row, published: bool, ttl: int, bounded: bool, id: int, at: int) {
    && Inv(s) && s.row == row && s.published == published && s.ttl == ttl && (s.bounded != {}) == bounded
    && id in s.former && s.now < at
  }

  /**
   Undoing an upgrade writes its cutoff back with no look at links. That leaves every such product as
   it must be if, and only if, the product serves no feeds, its gate is off and the write is refused,
   something is bounded already, or no wait is running.
   */
  lemma RevertIsExact(row: Row, published: bool, ttl: int, bounded: bool, id: int, at: int)
    requires row.gatedAt.Some? ==> row.gatedAt.value < at
    ensures (forall s :: Holds(s, row, published, ttl, bounded, id, at) ==> Safe(Next(s, Revert(id, at))))
            <==> || !Serves(row.kind) || !row.gate || bounded
                 || !(row.gatedAt.Some? && published && at < row.gatedAt.value + Max(Max(ttl, 0), MAX_AGE))
  {
    if Serves(row.kind) && row.gate && !bounded && row.gatedAt.Some? && published &&
       at < row.gatedAt.value + Max(Max(ttl, 0), MAX_AGE) {
      var now := row.gatedAt.value;
      var s := State(now, row, {}, {id}, true, ttl, Some(now + Max(ttl, MAX_AGE)), {row});
      assert Holds(s, row, published, ttl, bounded, id, at);
      assert !Safe(Next(s, Revert(id, at)));
    }
  }

  // -------------------------------------------------------- whole runs

  ghost predicate Follows(s: State, es: seq<Event>, r: Rules)
    decreases |es|, 0
  {
    es == [] ||
    (Follows(s, es[..|es| - 1], r) && Allowed(End(s, es[..|es| - 1], r), es[|es| - 1], r))
  }

  ghost function End(s: State, es: seq<Event>, r: Rules): State
    requires Follows(s, es, r)
    decreases |es|, 1
  {
    if es == [] then s else Next(End(s, es[..|es| - 1], r), es[|es| - 1])
  }

  /** A product as it is created. */
  predicate Start(s: State) {
    && s.bounded == {} && s.former == {} && !s.published && s.links.None? && s.rows == {s.row}
    && (s.row.gate ==> s.row.gatedAt.Some? && s.row.gatedAt.value <= s.now)
  }

  lemma {:induction false} RunKeeps(s: State, es: seq<Event>)
    requires Inv(s) && Follows(s, es, ALL)
    ensures Inv(End(s, es, ALL))
  {
    if es == [] {
    } else {
      RunKeeps(s, es[..|es| - 1]);
      StepKeeps(End(s, es[..|es| - 1], ALL), es[|es| - 1]);
    }
  }

  /**
   Across gates switched off and on, types changed and changed back, and periods and cutoffs
   written, cleared and brought back meanwhile: a product that serves feeds and has anything bounded is gated, and every
   link its public feeds ever handed out has expired.
   */
  lemma GateSafety(s: State, es: seq<Event>)
    requires Start(s) && Follows(s, es, ALL)
    ensures Safe(End(s, es, ALL))
  {
    RunKeeps(s, es);
  }

  /** Some run, late edits included, leads from s to t. */
  ghost predicate Reaches(s: State, t: State, r: Rules) { exists es :: Follows(s, es, r) && End(s, es, r) == t }

  lemma Reach(s: State, t: State, e: Event, u: State, r: Rules)
    requires Reaches(s, t, r) && Allowed(t, e, r) && Next(t, e) == u
    ensures Reaches(s, u, r)
  {
    var es :| Follows(s, es, r) && End(s, es, r) == t;
    assert (es + [e])[..|es|] == es;
    assert Follows(s, es + [e], r);
  }

  /** An edit that read a desktop product lands after that product became a web service and was sold with a period. */
  lemma LateEditIsUnsafe()
    ensures exists s, t :: Start(s) && Reaches(s, t, Rules(false, true)) && !Safe(t)
  {
    var r := Rules(false, true);
    var open := Row(Desktop, false, None);
    var s := State(0, open, {}, {}, false, 0, None, {open});
    var saas := Row(SaaS, false, None);
    var a := s.(now := 1, published := true);
    var b := a.(now := 2, links := Some(2 + MAX_AGE));
    var c := WithRow(b, saas).(now := 3);
    var d := c.(now := 4, bounded := {7});
    var gated := Row(Desktop, true, Some(5));
    assert Follows(s, [], r) && End(s, [], r) == s;
    assert Reaches(s, a, r) by { Reach(s, s, Publish(1), a, r); }
    assert Reaches(s, b, r) by { Reach(s, a, Serve(MAX_AGE, 2), b, r); }
    assert Reaches(s, c, r) by { Reach(s, b, Update(open, Edit(Some(SaaS), None), 0, 3), c, r); }
    assert Reaches(s, d, r) by { Reach(s, c, Bound(7, 0, 4), d, r); }
    var e := WithRow(d, gated).(now := 5);
    assert Reaches(s, e, r) by { Reach(s, d, Update(open, Edit(Some(Desktop), Some(true)), 0, 5), e, r); }
    assert Start(s) && !Safe(e);
  }

  const GATED := Row(Desktop, true, Some(0))
  const UNGATED := GATED.(gate := false)
  const LATER: int := 2 * MAX_AGE

  /** A licence's cutoff is set, and gives way to an upgrade. */
  function Upgraded(): State {
    State(LATER + 1, GATED, {}, {7}, true, 0, None, {GATED})
  }

  lemma UpgradedReached(r: Rules)
    ensures Reaches(State(0, GATED, {}, {}, false, 0, None, {GATED}), Upgraded(), r)
  {
    var s := State(0, GATED, {}, {}, false, 0, None, {GATED});
    assert Follows(s, [], r) && End(s, [], r) == s;
    var a := s.(now := 1, published := true);
    assert Reaches(s, a, r) by { Reach(s, s, Publish(1), a, r); }
    var b := a.(now := LATER, bounded := {7});
    assert Reaches(s, b, r) by { Reach(s, a, Bound(7, 0, LATER), b, r); }
    assert Reaches(s, Upgraded(), r) by { Reach(s, b, Unbound(7, LATER + 1), Upgraded(), r); }
  }

  /** The gate goes off, a link is signed, the gate goes on again, and the upgrade is refunded. */
  lemma RevertIsUnsafe()
    ensures exists s, t :: Start(s) && Reaches(s, t, Rules(true, false)) && !Safe(t)
  {
    var r := Rules(true, false);
    var s := State(0, GATED, {}, {}, false, 0, None, {GATED});
    UpgradedReached(r);
    var a := WithRow(Upgraded(), UNGATED).(now := LATER + 2);
    assert Reaches(s, a, r) by { Reach(s, Upgraded(), Update(GATED, Edit(None, Some(false)), 0, LATER + 2), a, r); }
    var b := a.(now := LATER + 3, links := Some(LATER + 3 + MAX_AGE));
    assert Reaches(s, b, r) by { Reach(s, a, Serve(MAX_AGE, LATER + 3), b, r); }
    var c := WithRow(b, GATED.(gatedAt := Some(LATER + 4))).(now := LATER + 4);
    assert Reaches(s, c, r) by { Reach(s, b, Update(UNGATED, Edit(None, Some(true)), 0, LATER + 4), c, r); }
    var d := c.(now := LATER + 5, bounded := {7});
    assert Reaches(s, d, r) by { Reach(s, c, Revert(7, LATER + 5), d, r); }
    assert Start(s) && !Safe(d);
  }

  // ----------------------------------------------------------- retries

  /** The same edit again and again, each time from the row as it then is. */
  ghost function Retried(s: State, e: Edit, own: int, times: seq<int>): State {
    if times == [] then s
    else
      var t := Retried(s, e, own, times[..|times| - 1]);
      var o := Edited(t, t.row, e, own, times[|times| - 1]);
      if o.Conflict? then t else WithRow(t, o.row)
  }

  /**
   A type change refused because links still drain leaves the gate on and the wait running:
   retrying never restarts it, and the first try after it has passed gives the feeds back.
   */
  lemma {:induction false} RetryKeepsWaiting(s: State, e: Edit, own: int, first: int, times: seq<int>, last: int)
    requires s.row in s.rows && e.gate == Some(true)
    requires Edited(s, s.row, e, own, first).Waiting?
    requires forall i :: 0 <= i < |times| ==>
               times[i] < Edited(s, s.row, e, own, first).row.gatedAt.value + Drain(s, own)
    ensures var w := Edited(s, s.row, e, own, first).row;
            var t := Retried(WithRow(s, w), e, own, times);
            && w.gate && w.gatedAt.Some? && w.kind == s.row.kind
            && t == WithRow(s, w)
            && Edited(t, t.row, e, own, last) ==
               if last < w.gatedAt.value + Drain(s, own) then Waiting(w) else Saved(w.(kind := e.kind.value))
  {
    if times == [] {
    } else {
      RetryKeepsWaiting(s, e, own, first, times[..|times| - 1], times[|times| - 1]);
    }
  }

  // ------------------------------------------------- what is let through

  /**
   A period, renewals or a cutoff may be written exactly when the product serves no feeds, or its gate
   is on and, if it ever published, the recorded link lifetime, this replica's own and a minute have all
   passed since the gate went up. A licence issued on a bounded plan asks for the gate alone.
   */
  lemma BoundIsExact(s: State, id: int, own: int, at: int)
    requires s.now < at
    ensures Next(s, Bound(id, own, at)).bounded ==
            if || s.row.kind == SaaS || s.row.kind == Unknown
               || (&& s.row.gate
                   && (|| s.row.gatedAt.None? || !s.published
                       || (var since := at - s.row.gatedAt.value;
                           since >= s.ttl && since >= own && since >= 60_000_000_000)))
            then s.bounded + {id} else s.bounded
    ensures s.bounded != {} ==>
            Next(s, Issue(id, at)).bounded ==
            if s.row.kind == SaaS || s.row.kind == Unknown || s.row.gate then s.bounded + {id} else s.bounded
  {
    Capabilities();
  }

  /**
   An edit made over the row it read: what it names is saved, the gate's instant is now when it goes on
   and stays otherwise, feeds are not left open over anything bounded, and feeds given back over
   something bounded wait, with only the gate saved.
   */
  lemma EditIsExact(s: State, e: Edit, own: int, at: int)
    ensures var row := s.row;
            var kind := if e.kind.Some? then e.kind.value else row.kind;
            var gate := if e.gate.Some? then e.gate.value else row.gate;
            var since := if gate && !row.gate then Some(at) else row.gatedAt;
            var back := Serves(kind) && !Serves(row.kind);
            match Edited(s, row, e, own, at)
            case Saved(r) =>
              && r == Row(kind, gate, since) && (s.bounded != {} && Serves(kind) && (row.gate || back) ==> gate)
              && (s.bounded != {} && back ==> !Draining(s, since, own, at))
            case Waiting(r) =>
              s.bounded != {} && back && gate && r == Row(row.kind, gate, since) && Draining(s, since, own, at)
            case Conflict => s.bounded != {} && Serves(kind) && !gate && (row.gate || back)
  {
  }

  /** What a public feed hands out can be used for its own life, and what it handed out before for theirs. */
  lemma LinksAddUp(s: State, life: int, at: int)
    requires Enabled(s, Serve(life, at))
    ensures forall z :: Links(Next(s, Serve(life, at)), z) <==> Links(s, z) || z < at + life
  {
  }
}
