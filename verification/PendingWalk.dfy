/**
 The walk over checkout sessions that completed unpaid: pages of the backlog,
 oldest first, a bounded number a round, continued from a cursor that outlives
 the round. The backlog changes between any two listings. Sessions are known
 by their place in its order.
 */
module PendingWalk {
  import opened Common

  predicate Ascending(s: seq<int>) { forall i, j :: 0 <= i < j < |s| ==> s[i] < s[j] }

  predicate Beyond(after: Option<int>, x: int) { after.None? || after.value < x }

  /** How many rows the cursor has passed. */
  function Passed(table: seq<int>, after: Option<int>): (k: nat)
    ensures k <= |table| && (forall i :: 0 <= i < k ==> !Beyond(after, table[i]))
    ensures k < |table| ==> Beyond(after, table[k])
    decreases table
  {
    if table == [] || Beyond(after, table[0]) then 0 else 1 + Passed(table[1..], after)
  }

  /** ListPendingCheckoutSessions. */
  function Page(table: seq<int>, after: Option<int>, limit: nat): seq<int> {
    var k := Passed(table, after);
    if k + limit <= |table| then table[k..k + limit] else table[k..]
  }

  /** What the n-th listing of the backlog finds. */
  type Backlog = nat -> seq<int>

  ghost predicate Sorted(b: Backlog) { forall n: nat :: Ascending(b(n)) }

  /** Pending at every listing from one up to another. */
  ghost predicate Stays(b: Backlog, x: int, from: nat, to: nat) { forall n: nat :: from <= n < to ==> x in b(n) }

  /** One round: where its cursor stood and ended, the listings it made, and the sessions it looked at. */
  datatype Round = Round(from: Option<int>, to: Option<int>, first: nat, last: nat, visited: seq<int>, ended: bool)

  function Reached(r: Round): Option<int> {
    if r.visited == [] then r.from else Some(r.visited[|r.visited| - 1])
  }

  /** Every session looked at was pending at some listing, and after the cursor. */
  ghost predicate Backed(b: Backlog, r: Round) {
    forall x :: x in r.visited ==> Beyond(r.from, x) && exists n: nat :: r.first <= n < r.last && x in b(n)
  }

  /** None that stayed pending was passed over. */
  ghost predicate Complete(b: Backlog, r: Round) {
    forall x :: Stays(b, x, r.first, r.last) && Beyond(r.from, x) && (r.ended || !Beyond(Reached(r), x)) ==>
      x in r.visited
  }

  ghost predicate Covers(b: Backlog, r: Round) {
    r.first <= r.last && Ascending(r.visited) && Backed(b, r) && Complete(b, r)
  }

  /** A round ends at the end of the backlog and starts over, or stops at its cap and keeps its place. */
  ghost predicate Done(b: Backlog, r: Round, page: nat, cap: nat) {
    && Covers(b, r) && |r.visited| < cap + page
    && (if r.ended then r.to.None? else r.to == Reached(r) && |r.visited| >= cap)
  }

  /** A round of one listing. */
  function Listing(b: Backlog, after: Option<int>, n: nat, page: nat): Round {
    var rows := Page(b(n), after, page);
    Round(after, after, n, n + 1, rows, rows == [])
  }

  function Both(a: Round, r: Round): Round { Round(a.from, r.to, a.first, r.last, a.visited + r.visited, r.ended) }

  class Walker {
    const page: nat
    const cap: nat
    var pendingAfter: Option<int>
    var listings: nat

    ghost predicate Valid()
      reads this
    {
      page > 0 && cap > 0
    }

    constructor (limit: nat)
      ensures Valid() && pendingAfter.None? && page == (if 0 < limit < 100 then limit else 100)
      ensures cap == if limit > 0 then limit else 1000
    {
      page := if 0 < limit < 100 then limit else 100;
      cap := if limit > 0 then limit else 1000;
      pendingAfter, listings := None, 0;
    }

    method SyncPendingCheckouts(b: Backlog) returns (r: Round)
      requires Valid() && Sorted(b)
      modifies this`pendingAfter, this`listings
      ensures Done(b, r, page, cap)
      ensures r.from == old(pendingAfter) && r.to == pendingAfter
      ensures r.first == old(listings) && r.last == listings
    {
      r := Round(pendingAfter, pendingAfter, listings, listings, [], false);
      var after, seen := pendingAfter, 0;
      while seen < cap
        invariant seen == |r.visited| < cap + page && after == Reached(r) && !r.ended
        invariant r.from == old(pendingAfter) && r.first == old(listings) && r.last == listings && Covers(b, r)
        decreases cap + page - seen
      {
        var rows := Page(b(listings), after, page);
        ghost var one := Listing(b, after, listings, page);
        PageCovers(b, after, listings, page);
        RoundAdds(b, r, one);
        listings := listings + 1;
        if rows == [] {
          pendingAfter := None;
          assert r.visited + [] == r.visited;
          return r.(to := None, last := listings, ended := true);
        }
        r := r.(to := after, visited := r.visited + rows, last := listings);
        seen := seen + |rows|;
        after := Some(rows[|rows| - 1]);
      }
      pendingAfter := after;
      r := r.(to := after);
    }
  }

  /** A page is the next rows of the table after the cursor, all of them when it is empty. */
  lemma PageIsNext(table: seq<int>, after: Option<int>, limit: nat)
    requires Ascending(table) && limit > 0
    ensures var p := Page(table, after, limit);
            && Ascending(p) && (forall x :: x in p ==> x in table && Beyond(after, x))
            && (forall x :: x in table && Beyond(after, x) && (p == [] || x <= p[|p| - 1]) ==> x in p)
  {
    var k, p := Passed(table, after), Page(table, after, limit);
    assert forall i :: 0 <= i < |p| ==> p[i] == table[k + i];
    forall x | x in table && Beyond(after, x) && (p == [] || x <= p[|p| - 1]) ensures x in p {
      var i :| 0 <= i < |table| && table[i] == x;
      assert k <= i < k + |p| && p[i - k] == x;
    }
  }

  /** One listing is a round of its own; an empty one is the end of the backlog. */
  lemma PageCovers(b: Backlog, after: Option<int>, n: nat, page: nat)
    requires Sorted(b) && page > 0
    ensures Covers(b, Listing(b, after, n, page))
  {
    assert Ascending(b(n));
    PageIsNext(b(n), after, page);
    var r := Listing(b, after, n, page);
    forall x | Stays(b, x, n, n + 1) && Beyond(after, x) && (r.ended || !Beyond(Reached(r), x)) ensures x in r.visited {
      assert x in b(n);
    }
  }

  /** A round that takes up where the earlier ones left off. */
  lemma RoundAdds(b: Backlog, a: Round, r: Round)
    requires Covers(b, a) && Covers(b, r) && !a.ended && r.first == a.last && r.from == Reached(a)
    ensures Covers(b, Both(a, r)) && (r.visited != [] || r.ended ==> Reached(Both(a, r)) == Reached(r))
  {
    var t := Both(a, r);
    assert forall x :: x in a.visited ==> !Beyond(Reached(a), x);
    JoinAscends(a.visited, r.visited);
    assert Backed(b, t) by { BothBacked(b, a, r); }
    forall x | Stays(b, x, t.first, t.last) && Beyond(t.from, x) && (t.ended || !Beyond(Reached(t), x))
      ensures x in t.visited
    {
      assert Stays(b, x, a.first, a.last) && Stays(b, x, r.first, r.last);
    }
  }

  lemma JoinAscends(s: seq<int>, t: seq<int>)
    requires Ascending(s) && Ascending(t) && forall x :: x in t ==> s == [] || s[|s| - 1] < x
    ensures Ascending(s + t)
  {
    forall i, j | 0 <= i < j < |s + t| ensures (s + t)[i] < (s + t)[j] {
      if i < |s| <= j { assert t[j - |s|] in t; }
    }
  }

  lemma BothBacked(b: Backlog, a: Round, r: Round)
    requires Backed(b, a) && Backed(b, r) && r.first == a.last && r.from == Reached(a)
    requires a.first <= a.last && r.first <= r.last && Ascending(a.visited)
    ensures Backed(b, Both(a, r))
  {
    var t := Both(a, r);
    forall x | x in t.visited ensures Beyond(t.from, x) && exists n: nat :: t.first <= n < t.last && x in b(n) {
      if x in a.visited {
        var n: nat :| a.first <= n < a.last && x in b(n);
      } else {
        var n: nat :| r.first <= n < r.last && x in b(n);
        assert Beyond(Reached(a), x);
        if a.visited != [] { assert a.visited[|a.visited| - 1] in a.visited; }
      }
    }
  }

  // ---------------------------------------------- from reset to reset

  /** Rounds that follow each other from one reset of the cursor to the next. */
  ghost predicate Chain(b: Backlog, rs: seq<Round>, page: nat, cap: nat) {
    && rs != [] && rs[0].from.None?
    && (forall i :: 0 <= i < |rs| ==> Done(b, rs[i], page, cap) && (rs[i].ended <==> i == |rs| - 1))
    && (forall i :: 0 < i < |rs| ==> rs[i].from == rs[i - 1].to && rs[i].first == rs[i - 1].last)
  }

  function Visited(rs: seq<Round>): seq<int> {
    if rs == [] then [] else Visited(rs[..|rs| - 1]) + rs[|rs| - 1].visited
  }

  /** The first rounds of a chain, taken as one. */
  function Joined(rs: seq<Round>, n: nat): Round
    requires 0 < n <= |rs|
  {
    Round(rs[0].from, rs[n - 1].to, rs[0].first, rs[n - 1].last, Visited(rs[..n]), rs[n - 1].ended)
  }

  lemma {:induction false} ChainCovers(b: Backlog, rs: seq<Round>, page: nat, cap: nat, n: nat)
    requires Chain(b, rs, page, cap) && cap > 0 && 0 < n <= |rs|
    ensures Covers(b, Joined(rs, n)) && (n < |rs| ==> rs[n - 1].to == Reached(Joined(rs, n)))
  {
    if n == 1 {
      assert Visited(rs[..1]) == rs[0].visited;
      assert Joined(rs, 1) == rs[0];
    } else {
      ChainCovers(b, rs, page, cap, n - 1);
      assert rs[..n][..n - 1] == rs[..n - 1];
      RoundAdds(b, Joined(rs, n - 1), rs[n - 1]);
    }
  }

  /**
   Between two resets of the cursor, whatever the size of the backlog and however it changes:
   every session that stays pending is looked at, and none is looked at twice.
   */
  lemma VisitedExactlyOnce(b: Backlog, rs: seq<Round>, page: nat, cap: nat, x: int)
    requires Chain(b, rs, page, cap) && cap > 0
    requires Stays(b, x, rs[0].first, rs[|rs| - 1].last)
    ensures exists i :: 0 <= i < |Visited(rs)| && Visited(rs)[i] == x &&
              forall j :: 0 <= j < |Visited(rs)| && Visited(rs)[j] == x ==> j == i
  {
    ChainCovers(b, rs, page, cap, |rs|);
    assert rs[..|rs|] == rs;
    assert x in Visited(rs);
  }
}
