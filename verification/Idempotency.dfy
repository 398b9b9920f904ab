/**
 Idempotency keys: one slot per key and endpoint, claimed before the handler
 runs and completed or abandoned after it, while requests with the same key
 retry, panic, fail and overlap. Each statement is one step. The slot is
 followed for as long as it lives (its 24 hours).
 */
module Idempotency {
  import opened Common

  type Bytes = seq<bv8>

  const CAP: nat := 65536

  function Cut(b: Bytes): Bytes { if |b| > CAP then b[..CAP] else b }

  // --------------------------------------------------- captureWriter

  datatype Call = Header(code: nat) | Body(bytes: Bytes)

  /** The response a handler's calls add up to; status 0 when it never answered. */
  datatype Captured = Captured(status: nat, body: Bytes)

  function Capture(calls: seq<Call>): Captured {
    if calls == [] then Captured(0, [])
    else
      var was, c := Capture(calls[..|calls| - 1]), calls[|calls| - 1];
      match c
      case Header(code) => was.(status := if was.status == 0 then code else was.status)
      case Body(b) => Captured(if was.status == 0 then 200 else was.status, was.body + b)
  }

  class CaptureWriter {
    var status: nat
    var buf: Bytes
    ghost var calls: seq<Call>

    ghost predicate Valid()
      reads this
    {
      Captured(status, buf) == Capture(calls)
    }

    constructor ()
      ensures Valid() && calls == []
    {
      status, buf, calls := 0, [], [];
    }

    method WriteHeader(code: nat)
      requires Valid()
      modifies this
      ensures Valid() && calls == old(calls) + [Header(code)]
    {
      if status == 0 { status := code; }
      calls := calls + [Header(code)];
      assert calls[..|calls| - 1] == old(calls);
    }

    method Write(b: Bytes)
      requires Valid()
      modifies this
      ensures Valid() && calls == old(calls) + [Body(b)]
    {
      if status == 0 { status := 200; }
      buf := buf + b;
      calls := calls + [Body(b)];
      assert calls[..|calls| - 1] == old(calls);
    }
  }

  /** The status is that of the first call to set one, and nothing after it changes it. */
  lemma {:induction false} FirstStatusWins(calls: seq<Call>, k: nat)
    requires k < |calls| && (calls[k].Body? || calls[k].code != 0)
    requires forall i :: 0 <= i < k ==> calls[i] == Header(0)
    ensures Capture(calls).status == if calls[k].Body? then 200 else calls[k].code
  {
    var init := calls[..|calls| - 1];
    if k < |init| { FirstStatusWins(init, k); } else { Unanswered(init); }
  }

  lemma {:induction false} Unanswered(calls: seq<Call>)
    requires forall i :: 0 <= i < |calls| ==> calls[i] == Header(0)
    ensures Capture(calls).status == 0
  {
    if calls == [] {
    } else {
      Unanswered(calls[..|calls| - 1]);
    }
  }

  // --------------------------------------------------------- the slot

  datatype Slot = Slot(hash: int, status: nat, body: Bytes, complete: bool)

  /** A handler that came to a result other than a server error, recorded or not. */
  datatype Outcome = Outcome(hash: int, status: nat, body: Bytes)

  datatype Phase =
    | Arrived
    | Conflicted(hash: int)                             // its INSERT wrote nothing
    | Running(hash: int)                                // the handler runs
    | Replayed(hash: int, status: nat, body: Bytes)
    | Refused                                           // in flight, or the key was used for another body
    | Ended

  datatype State = State(row: Option<Slot>, phases: map<int, Phase>, outcomes: seq<Outcome>)

  datatype Event =
    | Insert(h: int, hash: int)
    | Select(h: int)
    | Finish(h: int, result: Captured) // the deferred abandon or complete
    | Crash(h: int, result: Captured)  // ... which fails or is never reached

  function At(s: State, h: int): Phase { if h in s.phases then s.phases[h] else Arrived }

  predicate Enabled(s: State, e: Event) {
    match e
    case Insert(h, _) => At(s, h).Arrived?
    case Select(h) => At(s, h).Conflicted?
    case Finish(h, _) => At(s, h).Running?
    case Crash(h, _) => At(s, h).Running?
  }

  predicate Transient(status: nat) { status == 0 || status >= 500 }

  function Go(s: State, h: int, p: Phase): State { s.(phases := s.phases[h := p]) }

  function Came(s: State, h: int, r: Captured): State
    requires At(s, h).Running?
  {
    if Transient(r.status) then s else s.(outcomes := s.outcomes + [Outcome(At(s, h).hash, r.status, r.body)])
  }

  function Recorded(row: Option<Slot>, r: Captured): Option<Slot> {
    if row.None? then None
    else if !Transient(r.status) then Some(Slot(row.value.hash, r.status, Cut(r.body), true))
    else if row.value.complete then row else None
  }

  function Next(s: State, e: Event): State
    requires Enabled(s, e)
  {
    match e
    case Insert(h, hash) =>
      if s.row.None? then Go(s.(row := Some(Slot(hash, 0, [], false))), h, Running(hash))
      else Go(s, h, Conflicted(hash))
    case Select(h) =>
      var hash := At(s, h).hash;
      Go(s, h,
         if s.row.None? then Running(hash)
         else if s.row.value.hash != hash || !s.row.value.complete then Refused
         else Replayed(hash, s.row.value.status, s.row.value.body))
    case Finish(h, r) => Go(Came(s, h, r).(row := Recorded(s.row, r)), h, Ended)
    case Crash(h, r) => Go(Came(s, h, r), h, Ended)
  }

  /** The row a request was refused by is still there when it reads it. */
  predicate Found(s: State, e: Event) { e.Select? ==> s.row.Some? }

  /** At most one result, and every replay gives it back, for the body it was given for. */
  ghost predicate Once(s: State) {
    && |s.outcomes| <= 1
    && (forall h :: At(s, h).Replayed? ==>
          |s.outcomes| == 1 && var o := s.outcomes[0];
          At(s, h) == Replayed(o.hash, o.status, Cut(o.body)))
  }

  ghost predicate Inv(s: State) {
    && Once(s)
    && (forall h, k :: At(s, h).Running? && At(s, k).Running? ==> h == k)
    && (forall h :: At(s, h).Running? ==> s.outcomes == [] && s.row == Some(Slot(At(s, h).hash, 0, [], false)))
    && (s.outcomes != [] ==> s.row.Some?)
    && (s.row.Some? && s.row.value.complete ==>
          |s.outcomes| == 1 && var o := s.outcomes[0];
          s.row.value == Slot(o.hash, o.status, Cut(o.body), true))
  }

  lemma StepKeeps(s: State, e: Event)
    requires Inv(s) && Enabled(s, e) && Found(s, e)
    ensures Inv(Next(s, e))
  {
    var t := Next(s, e);
    assert forall h :: h != e.h ==> At(t, h) == At(s, h);
    assert At(s, e.h).Running? ==> forall h :: At(t, h).Running? ==> false;
  }

  // ------------------------------------------------------- whole runs

  ghost predicate Follows(s: State, es: seq<Event>, found: bool)
    decreases |es|, 0
  {
    es == [] ||
    (&& Follows(s, es[..|es| - 1], found)
     && var t := End(s, es[..|es| - 1], found);
        Enabled(t, es[|es| - 1]) && (found ==> Found(t, es[|es| - 1])))
  }

  ghost function End(s: State, es: seq<Event>, found: bool): State
    requires Follows(s, es, found)
    decreases |es|, 1
  {
    if es == [] then s else Next(End(s, es[..|es| - 1], found), es[|es| - 1])
  }

  const UNUSED := State(None, map[], [])

  lemma {:induction false} RunKeeps(s: State, es: seq<Event>)
    requires Inv(s) && Follows(s, es, true)
    ensures Inv(End(s, es, true))
  {
    if es == [] {
    } else {
      RunKeeps(s, es[..|es| - 1]);
      StepKeeps(End(s, es[..|es| - 1], true), es[|es| - 1]);
    }
  }

  /** Over all retries, panics, server errors and lost completions, a key has one result. */
  lemma OneResult(es: seq<Event>)
    requires Follows(UNUSED, es, true)
    ensures Once(End(UNUSED, es, true))
  {
    RunKeeps(UNUSED, es);
  }

  /** Once a result is recorded, every retry with its body is given it, and any other body is refused. */
  lemma RetryReplays(s: State, h: int, hash: int)
    requires Inv(s) && s.row.Some? && s.row.value.complete && At(s, h).Arrived?
    ensures |s.outcomes| == 1 && Enabled(Next(s, Insert(h, hash)), Select(h))
    ensures var t, o := Next(Next(s, Insert(h, hash)), Select(h)), s.outcomes[0];
            At(t, h) == (if hash == o.hash then Replayed(hash, o.status, Cut(o.body)) else Refused) && t.row == s.row
  {
  }

  /** After a panic or a server error the next request runs the handler. */
  lemma ErrorRunsAgain(s: State, h: int, r: Captured, k: int, hash: int)
    requires Inv(s) && At(s, h).Running? && Transient(r.status) && At(s, k).Arrived?
    ensures var t := Next(s, Finish(h, r));
            At(t, k).Arrived? && At(Next(t, Insert(k, hash)), k) == Running(hash) && t.outcomes == []
  {
  }

  /** A replay is the whole response exactly when that fits in what is kept of it. */
  lemma ReplayIsWhole(es: seq<Event>, h: int)
    requires Follows(UNUSED, es, true) && At(End(UNUSED, es, true), h).Replayed?
    ensures var s := End(UNUSED, es, true);
            |s.outcomes| == 1 && (At(s, h).body == s.outcomes[0].body <==> |s.outcomes[0].body| <= CAP)
  {
    RunKeeps(UNUSED, es);
  }

  lemma Extend(s: State, es: seq<Event>, e: Event, found: bool)
    requires Follows(s, es, found) && Enabled(End(s, es, found), e) && (found ==> Found(End(s, es, found), e))
    ensures Follows(s, es + [e], found) && End(s, es + [e], found) == Next(End(s, es, found), e)
  {
    assert (es + [e])[..|es|] == es;
  }

  /** Two requests run, one with the slot and one without: both come to a result. */
  lemma BothResult(s: State, h: int, k: int)
    requires At(s, h).Running? && At(s, k).Arrived? && s.row.None?
    ensures exists es :: Follows(s, es, true) && |End(s, es, true).outcomes| > 1
  {
    var ok := Captured(200, []);
    var a, b, c := Insert(k, 0), Finish(h, ok), Finish(k, ok);
    assert Follows(s, [], true);
    Extend(s, [], a, true);
    Extend(s, [] + [a], b, true);
    Extend(s, [] + [a] + [b], c, true);
    assert |End(s, [] + [a] + [b] + [c], true).outcomes| > 1;
  }

  /**
   Whether a request that lost the INSERT may go on is settled by one thing: every run from its
   SELECT on keeps to one result if, and only if, the row was still there to be read.
   */
  lemma VanishedRowIsExact(s: State, h: int, k: int)
    requires Inv(s) && Enabled(s, Select(h)) && At(s, k).Arrived? && k != h
    ensures s.row.Some? <==>
            forall es :: Follows(Next(s, Select(h)), es, true) ==> Once(End(Next(s, Select(h)), es, true))
  {
    var t := Next(s, Select(h));
    if s.row.Some? {
      StepKeeps(s, Select(h));
      forall es | Follows(t, es, true) ensures Once(End(t, es, true)) { RunKeeps(t, es); }
    } else {
      BothResult(t, h, k);
    }
  }

  /** A server error between one request's INSERT and its SELECT is enough. */
  lemma RowVanishes()
    ensures exists es :: Follows(UNUSED, es, false) && End(UNUSED, es, false).row.None? &&
              At(End(UNUSED, es, false), 2).Running?
  {
    var a, b, c, d := Insert(1, 0), Insert(2, 0), Finish(1, Captured(500, [])), Select(2);
    assert Follows(UNUSED, [], false);
    Extend(UNUSED, [], a, false);
    Extend(UNUSED, [] + [a], b, false);
    Extend(UNUSED, [] + [a] + [b], c, false);
    Extend(UNUSED, [] + [a] + [b] + [c], d, false);
    var es := [] + [a] + [b] + [c] + [d];
    assert End(UNUSED, es, false).row.None?;
  }

  /** A result is recorded, cut to what is kept; no answer at all, or one of 500 or more, frees the slot. */
  lemma RecordedIsExact(s: State, h: int, r: Captured)
    requires Inv(s) && At(s, h).Running?
    ensures var t := Next(s, Finish(h, r));
            if r.status == 0 || r.status >= 500 then t.row.None? && t.outcomes == []
            else && t.row == Some(Slot(At(s, h).hash, r.status, Cut(r.body), true))
                 && t.outcomes == [Outcome(At(s, h).hash, r.status, r.body)]
  {
  }

  /** While the handler runs, every other request with the key is sent away; a lost completion keeps them away. */
  lemma InFlightIsRefused(s: State, h: int, k: int, hash: int)
    requires Inv(s) && At(s, h).Running? && At(s, k).Arrived?
    ensures var t := Next(s, Insert(k, hash));
            Enabled(t, Select(k)) && At(Next(t, Select(k)), k) == Refused && Next(t, Select(k)).row == s.row
    ensures forall r :: Next(s, Crash(h, r)).row == s.row
  {
  }

  /** What is kept of a body is its first 65536 bytes. */
  lemma CutIsPrefix(b: Bytes)
    ensures Cut(b) <= b && |Cut(b)| == if |b| < 65_536 then |b| else 65_536
  {
  }

  /** A request without a slot that fails frees nobody's: a recorded result stays. */
  lemma CompleteIsKept(s: State, h: int, r: Captured)
    requires At(s, h).Running? && s.row.Some? && s.row.value.complete && (r.status == 0 || r.status >= 500)
    ensures Next(s, Finish(h, r)).row == s.row && Next(s, Finish(h, r)).outcomes == s.outcomes
  {
  }
}
