/**
 The cache of Stripe prices behind the public plan list: mutex sections around
 a lookup made without the lock, at most one per price at a time. Instants and
 durations are nanoseconds.
 */
module PriceCache {
  import opened Common

  datatype Price = Price(amount: int, currency: string)

  datatype Cached = Cached(price: Price, valid: bool, failed: bool, lastTry: int)

  const NOTHING := Cached(Price(0, ""), false, false, 0)

  datatype Config = Config(cacheTTL: int, retryTTL: int)

  function RefreshAfter(c: Config, e: Cached): int { if e.failed then c.retryTTL else c.cacheTTL }

  /** The two maps the mutex guards. */
  datatype Tables = Tables(cache: map<string, Cached>, refreshing: set<string>)

  function Entry(t: Tables, id: string): Cached { if id in t.cache then t.cache[id] else NOTHING }

  /** Answered from the cache: it is current, or somebody is looking the price up already. */
  predicate Serves(c: Config, t: Tables, id: string, now: int) {
    || (id in t.cache && now - t.cache[id].lastTry < RefreshAfter(c, t.cache[id]))
    || id in t.refreshing
  }

  function Begun(t: Tables, id: string): Tables { t.(refreshing := t.refreshing + {id}) }

  function Looked(was: Cached, answer: Option<Price>, now: int): Cached {
    match answer
    case None => was.(lastTry := now, failed := true)
    case Some(p) => Cached(p, true, false, now)
  }

  function Stored(t: Tables, id: string, e: Cached): Tables { t.(cache := t.cache[id := e]) }

  function Finished(t: Tables, id: string): Tables { t.(refreshing := t.refreshing - {id}) }

  /** The sections of `price` that run under the mutex. */
  class Handler {
    const config: Config
    var tables: Tables

    constructor (c: Config)
      ensures config == c && tables == Tables(map[], {})
    {
      config, tables := c, Tables(map[], {});
    }

    method Begin(id: string, now: int) returns (serve: bool, cached: Cached)
      modifies this`tables
      ensures serve == Serves(config, old(tables), id, now) && cached == Entry(old(tables), id)
      ensures tables == if serve then old(tables) else Begun(old(tables), id)
    {
      cached := Entry(tables, id);
      var current := id in tables.cache && now - cached.lastTry < RefreshAfter(config, cached);
      if current || id in tables.refreshing { return true, cached; }
      tables := tables.(refreshing := tables.refreshing + {id});
      serve := false;
    }

    method Record(id: string, cached: Cached, answer: Option<Price>, now: int) returns (e: Cached)
      modifies this`tables
      ensures e == Looked(cached, answer, now) && tables == Stored(old(tables), id, e)
    {
      if answer.None? {
        e := cached.(lastTry := now, failed := true);
      } else {
        e := Cached(answer.value, true, false, now);
      }
      tables := tables.(cache := tables.cache[id := e]);
    }

    method Finish(id: string)
      modifies this`tables
      ensures tables == Finished(old(tables), id)
    {
      tables := tables.(refreshing := tables.refreshing - {id});
    }
  }

  // ------------------------------------------------------ interleavings

  datatype Phase =
    | Idle
    | Looking(id: string, cached: Cached) // asking Stripe, without the lock
    | Leaving(id: string)                 // stored what it learnt

  /** `answers` is what Stripe has returned for each price, in order; `served` what a caller was given. */
  datatype State = State(
    config: Config, tables: Tables, callers: map<int, Phase>,
    answers: map<string, seq<Price>>, served: map<int, Cached>)

  datatype Event =
    | Enter(c: int, id: string, now: int)
    | Return(c: int, answer: Option<Price>, now: int)
    | Leave(c: int)                                   // the deferred delete, after a panic too

  function At(s: State, c: int): Phase { if c in s.callers then s.callers[c] else Idle }

  function Answers(s: State, id: string): seq<Price> { if id in s.answers then s.answers[id] else [] }

  predicate Enabled(s: State, e: Event) {
    match e
    case Enter(c, _, _) => At(s, c).Idle?
    case Return(c, _, _) => At(s, c).Looking?
    case Leave(c) => !At(s, c).Idle?
  }

  function Next(s: State, e: Event): State
    requires Enabled(s, e)
  {
    match e
    case Enter(c, id, now) =>
      var cached := Entry(s.tables, id);
      if Serves(s.config, s.tables, id, now) then s.(served := s.served[c := cached])
      else s.(tables := Begun(s.tables, id), callers := s.callers[c := Looking(id, cached)])
    case Return(c, answer, now) =>
      var Looking(id, cached) := At(s, c);
      var e := Looked(cached, answer, now);
      s.(tables := Stored(s.tables, id, e), callers := s.callers[c := Leaving(id)],
         served := s.served[c := e],
         answers := if answer.Some? then s.answers[id := Answers(s, id) + [answer.value]] else s.answers)
    case Leave(c) =>
      s.(tables := Finished(s.tables, At(s, c).id), callers := s.callers[c := Idle])
  }

  /** At most one caller looks a price up at a time. */
  ghost predicate SingleFlight(s: State) {
    forall c, d :: !At(s, c).Idle? && !At(s, d).Idle? && At(s, c).id == At(s, d).id ==> c == d
  }

  /** An entry carries the newest price Stripe returned for its id, and is valid once there is one. */
  predicate Newest(s: State, id: string, e: Cached) {
    var a := Answers(s, id);
    e.valid == (a != []) && (a != [] ==> e.price == a[|a| - 1])
  }

  ghost predicate Inv(s: State) {
    && SingleFlight(s)
    && (forall c :: !At(s, c).Idle? ==> At(s, c).id in s.tables.refreshing)
    && (forall c :: At(s, c).Looking? ==> At(s, c).cached == Entry(s.tables, At(s, c).id))
    && (forall id :: Newest(s, id, Entry(s.tables, id)))
  }

  lemma StepKeeps(s: State, e: Event)
    requires Inv(s) && Enabled(s, e)
    ensures Inv(Next(s, e))
  {
    var t := Next(s, e);
    assert forall c :: c != e.c ==> At(t, c) == At(s, c);
    forall id ensures Newest(t, id, Entry(t.tables, id)) { assert Newest(s, id, Entry(s.tables, id)); }
  }

  ghost predicate Follows(s: State, es: seq<Event>)
    decreases |es|, 0
  {
    es == [] || (Follows(s, es[..|es| - 1]) && Enabled(End(s, es[..|es| - 1]), es[|es| - 1]))
  }

  ghost function End(s: State, es: seq<Event>): State
    requires Follows(s, es)
    decreases |es|, 1
  {
    if es == [] then s else Next(End(s, es[..|es| - 1]), es[|es| - 1])
  }

  function New(c: Config): State { State(c, Tables(map[], {}), map[], map[], map[]) }

  lemma {:induction false} RunKeeps(s: State, es: seq<Event>)
    requires Inv(s) && Follows(s, es)
    ensures Inv(End(s, es))
  {
    if es == [] {
    } else {
      RunKeeps(s, es[..|es| - 1]);
      StepKeeps(End(s, es[..|es| - 1]), es[|es| - 1]);
    }
  }

  /**
   In every interleaving: one lookup per price at a time, and whoever is served at the next step
   is given the newest price Stripe has returned for the id asked for, or told there is none.
   */
  lemma NewestIsServed(c: Config, es: seq<Event>, e: Event)
    requires Follows(New(c), es) && Enabled(End(New(c), es), e)
    ensures var s := End(New(c), es);
            var t := Next(s, e);
            && SingleFlight(t)
            && (e.Enter? && t.tables == s.tables ==> e.c in t.served && Newest(t, e.id, t.served[e.c]))
            && (e.Return? ==> Newest(t, At(s, e.c).id, t.served[e.c]))
  {
    RunKeeps(New(c), es);
    StepKeeps(End(New(c), es), e);
  }

  /** A failed lookup changes no price and takes none away. */
  lemma FailureKeepsPrice(c: Config, es: seq<Event>, k: int, now: int)
    requires Follows(New(c), es) && Enabled(End(New(c), es), Return(k, None, now))
    ensures var s := End(New(c), es);
            var t := Next(s, Return(k, None, now));
            forall id :: Entry(t.tables, id).price == Entry(s.tables, id).price &&
              Entry(t.tables, id).valid == Entry(s.tables, id).valid
  {
    RunKeeps(New(c), es);
  }

  /**
   How long an answer lasts: from when Stripe returned, a price is served for cacheTTL and a failure
   for retryTTL; the first caller after that looks the price up again, and nobody before.
   */
  lemma AnswerLasts(s: State, c: int, answer: Option<Price>, now: int, d: int, z: int)
    requires Enabled(s, Return(c, answer, now))
    requires At(s, d).Idle? || d == c
    ensures var id := At(s, c).id;
            var t := Next(Next(s, Return(c, answer, now)), Leave(c));
            && Enabled(t, Enter(d, id, z))
            && var u := Next(t, Enter(d, id, z));
               if z - now < (if answer.Some? then s.config.cacheTTL else s.config.retryTTL)
               then u.tables == t.tables && d in u.served && u.served[d] == Entry(t.tables, id)
               else At(u, d).Looking? && At(u, d).id == id
  {
  }

  /** A price never asked for is looked up by the first who asks; until it is in, the others are told of none. */
  lemma FirstLooksUp(s: State, c: int, d: int, id: string, now: int, z: int)
    requires Inv(s) && At(s, c).Idle? && At(s, d).Idle? && c != d && id !in s.tables.cache && id !in s.tables.refreshing
    ensures var t := Next(s, Enter(c, id, now));
            && At(t, c).Looking? && At(t, c).id == id && Enabled(t, Enter(d, id, z))
            && var u := Next(t, Enter(d, id, z)); d in u.served && !u.served[d].valid && At(u, d).Idle?
  {
  }
}
