/** GET /users/{userId}/metrics as the handler runs it, tied to the machine of cached responses. */
module MetricsHandler {
  import opened Prelude
  import opened Domain
  import Sums
  import opened RollUp
  import opened MetricsTable
  import opened MetricsStore
  import opened MetricsCache
  import opened MetricsResponse
  import opened CacheRuns
  import TH = TradeHandler
  import W = WritePath

  datatype Reply = Forbidden | BadRequest | InternalError | Ok(body: Body)

  /** The path and query parameters as texts; a missing one is empty. */
  datatype Parameters = Parameters(user: string, fromText: string, toText: string, granularityText: string)

  /** Which of the four queries fail; an error of the last two is ignored and leaves 0. */
  datatype QueryFaults = QueryFaults(buckets: bool, rates: bool, revenge: bool, events: bool)

  function GranularityOf(text: string): Option<Granularity> {
    if text == "hourly" then Some(Hourly)
    else if text == "daily" then Some(Daily)
    else if text == "rolling30d" then Some(Rolling30d)
    else None
  }

  predicate WellFormed(q: Parameters, parse: Parser) {
    parse(q.fromText).Some? && parse(q.toText).Some? && GranularityOf(q.granularityText).Some?
  }

  function RequestOf(q: Parameters): Request
    requires GranularityOf(q.granularityText).Some?
  {
    Request(q.user, q.fromText, q.toText, GranularityOf(q.granularityText).value)
  }

  /** The key is built from the granularity's own text. */
  lemma {:induction false} GranularityRoundTrip(text: string)
    requires GranularityOf(text).Some?
    ensures GranularityText(GranularityOf(text).value) == text
  {
  }

  const NO_BODY := Body([], 0.0, 0.0, [], 0, 0)

  /** All parts of b answer r from the current tables. */
  ghost predicate AnswersNow(b: Body, s: Snapshot, r: Request, parse: Parser) {
    WellTimed(r, parse) && forall n: nat :: n < PARTS ==> PartRight(n, b, s, r, parse)
  }

  /** The two plain counts are those of the tables unless their query failed, whose error is ignored. */
  ghost predicate CountsAnswered(b: Body, s: Snapshot, r: Request, parse: Parser, f: QueryFaults)
    requires WellTimed(r, parse)
  {
    var from, to := parse(r.fromText).value.instant, parse(r.toText).value.instant;
    && b.revengeTrades == (if f.revenge then 0 else Sums.CountWhere(s.trades, RevengeIn(r.user, from, to)))
    && b.overtradingEvents == (if f.events then 0 else Sums.CountWhere(s.events, EmittedIn(r.user, from, to)))
  }

  /** A request that misses and is not interrupted, up to its n-th query. */
  function MissPath(r: Request, b: Body, n: nat): seq<Action> {
    if n == 0 then [Begin(0, r, NO_BODY)] else MissPath(r, b, n - 1) + [Ask(0, b)]
  }

  /** The machine's state after n of the four queries of an uninterrupted request. */
  function Partly(s: State, r: Request, b: Body, n: nat): State
    requires s.history != []
  {
    var response := Response(r, if n == 0 then NO_BODY else b, seq(n, _ => |s.history| - 1));
    if n < PARTS then s.(pending := map[0 := response]) else s.(writes := s.writes + [response])
  }

  lemma {:induction false} BeginOnce(s: State, parse: Parser, r: Request, b: Body)
    requires s.history != [] && s.pending == map[] && WellTimed(r, parse)
    ensures Apply(s, parse, Begin(0, r, NO_BODY)) == Partly(s, r, b, 0)
  {
    assert seq(0, _ => |s.history| - 1) == [];
  }

  lemma {:induction false} AskOnce(s: State, parse: Parser, r: Request, b: Body, n: nat)
    requires s.history != [] && s.pending == map[] && n < PARTS
    requires AnswersNow(b, s.history[|s.history| - 1], r, parse)
    ensures Apply(Partly(s, r, b, n), parse, Ask(0, b)) == Partly(s, r, b, n + 1)
  {
    var v := |s.history| - 1;
    assert seq(n, _ => v) + [v] == seq(n + 1, _ => v);
    assert PartRight(n, b, s.history[v], r, parse);
    var m := Partly(s, r, b, n);
    assert m.pending[0 := Response(r, b, seq(n + 1, _ => v))] == map[0 := Response(r, b, seq(n + 1, _ => v))];
    assert m.pending - {0} == s.pending;
  }

  ghost predicate EachAsks(s: State, parse: Parser, r: Request, b: Body)
    requires s.history != []
  {
    forall n: nat :: n < PARTS ==> Apply(Partly(s, r, b, n), parse, Ask(0, b)) == Partly(s, r, b, n + 1)
  }

  lemma {:induction false} MissSteps(s: State, parse: Parser, r: Request, b: Body, n: nat)
    requires s.history != [] && n <= PARTS
    requires Apply(s, parse, Begin(0, r, NO_BODY)) == Partly(s, r, b, 0) && EachAsks(s, parse, r, b)
    ensures Run(s, parse, MissPath(r, b, n)) == Partly(s, r, b, n)
  {
    if n == 0 {
      RunOne(s, parse, [], Begin(0, r, NO_BODY));
      assert [] + [Begin(0, r, NO_BODY)] == MissPath(r, b, 0);
    } else {
      MissSteps(s, parse, r, b, n - 1);
      RunOne(s, parse, MissPath(r, b, n - 1), Ask(0, b));
    }
  }

  // ---- the cache and the started writes, beside the machine ----

  ghost predicate SameCache(bodies: map<string, Expiring<Body>>, m: State) {
    && bodies.Keys == m.cache.Keys
    && forall k :: k in bodies ==> bodies[k] == Expiring(m.cache[k].response.body, m.cache[k].setAt + METRICS_TTL)
  }

  ghost predicate SameWrites(writes: seq<(string, Body)>, m: State) {
    && |writes| == |m.writes|
    && forall i :: 0 <= i < |writes| ==> writes[i] == (Key(m.writes[i].request), m.writes[i].body)
  }

  /** The machine is in step with the handler's cache and writes. */
  ghost predicate Mirrors(m: State, bodies: map<string, Expiring<Body>>, writes: seq<(string, Body)>) {
    m.history != [] && m.pending == map[] && SameCache(bodies, m) && SameWrites(writes, m)
  }

  lemma {:induction false} TickMirrors(m: State, parse: Parser, bodies: map<string, Expiring<Body>>,
                                       writes: seq<(string, Body)>, elapsed: nat)
    requires m.history != [] && Mirrors(m, bodies, writes)
    ensures var e := Apply(m, parse, Tick(elapsed));
            Mirrors(e, bodies, writes) && e.history == m.history && e.now == m.now + elapsed
  {
  }

  lemma {:induction false} LeaveWrite(m: State, parse: Parser, bodies: map<string, Expiring<Body>>,
                                      writes: seq<(string, Body)>, i: nat)
    requires Mirrors(m, bodies, writes) && i < |writes|
    ensures Mirrors(Apply(m, parse, DropWrite(i)), bodies, Without(writes, i))
    ensures SameWrites(Without(writes, i), Apply(m, parse, RunWrite(i)))
  {
    forall j | 0 <= j < |writes| - 1
      ensures Without(writes, i)[j] == (Key(Without(m.writes, i)[j].request), Without(m.writes, i)[j].body)
    {
      assert Without(writes, i)[j] == writes[if j < i then j else j + 1];
      assert Without(m.writes, i)[j] == m.writes[if j < i then j else j + 1];
    }
  }

  /** Running write number i. */
  lemma {:induction false} DoWrite(m: State, parse: Parser, bodies: map<string, Expiring<Body>>,
                                   writes: seq<(string, Body)>, i: nat)
    requires Mirrors(m, bodies, writes) && i < |writes|
    ensures var (key, body) := writes[i];
            Mirrors(Apply(m, parse, RunWrite(i)), bodies[key := Expiring(body, m.now + METRICS_TTL)],
                    Without(writes, i))
  {
    LeaveWrite(m, parse, bodies, writes, i);
  }

  /** An uninterrupted miss. */
  lemma {:induction false} MissMirrors(m: State, parse: Parser, bodies: map<string, Expiring<Body>>,
                                       writes: seq<(string, Body)>, r: Request, b: Body)
    requires Mirrors(m, bodies, writes) && AnswersNow(b, m.history[|m.history| - 1], r, parse)
    ensures var e := Run(m, parse, MissPath(r, b, PARTS));
            e.now == m.now && e.history == m.history && Mirrors(e, bodies, writes + [(Key(r), b)])
  {
    BeginOnce(m, parse, r, b);
    forall n: nat | n < PARTS ensures Apply(Partly(m, r, b, n), parse, Ask(0, b)) == Partly(m, r, b, n + 1) {
      AskOnce(m, parse, r, b, n);
    }
    MissSteps(m, parse, r, b, PARTS);
  }

  /** A statement of the worker and some time, and then a request. */
  datatype Visit = Visit(user: string, bucket: int, won: bool, pnl: int, elapsed: nat,
                         jwtSub: string, q: Parameters, cacheOk: bool, f: QueryFaults)

  /** The reply to a request in state m of the machine. */
  ghost predicate Served(m: State, parse: Parser, v: Visit, reply: Reply) {
    && m.history != []
    && (v.q.user != v.jwtSub ==> reply == Forbidden)
    && (v.q.user == v.jwtSub && !WellFormed(v.q, parse) ==> reply == BadRequest)
    && (v.q.user == v.jwtSub && WellFormed(v.q, parse) ==>
          var r := RequestOf(v.q);
          var hit := if v.cacheOk then Lookup(m, r) else None;
          if hit.Some? then reply == Ok(hit.value.response.body) && FreshEnough(hit.value, m, parse, r)
          else if v.f.buckets || v.f.rates then reply == InternalError
          else && reply.Ok? && AnswersNow(reply.body, m.history[|m.history| - 1], r, parse)
               && CountsAnswered(reply.body, m.history[|m.history| - 1], r, parse, v.f))
  }

  /** The reply was right in a state that the machine reached within `past`. */
  ghost predicate ServedWithin(began: int, first: Snapshot, parse: Parser, past: seq<Action>, v: Visit, reply: Reply) {
    exists k: nat :: k <= |past| && Served(Run(Start(began, first), parse, past[..k]), parse, v, reply)
  }

  lemma {:induction false} ServedNow(began: int, first: Snapshot, parse: Parser, past: seq<Action>, v: Visit,
                                     reply: Reply)
    requires Served(Run(Start(began, first), parse, past), parse, v, reply)
    ensures ServedWithin(began, first, parse, past, v, reply)
  {
    assert past[..|past|] == past;
  }

  lemma {:induction false} StillServed(began: int, first: Snapshot, parse: Parser, past: seq<Action>, more: seq<Action>,
                                       v: Visit, reply: Reply)
    requires ServedWithin(began, first, parse, past, v, reply) && past <= more
    ensures ServedWithin(began, first, parse, more, v, reply)
  {
    var k: nat :| k <= |past| && Served(Run(Start(began, first), parse, past[..k]), parse, v, reply);
    assert more[..k] == past[..k];
  }

  class MetricsHandler {
    const store: MetricsStore
    const trades: TH.TradeStore
    const cache: MetricsCache<Body>
    const parse: Parser
    var writes: seq<(string, Body)>  // cache writes started and not yet run
    ghost const began: int
    ghost const first: Snapshot
    ghost var past: seq<Action>  // the machine's actions since then
    ghost var machine: State     // and its state

    constructor (store: MetricsStore, trades: TH.TradeStore, cache: MetricsCache<Body>, parse: Parser, now: int)
      requires IsParser(parse) && cache.bodies == map[] && W.ValidTable(trades.Db()) && CountsNonNegative(store.rows)
      ensures this.store == store && this.trades == trades && this.cache == cache && this.parse == parse
      ensures Valid() && past == [] && machine.now == now
    {
      this.store, this.trades, this.cache, this.parse, writes, past := store, trades, cache, parse, [], [];
      var current := Snapshot(store.rows, store.emotions, W.Listing(trades.Db()), store.overtrading);
      began, first, machine := now, current, Start(now, current);
    }

    ghost function Current(): Snapshot
      requires W.ValidTable(trades.Db())
      reads store, trades
    {
      Snapshot(store.rows, store.emotions, W.Listing(trades.Db()), store.overtrading)
    }

    /** The machine has reached, by the actions so far, a state in step with the cache and the writes. */
    ghost predicate Shadows()
      reads this, cache
    {
      && IsParser(parse) && CountsNonNegative(first.rows)
      && machine == Run(Start(began, first), parse, past)
      && Mirrors(machine, cache.bodies, writes)
    }

    /** Besides, it knows the tables as they are. */
    ghost predicate Valid()
      reads this, cache, store, trades
    {
      Shadows() && W.ValidTable(trades.Db()) && machine.history[|machine.history| - 1] == Current()
    }

    ghost method Follow(path: seq<Action>)
      requires machine == Run(Start(began, first), parse, past)
      modifies this`machine, this`past
      ensures machine == Run(Start(began, first), parse, past)
      ensures machine == Run(old(machine), parse, path) && past == old(past) + path
    {
      CacheRuns.RunConcat(Start(began, first), parse, past, path);
      machine, past := Run(machine, parse, path), past + path;
    }

    ghost method Do(a: Action)
      requires machine == Run(Start(began, first), parse, past)
      modifies this`machine, this`past
      ensures machine == Run(Start(began, first), parse, past)
      ensures machine == Apply(old(machine), parse, a) && past == old(past) + [a]
    {
      RunOne(Start(began, first), parse, past, a);
      machine, past := Apply(machine, parse, a), past + [a];
    }

    /** Other processes have changed the tables as the pipeline may: nothing counted is taken back. */
    ghost method Changed()
      requires Shadows() && W.ValidTable(trades.Db())
      requires Grown(machine.history[|machine.history| - 1], Current()) && CountsNonNegative(store.rows)
      modifies this`machine, this`past
      ensures Valid() && machine.now == old(machine.now) && past == old(past) + [Change(Current())]
    {
      Do(Change(Current()));
    }

    ghost method Wait(elapsed: nat)
      requires Valid()
      modifies this`machine, this`past
      ensures Valid() && machine.now == old(machine.now) + elapsed && past == old(past) + [Tick(elapsed)]
    {
      TickMirrors(machine, parse, cache.bodies, writes, elapsed);
      Do(Tick(elapsed));
    }

    /** The four queries and the aggregation loop; None when one of the first two fails. */
    method Compute(r: Request, f: QueryFaults) returns (b: Option<Body>)
      requires WellTimed(r, parse) && W.ValidTable(trades.Db())
      ensures b.Some? <==> !f.buckets && !f.rates
      ensures b.Some? ==> AnswersNow(b.value, Current(), r, parse) && CountsAnswered(b.value, Current(), r, parse, f)
    {
      if f.buckets || f.rates {
        return None;
      }
      var from, to := parse(r.fromText).value, parse(r.toText).value;
      var buckets := store.QueryRange(r.user, from.instant, to.instant, Interval(r.granularity));
      var rates := store.QueryEmotionWinRates(r.user, from, to);
      var revenge, events := 0, 0;
      if !f.revenge {
        revenge := CountRevengeTrades(W.Listing(trades.Db()), r.user, from.instant, to.instant);
      }
      if !f.events {
        events := store.CountOvertradingEvents(r.user, from.instant, to.instant);
      }
      var points, planScore, tilt := Summarise(buckets);
      var body := Body(points, planScore, tilt, rates, revenge, events);
      assert Presents(body, buckets);
      b := Some(body);
    }

    /** The handler's own lookup is the machine's. */
    lemma HitIsLookup(now: int, r: Request)
      requires Shadows() && machine.now == now
      ensures var key, hit := Key(r), Lookup(machine, r);
              (key in cache.bodies && now < cache.bodies[key].expires) == hit.Some?
              && (hit.Some? ==> cache.bodies[key].value == hit.value.response.body)
    {
    }

    /**
     One request. A refused one touches nothing. A hit is answered from the cache with a body that is
     fresh enough. A miss, or a failed cache read, is answered from the tables as they are, and is the
     machine's path of four queries, which leaves a write of that answer.
     */
    method Get(jwtSub: string, q: Parameters, now: int, cacheOk: bool, f: QueryFaults) returns (reply: Reply)
      requires Valid() && machine.now == now
      modifies this`writes, this`machine, this`past
      ensures Valid() && machine.now == now
      ensures q.user != jwtSub ==> reply == Forbidden
      ensures q.user == jwtSub && !WellFormed(q, parse) ==> reply == BadRequest
      ensures !reply.Ok? ==> past == old(past)
      ensures q.user == jwtSub && WellFormed(q, parse) ==>
                var r := RequestOf(q);
                var hit := if cacheOk then Lookup(old(machine), r) else None;
                && (hit.Some? ==> reply == Ok(hit.value.response.body) && past == old(past)
                                  && FreshEnough(hit.value, machine, parse, r))
                && (hit.None? ==> reply == InternalError || (reply.Ok? && AnswersNow(reply.body, Current(), r, parse)
                                  && CountsAnswered(reply.body, Current(), r, parse, f)
                                  && past == old(past) + MissPath(r, reply.body, PARTS)))
                && (hit.None? ==> (reply == InternalError <==> f.buckets || f.rates))
    {
      if q.user != jwtSub {
        return Forbidden;
      }
      if q.fromText == "" || q.toText == "" || q.granularityText == "" {
        return BadRequest;
      }
      var from, to := parse(q.fromText), parse(q.toText);
      if from.None? || to.None? {
        return BadRequest;
      }
      var granularity := GranularityOf(q.granularityText);
      if granularity.None? {
        return BadRequest;
      }
      var cacheKey := "metrics:" + q.user + ":" + q.fromText + ":" + q.toText + ":" + q.granularityText;
      GranularityRoundTrip(q.granularityText);
      var r := RequestOf(q);
      assert cacheKey == Key(r);
      HitIsLookup(now, r);
      if cacheOk {
        var cached := cache.Get(now, cacheKey);
        if cached.Some? {
          ServedResponses(began, first, parse, past, r, Lookup(machine, r).value);
          return Ok(cached.value);
        }
      }
      reply := Miss(r, cacheKey, f);
    }

    method Miss(r: Request, cacheKey: string, f: QueryFaults) returns (reply: Reply)
      requires Valid() && WellTimed(r, parse) && cacheKey == Key(r)
      modifies this`writes, this`machine, this`past
      ensures Valid() && machine.now == old(machine.now)
      ensures (f.buckets || f.rates) ==> reply == InternalError && past == old(past)
      ensures !f.buckets && !f.rates ==>
                && reply.Ok? && AnswersNow(reply.body, Current(), r, parse)
                && CountsAnswered(reply.body, Current(), r, parse, f)
                && past == old(past) + MissPath(r, reply.body, PARTS)
    {
      var body := Compute(r, f);
      if body.None? {
        return InternalError;
      }
      MissMirrors(machine, parse, cache.bodies, writes, r, body.value);
      Follow(MissPath(r, body.value, PARTS));
      writes := writes + [(cacheKey, body.value)];
      reply := Ok(body.value);
    }

    /** A started write runs: SET with five minutes to live is the machine's step. */
    method RunWrite(now: int, i: nat)
      requires Valid() && machine.now == now && i < |writes|
      modifies this`writes, this`machine, this`past, cache`bodies
      ensures Valid() && machine.now == now && past == old(past) + [CacheRuns.RunWrite(i)]
    {
      var (key, body) := writes[i];
      DoWrite(machine, parse, cache.bodies, writes, i);
      ghost var next := Apply(machine, parse, CacheRuns.RunWrite(i));
      assert next.history == machine.history && next.now == machine.now;
      cache.Set(now, key, body);
      writes := Without(writes, i);
      assert Mirrors(next, cache.bodies, writes);
      Do(CacheRuns.RunWrite(i));
    }

    method DropWrite(i: nat)
      requires Valid() && i < |writes|
      modifies this`writes, this`machine, this`past
      ensures Valid() && past == old(past) + [CacheRuns.DropWrite(i)]
    {
      LeaveWrite(machine, parse, cache.bodies, writes, i);
      ghost var next := Apply(machine, parse, CacheRuns.DropWrite(i));
      assert next.history == machine.history;
      writes := Without(writes, i);
      assert Mirrors(next, cache.bodies, writes);
      Do(CacheRuns.DropWrite(i));
    }

    lemma MachineSound()
      requires Shadows()
      ensures CacheRuns.Inv(machine, parse)
    {
      StartInv(began, first, parse);
      RunKeeps(Start(began, first), parse, past);
    }

    lemma CountsSound()
      requires Valid()
      ensures CountsNonNegative(store.rows)
    {
      MachineSound();
    }

    method CountTrade(v: Visit)
      modifies store`rows
      ensures store.rows == Upsert(old(store.rows), RowKey(v.bucket, v.user),
                                   Row(1, if v.won then 1 else 0, if v.won then 0 else 1, v.pnl, None, None, 0, 0))
    {
      var wins, losses := if v.won then 1 else 0, if v.won then 0 else 1;
      var _ := store.UpsertBucket(v.user, v.bucket, 1, wins, losses, v.pnl, None, None, 0, 0, false);
    }

    /** The worker executes a counts statement. */
    method Count(v: Visit)
      requires Valid()
      modifies store`rows, this`machine, this`past
      ensures Valid() && machine.now == old(machine.now) && past == old(past) + [Change(Current())]
    {
      CountsSound();
      ghost var was := Current();
      ghost var add := Row(1, if v.won then 1 else 0, if v.won then 0 else 1, v.pnl, None, None, 0, 0);
      UpsertGrows(was.rows, RowKey(v.bucket, v.user), add);
      CountTrade(v);
      assert Grown(was, Current());
      Changed();
    }

    /** Between two requests it does so, and time passes. */
    method Between(v: Visit)
      requires Valid()
      modifies store`rows, this`machine, this`past
      ensures Valid() && machine.now == old(machine.now) + v.elapsed && old(past) <= past
    {
      Count(v);
      Wait(v.elapsed);
    }

    /** Requests one after another, the tables changing in between: every reply is right for its moment. */
    method Serve(visits: seq<Visit>, start: int) returns (replies: seq<Reply>)
      requires Valid() && machine.now == start
      modifies store`rows, this`writes, this`machine, this`past, cache`bodies
      ensures Valid() && old(past) <= past && |replies| == |visits|
      ensures forall i :: 0 <= i < |visits| ==> ServedWithin(began, first, parse, past, visits[i], replies[i])
    {
      replies := [];
      var now := start;
      ghost var before := past;
      for n := 0 to |visits|
        invariant Valid() && machine.now == now && before <= past && |replies| == n
        invariant forall i :: 0 <= i < n ==> ServedWithin(began, first, parse, past, visits[i], replies[i])
      {
        ghost var was := past;
        now := now + visits[n].elapsed;
        var reply := ServeOne(visits[n], now);
        forall i | 0 <= i < n ensures ServedWithin(began, first, parse, past, visits[i], replies[i]) {
          StillServed(began, first, parse, was, past, visits[i], replies[i]);
        }
        replies := replies + [reply];
      }
    }

    /** The request of a visit. */
    method GetFor(v: Visit, now: int) returns (reply: Reply)
      requires Valid() && machine.now == now
      modifies this`writes, this`machine, this`past
      ensures Valid() && machine.now == now && old(past) <= past
      ensures Served(old(machine), parse, v, reply)
    {
      reply := Get(v.jwtSub, v.q, now, v.cacheOk, v.f);
    }

    /** One visit, and a goroutine that writes a finished response. */
    method ServeOne(v: Visit, now: int) returns (reply: Reply)
      requires Valid() && machine.now + v.elapsed == now
      modifies store`rows, this`writes, this`machine, this`past, cache`bodies
      ensures Valid() && machine.now == now
      ensures old(past) <= past && ServedWithin(began, first, parse, past, v, reply)
    {
      Between(v);
      ghost var at := past;
      reply := GetFor(v, now);
      ServedNow(began, first, parse, at, v, reply);
      Flush(now);
      StillServed(began, first, parse, at, past, v, reply);
    }

    /** The oldest started write runs. */
    method Flush(now: int)
      requires Valid() && machine.now == now
      modifies this`writes, this`machine, this`past, cache`bodies
      ensures Valid() && machine.now == now && old(past) <= past
    {
      if |writes| > 0 {
        RunWrite(now, 0);
      }
    }
  }
}
