/**
 The analytics worker as it runs: processMessage and the Run loop, proved against the consumer-group
 machine and the steps of its iterations.
 */
module Worker {
  import opened Prelude
  import opened Timeline
  import opened Domain
  import opened EventCodec
  import opened Sums
  import opened TradeQueries
  import opened MetricsTable
  import opened SlidingWindow
  import opened EventStream
  import opened Rounds
  import MS = MetricsStore
  import TH = TradeHandler
  import W = WritePath
  import G = ConsumerGroup

  class Worker {
    const stream: StreamClient
    const zset: ZSetClient
    const metrics: MS.MetricsStore
    const trades: TH.TradeStore
    ghost var group: G.Group  // the machine's view of the stream and of this worker

    constructor (stream: StreamClient, zset: ZSetClient, metrics: MS.MetricsStore, trades: TH.TradeStore)
      requires !stream.grouped && stream.delivered == 0 && stream.pending == {}
      requires zset.Valid() && W.ValidTable(trades.Db())
      ensures this.stream == stream && this.zset == zset && this.metrics == metrics && this.trades == trades
      ensures group == G.INITIAL && Valid()
    {
      this.stream, this.zset, this.metrics, this.trades := stream, zset, metrics, trades;
      group := G.INITIAL;
    }

    ghost predicate Valid()
      reads this, stream, zset, trades
    {
      && zset.Valid() && W.ValidTable(trades.Db())
      && G.Inv(group, |stream.entries|)
      && group.delivered == stream.delivered && group.pending == stream.pending
      && (!stream.grouped ==> group == G.INITIAL)
    }

    /** Between two iterations the worker holds no message. */
    ghost predicate Idle()
      reads this, stream, zset, trades
    {
      Valid() && stream.grouped && group.batch == [] && !group.handled
    }

    ghost function Now(): World
      reads metrics, trades, zset
    {
      World(Tables(metrics.rows, metrics.emotions), trades.Db(), zset.logs, metrics.overtrading)
    }

    /** Step 1: the counts of the event's hourly row. */
    method UpdateCounts(m: Message, f: Faults)
      modifies metrics`rows
      ensures metrics.rows == if f.counts then old(metrics.rows) else Upsert(old(metrics.rows), KeyOf(m), CountsOf(m))
    {
      var tradeCount, winCount, lossCount := 1, 0, 0;
      if m.won { winCount := 1; } else { lossCount := 1; }
      var revengeCount := 0;
      if m.revenge { revengeCount := 1; }
      var _ := metrics.UpsertBucket(m.userId, GoHour(m.entryAt), tradeCount, winCount, lossCount, m.pnl,
                                    None, None, revengeCount, 0, f.counts);
    }

    /** Step 2: the rolling plan adherence; nothing when it is skipped, fails or finds no rating. */
    method UpdatePlan(m: Message, fails: bool, f: Faults) returns (plan: Option<real>)
      requires W.ValidTable(trades.Db())
      modifies metrics`rows
      ensures metrics.rows == if m.hasPlan && plan.Some? && !f.plan
                then Upsert(old(metrics.rows), KeyOf(m), PlanOf(plan.value)) else old(metrics.rows)
      ensures PlanRead(W.Listing(trades.Db()), m, plan)
      ensures plan.Some? <==> m.hasPlan && !fails && CountWhere(W.Listing(trades.Db()), RatedBy(m.userId)) > 0
    {
      plan := None;
      if m.hasPlan {
        var table := W.Listing(trades.Db());
        var r := GetLastPlanAdherenceRatings(table, m.userId, 10);
        RatedOnes(r, table, m.userId);
        if !fails && |r| > 0 {
          var avg := RollingAvg(r);
          plan := Some(avg);
          var _ := metrics.UpsertBucket(m.userId, GoHour(m.entryAt), 0, 0, 0, 0, plan, None, 0, 0, f.plan);
        }
      }
    }

    /** Step 3: the session's tilt index. */
    method UpdateTilt(m: Message, fails: bool, f: Faults) returns (tilt: Option<real>)
      requires W.ValidTable(trades.Db())
      modifies metrics`rows
      ensures metrics.rows == if m.sessionId != "" && tilt.Some? && !f.tilt
                then Upsert(old(metrics.rows), KeyOf(m), TiltOf(tilt.value)) else old(metrics.rows)
      ensures tilt.Some? <==> m.sessionId != "" && !fails
      ensures TiltRead(W.Listing(trades.Db()), m, tilt)
    {
      tilt := None;
      if m.sessionId != "" {
        var lossFollow, total, session := GetSessionTiltData(W.Listing(trades.Db()), m.sessionId);
        assert SessionTiltIndex(lossFollow, total) == TiltOfListing(session);
        if !fails {
          tilt := Some(SessionTiltIndex(lossFollow, total));
          var _ := metrics.UpsertBucket(m.userId, GoHour(m.entryAt), 0, 0, 0, 0, None, tilt, 0, 0, f.tilt);
        }
      }
    }

    /** Step 4: an emotion that is no enum literal makes the statement fail. */
    method UpdateEmotions(m: Message, f: Faults)
      requires m.closed
      modifies metrics`emotions
      ensures metrics.emotions == ProcessEmotions(old(metrics.emotions), m, f)
    {
      if m.emotion.Known? {
        var wins, losses := 0, 0;
        if m.won { wins := 1; } else { losses := 1; }
        var dateBucket := GoDay(m.entryAt);
        var _ := metrics.UpsertEmotionWinRate(m.userId, m.emotion.emotion, dateBucket, wins, losses, f.emotion);
      }
    }

    /** More than ten trades in the window: the INSERT of an event. */
    method Alert(m: Message, count: nat, now: int, fails: bool)
      modifies metrics`overtrading
      ensures metrics.overtrading
              == old(metrics.overtrading)
                 + (if 11 <= count && !fails then
                      [MS.OvertradingEvent(m.userId, (m.entryAt / 1_000_000 - 1_800_000) * 1_000_000, count,
                                           now - now % 1_000)] else [])
    {
      if count > MAX_TRADES_PER_WINDOW {
        var windowStart := (UnixMilli(m.entryAt) - WINDOW_MS) * MILLI;
        var _ := metrics.InsertOvertradingEvent(m.userId, windowStart, count, now, fails);
      }
    }

    method Check(m: Message, t: Trouble) returns (count: nat, ok: bool)
      requires zset.Valid()
      modifies zset
      ensures zset.Valid() && (ok <==> 3 <= t.executed)
      ensures ok ==> count == WindowCount(old(zset.logs), m, t)
      ensures zset.logs == LogsAfter(old(zset.logs), m, t)
    {
      count, ok := zset.OvertradingCheck(WindowKey(m.userId), UnixMilli(m.entryAt), m.tradeId, WINDOW_MS,
                                         t.executed, t.meanwhile.window);
    }

    /**
     Step 5: the window check at the message's entry time, half an hour back, and an event when more than
     ten trades are in the window.
     */
    method CheckWindow(m: Message, t: Trouble) returns (count: nat, ok: bool)
      requires zset.Valid()
      modifies zset, metrics`overtrading
      ensures zset.Valid() && (ok <==> 3 <= t.executed)
      ensures ok ==> count == WindowCount(old(zset.logs), m, t)
      ensures zset.logs == LogsAfter(old(zset.logs), m, t)
      ensures metrics.overtrading == old(metrics.overtrading) + AlertsOf(old(zset.logs), m, t)
    {
      count, ok := Check(m, t);
      if ok {
        Alert(m, count, t.now, t.eventFails);
      }
    }

    /**
     processMessage: what becomes of the tables, the sorted sets and the events, with the averages just
     read from the trades table, to which requests may add before each read. `seen` is what the two
     reads gave.
     */
    method ProcessMessage(values: Values, t: Trouble) returns (seen: Reads)
      requires zset.Valid() && W.ValidTable(trades.Db())
      modifies zset, metrics, trades
      ensures zset.Valid() && W.ValidTable(trades.Db())
      ensures Now() == Processed(old(Now()), Decode(values), seen, t)
      ensures if Decode(values).closed then SeenRight(old(trades.Db()), Decode(values), t, seen)
              else seen == Reads(None, None)
    {
      var m := Decode(values);
      seen := Reads(None, None);
      if !m.closed {
        return;
      }
      UpdateCounts(m, t.faults);
      trades.InsertAll(t.meanwhile.beforePlan);
      var plan := UpdatePlan(m, t.planReadFails, t.faults);
      trades.InsertAll(t.meanwhile.beforeTilt);
      var tilt := UpdateTilt(m, t.tiltReadFails, t.faults);
      seen := Reads(plan, tilt);
      UpdateEmotions(m, t.faults);
      var _, _ := CheckWindow(m, t);
    }

    /** The machine's view. */
    ghost function Log(): G.Log
      reads this, stream
    {
      G.Log(group, |stream.entries|)
    }

    method Acknowledge(id: nat, ok: bool)
      requires Valid() && stream.grouped && group.handled && group.batch[0] == id
      modifies this`group, stream`pending
      ensures Valid() && group == G.Apply(old(group), |stream.entries|, G.Ack(ok))
    {
      if ok {
        stream.Ack(id);
      }
      G.StepKeeps(group, |stream.entries|, G.Ack(ok));
      group := G.Apply(group, |stream.entries|, G.Ack(ok));
    }

    /** processMessage and XACK for the head of the batch. */
    method HandleOne(id: nat, r: Round) returns (c: Call)
      requires Valid() && stream.grouped
      requires group.batch != [] && group.batch[0] == id && !group.handled
      modifies this`group, stream`pending, zset, metrics, trades
      ensures Valid() && Log() == G.Run(old(Log()), MessageEvents(r.acked(id)))
      ensures c.id == id && CallRight(old(Now()), r, c, stream.entries)
      ensures Now() == Processed(old(Now()), c.m, c.seen, r.trouble(id))
    {
      ghost var start := Log();
      var values := stream.entries[id];
      var seen := ProcessMessage(values, r.trouble(id));
      c := Call(id, Decode(values), seen);
      ghost var after := Now();
      G.StepKeeps(group, |stream.entries|, G.Process);
      group := G.Apply(group, |stream.entries|, G.Process);
      Acknowledge(id, r.acked(id));
      MessageRun(start, r.acked(id));
      assert Now() == after;
    }

    /** Processes and acknowledges the messages of one reply, in order, whatever becomes of each. */
    method HandleBatch(ids: seq<nat>, r: Round) returns (calls: seq<Call>)
      requires Valid() && stream.grouped && group.batch == ids && !group.handled
      modifies this`group, stream`pending, zset, metrics, trades
      ensures Valid()
      ensures Handled(old(Log()), old(Now()), Log(), Now(), ids, |ids|, r, stream.entries, calls)
    {
      calls := [];
      ghost var l0, w0 := Log(), Now();
      for n := 0 to |ids|
        invariant Valid()
        invariant Handled(l0, w0, Log(), Now(), ids, n, r, stream.entries, calls)
      {
        ghost var l1, w1 := Log(), Now();
        BatchRun(l0, ids, n, r.acked);
        assert ids[n..][0] == ids[n];
        var c := HandleOne(ids[n], r);
        HandledMore(l0, w0, l1, w1, Log(), Now(), ids, n, r, stream.entries, calls, c);
        calls := calls + [c];
      }
    }

    /** What requests do between two reads. */
    method Arrive(r: Round)
      requires Valid()
      modifies stream`entries, zset, trades
      ensures Valid() && stream.entries == old(stream.entries) + r.arrivals && Now() == Arrived(old(Now()), r)
    {
      stream.AddAll(r.arrivals);
      trades.InsertAll(r.inserted);
      zset.AddAll(r.added);
    }

    /** XREADGROUP with ">" and COUNT 10. */
    method Deliver(lost: bool) returns (ids: seq<nat>)
      requires Idle()
      modifies this`group, stream`delivered, stream`pending
      ensures Valid() && ids == G.Unread(old(group), |stream.entries|)
      ensures group == G.Apply(old(group), |stream.entries|, G.Read(lost))
    {
      G.StepKeeps(group, |stream.entries|, G.Read(lost));
      ids := stream.ReadGroup(G.BATCH);
      assert ids == G.Unread(group, |stream.entries|);
      group := G.Apply(group, |stream.entries|, G.Read(lost));
    }

    /** The read of one iteration and, if a reply came, the handling of its batch. */
    method ReadAndHandle(r: Round) returns (calls: seq<Call>)
      requires Idle()
      modifies this`group, stream`delivered, stream`pending, zset, metrics, trades
      ensures Valid() && Log() == G.Run(old(Log()), ReadEvents(old(Log()), r))
      ensures IdsOf(calls) == ReadIds(old(Log()), r)
      ensures Now() == AfterCalls(old(Now()), r, calls) && BatchRight(old(Now()), r, calls, stream.entries)
    {
      ghost var l0, w0 := Log(), Now();
      calls := [];
      match r.read
      case ReadFailed =>
      case ReplyLost =>
        var _ := Deliver(true);
        ReadRun(l0, true);
        assert Now() == w0;
      case Replied =>
        var ids := Deliver(false);
        ghost var l1 := Log();
        ReadRun(l0, false);
        assert Now() == w0 && l1 == G.Run(l0, [G.Worker(G.Read(false))]);
        calls := HandleBatch(ids, r);
        assert ids[..|ids|] == ids;
        G.RunConcat(l0, [G.Worker(G.Read(false))], BatchEvents(ids, r.acked));
    }

    /** One iteration of the loop. */
    method RunRound(r: Round) returns (calls: seq<Call>)
      requires Idle()
      modifies this`group, stream`entries, stream`delivered, stream`pending, zset, metrics, trades
      ensures Idle() && stream.entries == old(stream.entries) + r.arrivals
      ensures RoundDone(old(Log()), old(Now()), Log(), Now(), stream.entries, r, calls)
    {
      ghost var l0 := Log();
      Arrive(r);
      assert Log() == WithArrivals(l0, r);
      calls := ReadAndHandle(r);
      RoundIdle(l0, r);
    }

    /** A worker that starts again has forgotten the batch it held. */
    method Start(createFails: bool) returns (ok: bool)
      requires Valid()
      modifies this`group, stream`grouped, stream`delivered, stream`pending
      ensures Valid() && (ok <==> !createFails) && (ok ==> Idle())
      ensures group == G.Apply(old(group), |stream.entries|, G.Crash)
    {
      ok := stream.CreateGroup(createFails);
      G.StepKeeps(group, |stream.entries|, G.Crash);
      group := G.Apply(group, |stream.entries|, G.Crash);
    }

    /** One more iteration of the loop, after those in `done`. */
    method NextRound(r: Round, ghost done: seq<Round>, calls: seq<seq<Call>>, ghost l0: G.Log, ghost w0: World,
                     ghost entries: seq<Values>)
      returns (more: seq<seq<Call>>)
      requires Idle() && Progress(l0, w0, entries, Log(), Now(), stream.entries, done, calls)
      modifies this`group, stream`entries, stream`delivered, stream`pending, zset, metrics, trades
      ensures Idle()
      ensures Progress(l0, w0, entries, Log(), Now(), stream.entries, done + [r], more)
    {
      ghost var l1, w1, seen := Log(), Now(), stream.entries;
      var cs := RunRound(r);
      ProgressMore(l0, w0, entries, l1, w1, seen, Log(), Now(), stream.entries, done, r, calls, cs);
      more := calls + [cs];
    }

    /** The loop, for the given iterations. */
    method Loop(rounds: seq<Round>) returns (calls: seq<seq<Call>>)
      requires Idle()
      modifies this`group, stream`entries, stream`delivered, stream`pending, zset, metrics, trades
      ensures Idle()
      ensures Progress(old(Log()), old(Now()), old(stream.entries), Log(), Now(), stream.entries, rounds, calls)
    {
      calls := [];
      ghost var l0, w0, entries := Log(), Now(), stream.entries;
      for n := 0 to |rounds|
        invariant Idle()
        invariant Progress(l0, w0, entries, Log(), Now(), stream.entries, rounds[..n], calls)
      {
        OneMorePrefix(rounds, n);
        calls := NextRound(rounds[n], rounds[..n], calls, l0, w0, entries);
      }
      assert rounds[..|rounds|] == rounds;
    }

    /** Run, until the context is cancelled after the given iterations. */
    method Run(rounds: seq<Round>, createFails: bool) returns (ok: bool, calls: seq<seq<Call>>)
      requires Valid()
      modifies this`group, stream, zset, metrics, trades
      ensures Valid() && (ok <==> !createFails)
      ensures var started := old(Log()).(group := G.Apply(old(group), |old(stream.entries)|, G.Crash));
              Progress(started, old(Now()), old(stream.entries), Log(), Now(), stream.entries,
                       if ok then rounds else [], calls)
    {
      calls := [];
      ok := Start(createFails);
      if ok {
        calls := Loop(rounds);
      }
    }
  }
}
