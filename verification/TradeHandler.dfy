/** TradeStore.Upsert and TradeHandler.Create as the code runs them, tied to the write-path machine. */
module TradeHandler {
  import opened Prelude
  import opened Timeline
  import opened Domain
  import opened EventCodec
  import opened EventStream
  import opened SlidingWindow
  import opened MetricsResponse
  import opened Requests
  import MC = MetricsCache
  import W = WritePath

  /** The table after inserts by other requests. */
  function WithRows(db: W.Table, ts: seq<Trade>): W.Table {
    if ts == [] then db else W.InsertRow(WithRows(db, ts[..|ts| - 1]), ts[|ts| - 1])
  }

  lemma {:induction false} WithRowsExtends(db: W.Table, ts: seq<Trade>)
    requires W.ValidTable(db)
    ensures W.ValidTable(WithRows(db, ts)) && W.Extends(db, WithRows(db, ts))
  {
    if ts != [] {
      var init := ts[..|ts| - 1];
      WithRowsExtends(db, init);
      W.InsertExtends(WithRows(db, init), ts[|ts| - 1]);
    }
  }

  class TradeStore {
    var rows: map<string, Trade>
    var order: seq<string>

    constructor (db: W.Table)
      ensures Db() == db
    {
      rows, order := db.rows, db.order;
    }

    function Db(): W.Table
      reads this
    {
      W.Table(rows, order)
    }

    /** None when the id is taken. */
    method Insert(t: Trade) returns (r: Option<Trade>)
      modifies this
      ensures Db() == W.InsertRow(old(Db()), t)
      ensures r == if t.tradeId in old(rows) then None else Some(t)
    {
      if t.tradeId in rows {
        return None;
      }
      rows := rows[t.tradeId := t];
      order := order + [t.tradeId];
      r := Some(t);
    }

    method InsertAll(ts: seq<Trade>)
      modifies this
      ensures Db() == WithRows(old(Db()), ts)
      ensures W.ValidTable(old(Db())) ==> W.ValidTable(Db()) && W.Extends(old(Db()), Db())
    {
      for n := 0 to |ts|
        invariant Db() == WithRows(old(Db()), ts[..n])
      {
        assert ts[..n + 1][..n] == ts[..n];
        var _ := Insert(ts[n]);
      }
      assert ts[..|ts|] == ts;
      if W.ValidTable(old(Db())) { WithRowsExtends(old(Db()), ts); }
    }

    /** INSERT, and SELECT when the insert reports a conflict. */
    method Upsert(t: Trade, f: UpsertFaults) returns (r: Option<Trade>)
      modifies this
      ensures Db() == TableAfter(old(Db()), t, f) && r == ResultOf(old(Db()), t, f)
    {
      if !Storable(t) {
        return None;
      }
      if f.insertFails {
        if f.committed {
          var _ := Insert(t);
        }
        return None;
      }
      r := Insert(t);
      if r.None? {
        if f.selectFails {
          return None;
        }
        r := if t.tradeId in rows then Some(rows[t.tradeId]) else None;
      }
    }
  }

  datatype Reply = BadRequest | Forbidden | InternalError | Ok(trade: Trade)

  class TradeHandler {
    const store: TradeStore
    const stream: StreamClient
    const zset: ZSetClient
    const cache: MC.MetricsCache<Body>
    var tasks: multiset<W.Task>  // goroutines started and not yet run

    constructor (store: TradeStore, stream: StreamClient, zset: ZSetClient, cache: MC.MetricsCache<Body>)
      ensures this.store == store && this.stream == stream && this.zset == zset && this.cache == cache
      ensures tasks == multiset{}
    {
      this.store, this.stream, this.zset, this.cache, tasks := store, stream, zset, cache, multiset{};
    }

    /** The machine's state, with no other request in flight. */
    function View(now: int): W.State
      reads this, store, cache, stream
    {
      W.State(now, store.Db(), cache.lastLoss, map[], tasks, stream.entries)
    }

    /** Create does to the stores and the started goroutines what the machine's path does. */
    method Create(now: int, jwtSub: string, input: TradeInput, cacheOk: bool, f: UpsertFaults) returns (reply: Reply)
      modifies this, store
      ensures reply == BadRequest
              <==> || input.tradeId == "" || input.userId == "" || input.sessionId == ""
                   || input.entryPrice == 0.0 || input.quantity == 0.0 || input.entryAt == ZERO_TIME
                   || (input.planAdherence.Some? && (input.planAdherence.value < 1 || input.planAdherence.value > 5))
      ensures reply == Forbidden <==> ValidInput(input) && input.userId != jwtSub
      ensures !ValidInput(input) || input.userId != jwtSub ==> View(now) == old(View(now))
      ensures ValidInput(input) && input.userId == jwtSub ==>
                var e := Uninterrupted(old(View(now)), 0, input, cacheOk, f);
                && View(now) == e.(clients := map[])
                && 0 in e.clients
                && reply == (if e.clients[0].Done? then Ok(e.clients[0].result) else InternalError)
    {
      if !ValidInput(input) {
        return BadRequest;
      }
      if input.userId != jwtSub {
        return Forbidden;
      }
      var trade := Prepare(now, input, cacheOk);
      CreateOutcome(View(now), input, cacheOk, f);
      var result := store.Upsert(StoredTrade(trade), f);
      if result.None? {
        return InternalError;
      }
      Start(result.value);
      reply := Ok(result.value);
    }

    /** P&L for a closed trade with an exit price, and the revenge check before the write. */
    method Prepare(now: int, input: TradeInput, cacheOk: bool) returns (trade: Draft)
      ensures trade == FlaggedDraft(View(now), input, cacheOk)
    {
      trade := Draft(input, None, None, false);
      if input.status == Closed && input.exitPrice.Some? {
        var (pnl, outcome) := ComputePnL(input.direction, input.entryPrice, input.exitPrice.value, input.quantity);
        trade := trade.(pnl := Some(pnl), outcome := Some(outcome));
      }
      if input.emotion.Some? {
        var lastLossUnix := cache.GetLastLoss(now, input.userId);
        if cacheOk && lastLossUnix > 0 {
          if IsRevenge(lastLossUnix * SECOND, input.entryAt, input.emotion.value) {
            trade := trade.(revenge := true);
          }
        }
      }
    }

    /** The asynchronous side effects of an answered request. */
    method Start(t: Trade)
      modifies this
      ensures tasks == old(tasks) + W.Spawned(t)
    {
      if t.status == Closed && t.outcome == Some(Loss) && t.exitAt.Some? {
        tasks := tasks + multiset{W.SetLastLoss(t.userId, UnixSeconds(t.exitAt.value))};
      }
      tasks := tasks + multiset{W.Publish(Encode(t))};
      tasks := tasks + multiset{W.AddToWindow(t.userId, UnixMilli(t.entryAt), t.tradeId)};
    }

    /** A started goroutine runs: its one command is the machine's step. */
    method RunTask(now: int, task: W.Task)
      requires task in tasks && zset.Valid()
      modifies this, cache`lastLoss, stream`entries, zset
      ensures zset.Valid() && View(now) == W.Apply(old(View(now)), W.RunTask(task))
      ensures zset.logs == match task
                case AddToWindow(user, score, id) => Logged(old(zset.logs), WindowKey(user), Add(id, score), true)
                case SetLastLoss(_, _) => old(zset.logs)
                case Publish(_) => old(zset.logs)
    {
      ghost var left := View(now).(tasks := tasks - multiset{task});
      tasks := tasks - multiset{task};
      RunOne(now, task);
      assert View(now) == W.RunEffect(left, task);
    }

    /** The command of a goroutine. */
    method RunOne(now: int, task: W.Task)
      requires zset.Valid()
      modifies cache`lastLoss, stream`entries, zset
      ensures zset.Valid() && View(now) == W.RunEffect(old(View(now)), task)
      ensures zset.logs == match task
                case AddToWindow(user, score, id) => Logged(old(zset.logs), WindowKey(user), Add(id, score), true)
                case SetLastLoss(_, _) => old(zset.logs)
                case Publish(_) => old(zset.logs)
    {
      match task
      case SetLastLoss(user, second) =>
        cache.SetLastLoss(now, user, second);
      case Publish(values) =>
        var _ := stream.Add(values);
      case AddToWindow(user, score, id) =>
        var _ := zset.Issue(WindowKey(user), Add(id, score), true);
    }

    /** A started goroutine's command fails, or its request has ended before it. */
    method DropTask(now: int, task: W.Task)
      modifies this
      ensures View(now) == W.Apply(old(View(now)), W.DropTask(task))
    {
      tasks := tasks - multiset{task};
    }
  }
}
