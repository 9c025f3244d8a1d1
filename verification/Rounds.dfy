/**
 The iterations of the worker's loop on values: what one of them does to the consumer group, and what the
 calls of processMessage in it do to the tables, the sorted sets and the overtrading events.
 */
module Rounds {
  import opened Prelude
  import opened Domain
  import opened EventCodec
  import opened Sums
  import opened TradeQueries
  import opened MetricsTable
  import opened Batch
  import opened SlidingWindow
  import MS = MetricsStore
  import TH = TradeHandler
  import W = WritePath
  import G = ConsumerGroup

  /** What requests do during one processMessage: trades inserted before its two reads, and ZSET adds. */
  datatype Meanwhile = Meanwhile(beforePlan: seq<Trade>, beforeTilt: seq<Trade>, window: Others)

  /** Which calls of one processMessage fail; `executed` counts the ZSET commands that the server ran. */
  datatype Trouble = Trouble(faults: Faults, planReadFails: bool, tiltReadFails: bool, executed: nat,
                             eventFails: bool, now: int, meanwhile: Meanwhile)

  datatype ReadResult = Replied | ReplyLost | ReadFailed

  /**
   One iteration of the loop: what requests have published, stored and added since the last one, the
   read, and the fate of each message.
   */
  datatype Round = Round(arrivals: seq<Values>, inserted: seq<Trade>, added: seq<Added>,
                         read: ReadResult, trouble: nat -> Trouble, acked: nat -> bool)

  // ---- what processMessage does to everything but the stream ----

  /** The metrics tables, the trades table, the command logs of the sorted sets, the overtrading events. */
  datatype World = World(tables: Tables, db: W.Table, logs: Logs, overtrading: seq<MS.OvertradingEvent>)

  /** The trades table at the two reads. */
  function AtPlanRead(db: W.Table, t: Trouble): W.Table { TH.WithRows(db, t.meanwhile.beforePlan) }

  function AtTiltRead(db: W.Table, t: Trouble): W.Table { TH.WithRows(AtPlanRead(db, t), t.meanwhile.beforeTilt) }

  /** A read gives what it should, and gives nothing just when it is skipped, fails or finds nothing. */
  ghost predicate SeenRight(db: W.Table, m: Message, t: Trouble, seen: Reads) {
    && W.ValidTable(AtPlanRead(db, t)) && W.ValidTable(AtTiltRead(db, t))
    && PlanRead(W.Listing(AtPlanRead(db, t)), m, seen.plan)
    && TiltRead(W.Listing(AtTiltRead(db, t)), m, seen.tilt)
    && (seen.plan.Some? <==>
          m.hasPlan && !t.planReadFails && CountWhere(W.Listing(AtPlanRead(db, t)), RatedBy(m.userId)) > 0)
    && (seen.tilt.Some? <==> m.sessionId != "" && !t.tiltReadFails)
  }

  /** The check is at the message's entry time in ms and reaches half an hour back. */
  function LogsAfter(logs: Logs, m: Message, t: Trouble): Logs {
    var key, nowMs := WindowKey(m.userId), m.entryAt / 1_000_000;
    AfterCheck(logs, key, m.tradeId, nowMs, nowMs - 1_800_000, t.executed, t.meanwhile.window)
  }

  /** What the check counts when all its commands are executed. */
  function WindowCount(logs: Logs, m: Message, t: Trouble): nat {
    var key, nowMs := WindowKey(m.userId), m.entryAt / 1_000_000;
    CheckCount(logs, key, m.tradeId, nowMs, nowMs - 1_800_000, t.executed, t.meanwhile.window)
  }

  /** An event exactly when more than ten trades are counted. */
  function AlertsOf(logs: Logs, m: Message, t: Trouble): seq<MS.OvertradingEvent> {
    var count := WindowCount(logs, m, t);
    if 3 <= t.executed && 11 <= count && !t.eventFails then
      [MS.OvertradingEvent(m.userId, (m.entryAt / 1_000_000 - 1_800_000) * 1_000_000, count, t.now - t.now % 1_000)]
    else []
  }

  function Processed(w: World, m: Message, seen: Reads, t: Trouble): World {
    if !m.closed then w
    else World(Process(w.tables, m, seen, t.faults), AtTiltRead(w.db, t), LogsAfter(w.logs, m, t),
               w.overtrading + AlertsOf(w.logs, m, t))
  }

  lemma {:induction false} WindowChecked(logs: Logs, m: Message, t: Trouble) returns (p: nat, count: nat)
    requires 3 <= t.executed
    ensures var key, nowMs := WindowKey(m.userId), m.entryAt / 1_000_000;
            var cut, log := nowMs - 1_800_000, LogIn(LogsAfter(logs, m, t), key);
            && LogIn(logs, key) + [Add(m.tradeId, nowMs)] <= log && |LogIn(logs, key)| < p
            && OneCheck(log, p, |log| - 1, cut) && Answered(log, cut, count)
    ensures count == WindowCount(logs, m, t)
  {
    var key, nowMs := WindowKey(m.userId), m.entryAt / 1_000_000;
    var cut := nowMs - 1_800_000;
    p, count := CompleteCheck(logs, key, m.tradeId, nowMs, cut, t.executed, t.meanwhile.window);
    assert LogsAfter(logs, m, t) == AfterCheck(logs, key, m.tradeId, nowMs, cut, t.executed, t.meanwhile.window);
  }

  /**
   What a closed message does to the window of its user, when the server executes all three commands: the
   trade is added at its entry time in ms, and the count comes after the prune at half an hour before, with
   only the adds of other goroutines in between. Exactly one event is inserted when the INSERT succeeds and
   at least eleven members are at or above that cut, and none otherwise.
   */
  lemma {:induction false} ClosedChecked(w: World, m: Message, seen: Reads, t: Trouble) returns (p: nat, count: nat)
    requires m.closed && 3 <= t.executed
    ensures var key, nowMs := WindowKey(m.userId), m.entryAt / 1_000_000;
            var cut, log := nowMs - 1_800_000, LogIn(Processed(w, m, seen, t).logs, key);
            && LogIn(w.logs, key) + [Add(m.tradeId, nowMs)] <= log && |LogIn(w.logs, key)| < p
            && OneCheck(log, p, |log| - 1, cut) && Answered(log, cut, count)
    ensures Processed(w, m, seen, t).overtrading
            == w.overtrading
               + (if 11 <= count && !t.eventFails then
                    [MS.OvertradingEvent(m.userId, (m.entryAt / 1_000_000 - 1_800_000) * 1_000_000, count,
                                         t.now - t.now % 1_000)] else [])
  {
    p, count := WindowChecked(w.logs, m, t);
  }

  /** What processMessage does to any row and any tally. */
  lemma {:induction false} TablesProcessed(w: World, m: Message, seen: Reads, t: Trouble, k: RowKey, e: EmotionKey)
    ensures var later := Processed(w, m, seen, t).tables;
            && RowEffect(w.tables.rows, later.rows, m, seen, t.faults, k)
            && TallyEffect(w.tables.emotions, later.emotions, m, t.faults.emotion, e)
  {
    EventEffect(w.tables.rows, m, seen, t.faults, k);
    EmotionEffect(w.tables.emotions, m, t.faults, e);
  }

  /** A message without a closed trade changes nothing, and a check whose count is not executed inserts nothing. */
  lemma {:induction false} NotChecked(w: World, m: Message, seen: Reads, t: Trouble)
    ensures !m.closed ==> Processed(w, m, seen, t) == w
    ensures t.executed < 3 ==> Processed(w, m, seen, t).overtrading == w.overtrading
  {
  }

  // ---- calls and rounds ----

  /** One call of processMessage: the entry, its message and what the two reads gave. */
  datatype Call = Call(id: nat, m: Message, seen: Reads)

  ghost predicate CallRight(w: World, r: Round, c: Call, entries: seq<Values>) {
    && c.id < |entries| && c.m == Decode(entries[c.id])
    && if c.m.closed then SeenRight(w.db, c.m, r.trouble(c.id), c.seen) else c.seen == Reads(None, None)
  }

  function AfterCalls(w: World, r: Round, calls: seq<Call>): World {
    if calls == [] then w
    else
      var c := calls[|calls| - 1];
      Processed(AfterCalls(w, r, calls[..|calls| - 1]), c.m, c.seen, r.trouble(c.id))
  }

  ghost predicate BatchRight(w: World, r: Round, calls: seq<Call>, entries: seq<Values>) {
    calls != [] ==>
      var init, c := calls[..|calls| - 1], calls[|calls| - 1];
      BatchRight(w, r, init, entries) && CallRight(AfterCalls(w, r, init), r, c, entries)
  }

  function IdsOf(calls: seq<Call>): seq<nat> {
    seq(|calls|, i requires 0 <= i < |calls| => calls[i].id)
  }

  lemma {:induction false} OneMoreCall(w: World, r: Round, calls: seq<Call>, c: Call, entries: seq<Values>)
    requires BatchRight(w, r, calls, entries) && CallRight(AfterCalls(w, r, calls), r, c, entries)
    ensures BatchRight(w, r, calls + [c], entries)
    ensures AfterCalls(w, r, calls + [c]) == Processed(AfterCalls(w, r, calls), c.m, c.seen, r.trouble(c.id))
    ensures IdsOf(calls + [c]) == IdsOf(calls) + [c.id]
  {
    assert (calls + [c])[..|calls|] == calls;
  }

  /** What requests do between two reads. */
  function Arrived(w: World, r: Round): World {
    w.(db := TH.WithRows(w.db, r.inserted), logs := WithAdds(w.logs, r.added))
  }

  /** The world after some rounds, in which these calls were made. */
  function AfterRounds(w: World, rounds: seq<Round>, calls: seq<seq<Call>>): World
    requires |calls| == |rounds|
  {
    if rounds == [] then w
    else
      var l := |rounds| - 1;
      AfterCalls(Arrived(AfterRounds(w, rounds[..l], calls[..l]), rounds[l]), rounds[l], calls[l])
  }

  ghost predicate AllRight(w: World, rounds: seq<Round>, calls: seq<seq<Call>>, entries: seq<Values>)
    requires |calls| == |rounds|
  {
    rounds != [] ==>
      var l := |rounds| - 1;
      && AllRight(w, rounds[..l], calls[..l], entries)
      && BatchRight(Arrived(AfterRounds(w, rounds[..l], calls[..l]), rounds[l]), rounds[l], calls[l], entries)
  }

  function AllIds(calls: seq<seq<Call>>): seq<nat> {
    if calls == [] then [] else AllIds(calls[..|calls| - 1]) + IdsOf(calls[|calls| - 1])
  }

  lemma {:induction false} BatchStaysRight(w: World, r: Round, calls: seq<Call>, entries: seq<Values>,
                                           later: seq<Values>)
    requires BatchRight(w, r, calls, entries) && entries <= later
    ensures BatchRight(w, r, calls, later)
  {
    if calls != [] { BatchStaysRight(w, r, calls[..|calls| - 1], entries, later); }
  }

  lemma {:induction false} AllStayRight(w: World, rounds: seq<Round>, calls: seq<seq<Call>>, entries: seq<Values>,
                                        later: seq<Values>)
    requires |calls| == |rounds| && AllRight(w, rounds, calls, entries) && entries <= later
    ensures AllRight(w, rounds, calls, later)
  {
    if rounds != [] {
      var l := |rounds| - 1;
      AllStayRight(w, rounds[..l], calls[..l], entries, later);
      BatchStaysRight(Arrived(AfterRounds(w, rounds[..l], calls[..l]), rounds[l]), rounds[l], calls[l], entries, later);
    }
  }

  lemma {:induction false} OneMoreRound(w: World, rounds: seq<Round>, calls: seq<seq<Call>>, r: Round, cs: seq<Call>,
                                        entries: seq<Values>)
    requires |calls| == |rounds| && AllRight(w, rounds, calls, entries)
    requires BatchRight(Arrived(AfterRounds(w, rounds, calls), r), r, cs, entries)
    ensures AllRight(w, rounds + [r], calls + [cs], entries)
    ensures AfterRounds(w, rounds + [r], calls + [cs]) == AfterCalls(Arrived(AfterRounds(w, rounds, calls), r), r, cs)
  {
    assert (rounds + [r])[..|rounds|] == rounds && (calls + [cs])[..|calls|] == calls;
  }

  // ---- the consumer group ----

  /** The machine's steps for one message and for a batch. */
  function MessageEvents(acked: bool): seq<G.Event> {
    [G.Worker(G.Process), G.Worker(G.Ack(acked))]
  }

  function BatchEvents(ids: seq<nat>, acked: nat -> bool): seq<G.Event> {
    if ids == [] then [] else BatchEvents(ids[..|ids| - 1], acked) + MessageEvents(acked(ids[|ids| - 1]))
  }

  /** The entries that the round's reply holds. */
  function ReadIds(l: G.Log, r: Round): seq<nat> {
    if r.read.Replied? then G.Unread(l.group, l.length) else []
  }

  function ReadEvents(l: G.Log, r: Round): seq<G.Event> {
    match r.read
    case ReadFailed => []
    case ReplyLost => [G.Worker(G.Read(true))]
    case Replied => [G.Worker(G.Read(false))] + BatchEvents(ReadIds(l, r), r.acked)
  }

  /** The round's events have arrived. */
  function WithArrivals(l: G.Log, r: Round): G.Log { l.(length := l.length + |r.arrivals|) }

  /** The machine after one iteration. */
  function RoundLog(l: G.Log, r: Round): G.Log {
    G.Run(WithArrivals(l, r), ReadEvents(WithArrivals(l, r), r))
  }

  function LogAfter(l: G.Log, rounds: seq<Round>): G.Log {
    if rounds == [] then l else RoundLog(LogAfter(l, rounds[..|rounds| - 1]), rounds[|rounds| - 1])
  }

  lemma {:induction false} MessageRun(l: G.Log, acked: bool)
    ensures G.Run(l, MessageEvents(acked))
            == l.(group := G.Apply(G.Apply(l.group, l.length, G.Process), l.length, G.Ack(acked)))
  {
    G.RunOne(l, [], G.Worker(G.Process));
    G.RunOne(l, [] + [G.Worker(G.Process)], G.Worker(G.Ack(acked)));
    assert MessageEvents(acked) == [] + [G.Worker(G.Process)] + [G.Worker(G.Ack(acked))];
  }

  function ArrivalEvents(n: nat): seq<G.Event> {
    if n == 0 then [] else ArrivalEvents(n - 1) + [G.Arrival]
  }

  lemma {:induction false} ArrivalRun(l: G.Log, n: nat)
    ensures G.Run(l, ArrivalEvents(n)) == l.(length := l.length + n)
  {
    if n > 0 {
      ArrivalRun(l, n - 1);
      G.RunOne(l, ArrivalEvents(n - 1), G.Arrival);
    }
  }

  /** The iterations are steps of the group machine. */
  function AllEvents(l: G.Log, rounds: seq<Round>): seq<G.Event> {
    if rounds == [] then []
    else
      var init, r := rounds[..|rounds| - 1], rounds[|rounds| - 1];
      AllEvents(l, init) + ArrivalEvents(|r.arrivals|) + ReadEvents(WithArrivals(LogAfter(l, init), r), r)
  }

  lemma {:induction false} RoundsAreSteps(l: G.Log, rounds: seq<Round>)
    ensures LogAfter(l, rounds) == G.Run(l, AllEvents(l, rounds))
  {
    if rounds != [] {
      var init, r := rounds[..|rounds| - 1], rounds[|rounds| - 1];
      RoundsAreSteps(l, init);
      G.RunConcat(l, AllEvents(l, init), ArrivalEvents(|r.arrivals|));
      ArrivalRun(LogAfter(l, init), |r.arrivals|);
      G.RunConcat(l, AllEvents(l, init) + ArrivalEvents(|r.arrivals|),
                  ReadEvents(WithArrivals(LogAfter(l, init), r), r));
    }
  }

  /** From l0 to l the first n messages of the batch have been processed, and acknowledged as `acked` says. */
  ghost predicate BatchDone(l0: G.Log, l: G.Log, ids: seq<nat>, n: nat, acked: nat -> bool) {
    && n <= |ids| && l.length == l0.length
    && l.group.batch == ids[n..] && !l.group.handled && l.group.delivered == l0.group.delivered
    && l.group.processed == l0.group.processed + ids[..n]
    && forall i :: i in l.group.pending <==> i in l0.group.pending && !(i in ids[..n] && acked(i))
  }

  lemma {:induction false} OneMoreDone(l0: G.Log, l: G.Log, ids: seq<nat>, n: nat, acked: nat -> bool)
    requires BatchDone(l0, l, ids, n, acked) && n < |ids|
    ensures BatchDone(l0, G.Run(l, MessageEvents(acked(ids[n]))), ids, n + 1, acked)
  {
    MessageRun(l, acked(ids[n]));
    assert ids[n..][0] == ids[n] && ids[n..][1..] == ids[n + 1..];
    assert ids[..n + 1] == ids[..n] + [ids[n]];
    Assoc(l0.group.processed, ids[..n], [ids[n]]);
  }

  lemma {:induction false} BatchRun(l: G.Log, ids: seq<nat>, n: nat, acked: nat -> bool)
    requires l.group.batch == ids && !l.group.handled && n <= |ids|
    ensures BatchDone(l, G.Run(l, BatchEvents(ids[..n], acked)), ids, n, acked)
  {
    if n > 0 {
      BatchRun(l, ids, n - 1, acked);
      assert ids[..n][..n - 1] == ids[..n - 1];
      G.RunConcat(l, BatchEvents(ids[..n - 1], acked), MessageEvents(acked(ids[n - 1])));
      OneMoreDone(l, G.Run(l, BatchEvents(ids[..n - 1], acked)), ids, n - 1, acked);
    }
  }

  /**
   What one iteration does to the group, with entries up to `length`: unless the read fails, up to ten new
   entries are delivered; if the reply comes, each is processed once, in order, whatever becomes of its
   acknowledgement, and pending are those that were not acknowledged.
   */
  ghost predicate RoundEffect(g0: G.Group, g: G.Group, length: nat, r: Round) {
    var to := Min(g0.delivered + 10, length);
    && g.batch == [] && !g.handled
    && g0.delivered <= length && g.delivered == (if r.read.ReadFailed? then g0.delivered else to)
    && g.processed == g0.processed + (if r.read.Replied? then G.UpFrom(g0.delivered, to) else [])
    && forall i :: i in g.pending <==>
         i in g0.pending || (g0.delivered <= i < g.delivered && !(r.read.Replied? && r.acked(i)))
  }

  predicate IdleGroup(g: G.Group) { g.batch == [] && !g.handled }

  lemma {:induction false} ReadRun(l: G.Log, lost: bool)
    ensures G.Run(l, [G.Worker(G.Read(lost))]) == l.(group := G.Apply(l.group, l.length, G.Read(lost)))
  {
    G.RunOne(l, [], G.Worker(G.Read(lost)));
    assert [] + [G.Worker(G.Read(lost))] == [G.Worker(G.Read(lost))];
  }

  lemma {:induction false} ReplyEffect(l: G.Log, r: Round)
    requires G.Inv(l.group, l.length) && IdleGroup(l.group) && r.read.Replied?
    ensures RoundEffect(l.group, G.Run(l, ReadEvents(l, r)).group, l.length, r)
  {
    var ids := ReadIds(l, r);
    var l1 := l.(group := G.Apply(l.group, l.length, G.Read(false)));
    ReadRun(l, false);
    G.RunConcat(l, [G.Worker(G.Read(false))], BatchEvents(ids, r.acked));
    G.UnreadMembers(l.group, l.length);
    assert ids[..|ids|] == ids;
    BatchRun(l1, ids, |ids|, r.acked);
    assert ids == G.UpFrom(l.group.delivered, Min(l.group.delivered + 10, l.length));
  }

  lemma {:induction false} LostEffect(l: G.Log, r: Round)
    requires G.Inv(l.group, l.length) && IdleGroup(l.group) && r.read.ReplyLost?
    ensures RoundEffect(l.group, G.Run(l, ReadEvents(l, r)).group, l.length, r)
  {
    ReadRun(l, true);
    G.UnreadMembers(l.group, l.length);
  }

  lemma {:induction false} RoundGroup(l: G.Log, r: Round)
    requires G.Inv(l.group, l.length) && IdleGroup(l.group)
    ensures var e := RoundLog(l, r);
            && e.length == l.length + |r.arrivals| && G.Inv(e.group, e.length)
            && RoundEffect(l.group, e.group, e.length, r)
  {
    var l1 := WithArrivals(l, r);
    G.RunKeeps(l1, ReadEvents(l1, r));
    RunLength(l1, r);
    match r.read
    case ReadFailed =>
    case ReplyLost => LostEffect(l1, r);
    case Replied => ReplyEffect(l1, r);
  }

  lemma {:induction false} RoundIdle(l: G.Log, r: Round)
    requires G.Inv(l.group, l.length) && IdleGroup(l.group)
    ensures RoundLog(l, r).group.batch == [] && !RoundLog(l, r).group.handled
  {
    RoundGroup(l, r);
  }

  lemma {:induction false} RunLength(l: G.Log, r: Round)
    ensures G.Run(l, ReadEvents(l, r)).length == l.length
  {
    match r.read
    case ReadFailed =>
    case ReplyLost => ReadRun(l, true);
    case Replied =>
      ReadRun(l, false);
      G.RunConcat(l, [G.Worker(G.Read(false))], BatchEvents(ReadIds(l, r), r.acked));
      BatchLength(G.Run(l, [G.Worker(G.Read(false))]), ReadIds(l, r), r.acked);
  }

  lemma {:induction false} BatchLength(l: G.Log, ids: seq<nat>, acked: nat -> bool)
    ensures G.Run(l, BatchEvents(ids, acked)).length == l.length
  {
    if ids != [] {
      var n := |ids| - 1;
      BatchLength(l, ids[..n], acked);
      G.RunConcat(l, BatchEvents(ids[..n], acked), MessageEvents(acked(ids[n])));
      MessageRun(G.Run(l, BatchEvents(ids[..n], acked)), acked(ids[n]));
    }
  }

  function Arrivals(rounds: seq<Round>): seq<Values> {
    if rounds == [] then [] else Arrivals(rounds[..|rounds| - 1]) + rounds[|rounds| - 1].arrivals
  }

  /** No read fails and no reply is lost, whatever becomes of the acknowledgements. */
  ghost predicate AllReplied(rounds: seq<Round>) {
    forall i :: 0 <= i < |rounds| ==> rounds[i].read.Replied?
  }

  ghost predicate AllAcked(rounds: seq<Round>) {
    forall i, id :: 0 <= i < |rounds| ==> rounds[i].acked(id)
  }

  lemma {:induction false} RoundsGroup(l: G.Log, rounds: seq<Round>)
    requires G.Inv(l.group, l.length) && IdleGroup(l.group)
    ensures var e := LogAfter(l, rounds);
            e.length == l.length + |Arrivals(rounds)| && G.Inv(e.group, e.length) && IdleGroup(e.group)
  {
    if rounds != [] {
      RoundsGroup(l, rounds[..|rounds| - 1]);
      RoundGroup(LogAfter(l, rounds[..|rounds| - 1]), rounds[|rounds| - 1]);
    }
  }

  /** What arrived is processed once each, in order, at ten entries a round. */
  ghost predicate RepliedRun(g0: G.Group, g: G.Group, length: nat, rounds: nat, quiet: bool) {
    && g0.delivered <= g.delivered <= length
    && g.processed == g0.processed + G.UpFrom(g0.delivered, g.delivered)
    && (quiet ==> g.delivered == Min(g0.delivered + 10 * rounds, length))
  }

  lemma {:induction false} RepliedMore(g0: G.Group, g1: G.Group, g2: G.Group, length: nat, later: nat,
                                       before: nat, rounds: nat, was: bool, quiet: bool, r: Round)
    requires RepliedRun(g0, g1, length, before, was) && RoundEffect(g1, g2, later, r)
    requires r.read.Replied? && length <= later && rounds == before + 1 && (quiet ==> was && length == later)
    ensures RepliedRun(g0, g2, later, rounds, quiet)
  {
    var to := Min(g1.delivered + 10, later);
    assert G.UpFrom(g0.delivered, g1.delivered) + G.UpFrom(g1.delivered, to) == G.UpFrom(g0.delivered, to);
    Assoc(g0.processed, G.UpFrom(g0.delivered, g1.delivered), G.UpFrom(g1.delivered, to));
  }

  lemma {:induction false} LastRound(l: G.Log, rounds: seq<Round>)
    requires G.Inv(l.group, l.length) && IdleGroup(l.group) && rounds != []
    ensures var init, n := rounds[..|rounds| - 1], |Arrivals(rounds)|;
            && |Arrivals(init)| <= n && (n == 0 ==> |Arrivals(init)| == 0)
            && RoundEffect(LogAfter(l, init).group, LogAfter(l, rounds).group, l.length + n, rounds[|rounds| - 1])
  {
    var init := rounds[..|rounds| - 1];
    RoundsGroup(l, init);
    RoundGroup(LogAfter(l, init), rounds[|rounds| - 1]);
  }

  lemma {:induction false} LastReplied(l: G.Log, rounds: seq<Round>)
    requires G.Inv(l.group, l.length) && IdleGroup(l.group) && rounds != [] && rounds[|rounds| - 1].read.Replied?
    requires var init := rounds[..|rounds| - 1];
             var n := |Arrivals(init)|;
             RepliedRun(l.group, LogAfter(l, init).group, l.length + n, |init|, n == 0)
    ensures var n := |Arrivals(rounds)|;
            RepliedRun(l.group, LogAfter(l, rounds).group, l.length + n, |rounds|, n == 0)
  {
    var init, r := rounds[..|rounds| - 1], rounds[|rounds| - 1];
    LastRound(l, rounds);
    RepliedMore(l.group, LogAfter(l, init).group, LogAfter(l, rounds).group, l.length + |Arrivals(init)|,
                l.length + |Arrivals(rounds)|, |init|, |rounds|, |Arrivals(init)| == 0, |Arrivals(rounds)| == 0, r);
  }

  /** Iterations whose replies all come, from an idle worker. */
  lemma {:induction false} RepliedRounds(l: G.Log, rounds: seq<Round>)
    requires G.Inv(l.group, l.length) && IdleGroup(l.group) && AllReplied(rounds)
    ensures var n := |Arrivals(rounds)|;
            RepliedRun(l.group, LogAfter(l, rounds).group, l.length + n, |rounds|, n == 0)
  {
    if rounds != [] {
      var init := rounds[..|rounds| - 1];
      assert forall i :: 0 <= i < |init| ==> init[i] == rounds[i];
      RepliedRounds(l, init);
      LastReplied(l, rounds);
    }
  }

  /** With all replies and all acknowledgements nothing new is left pending. */
  lemma {:induction false} AckedRounds(l: G.Log, rounds: seq<Round>)
    requires G.Inv(l.group, l.length) && IdleGroup(l.group) && AllReplied(rounds) && AllAcked(rounds)
    ensures LogAfter(l, rounds).group.pending == l.group.pending
  {
    if rounds != [] {
      var init := rounds[..|rounds| - 1];
      assert forall i :: 0 <= i < |init| ==> init[i] == rounds[i];
      AckedRounds(l, init);
      LastRound(l, rounds);
    }
  }

  // ---- what the loop has done ----

  /** The first n entries of a batch have been handled: one call each, in order. */
  ghost predicate Handled(l0: G.Log, w0: World, l: G.Log, w: World, ids: seq<nat>, n: nat, r: Round,
                          entries: seq<Values>, calls: seq<Call>)
  {
    && n <= |ids| && l == G.Run(l0, BatchEvents(ids[..n], r.acked))
    && w == AfterCalls(w0, r, calls) && IdsOf(calls) == ids[..n] && BatchRight(w0, r, calls, entries)
  }

  lemma {:induction false} HandledMore(l0: G.Log, w0: World, l: G.Log, w: World, l': G.Log, w': World,
                                       ids: seq<nat>, n: nat, r: Round, entries: seq<Values>,
                                       calls: seq<Call>, c: Call)
    requires Handled(l0, w0, l, w, ids, n, r, entries, calls) && n < |ids| && c.id == ids[n]
    requires l' == G.Run(l, MessageEvents(r.acked(ids[n])))
    requires CallRight(w, r, c, entries) && w' == Processed(w, c.m, c.seen, r.trouble(c.id))
    ensures Handled(l0, w0, l', w', ids, n + 1, r, entries, calls + [c])
  {
    OneMoreCall(w0, r, calls, c, entries);
    assert ids[..n + 1] == ids[..n] + [ids[n]] && ids[..n + 1][..n] == ids[..n];
    G.RunConcat(l0, BatchEvents(ids[..n], r.acked), MessageEvents(r.acked(ids[n])));
  }

  /**
   One iteration from log l0 and world w0: the machine has made its step, one call was made on each entry of
   the reply, and the world is what the arrivals and the calls, with what goes wrong in them, make of w0.
   */
  ghost predicate RoundDone(l0: G.Log, w0: World, l: G.Log, w: World, entries: seq<Values>, r: Round,
                            calls: seq<Call>)
  {
    && l == RoundLog(l0, r)
    && IdsOf(calls) == ReadIds(WithArrivals(l0, r), r)
    && w == AfterCalls(Arrived(w0, r), r, calls) && BatchRight(Arrived(w0, r), r, calls, entries)
  }

  /** In each round one call was made on each entry of its reply. */
  ghost predicate IdsRight(l0: G.Log, rounds: seq<Round>, calls: seq<seq<Call>>)
    requires |calls| == |rounds|
  {
    rounds != [] ==>
      var n := |rounds| - 1;
      && IdsRight(l0, rounds[..n], calls[..n])
      && IdsOf(calls[n]) == ReadIds(WithArrivals(LogAfter(l0, rounds[..n]), rounds[n]), rounds[n])
  }

  /** What the loop of Run has done in `rounds`, from log l0 and world w0. */
  ghost predicate Progress(l0: G.Log, w0: World, entries0: seq<Values>, l: G.Log, w: World, entries: seq<Values>,
                           rounds: seq<Round>, calls: seq<seq<Call>>)
  {
    && entries == entries0 + Arrivals(rounds) && |calls| == |rounds|
    && l == LogAfter(l0, rounds) && IdsRight(l0, rounds, calls)
    && w == AfterRounds(w0, rounds, calls) && AllRight(w0, rounds, calls, entries)
  }

  lemma {:induction false} ProgressMore(l0: G.Log, w0: World, entries0: seq<Values>,
                                        l1: G.Log, w1: World, entries1: seq<Values>,
                                        l2: G.Log, w2: World, entries2: seq<Values>,
                                        rounds: seq<Round>, r: Round, calls: seq<seq<Call>>, cs: seq<Call>)
    requires Progress(l0, w0, entries0, l1, w1, entries1, rounds, calls)
    requires RoundDone(l1, w1, l2, w2, entries2, r, cs) && entries2 == entries1 + r.arrivals
    ensures Progress(l0, w0, entries0, l2, w2, entries2, rounds + [r], calls + [cs])
  {
    AllStayRight(w0, rounds, calls, entries1, entries2);
    OneMoreRound(w0, rounds, calls, r, cs, entries2);
    ArrivalsMore(rounds, r);
    Assoc(entries0, Arrivals(rounds), r.arrivals);
    assert (rounds + [r])[..|rounds|] == rounds && (calls + [cs])[..|calls|] == calls;
  }

  lemma {:induction false} OneMorePrefix(rounds: seq<Round>, n: nat)
    requires n < |rounds|
    ensures rounds[..n] + [rounds[n]] == rounds[..n + 1]
  {
  }

  lemma {:induction false} ArrivalsMore(rounds: seq<Round>, r: Round)
    ensures Arrivals(rounds + [r]) == Arrivals(rounds) + r.arrivals
  {
    assert (rounds + [r])[..|rounds|] == rounds;
  }

  /** The calls were made on just the entries that the machine has processed. */
  lemma {:induction false} CallsAreProcessed(l0: G.Log, rounds: seq<Round>, calls: seq<seq<Call>>)
    requires G.Inv(l0.group, l0.length) && IdleGroup(l0.group) && |calls| == |rounds| && IdsRight(l0, rounds, calls)
    ensures LogAfter(l0, rounds).group.processed == l0.group.processed + AllIds(calls)
  {
    if rounds != [] {
      var n := |rounds| - 1;
      var before := LogAfter(l0, rounds[..n]);
      CallsAreProcessed(l0, rounds[..n], calls[..n]);
      RoundsGroup(l0, rounds[..n]);
      RoundProcesses(before, rounds[n]);
      Assoc(l0.group.processed, AllIds(calls[..n]), IdsOf(calls[n]));
    }
  }

  lemma {:induction false} RoundProcesses(l: G.Log, r: Round)
    requires G.Inv(l.group, l.length) && IdleGroup(l.group)
    ensures RoundLog(l, r).group.processed == l.group.processed + ReadIds(WithArrivals(l, r), r)
  {
    RoundGroup(l, r);
  }
}
