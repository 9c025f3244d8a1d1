/** Runs that show where the code and its documents disagree. */
module Witnesses {
  import opened Prelude
  import opened Timeline
  import opened Domain
  import opened EventCodec
  import opened Sums
  import opened MetricsTable
  import opened Batch
  import opened Incremental
  import opened SlidingWindow
  import opened Requests
  import Conservation
  import P = Pipeline
  import W = WritePath
  import G = ConsumerGroup

  // ---- the overtrading window ----

  /** The log of one user's set after one check, and after another. */
  function OneCheckLog(): seq<Command> {
    var key := WindowKey("u");
    LogIn(AfterCheck(map[], key, "b", 5_800_000, 4_000_000, 3, Others([], [Added(key, "a", 4_000_000)])), key)
  }

  function TwoCheckLog(): seq<Command> {
    var key := WindowKey("u");
    var first := AfterCheck(map[], key, "b", 7_800_000, 6_000_000, 3, Others([Added(key, "a", 5_000_000)], []));
    LogIn(AfterCheck(first, key, "c", 5_800_000, 4_000_000, 3, Others([], [])), key)
  }

  lemma {:induction false} OneAdd(logs: Logs, key: string, id: string, score: int)
    ensures LogIn(WithAdds(logs, [Added(key, id, score)]), key) == LogIn(logs, key) + [Add(id, score)]
  {
    var adds := [Added(key, id, score)];
    assert adds[..0] == [] && WithAdds(logs, adds[..0]) == logs;
  }

  /** A trade that is exactly 30 minutes old is counted when its handler adds it inside a check. */
  lemma {:induction false} TradeAtCutCounted(at: string -> int)
    requires at("a") == 4_000 * SECOND && at("b") == 5_800 * SECOND
    ensures var log := OneCheckLog();
            && log == [Add("b", 5_800_000), Prune(4_000_000), Add("a", 4_000_000), CountFrom(4_000_000)]
            && OneCheck(log, 1, 3, 4_000_000) && WellScored(log, at)
            && "a" in Counted(Exec(log[..3]), 4_000_000) && !InWindow(HandlerScore(at, "a"), 4_000_000)
  {
    var key := WindowKey("u");
    var pruned := Logged(Logged(map[], key, Add("b", 5_800_000), true), key, Prune(4_000_000), true);
    OneAdd(pruned, key, "a", 4_000_000);
    var log := OneCheckLog();
    assert log[..0] == [] && Exec(log[..0]) == map[];
    assert log[..1] == log[..0] + [log[0]] && log[..2] == log[..1] + [log[1]] && log[..3] == log[..2] + [log[2]];
    ExecMore(log[..0], log[0]);
    ExecMore(log[..1], log[1]);
    ExecMore(log[..2], log[2]);
  }

  /** What the two checks log: the first one's prune follows the add of "a". */
  predicate RunsAhead(log: seq<Command>) {
    && |log| == 7
    && log[0] == Add("b", 7_800_000) && log[1] == Add("a", 5_000_000) && log[2] == Prune(6_000_000)
    && log[3] == CountFrom(6_000_000)
    && log[4] == Add("c", 5_800_000) && log[5] == Prune(4_000_000) && log[6] == CountFrom(4_000_000)
  }

  lemma {:induction false} TwoChecks()
    ensures RunsAhead(TwoCheckLog())
  {
    var none: Logs := map[];
    OneAdd(Logged(none, WindowKey("u"), Add("b", 7_800_000), true), WindowKey("u"), "a", 5_000_000);
  }

  lemma {:induction false} PrunedAhead(log: seq<Command>)
    requires RunsAhead(log)
    ensures AddedTo(log[..6]) == {"a", "b", "c"} && !Survives(log[..6], "a", 5_000_000)
  {
    var c := log[..6];
    assert c[1].Add? && c[1].id == "a" && c[0].Add? && c[0].id == "b" && c[4].Add? && c[4].id == "c";
    assert "b"[0] != "a"[0] && "c"[0] != "a"[0];
    forall i | 0 <= i < |c| && c[i].Add? ensures i in {0, 1, 4} {}
    forall i: nat ensures !LastsFrom(c, i, "a", 5_000_000) {
      assert Covers(c[2], 5_000_000);
    }
  }

  lemma {:induction false} MissesOne(log: seq<Command>, at: string -> int)
    requires RunsAhead(log)
    requires at("a") == 5_000 * SECOND && at("b") == 7_800 * SECOND && at("c") == 5_800 * SECOND
    ensures OneCheck(log, 5, 6, 4_000_000) && WellScored(log, at)
    ensures "a" in Distinct(log[..6], at, 4_000_000) && "a" !in Counted(Exec(log[..6]), 4_000_000)
  {
    PrunedAhead(log);
    MemberSurvives(log[..6], at, "a");
  }

  /** A check that runs ahead of a later one makes the later one miss a trade that is in its window. */
  lemma {:induction false} OutOfOrderUndercounts(at: string -> int)
    requires at("a") == 5_000 * SECOND && at("b") == 7_800 * SECOND && at("c") == 5_800 * SECOND
    ensures var log, cut := TwoCheckLog(), 4_000_000;
            && |log| == 7 && OneCheck(log, 5, 6, cut) && WellScored(log, at)
            && "a" in Distinct(log[..6], at, cut) && "a" !in Counted(Exec(log[..6]), cut)
  {
    TwoChecks();
    MissesOne(TwoCheckLog(), at);
  }

  // ---- one trade in the pipeline ----

  /** A request, and the goroutine that publishes its event. */
  function Submission(c: nat, input: TradeInput, t: Trade): seq<P.Action> {
    Writes(Post(c, input) + [W.RunTask(W.Publish(Encode(t)))])
  }

  function Writes(ws: seq<W.Action>): seq<P.Action> {
    seq(|ws|, i requires 0 <= i < |ws| => P.Write(ws[i]))
  }

  lemma {:induction false} WritesRun(s: P.State, ws: seq<W.Action>)
    ensures P.Run(s, Writes(ws)) == s.(w := W.Run(s.w, ws))
  {
    if ws != [] {
      var l := |ws| - 1;
      WritesRun(s, ws[..l]);
      assert Writes(ws)[..l] == Writes(ws[..l]);
    }
  }

  /** An accepted trade that is not flagged. */
  ghost predicate Accepts(s: W.State, input: TradeInput, t: Trade) {
    ValidInput(input) && t == StoredTrade(BuildDraft(input)) && Storable(t) && s.lastLoss == map[]
  }

  lemma {:induction false} PublishRuns(s: W.State, r: Trade)
    requires W.Publish(Encode(r)) in s.tasks
    ensures var e := W.Apply(s, W.RunTask(W.Publish(Encode(r))));
            e == s.(stream := s.stream + [Encode(r)], tasks := e.tasks)
  {
  }

  lemma {:induction false} Submitted(s: P.State, c: nat, input: TradeInput, t: Trade)
    requires c !in s.w.clients && Accepts(s.w, input, t)
    ensures var r := RecordOf(s.w.db, t);
            var e := P.Run(s, Submission(c, input, r));
            && e == s.(w := e.w) && e.w.lastLoss == map[]
            && e.w.db == W.InsertRow(s.w.db, t) && e.w.stream == s.w.stream + [Encode(r)]
            && e.w.clients == s.w.clients[c := W.Done(r)]
  {
    var r := RecordOf(s.w.db, t);
    var publish := W.RunTask(W.Publish(Encode(r)));
    WritesRun(s, Post(c, input) + [publish]);
    assert FlaggedDraft(s.w, input, true) == BuildDraft(input);
    Posted(s.w, c, input);
    WriteMore(s.w, Post(c, input), publish);
    assert W.Publish(Encode(r)) in s.w.tasks + W.Spawned(r);
    PublishRuns(W.Run(s.w, Post(c, input)), r);
  }

  /** The worker reads, takes up the message and executes its counts statement. */
  function Counting(): seq<P.Action> { [P.Log(G.Read(false)), P.Log(G.Process), P.PutCounts(true)] }

  /** It skips the two reads, executes the emotion statement and acknowledges. */
  function Finishing(): seq<P.Action> {
    [P.PutPlan(None, false), P.PutTilt(None, false), P.PutEmotion(true), P.Log(G.Ack(true))]
  }

  lemma {:induction false} RunMore(s: P.State, actions: seq<P.Action>, a: P.Action)
    ensures P.Run(s, actions + [a]) == P.Apply(P.Run(s, actions), a)
  {
    assert (actions + [a])[..|actions|] == actions;
  }

  lemma {:induction false} RunThree(s: P.State, a: P.Action, b: P.Action, c: P.Action)
    ensures P.Run(s, [a, b, c]) == P.Apply(P.Apply(P.Apply(s, a), b), c)
  {
    assert [a, b, c] == [] + [a] + [b] + [c];
    RunMore(s, [], a);
    RunMore(s, [] + [a], b);
    RunMore(s, [] + [a] + [b], c);
  }

  /** The step of the trade's event between its counts and its emotion statement, and when it is done. */
  function HalfStep(t: Trade): Step { Step(MessageOf(t), Reads(None, None), Faults(false, true, true, true)) }

  function FullStep(t: Trade): Step { Step(MessageOf(t), Reads(None, None), Faults(false, true, true, false)) }

  /** The worker is idle and has one entry to read. */
  ghost predicate OneAhead(s: P.State, t: Trade) {
    && s.g.batch == [] && !s.g.handled && t.status == Closed
    && |s.w.stream| == s.g.delivered + 1 && s.w.stream[s.g.delivered] == Encode(t)
  }

  lemma {:induction false} WorkerCounts(s: P.State, t: Trade)
    requires OneAhead(s, t)
    ensures var e := P.Run(s, Counting());
            && e.w == s.w && e.steps == s.steps + [HalfStep(t)] && e.stage == 1
            && e.g.handled && e.g.batch == [s.g.delivered] && e.g.delivered == |s.w.stream|
  {
    var all := Counting();
    DecodeEncode(t);
    RunThree(s, all[0], all[1], all[2]);
    var s1 := P.Apply(s, all[0]);
    assert s1.g.batch == [s.g.delivered] && s1.w == s.w && s1.steps == s.steps;
    TakesUp(s1, t);
  }

  lemma {:induction false} TakesUp(s: P.State, t: Trade)
    requires |s.g.batch| == 1 && !s.g.handled && s.g.batch[0] < |s.w.stream|
    requires Decode(s.w.stream[s.g.batch[0]]) == MessageOf(t) && t.status == Closed
    ensures var e := P.Apply(P.Apply(s, P.Log(G.Process)), P.PutCounts(true));
            && e.w == s.w && e.steps == s.steps + [HalfStep(t)] && e.stage == 1
            && e.g.handled && e.g.batch == s.g.batch && e.g.delivered == s.g.delivered
  {
    var s1 := P.Apply(s, P.Log(G.Process));
    assert s1.steps == s.steps + [Step(MessageOf(t), Reads(None, None), P.NO_TRACE)];
  }

  lemma {:induction false} WorkerFinishes(s: P.State, t: Trade, before: seq<Step>)
    requires s.g.handled && |s.g.batch| == 1 && s.stage == 1 && s.steps == before + [HalfStep(t)]
    requires W.ValidTable(s.w.db) && t.status == Closed
    ensures var e := P.Run(s, Finishing());
            && e.w == s.w && e.steps == before + [FullStep(t)]
            && !e.g.handled && e.g.batch == [] && e.g.delivered == s.g.delivered
  {
    var all := Finishing();
    assert all == [all[0], all[1], all[2]] + [all[3]];
    RunThree(s, all[0], all[1], all[2]);
    RunMore(s, [all[0], all[1], all[2]], all[3]);
    SkipsReads(s, t, before);
    FeelsAndAcks(s.(stage := 3), t, before);
  }

  lemma {:induction false} SkipsReads(s: P.State, t: Trade, before: seq<Step>)
    requires s.g.handled && s.stage == 1 && s.steps == before + [HalfStep(t)]
    requires W.ValidTable(s.w.db) && t.status == Closed
    ensures P.Apply(P.Apply(s, P.PutPlan(None, false)), P.PutTilt(None, false)) == s.(stage := 3)
  {
    assert P.Apply(s, P.PutPlan(None, false)) == s.(stage := 2);
  }

  lemma {:induction false} FeelsAndAcks(s: P.State, t: Trade, before: seq<Step>)
    requires s.g.handled && |s.g.batch| == 1 && s.stage == 3 && s.steps == before + [HalfStep(t)]
    requires t.status == Closed
    ensures var e := P.Apply(P.Apply(s, P.PutEmotion(true)), P.Log(G.Ack(true)));
            && e.w == s.w && e.steps == before + [FullStep(t)]
            && !e.g.handled && e.g.batch == [] && e.g.delivered == s.g.delivered
  {
    assert P.Apply(s, P.PutEmotion(true)).steps == before + [FullStep(t)];
  }

  /** Whatever the trade, between its two statements it is in its day's hourly totals only. */
  lemma {:induction false} UnequalMidMessage(s: P.State, input: TradeInput, t: Trade)
    requires P.Init(s) && s.tables == EMPTY_TABLES && Accepts(s.w, input, t) && t.tradeId !in s.w.db.rows
    requires t.status == Closed
    ensures var e := P.Run(s, Submission(0, input, t) + Counting());
            var day := GoDay(MessageOf(t).entryAt);
            Conservation.MoodSum(e.tables.emotions, t.userId, day, false)
            < Conservation.DaySum(e.tables.rows, t.userId, day, Trades)
  {
    var actions := Submission(0, input, t) + Counting();
    var day := GoDay(MessageOf(t).entryAt);
    P.RunConcat(s, Submission(0, input, t), Counting());
    Submitted(s, 0, input, t);
    WorkerCounts(P.Run(s, Submission(0, input, t)), t);
    EmptyIsSeeded();
    P.ConservedInEveryRun(s, actions, [], t.userId, day, false);
    var steps := P.Run(s, actions).steps;
    assert steps == [HalfStep(t)] && Conservation.Unfelt(t.userId, day, false)(steps[0]);
  }

  function Twice(input: TradeInput, t: Trade): seq<P.Action> {
    Submission(0, input, t) + Counting() + Finishing() + Submission(1, input, t) + Counting()
  }

  /** A request of a trade, of which `r` is the stored record, and the worker's counts statement for it. */
  lemma {:induction false} OneCounted(s: P.State, c: nat, input: TradeInput, t: Trade, r: Trade)
    requires c !in s.w.clients && Accepts(s.w, input, t) && r == RecordOf(s.w.db, t) && r.status == Closed
    requires s.g.batch == [] && !s.g.handled && |s.w.stream| == s.g.delivered
    ensures var e := P.Run(s, Submission(c, input, r) + Counting());
            && e.w.db == W.InsertRow(s.w.db, t) && e.w.lastLoss == map[]
            && e.w.clients == s.w.clients[c := W.Done(r)] && |e.w.stream| == e.g.delivered
            && e.steps == s.steps + [HalfStep(r)] && e.stage == 1 && e.g.handled && |e.g.batch| == 1
  {
    P.RunConcat(s, Submission(c, input, r), Counting());
    Submitted(s, c, input, t);
    WorkerCounts(P.Run(s, Submission(c, input, r)), r);
  }

  lemma {:induction false} TwiceSteps(s: P.State, input: TradeInput, t: Trade)
    requires P.Init(s) && Accepts(s.w, input, t) && t.tradeId !in s.w.db.rows && t.status == Closed
    ensures var e := P.Run(s, Twice(input, t));
            e.w.db == W.InsertRow(s.w.db, t) && e.steps == [FullStep(t), HalfStep(t)]
  {
    var first, second := Submission(0, input, t) + Counting(), Submission(1, input, t) + Counting();
    Assoc(first + Finishing(), Submission(1, input, t), Counting());
    P.RunConcat(s, first + Finishing(), second);
    P.RunConcat(s, first, Finishing());
    OneCounted(s, 0, input, t, t);
    W.InsertExtends(s.w.db, t);
    WorkerFinishes(P.Run(s, first), t, []);
    OneCounted(P.Run(s, first + Finishing()), 1, input, t, t);
  }

  /** A trade that is submitted again is stored once and counted twice. */
  lemma {:induction false} ResubmittedCountsTwice(s: P.State, input: TradeInput, t: Trade)
    requires P.Init(s) && s.tables == EMPTY_TABLES && Accepts(s.w, input, t) && t.tradeId !in s.w.db.rows
    requires t.status == Closed && Printable(t.entryAt)
    ensures var e := P.Run(s, Twice(input, t));
            e.w.db.order == s.w.db.order + [t.tradeId] && Cell(e.tables.rows, HourKey(t)).trades == 2
  {
    var steps, ts := [FullStep(t), HalfStep(t)], [t, t];
    TwiceSteps(s, input, t);
    P.Replayed(s, Twice(input, t));
    CountedTwice(t);
  }

  lemma {:induction false} CountedTwice(t: Trade)
    requires t.status == Closed && Printable(t.entryAt)
    ensures Cell(RunAll(EMPTY_TABLES, [FullStep(t), HalfStep(t)]).rows, HourKey(t)).trades == 2
  {
    var steps, ts, k := [FullStep(t), HalfStep(t)], [t, t], HourKey(t);
    assert ts[..1] == [t] && steps[..1] == [FullStep(t)] && ts[..1][..0] == [] && steps[..1][..0] == [];
    assert Took(ts[..1][..0], steps[..1][..0], CountsTook()) == [];
    assert Took(ts[..1], steps[..1], CountsTook()) == [t];
    assert Took(ts, steps, CountsTook()) == [t] + [t];
    ReplayRow(EMPTY_TABLES, ts, steps, k);
    CountAppend([t], t, ClosedIn(k));
    CountAppend([], t, ClosedIn(k));
    assert [] + [t] == [t] && ClosedIn(k)(t);
  }
}
