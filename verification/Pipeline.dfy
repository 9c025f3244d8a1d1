/**
 The whole pipeline as one state machine: requests and their goroutines, the event stream with its
 consumer group, and the worker folding events into the metrics tables.
 */
module Pipeline {
  import opened Prelude
  import opened Domain
  import opened EventCodec
  import opened Sums
  import opened MetricsTable
  import opened Batch
  import opened Incremental
  import opened RollUp
  import opened TradeQueries
  import Conservation
  import MS = MetricsStore
  import W = WritePath
  import G = ConsumerGroup

  /**
   `steps` is the history of processMessage calls, in order. The last one may be under way: `stage`
   counts its statements already issued, and those still to come have left no trace so far.
   */
  datatype State = State(w: W.State, g: G.Group, tables: Tables, steps: seq<Step>, stage: nat)

  datatype Action =
    | Write(w: W.Action)
    | Log(l: G.Action)  // the worker reads, takes up a message, acknowledges or crashes
    // one statement of processMessage, executed or not, with what was read from the trades table before it
    | PutCounts(ok: bool)
    | PutPlan(read: Option<real>, ok: bool)
    | PutTilt(read: Option<real>, ok: bool)
    | PutEmotion(ok: bool)

  const NO_TRACE := Faults(true, true, true, true)

  predicate CanHandle(s: State) {
    s.g.batch != [] && !s.g.handled && s.g.batch[0] < |s.w.stream|
  }

  /** The message under way is closed and its statement number n comes next. */
  predicate AtStage(s: State, n: nat) {
    s.g.handled && s.steps != [] && Current(s).m.closed && s.stage == n
  }

  function Current(s: State): Step
    requires s.steps != []
  {
    s.steps[|s.steps| - 1]
  }

  /** processMessage has returned. */
  predicate Finished(s: State) {
    s.steps == [] || !Current(s).m.closed || s.stage == 4
  }

  function Advance(s: State, tables: Tables, current: Step): State
    requires s.steps != []
  {
    s.(tables := tables, steps := s.steps[..|s.steps| - 1] + [current], stage := s.stage + 1)
  }

  function ApplyLog(s: State, l: G.Action): State {
    match l
    case Process =>
      if CanHandle(s) then
        var step := Step(Decode(s.w.stream[s.g.batch[0]]), Reads(None, None), NO_TRACE);
        s.(g := G.Apply(s.g, |s.w.stream|, l), steps := s.steps + [step], stage := 0)
      else s
    case Ack(_) => if Finished(s) then s.(g := G.Apply(s.g, |s.w.stream|, l)) else s
    case _ => s.(g := G.Apply(s.g, |s.w.stream|, l))
  }

  ghost predicate PlanSeen(db: W.Table, m: Message, plan: Option<real>) {
    W.ValidTable(db) && PlanRead(W.Listing(db), m, plan)
  }

  ghost predicate TiltSeen(db: W.Table, m: Message, tilt: Option<real>) {
    W.ValidTable(db) && TiltRead(W.Listing(db), m, tilt)
  }

  /** One step. An action that is not enabled changes nothing. */
  ghost function Apply(s: State, a: Action): State {
    match a
    case Write(w) => s.(w := W.Apply(s.w, w))
    case Log(l) => ApplyLog(s, l)
    case PutCounts(ok) =>
      if AtStage(s, 0) then
        var c := Current(s);
        var rows := if ok then Upsert(s.tables.rows, KeyOf(c.m), CountsOf(c.m)) else s.tables.rows;
        Advance(s, s.tables.(rows := rows), c.(faults := c.faults.(counts := !ok)))
      else s
    case PutPlan(read, ok) =>
      if AtStage(s, 1) && PlanSeen(s.w.db, Current(s).m, read) then
        var c := Current(s).(seen := Current(s).seen.(plan := read), faults := Current(s).faults.(plan := !ok));
        var rows := if WritesPlan(c.m, c.seen, c.faults) then Upsert(s.tables.rows, KeyOf(c.m), PlanOf(read.value))
                    else s.tables.rows;
        Advance(s, s.tables.(rows := rows), c)
      else s
    case PutTilt(read, ok) =>
      if AtStage(s, 2) && TiltSeen(s.w.db, Current(s).m, read) then
        var c := Current(s).(seen := Current(s).seen.(tilt := read), faults := Current(s).faults.(tilt := !ok));
        var rows := if WritesTilt(c.m, c.seen, c.faults) then Upsert(s.tables.rows, KeyOf(c.m), TiltOf(read.value))
                    else s.tables.rows;
        Advance(s, s.tables.(rows := rows), c)
      else s
    case PutEmotion(ok) =>
      if AtStage(s, 3) then
        var c := Current(s).(faults := Current(s).faults.(emotion := !ok));
        Advance(s, s.tables.(emotions := ProcessEmotions(s.tables.emotions, c.m, c.faults)), c)
      else s
  }

  ghost function Run(s: State, actions: seq<Action>): State {
    if actions == [] then s else Apply(Run(s, actions[..|actions| - 1]), actions[|actions| - 1])
  }

  lemma {:induction false} RunConcat(s: State, a: seq<Action>, b: seq<Action>)
    ensures Run(s, a + b) == Run(Run(s, a), b)
    decreases |b|
  {
    if b == [] {
      assert a + b == a;
    } else {
      assert (a + b)[..|a + b| - 1] == a + b[..|b| - 1];
      RunConcat(s, a, b[..|b| - 1]);
    }
  }

  ghost predicate Init(s: State) {
    W.Init(s.w) && s.g == G.INITIAL && s.steps == []
  }

  // ---- what one statement does ----

  /** The counts statement touches just the row of the message, and does its part there if it is executed. */
  lemma {:induction false} CountsStatement(s: State, ok: bool, k: RowKey)
    requires AtStage(s, 0)
    ensures var e := Apply(s, PutCounts(ok));
            && e.stage == 1 && e.tables.emotions == s.tables.emotions
            && RowEffect(s.tables.rows, e.tables.rows, Current(s).m,
                         Reads(None, None), Faults(!ok, true, true, true), k)
  {
    EventEffect(s.tables.rows, Current(s).m, Reads(None, None), Faults(!ok, true, true, true), k);
  }

  lemma {:induction false} PlanStatement(s: State, read: Option<real>, ok: bool, k: RowKey)
    requires AtStage(s, 1) && PlanSeen(s.w.db, Current(s).m, read)
    ensures var e := Apply(s, PutPlan(read, ok));
            && e.stage == 2 && e.tables.emotions == s.tables.emotions
            && RowEffect(s.tables.rows, e.tables.rows, Current(s).m,
                         Reads(read, None), Faults(true, !ok, true, true), k)
  {
    EventEffect(s.tables.rows, Current(s).m, Reads(read, None), Faults(true, !ok, true, true), k);
  }

  lemma {:induction false} TiltStatement(s: State, read: Option<real>, ok: bool, k: RowKey)
    requires AtStage(s, 2) && TiltSeen(s.w.db, Current(s).m, read)
    ensures var e := Apply(s, PutTilt(read, ok));
            && e.stage == 3 && e.tables.emotions == s.tables.emotions
            && RowEffect(s.tables.rows, e.tables.rows, Current(s).m,
                         Reads(None, read), Faults(true, true, !ok, true), k)
  {
    EventEffect(s.tables.rows, Current(s).m, Reads(None, read), Faults(true, true, !ok, true), k);
  }

  lemma {:induction false} EmotionStatement(s: State, ok: bool, k: EmotionKey)
    requires AtStage(s, 3)
    ensures var e := Apply(s, PutEmotion(ok));
            && e.stage == 4 && e.tables.rows == s.tables.rows
            && TallyEffect(s.tables.emotions, e.tables.emotions, Current(s).m, !ok, k)
  {
    EmotionEffect(s.tables.emotions, Current(s).m, Current(s).faults.(emotion := !ok), k);
  }

  // ---- what every step keeps ----

  ghost predicate HistoryMatches(s: State) {
    && |s.steps| == |s.g.processed|
    && (forall i :: 0 <= i < |s.steps| ==>
          s.g.processed[i] < |s.w.stream| && s.steps[i].m == Decode(s.w.stream[s.g.processed[i]]))
  }

  /** Statements still to come have left no trace. */
  predicate NotYet(f: Faults, stage: nat) {
    (stage <= 0 ==> f.counts) && (stage <= 1 ==> f.plan) && (stage <= 2 ==> f.tilt) && (stage <= 3 ==> f.emotion)
  }

  /** The tables are the fold over the history, the part of the last call that has run included. */
  ghost predicate TablesMatch(s: State, start: Tables) {
    && s.tables == RunAll(start, s.steps)
    && (s.g.handled ==> s.steps != [] && NotYet(Current(s).faults, s.stage))
  }

  ghost predicate Inv(s: State, start: Tables, seeded: nat) {
    && W.Inv(s.w, seeded)
    && G.Inv(s.g, |s.w.stream|)
    && HistoryMatches(s)
    && TablesMatch(s, start)
  }

  lemma {:induction false} StreamGrows(w: W.State, a: W.Action)
    ensures w.stream <= W.Apply(w, a).stream
  {
  }

  lemma {:induction false} LongerStream(s: State, w: W.State)
    requires G.Inv(s.g, |s.w.stream|) && HistoryMatches(s) && s.w.stream <= w.stream
    ensures G.Inv(s.g, |w.stream|) && HistoryMatches(s.(w := w))
  {
  }

  lemma {:induction false} WriteKeeps(s: State, a: W.Action, start: Tables, seeded: nat)
    requires Inv(s, start, seeded)
    ensures Inv(Apply(s, Write(a)), start, seeded)
  {
    W.StepKeeps(s.w, a, seeded);
    StreamGrows(s.w, a);
    LongerStream(s, W.Apply(s.w, a));
  }

  lemma {:induction false} TakeUpHistory(s: State)
    requires HistoryMatches(s) && CanHandle(s)
    ensures HistoryMatches(ApplyLog(s, G.Process))
  {
    assert ApplyLog(s, G.Process).g.processed == s.g.processed + [s.g.batch[0]];
  }

  lemma {:induction false} TakeUpTables(s: State, start: Tables)
    requires TablesMatch(s, start) && CanHandle(s)
    ensures TablesMatch(ApplyLog(s, G.Process), start)
  {
    RunAllLast(start, s.steps, Current(ApplyLog(s, G.Process)));
  }

  /** Only Process appends to the history. */
  lemma {:induction false} OtherLog(s: State, a: G.Action)
    requires a != G.Process
    ensures ApplyLog(s, a).g.processed == s.g.processed
    ensures ApplyLog(s, a).steps == s.steps && ApplyLog(s, a).stage == s.stage && ApplyLog(s, a).tables == s.tables
    ensures ApplyLog(s, a).g.handled ==> s.g.handled
  {
  }

  lemma {:induction false} OtherLogKeeps(s: State, a: G.Action, start: Tables)
    requires a != G.Process && G.Inv(s.g, |s.w.stream|) && HistoryMatches(s) && TablesMatch(s, start)
    ensures var s' := ApplyLog(s, a); G.Inv(s'.g, |s'.w.stream|) && HistoryMatches(s') && TablesMatch(s', start)
  {
    G.StepKeeps(s.g, |s.w.stream|, a);
    OtherLog(s, a);
  }

  lemma {:induction false} TakeUpKeeps(s: State, start: Tables)
    requires G.Inv(s.g, |s.w.stream|) && HistoryMatches(s) && TablesMatch(s, start)
    ensures var s' := ApplyLog(s, G.Process);
            G.Inv(s'.g, |s'.w.stream|) && HistoryMatches(s') && TablesMatch(s', start)
  {
    if CanHandle(s) {
      G.StepKeeps(s.g, |s.w.stream|, G.Process);
      TakeUpHistory(s);
      TakeUpTables(s, start);
    }
  }

  lemma {:induction false} LogKeeps(s: State, a: G.Action, start: Tables, seeded: nat)
    requires Inv(s, start, seeded)
    ensures Inv(Apply(s, Log(a)), start, seeded)
  {
    if a != G.Process {
      OtherLogKeeps(s, a, start);
    } else {
      TakeUpKeeps(s, start);
    }
  }

  // the effect of one statement, as a change of the last step

  lemma {:induction false} CountsAlone(base: Tables, m: Message, r: Reads, f: Faults)
    requires m.closed && NotYet(f, 0)
    ensures Process(base, m, r, f) == base
    ensures Process(base, m, r, f.(counts := false)) == base.(rows := Upsert(base.rows, KeyOf(m), CountsOf(m)))
  {
  }

  lemma {:induction false} PlanNext(base: Tables, m: Message, r: Reads, f: Faults, read: Option<real>, ok: bool)
    requires m.closed && NotYet(f, 1)
    ensures var before, r', f' := Process(base, m, r, f), r.(plan := read), f.(plan := !ok);
            Process(base, m, r', f') == if WritesPlan(m, r', f')
              then before.(rows := Upsert(before.rows, KeyOf(m), PlanOf(read.value))) else before
  {
  }

  lemma {:induction false} TiltNext(base: Tables, m: Message, r: Reads, f: Faults, read: Option<real>, ok: bool)
    requires m.closed && NotYet(f, 2)
    ensures var before, r', f' := Process(base, m, r, f), r.(tilt := read), f.(tilt := !ok);
            Process(base, m, r', f') == if WritesTilt(m, r', f')
              then before.(rows := Upsert(before.rows, KeyOf(m), TiltOf(read.value))) else before
  {
  }

  lemma {:induction false} EmotionNext(base: Tables, m: Message, r: Reads, f: Faults, ok: bool)
    requires m.closed && NotYet(f, 3)
    ensures var before, f' := Process(base, m, r, f), f.(emotion := !ok);
            Process(base, m, r, f') == before.(emotions := ProcessEmotions(before.emotions, m, f'))
  {
  }

  /** A statement changes the tables as its change of the last step says. */
  lemma {:induction false} StatementTables(s: State, a: Action, start: Tables)
    requires TablesMatch(s, start) && !a.Write? && !a.Log?
    ensures TablesMatch(Apply(s, a), start)
  {
    var s' := Apply(s, a);
    if s' != s {
      var init, c := s.steps[..|s.steps| - 1], Current(s);
      assert s.steps == init + [c] && s'.steps == init + [Current(s')];
      RunAllLast(start, init, c);
      RunAllLast(start, init, Current(s'));
      var base := RunAll(start, init);
      match a
      case PutCounts(ok) => CountsAlone(base, c.m, c.seen, c.faults);
      case PutPlan(read, ok) => PlanNext(base, c.m, c.seen, c.faults, read, ok);
      case PutTilt(read, ok) => TiltNext(base, c.m, c.seen, c.faults, read, ok);
      case PutEmotion(ok) => EmotionNext(base, c.m, c.seen, c.faults, ok);
    }
  }

  /** The messages of the history stay. */
  lemma {:induction false} StatementHistory(s: State, a: Action)
    requires HistoryMatches(s) && !a.Write? && !a.Log?
    ensures HistoryMatches(Apply(s, a))
  {
  }

  lemma {:induction false} StepKeeps(s: State, a: Action, start: Tables, seeded: nat)
    requires Inv(s, start, seeded)
    ensures Inv(Apply(s, a), start, seeded)
  {
    if a.Write? {
      WriteKeeps(s, a.w, start, seeded);
    } else if a.Log? {
      LogKeeps(s, a.l, start, seeded);
    } else {
      StatementHistory(s, a);
      StatementTables(s, a, start);
    }
  }

  lemma {:induction false} RunKeeps(s: State, actions: seq<Action>, start: Tables, seeded: nat)
    requires Inv(s, start, seeded)
    ensures Inv(Run(s, actions), start, seeded)
  {
    if actions != [] {
      RunKeeps(s, actions[..|actions| - 1], start, seeded);
      StepKeeps(Run(s, actions[..|actions| - 1]), actions[|actions| - 1], start, seeded);
    }
  }

  lemma {:induction false} Reached(s: State, actions: seq<Action>)
    requires Init(s)
    ensures Inv(Run(s, actions), s.tables, |s.w.db.order|)
  {
    W.InitInv(s.w);
    RunKeeps(s, actions, s.tables, |s.w.db.order|);
  }

  // ---- counts come first ----

  /** No counts statement was executed with an error; a crash before it is not one. */
  ghost predicate CountsSucceed(actions: seq<Action>) {
    forall i :: 0 <= i < |actions| ==> actions[i] != PutCounts(false)
  }

  predicate CountsFirst(f: Faults) {
    f.counts ==> f.plan && f.tilt && f.emotion
  }

  ghost predicate CountsLead(s: State) {
    && (forall i :: 0 <= i < |s.steps| ==> CountsFirst(s.steps[i].faults))
    && (s.g.handled && s.steps != [] && Current(s).m.closed && 1 <= s.stage ==> !Current(s).faults.counts)
  }

  lemma {:induction false} CountsLeadStep(s: State, a: Action)
    requires CountsLead(s) && a != PutCounts(false)
    ensures CountsLead(Apply(s, a))
  {
    if a.Log? && a.l != G.Process { OtherLog(s, a.l); }
  }

  /** Because the counts statement comes first, no event reaches another table or column without it. */
  lemma {:induction false} CountsLeadAlways(s: State, actions: seq<Action>)
    requires Init(s) && CountsSucceed(actions)
    ensures CountsLead(Run(s, actions))
  {
    if actions != [] {
      CountsLeadAlways(s, actions[..|actions| - 1]);
      CountsLeadStep(Run(s, actions[..|actions| - 1]), actions[|actions| - 1]);
    }
  }

  lemma {:induction false} NoStrays(steps: seq<Step>)
    requires forall i :: 0 <= i < |steps| ==> CountsFirst(steps[i].faults)
    ensures forall k :: !StrayAt(steps, k)
  {
  }

  // ---- where the processed events come from ----

  /** The stored trade whose event this is; its id is in the event. */
  ghost function Source(db: W.Table, values: Values): Trade
    requires W.EventStored(db, values)
  {
    var id :| W.IsEventOf(db, values, id);
    db.rows[id]
  }

  /** The stored trades behind the calls of processMessage, in order, repetitions included. */
  ghost function Handled(s: State, start: Tables, seeded: nat): seq<Trade>
    requires Inv(s, start, seeded)
  {
    seq(|s.steps|, i requires 0 <= i < |s.steps| => Source(s.w.db, s.w.stream[s.g.processed[i]]))
  }

  lemma {:induction false} SourceFacts(db: W.Table, values: Values)
    requires W.ValidTable(db) && W.EventStored(db, values)
    ensures var t := Source(db, values);
            t.tradeId in db.rows && db.rows[t.tradeId] == t && values == Encode(t) && Decode(values) == MessageOf(t)
  {
    var id :| W.IsEventOf(db, values, id) && Source(db, values) == db.rows[id];
    DecodeEncode(db.rows[id]);
  }

  lemma {:induction false} HandledReplays(s: State, start: Tables, seeded: nat)
    requires Inv(s, start, seeded)
    ensures var ts := Handled(s, start, seeded);
            && |ts| == |s.steps|
            && (forall i :: 0 <= i < |ts| ==> s.steps[i].m == MessageOf(ts[i]))
            && (forall i :: 0 <= i < |ts| ==> ts[i].tradeId in s.w.db.rows && s.w.db.rows[ts[i].tradeId] == ts[i])
            && Decodes(s.steps, ts)
  {
    forall i | 0 <= i < |s.steps|
      ensures var t := Source(s.w.db, s.w.stream[s.g.processed[i]]);
              s.steps[i].m == MessageOf(t) && t.tradeId in s.w.db.rows && s.w.db.rows[t.tradeId] == t
    {
      SourceFacts(s.w.db, s.w.stream[s.g.processed[i]]);
    }
  }

  // ---- end to end ----

  /** The stored trades whose events a run has processed, in order, repetitions included. */
  ghost function ProcessedIn(s: State, actions: seq<Action>): (ts: seq<Trade>)
    requires Init(s)
    ensures |ts| == |Run(s, actions).steps|
  {
    Reached(s, actions);
    Handled(Run(s, actions), s.tables, |s.w.db.order|)
  }

  /** The trades table as a run leaves it. */
  ghost function TableOf(s: State, actions: seq<Action>): seq<Trade>
    requires Init(s)
  {
    Reached(s, actions);
    W.Listing(Run(s, actions).w.db)
  }

  lemma {:induction false} ProcessedFacts(s: State, actions: seq<Action>)
    requires Init(s)
    ensures Decodes(Run(s, actions).steps, ProcessedIn(s, actions))
    ensures forall t :: t in ProcessedIn(s, actions) ==> t in TableOf(s, actions)
  {
    Reached(s, actions);
    var e, ts := Run(s, actions), ProcessedIn(s, actions);
    HandledReplays(e, s.tables, |s.w.db.order|);
    forall t | t in ts ensures t in TableOf(s, actions) {
      var i :| 0 <= i < |ts| && ts[i] == t;
      assert t.tradeId in e.w.db.order;
      var j :| 0 <= j < |e.w.db.order| && e.w.db.order[j] == t.tradeId;
      assert TableOf(s, actions)[j] == t;
    }
  }

  /**
   In every reachable state, also between two statements of a message, and whatever failed: every
   processed event is the event of a stored trade, and each metrics table, which the seed statements
   filled from some trades, is its batch statement over the bag of those trades and the ones whose
   statement took effect exactly when the closed trades among the latter have outcomes and printable
   years and, for behavioral_metrics, no other row was written. None was when no counts statement failed.
   */
  lemma {:induction false} MetricsAreBatchOfProcessed(s: State, actions: seq<Action>, seeded: seq<Trade>)
    requires Init(s) && SeededFrom(s.tables, seeded)
    ensures var e, ts := Run(s, actions), ProcessedIn(s, actions);
            && (forall t :: t in ts ==> t in TableOf(s, actions))
            && var counted, felt := Took(ts, e.steps, CountsTook()), Took(ts, e.steps, EmotionTook());
               && (CountColumns(e.tables.rows) == SeedRows(seeded + counted)
                   <==> AllDecided(counted) && ClosedPrintable(counted) && StraysCovered(e.steps, seeded + counted))
               && (e.tables.emotions == SeedEmotions(seeded + felt) <==> FeltDecided(felt) && FeltPrintable(felt))
               && (CountsSucceed(actions) ==> StraysCovered(e.steps, seeded + counted))
  {
    Reached(s, actions);
    ProcessedFacts(s, actions);
    IncrementalEqualsBatch(s.tables, seeded, ProcessedIn(s, actions), Run(s, actions).steps);
    IncrementalTallies(s.tables, seeded, ProcessedIn(s, actions), Run(s, actions).steps);
    if CountsSucceed(actions) {
      CountsLeadAlways(s, actions);
      NoStrays(Run(s, actions).steps);
    }
  }

  /** Metrics tables that nothing has filled are seeded from no trades. */
  lemma {:induction false} MetricsFromNothing(s: State, actions: seq<Action>)
    requires Init(s) && s.tables == EMPTY_TABLES && CountsSucceed(actions)
    ensures var e, ts := Run(s, actions), ProcessedIn(s, actions);
            var counted, felt := Took(ts, e.steps, CountsTook()), Took(ts, e.steps, EmotionTook());
            && (CountColumns(e.tables.rows) == SeedRows(counted) <==> AllDecided(counted) && ClosedPrintable(counted))
            && (e.tables.emotions == SeedEmotions(felt) <==> FeltDecided(felt) && FeltPrintable(felt))
  {
    var e, ts := Run(s, actions), ProcessedIn(s, actions);
    EmptyIsSeeded();
    MetricsAreBatchOfProcessed(s, actions, []);
    assert [] + Took(ts, e.steps, CountsTook()) == Took(ts, e.steps, CountsTook());
    assert [] + Took(ts, e.steps, EmotionTook()) == Took(ts, e.steps, EmotionTook());
  }

  /**
   And when every closed stored trade is seeded or had its counts statement take effect, once in all,
   and likewise every one with an emotion, whatever else failed, the tables are the batch statements
   over the trades table itself.
   */
  lemma {:induction false} MetricsAreBatchOfTable(s: State, actions: seq<Action>, seeded: seq<Trade>)
    requires Init(s) && SeededFrom(s.tables, seeded)
    requires OnceEach(TableOf(s, actions), seeded, ProcessedIn(s, actions), Run(s, actions).steps)
    requires AllDecided(ProcessedIn(s, actions)) && ClosedPrintable(ProcessedIn(s, actions))
    ensures SeededFrom(Run(s, actions).tables, TableOf(s, actions))
  {
    Reached(s, actions);
    ProcessedFacts(s, actions);
    AnyOrderEqualsBatch(TableOf(s, actions), s.tables, seeded, ProcessedIn(s, actions), Run(s, actions).steps);
  }

  /**
   In every reachable state, also between two statements of a message, and whatever fails, crashes or
   repeats: rows built from empty tables are partitioned into wins and losses, rows on top of bounded
   tables stay bounded, no entry is processed twice, the revenge flags of stored trades stay
   justified, and the trades table stays well formed and only grows.
   */
  lemma {:induction false} AlwaysSafe(s: State, actions: seq<Action>)
    requires Init(s)
    ensures var e := Run(s, actions);
            && (s.tables == EMPTY_TABLES ==> AllPartitioned(e.tables.rows))
            && (AllBounded(s.tables.rows) ==> AllBounded(e.tables.rows))
            && G.Increasing(e.g.processed) && |e.steps| == |e.g.processed|
            && (forall i :: i in e.g.processed ==> i < |e.w.stream|)
            && W.FlagsSound(e.w.db, |s.w.db.order|)
            && W.ValidTable(e.w.db) && W.Extends(s.w.db, e.w.db)
  {
    Reached(s, actions);
    PartitionKept(s.tables, Run(s, actions).steps);
    TableGrows(s, actions);
  }

  lemma {:induction false} StepExtends(s: State, a: Action, start: Tables, seeded: nat)
    requires Inv(s, start, seeded)
    ensures W.Extends(s.w.db, Apply(s, a).w.db)
  {
    if a.Write? { W.StepKeeps(s.w, a.w, seeded); }
  }

  lemma {:induction false} TableGrows(s: State, actions: seq<Action>)
    requires Init(s)
    ensures W.Extends(s.w.db, Run(s, actions).w.db)
  {
    if actions != [] {
      var init, last := actions[..|actions| - 1], actions[|actions| - 1];
      TableGrows(s, init);
      Reached(s, init);
      StepExtends(Run(s, init), last, s.tables, |s.w.db.order|);
    }
  }

  /**
   In every reachable state, from empty or seeded tables, every win rate that the metrics handler
   makes of any range query is in [0, 1].
   */
  lemma {:induction false} WinRatesInEveryRun(s: State, actions: seq<Action>, seeded: seq<Trade>, user: string,
                                              from: int, to: int, w: int, buckets: seq<Bucket>, i: nat)
    requires Init(s) && SeededFrom(s.tables, seeded) && 0 < w && i < |buckets|
    requires var rows := Run(s, actions).tables.rows;
             IsRollUp(buckets, rows, user, InRange(rows, user, from, to), w)
    ensures 0.0 <= MS.PointOf(buckets[i]).winRate <= 1.0
  {
    SeededRows(s.tables.rows, seeded);
    AlwaysSafe(s, actions);
    var rows := Run(s, actions).tables.rows;
    MS.WinRatesAreRatios(buckets, rows, user, InRange(rows, user, from, to), w, i);
  }

  lemma {:induction false} Replayed(s: State, actions: seq<Action>)
    requires Init(s)
    ensures Run(s, actions).tables == RunAll(s.tables, Run(s, actions).steps)
  {
    Reached(s, actions);
  }

  lemma {:induction false} NoneUncounted(steps: seq<Step>, user: string, day: int, winsOnly: bool)
    requires forall i :: 0 <= i < |steps| ==> CountsFirst(steps[i].faults)
    ensures forall i :: 0 <= i < |steps| ==> !Conservation.Uncounted(user, day, winsOnly)(steps[i])
  {
  }

  /**
   In every reachable state, also between the counts and the emotion statement of a message, and on top
   of seeded or empty tables: a day's emotion totals are within its hourly totals exactly when no more
   events missed the hourly rows alone than seeded trades and events missed the emotion rows alone. As
   long as no counts statement fails none misses the hourly rows alone, and the totals are equal exactly
   when every seeded trade and every counted event of the day is in the emotion rows: a trade without
   emotion or, if seeded, without outcome, is not, nor is an event whose emotion statement failed or is
   still to come.
   */
  lemma {:induction false} ConservedInEveryRun(s: State, actions: seq<Action>, seeded: seq<Trade>,
                                               user: string, day: int, winsOnly: bool)
    requires Init(s) && SeededFrom(s.tables, seeded)
    ensures var e := Run(s, actions);
            var felt := Conservation.MoodSum(e.tables.emotions, user, day, winsOnly);
            var all := Conservation.DaySum(e.tables.rows, user, day, Conservation.Counting(winsOnly));
            && (felt <= all <==>
                  CountWhere(e.steps, Conservation.Uncounted(user, day, winsOnly))
                  <= CountWhere(seeded, Conservation.SeedUnfelt(user, day, winsOnly))
                     + CountWhere(e.steps, Conservation.Unfelt(user, day, winsOnly)))
            && (CountsSucceed(actions) ==>
                  felt <= all && (felt == all <==> Conservation.AllFelt(seeded, e.steps, user, day, winsOnly)))
  {
    var steps := Run(s, actions).steps;
    Replayed(s, actions);
    if CountsSucceed(actions) {
      CountsLeadAlways(s, actions);
      NoneUncounted(steps, user, day, winsOnly);
    }
    Conservation.EmotionsWithinTrades(s.tables, seeded, steps, user, day, winsOnly);
  }

  // ---- the columns that are overwritten ----

  /** An average of ratings is in [1, 5] and a tilt index in [0, 1], in units of 1e-4. */
  ghost predicate ColumnsInRange(rows: map<RowKey, Row>) {
    forall k :: k in rows ==>
      && (rows[k].plan.Some? ==> 10_000 <= rows[k].plan.value <= 50_000)
      && (rows[k].tilt.Some? ==> 0 <= rows[k].tilt.value <= 10_000)
  }

  lemma {:induction false} ListingInRange(db: W.Table)
    requires W.ValidTable(db) && W.RatingsInRange(db)
    ensures RatingsInRange(W.Listing(db))
  {
    forall t | t in W.Listing(db) && t.planAdherence.Some? ensures 1 <= t.planAdherence.value <= 5 {
      var j :| 0 <= j < |db.order| && W.Listing(db)[j] == t;
      assert db.order[j] in db.order;
    }
  }

  lemma {:induction false} ColumnsStep(s: State, a: Action)
    requires ColumnsInRange(s.tables.rows) && W.RatingsInRange(s.w.db)
    ensures ColumnsInRange(Apply(s, a).tables.rows)
  {
    match a
    case Write(_) =>
    case Log(_) =>
    case PutCounts(_) =>
    case PutPlan(read, _) =>
      if AtStage(s, 1) && PlanSeen(s.w.db, Current(s).m, read) {
        ListingInRange(s.w.db);
        ReadsInRange(W.Listing(s.w.db), Current(s).m, read, None);
      }
    case PutTilt(read, _) =>
      if AtStage(s, 2) && TiltSeen(s.w.db, Current(s).m, read) {
        ListingInRange(s.w.db);
        ReadsInRange(W.Listing(s.w.db), Current(s).m, None, read);
      }
    case PutEmotion(_) =>
  }

  /**
   In every reachable state every stored plan average lies in [1, 5] and every stored tilt index in
   [0, 1], because they were read from the trades table as it was, where ratings are from 1 to 5.
   */
  lemma {:induction false} ColumnsStayInRange(s: State, actions: seq<Action>)
    requires ColumnsInRange(s.tables.rows) && W.RatingsInRange(s.w.db)
    ensures ColumnsInRange(Run(s, actions).tables.rows) && W.RatingsInRange(Run(s, actions).w.db)
  {
    if actions != [] {
      var init, last := actions[..|actions| - 1], actions[|actions| - 1];
      ColumnsStayInRange(s, init);
      ColumnsStep(Run(s, init), last);
      if last.Write? { W.RatingsStep(Run(s, init).w, last.w); }
    }
  }
}
