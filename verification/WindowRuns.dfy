/**
 The overtrading window inside the whole pipeline: the goroutines of requests add to the sorted sets
 at any time, and at the end of processMessage the worker issues the commands of its check and, above ten
 trades, inserts an overtrading event.
 */
module WindowRuns {
  import opened Prelude
  import opened Timeline
  import opened EventCodec
  import opened Sums
  import opened MetricsTable
  import opened SlidingWindow
  import opened MetricsStore
  import P = Pipeline
  import W = WritePath
  import G = ConsumerGroup

  /**
   `logs` is keyed by user. `sent` counts the commands of the present check, and 4 is past the insert;
   `count` is what the last ZCOUNT answered.
   */
  datatype State = State(p: P.State, logs: Logs, sent: nat, count: nat, events: seq<OvertradingEvent>)

  datatype Action =
    | Other(a: P.Action)
    | Send                       // the next command of the worker's check
    | Alert(ok: bool, now: int)  // the test of the count and the INSERT, executed or not

  /** The worker is past its statements for a closed message. */
  predicate Checking(s: State) { P.AtStage(s.p, 4) }

  function InHand(s: State): Message
    requires s.p.steps != []
  {
    P.Current(s.p).m
  }

  function CutOf(m: Message): int { UnixMilli(m.entryAt) - WINDOW_MS }

  /** ZADD NX, ZREMRANGEBYSCORE, ZCOUNT. */
  function CommandOf(m: Message, n: nat): Command {
    if n == 0 then Add(m.tradeId, UnixMilli(m.entryAt)) else if n == 1 then Prune(CutOf(m)) else CountFrom(CutOf(m))
  }

  function LogsAfter(s: State, a: P.Action): Logs {
    if a.Write? && a.w.RunTask? && a.w.task.AddToWindow? && a.w.task in s.p.w.tasks then
      Logged(s.logs, a.w.task.user, Add(a.w.task.tradeId, a.w.task.score), true)
    else s.logs
  }

  ghost function Apply(s: State, a: Action): State {
    match a
    case Other(b) =>
      s.(p := P.Apply(s.p, b), logs := LogsAfter(s, b),
         sent := if b == P.Log(G.Process) && P.CanHandle(s.p) then 0 else s.sent)
    case Send =>
      if Checking(s) && s.sent < 3 then
        var user, c := InHand(s).userId, CommandOf(InHand(s), s.sent);
        s.(logs := Logged(s.logs, user, c, true), sent := s.sent + 1,
           count := if c.CountFrom? then CountOf(Exec(LogIn(s.logs, user)), c.cut) else s.count)
      else s
    case Alert(ok, now) =>
      if Checking(s) && s.sent == 3 then
        s.(sent := 4, events := s.events + if s.count > MAX_TRADES_PER_WINDOW && ok then [EventOf(s, now)] else [])
      else s
  }

  function EventOf(s: State, now: int): OvertradingEvent
    requires s.p.steps != []
  {
    OvertradingEvent(InHand(s).userId, CutOf(InHand(s)) * MILLI, s.count, Stored(now))
  }

  ghost function Run(s: State, actions: seq<Action>): State {
    if actions == [] then s else Apply(Run(s, actions[..|actions| - 1]), actions[|actions| - 1])
  }

  ghost predicate Init(s: State) { P.Init(s.p) && s.logs == map[] && s.sent == 0 }

  // ---- what every step keeps ----

  /** A command adds a stored trade with one of the trade's two scores. */
  predicate Scored(db: W.Table, c: Command) {
    c.Add? ==>
      && c.id in db.rows
      && (c.score == UnixMilli(db.rows[c.id].entryAt) || c.score == UnixMilli(Reparsed(db.rows[c.id].entryAt)))
  }

  /** From position p on the log is this prune and adds. */
  ghost predicate PruneAt(log: seq<Command>, p: nat, cut: int) {
    p < |log| && log[p] == Prune(cut) && AddsAfter(log, p)
  }

  ghost predicate EndsPruned(log: seq<Command>, cut: int) {
    exists p :: 0 <= p < |log| && PruneAt(log, p, cut)
  }

  /** Every count follows its check's prune, with nothing but adds in between. */
  ghost predicate CountsPruned(log: seq<Command>) {
    forall n :: 0 <= n < |log| && log[n].CountFrom? ==> EndsPruned(log[..n], log[n].cut)
  }

  ghost predicate LogOk(db: W.Table, log: seq<Command>) {
    (forall i :: 0 <= i < |log| ==> Scored(db, log[i])) && CountsPruned(log)
  }

  ghost predicate LogsOk(s: State) {
    forall u :: u in s.logs ==> LogOk(s.p.w.db, s.logs[u])
  }

  /** Position n of the log is a count at the cut, and this was its answer. */
  predicate CountAt(log: seq<Command>, n: nat, cut: int, count: nat) {
    n < |log| && log[n] == CountFrom(cut) && count == CountOf(Exec(log[..n]), cut)
  }

  ghost predicate CountAnswered(log: seq<Command>, cut: int, count: nat) {
    exists n: nat :: CountAt(log, n, cut, count)
  }

  /**
   A check that has sent its prune finds it at the end of the log, followed by adds; one that has sent
   its count knows the answer.
   */
  ghost predicate CheckOk(s: State) {
    && (s.p.g.handled && s.p.stage < 4 ==> s.sent == 0)
    && (Checking(s) && s.sent == 2 ==> EndsPruned(LogIn(s.logs, InHand(s).userId), CutOf(InHand(s))))
    && (Checking(s) && s.sent == 3 ==> CountAnswered(LogIn(s.logs, InHand(s).userId), CutOf(InHand(s)), s.count))
  }

  /** An event records the answer of some count of the user's window, above ten. */
  ghost predicate EventOk(logs: Logs, e: OvertradingEvent) {
    e.tradeCount > MAX_TRADES_PER_WINDOW &&
    exists cut :: e.windowStart == cut * MILLI && CountAnswered(LogIn(logs, e.user), cut, e.tradeCount)
  }

  /** The events inserted since the first `before` ones. */
  ghost predicate EventsOk(s: State, before: nat) {
    forall i :: before <= i < |s.events| ==> EventOk(s.logs, s.events[i])
  }

  ghost predicate Inv(s: State, start: Tables, seeded: nat) {
    P.Inv(s.p, start, seeded) && LogsOk(s) && CheckOk(s)
  }

  /** Logs only grow. */
  ghost predicate LogsGrow(logs: Logs, later: Logs) {
    forall u :: LogIn(logs, u) <= LogIn(later, u)
  }

  lemma {:induction false} AnswerStays(log: seq<Command>, later: seq<Command>, cut: int, count: nat)
    requires CountAnswered(log, cut, count) && log <= later
    ensures CountAnswered(later, cut, count)
  {
    var n: nat :| CountAt(log, n, cut, count);
    assert later[..n] == log[..n];
    assert CountAt(later, n, cut, count);
  }

  lemma {:induction false} EventStays(logs: Logs, later: Logs, e: OvertradingEvent)
    requires EventOk(logs, e) && LogsGrow(logs, later)
    ensures EventOk(later, e)
  {
    var cut :| e.windowStart == cut * MILLI && CountAnswered(LogIn(logs, e.user), cut, e.tradeCount);
    AnswerStays(LogIn(logs, e.user), LogIn(later, e.user), cut, e.tradeCount);
  }

  lemma {:induction false} StepGrowsLogs(s: State, a: Action)
    ensures LogsGrow(s.logs, Apply(s, a).logs) && s.events <= Apply(s, a).events
  {
  }

  lemma {:induction false} LogGrows(db: W.Table, log: seq<Command>, c: Command)
    requires LogOk(db, log) && Scored(db, c)
    requires c.CountFrom? ==> EndsPruned(log, c.cut)
    ensures LogOk(db, log + [c])
  {
    var more := log + [c];
    forall n | 0 <= n < |more| && more[n].CountFrom? ensures EndsPruned(more[..n], more[n].cut) {
      if n < |log| { assert more[..n] == log[..n]; } else { assert more[..n] == log; }
    }
  }

  lemma {:induction false} PruneStaysLast(log: seq<Command>, c: Command, cut: int)
    requires EndsPruned(log, cut) && c.Add?
    ensures EndsPruned(log + [c], cut)
  {
    var p :| 0 <= p < |log| && PruneAt(log, p, cut);
    assert PruneAt(log + [c], p, cut);
  }

  lemma {:induction false} ScoredPersists(db: W.Table, later: W.Table, log: seq<Command>)
    requires LogOk(db, log) && W.Extends(db, later)
    ensures LogOk(later, log)
  {
  }

  /** The message in hand is the event of a stored trade, with the entry time of its text. */
  lemma {:induction false} InHandStored(s: State, start: Tables, seeded: nat)
    requires P.Inv(s.p, start, seeded) && Checking(s)
    ensures var m := InHand(s);
            && m.tradeId in s.p.w.db.rows
            && m.entryAt == Reparsed(s.p.w.db.rows[m.tradeId].entryAt)
  {
    var last := s.p.g.processed[|s.p.steps| - 1];
    assert InHand(s) == Decode(s.p.w.stream[last]);
    P.SourceFacts(s.p.w.db, s.p.w.stream[last]);
  }

  lemma {:induction false} SendKeeps(s: State, start: Tables, seeded: nat)
    requires Inv(s, start, seeded)
    ensures Inv(Apply(s, Send), start, seeded)
  {
    if Checking(s) && s.sent < 3 {
      InHandStored(s, start, seeded);
      LogGrows(s.p.w.db, LogIn(s.logs, InHand(s).userId), CommandOf(InHand(s), s.sent));
      SendChecks(s);
    }
  }

  lemma {:induction false} SendChecks(s: State)
    requires CheckOk(s) && Checking(s) && s.sent < 3
    ensures CheckOk(Apply(s, Send))
  {
    var m := InHand(s);
    var log, c := LogIn(s.logs, m.userId), CommandOf(m, s.sent);
    if s.sent == 1 {
      assert PruneAt(log + [c], |log|, CutOf(m));
    } else if s.sent == 2 {
      assert (log + [c])[..|log|] == log;
      assert CountAt(log + [c], |log|, CutOf(m), CountOf(Exec(log), CutOf(m)));
    }
  }

  /** What a goroutine adds is a stored trade with its entry time. */
  lemma {:induction false} LogsAfterOk(s: State, a: P.Action, start: Tables, seeded: nat)
    requires Inv(s, start, seeded)
    ensures forall u :: u in LogsAfter(s, a) ==> LogOk(s.p.w.db, LogsAfter(s, a)[u])
  {
    if a.Write? && a.w.RunTask? && a.w.task.AddToWindow? && a.w.task in s.p.w.tasks {
      var task := a.w.task;
      assert W.TaskOk(s.p.w.db, task);
      LogGrows(s.p.w.db, LogIn(s.logs, task.user), Add(task.tradeId, task.score));
    }
  }

  lemma {:induction false} LogsKept(s: State, a: P.Action, start: Tables, seeded: nat)
    requires Inv(s, start, seeded)
    ensures LogsOk(s.(p := P.Apply(s.p, a), logs := LogsAfter(s, a)))
  {
    var logs, later := LogsAfter(s, a), P.Apply(s.p, a).w.db;
    LogsAfterOk(s, a, start, seeded);
    P.StepExtends(s.p, a, start, seeded);
    forall u | u in logs ensures LogOk(later, logs[u]) {
      ScoredPersists(s.p.w.db, later, logs[u]);
    }
  }

  /** Only Process takes up a new message, and it starts without a command sent. */
  lemma {:induction false} SameMessage(s: State, a: P.Action)
    requires s.p.g.handled && s.p.stage < 4 ==> s.sent == 0
    ensures var s' := Apply(s, Other(a));
            && (s'.p.g.handled && s'.p.stage < 4 ==> s'.sent == 0)
            && s'.count == s.count
            && (Checking(s') && s'.sent != 0 ==> Checking(s) && s.sent == s'.sent && InHand(s') == InHand(s))
  {
    if a.Log? && a.l != G.Process { P.OtherLog(s.p, a.l); }
  }

  lemma {:induction false} CheckKept(s: State, a: P.Action, start: Tables, seeded: nat)
    requires Inv(s, start, seeded)
    ensures CheckOk(Apply(s, Other(a)))
  {
    var s' := Apply(s, Other(a));
    SameMessage(s, a);
    if Checking(s') && s'.sent == 3 {
      StepGrowsLogs(s, Other(a));
      var u := InHand(s).userId;
      AnswerStays(LogIn(s.logs, u), LogIn(s'.logs, u), CutOf(InHand(s)), s.count);
    }
    if Checking(s') && s'.sent == 2 {
      var u := InHand(s).userId;
      if LogIn(s'.logs, u) != LogIn(s.logs, u) {
        PruneStaysLast(LogIn(s.logs, u), Add(a.w.task.tradeId, a.w.task.score), CutOf(InHand(s)));
      }
    }
  }

  lemma {:induction false} OtherKeeps(s: State, a: P.Action, start: Tables, seeded: nat)
    requires Inv(s, start, seeded)
    ensures Inv(Apply(s, Other(a)), start, seeded)
  {
    P.StepKeeps(s.p, a, start, seeded);
    LogsKept(s, a, start, seeded);
    CheckKept(s, a, start, seeded);
  }

  lemma {:induction false} StepKeeps(s: State, a: Action, start: Tables, seeded: nat)
    requires Inv(s, start, seeded)
    ensures Inv(Apply(s, a), start, seeded)
  {
    match a
    case Other(b) => OtherKeeps(s, b, start, seeded);
    case Send => SendKeeps(s, start, seeded);
    case Alert(_, _) =>
  }

  lemma {:induction false} AlertOk(s: State, now: int)
    requires CheckOk(s) && Checking(s) && s.sent == 3 && s.count > MAX_TRADES_PER_WINDOW
    ensures EventOk(s.logs, EventOf(s, now))
  {
    assert CountAnswered(LogIn(s.logs, EventOf(s, now).user), CutOf(InHand(s)), s.count);
  }

  lemma {:induction false} EventsStep(s: State, a: Action, start: Tables, seeded: nat, before: nat)
    requires Inv(s, start, seeded) && EventsOk(s, before)
    ensures EventsOk(Apply(s, a), before)
  {
    var s' := Apply(s, a);
    StepGrowsLogs(s, a);
    forall i | before <= i < |s'.events| ensures EventOk(s'.logs, s'.events[i]) {
      if i < |s.events| {
        EventStays(s.logs, s'.logs, s.events[i]);
      } else {
        AlertOk(s, a.now);
      }
    }
  }

  lemma {:induction false} Reached(s: State, actions: seq<Action>)
    requires Init(s)
    ensures Inv(Run(s, actions), s.p.tables, |s.p.w.db.order|) && EventsOk(Run(s, actions), |s.events|)
  {
    if actions == [] {
      P.Reached(s.p, []);
    } else {
      var m := Run(s, actions[..|actions| - 1]);
      Reached(s, actions[..|actions| - 1]);
      StepKeeps(m, actions[|actions| - 1], s.p.tables, |s.p.w.db.order|);
      EventsStep(m, actions[|actions| - 1], s.p.tables, |s.p.w.db.order|, |s.events|);
    }
  }

  // ---- every count in every run ----

  function EntryOf(db: W.Table): string -> int {
    (id: string) => if id in db.rows then db.rows[id].entryAt else 0
  }

  /**
   The count at position n of a user's log, whose prune is at p: whatever is counted is a stored
   trade that entered no earlier than the cut; a stored trade that is not newer than the cut is
   counted exactly when its first add since the prune is at the cut; if no earlier check ran ahead,
   every trade added so far whose whole-second entry time is newer is counted; and when all trades added
   so far entered at whole seconds, the count is exact.
   */
  ghost predicate CountedRight(log: seq<Command>, db: W.Table, p: nat, n: nat, cut: int) {
    && OneCheck(log, p, n, cut)
    && var counted, at := Counted(Exec(log[..n]), cut), EntryOf(db);
       && (forall id :: id in counted ==> id in AddedTo(log[..n]) && id in db.rows)
       && (forall id :: id in counted && Printable(at(id)) ==> cut <= UnixMilli(at(id)))
       && (forall id :: Printable(at(id)) && !InWindow(UnixMilli(at(id)), cut) ==>
             (id in counted <==> FirstAdd(log, p, n, id) == Some(cut)))
       && (CutsUpTo(log[..n], cut) ==>
             forall id :: (id in AddedTo(log[..n]) && Printable(at(id))
                           && InWindow(UnixSeconds(at(id)) * 1_000, cut)) ==> id in counted)
       && (WholeSeconds(log[..n], at) ==> CountedExactly(log, at, p, n, cut))
  }

  /**
   The counted trades are the added ones newer than the cut that no check which ran ahead has pruned for
   good, and the ones added at the cut since the check's own prune.
   */
  ghost predicate CountedExactly(log: seq<Command>, at: string -> int, p: nat, n: nat, cut: int)
    requires n <= |log|
  {
    var counted, distinct, late := Counted(Exec(log[..n]), cut), Distinct(log[..n], at, cut), AtCut(log, p, n, cut);
    && distinct !! late && late <= counted <= distinct + late
    && (|counted| == |distinct| + |late|
        <==> forall id :: id in distinct ==> Survives(log[..n], id, WorkerScore(at, id)))
    && (CutsUpTo(log[..n], cut) ==> counted == distinct + late)
  }

  lemma {:induction false} LogScored(db: W.Table, log: seq<Command>)
    requires LogOk(db, log)
    ensures WellScored(log, EntryOf(db))
  {
    forall i | 0 <= i < |log| && log[i].Add?
      ensures log[i].score in {HandlerScore(EntryOf(db), log[i].id), WorkerScore(EntryOf(db), log[i].id)}
    {
      assert Scored(db, log[i]);
    }
  }

  lemma {:induction false} CountIsRight(db: W.Table, log: seq<Command>, p: nat, n: nat, cut: int)
    requires LogOk(db, log) && OneCheck(log, p, n, cut)
    ensures CountedRight(log, db, p, n, cut)
  {
    var at, before := EntryOf(db), log[..n];
    LogScored(db, log);
    WindowRefinement(log, at, p, n, cut);
    forall id | id in Counted(Exec(before), cut) ensures id in db.rows {
      assert id in AddedTo(before);
      var i :| 0 <= i < n && before[i].Add? && before[i].id == id;
      assert Scored(db, log[i]);
    }
    forall id | Printable(at(id)) ensures WorkerScore(at, id) == UnixSeconds(at(id)) * 1_000 {
      ScoresClose(at, id);
    }
    if WholeSeconds(before, at) { ExactCount(log, at, p, n, cut); }
  }

  lemma {:induction false} LogCounts(db: W.Table, log: seq<Command>, n: nat, cut: int) returns (p: nat)
    requires LogOk(db, log) && n < |log| && log[n] == CountFrom(cut)
    ensures CountedRight(log, db, p, n, cut)
  {
    assert EndsPruned(log[..n], cut);
    p :| 0 <= p < n && PruneAt(log[..n], p, cut);
    forall i | p < i < n ensures log[i].Add? { assert log[..n][i] == log[i]; }
    CountIsRight(db, log, p, n, cut);
  }

  /** In every run of the pipeline, every count of every user's window is right. */
  lemma {:induction false} EveryCount(s: State, actions: seq<Action>, user: string, n: nat, cut: int) returns (p: nat)
    requires Init(s)
    requires var log := LogIn(Run(s, actions).logs, user); n < |log| && log[n] == CountFrom(cut)
    ensures CountedRight(LogIn(Run(s, actions).logs, user), Run(s, actions).p.w.db, p, n, cut)
  {
    Reached(s, actions);
    assert LogOk(Run(s, actions).p.w.db, LogIn(Run(s, actions).logs, user));
    p := LogCounts(Run(s, actions).p.w.db, LogIn(Run(s, actions).logs, user), n, cut);
  }

  /**
   In every run every overtrading event that the worker has inserted rests on a right count: its number
   is above ten and is the size of a set of stored trades none of which entered before the event's
   window start.
   */
  lemma {:induction false} EveryEvent(s: State, actions: seq<Action>, i: nat) returns (p: nat, n: nat, cut: int)
    requires Init(s) && |s.events| <= i < |Run(s, actions).events|
    ensures var e := Run(s, actions);
            var log, event := LogIn(e.logs, e.events[i].user), e.events[i];
            && CountedRight(log, e.p.w.db, p, n, cut)
            && event.windowStart == cut * MILLI
            && 11 <= event.tradeCount == |Counted(Exec(log[..n]), cut)|
  {
    Reached(s, actions);
    var e := Run(s, actions);
    var log, event := LogIn(e.logs, e.events[i].user), e.events[i];
    assert EventOk(e.logs, event);
    cut :| event.windowStart == cut * MILLI && CountAnswered(log, cut, event.tradeCount);
    n :| CountAt(log, n, cut, event.tradeCount);
    assert LogOk(e.p.w.db, log);
    p := LogCounts(e.p.w.db, log, n, cut);
  }

  // ---- and no event is missing ----

  /** The three commands of a check, in order, on the set of the message's user. */
  lemma {:induction false} SendIssues(s: State)
    requires Checking(s) && s.sent < 3
    ensures var s', m := Apply(s, Send), InHand(s);
            var nowMs := m.entryAt / 1_000_000;
            && Checking(s') && InHand(s') == m && s'.sent == s.sent + 1 && s'.p == s.p && s'.events == s.events
            && (forall u :: u != m.userId ==> LogIn(s'.logs, u) == LogIn(s.logs, u))
            && LogIn(s'.logs, m.userId)
               == LogIn(s.logs, m.userId) + [if s.sent == 0 then Add(m.tradeId, nowMs)
                                             else if s.sent == 1 then Prune(nowMs - 1_800_000)
                                             else CountFrom(nowMs - 1_800_000)]
  {
  }

  /** A goroutine that adds a trade to a window issues its ZADD on the set of the trade's user. */
  lemma {:induction false} GoroutineAdds(s: State, user: string, score: int, id: string)
    requires W.AddToWindow(user, score, id) in s.p.w.tasks
    ensures var logs := Apply(s, Other(P.Write(W.RunTask(W.AddToWindow(user, score, id))))).logs;
            && LogIn(logs, user) == LogIn(s.logs, user) + [Add(id, score)]
            && forall u :: u != user ==> LogIn(logs, u) == LogIn(s.logs, u)
  {
  }

  ghost predicate OnlyOthers(actions: seq<Action>) {
    forall i :: 0 <= i < |actions| ==> actions[i].Other?
  }

  lemma {:induction false} RunMore(s: State, actions: seq<Action>, a: Action)
    ensures Run(s, actions + [a]) == Apply(Run(s, actions), a)
  {
    assert (actions + [a])[..|actions|] == actions;
  }

  /** What the worker knows between its count and its test stays as it is. */
  /** e comes after s by steps of others, and the check under way in e, if any, is that of s. */
  ghost predicate SameCheck(s: State, e: State) {
    && e.events == s.events && (e.p.g.handled && e.p.stage < 4 ==> e.sent == 0)
    && (Checking(e) && e.sent != 0 ==>
          Checking(s) && s.sent == e.sent && s.count == e.count && InHand(e) == InHand(s))
  }

  lemma {:induction false} SameCheckStep(s: State, e: State, a: P.Action)
    requires SameCheck(s, e)
    ensures SameCheck(s, Apply(e, Other(a)))
  {
    SameMessage(e, a);
  }

  /** What the worker knows between its count and its test stays as it is. */
  lemma {:induction false} CountKept(s: State, between: seq<Action>)
    requires OnlyOthers(between) && (s.p.g.handled && s.p.stage < 4 ==> s.sent == 0)
    ensures SameCheck(s, Run(s, between))
  {
    if between != [] {
      var l := |between| - 1;
      assert forall i :: 0 <= i < l ==> between[..l][i] == between[i];
      CountKept(s, between[..l]);
      SameCheckStep(s, Run(s, between[..l]), between[l].a);
    }
  }

  lemma {:induction false} SendCounts(s: State)
    requires Checking(s) && s.sent == 2
    ensures var m := InHand(s);
            var cut, z := m.entryAt / 1_000_000 - 1_800_000, Exec(LogIn(s.logs, m.userId));
            Apply(s, Send).count == |set id | id in z && cut <= z[id]|
  {
    var z, cut := Exec(LogIn(s.logs, InHand(s).userId)), InHand(s).entryAt / 1_000_000 - 1_800_000;
    assert Counted(z, cut) == set id | id in z && cut <= z[id];
  }

  lemma {:induction false} AlertAppends(s: State, ok: bool, now: int)
    requires Checking(s) && s.sent == 3
    ensures var m := InHand(s);
            Apply(s, Alert(ok, now)).events
            == s.events + (if ok && 11 <= s.count then
                             [OvertradingEvent(m.userId, (m.entryAt / 1_000_000 - 1_800_000) * 1_000_000, s.count,
                                               now - now % 1_000)] else [])
  {
  }

  /**
   Every check alerts as it should. From its count to its test, whatever else happens in between, the
   worker appends exactly one event when the INSERT succeeds and at least eleven members of the user's set
   are at or above the cut, half an hour before the message's entry; otherwise it appends none.
   */
  lemma {:induction false} CheckAlerts(s: State, between: seq<Action>, ok: bool, now: int)
    requires Checking(s) && s.sent == 2 && OnlyOthers(between)
    requires var m := Run(Apply(s, Send), between); Checking(m) && m.sent == 3
    ensures var m := InHand(s);
            var cut, z := m.entryAt / 1_000_000 - 1_800_000, Exec(LogIn(s.logs, m.userId));
            var count := |set id | id in z && cut <= z[id]|;
            Apply(Run(Apply(s, Send), between), Alert(ok, now)).events
            == s.events + (if ok && 11 <= count then
                             [OvertradingEvent(m.userId, cut * 1_000_000, count, now - now % 1_000)] else [])
  {
    SendIssues(s);
    SendCounts(s);
    CountKept(Apply(s, Send), between);
    AlertAppends(Run(Apply(s, Send), between), ok, now);
  }

  /** In a check of a reachable state, whatever members the prune left newer than the cut are counted. */
  lemma {:induction false} RecentCounted(s: State, actions: seq<Action>, recent: set<string>)
    requires Init(s)
    requires var e := Run(s, actions);
             && Checking(e) && e.sent == 2
             && var log, cut := LogIn(e.logs, InHand(e).userId), InHand(e).entryAt / 1_000_000 - 1_800_000;
                && (forall i :: 0 <= i < |log| && log[i].Prune? ==> log[i].cut <= cut)
                && forall id :: id in recent ==>
                     && id in e.p.w.db.rows && Printable(e.p.w.db.rows[id].entryAt)
                     && cut < e.p.w.db.rows[id].entryAt / 1_000_000_000 * 1_000
                     && exists i :: 0 <= i < |log| && log[i].Add? && log[i].id == id
    ensures var e := Run(s, actions);
            var z, cut := Exec(LogIn(e.logs, InHand(e).userId)), InHand(e).entryAt / 1_000_000 - 1_800_000;
            recent <= set id | id in z && cut <= z[id]
  {
    var e := Run(s, actions);
    var log, cut, at := LogIn(e.logs, InHand(e).userId), CutOf(InHand(e)), EntryOf(e.p.w.db);
    Reached(s, actions);
    assert LogOk(e.p.w.db, log) && log != [];
    LogScored(e.p.w.db, log);
    assert CutsUpTo(log, cut);
    forall id | id in recent ensures id in Exec(log) && cut <= Exec(log)[id] {
      var i :| 0 <= i < |log| && log[i].Add? && log[i].id == id;
      assert id in AddedTo(log);
      ScoresClose(at, id);
      NewTradesStay(log, at, cut, id);
    }
  }

  /**
   Eleven trades of a user that entered at whole seconds after the cut, added to the user's set before the
   check counts, raise an event when no check has run ahead and the INSERT succeeds.
   */
  lemma {:induction false} ElevenTradesAlert(s: State, actions: seq<Action>, recent: set<string>,
                                             between: seq<Action>, now: int)
    requires Init(s) && 11 <= |recent| && OnlyOthers(between)
    requires var e := Run(s, actions);
             && Checking(e) && e.sent == 2
             && var log, cut := LogIn(e.logs, InHand(e).userId), InHand(e).entryAt / 1_000_000 - 1_800_000;
                && (forall i :: 0 <= i < |log| && log[i].Prune? ==> log[i].cut <= cut)
                && forall id :: id in recent ==>
                     && id in e.p.w.db.rows && Printable(e.p.w.db.rows[id].entryAt)
                     && cut < e.p.w.db.rows[id].entryAt / 1_000_000_000 * 1_000
                     && exists i :: 0 <= i < |log| && log[i].Add? && log[i].id == id
    requires var m := Run(Apply(Run(s, actions), Send), between); Checking(m) && m.sent == 3
    ensures var e := Run(s, actions);
            var later := Apply(Run(Apply(e, Send), between), Alert(true, now)).events;
            && |later| == |e.events| + 1 && later[..|e.events|] == e.events
            && var event := later[|e.events|];
               && event.user == InHand(e).userId && |recent| <= event.tradeCount
               && event.windowStart == (InHand(e).entryAt / 1_000_000 - 1_800_000) * 1_000_000
  {
    var e := Run(s, actions);
    var z, cut := Exec(LogIn(e.logs, InHand(e).userId)), InHand(e).entryAt / 1_000_000 - 1_800_000;
    RecentCounted(s, actions, recent);
    var counted := set id | id in z && cut <= z[id];
    if recent != counted { SubsetSmaller(recent, counted); }
    CheckAlerts(e, between, true, now);
  }
}
