/**
 From requests to metrics. When nothing is lost or fails, each stored trade is processed as often as a
 request was answered with it, so the metrics tables are the batch statements over the trades table when
 each new trade was answered once. What must not happen is said of the actions: no publishing goroutine is
 dropped, no reply is lost, the worker does not crash, and no counts or emotion statement fails.
 */
module EndToEnd {
  import opened Prelude
  import opened Timeline
  import opened Domain
  import opened EventCodec
  import opened Query
  import opened MetricsTable
  import opened Batch
  import opened Incremental
  import opened Pipeline
  import W = WritePath
  import G = ConsumerGroup

  predicate Undisturbed(a: Action) {
    match a
    case Write(w) => !(w.DropTask? && w.task.Publish?)
    case Log(l) => l != G.Crash && l != G.Read(true)
    case PutCounts(ok) => ok
    case PutEmotion(ok) => ok
    case _ => true
  }

  ghost predicate AllUndisturbed(actions: seq<Action>) {
    forall i :: 0 <= i < |actions| ==> Undisturbed(actions[i])
  }

  /** Nothing is left to publish, to deliver or to process. */
  ghost predicate Drained(s: State) {
    && (forall v :: W.Publish(v) !in s.w.tasks)
    && s.g.batch == [] && s.g.delivered == |s.w.stream|
  }

  // ---- a trade is published once for each answer ----

  /** The requests that were answered with t. */
  function AnsweredWith(clients: map<nat, W.Client>, t: Trade): set<nat> {
    set c | c in clients && clients[c] == W.Done(t)
  }

  function Answers(s: W.State, t: Trade): nat { |AnsweredWith(s.clients, t)| }

  /** Row j's event is in the stream or waiting to be published, once for each answer. */
  ghost predicate SentAt(s: W.State, j: nat) {
    && j < |s.db.order| && s.db.order[j] in s.db.rows
    && var t := s.db.rows[s.db.order[j]];
       multiset(s.stream)[Encode(t)] + s.tasks[W.Publish(Encode(t))] == Answers(s, t)
  }

  ghost predicate SentPerAnswer(s: W.State) {
    forall j: nat :: j < |s.db.order| ==> SentAt(s, j)
  }

  /** One client has moved on. */
  lemma {:induction false} AnswersMove(clients: map<nat, W.Client>, c: nat, client: W.Client, t: Trade)
    requires c in clients ==> !clients[c].Done?
    ensures |AnsweredWith(clients[c := client], t)|
            == |AnsweredWith(clients, t)| + if client == W.Done(t) then 1 else 0
  {
    var before, after := AnsweredWith(clients, t), AnsweredWith(clients[c := client], t);
    assert c !in before && after == if client == W.Done(t) then before + {c} else before;
  }

  /** Nothing is published, stored or answered. */
  ghost predicate Quiet(s: W.State, later: W.State) {
    && later.db == s.db && later.stream == s.stream
    && (forall v :: later.tasks[W.Publish(v)] == s.tasks[W.Publish(v)])
    && (forall t :: Answers(later, t) == Answers(s, t))
  }

  lemma {:induction false} SameSent(s: W.State, later: W.State)
    requires SentPerAnswer(s) && Quiet(s, later)
    ensures SentPerAnswer(later)
  {
    forall j: nat | j < |later.db.order| ensures SentAt(later, j) {
      assert SentAt(s, j);
    }
  }

  lemma {:induction false} PublishSent(s: W.State, v: Values)
    requires SentPerAnswer(s) && W.Publish(v) in s.tasks
    ensures SentPerAnswer(W.Apply(s, W.RunTask(W.Publish(v))))
  {
    var later := W.Apply(s, W.RunTask(W.Publish(v)));
    assert later.stream == s.stream + [v] && multiset(later.stream) == multiset(s.stream) + multiset{v};
    forall j: nat | j < |later.db.order| ensures SentAt(later, j) {
      assert SentAt(s, j);
    }
  }

  /** Of a trade that is not stored there is no event and no answer. */
  lemma {:induction false} NotSent(s: W.State, seeded: nat, t: Trade)
    requires W.Inv(s, seeded) && t.tradeId !in s.db.rows
    ensures multiset(s.stream)[Encode(t)] == 0 && s.tasks[W.Publish(Encode(t))] == 0 && Answers(s, t) == 0
  {
    forall v | W.EventStored(s.db, v) ensures v != Encode(t) {
      var id :| W.IsEventOf(s.db, v, id);
      if v == Encode(t) { EncodeInjective(s.db.rows[id], t); }
    }
    assert Encode(t) !in s.stream;
    forall v | W.Publish(v) in s.tasks ensures v != Encode(t) {
      assert W.TaskOk(s.db, W.Publish(v));
    }
    forall c | c in s.clients ensures s.clients[c] != W.Done(t) {
      assert W.ClientOk(s.db, s.clients[c]);
    }
    assert AnsweredWith(s.clients, t) == {};
  }

  lemma {:induction false} SpawnedOnce(t: Trade, e: Values)
    ensures W.Spawned(t)[W.Publish(e)] == if e == Encode(t) then 1 else 0
  {
  }

  /** Rows with the same event are the same row. */
  lemma {:induction false} RowsDiffer(db: W.Table, j: nat, t: Trade)
    requires W.ValidTable(db) && j < |db.order| && (t.tradeId in db.rows ==> db.rows[t.tradeId] == t)
    ensures db.order[j] in db.rows
    ensures Encode(db.rows[db.order[j]]) == Encode(t) <==> db.rows[db.order[j]] == t
  {
    assert db.order[j] in db.order;
    var row := db.rows[db.order[j]];
    if Encode(row) == Encode(t) { EncodeInjective(row, t); }
  }

  lemma {:induction false} AnswerSent(s: W.State, c: nat, t: Trade)
    requires W.ValidTable(s.db) && SentPerAnswer(s) && (c in s.clients ==> !s.clients[c].Done?)
    requires t.tradeId in s.db.rows && s.db.rows[t.tradeId] == t
    ensures SentPerAnswer(W.Answer(s, c, t))
  {
    var later := W.Answer(s, c, t);
    forall j: nat | j < |later.db.order| ensures SentAt(later, j) {
      var row := s.db.rows[s.db.order[j]];
      assert SentAt(s, j);
      RowsDiffer(s.db, j, t);
      SpawnedOnce(t, Encode(row));
      AnswersMove(s.clients, c, W.Done(t), row);
    }
  }

  /** A new row has no event yet. */
  lemma {:induction false} StoreSent(s: W.State, t: Trade, seeded: nat)
    requires W.Inv(s, seeded) && SentPerAnswer(s)
    ensures SentPerAnswer(s.(db := W.InsertRow(s.db, t)))
  {
    var later := s.(db := W.InsertRow(s.db, t));
    forall j: nat | j < |later.db.order| ensures SentAt(later, j) {
      if j < |s.db.order| {
        assert SentAt(s, j) && s.db.order[j] in s.db.order;
      } else {
        NotSent(s, seeded, t);
      }
    }
  }

  /** Client c becomes `client`, which is no answer. */
  lemma {:induction false} MoveSent(s: W.State, c: nat, client: W.Client)
    requires SentPerAnswer(s) && (c in s.clients ==> !s.clients[c].Done?) && !client.Done?
    ensures SentPerAnswer(s.(clients := s.clients[c := client]))
  {
    var later := s.(clients := s.clients[c := client]);
    forall t ensures Answers(later, t) == Answers(s, t) { AnswersMove(s.clients, c, client, t); }
    SameSent(s, later);
  }

  lemma {:induction false} InsertSent(s: W.State, c: nat, seeded: nat)
    requires W.Inv(s, seeded) && SentPerAnswer(s)
    ensures SentPerAnswer(W.Apply(s, W.Insert(c)))
  {
    if c in s.clients && s.clients[c].Inserting? {
      var t := StoredTrade(s.clients[c].draft);
      if !Storable(t) {
        MoveSent(s, c, W.Failed);
      } else if t.tradeId in s.db.rows {
        MoveSent(s, c, W.Selecting(t.tradeId));
      } else {
        StoreSent(s, t, seeded);
        W.InsertExtends(s.db, t);
        AnswerSent(s.(db := W.InsertRow(s.db, t)), c, t);
      }
    }
  }

  lemma {:induction false} InsertErrorSent(s: W.State, c: nat, committed: bool, seeded: nat)
    requires W.Inv(s, seeded) && SentPerAnswer(s)
    ensures SentPerAnswer(W.Apply(s, W.InsertError(c, committed)))
  {
    if c in s.clients && s.clients[c].Inserting? {
      var t := StoredTrade(s.clients[c].draft);
      StoreSent(s, t, seeded);
      MoveSent(s, c, W.Failed);
      MoveSent(s.(db := W.InsertRow(s.db, t)), c, W.Failed);
    }
  }

  lemma {:induction false} SelectSent(s: W.State, c: nat, seeded: nat)
    requires W.Inv(s, seeded) && SentPerAnswer(s)
    ensures SentPerAnswer(W.Apply(s, W.Select(c)))
  {
    if c in s.clients && s.clients[c].Selecting? {
      assert W.ClientOk(s.db, s.clients[c]);
      AnswerSent(s, c, s.db.rows[s.clients[c].tradeId]);
    }
  }

  lemma {:induction false} OtherTask(s: W.State, task: W.Task)
    requires !task.Publish?
    ensures Quiet(s, W.Apply(s, W.RunTask(task))) && Quiet(s, W.Apply(s, W.DropTask(task)))
  {
  }

  lemma {:induction false} TaskSent(s: W.State, task: W.Task)
    requires SentPerAnswer(s)
    ensures SentPerAnswer(W.Apply(s, W.RunTask(task)))
    ensures !task.Publish? ==> SentPerAnswer(W.Apply(s, W.DropTask(task)))
  {
    if !task.Publish? {
      OtherTask(s, task);
      SameSent(s, W.Apply(s, W.RunTask(task)));
      SameSent(s, W.Apply(s, W.DropTask(task)));
    } else if task in s.tasks {
      PublishSent(s, task.values);
    }
  }

  lemma {:induction false} RequestSent(s: W.State, a: W.Action)
    requires SentPerAnswer(s) && (a.Arrive? || a.ReadLastLoss? || a.SelectError?)
    ensures SentPerAnswer(W.Apply(s, a))
  {
    if W.Apply(s, a) != s {
      MoveSent(s, a.c, W.Apply(s, a).clients[a.c]);
    }
  }

  lemma {:induction false} SentStep(s: W.State, a: W.Action, seeded: nat)
    requires W.Inv(s, seeded) && SentPerAnswer(s) && Undisturbed(Write(a))
    ensures SentPerAnswer(W.Apply(s, a))
  {
    match a
    case Arrive(_, _) => RequestSent(s, a);
    case ReadLastLoss(_, _) => RequestSent(s, a);
    case Insert(c) => InsertSent(s, c, seeded);
    case InsertError(c, committed) => InsertErrorSent(s, c, committed, seeded);
    case Select(c) => SelectSent(s, c, seeded);
    case SelectError(_) => RequestSent(s, a);
    case RunTask(task) => TaskSent(s, task);
    case DropTask(task) => TaskSent(s, task);
    case Tick(_) => SameSent(s, W.Apply(s, a));
  }

  // ---- the worker processes every entry, in order ----

  /** Nothing has been skipped. */
  ghost predicate InLine(g: G.Group, length: nat) {
    G.Inv(g, length) && g.processed == G.UpFrom(0, G.ToProcess(g))
  }

  lemma {:induction false} InLineStep(g: G.Group, length: nat, a: G.Action)
    requires InLine(g, length) && a != G.Crash && a != G.Read(true)
    ensures InLine(G.Apply(g, length, a), length)
  {
    G.StepKeeps(g, length, a);
    if a == G.Process && g.batch != [] && !g.handled {
      var n := G.ToProcess(g);
      assert g.batch[0] == n && G.UpFrom(0, n + 1) == G.UpFrom(0, n) + [n];
    }
  }

  // ---- and all its statements take effect ----

  /** Step i has the effects that its message asks for, as far as it has come. */
  ghost predicate StepTook(s: State, i: nat) {
    i < |s.steps| &&
    var f := s.steps[i].faults;
    s.steps[i].m.closed ==>
      if s.g.handled && i == |s.steps| - 1 then (1 <= s.stage ==> !f.counts) && (4 <= s.stage ==> !f.emotion)
      else !f.counts && !f.emotion
  }

  ghost predicate StepsTook(s: State) {
    forall i: nat :: i < |s.steps| ==> StepTook(s, i)
  }

  lemma {:induction false} StatementTook(s: State, a: Action)
    requires StepsTook(s) && Undisturbed(a) && !a.Write? && !a.Log?
    ensures StepsTook(Apply(s, a))
  {
    var e := Apply(s, a);
    if e != s {
      forall i: nat | i < |e.steps| ensures StepTook(e, i) {
        assert StepTook(s, i);
      }
    }
  }

  lemma {:induction false} LogTook(s: State, l: G.Action)
    requires StepsTook(s) && Undisturbed(Log(l)) && (s.g.handled ==> s.g.batch != [] && s.steps != [])
    ensures StepsTook(Apply(s, Log(l)))
  {
    var e := Apply(s, Log(l));
    forall i: nat | i < |e.steps| ensures StepTook(e, i) {
      if i < |s.steps| { assert StepTook(s, i); }
    }
  }

  // ---- the three together ----

  ghost predicate OnceInv(s: State, start: Tables, seeded: nat) {
    && Inv(s, start, seeded)
    && SentPerAnswer(s.w) && InLine(s.g, |s.w.stream|) && StepsTook(s)
  }

  lemma {:induction false} OnceWrite(s: State, w: W.Action, seeded: nat)
    requires W.Inv(s.w, seeded) && SentPerAnswer(s.w) && InLine(s.g, |s.w.stream|) && StepsTook(s)
    requires Undisturbed(Write(w))
    ensures var e := Apply(s, Write(w)); SentPerAnswer(e.w) && InLine(e.g, |e.w.stream|) && StepsTook(e)
  {
    var e := Apply(s, Write(w));
    SentStep(s.w, w, seeded);
    StreamGrows(s.w, w);
    forall i: nat | i < |e.steps| ensures StepTook(e, i) {
      assert StepTook(s, i);
    }
  }

  lemma {:induction false} OnceLog(s: State, l: G.Action)
    requires InLine(s.g, |s.w.stream|) && StepsTook(s) && Undisturbed(Log(l)) && (s.g.handled ==> s.steps != [])
    ensures var e := Apply(s, Log(l)); InLine(e.g, |e.w.stream|) && StepsTook(e) && e.w == s.w
  {
    LogTook(s, l);
    InLineStep(s.g, |s.w.stream|, l);
  }

  lemma {:induction false} OnceStatement(s: State, a: Action)
    requires StepsTook(s) && Undisturbed(a) && !a.Write? && !a.Log?
    ensures var e := Apply(s, a); StepsTook(e) && e.w == s.w && e.g == s.g
  {
    StatementTook(s, a);
  }

  lemma {:induction false} OnceStep(s: State, a: Action, start: Tables, seeded: nat)
    requires OnceInv(s, start, seeded) && Undisturbed(a)
    ensures OnceInv(Apply(s, a), start, seeded)
  {
    StepKeeps(s, a, start, seeded);
    if a.Write? {
      OnceWrite(s, a.w, seeded);
    } else if a.Log? {
      OnceLog(s, a.l);
    } else {
      OnceStatement(s, a);
    }
  }

  lemma {:induction false} OnceReached(s: State, actions: seq<Action>)
    requires Init(s) && AllUndisturbed(actions)
    ensures OnceInv(Run(s, actions), s.tables, |s.w.db.order|)
  {
    if actions == [] {
      Reached(s, []);
      forall j: nat | j < |s.w.db.order| ensures SentAt(s.w, j) {
        assert s.w.db.order[j] in s.w.db.order;
        assert AnsweredWith(s.w.clients, s.w.db.rows[s.w.db.order[j]]) == {};
      }
    } else {
      var l := |actions| - 1;
      assert forall i :: 0 <= i < l ==> actions[..l][i] == actions[i];
      OnceReached(s, actions[..l]);
      OnceStep(Run(s, actions[..l]), actions[l], s.tables, |s.w.db.order|);
    }
  }

  // ---- the processed trades are the new ones ----

  ghost function Encodes(ts: seq<Trade>): seq<Values> {
    seq(|ts|, i requires 0 <= i < |ts| => Encode(ts[i]))
  }

  /** Of different trades with different events, each is listed as often as its event. */
  lemma {:induction false} EncodedCount(ts: seq<Trade>, x: Trade)
    requires forall t :: t in ts && Encode(t) == Encode(x) ==> t == x
    ensures multiset(ts)[x] == multiset(Encodes(ts))[Encode(x)]
  {
    if ts == [] {
      assert Encodes(ts) == [];
    } else {
      var l := |ts| - 1;
      EncodedCount(ts[..l], x);
      assert ts == ts[..l] + [ts[l]] && Encodes(ts) == Encodes(ts[..l]) + [Encode(ts[l])];
    }
  }

  lemma {:induction false} DistinctOnce<T>(s: seq<T>, from: nat, j: nat)
    requires from <= |s| && j < |s| && forall i, k :: 0 <= i < k < |s| ==> s[i] != s[k]
    ensures multiset(s[from..])[s[j]] == if j < from then 0 else 1
    decreases |s| - from
  {
    if from == |s| {
      assert s[from..] == [];
    } else {
      DistinctOnce(s, from + 1, j);
      assert s[from..] == [s[from]] + s[from + 1..];
      assert j != from ==> s[j] != s[from];
    }
  }

  lemma {:induction false} ListingDistinct(db: W.Table, i: nat, k: nat)
    requires W.ValidTable(db) && i < k < |db.order|
    ensures W.Listing(db)[i] != W.Listing(db)[k]
  {
    assert db.order[i] in db.order && db.order[k] in db.order;
    assert W.Listing(db)[i].tradeId == db.order[i] && W.Listing(db)[k].tradeId == db.order[k];
  }

  lemma {:induction false} ListedOnce(db: W.Table, from: nat, j: nat)
    requires W.ValidTable(db) && from <= |db.order| && j < |db.order|
    ensures multiset(W.Listing(db)[from..])[W.Listing(db)[j]] == if j < from then 0 else 1
  {
    var all := W.Listing(db);
    forall i, k | 0 <= i < k < |all| ensures all[i] != all[k] { ListingDistinct(db, i, k); }
    DistinctOnce(all, from, j);
  }

  lemma {:induction false} TablePrefix(s: State, actions: seq<Action>)
    requires Init(s)
    ensures W.Listing(s.w.db) <= TableOf(s, actions) && |W.Listing(s.w.db)| == |s.w.db.order|
  {
    TableGrows(s, actions);
    Reached(s, actions);
    W.ListingGrows(s.w.db, Run(s, actions).w.db);
  }

  /** The trades that requests have added to the table. */
  ghost function NewTrades(s: State, actions: seq<Action>): seq<Trade>
    requires Init(s)
    ensures TableOf(s, actions) == W.Listing(s.w.db) + NewTrades(s, actions)
  {
    TablePrefix(s, actions);
    TableOf(s, actions)[|s.w.db.order|..]
  }

  lemma {:induction false} ProcessedStream(s: State, actions: seq<Action>)
    requires Init(s) && AllUndisturbed(actions) && Drained(Run(s, actions))
    ensures Encodes(ProcessedIn(s, actions)) == Run(s, actions).w.stream
  {
    OnceReached(s, actions);
    var e, ts := Run(s, actions), ProcessedIn(s, actions);
    assert e.g.processed == G.UpFrom(0, |e.w.stream|);
    forall i | 0 <= i < |ts| ensures Encode(ts[i]) == e.w.stream[i] {
      SourceFacts(e.w.db, e.w.stream[i]);
    }
  }

  /**
   After a run in which nothing is lost or fails, and with nothing left over, each row of the trades table
   has been processed exactly as often as a request was answered with it.
   */
  lemma {:induction false} ProcessedPerAnswer(s: State, actions: seq<Action>, j: nat)
    requires Init(s) && AllUndisturbed(actions) && Drained(Run(s, actions)) && j < |TableOf(s, actions)|
    ensures var x := TableOf(s, actions)[j];
            multiset(ProcessedIn(s, actions))[x] == Answers(Run(s, actions).w, x)
  {
    OnceReached(s, actions);
    ProcessedStream(s, actions);
    var e, ts, x := Run(s, actions), ProcessedIn(s, actions), TableOf(s, actions)[j];
    assert SentAt(e.w, j) && x == e.w.db.rows[e.w.db.order[j]];
    forall t | t in ts && Encode(t) == Encode(x) ensures t == x {
      SameEvent(s, actions, t, j);
    }
    EncodedCount(ts, x);
  }

  lemma {:induction false} SameEvent(s: State, actions: seq<Action>, t: Trade, j: nat)
    requires Init(s) && t in ProcessedIn(s, actions) && j < |TableOf(s, actions)|
    requires Encode(t) == Encode(TableOf(s, actions)[j])
    ensures t == TableOf(s, actions)[j]
  {
    Reached(s, actions);
    ProcessedFacts(s, actions);
    var db, table := Run(s, actions).w.db, TableOf(s, actions);
    var i: nat :| i < |table| && table[i] == t;
    assert db.order[j] in db.order;
    RowsDiffer(db, i, table[j]);
  }

  /** Every trade that requests have added was the answer to one of them, and no seeded trade was. */
  ghost predicate AnsweredOnce(s: State, actions: seq<Action>)
    requires Init(s)
  {
    var table := TableOf(s, actions);
    forall j :: 0 <= j < |table| ==>
      Answers(Run(s, actions).w, table[j]) == if j < |s.w.db.order| then 0 else 1
  }

  /** Then, and only then, the processed trades are the new ones, once each. */
  lemma {:induction false} ProcessedAreNew(s: State, actions: seq<Action>)
    requires Init(s) && AllUndisturbed(actions) && Drained(Run(s, actions))
    ensures multiset(ProcessedIn(s, actions)) == multiset(NewTrades(s, actions)) <==> AnsweredOnce(s, actions)
  {
    var table, ts, added := TableOf(s, actions), ProcessedIn(s, actions), NewTrades(s, actions);
    ProcessedFacts(s, actions);
    forall j: nat | j < |table|
      ensures multiset(ts)[table[j]] == Answers(Run(s, actions).w, table[j])
      ensures multiset(added)[table[j]] == if j < |s.w.db.order| then 0 else 1
    {
      ProcessedPerAnswer(s, actions, j);
      NewOnce(s, actions, j);
    }
    if AnsweredOnce(s, actions) {
      forall x ensures multiset(ts)[x] == multiset(added)[x] {
        if x in table {
          var j: nat :| j < |table| && table[j] == x;
        } else {
          assert x !in ts && x !in added;
        }
      }
    }
  }

  lemma {:induction false} NewOnce(s: State, actions: seq<Action>, j: nat)
    requires Init(s) && j < |TableOf(s, actions)|
    ensures multiset(NewTrades(s, actions))[TableOf(s, actions)[j]] == if j < |s.w.db.order| then 0 else 1
  {
    Reached(s, actions);
    TablePrefix(s, actions);
    ListedOnce(Run(s, actions).w.db, |s.w.db.order|, j);
  }

  // ---- the theorem ----

  ghost predicate Fit(ts: seq<Trade>) { AllDecided(ts) && ClosedPrintable(ts) }

  /** Leaving out open trades changes nothing that the batch statements or the conditions see. */
  lemma {:induction false} TookClosed(ts: seq<Trade>, steps: seq<Step>, p: Step -> bool)
    requires |ts| == |steps| && forall i :: 0 <= i < |ts| && ts[i].status == Closed ==> p(steps[i])
    ensures var took := Took(ts, steps, p);
            Where(took, IsClosed()) == Where(ts, IsClosed()) && Where(took, IsFelt()) == Where(ts, IsFelt())
    ensures Fit(Took(ts, steps, p)) <==> Fit(ts)
  {
    if ts != [] {
      var l := |ts| - 1;
      TookClosed(ts[..l], steps[..l], p);
      assert ts == ts[..l] + [ts[l]];
      FitMore(ts[..l], ts[l]);
      FitMore(Took(ts[..l], steps[..l], p), ts[l]);
    }
  }

  lemma {:induction false} FitMore(ts: seq<Trade>, t: Trade)
    ensures Fit(ts + [t]) <==> Fit(ts) && (t.status == Closed ==> t.outcome.Some? && Printable(t.entryAt))
  {
    var all := ts + [t];
    assert all[|ts|] == t && forall i :: 0 <= i < |ts| ==> all[i] == ts[i];
  }

  lemma {:induction false} FitBag(a: seq<Trade>, b: seq<Trade>)
    requires multiset(a) == multiset(b) && Fit(a)
    ensures Fit(b)
  {
    forall i | 0 <= i < |b| && b[i].status == Closed ensures b[i].outcome.Some? && Printable(b[i].entryAt) {
      assert b[i] in multiset(a);
      var j :| 0 <= j < |a| && a[j] == b[i];
    }
  }

  lemma {:induction false} AllTook(s: State, actions: seq<Action>)
    requires Init(s) && AllUndisturbed(actions) && Drained(Run(s, actions))
    ensures var steps, ts := Run(s, actions).steps, ProcessedIn(s, actions);
            |ts| == |steps| && Decodes(steps, ts) && forall i :: 0 <= i < |ts| && ts[i].status == Closed ==>
              !steps[i].faults.counts && !steps[i].faults.emotion
  {
    OnceReached(s, actions);
    ProcessedFacts(s, actions);
    var e, ts := Run(s, actions), ProcessedIn(s, actions);
    forall i: nat | i < |ts| && ts[i].status == Closed
      ensures !e.steps[i].faults.counts && !e.steps[i].faults.emotion
    {
      assert StepTook(e, i) && e.steps[i].m == MessageOf(ts[i]);
    }
  }

  /** The seeded trades and those whose statements took effect are those of the table. */
  lemma {:induction false} EachOnce(s: State, actions: seq<Action>)
    requires Init(s) && AllUndisturbed(actions) && Drained(Run(s, actions)) && AnsweredOnce(s, actions)
    ensures OnceEach(TableOf(s, actions), W.Listing(s.w.db), ProcessedIn(s, actions), Run(s, actions).steps)
  {
    var steps, ts, added := Run(s, actions).steps, ProcessedIn(s, actions), NewTrades(s, actions);
    var seeded := W.Listing(s.w.db);
    AllTook(s, actions);
    ProcessedAreNew(s, actions);
    TookClosed(ts, steps, CountsTook());
    TookClosed(ts, steps, EmotionTook());
    WhereConcat(seeded, Took(ts, steps, CountsTook()), IsClosed());
    WhereConcat(seeded, Took(ts, steps, EmotionTook()), IsFelt());
    WhereConcat(seeded, added, IsClosed());
    WhereConcat(seeded, added, IsFelt());
    WhereBag(ts, added, IsClosed());
    WhereBag(ts, added, IsFelt());
  }

  /**
   When besides each new trade was answered once, both metrics tables are the batch statements over the
   whole trades table, the seeded trades and those that requests added, exactly when each closed one of the
   latter has an outcome and a year that the event text can carry.
   */
  lemma {:induction false} EveryTradeOnce(s: State, actions: seq<Action>)
    requires Init(s) && SeededFrom(s.tables, W.Listing(s.w.db))
    requires AllUndisturbed(actions) && Drained(Run(s, actions)) && AnsweredOnce(s, actions)
    ensures SeededFrom(Run(s, actions).tables, TableOf(s, actions)) <==> Fit(NewTrades(s, actions))
  {
    var table, steps, ts := TableOf(s, actions), Run(s, actions).steps, ProcessedIn(s, actions);
    var seeded := W.Listing(s.w.db);
    AllTook(s, actions);
    EachOnce(s, actions);
    ProcessedAreNew(s, actions);
    ProcessedFacts(s, actions);
    Replayed(s, actions);
    if Fit(NewTrades(s, actions)) {
      FitBag(NewTrades(s, actions), ts);
      AnyOrderEqualsBatch(table, s.tables, seeded, ts, steps);
    }
    if SeededFrom(Run(s, actions).tables, table) {
      OnceEachSeeds(table, seeded, ts, steps);
      IncrementalEqualsBatch(s.tables, seeded, ts, steps);
      TookClosed(ts, steps, CountsTook());
      FitBag(ts, NewTrades(s, actions));
    }
  }
}
