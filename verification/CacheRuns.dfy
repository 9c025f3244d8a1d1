/**
 How stale a metrics response can be: requests that read the tables query by query, goroutines that
 write finished responses to the cache at any later time, and tables that change in between.
 */
module CacheRuns {
  import opened Prelude
  import opened MetricsCache
  import opened MetricsResponse
  import opened MetricsTable
  import P = Pipeline
  import R = WindowRuns
  import W = WritePath

  /**
   A response with the state of the tables from which each part was read, by position in the
   history. It is finished when it has all parts.
   */
  datatype Response = Response(request: Request, body: Body, stamps: seq<nat>)

  /** A cache entry. `version` counts the states of the tables reached when it was written. */
  datatype Cached = Cached(response: Response, setAt: int, version: nat)

  /**
   `history` lists the states of the tables, the last one current; `pending` are the requests between
   two queries; `writes` are the goroutines that have not run yet.
   */
  datatype State = State(now: int, history: seq<Snapshot>, cache: map<string, Cached>,
                         writes: seq<Response>, pending: map<nat, Response>)

  datatype Action =
    | Change(s: Snapshot)   // any statement of other processes
    | Begin(c: nat, r: Request, empty: Body)
    | Ask(c: nat, b: Body)  // the next query; b is the response so far with its answer
    | Abandon(c: nat)       // a query failed
    | RunWrite(i: nat)      // SET key body EX 300
    | DropWrite(i: nat)
    | Tick(elapsed: nat)

  function Without<T>(s: seq<T>, i: nat): seq<T>
    requires i < |s|
  {
    s[..i] + s[i + 1..]
  }

  ghost function Apply(s: State, parse: Parser, a: Action): State
    requires s.history != []
  {
    var v := |s.history| - 1;
    match a
    case Change(next) =>
      if Grown(s.history[v], next) && CountsNonNegative(next.rows) then s.(history := s.history + [next]) else s
    case Begin(c, r, empty) =>
      if c !in s.pending && WellTimed(r, parse) then s.(pending := s.pending[c := Response(r, empty, [])]) else s
    case Ask(c, b) =>
      if c in s.pending && CanAsk(s.pending[c], b, s.history[v], parse) then
        var next := Response(s.pending[c].request, b, s.pending[c].stamps + [v]);
        if |next.stamps| == PARTS then s.(pending := s.pending - {c}, writes := s.writes + [next])
        else s.(pending := s.pending[c := next])
      else s
    case Abandon(c) => s.(pending := s.pending - {c})
    case RunWrite(i) =>
      if i < |s.writes| then
        var b := s.writes[i];
        s.(writes := Without(s.writes, i), cache := s.cache[Key(b.request) := Cached(b, s.now, |s.history|)])
      else s
    case DropWrite(i) => if i < |s.writes| then s.(writes := Without(s.writes, i)) else s
    case Tick(elapsed) => s.(now := s.now + elapsed)
  }

  /** b keeps the parts answered so far and answers the next one from the current tables. */
  ghost predicate CanAsk(p: Response, b: Body, current: Snapshot, parse: Parser) {
    && WellTimed(p.request, parse) && |p.stamps| < PARTS
    && SameParts(|p.stamps|, p.body, b)
    && PartRight(|p.stamps|, b, current, p.request, parse)
  }

  /** The handler's lookup: a hit while the key has not expired. */
  function Lookup(s: State, r: Request): Option<Cached> {
    if Key(r) in s.cache && s.now < s.cache[Key(r)].setAt + METRICS_TTL then Some(s.cache[Key(r)]) else None
  }

  ghost function Run(s: State, parse: Parser, actions: seq<Action>): (e: State)
    requires s.history != []
    ensures e.history != []
  {
    if actions == [] then s else Apply(Run(s, parse, actions[..|actions| - 1]), parse, actions[|actions| - 1])
  }

  lemma {:induction false} RunOne(s: State, parse: Parser, actions: seq<Action>, a: Action)
    requires s.history != []
    ensures Run(s, parse, actions + [a]) == Apply(Run(s, parse, actions), parse, a)
  {
    assert (actions + [a])[..|actions|] == actions;
  }

  lemma {:induction false} RunConcat(s: State, parse: Parser, a: seq<Action>, b: seq<Action>)
    requires s.history != []
    ensures Run(s, parse, a + b) == Run(Run(s, parse, a), parse, b)
    decreases |b|
  {
    if b == [] {
      assert a + b == a;
    } else {
      assert (a + b)[..|a + b| - 1] == a + b[..|b| - 1];
      RunConcat(s, parse, a, b[..|b| - 1]);
    }
  }

  /** Nothing cached, nothing under way. */
  function Start(now: int, s: Snapshot): State { State(now, [s], map[], [], map[]) }

  // ---- what every step keeps ----

  ghost predicate PartFrom(b: Response, history: seq<Snapshot>, parse: Parser, i: nat) {
    && WellTimed(b.request, parse) && i < |b.stamps|
    && b.stamps[i] < |history| && PartRight(i, b.body, history[b.stamps[i]], b.request, parse)
  }

  /** Each part was read from one of the states of the tables, later parts from no earlier state. */
  ghost predicate PartsFrom(b: Response, history: seq<Snapshot>, parse: Parser) {
    && WellTimed(b.request, parse) && |b.stamps| <= PARTS
    && (forall i: nat :: i < |b.stamps| ==> PartFrom(b, history, parse, i))
    && (forall i, j :: 0 <= i <= j < |b.stamps| ==> b.stamps[i] <= b.stamps[j])
  }

  ghost predicate Finished(b: Response, history: seq<Snapshot>, parse: Parser) {
    PartsFrom(b, history, parse) && |b.stamps| == PARTS
  }

  ghost predicate HistoryOk(history: seq<Snapshot>) {
    && history != []
    && (forall i :: 0 <= i < |history| ==> CountsNonNegative(history[i].rows))
    && (forall i, j :: 0 <= i <= j < |history| ==> Grown(history[i], history[j]))
  }

  ghost predicate EntryOk(key: string, c: Cached, s: State, parse: Parser) {
    && key == Key(c.response.request)
    && c.version <= |s.history| && c.setAt <= s.now
    && Finished(c.response, s.history, parse)
    && c.response.stamps[PARTS - 1] < c.version
  }

  ghost predicate Inv(s: State, parse: Parser) {
    && HistoryOk(s.history)
    && (forall i :: 0 <= i < |s.writes| ==> Finished(s.writes[i], s.history, parse))
    && (forall c :: c in s.pending ==> PartsFrom(s.pending[c], s.history, parse))
    && (forall key :: key in s.cache ==> EntryOk(key, s.cache[key], s, parse))
  }

  lemma {:induction false} PartsPersist(b: Response, history: seq<Snapshot>, parse: Parser, next: Snapshot)
    requires PartsFrom(b, history, parse)
    ensures PartsFrom(b, history + [next], parse)
  {
    forall i: nat | i < |b.stamps| ensures PartFrom(b, history + [next], parse, i) {
      assert PartFrom(b, history, parse, i);
    }
  }

  lemma {:induction false} HistoryGrows(history: seq<Snapshot>, next: Snapshot)
    requires HistoryOk(history) && Grown(history[|history| - 1], next) && CountsNonNegative(next.rows)
    ensures HistoryOk(history + [next])
  {
    forall i | 0 <= i < |history| ensures Grown(history[i], next) {
      assert Grown(history[i], history[|history| - 1]);
    }
  }

  lemma {:induction false} ChangeKeeps(s: State, parse: Parser, next: Snapshot)
    requires Inv(s, parse)
    ensures Inv(Apply(s, parse, Change(next)), parse)
  {
    var s' := Apply(s, parse, Change(next));
    if s' != s {
      HistoryGrows(s.history, next);
      forall i | 0 <= i < |s.writes| ensures Finished(s.writes[i], s'.history, parse) {
        PartsPersist(s.writes[i], s.history, parse, next);
      }
      forall c | c in s.pending ensures PartsFrom(s.pending[c], s'.history, parse) {
        PartsPersist(s.pending[c], s.history, parse, next);
      }
      forall key | key in s.cache ensures EntryOk(key, s.cache[key], s', parse) {
        assert EntryOk(key, s.cache[key], s, parse);
        PartsPersist(s.cache[key].response, s.history, parse, next);
      }
    }
  }

  /** One more answer, from the current tables. */
  lemma {:induction false} AskExtends(p: Response, b: Body, history: seq<Snapshot>, parse: Parser)
    requires history != [] && PartsFrom(p, history, parse) && CanAsk(p, b, history[|history| - 1], parse)
    ensures PartsFrom(Response(p.request, b, p.stamps + [|history| - 1]), history, parse)
  {
    var n, next := |p.stamps|, Response(p.request, b, p.stamps + [|history| - 1]);
    forall i: nat | i < |next.stamps| ensures PartFrom(next, history, parse, i) {
      assert next.stamps[n] == |history| - 1;
      if i < n {
        assert PartFrom(p, history, parse, i) && next.stamps[i] == p.stamps[i];
        SamePartRight(n, i, p.body, b, history[p.stamps[i]], p.request, parse);
      }
    }
    forall i, j | 0 <= i <= j < |next.stamps| ensures next.stamps[i] <= next.stamps[j] {
      if j == n { assert PartFrom(next, history, parse, i); }
    }
  }

  /** Entries stay right while the history and the clock only grow. */
  lemma {:induction false} EntriesStay(s: State, s': State, parse: Parser)
    requires forall key :: key in s.cache ==> EntryOk(key, s.cache[key], s, parse)
    requires s'.history == s.history && s.now <= s'.now && s'.cache == s.cache
    ensures forall key :: key in s'.cache ==> EntryOk(key, s'.cache[key], s', parse)
  {
    forall key | key in s'.cache ensures EntryOk(key, s'.cache[key], s', parse) {
      assert EntryOk(key, s.cache[key], s, parse);
    }
  }

  lemma {:induction false} RequestKeeps(s: State, parse: Parser, a: Action)
    requires Inv(s, parse) && (a.Begin? || a.Ask? || a.Abandon?)
    ensures Inv(Apply(s, parse, a), parse)
  {
    var s' := Apply(s, parse, a);
    if a.Ask? && a.c in s.pending && CanAsk(s.pending[a.c], a.b, s.history[|s.history| - 1], parse) {
      AskExtends(s.pending[a.c], a.b, s.history, parse);
    }
    assert s'.history == s.history && s'.cache == s.cache && s'.now == s.now;
    EntriesStay(s, s', parse);
  }

  lemma {:induction false} WritesLeft(s: State, parse: Parser, i: nat)
    requires i < |s.writes| && forall j :: 0 <= j < |s.writes| ==> Finished(s.writes[j], s.history, parse)
    ensures forall j :: 0 <= j < |Without(s.writes, i)| ==> Finished(Without(s.writes, i)[j], s.history, parse)
  {
    forall j | 0 <= j < |Without(s.writes, i)| ensures Finished(Without(s.writes, i)[j], s.history, parse) {
      assert Without(s.writes, i)[j] == s.writes[if j < i then j else j + 1];
    }
  }

  lemma {:induction false} EntryAdded(s: State, parse: Parser, b: Response)
    requires Inv(s, parse) && Finished(b, s.history, parse)
    ensures Inv(s.(cache := s.cache[Key(b.request) := Cached(b, s.now, |s.history|)]), parse)
  {
    var s' := s.(cache := s.cache[Key(b.request) := Cached(b, s.now, |s.history|)]);
    assert PartFrom(b, s.history, parse, PARTS - 1);
    forall key | key in s'.cache ensures EntryOk(key, s'.cache[key], s', parse) {
      if key != Key(b.request) { assert EntryOk(key, s.cache[key], s, parse); }
    }
  }

  lemma {:induction false} WriteKeeps(s: State, parse: Parser, i: nat)
    requires Inv(s, parse) && i < |s.writes|
    ensures Inv(Apply(s, parse, RunWrite(i)), parse) && Inv(Apply(s, parse, DropWrite(i)), parse)
  {
    var s' := s.(writes := Without(s.writes, i));
    WritesLeft(s, parse, i);
    EntriesStay(s, s', parse);
    EntryAdded(s', parse, s.writes[i]);
  }

  lemma {:induction false} StepKeeps(s: State, parse: Parser, a: Action)
    requires Inv(s, parse)
    ensures Inv(Apply(s, parse, a), parse)
  {
    match a
    case Change(next) => ChangeKeeps(s, parse, next);
    case Begin(_, _, _) => RequestKeeps(s, parse, a);
    case Ask(_, _) => RequestKeeps(s, parse, a);
    case Abandon(_) => RequestKeeps(s, parse, a);
    case RunWrite(i) => if i < |s.writes| { WriteKeeps(s, parse, i); }
    case DropWrite(i) => if i < |s.writes| { WriteKeeps(s, parse, i); }
    case Tick(elapsed) => EntriesStay(s, Apply(s, parse, a), parse);
  }

  lemma {:induction false} RunKeeps(s: State, parse: Parser, actions: seq<Action>)
    requires Inv(s, parse)
    ensures Inv(Run(s, parse, actions), parse)
  {
    if actions != [] {
      RunKeeps(s, parse, actions[..|actions| - 1]);
      StepKeeps(Run(s, parse, actions[..|actions| - 1]), parse, actions[|actions| - 1]);
    }
  }

  // ---- every hit ----

  /**
   c answers exactly r; each part of its body answers r from a state of the tables reached before c
   was written, later parts from no earlier state; it was written less than five minutes ago; and no
   trade count of its points, and neither of its plain counts, is above the current one.
   */
  ghost predicate FreshEnough(c: Cached, e: State, parse: Parser, r: Request) {
    && e.history != []
    && c.response.request == r
    && c.setAt <= e.now < c.setAt + 300_000_000_000
    && Finished(c.response, e.history, parse)
    && (forall i :: 0 <= i < PARTS ==> c.response.stamps[i] < c.version <= |e.history|)
    && Within(c.response.body, e.history[|e.history| - 1], r, parse)
  }

  lemma {:induction false} FinishedWithin(b: Response, history: seq<Snapshot>, parse: Parser)
    requires HistoryOk(history) && Finished(b, history, parse)
    ensures Within(b.body, history[|history| - 1], b.request, parse)
  {
    var v := |history| - 1;
    assert PartFrom(b, history, parse, 0) && PartFrom(b, history, parse, 2) && PartFrom(b, history, parse, 3);
    var s0, s2, s3 := history[b.stamps[0]], history[b.stamps[2]], history[b.stamps[3]];
    assert Grown(s0, history[v]) && Grown(s2, history[v]) && Grown(s3, history[v]);
    EarlierWithin(b.body, s0, s2, s3, history[v], b.request, parse);
  }

  lemma {:induction false} SameRequest(e: State, parse: Parser, r: Request, c: Cached)
    requires IsParser(parse) && WellTimed(r, parse) && EntryOk(Key(r), c, e, parse)
    ensures c.response.request == r
  {
    KeyInjective(r, c.response.request);
  }

  lemma {:induction false} EntryIsFresh(e: State, parse: Parser, key: string, c: Cached)
    requires HistoryOk(e.history) && EntryOk(key, c, e, parse) && e.now < c.setAt + 300_000_000_000
    ensures FreshEnough(c, e, parse, c.response.request)
  {
    FinishedWithin(c.response, e.history, parse);
  }

  lemma {:induction false} EntryFound(e: State, parse: Parser, r: Request, c: Cached)
    requires Inv(e, parse) && Lookup(e, r) == Some(c)
    ensures EntryOk(Key(r), c, e, parse)
  {
  }

  lemma {:induction false} HitIsFresh(e: State, parse: Parser, r: Request, c: Cached)
    requires Inv(e, parse) && IsParser(parse) && WellTimed(r, parse) && Lookup(e, r) == Some(c)
    ensures FreshEnough(c, e, parse, r)
  {
    EntryFound(e, parse, r, c);
    SameRequest(e, parse, r, c);
    EntryIsFresh(e, parse, Key(r), c);
  }

  lemma {:induction false} StartInv(now: int, s: Snapshot, parse: Parser)
    requires CountsNonNegative(s.rows)
    ensures Inv(Start(now, s), parse)
  {
  }

  /** Whatever is read, computed, delayed, dropped, overwritten or expired, every hit is fresh enough. */
  lemma {:induction false} ServedResponses(now: int, s: Snapshot, parse: Parser, actions: seq<Action>,
                                           r: Request, c: Cached)
    requires CountsNonNegative(s.rows) && IsParser(parse) && WellTimed(r, parse)
    requires Lookup(Run(Start(now, s), parse, actions), r) == Some(c)
    ensures FreshEnough(c, Run(Start(now, s), parse, actions), parse, r)
  {
    StartInv(now, s, parse);
    RunKeeps(Start(now, s), parse, actions);
    HitIsFresh(Run(Start(now, s), parse, actions), parse, r, c);
  }

  // ---- and finished responses are served ----

  /** The answer to the last query starts the goroutine that writes the response. */
  lemma {:induction false} LastAnswerWrites(s: State, parse: Parser, c: nat, b: Body)
    requires s.history != [] && c in s.pending && |s.pending[c].stamps| == 3
    requires CanAsk(s.pending[c], b, s.history[|s.history| - 1], parse)
    ensures var e, p := Apply(s, parse, Ask(c, b)), s.pending[c];
            && c !in e.pending && |e.writes| == |s.writes| + 1 && e.writes[..|s.writes|] == s.writes
            && e.writes[|s.writes|] == Response(p.request, b, p.stamps + [|s.history| - 1])
  {
  }

  /** No goroutine writes under the key. */
  ghost predicate NoOtherWrite(s: State, parse: Parser, actions: seq<Action>, key: string)
    requires s.history != []
  {
    forall i :: 0 <= i < |actions| && actions[i].RunWrite? ==>
      var m := Run(s, parse, actions[..i]);
      actions[i].i < |m.writes| ==> Key(m.writes[actions[i].i].request) != key
  }

  lemma {:induction false} EntryStaysStep(s: State, parse: Parser, a: Action, key: string)
    requires s.history != [] && key in s.cache
    requires a.RunWrite? && a.i < |s.writes| ==> Key(s.writes[a.i].request) != key
    ensures var e := Apply(s, parse, a); key in e.cache && e.cache[key] == s.cache[key]
  {
  }

  lemma {:induction false} EntryStays(s: State, parse: Parser, actions: seq<Action>, key: string)
    requires s.history != [] && key in s.cache && NoOtherWrite(s, parse, actions, key)
    ensures var e := Run(s, parse, actions); key in e.cache && e.cache[key] == s.cache[key]
  {
    if actions != [] {
      var l := |actions| - 1;
      assert forall i :: 0 <= i < l ==> actions[..l][i] == actions[i] && actions[..l][..i] == actions[..i];
      EntryStays(s, parse, actions[..l], key);
      EntryStaysStep(Run(s, parse, actions[..l]), parse, actions[l], key);
    }
  }

  /**
   Once a finished response has been written, and until another one is under its key, the handler serves
   just this response to its request, for exactly five minutes.
   */
  lemma {:induction false} WrittenIsServed(s: State, parse: Parser, i: nat, between: seq<Action>)
    requires s.history != [] && i < |s.writes|
    requires NoOtherWrite(Apply(s, parse, RunWrite(i)), parse, between, Key(s.writes[i].request))
    ensures var e := Run(Apply(s, parse, RunWrite(i)), parse, between);
            var r := s.writes[i].request;
            if e.now < s.now + 300_000_000_000 then Lookup(e, r).Some? && Lookup(e, r).value.response == s.writes[i]
            else Lookup(e, r).None?
  {
    EntryStays(Apply(s, parse, RunWrite(i)), parse, between, Key(s.writes[i].request));
  }

  // ---- the pipeline's steps are changes ----

  /** What a response is read from, in a state of the pipeline. */
  function SnapshotOf(s: R.State): Snapshot
    requires W.ValidTable(s.p.w.db)
  {
    Snapshot(s.p.tables.rows, s.p.tables.emotions, W.Listing(s.p.w.db), s.events)
  }

  lemma {:induction false} RowsGrow(p: P.State, a: P.Action)
    requires CountsNonNegative(p.tables.rows)
    ensures RowsGrown(p.tables.rows, P.Apply(p, a).tables.rows) && CountsNonNegative(P.Apply(p, a).tables.rows)
  {
    match a
    case Write(_) =>
    case Log(l) =>
    case PutCounts(ok) =>
      if P.AtStage(p, 0) && ok {
        UpsertGrows(p.tables.rows, KeyOf(P.Current(p).m), CountsOf(P.Current(p).m));
      }
    case PutPlan(read, ok) =>
      if P.AtStage(p, 1) && P.PlanSeen(p.w.db, P.Current(p).m, read) && read.Some? {
        UpsertGrows(p.tables.rows, KeyOf(P.Current(p).m), PlanOf(read.value));
      }
    case PutTilt(read, ok) =>
      if P.AtStage(p, 2) && P.TiltSeen(p.w.db, P.Current(p).m, read) && read.Some? {
        UpsertGrows(p.tables.rows, KeyOf(P.Current(p).m), TiltOf(read.value));
      }
    case PutEmotion(_) =>
  }

  /** Every step of the pipeline changes what a response is read from in a way that the machine admits. */
  lemma {:induction false} PipelineChanges(s: R.State, a: R.Action, start: Tables, seeded: nat)
    requires R.Inv(s, start, seeded) && CountsNonNegative(s.p.tables.rows)
    ensures var t := R.Apply(s, a);
            && W.ValidTable(t.p.w.db) && CountsNonNegative(t.p.tables.rows)
            && Grown(SnapshotOf(s), SnapshotOf(t))
  {
    R.StepGrowsLogs(s, a);
    if a.Other? {
      P.StepKeeps(s.p, a.a, start, seeded);
      P.StepExtends(s.p, a.a, start, seeded);
      W.ListingGrows(s.p.w.db, P.Apply(s.p, a.a).w.db);
      RowsGrow(s.p, a.a);
    }
  }

  lemma {:induction false} PipelineSound(s: R.State, actions: seq<R.Action>)
    requires R.Init(s) && CountsNonNegative(s.p.tables.rows)
    ensures W.ValidTable(R.Run(s, actions).p.w.db) && CountsNonNegative(R.Run(s, actions).p.tables.rows)
  {
    R.Reached(s, actions);
    if actions != [] {
      var init, last := actions[..|actions| - 1], actions[|actions| - 1];
      PipelineSound(s, init);
      R.Reached(s, init);
      PipelineChanges(R.Run(s, init), last, s.p.tables, |s.p.w.db.order|);
    }
  }

  /** The states of a run of the pipeline, one change for each step. */
  ghost function ChangesOf(s: R.State, actions: seq<R.Action>): seq<Action>
    requires R.Init(s) && CountsNonNegative(s.p.tables.rows)
  {
    if actions == [] then []
    else
      PipelineSound(s, actions);
      ChangesOf(s, actions[..|actions| - 1]) + [Change(SnapshotOf(R.Run(s, actions)))]
  }

  /** So the machine's history can be that of any run of the pipeline. */
  lemma {:induction false} PipelineHistory(now: int, s: R.State, parse: Parser, actions: seq<R.Action>)
    requires R.Init(s) && CountsNonNegative(s.p.tables.rows)
    ensures W.ValidTable(s.p.w.db) && W.ValidTable(R.Run(s, actions).p.w.db)
    ensures var e := Run(Start(now, SnapshotOf(s)), parse, ChangesOf(s, actions));
            |e.history| == |actions| + 1 && e.history[|actions|] == SnapshotOf(R.Run(s, actions))
  {
    PipelineSound(s, actions);
    if actions != [] {
      var init, last := actions[..|actions| - 1], actions[|actions| - 1];
      PipelineHistory(now, s, parse, init);
      R.Reached(s, init);
      PipelineSound(s, init);
      PipelineChanges(R.Run(s, init), last, s.p.tables, |s.p.w.db.order|);
      RunOne(Start(now, SnapshotOf(s)), parse, ChangesOf(s, init), Change(SnapshotOf(R.Run(s, actions))));
    }
  }
}
