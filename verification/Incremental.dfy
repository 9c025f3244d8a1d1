/**
 Incremental equals batch: folding events one by one builds, on top of what a batch statement made of
 some trades, what the batch statement would make of those trades and the processed ones together.
 Empty tables are the batch over no trades.
 */
module Incremental {
  import opened Prelude
  import opened Timeline
  import opened Domain
  import opened EventCodec
  import opened Sums
  import opened Query
  import opened MetricsTable
  import opened Batch

  // ---- one event of a stored trade ----

  lemma {:induction false} ProcessStoredRow(rows: map<RowKey, Row>, trade: Trade, r: Reads, f: Faults, k: RowKey)
    requires Printable(trade.entryAt)
    ensures var later := ProcessRows(rows, MessageOf(trade), r, f);
            var prev, next := Projected(Cell(rows, k)), Projected(Cell(later, k));
            && (k in later <==> k in rows || (InHour(trade, k) && Touches(MessageOf(trade), r, f)))
            && if InHour(trade, k) && !f.counts then AddsTrade(next, prev, trade) else next == prev
  {
    StoredKeys(trade);
    OneUpsertPerEvent(rows, MessageOf(trade), r, f);
  }

  lemma {:induction false} StoredKeys(trade: Trade)
    requires Printable(trade.entryAt)
    ensures KeyOf(MessageOf(trade)) == HourKey(trade)
    ensures GoDay(MessageOf(trade).entryAt) == SqlDay(trade.entryAt)
  {
    DecodeEncode(trade);
  }

  lemma {:induction false} ProcessStoredTally(emotions: map<EmotionKey, Tally>, trade: Trade, f: Faults, e: EmotionKey)
    requires Printable(trade.entryAt)
    ensures var later := ProcessEmotions(emotions, MessageOf(trade), f);
            var prev, next, hit := Tallied(emotions, e), Tallied(later, e), InDay(trade, e) && !f.emotion;
            && (e in later <==> e in emotions || hit)
            && if hit then AddsOutcome(next, prev, trade) else next == prev
  {
    StoredKeys(trade);
  }

  /** A closed event whose counts failed although a later statement wrote its row k. */
  predicate IsStray(s: Step, k: RowKey) {
    s.faults.counts && Touches(s.m, s.seen, s.faults) && KeyOf(s.m) == k
  }

  ghost predicate StrayAt(steps: seq<Step>, k: RowKey) {
    exists i :: 0 <= i < |steps| && IsStray(steps[i], k)
  }

  lemma {:induction false} StrayAppend(steps: seq<Step>, step: Step, k: RowKey)
    ensures StrayAt(steps + [step], k) <==> StrayAt(steps, k) || IsStray(step, k)
  {
    var all, l := steps + [step], |steps|;
    if i :| 0 <= i < l && IsStray(steps[i], k) { assert IsStray(all[i], k); }
    if i :| 0 <= i < |all| && IsStray(all[i], k) && i < l { assert IsStray(steps[i], k); }
    assert all[l] == step;
  }

  ghost predicate AllPrintable(ts: seq<Trade>) {
    forall i :: 0 <= i < |ts| ==> Printable(ts[i].entryAt)
  }

  /** Row k of `rows` is that of `start` with `add` added; it exists if it did or was made since. */
  ghost predicate RowGrown(start: map<RowKey, Row>, rows: map<RowKey, Row>, add: Counts, made: bool, k: RowKey) {
    && (k in rows <==> k in start || made)
    && var r, x := Projected(Cell(rows, k)), Projected(Cell(start, k));
       && r.trades == x.trades + add.trades && r.wins == x.wins + add.wins && r.losses == x.losses + add.losses
       && r.pnl == x.pnl + add.pnl && r.revenge == x.revenge + add.revenge
  }

  /**
   Row k after any processing, whatever failed: the worker's reading of the trades whose counts took
   effect is added to what the row held, and the row exists if it did, for those trades and for strays.
   */
  lemma {:induction false} ReplayRow(t: Tables, ts: seq<Trade>, steps: seq<Step>, k: RowKey)
    requires Decodes(steps, ts) && AllPrintable(ts)
    ensures var counted := Took(ts, steps, CountsTook());
            RowGrown(t.rows, RunAll(t, steps).rows, WorkerRow(counted, k),
                     CountWhere(counted, ClosedIn(k)) > 0 || StrayAt(steps, k), k)
    decreases |ts|
  {
    if ts == [] {
      NoRow(ts, k);
    } else {
      var l := |ts| - 1;
      assert steps == steps[..l] + [steps[l]];
      var counted, s := Took(ts[..l], steps[..l], CountsTook()), steps[l];
      ReplayRow(t, ts[..l], steps[..l], k);
      StrayAppend(steps[..l], s, k);
      StoredKeys(ts[l]);
      ProcessStoredRow(RunAll(t, steps[..l]).rows, ts[l], s.seen, s.faults, k);
      WorkerRowAppend(counted, ts[l], k);
      assert Took(ts, steps, CountsTook()) == if s.faults.counts then counted else counted + [ts[l]];
    }
  }

  ghost predicate TallyGrown(start: map<EmotionKey, Tally>, emotions: map<EmotionKey, Tally>, add: Tally, made: bool,
                             e: EmotionKey)
  {
    && (e in emotions <==> e in start || made)
    && var r, x := Tallied(emotions, e), Tallied(start, e);
       r.wins == x.wins + add.wins && r.losses == x.losses + add.losses
  }

  /** And for emotion_win_rates, over the trades whose emotion statement took effect. */
  lemma {:induction false} ReplayTally(t: Tables, ts: seq<Trade>, steps: seq<Step>, e: EmotionKey)
    requires Decodes(steps, ts) && AllPrintable(ts)
    ensures var felt := Took(ts, steps, EmotionTook());
            TallyGrown(t.emotions, RunAll(t, steps).emotions, WorkerTally(felt, e), CountWhere(felt, FeltIn(e)) > 0, e)
    decreases |ts|
  {
    if ts == [] {
      NoTally(ts, e);
    } else {
      var l := |ts| - 1;
      ReplayTally(t, ts[..l], steps[..l], e);
      ProcessStoredTally(RunAll(t, steps[..l]).emotions, ts[l], steps[l].faults, e);
      WorkerTallyAppend(Took(ts[..l], steps[..l], EmotionTook()), ts[l], e);
    }
  }

  // ---- years that the event text cannot carry ----

  /** The trade as the worker hears of it. */
  function WithReparsed(t: Trade): Trade { t.(entryAt := Reparsed(t.entryAt)) }

  function AsHeard(ts: seq<Trade>): seq<Trade> {
    seq(|ts|, i requires 0 <= i < |ts| => WithReparsed(ts[i]))
  }

  lemma {:induction false} HeardDecodes(steps: seq<Step>, ts: seq<Trade>)
    requires Decodes(steps, ts)
    ensures Decodes(steps, AsHeard(ts)) && AllPrintable(AsHeard(ts))
  {
  }

  lemma {:induction false} TookHeard(ts: seq<Trade>, steps: seq<Step>, p: Step -> bool)
    requires |ts| == |steps|
    ensures Took(AsHeard(ts), steps, p) == AsHeard(Took(ts, steps, p))
  {
    if ts != [] {
      var l := |ts| - 1;
      TookHeard(ts[..l], steps[..l], p);
      assert AsHeard(ts)[..l] == AsHeard(ts[..l]);
    }
  }

  ghost predicate ClosedPrintable(ts: seq<Trade>) {
    forall i :: 0 <= i < |ts| && ts[i].status == Closed ==> Printable(ts[i].entryAt)
  }

  ghost predicate FeltPrintable(ts: seq<Trade>) {
    forall i :: 0 <= i < |ts| && ts[i].status == Closed && ts[i].emotion.Some? ==> Printable(ts[i].entryAt)
  }

  lemma {:induction false} HeardInHour(t: Trade, k: RowKey)
    requires t.status == Closed ==> Printable(t.entryAt)
    ensures InHour(WithReparsed(t), k) <==> InHour(t, k)
  {
    ReparsedBuckets(t.entryAt, t.entryAt);
  }

  lemma {:induction false} HeardInDay(t: Trade, e: EmotionKey)
    requires t.status == Closed && t.emotion.Some? ==> Printable(t.entryAt)
    ensures InDay(WithReparsed(t), e) <==> InDay(t, e)
  {
    ReparsedBuckets(t.entryAt, t.entryAt);
  }

  lemma {:induction false} HeardRow(ts: seq<Trade>, k: RowKey)
    requires ClosedPrintable(ts)
    ensures SeedRow(AsHeard(ts), k) == SeedRow(ts, k) && WorkerRow(AsHeard(ts), k) == WorkerRow(ts, k)
  {
    var hs := AsHeard(ts);
    forall i | 0 <= i < |ts| ensures InHour(hs[i], k) <==> InHour(ts[i], k) { HeardInHour(ts[i], k); }
    CountSame(hs, ts, ClosedIn(k), ClosedIn(k));
    CountSame(hs, ts, WonIn(k), WonIn(k));
    CountSame(hs, ts, LostIn(k), LostIn(k));
    CountSame(hs, ts, UndecidedIn(k), UndecidedIn(k));
    CountSame(hs, ts, FlaggedIn(k), FlaggedIn(k));
    TotalSame(hs, ts, PnlIn(k), PnlIn(k));
  }

  lemma {:induction false} HeardTally(ts: seq<Trade>, e: EmotionKey)
    requires FeltPrintable(ts)
    ensures SeedTally(AsHeard(ts), e) == SeedTally(ts, e) && WorkerTally(AsHeard(ts), e) == WorkerTally(ts, e)
    ensures CountWhere(AsHeard(ts), FeltIn(e)) == CountWhere(ts, FeltIn(e))
  {
    var hs := AsHeard(ts);
    forall i | 0 <= i < |ts| ensures InDay(hs[i], e) <==> InDay(ts[i], e) { HeardInDay(ts[i], e); }
    CountSame(hs, ts, FeltIn(e), FeltIn(e));
    CountSame(hs, ts, FeltWonIn(e), FeltWonIn(e));
    CountSame(hs, ts, FeltLostIn(e), FeltLostIn(e));
    CountSame(hs, ts, FeltUndecidedIn(e), FeltUndecidedIn(e));
  }

  // ---- tables that a batch statement filled ----

  /** The tables are the two batch statements over ts, in the columns that both sides maintain. */
  ghost predicate SeededFrom(t: Tables, ts: seq<Trade>) {
    CountColumns(t.rows) == SeedRows(ts) && t.emotions == SeedEmotions(ts)
  }

  lemma {:induction false} EmptyIsSeeded()
    ensures SeededFrom(EMPTY_TABLES, [])
  {
    var none: seq<Trade> := [];
    assert SeedRows(none) == map[] && CountColumns(map[]) == map[] && SeedEmotions(none) == map[];
  }

  lemma {:induction false} NothingTotal<T>(ts: seq<T>, f: T -> int)
    requires forall i :: 0 <= i < |ts| ==> f(ts[i]) == 0
    ensures Total(ts, f) == 0
  {
    if ts != [] { NothingTotal(ts[..|ts| - 1], f); }
  }

  lemma {:induction false} EmptyHour(ts: seq<Trade>, k: RowKey)
    requires CountWhere(ts, ClosedIn(k)) == 0
    ensures SeedRow(ts, k) == Counts(0, 0, 0, 0, 0)
  {
    CountZero(ts, ClosedIn(k));
    assert forall i :: 0 <= i < |ts| ==> !ClosedIn(k)(ts[i]);
    CountZero(ts, WonIn(k));
    CountZero(ts, LostIn(k));
    CountZero(ts, FlaggedIn(k));
    NothingTotal(ts, PnlIn(k));
  }

  lemma {:induction false} EmptyDay(ts: seq<Trade>, e: EmotionKey)
    requires CountWhere(ts, FeltIn(e)) == 0
    ensures SeedTally(ts, e) == Tally(0, 0) && WorkerTally(ts, e) == Tally(0, 0)
  {
    CountZero(ts, FeltIn(e));
    assert forall i :: 0 <= i < |ts| ==> !FeltIn(e)(ts[i]);
    CountZero(ts, FeltWonIn(e));
    CountZero(ts, FeltLostIn(e));
    CountZero(ts, FeltUndecidedIn(e));
  }

  /** Being a batch statement's answer, row by row. */
  lemma {:induction false} SeededCell(rows: map<RowKey, Row>, ts: seq<Trade>, k: RowKey)
    requires CountColumns(rows) == SeedRows(ts)
    ensures k in rows <==> CountWhere(ts, ClosedIn(k)) > 0
    ensures Projected(Cell(rows, k)) == SeedRow(ts, k)
  {
    SeedRowKeys(ts, k);
    assert k in rows <==> k in CountColumns(rows);
    if k in rows {
      assert CountColumns(rows)[k] == Projected(rows[k]);
    } else {
      EmptyHour(ts, k);
    }
  }

  lemma {:induction false} RowsAreSeeded(rows: map<RowKey, Row>, ts: seq<Trade>)
    requires forall k :: k in rows <==> CountWhere(ts, ClosedIn(k)) > 0
    requires forall k :: Projected(Cell(rows, k)) == SeedRow(ts, k)
    ensures CountColumns(rows) == SeedRows(ts)
  {
    forall k: RowKey
      ensures k in CountColumns(rows) <==> k in SeedRows(ts)
      ensures k in rows ==> CountColumns(rows)[k] == SeedRows(ts)[k]
    {
      SeedRowKeys(ts, k);
      assert Projected(Cell(rows, k)) == SeedRow(ts, k);
    }
  }

  lemma {:induction false} SeededTally(emotions: map<EmotionKey, Tally>, ts: seq<Trade>, e: EmotionKey)
    requires emotions == SeedEmotions(ts)
    ensures e in emotions <==> CountWhere(ts, FeltIn(e)) > 0
    ensures Tallied(emotions, e) == SeedTally(ts, e)
  {
    SeedEmotionKeys(ts, e);
    if e !in emotions { EmptyDay(ts, e); }
  }

  lemma {:induction false} TalliesAreSeeded(emotions: map<EmotionKey, Tally>, ts: seq<Trade>)
    requires forall e :: e in emotions <==> CountWhere(ts, FeltIn(e)) > 0
    requires forall e :: Tallied(emotions, e) == SeedTally(ts, e)
    ensures emotions == SeedEmotions(ts)
  {
    forall e: EmotionKey
      ensures e in emotions <==> e in SeedEmotions(ts)
      ensures e in emotions ==> emotions[e] == SeedEmotions(ts)[e]
    {
      SeedEmotionKeys(ts, e);
      assert Tallied(emotions, e) == SeedTally(ts, e);
    }
  }

  // ---- incremental equals batch ----

  /** The closed trades with an emotion have an outcome. */
  ghost predicate FeltDecided(ts: seq<Trade>) {
    forall i :: 0 <= i < |ts| && ts[i].status == Closed && ts[i].emotion.Some? ==> ts[i].outcome.Some?
  }

  /** Every row that a stray event wrote also counts some trade. */
  ghost predicate StraysCovered(steps: seq<Step>, ts: seq<Trade>) {
    forall k :: StrayAt(steps, k) ==> CountWhere(ts, ClosedIn(k)) > 0
  }

  /** r is the batch row of the seeded trades and the worker's reading of the heard ones together. */
  ghost predicate RowTogether(r: Counts, seeded: seq<Trade>, heard: seq<Trade>, k: RowKey) {
    var x, y := SeedRow(seeded, k), WorkerRow(heard, k);
    && r.trades == x.trades + y.trades && r.wins == x.wins + y.wins && r.losses == x.losses + y.losses
    && r.pnl == x.pnl + y.pnl && r.revenge == x.revenge + y.revenge
  }

  ghost predicate TallyTogether(r: Tally, seeded: seq<Trade>, heard: seq<Trade>, e: EmotionKey) {
    var x, y := SeedTally(seeded, e), WorkerTally(heard, e);
    r.wins == x.wins + y.wins && r.losses == x.losses + y.losses
  }

  /** Row k in terms of seeded and processed trades, as the worker hears of the latter. */
  lemma {:induction false} HeardCell(t: Tables, seeded: seq<Trade>, ts: seq<Trade>, steps: seq<Step>, k: RowKey)
    requires Decodes(steps, ts) && CountColumns(t.rows) == SeedRows(seeded)
    ensures var rows, heard := RunAll(t, steps).rows, AsHeard(Took(ts, steps, CountsTook()));
            && (k in rows <==> CountWhere(seeded, ClosedIn(k)) > 0 || CountWhere(heard, ClosedIn(k)) > 0
                               || StrayAt(steps, k))
            && RowTogether(Projected(Cell(rows, k)), seeded, heard, k)
  {
    HeardDecodes(steps, ts);
    TookHeard(ts, steps, CountsTook());
    ReplayRow(t, AsHeard(ts), steps, k);
    SeededCell(t.rows, seeded, k);
  }

  lemma {:induction false} ReplayHeardTally(t: Tables, ts: seq<Trade>, steps: seq<Step>, e: EmotionKey)
    requires Decodes(steps, ts)
    ensures var heard := AsHeard(Took(ts, steps, EmotionTook()));
            TallyGrown(t.emotions, RunAll(t, steps).emotions, WorkerTally(heard, e),
                       CountWhere(heard, FeltIn(e)) > 0, e)
  {
    HeardDecodes(steps, ts);
    TookHeard(ts, steps, EmotionTook());
    ReplayTally(t, AsHeard(ts), steps, e);
  }

  lemma {:induction false} HeardTallied(t: Tables, seeded: seq<Trade>, ts: seq<Trade>, steps: seq<Step>, e: EmotionKey)
    requires Decodes(steps, ts) && t.emotions == SeedEmotions(seeded)
    ensures var emotions, heard := RunAll(t, steps).emotions, AsHeard(Took(ts, steps, EmotionTook()));
            && (e in emotions <==> CountWhere(seeded, FeltIn(e)) > 0 || CountWhere(heard, FeltIn(e)) > 0)
            && TallyTogether(Tallied(emotions, e), seeded, heard, e)
  {
    var heard := AsHeard(Took(ts, steps, EmotionTook()));
    ReplayHeardTally(t, ts, steps, e);
    SeededTally(t.emotions, seeded, e);
  }

  // what the batch says of the union of two bags, against what the worker adds to the batch over the first

  lemma {:induction false} DecidedUnion(seeded: seq<Trade>, counted: seq<Trade>, k: RowKey)
    requires ClosedPrintable(counted) && AllDecided(counted)
    ensures RowTogether(SeedRow(seeded + counted, k), seeded, AsHeard(counted), k)
    ensures CountWhere(AsHeard(counted), ClosedIn(k)) == CountWhere(counted, ClosedIn(k))
  {
    HeardRow(counted, k);
    SeedRowConcat(seeded, counted, k);
    CountZero(counted, UndecidedIn(k));
  }

  lemma {:induction false} DecidedTallyUnion(seeded: seq<Trade>, felt: seq<Trade>, e: EmotionKey)
    requires FeltPrintable(felt) && FeltDecided(felt)
    ensures TallyTogether(SeedTally(seeded + felt, e), seeded, AsHeard(felt), e)
    ensures CountWhere(AsHeard(felt), FeltIn(e)) == CountWhere(felt, FeltIn(e))
  {
    HeardTally(felt, e);
    SeedTallyConcat(seeded, felt, e);
    CountZero(felt, FeltUndecidedIn(e));
  }

  /** In the hour of a closed trade whose year the text cannot carry, the worker hears of nothing. */
  lemma {:induction false} UnionPrints(seeded: seq<Trade>, counted: seq<Trade>, i: nat)
    requires i < |counted| && counted[i].status == Closed
    requires var k := HourKey(counted[i]);
             RowTogether(SeedRow(seeded + counted, k), seeded, AsHeard(counted), k)
    ensures Printable(counted[i].entryAt)
  {
    var k, heard := HourKey(counted[i]), AsHeard(counted);
    assert CountWhere(heard, ClosedIn(k)) > 0 by {
      SeedRowConcat(seeded, counted, k);
      CountZero(counted, ClosedIn(k));
      assert ClosedIn(k)(counted[i]);
    }
    CountZero(heard, ClosedIn(k));
    var j :| 0 <= j < |heard| && ClosedIn(k)(heard[j]);
    ReparsedBuckets(counted[i].entryAt, counted[j].entryAt);
  }

  lemma {:induction false} UnionDecides(seeded: seq<Trade>, counted: seq<Trade>, i: nat)
    requires ClosedPrintable(counted) && i < |counted| && counted[i].status == Closed
    requires var k := HourKey(counted[i]);
             RowTogether(SeedRow(seeded + counted, k), seeded, AsHeard(counted), k)
    ensures counted[i].outcome.Some?
  {
    var k := HourKey(counted[i]);
    HeardRow(counted, k);
    SeedRowConcat(seeded, counted, k);
    CountZero(counted, UndecidedIn(k));
    assert !UndecidedIn(k)(counted[i]);
  }

  lemma {:induction false} DecidedFelt(felt: seq<Trade>, i: nat, e: EmotionKey)
    requires i < |felt| && InDay(felt[i], e) && felt[i].outcome.Some?
    ensures 0 < SeedTally(felt, e).wins + SeedTally(felt, e).losses
  {
    CountZero(felt, FeltWonIn(e));
    CountZero(felt, FeltLostIn(e));
    assert !FeltWonIn(e)(felt[i]) ==> FeltLostIn(e)(felt[i]) by {
      match felt[i].outcome.value case Win => case Loss =>
    }
  }

  /** A decided trade that both sides agree on has a year that the text can carry. */
  lemma {:induction false} TallyPrints(seeded: seq<Trade>, felt: seq<Trade>, i: nat)
    requires i < |felt| && felt[i].status == Closed && felt[i].emotion.Some? && felt[i].outcome.Some?
    requires var e := DayKey(felt[i]);
             TallyTogether(SeedTally(seeded + felt, e), seeded, AsHeard(felt), e)
    ensures Printable(felt[i].entryAt)
  {
    var e, heard := DayKey(felt[i]), AsHeard(felt);
    assert CountWhere(heard, FeltIn(e)) > 0 by {
      SeedTallyConcat(seeded, felt, e);
      DecidedFelt(felt, i, e);
      if CountWhere(heard, FeltIn(e)) == 0 { EmptyDay(heard, e); }
    }
    CountZero(heard, FeltIn(e));
    var j :| 0 <= j < |heard| && FeltIn(e)(heard[j]);
    ReparsedBuckets(felt[i].entryAt, felt[j].entryAt);
  }

  lemma {:induction false} UndecidedLosses(seeded: seq<Trade>, felt: seq<Trade>, heard: seq<Trade>, e: EmotionKey)
    requires TallyTogether(SeedTally(seeded + felt, e), seeded, heard, e)
    requires CountWhere(heard, FeltLostIn(e)) == CountWhere(felt, FeltLostIn(e))
    ensures CountWhere(heard, FeltUndecidedIn(e)) == 0
  {
    SeedTallyConcat(seeded, felt, e);
  }

  lemma {:induction false} HeardLost(t: Trade, e: EmotionKey)
    requires t.status == Closed && t.emotion.Some? && t.outcome.Some? ==> Printable(t.entryAt)
    ensures FeltLostIn(e)(WithReparsed(t)) <==> FeltLostIn(e)(t)
  {
    if t.outcome.Some? { HeardInDay(t, e); }
  }

  lemma {:induction false} SameLosses(felt: seq<Trade>, e: EmotionKey)
    requires forall j :: 0 <= j < |felt| && felt[j].status == Closed && felt[j].emotion.Some? && felt[j].outcome.Some?
               ==> Printable(felt[j].entryAt)
    ensures CountWhere(AsHeard(felt), FeltLostIn(e)) == CountWhere(felt, FeltLostIn(e))
  {
    var heard := AsHeard(felt);
    forall j | 0 <= j < |felt| ensures FeltLostIn(e)(heard[j]) <==> FeltLostIn(e)(felt[j]) {
      HeardLost(felt[j], e);
    }
    CountSame(heard, felt, FeltLostIn(e), FeltLostIn(e));
  }

  /** When all decided trades are printable, agreement on the day that the worker hears decides every trade. */
  lemma {:induction false} TallyDecides(seeded: seq<Trade>, felt: seq<Trade>, i: nat)
    requires i < |felt| && felt[i].status == Closed && felt[i].emotion.Some?
    requires forall j :: 0 <= j < |felt| && felt[j].status == Closed && felt[j].emotion.Some? && felt[j].outcome.Some?
               ==> Printable(felt[j].entryAt)
    requires var e := DayKey(AsHeard(felt)[i]);
             TallyTogether(SeedTally(seeded + felt, e), seeded, AsHeard(felt), e)
    ensures felt[i].outcome.Some?
  {
    var heard := AsHeard(felt);
    var e := DayKey(heard[i]);
    SameLosses(felt, e);
    UndecidedLosses(seeded, felt, heard, e);
    CountZero(heard, FeltUndecidedIn(e));
    assert !FeltUndecidedIn(e)(heard[i]);
  }

  // ---- the two theorems ----

  /**
   Whatever the order, the repetitions and the failures, on top of the batch over some trades:
   behavioral_metrics is the batch over those trades and the ones whose counts took effect exactly
   when each closed one of the latter has an outcome and a year that the event text can carry, and
   every row that was written counts some trade.
   */
  lemma {:induction false} IncrementalEqualsBatch(t: Tables, seeded: seq<Trade>, ts: seq<Trade>, steps: seq<Step>)
    requires Decodes(steps, ts) && CountColumns(t.rows) == SeedRows(seeded)
    ensures var rows, counted := RunAll(t, steps).rows, Took(ts, steps, CountsTook());
            CountColumns(rows) == SeedRows(seeded + counted)
            <==> AllDecided(counted) && ClosedPrintable(counted) && StraysCovered(steps, seeded + counted)
  {
    var rows, counted := RunAll(t, steps).rows, Took(ts, steps, CountsTook());
    if AllDecided(counted) && ClosedPrintable(counted) && StraysCovered(steps, seeded + counted) {
      DecidedRows(t, seeded, ts, steps);
    }
    if CountColumns(rows) == SeedRows(seeded + counted) {
      forall k ensures RowTogether(SeedRow(seeded + counted, k), seeded, AsHeard(counted), k)
               ensures StrayAt(steps, k) ==> CountWhere(seeded + counted, ClosedIn(k)) > 0
      {
        HeardCell(t, seeded, ts, steps, k);
        SeededCell(rows, seeded + counted, k);
      }
      forall i | 0 <= i < |counted| && counted[i].status == Closed ensures Printable(counted[i].entryAt) {
        UnionPrints(seeded, counted, i);
      }
      forall i | 0 <= i < |counted| && counted[i].status == Closed ensures counted[i].outcome.Some? {
        UnionDecides(seeded, counted, i);
      }
    }
  }

  lemma {:induction false} DecidedRows(t: Tables, seeded: seq<Trade>, ts: seq<Trade>, steps: seq<Step>)
    requires Decodes(steps, ts) && CountColumns(t.rows) == SeedRows(seeded)
    requires var counted := Took(ts, steps, CountsTook());
             AllDecided(counted) && ClosedPrintable(counted) && StraysCovered(steps, seeded + counted)
    ensures CountColumns(RunAll(t, steps).rows) == SeedRows(seeded + Took(ts, steps, CountsTook()))
  {
    var rows, counted := RunAll(t, steps).rows, Took(ts, steps, CountsTook());
    forall k
      ensures k in rows <==> CountWhere(seeded + counted, ClosedIn(k)) > 0
      ensures Projected(Cell(rows, k)) == SeedRow(seeded + counted, k)
    {
      HeardCell(t, seeded, ts, steps, k);
      DecidedUnion(seeded, counted, k);
      CountConcat(seeded, counted, ClosedIn(k));
    }
    RowsAreSeeded(rows, seeded + counted);
  }

  /** And emotion_win_rates likewise, over the trades whose emotion statement took effect. */
  lemma {:induction false} IncrementalTallies(t: Tables, seeded: seq<Trade>, ts: seq<Trade>, steps: seq<Step>)
    requires Decodes(steps, ts) && t.emotions == SeedEmotions(seeded)
    ensures var emotions, felt := RunAll(t, steps).emotions, Took(ts, steps, EmotionTook());
            emotions == SeedEmotions(seeded + felt) <==> FeltDecided(felt) && FeltPrintable(felt)
  {
    var emotions, felt := RunAll(t, steps).emotions, Took(ts, steps, EmotionTook());
    if FeltDecided(felt) && FeltPrintable(felt) {
      DecidedTallies(t, seeded, ts, steps);
    }
    if emotions == SeedEmotions(seeded + felt) {
      forall e ensures TallyTogether(SeedTally(seeded + felt, e), seeded, AsHeard(felt), e) {
        HeardTallied(t, seeded, ts, steps, e);
        SeededTally(emotions, seeded + felt, e);
      }
      forall i | 0 <= i < |felt| && felt[i].status == Closed && felt[i].emotion.Some? && felt[i].outcome.Some?
        ensures Printable(felt[i].entryAt)
      {
        TallyPrints(seeded, felt, i);
      }
      forall i | 0 <= i < |felt| && felt[i].status == Closed && felt[i].emotion.Some? ensures felt[i].outcome.Some? {
        TallyDecides(seeded, felt, i);
      }
    }
  }

  lemma {:induction false} DecidedTallies(t: Tables, seeded: seq<Trade>, ts: seq<Trade>, steps: seq<Step>)
    requires Decodes(steps, ts) && t.emotions == SeedEmotions(seeded)
    requires var felt := Took(ts, steps, EmotionTook()); FeltDecided(felt) && FeltPrintable(felt)
    ensures RunAll(t, steps).emotions == SeedEmotions(seeded + Took(ts, steps, EmotionTook()))
  {
    var emotions, felt := RunAll(t, steps).emotions, Took(ts, steps, EmotionTook());
    forall e
      ensures e in emotions <==> CountWhere(seeded + felt, FeltIn(e)) > 0
      ensures Tallied(emotions, e) == SeedTally(seeded + felt, e)
    {
      HeardTallied(t, seeded, ts, steps, e);
      DecidedTallyUnion(seeded, felt, e);
      CountConcat(seeded, felt, FeltIn(e));
    }
    TalliesAreSeeded(emotions, seeded + felt);
  }

  // ---- a whole table ----

  /** The seeded trades and those whose statements took effect are the ones that the batch statements read. */
  ghost predicate OnceEach(table: seq<Trade>, seeded: seq<Trade>, ts: seq<Trade>, steps: seq<Step>)
    requires |ts| == |steps|
  {
    && multiset(Where(seeded + Took(ts, steps, CountsTook()), IsClosed())) == multiset(Where(table, IsClosed()))
    && multiset(Where(seeded + Took(ts, steps, EmotionTook()), IsFelt())) == multiset(Where(table, IsFelt()))
  }

  /**
   When every closed trade of a table is seeded or had its statements take effect exactly once, in
   any order and with any other failures, the two tables are the batch statements over that table.
   */
  lemma {:induction false} AnyOrderEqualsBatch(table: seq<Trade>, t: Tables, seeded: seq<Trade>,
                                               ts: seq<Trade>, steps: seq<Step>)
    requires Decodes(steps, ts) && SeededFrom(t, seeded) && OnceEach(table, seeded, ts, steps)
    requires (forall trade :: trade in ts ==> trade in table) && AllDecided(ts) && ClosedPrintable(ts)
    ensures SeededFrom(RunAll(t, steps), table)
  {
    var counted, felt := Took(ts, steps, CountsTook()), Took(ts, steps, EmotionTook());
    OnceEachSeeds(table, seeded, ts, steps);
    TookFrom(ts, steps, CountsTook());
    TookFrom(ts, steps, EmotionTook());
    Subset(ts, counted);
    Subset(ts, felt);
    StraysInTable(table, seeded + counted, ts, steps);
    IncrementalEqualsBatch(t, seeded, ts, steps);
    IncrementalTallies(t, seeded, ts, steps);
  }

  lemma {:induction false} OnceEachSeeds(table: seq<Trade>, seeded: seq<Trade>, ts: seq<Trade>, steps: seq<Step>)
    requires |ts| == |steps| && OnceEach(table, seeded, ts, steps)
    ensures SeedRows(seeded + Took(ts, steps, CountsTook())) == SeedRows(table)
    ensures SeedEmotions(seeded + Took(ts, steps, EmotionTook())) == SeedEmotions(table)
  {
    var counted, felt := Took(ts, steps, CountsTook()), Took(ts, steps, EmotionTook());
    SeedClosedOnly(table);
    SeedClosedOnly(seeded + counted);
    SeedClosedOnly(seeded + felt);
    SeedBag(Where(seeded + counted, IsClosed()), Where(table, IsClosed()));
    SeedBag(Where(seeded + felt, IsFelt()), Where(table, IsFelt()));
  }

  lemma {:induction false} Subset(all: seq<Trade>, ts: seq<Trade>)
    requires AllDecided(all) && ClosedPrintable(all) && forall t :: t in ts ==> t in all
    ensures AllDecided(ts) && ClosedPrintable(ts) && FeltDecided(ts) && FeltPrintable(ts)
  {
    forall i | 0 <= i < |ts| && ts[i].status == Closed ensures ts[i].outcome.Some? && Printable(ts[i].entryAt) {
      assert ts[i] in all;
      var j :| 0 <= j < |all| && all[j] == ts[i];
    }
  }

  lemma {:induction false} StraysInTable(table: seq<Trade>, counted: seq<Trade>, ts: seq<Trade>, steps: seq<Step>)
    requires Decodes(steps, ts) && ClosedPrintable(ts) && forall t :: t in ts ==> t in table
    requires multiset(Where(counted, IsClosed())) == multiset(Where(table, IsClosed()))
    ensures StraysCovered(steps, counted)
  {
    forall k | StrayAt(steps, k) ensures CountWhere(counted, ClosedIn(k)) > 0 {
      var i :| 0 <= i < |steps| && IsStray(steps[i], k);
      assert ts[i] in table;
      var j :| 0 <= j < |table| && table[j] == ts[i];
      StoredKeys(ts[i]);
      CountZero(table, ClosedIn(k));
      assert ClosedIn(k)(table[j]);
      WhereThenCount(table, IsClosed(), ClosedIn(k));
      WhereThenCount(counted, IsClosed(), ClosedIn(k));
      CountBag(Where(counted, IsClosed()), Where(table, IsClosed()), ClosedIn(k));
    }
  }
}
