/**
 The batch recomputation of the two metrics tables, and the fold over events that the worker makes. A
 relation is listed as a sequence; `SeedBag` shows the listing order is irrelevant to the batch
 statements.
 */
module Batch {
  import opened Prelude
  import opened Timeline
  import opened Domain
  import opened EventCodec
  import opened Sums
  import opened Query
  import opened MetricsTable

  // ---- the seed's aggregating statements ----

  predicate InHour(t: Trade, k: RowKey) {
    t.status == Closed && SqlHour(t.entryAt) == k.bucket && t.userId == k.user
  }

  predicate InDay(t: Trade, k: EmotionKey) {
    t.status == Closed && t.emotion == Some(k.emotion) && SqlDay(t.entryAt) == k.day && t.userId == k.user
  }

  function HourKey(t: Trade): RowKey { RowKey(SqlHour(t.entryAt), t.userId) }

  function DayKey(t: Trade): EmotionKey
    requires t.emotion.Some?
  {
    EmotionKey(t.userId, t.emotion.value, SqlDay(t.entryAt))
  }

  // the FILTER clauses
  function ClosedIn(k: RowKey): Trade -> bool { (t: Trade) => InHour(t, k) }
  function WonIn(k: RowKey): Trade -> bool { (t: Trade) => InHour(t, k) && t.outcome == Some(Win) }
  function LostIn(k: RowKey): Trade -> bool { (t: Trade) => InHour(t, k) && t.outcome == Some(Loss) }
  function UndecidedIn(k: RowKey): Trade -> bool { (t: Trade) => InHour(t, k) && t.outcome == None }
  function FlaggedIn(k: RowKey): Trade -> bool { (t: Trade) => InHour(t, k) && t.revenge }
  function PnlIn(k: RowKey): Trade -> int { (t: Trade) => if InHour(t, k) then t.pnl.GetOr(0) else 0 }

  function FeltIn(k: EmotionKey): Trade -> bool { (t: Trade) => InDay(t, k) }
  function FeltWonIn(k: EmotionKey): Trade -> bool { (t: Trade) => InDay(t, k) && t.outcome == Some(Win) }
  function FeltLostIn(k: EmotionKey): Trade -> bool { (t: Trade) => InDay(t, k) && t.outcome == Some(Loss) }
  function FeltUndecidedIn(k: EmotionKey): Trade -> bool { (t: Trade) => InDay(t, k) && t.outcome == None }

  /** The count columns of a behavioral_metrics row. */
  datatype Counts = Counts(trades: int, wins: int, losses: int, pnl: int, revenge: int)

  ghost function SeedRow(ts: seq<Trade>, k: RowKey): Counts {
    Counts(CountWhere(ts, ClosedIn(k)), CountWhere(ts, WonIn(k)), CountWhere(ts, LostIn(k)),
           Total(ts, PnlIn(k)), CountWhere(ts, FlaggedIn(k)))
  }

  ghost function SeedTally(ts: seq<Trade>, e: EmotionKey): Tally {
    Tally(CountWhere(ts, FeltWonIn(e)), CountWhere(ts, FeltLostIn(e)))
  }

  /** GROUP BY date_trunc('hour', entry_at), user_id over the closed trades. */
  ghost function SeedRows(ts: seq<Trade>): map<RowKey, Counts> {
    map k | k in (set i | 0 <= i < |ts| && ts[i].status == Closed :: HourKey(ts[i])) :: SeedRow(ts, k)
  }

  /** GROUP BY user_id, emotional_state, entry_at::date over the closed trades with an emotion. */
  ghost function SeedEmotions(ts: seq<Trade>): map<EmotionKey, Tally> {
    map e | e in (set i | 0 <= i < |ts| && ts[i].status == Closed && ts[i].emotion.Some? :: DayKey(ts[i])) ::
      SeedTally(ts, e)
  }

  lemma {:induction false} SeedRowKeys(ts: seq<Trade>, k: RowKey)
    ensures k in SeedRows(ts) <==> CountWhere(ts, ClosedIn(k)) > 0
    ensures k in SeedRows(ts) ==> SeedRows(ts)[k] == SeedRow(ts, k)
  {
    CountZero(ts, ClosedIn(k));
    if i :| 0 <= i < |ts| && InHour(ts[i], k) { assert k == HourKey(ts[i]); }
  }

  lemma {:induction false} SeedEmotionKeys(ts: seq<Trade>, e: EmotionKey)
    ensures e in SeedEmotions(ts) <==> CountWhere(ts, FeltIn(e)) > 0
    ensures e in SeedEmotions(ts) ==> SeedEmotions(ts)[e] == SeedTally(ts, e)
  {
    CountZero(ts, FeltIn(e));
    if i :| 0 <= i < |ts| && InDay(ts[i], e) { assert e == DayKey(ts[i]); }
  }

  /** The batch statements read a bag of trades. */
  lemma {:induction false} SeedBag(a: seq<Trade>, b: seq<Trade>)
    requires multiset(a) == multiset(b)
    ensures SeedRows(a) == SeedRows(b) && SeedEmotions(a) == SeedEmotions(b)
  {
    forall k: RowKey
      ensures k in SeedRows(a) <==> k in SeedRows(b)
      ensures k in SeedRows(a) ==> SeedRows(a)[k] == SeedRows(b)[k]
    {
      CountBag(a, b, ClosedIn(k));
      CountBag(a, b, WonIn(k));
      CountBag(a, b, LostIn(k));
      TotalBag(a, b, PnlIn(k));
      CountBag(a, b, FlaggedIn(k));
      SeedRowKeys(a, k);
      SeedRowKeys(b, k);
    }
    forall e: EmotionKey
      ensures e in SeedEmotions(a) <==> e in SeedEmotions(b)
      ensures e in SeedEmotions(a) ==> SeedEmotions(a)[e] == SeedEmotions(b)[e]
    {
      CountBag(a, b, FeltIn(e));
      CountBag(a, b, FeltWonIn(e));
      CountBag(a, b, FeltLostIn(e));
      SeedEmotionKeys(a, e);
      SeedEmotionKeys(b, e);
    }
  }

  lemma {:induction false} SeedRowConcat(a: seq<Trade>, b: seq<Trade>, k: RowKey)
    ensures var r, x, y := SeedRow(a + b, k), SeedRow(a, k), SeedRow(b, k);
            && r.trades == x.trades + y.trades && r.wins == x.wins + y.wins && r.losses == x.losses + y.losses
            && r.pnl == x.pnl + y.pnl && r.revenge == x.revenge + y.revenge
    ensures k in SeedRows(a + b) <==> k in SeedRows(a) || k in SeedRows(b)
  {
    CountConcat(a, b, ClosedIn(k));
    CountConcat(a, b, WonIn(k));
    CountConcat(a, b, LostIn(k));
    TotalConcat(a, b, PnlIn(k));
    CountConcat(a, b, FlaggedIn(k));
    SeedRowKeys(a, k);
    SeedRowKeys(b, k);
    SeedRowKeys(a + b, k);
  }

  lemma {:induction false} SeedTallyConcat(a: seq<Trade>, b: seq<Trade>, e: EmotionKey)
    ensures var r, x, y := SeedTally(a + b, e), SeedTally(a, e), SeedTally(b, e);
            r.wins == x.wins + y.wins && r.losses == x.losses + y.losses
    ensures e in SeedEmotions(a + b) <==> e in SeedEmotions(a) || e in SeedEmotions(b)
  {
    CountConcat(a, b, FeltIn(e));
    CountConcat(a, b, FeltWonIn(e));
    CountConcat(a, b, FeltLostIn(e));
    SeedEmotionKeys(a, e);
    SeedEmotionKeys(b, e);
    SeedEmotionKeys(a + b, e);
  }

  function IsClosed(): Trade -> bool { (t: Trade) => t.status == Closed }

  function IsFelt(): Trade -> bool { (t: Trade) => t.status == Closed && t.emotion.Some? }

  /** The batch statements see only closed trades, and the second one only those with an emotion. */
  lemma {:induction false} SeedClosedOnly(ts: seq<Trade>)
    ensures SeedRows(Where(ts, IsClosed())) == SeedRows(ts)
    ensures SeedEmotions(Where(ts, IsFelt())) == SeedEmotions(ts)
  {
    var closed, felt := Where(ts, IsClosed()), Where(ts, IsFelt());
    forall k: RowKey
      ensures k in SeedRows(closed) <==> k in SeedRows(ts)
      ensures k in SeedRows(ts) ==> SeedRows(closed)[k] == SeedRows(ts)[k]
    {
      WhereThenCount(ts, IsClosed(), ClosedIn(k));
      WhereThenCount(ts, IsClosed(), WonIn(k));
      WhereThenCount(ts, IsClosed(), LostIn(k));
      WhereThenTotal(ts, IsClosed(), PnlIn(k));
      WhereThenCount(ts, IsClosed(), FlaggedIn(k));
      SeedRowKeys(ts, k);
      SeedRowKeys(closed, k);
    }
    forall e: EmotionKey
      ensures e in SeedEmotions(felt) <==> e in SeedEmotions(ts)
      ensures e in SeedEmotions(ts) ==> SeedEmotions(felt)[e] == SeedEmotions(ts)[e]
    {
      WhereThenCount(ts, IsFelt(), FeltIn(e));
      WhereThenCount(ts, IsFelt(), FeltWonIn(e));
      WhereThenCount(ts, IsFelt(), FeltLostIn(e));
      SeedEmotionKeys(ts, e);
      SeedEmotionKeys(felt, e);
    }
  }

  // ---- runs of the worker ----

  /** One processed event: what was decoded, what was read, which statements left no trace. */
  datatype Step = Step(m: Message, seen: Reads, faults: Faults)

  function RunAll(t: Tables, steps: seq<Step>): Tables {
    if steps == [] then t
    else
      var s := steps[|steps| - 1];
      Process(RunAll(t, steps[..|steps| - 1]), s.m, s.seen, s.faults)
  }

  lemma {:induction false} RunAllLast(t: Tables, steps: seq<Step>, last: Step)
    ensures RunAll(t, steps + [last]) == Process(RunAll(t, steps), last.m, last.seen, last.faults)
  {
    assert (steps + [last])[..|steps|] == steps;
  }

  lemma {:induction false} RunAllConcat(t: Tables, a: seq<Step>, b: seq<Step>)
    ensures RunAll(t, a + b) == RunAll(RunAll(t, a), b)
    decreases |b|
  {
    if b == [] {
      assert a + b == a;
    } else {
      assert (a + b)[..|a + b| - 1] == a + b[..|b| - 1];
      RunAllConcat(t, a, b[..|b| - 1]);
    }
  }

  function Projected(r: Row): Counts { Counts(r.trades, r.wins, r.losses, r.pnl, r.revenge) }

  function CountColumns(rows: map<RowKey, Row>): map<RowKey, Counts> {
    map k | k in rows :: Projected(rows[k])
  }

  /** The steps process exactly the decoded events of ts, in that order. */
  ghost predicate Decodes(steps: seq<Step>, ts: seq<Trade>) {
    |steps| == |ts| && forall i :: 0 <= i < |ts| ==> steps[i].m == MessageOf(ts[i])
  }

  // which of a step's statements took effect
  function CountsTook(): Step -> bool { (s: Step) => !s.faults.counts }

  function EmotionTook(): Step -> bool { (s: Step) => !s.faults.emotion }

  /** The trades whose steps satisfy p. */
  function Took(ts: seq<Trade>, steps: seq<Step>, p: Step -> bool): seq<Trade>
    requires |ts| == |steps|
  {
    if ts == [] then []
    else
      var l := |ts| - 1;
      var init := Took(ts[..l], steps[..l], p);
      if p(steps[l]) then init + [ts[l]] else init
  }

  lemma {:induction false} TookFrom(ts: seq<Trade>, steps: seq<Step>, p: Step -> bool)
    requires |ts| == |steps|
    ensures forall t :: t in Took(ts, steps, p) ==> t in ts
  {
    if ts != [] { TookFrom(ts[..|ts| - 1], steps[..|ts| - 1], p); }
  }

  function Tallied(emotions: map<EmotionKey, Tally>, k: EmotionKey): Tally {
    if k in emotions then emotions[k] else Tally(0, 0)
  }

  /** One more trade, as the worker counts it: what is no win is a loss. */
  predicate AddsTrade(r: Counts, prev: Counts, trade: Trade) {
    var won := trade.outcome == Some(Win);
    && r.trades == prev.trades + 1
    && r.wins == prev.wins + (if won then 1 else 0) && r.losses == prev.losses + (if won then 0 else 1)
    && r.pnl == prev.pnl + trade.pnl.GetOr(0) && r.revenge == prev.revenge + (if trade.revenge then 1 else 0)
  }

  predicate AddsOutcome(r: Tally, prev: Tally, trade: Trade) {
    var won := trade.outcome == Some(Win);
    r.wins == prev.wins + (if won then 1 else 0) && r.losses == prev.losses + (if won then 0 else 1)
  }

  /** The worker's reading of a bag: an undecided trade is one more loss. */
  ghost function WorkerRow(ts: seq<Trade>, k: RowKey): Counts {
    var r := SeedRow(ts, k);
    r.(losses := r.losses + CountWhere(ts, UndecidedIn(k)))
  }

  ghost function WorkerTally(ts: seq<Trade>, e: EmotionKey): Tally {
    var r := SeedTally(ts, e);
    r.(losses := r.losses + CountWhere(ts, FeltUndecidedIn(e)))
  }

  lemma {:induction false} WorkerRowAppend(ts: seq<Trade>, trade: Trade, k: RowKey)
    ensures var before, after := WorkerRow(ts, k), WorkerRow(ts + [trade], k);
            if InHour(trade, k) then AddsTrade(after, before, trade) else after == before
  {
    CountAppend(ts, trade, ClosedIn(k));
    CountAppend(ts, trade, WonIn(k));
    CountAppend(ts, trade, LostIn(k));
    CountAppend(ts, trade, UndecidedIn(k));
    CountAppend(ts, trade, FlaggedIn(k));
    TotalAppend(ts, trade, PnlIn(k));
    assert trade.outcome in {None, Some(Win), Some(Loss)} by {
      if trade.outcome.Some? { match trade.outcome.value case Win => case Loss => }
    }
  }

  lemma {:induction false} WorkerTallyAppend(ts: seq<Trade>, trade: Trade, e: EmotionKey)
    ensures var before, after := WorkerTally(ts, e), WorkerTally(ts + [trade], e);
            if InDay(trade, e) then AddsOutcome(after, before, trade) else after == before
    ensures CountWhere(ts + [trade], FeltIn(e)) == CountWhere(ts, FeltIn(e)) + if InDay(trade, e) then 1 else 0
  {
    CountAppend(ts, trade, FeltIn(e));
    CountAppend(ts, trade, FeltWonIn(e));
    CountAppend(ts, trade, FeltLostIn(e));
    CountAppend(ts, trade, FeltUndecidedIn(e));
    assert trade.outcome in {None, Some(Win), Some(Loss)} by {
      if trade.outcome.Some? { match trade.outcome.value case Win => case Loss => }
    }
  }

  lemma {:induction false} NoRow(ts: seq<Trade>, k: RowKey)
    requires ts == []
    ensures WorkerRow(ts, k) == Counts(0, 0, 0, 0, 0)
  {
  }

  lemma {:induction false} NoTally(ts: seq<Trade>, e: EmotionKey)
    requires ts == []
    ensures WorkerTally(ts, e) == Tally(0, 0)
  {
  }

  ghost predicate AllDecided(ts: seq<Trade>) {
    forall i :: 0 <= i < |ts| && ts[i].status == Closed ==> ts[i].outcome.Some?
  }

  /** Undecided closed trades do arrive: one without an exit price is valid and is stored without outcome. */
  lemma {:induction false} ClosedWithoutExit(t: TradeInput)
    ensures StoredTrade(BuildDraft(t)).outcome.None? <==> t.status != Closed || t.exitPrice.None?
    ensures var open := TradeInput("t", "u", "s", Long, 1.0, None, 1.0, 0, None, Closed, None, None);
            var stored := StoredTrade(BuildDraft(open));
            ValidInput(open) && Storable(stored) && !AllDecided([stored])
  {
    var open := TradeInput("t", "u", "s", Long, 1.0, None, 1.0, 0, None, Closed, None, None);
    var stored := StoredTrade(BuildDraft(open));
    assert |"t"| == 1 && |"u"| == 1 && |"s"| == 1;
    assert [stored][0].status == Closed && [stored][0].outcome == None;
    assert Numeric8(1.0) == 100_000_000;
  }

  // ---- the win/loss partition ----

  predicate Partitioned(r: Row) {
    0 <= r.wins && 0 <= r.losses && r.wins + r.losses == r.trades && 0 <= r.revenge <= r.trades
  }

  predicate Bounded(r: Row) {
    0 <= r.wins && 0 <= r.losses && r.wins + r.losses <= r.trades && 0 <= r.revenge <= r.trades
  }

  predicate AllPartitioned(rows: map<RowKey, Row>) { forall k :: k in rows ==> Partitioned(rows[k]) }

  predicate AllBounded(rows: map<RowKey, Row>) { forall k :: k in rows ==> Bounded(rows[k]) }

  /**
   Whatever statements fail, wins and losses partition the trades of every row built from empty
   tables, and from a seeded table they never exceed them. Counts never go down.
   */
  lemma {:induction false} PartitionKept(t: Tables, steps: seq<Step>)
    ensures AllPartitioned(t.rows) ==> AllPartitioned(RunAll(t, steps).rows)
    ensures AllBounded(t.rows) ==> AllBounded(RunAll(t, steps).rows)
    ensures forall k :: k in t.rows ==>
              k in RunAll(t, steps).rows && t.rows[k].trades <= RunAll(t, steps).rows[k].trades
    decreases |steps|
  {
    if steps != [] {
      var l := |steps| - 1;
      PartitionKept(t, steps[..l]);
      OneUpsertPerEvent(RunAll(t, steps[..l]).rows, steps[l].m, steps[l].seen, steps[l].faults);
    }
  }

  /** In a seeded row wins, losses and undecided trades add up to the trades. */
  lemma {:induction false} SeedBounded(ts: seq<Trade>, k: RowKey)
    requires k in SeedRows(ts)
    ensures var r := SeedRows(ts)[k];
            && 0 <= r.wins && 0 <= r.losses && 0 <= r.revenge <= r.trades
            && r.wins + r.losses + CountWhere(ts, UndecidedIn(k)) == r.trades
  {
    SeedRowKeys(ts, k);
    CountWeaken(ts, FlaggedIn(k), ClosedIn(k));
    OutcomesPartition(ts, k);
  }

  lemma {:induction false} OutcomesPartition(ts: seq<Trade>, k: RowKey)
    ensures WorkerRow(ts, k).wins + WorkerRow(ts, k).losses == WorkerRow(ts, k).trades
  {
    if ts == [] {
      NoRow(ts, k);
    } else {
      var l := |ts| - 1;
      assert ts == ts[..l] + [ts[l]];
      OutcomesPartition(ts[..l], k);
      WorkerRowAppend(ts[..l], ts[l], k);
    }
  }

  /** Seeded rows are bounded; they are partitioned exactly when every closed trade has an outcome. */
  lemma {:induction false} SeededRows(rows: map<RowKey, Row>, ts: seq<Trade>)
    requires CountColumns(rows) == SeedRows(ts)
    ensures AllBounded(rows)
    ensures AllPartitioned(rows) <==> AllDecided(ts)
  {
    forall k | k in rows ensures Bounded(rows[k]) && (AllDecided(ts) ==> Partitioned(rows[k])) {
      SeededRow(rows, ts, k);
      CountZero(ts, UndecidedIn(k));
    }
    if AllPartitioned(rows) {
      forall i | 0 <= i < |ts| && ts[i].status == Closed ensures ts[i].outcome.Some? {
        var k := HourKey(ts[i]);
        SeedRowKeys(ts, k);
        CountZero(ts, ClosedIn(k));
        assert ClosedIn(k)(ts[i]);
        assert k in CountColumns(rows);
        SeededRow(rows, ts, k);
        CountZero(ts, UndecidedIn(k));
        assert !UndecidedIn(k)(ts[i]);
      }
    }
  }

  lemma {:induction false} SeededRow(rows: map<RowKey, Row>, ts: seq<Trade>, k: RowKey)
    requires CountColumns(rows) == SeedRows(ts) && k in rows
    ensures Bounded(rows[k])
    ensures rows[k].trades == rows[k].wins + rows[k].losses + CountWhere(ts, UndecidedIn(k))
  {
    assert Projected(rows[k]) == CountColumns(rows)[k];
    SeedBounded(ts, k);
  }

  // ---- rounding ----

  /** The exact profit of the closed drafts of a bucket. */
  ghost function ExactPnl(ds: seq<Draft>, k: RowKey): real {
    if ds == [] then 0.0
    else
      var d := ds[|ds| - 1];
      ExactPnl(ds[..|ds| - 1], k) + (if InHour(StoredTrade(d), k) then d.pnl.GetOr(0.0) else 0.0)
  }

  /** A bucket total over n trades is within n half-units of the exact sum. */
  lemma {:induction false} PnlDrift(ds: seq<Draft>, ts: seq<Trade>, k: RowKey)
    requires |ds| == |ts| && forall i :: 0 <= i < |ts| ==> ts[i] == StoredTrade(ds[i])
    ensures var drift := Total(ts, PnlIn(k)) as real - ExactPnl(ds, k) * UNITS;
            var n := CountWhere(ts, ClosedIn(k)) as real;
            -0.5 * n <= drift <= 0.5 * n
    decreases |ts|
  {
    if ts == [] {
      CountZero(ts, ClosedIn(k));
    } else {
      var l := |ts| - 1;
      assert ts == ts[..l] + [ts[l]];
      PnlDrift(ds[..l], ts[..l], k);
      WorkerRowAppend(ts[..l], ts[l], k);
      var exact := ds[l].pnl.GetOr(0.0);
      RoundedBounds(exact * UNITS);
      assert ts[l].pnl.GetOr(0) == (if ds[l].pnl.Some? then Numeric8(exact) else 0);
      assert (ExactPnl(ds[..l], k) + exact) * UNITS == ExactPnl(ds[..l], k) * UNITS + exact * UNITS;
    }
  }
}
