/**
 The behavioral_metrics and emotion_win_rates tables: INSERT ... ON CONFLICT DO UPDATE as a merge,
 its algebra, and the statements that the worker issues for one event.
 */
module MetricsTable {
  import opened Prelude
  import opened Timeline
  import opened Domain
  import opened EventCodec
  import opened Sums

  datatype RowKey = RowKey(bucket: int, user: string)

  /** plan and tilt are NUMERIC(5,4), in 1e-4 units; pnl is NUMERIC(18,8), in 1e-8 units. */
  datatype Row = Row(trades: int, wins: int, losses: int, pnl: int,
                     plan: Option<int>, tilt: Option<int>, revenge: int, overtrading: int)

  datatype EmotionKey = EmotionKey(user: string, emotion: Emotion, day: int)

  datatype Tally = Tally(wins: int, losses: int)

  datatype Tables = Tables(rows: map<RowKey, Row>, emotions: map<EmotionKey, Tally>)

  const EMPTY_ROW := Row(0, 0, 0, 0, None, None, 0, 0)
  const EMPTY_TABLES := Tables(map[], map[])

  function Coalesce<T>(a: Option<T>, b: Option<T>): Option<T> {
    if a.Some? then a else b
  }

  function Merge(cur: Row, add: Row): Row {
    Row(cur.trades + add.trades, cur.wins + add.wins, cur.losses + add.losses, cur.pnl + add.pnl,
        Coalesce(add.plan, cur.plan), Coalesce(add.tilt, cur.tilt),
        cur.revenge + add.revenge, cur.overtrading + add.overtrading)
  }

  function MergeTally(cur: Tally, add: Tally): Tally {
    Tally(cur.wins + add.wins, cur.losses + add.losses)
  }

  function Upsert(rows: map<RowKey, Row>, k: RowKey, add: Row): map<RowKey, Row> {
    rows[k := if k in rows then Merge(rows[k], add) else add]
  }

  function UpsertTally(emotions: map<EmotionKey, Tally>, k: EmotionKey, add: Tally): map<EmotionKey, Tally> {
    emotions[k := if k in emotions then MergeTally(emotions[k], add) else add]
  }

  // ---- the statements of one event ----

  /** What the two reads of the trades table returned; None after an error or an empty list. */
  datatype Reads = Reads(plan: Option<real>, tilt: Option<real>)

  /**
   Which write statements left no trace: the call failed, a column overflowed, or the worker died
   before it. The worker logs an error and goes on, so nothing else depends on them.
   */
  datatype Faults = Faults(counts: bool, plan: bool, tilt: bool, emotion: bool)

  function KeyOf(m: Message): RowKey {
    RowKey(GoHour(m.entryAt), m.userId)
  }

  function CountsOf(m: Message): Row {
    Row(1, if m.won then 1 else 0, if m.won then 0 else 1, m.pnl, None, None, if m.revenge then 1 else 0, 0)
  }

  function PlanOf(x: real): Row { EMPTY_ROW.(plan := Some(Numeric4(x))) }

  function TiltOf(x: real): Row { EMPTY_ROW.(tilt := Some(Numeric4(x))) }

  function TallyOf(m: Message): Tally {
    Tally(if m.won then 1 else 0, if m.won then 0 else 1)
  }

  predicate WritesPlan(m: Message, r: Reads, f: Faults) { m.hasPlan && r.plan.Some? && !f.plan }

  predicate WritesTilt(m: Message, r: Reads, f: Faults) { m.sessionId != "" && r.tilt.Some? && !f.tilt }

  function ProcessRows(rows: map<RowKey, Row>, m: Message, r: Reads, f: Faults): map<RowKey, Row> {
    if !m.closed then rows
    else
      var k := KeyOf(m);
      var rows := if f.counts then rows else Upsert(rows, k, CountsOf(m));
      var rows := if WritesPlan(m, r, f) then Upsert(rows, k, PlanOf(r.plan.value)) else rows;
      if WritesTilt(m, r, f) then Upsert(rows, k, TiltOf(r.tilt.value)) else rows
  }

  function ProcessEmotions(emotions: map<EmotionKey, Tally>, m: Message, f: Faults): map<EmotionKey, Tally> {
    if m.closed && m.emotion.Known? && !f.emotion then
      UpsertTally(emotions, EmotionKey(m.userId, m.emotion.emotion, GoDay(m.entryAt)), TallyOf(m))
    else emotions
  }

  /** processMessage's changes to the two tables, statement by statement. */
  function Process(t: Tables, m: Message, r: Reads, f: Faults): Tables {
    Tables(ProcessRows(t.rows, m, r, f), ProcessEmotions(t.emotions, m, f))
  }

  // ---- algebra ----

  /** Merge is an associative operation with the all-zero row as identity. */
  lemma {:induction false} MergeMonoid(a: Row, b: Row, c: Row)
    ensures Merge(Merge(a, b), c) == Merge(a, Merge(b, c))
    ensures Merge(a, EMPTY_ROW) == a && Merge(EMPTY_ROW, a) == a
  {
  }

  function Cell(rows: map<RowKey, Row>, k: RowKey): Row {
    if k in rows then rows[k] else EMPTY_ROW
  }

  /** Two upserts on one key are one upsert of the merged row; on different keys they commute. */
  lemma {:induction false} UpsertPair(rows: map<RowKey, Row>, k: RowKey, a: Row, j: RowKey, b: Row)
    ensures k == j ==> Upsert(Upsert(rows, k, a), j, b) == Upsert(rows, k, Merge(a, b))
    ensures k != j ==> Upsert(Upsert(rows, k, a), j, b) == Upsert(Upsert(rows, j, b), k, a)
  {
  }

  /** The combined row of one event. */
  function Combined(m: Message, r: Reads, f: Faults): Row {
    Row(if f.counts then 0 else 1,
        if f.counts then 0 else CountsOf(m).wins, if f.counts then 0 else CountsOf(m).losses,
        if f.counts then 0 else m.pnl,
        if WritesPlan(m, r, f) then Some(Numeric4(r.plan.value)) else None,
        if WritesTilt(m, r, f) then Some(Numeric4(r.tilt.value)) else None,
        if f.counts then 0 else CountsOf(m).revenge, 0)
  }

  predicate Touches(m: Message, r: Reads, f: Faults) {
    m.closed && (!f.counts || WritesPlan(m, r, f) || WritesTilt(m, r, f))
  }

  /** The up to three partial upserts of an event are one combined upsert. */
  lemma {:induction false} OneUpsertPerEvent(rows: map<RowKey, Row>, m: Message, r: Reads, f: Faults)
    ensures ProcessRows(rows, m, r, f)
            == if Touches(m, r, f) then Upsert(rows, KeyOf(m), Combined(m, r, f)) else rows
  {
    if m.closed {
      var k := KeyOf(m);
      var rows1 := if f.counts then rows else Upsert(rows, k, CountsOf(m));
      var rows2 := if WritesPlan(m, r, f) then Upsert(rows1, k, PlanOf(r.plan.value)) else rows1;
      var part := if f.counts then PlanOf(r.plan.GetOr(0.0))
                  else if WritesPlan(m, r, f) then Merge(CountsOf(m), PlanOf(r.plan.value)) else CountsOf(m);
      if !f.counts && WritesPlan(m, r, f) {
        UpsertPair(rows, k, CountsOf(m), k, PlanOf(r.plan.value));
      }
      if WritesTilt(m, r, f) && (!f.counts || WritesPlan(m, r, f)) {
        assert rows2 == Upsert(rows, k, part);
        UpsertPair(rows, k, part, k, TiltOf(r.tilt.value));
      }
    }
  }

  /** From `before` to `after` the row has counted one trade of the message. */
  predicate CountedOnce(before: Row, after: Row, m: Message) {
    && after.trades == before.trades + 1
    && after.wins == before.wins + (if m.won then 1 else 0) && after.losses == before.losses + (if m.won then 0 else 1)
    && after.pnl == before.pnl + m.pnl && after.revenge == before.revenge + (if m.revenge then 1 else 0)
  }

  predicate SameCounts(before: Row, after: Row) {
    && after.trades == before.trades && after.wins == before.wins && after.losses == before.losses
    && after.pnl == before.pnl && after.revenge == before.revenge
  }

  /** A ratio column is replaced by x, to the nearest 1e-4, or stays as it was. */
  predicate Replaced(before: Option<int>, after: Option<int>, written: bool, x: Option<real>) {
    if written && x.Some? then after.Some? && IsNumeric4(after.value, x.value) else after == before
  }

  /**
   What a message does to row k, with these reads and faults. Only the row of its user and the hour of its
   entry is touched, and only if it is of a closed trade: one trade is counted there, a win if it was won and
   otherwise a loss, its pnl and its flag are added, unless the statement left no trace, and the two averages
   are replaced by what was read. The overtrading column never changes.
   */
  predicate RowEffect(rows: map<RowKey, Row>, later: map<RowKey, Row>, m: Message, r: Reads, f: Faults, k: RowKey) {
    if !m.closed || k.user != m.userId || k.bucket != m.entryAt - m.entryAt % 3_600_000_000_000 then
      (k in later <==> k in rows) && (k in rows ==> later[k] == rows[k])
    else
      var before := if k in rows then rows[k] else Row(0, 0, 0, 0, None, None, 0, 0);
      var after := if k in later then later[k] else Row(0, 0, 0, 0, None, None, 0, 0);
      && (k in later <==> || k in rows || !f.counts || (m.hasPlan && !f.plan && r.plan.Some?)
                          || (m.sessionId != "" && !f.tilt && r.tilt.Some?))
      && (if f.counts then SameCounts(before, after) else CountedOnce(before, after, m))
      && Replaced(before.plan, after.plan, m.hasPlan && !f.plan, r.plan)
      && Replaced(before.tilt, after.tilt, m.sessionId != "" && !f.tilt, r.tilt)
      && after.overtrading == before.overtrading
  }

  lemma {:induction false} EventEffect(rows: map<RowKey, Row>, m: Message, r: Reads, f: Faults, k: RowKey)
    ensures RowEffect(rows, ProcessRows(rows, m, r, f), m, r, f, k)
  {
    OriginsAgree(m.entryAt);
    OneUpsertPerEvent(rows, m, r, f);
    if r.plan.Some? { StoredNearest(r.plan.value); }
    if r.tilt.Some? { StoredNearest(r.tilt.value); }
  }

  /** And to a tally: that of its user, its emotion and the day of its entry counts the win or the loss. */
  predicate TallyEffect(emotions: map<EmotionKey, Tally>, later: map<EmotionKey, Tally>, m: Message, fails: bool,
                        k: EmotionKey)
  {
    if || !m.closed || fails || m.emotion != Known(k.emotion) || k.user != m.userId
       || k.day != m.entryAt - m.entryAt % 86_400_000_000_000 then
      (k in later <==> k in emotions) && (k in emotions ==> later[k] == emotions[k])
    else
      && k in later
      && later[k].wins == (if k in emotions then emotions[k].wins else 0) + (if m.won then 1 else 0)
      && later[k].losses == (if k in emotions then emotions[k].losses else 0) + (if m.won then 0 else 1)
  }

  lemma {:induction false} EmotionEffect(emotions: map<EmotionKey, Tally>, m: Message, f: Faults, k: EmotionKey)
    ensures TallyEffect(emotions, ProcessEmotions(emotions, m, f), m, f.emotion, k)
  {
    OriginsAgree(m.entryAt);
  }

  // ---- any sequence of upserts ----

  function ApplyAll(rows: map<RowKey, Row>, us: seq<(RowKey, Row)>): map<RowKey, Row> {
    if us == [] then rows
    else
      var (k, add) := us[|us| - 1];
      Upsert(ApplyAll(rows, us[..|us| - 1]), k, add)
  }

  /** Batch boundaries do not matter. */
  lemma {:induction false} ApplyConcat(rows: map<RowKey, Row>, us: seq<(RowKey, Row)>, vs: seq<(RowKey, Row)>)
    ensures ApplyAll(rows, us + vs) == ApplyAll(ApplyAll(rows, us), vs)
    decreases |vs|
  {
    if vs == [] {
      assert us + vs == us;
    } else {
      assert (us + vs)[..|us + vs| - 1] == us + vs[..|vs| - 1];
      ApplyConcat(rows, us, vs[..|vs| - 1]);
    }
  }

  datatype Column = Trades | Wins | Losses | Pnl | Revenge | Overtrading

  function Col(r: Row, c: Column): int {
    match c
    case Trades => r.trades
    case Wins => r.wins
    case Losses => r.losses
    case Pnl => r.pnl
    case Revenge => r.revenge
    case Overtrading => r.overtrading
  }

  function ColumnAt(k: RowKey, c: Column): ((RowKey, Row)) -> int {
    (u: (RowKey, Row)) => if u.0 == k then Col(u.1, c) else 0
  }

  /** The last non-null value that the upserts supply for a COALESCE column of row k. */
  function LastPlan(us: seq<(RowKey, Row)>, k: RowKey): Option<int> {
    if us == [] then None
    else
      var (j, add) := us[|us| - 1];
      if j == k && add.plan.Some? then add.plan else LastPlan(us[..|us| - 1], k)
  }

  function LastTilt(us: seq<(RowKey, Row)>, k: RowKey): Option<int> {
    if us == [] then None
    else
      var (j, add) := us[|us| - 1];
      if j == k && add.tilt.Some? then add.tilt else LastTilt(us[..|us| - 1], k)
  }

  /** A row after any upserts: additive columns add up, COALESCE columns keep the last value given. */
  lemma {:induction false} ApplyAllCell(rows: map<RowKey, Row>, us: seq<(RowKey, Row)>, k: RowKey, c: Column)
    ensures k in ApplyAll(rows, us) <==> k in rows || exists i :: 0 <= i < |us| && us[i].0 == k
    ensures Col(Cell(ApplyAll(rows, us), k), c) == Col(Cell(rows, k), c) + Total(us, ColumnAt(k, c))
    ensures Cell(ApplyAll(rows, us), k).plan == Coalesce(LastPlan(us, k), Cell(rows, k).plan)
    ensures Cell(ApplyAll(rows, us), k).tilt == Coalesce(LastTilt(us, k), Cell(rows, k).tilt)
  {
    if us != [] {
      var init, last := us[..|us| - 1], us[|us| - 1];
      ApplyAllCell(rows, init, k, c);
      assert us == init + [last];
      assert us[|us| - 1].0 == last.0;
      assert forall i :: 0 <= i < |init| ==> us[i] == init[i];
      if k in ApplyAll(rows, us) && k !in rows && last.0 != k {
        var i :| 0 <= i < |init| && init[i].0 == k;
        assert us[i].0 == k;
      }
      if i :| 0 <= i < |us| && us[i].0 == k && last.0 != k {
        assert init[i].0 == k;
      }
    }
  }

  /** Which rows exist and what their additive columns hold does not depend on the order of events. */
  lemma {:induction false} AdditiveOrderFree(rows: map<RowKey, Row>, us: seq<(RowKey, Row)>, vs: seq<(RowKey, Row)>,
                                             k: RowKey, c: Column)
    requires multiset(us) == multiset(vs)
    ensures k in ApplyAll(rows, us) <==> k in ApplyAll(rows, vs)
    ensures Col(Cell(ApplyAll(rows, us), k), c) == Col(Cell(ApplyAll(rows, vs), k), c)
  {
    ApplyAllCell(rows, us, k, c);
    ApplyAllCell(rows, vs, k, c);
    TotalBag(us, vs, ColumnAt(k, c));
    if i :| 0 <= i < |us| && us[i].0 == k {
      assert us[i] in multiset(vs);
    }
    if i :| 0 <= i < |vs| && vs[i].0 == k {
      assert vs[i] in multiset(us);
    }
  }
}
