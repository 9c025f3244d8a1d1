/**
 Conservation between the two metrics tables: for a user and a UTC day, the hourly rows count every
 processed trade and the emotion rows every processed trade that carried an emotion.
 */
module Conservation {
  import opened Prelude
  import opened Timeline
  import opened Domain
  import opened EventCodec
  import opened Sums
  import opened MetricsTable
  import opened Batch
  import opened Incremental

  ghost function HoursOf(rows: map<RowKey, Row>, user: string, day: int): set<RowKey> {
    set k | k in rows && k.user == user && SqlDay(k.bucket) == day
  }

  function ColumnOf(rows: map<RowKey, Row>, c: Column): RowKey -> int {
    (k: RowKey) => Col(Cell(rows, k), c)
  }

  /** The sum of a column over the hourly rows of one user and UTC day. */
  ghost function DaySum(rows: map<RowKey, Row>, user: string, day: int, c: Column): int {
    SumSet(HoursOf(rows, user, day), ColumnOf(rows, c))
  }

  ghost function MoodsOf(emotions: map<EmotionKey, Tally>, user: string, day: int): set<EmotionKey> {
    set e | e in emotions && e.user == user && e.day == day
  }

  function TallyCol(x: Tally, winsOnly: bool): int {
    if winsOnly then x.wins else x.wins + x.losses
  }

  function TalliesOf(emotions: map<EmotionKey, Tally>, winsOnly: bool): EmotionKey -> int {
    (e: EmotionKey) => TallyCol(Tallied(emotions, e), winsOnly)
  }

  /** The sum over emotions of wins + losses (or of wins) of one user and UTC day. */
  ghost function MoodSum(emotions: map<EmotionKey, Tally>, user: string, day: int, winsOnly: bool): int {
    SumSet(MoodsOf(emotions, user, day), TalliesOf(emotions, winsOnly))
  }

  lemma {:induction false} DaySumUpsert(rows: map<RowKey, Row>, k: RowKey, add: Row, user: string, day: int, c: Column)
    ensures DaySum(Upsert(rows, k, add), user, day, c)
            == DaySum(rows, user, day, c)
               + if k.user == user && SqlDay(k.bucket) == day then Col(add, c) else 0
  {
    var rows' := Upsert(rows, k, add);
    var s, s' := HoursOf(rows, user, day), HoursOf(rows', user, day);
    var f, f' := ColumnOf(rows, c), ColumnOf(rows', c);
    if k.user == user && SqlDay(k.bucket) == day {
      assert s' == s + {k} && s' - {k} == s - {k};
      SumRemove(s', k, f');
      SumExt(s - {k}, f, f');
      if k in s { SumRemove(s, k, f); } else { assert s - {k} == s; }
    } else {
      assert s' == s;
      SumExt(s, f, f');
    }
  }

  lemma {:induction false} MoodSumUpsert(emotions: map<EmotionKey, Tally>, e: EmotionKey, add: Tally,
                                         user: string, day: int, winsOnly: bool)
    ensures MoodSum(UpsertTally(emotions, e, add), user, day, winsOnly)
            == MoodSum(emotions, user, day, winsOnly)
               + if e.user == user && e.day == day then TallyCol(add, winsOnly) else 0
  {
    var emotions' := UpsertTally(emotions, e, add);
    var s, s' := MoodsOf(emotions, user, day), MoodsOf(emotions', user, day);
    var f, f' := TalliesOf(emotions, winsOnly), TalliesOf(emotions', winsOnly);
    if e.user == user && e.day == day {
      assert s' == s + {e} && s' - {e} == s - {e};
      SumRemove(s', e, f');
      SumExt(s - {e}, f, f');
      if e in s { SumRemove(s, e, f); } else { assert s - {e} == s; }
    } else {
      assert s' == s;
      SumExt(s, f, f');
    }
  }

  predicate OnDay(m: Message, user: string, day: int) {
    m.closed && m.userId == user && GoDay(m.entryAt) == day
  }

  function Counting(winsOnly: bool): Column { if winsOnly then Wins else Trades }

  predicate InDayRows(s: Step, user: string, day: int, winsOnly: bool) {
    OnDay(s.m, user, day) && !s.faults.counts && (winsOnly ==> s.m.won)
  }

  predicate InDayMoods(s: Step, user: string, day: int, winsOnly: bool) {
    OnDay(s.m, user, day) && s.m.emotion.Known? && !s.faults.emotion && (winsOnly ==> s.m.won)
  }

  /**
   An event in the day's hourly rows only: it carried no emotion that the database knows, or its
   emotion statement failed, or has not been issued yet.
   */
  function Unfelt(user: string, day: int, winsOnly: bool): Step -> bool {
    (s: Step) => InDayRows(s, user, day, winsOnly) && !InDayMoods(s, user, day, winsOnly)
  }

  /** An event in the day's emotion rows only: its counts statement failed. */
  function Uncounted(user: string, day: int, winsOnly: bool): Step -> bool {
    (s: Step) => InDayMoods(s, user, day, winsOnly) && !InDayRows(s, user, day, winsOnly)
  }

  /** How many of the day's trades (or wins) the emotion rows do not show. */
  ghost function Gap(t: Tables, user: string, day: int, winsOnly: bool): int {
    DaySum(t.rows, user, day, Counting(winsOnly)) - MoodSum(t.emotions, user, day, winsOnly)
  }

  lemma {:induction false} DaySumStep(t: Tables, s: Step, user: string, day: int, winsOnly: bool)
    ensures DaySum(ProcessRows(t.rows, s.m, s.seen, s.faults), user, day, Counting(winsOnly))
            == DaySum(t.rows, user, day, Counting(winsOnly)) + if InDayRows(s, user, day, winsOnly) then 1 else 0
  {
    OneUpsertPerEvent(t.rows, s.m, s.seen, s.faults);
    if Touches(s.m, s.seen, s.faults) {
      DaySumUpsert(t.rows, KeyOf(s.m), Combined(s.m, s.seen, s.faults), user, day, Counting(winsOnly));
      OriginsAgree(s.m.entryAt);
      DayOfHour(s.m.entryAt);
    }
  }

  lemma {:induction false} MoodSumStep(t: Tables, s: Step, user: string, day: int, winsOnly: bool)
    ensures MoodSum(ProcessEmotions(t.emotions, s.m, s.faults), user, day, winsOnly)
            == MoodSum(t.emotions, user, day, winsOnly) + if InDayMoods(s, user, day, winsOnly) then 1 else 0
  {
    var m := s.m;
    if m.closed && m.emotion.Known? && !s.faults.emotion {
      MoodSumUpsert(t.emotions, EmotionKey(m.userId, m.emotion.emotion, GoDay(m.entryAt)), TallyOf(m),
                    user, day, winsOnly);
    }
  }

  /**
   Whatever statements fail, the gap between the two tables is moved by exactly the events that
   reached one of them and not the other.
   */
  lemma {:induction false} GapLaw(t: Tables, steps: seq<Step>, user: string, day: int, winsOnly: bool)
    ensures Gap(RunAll(t, steps), user, day, winsOnly)
            == Gap(t, user, day, winsOnly) + CountWhere(steps, Unfelt(user, day, winsOnly))
               - CountWhere(steps, Uncounted(user, day, winsOnly))
    decreases |steps|
  {
    if steps == [] {
      CountZero(steps, Unfelt(user, day, winsOnly));
      CountZero(steps, Uncounted(user, day, winsOnly));
    } else {
      var l := |steps| - 1;
      GapLaw(t, steps[..l], user, day, winsOnly);
      DaySumStep(RunAll(t, steps[..l]), steps[l], user, day, winsOnly);
      MoodSumStep(RunAll(t, steps[..l]), steps[l], user, day, winsOnly);
      assert steps == steps[..l] + [steps[l]];
      CountAppend(steps[..l], steps[l], Unfelt(user, day, winsOnly));
      CountAppend(steps[..l], steps[l], Uncounted(user, day, winsOnly));
    }
  }

  // ---- what the seed statements leave out ----

  /** A seeded trade in the day's hourly rows (or among their wins). */
  function SeededRowsOf(user: string, day: int, winsOnly: bool): Trade -> bool {
    (t: Trade) => t.status == Closed && t.userId == user && SqlDay(t.entryAt) == day
                  && (winsOnly ==> t.outcome == Some(Win))
  }

  /** A seeded trade in the day's emotion rows. */
  function SeededMoodsOf(user: string, day: int, winsOnly: bool): Trade -> bool {
    (t: Trade) => t.status == Closed && t.userId == user && SqlDay(t.entryAt) == day
                  && (winsOnly ==> t.outcome == Some(Win)) && t.emotion.Some? && t.outcome.Some?
  }

  /** A seeded trade in the day's hourly rows only: it has no emotion, or no outcome. */
  function SeedUnfelt(user: string, day: int, winsOnly: bool): Trade -> bool {
    (t: Trade) => t.status == Closed && t.userId == user && SqlDay(t.entryAt) == day
                  && (winsOnly ==> t.outcome == Some(Win)) && !(t.emotion.Some? && t.outcome.Some?)
  }

  function RowsAt(winsOnly: bool): RowKey -> Trade -> bool {
    (k: RowKey) => if winsOnly then WonIn(k) else ClosedIn(k)
  }

  function DecidedIn(e: EmotionKey): Trade -> bool { (t: Trade) => InDay(t, e) && t.outcome.Some? }

  function MoodsAt(winsOnly: bool): EmotionKey -> Trade -> bool {
    (e: EmotionKey) => if winsOnly then FeltWonIn(e) else DecidedIn(e)
  }

  function MoodKey(t: Trade): EmotionKey {
    EmotionKey(t.userId, t.emotion.GetOr(Neutral), SqlDay(t.entryAt))
  }

  lemma {:induction false} SeededDaySum(rows: map<RowKey, Row>, ts: seq<Trade>, user: string, day: int, winsOnly: bool)
    requires CountColumns(rows) == SeedRows(ts)
    ensures DaySum(rows, user, day, Counting(winsOnly)) == CountWhere(ts, SeededRowsOf(user, day, winsOnly))
  {
    var keys, p := HoursOf(rows, user, day), SeededRowsOf(user, day, winsOnly);
    forall k, t | k in keys ensures RowsAt(winsOnly)(k)(t) <==> p(t) && HourKey(t) == k {
      DayOfHour(t.entryAt);
    }
    forall t | t in ts && p(t) ensures HourKey(t) in keys {
      var i :| 0 <= i < |ts| && ts[i] == t;
      DayOfHour(t.entryAt);
      assert HourKey(t) in CountColumns(rows);
    }
    CountByGroup(ts, keys, p, RowsAt(winsOnly), HourKey);
    forall k | k in keys ensures ColumnOf(rows, Counting(winsOnly))(k) == CountsAt(ts, RowsAt(winsOnly))(k) {
      SeededCell(rows, ts, k);
    }
    SumExt(keys, ColumnOf(rows, Counting(winsOnly)), CountsAt(ts, RowsAt(winsOnly)));
  }

  lemma {:induction false} SeededMood(emotions: map<EmotionKey, Tally>, ts: seq<Trade>, e: EmotionKey, winsOnly: bool)
    requires emotions == SeedEmotions(ts)
    ensures TallyCol(Tallied(emotions, e), winsOnly) == CountWhere(ts, MoodsAt(winsOnly)(e))
  {
    SeededTally(emotions, ts, e);
    forall t ensures DecidedIn(e)(t) <==> FeltWonIn(e)(t) || FeltLostIn(e)(t) {
      if t.outcome.Some? { match t.outcome.value case Win => case Loss => }
    }
    CountSplit(ts, DecidedIn(e), FeltWonIn(e), FeltLostIn(e));
  }

  lemma {:induction false} MoodKeyIs(t: Trade, e: EmotionKey)
    ensures InDay(t, e) <==> t.status == Closed && t.emotion.Some? && MoodKey(t) == e
  {
  }

  lemma {:induction false} SeededMoodSum(emotions: map<EmotionKey, Tally>, ts: seq<Trade>, user: string, day: int,
                                         winsOnly: bool)
    requires emotions == SeedEmotions(ts)
    ensures MoodSum(emotions, user, day, winsOnly) == CountWhere(ts, SeededMoodsOf(user, day, winsOnly))
  {
    var keys, p := MoodsOf(emotions, user, day), SeededMoodsOf(user, day, winsOnly);
    forall e, t | e in keys ensures MoodsAt(winsOnly)(e)(t) <==> p(t) && MoodKey(t) == e {
      MoodKeyIs(t, e);
    }
    forall t | t in ts && p(t) ensures MoodKey(t) in keys {
      var i :| 0 <= i < |ts| && ts[i] == t;
      MoodKeyIs(t, MoodKey(t));
      CountZero(ts, FeltIn(MoodKey(t)));
      assert FeltIn(MoodKey(t))(ts[i]);
      SeedEmotionKeys(ts, MoodKey(t));
    }
    CountByGroup(ts, keys, p, MoodsAt(winsOnly), MoodKey);
    forall e | e in keys ensures TalliesOf(emotions, winsOnly)(e) == CountsAt(ts, MoodsAt(winsOnly))(e) {
      SeededMood(emotions, ts, e, winsOnly);
    }
    SumExt(keys, TalliesOf(emotions, winsOnly), CountsAt(ts, MoodsAt(winsOnly)));
  }

  /** The gap that the seed statements start with. */
  lemma {:induction false} SeedGap(t: Tables, ts: seq<Trade>, user: string, day: int, winsOnly: bool)
    requires SeededFrom(t, ts)
    ensures Gap(t, user, day, winsOnly) == CountWhere(ts, SeedUnfelt(user, day, winsOnly))
  {
    SeededDaySum(t.rows, ts, user, day, winsOnly);
    SeededMoodSum(t.emotions, ts, user, day, winsOnly);
    CountSplit(ts, SeededRowsOf(user, day, winsOnly), SeededMoodsOf(user, day, winsOnly),
               SeedUnfelt(user, day, winsOnly));
  }

  /** No seeded trade and no event of the day is in the hourly rows only. */
  ghost predicate AllFelt(seeded: seq<Trade>, steps: seq<Step>, user: string, day: int, winsOnly: bool) {
    && (forall i :: 0 <= i < |seeded| ==> !SeedUnfelt(user, day, winsOnly)(seeded[i]))
    && (forall i :: 0 <= i < |steps| ==> !Unfelt(user, day, winsOnly)(steps[i]))
  }

  /**
   On top of what the seed statements made of some trades, or of nothing: a day's emotion totals are
   within its hourly totals exactly when no more events missed the hourly rows alone than seeded trades
   and events missed the emotion rows alone. When none missed the hourly rows alone, the totals are
   equal exactly when no seeded trade and no event of the day is in the hourly rows only.
   */
  lemma {:induction false} EmotionsWithinTrades(start: Tables, seeded: seq<Trade>, steps: seq<Step>, user: string,
                                                day: int, winsOnly: bool)
    requires SeededFrom(start, seeded)
    ensures var t := RunAll(start, steps);
            var felt, all := MoodSum(t.emotions, user, day, winsOnly), DaySum(t.rows, user, day, Counting(winsOnly));
            var unfelt, uncounted := Unfelt(user, day, winsOnly), Uncounted(user, day, winsOnly);
            && (felt <= all <==> CountWhere(steps, uncounted)
                                 <= CountWhere(seeded, SeedUnfelt(user, day, winsOnly)) + CountWhere(steps, unfelt))
            && ((forall i :: 0 <= i < |steps| ==> !uncounted(steps[i])) ==>
                  felt <= all && (felt == all <==> AllFelt(seeded, steps, user, day, winsOnly)))
  {
    GapLaw(start, steps, user, day, winsOnly);
    SeedGap(start, seeded, user, day, winsOnly);
    CountZero(steps, Unfelt(user, day, winsOnly));
    CountZero(steps, Uncounted(user, day, winsOnly));
    CountZero(seeded, SeedUnfelt(user, day, winsOnly));
  }
}
