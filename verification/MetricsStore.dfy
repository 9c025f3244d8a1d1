/** The metrics tables as the worker and the metrics handler use them. */
module MetricsStore {
  import opened Prelude
  import opened Timeline
  import opened Domain
  import opened Sums
  import opened MetricsTable
  import opened Batch
  import opened RollUp

  datatype OvertradingEvent = OvertradingEvent(user: string, windowStart: int, tradeCount: int, emittedAt: int)

  /** A row of the emotion query. */
  datatype EmotionRate = EmotionRate(emotion: Emotion, wins: int, losses: int, winRate: real)

  function StoredRatio(x: Option<real>): Option<int> {
    match x case None => None case Some(v) => Some(Numeric4(v))
  }

  function EmittedIn(user: string, from: int, to: int): OvertradingEvent -> bool {
    (e: OvertradingEvent) => e.user == user && from <= e.emittedAt <= to
  }

  function RevengeIn(user: string, from: int, to: int): Trade -> bool {
    (t: Trade) => t.userId == user && t.revenge && from <= t.entryAt <= to
  }

  method CountRows<T>(rows: seq<T>, p: T -> bool) returns (count: nat)
    ensures count == CountWhere(rows, p)
  {
    count := 0;
    CountZero(rows[..0], p);
    for n := 0 to |rows|
      invariant count == CountWhere(rows[..n], p)
    {
      assert rows[..n + 1] == rows[..n] + [rows[n]];
      CountAppend(rows[..n], rows[n], p);
      if p(rows[n]) {
        count := count + 1;
      }
    }
    assert rows[..|rows|] == rows;
  }

  method CountRevengeTrades(table: seq<Trade>, user: string, from: int, to: int) returns (count: nat)
    ensures count == CountWhere(table, RevengeIn(user, from, to))
  {
    count := CountRows(table, RevengeIn(user, from, to));
  }

  /** WHERE date_bucket between the two dates, for one user and one emotion. */
  function EmotionDays(emotions: map<EmotionKey, Tally>, user: string, e: Emotion, from: Zoned, to: Zoned)
    : set<EmotionKey>
  {
    set k | k in emotions && k.user == user && k.emotion == e && CivilDay(from) <= k.day <= CivilDay(to)
  }

  function WinsAt(emotions: map<EmotionKey, Tally>): EmotionKey -> int {
    (k: EmotionKey) => Tallied(emotions, k).wins
  }

  function LossesAt(emotions: map<EmotionKey, Tally>): EmotionKey -> int {
    (k: EmotionKey) => Tallied(emotions, k).losses
  }

  ghost predicate IsRate(r: EmotionRate, emotions: map<EmotionKey, Tally>, user: string, from: Zoned, to: Zoned) {
    var days := EmotionDays(emotions, user, r.emotion, from, to);
    && days != {}
    && r.wins == SumSet(days, WinsAt(emotions))
    && r.losses == SumSet(days, LossesAt(emotions))
    && (r.wins + r.losses <= 0 ==> r.winRate == 0.0)
    && (r.wins + r.losses > 0 ==> r.winRate == r.wins as real / (r.wins + r.losses) as real)
  }

  /** One rate for each emotion that has a row in the date range. */
  ghost predicate AreRates(rates: seq<EmotionRate>, emotions: map<EmotionKey, Tally>,
                           user: string, from: Zoned, to: Zoned)
  {
    && (forall i :: 0 <= i < |rates| ==> IsRate(rates[i], emotions, user, from, to))
    && (forall e :: EmotionDays(emotions, user, e, from, to) != {}
                    <==> exists i :: 0 <= i < |rates| && rates[i].emotion == e)
    && (forall i, j :: 0 <= i < j < |rates| ==> rates[i].emotion != rates[j].emotion)
  }

  /** The literals of the database's emotion enumeration. */
  const ALL_EMOTIONS := [Calm, Anxious, Greedy, Fearful, Neutral]

  lemma EveryEmotion()
    ensures forall e: Emotion :: e in ALL_EMOTIONS
  {
    forall e: Emotion ensures e in ALL_EMOTIONS {
      match e
      case Calm => assert ALL_EMOTIONS[0] == e;
      case Anxious => assert ALL_EMOTIONS[1] == e;
      case Greedy => assert ALL_EMOTIONS[2] == e;
      case Fearful => assert ALL_EMOTIONS[3] == e;
      case Neutral => assert ALL_EMOTIONS[4] == e;
    }
  }

  /** The rates of the emotions in `done`. */
  ghost predicate RatedUpTo(rates: seq<EmotionRate>, emotions: map<EmotionKey, Tally>,
                            user: string, from: Zoned, to: Zoned, done: seq<Emotion>)
  {
    && (forall i :: 0 <= i < |rates| ==> IsRate(rates[i], emotions, user, from, to) && rates[i].emotion in done)
    && (forall e :: e in done && EmotionDays(emotions, user, e, from, to) != {} ==>
          exists i :: 0 <= i < |rates| && rates[i].emotion == e)
    && (forall i, j :: 0 <= i < j < |rates| ==> rates[i].emotion != rates[j].emotion)
  }

  lemma {:induction false} RateAdded(rates: seq<EmotionRate>, emotions: map<EmotionKey, Tally>,
                                     user: string, from: Zoned, to: Zoned, done: seq<Emotion>, r: EmotionRate)
    requires RatedUpTo(rates, emotions, user, from, to, done)
    requires r.emotion !in done && IsRate(r, emotions, user, from, to)
    ensures RatedUpTo(rates + [r], emotions, user, from, to, done + [r.emotion])
  {
    var more := rates + [r];
    forall e | e in done + [r.emotion] && EmotionDays(emotions, user, e, from, to) != {}
      ensures exists i :: 0 <= i < |more| && more[i].emotion == e
    {
      if e == r.emotion {
        assert more[|rates|].emotion == e;
      } else {
        var i :| 0 <= i < |rates| && rates[i].emotion == e;
        assert more[i].emotion == e;
      }
    }
  }

  lemma {:induction false} RatesComplete(rates: seq<EmotionRate>, emotions: map<EmotionKey, Tally>,
                                         user: string, from: Zoned, to: Zoned)
    requires RatedUpTo(rates, emotions, user, from, to, ALL_EMOTIONS)
    ensures AreRates(rates, emotions, user, from, to)
  {
    EveryEmotion();
    forall e: Emotion | EmotionDays(emotions, user, e, from, to) != {}
      ensures exists i :: 0 <= i < |rates| && rates[i].emotion == e
    {
      assert e in ALL_EMOTIONS;
    }
  }

  lemma {:induction false} Pick<T>(s: set<T>) returns (x: T)
    requires s != {}
    ensures x in s
  {
    x :| x in s;
  }

  method SumOver<T(==, !new)>(s: set<T>, f: T -> int) returns (total: int)
    ensures total == SumSet(s, f)
  {
    total := 0;
    var left := s;
    while left != {}
      invariant total + SumSet(left, f) == SumSet(s, f)
      decreases |left|
    {
      var x :| x in left;
      SumRemove(left, x, f);
      total := total + f(x);
      left := left - {x};
    }
  }

  method Least(s: set<int>) returns (m: int)
    requires s != {}
    ensures m in s && forall x :: x in s ==> m <= x
  {
    ghost var z := Pick(s);
    m :| m in s;
    var left := s - {m};
    while left != {}
      invariant left <= s && m in s
      invariant forall x :: x in s ==> x in left || m <= x
      decreases |left|
    {
      ghost var y := Pick(left);
      var x :| x in left;
      if x < m {
        m := x;
      }
      left := left - {x};
    }
  }

  method AverageOf(rows: map<RowKey, Row>, user: string, bs: set<int>, x: Ratio) returns (a: Option<real>)
    ensures a == Average(rows, user, bs, x)
  {
    var some := set b | b in bs && RatioIn(Cell(rows, RowKey(b, user)), x).Some?;
    assert some == NonNull(rows, user, bs, x);
    if some == {} {
      return None;
    }
    var total := SumOver(some, RatioAt(rows, user, x));
    a := Some(total as real / |some| as real / RATIO_UNITS);
  }

  ghost predicate Increasing(buckets: seq<Bucket>) {
    forall i, j :: 0 <= i < j < |buckets| ==> buckets[i].start < buckets[j].start
  }

  /** The groups answered and the groups `left` are all the groups, and those left are all later. */
  ghost predicate Partition(buckets: seq<Bucket>, groups: set<int>, left: set<int>) {
    && left <= groups && Starts(buckets) == groups - left
    && forall i, g :: 0 <= i < |buckets| && g in left ==> buckets[i].start < g
  }

  ghost predicate AllAggregate(buckets: seq<Bucket>, rows: map<RowKey, Row>, user: string, bs: set<int>, w: int)
    requires 0 < w
  {
    forall i :: 0 <= i < |buckets| ==> Aggregates(buckets[i], rows, user, Fiber(bs, BucketOf(w), buckets[i].start))
  }

  lemma {:induction false} PartitionMore(buckets: seq<Bucket>, groups: set<int>, left: set<int>, b: Bucket)
    requires Increasing(buckets) && Partition(buckets, groups, left)
    requires b.start in left && forall g :: g in left ==> b.start <= g
    ensures Increasing(buckets + [b]) && Partition(buckets + [b], groups, left - {b.start})
  {
    StartsAppend(buckets, b);
  }

  lemma {:induction false} AggregateMore(buckets: seq<Bucket>, rows: map<RowKey, Row>, user: string,
                                         bs: set<int>, w: int, b: Bucket)
    requires 0 < w && AllAggregate(buckets, rows, user, bs, w)
    requires Aggregates(b, rows, user, Fiber(bs, BucketOf(w), b.start))
    ensures AllAggregate(buckets + [b], rows, user, bs, w)
  {
    var more := buckets + [b];
    forall i | 0 <= i < |more| ensures Aggregates(more[i], rows, user, Fiber(bs, BucketOf(w), more[i].start)) {
      if i < |buckets| { assert more[i] == buckets[i]; }
    }
  }

  lemma {:induction false} RollUpDone(buckets: seq<Bucket>, rows: map<RowKey, Row>, user: string, bs: set<int>, w: int)
    requires 0 < w && Increasing(buckets) && Partition(buckets, Image(bs, BucketOf(w)), {})
    requires AllAggregate(buckets, rows, user, bs, w)
    ensures IsRollUp(buckets, rows, user, bs, w)
  {
    assert Starts(buckets) == Image(bs, BucketOf(w));
  }

  class MetricsStore {
    var rows: map<RowKey, Row>
    var emotions: map<EmotionKey, Tally>
    var overtrading: seq<OvertradingEvent>

    constructor (rows: map<RowKey, Row>, emotions: map<EmotionKey, Tally>)
      ensures this.rows == rows && this.emotions == emotions && overtrading == []
    {
      this.rows, this.emotions, overtrading := rows, emotions, [];
    }

    /** `fail` stands for any reason why the statement leaves no trace. */
    method UpsertBucket(user: string, bucket: int, trades: int, wins: int, losses: int, pnl: int,
                        plan: Option<real>, tilt: Option<real>, revenge: int, overtradingEvents: int, fail: bool)
      returns (ok: bool)
      modifies this`rows
      ensures ok <==> !fail
      ensures rows == if fail then old(rows) else
                Upsert(old(rows), RowKey(bucket, user),
                       Row(trades, wins, losses, pnl, StoredRatio(plan), StoredRatio(tilt), revenge, overtradingEvents))
    {
      if fail {
        return false;
      }
      var k := RowKey(bucket, user);
      var excluded := Row(trades, wins, losses, pnl, StoredRatio(plan), StoredRatio(tilt), revenge, overtradingEvents);
      if k !in rows {
        rows := rows[k := excluded];
      } else {
        rows := rows[k := Merge(rows[k], excluded)];
      }
      ok := true;
    }

    method UpsertEmotionWinRate(user: string, emotion: Emotion, day: int, wins: int, losses: int, fail: bool)
      returns (ok: bool)
      modifies this`emotions
      ensures ok <==> !fail
      ensures emotions == if fail then old(emotions) else
                UpsertTally(old(emotions), EmotionKey(user, emotion, day), Tally(wins, losses))
    {
      if fail {
        return false;
      }
      var k := EmotionKey(user, emotion, day);
      if k !in emotions {
        emotions := emotions[k := Tally(wins, losses)];
      } else {
        emotions := emotions[k := MergeTally(emotions[k], Tally(wins, losses))];
      }
      ok := true;
    }

    method InsertOvertradingEvent(user: string, windowStart: int, tradeCount: int, now: int, fail: bool)
      returns (ok: bool)
      modifies this`overtrading
      ensures ok <==> !fail
      ensures overtrading == old(overtrading)
                + if fail then [] else [OvertradingEvent(user, windowStart, tradeCount, Stored(now))]
    {
      if !fail {
        overtrading := overtrading + [OvertradingEvent(user, windowStart, tradeCount, Stored(now))];
      }
      ok := !fail;
    }

    method CountOvertradingEvents(user: string, from: int, to: int) returns (count: nat)
      ensures count == CountWhere(overtrading, EmittedIn(user, from, to))
    {
      count := CountRows(overtrading, EmittedIn(user, from, to));
    }

    /** The buckets come out strictly increasing, one per group, each aggregating exactly its group. */
    method QueryRange(user: string, from: int, to: int, interval: int) returns (buckets: seq<Bucket>)
      requires 0 < interval
      ensures IsRollUp(buckets, rows, user, InRange(rows, user, from, to), interval)
    {
      var bs := InRange(rows, user, from, to);
      var left := set b | b in bs :: TimeBucket(interval, b);
      assert left == Image(bs, BucketOf(interval));
      ghost var groups := left;
      buckets := [];
      while left != {}
        invariant Increasing(buckets) && Partition(buckets, groups, left)
        invariant AllAggregate(buckets, rows, user, bs, interval)
        decreases |left|
      {
        var g := Least(left);
        var group := set b | b in bs && TimeBucket(interval, b) == g;
        assert group == Fiber(bs, BucketOf(interval), g);
        var bucket := AggregateGroup(user, group, g);
        PartitionMore(buckets, groups, left, bucket);
        AggregateMore(buckets, rows, user, bs, interval, bucket);
        buckets := buckets + [bucket];
        left := left - {g};
      }
      RollUpDone(buckets, rows, user, bs, interval);
    }

    method AggregateGroup(user: string, group: set<int>, start: int) returns (b: Bucket)
      ensures b.start == start && Aggregates(b, rows, user, group)
    {
      var sums := SumColumns(user, group);
      var plan := AverageOf(rows, user, group, Plan);
      var tilt := AverageOf(rows, user, group, Tilt);
      b := Bucket(start, sums, plan, tilt);
    }

    method SumColumns(user: string, group: set<int>) returns (sums: Row)
      ensures forall c :: Col(sums, c) == SumSet(group, RollUp.ColumnAt(rows, user, c))
    {
      var trades := SumOver(group, RollUp.ColumnAt(rows, user, Trades));
      var wins := SumOver(group, RollUp.ColumnAt(rows, user, Wins));
      var losses := SumOver(group, RollUp.ColumnAt(rows, user, Losses));
      var pnl := SumOver(group, RollUp.ColumnAt(rows, user, Pnl));
      var revenge := SumOver(group, RollUp.ColumnAt(rows, user, Revenge));
      var overtradingEvents := SumOver(group, RollUp.ColumnAt(rows, user, Overtrading));
      sums := Row(trades, wins, losses, pnl, None, None, revenge, overtradingEvents);
      forall c ensures Col(sums, c) == SumSet(group, RollUp.ColumnAt(rows, user, c)) {
        match c case Trades => case Wins => case Losses => case Pnl => case Revenge => case Overtrading =>
      }
    }

    method QueryEmotionWinRates(user: string, from: Zoned, to: Zoned) returns (rates: seq<EmotionRate>)
      ensures AreRates(rates, emotions, user, from, to)
    {
      rates := [];
      for n := 0 to |ALL_EMOTIONS|
        invariant RatedUpTo(rates, emotions, user, from, to, ALL_EMOTIONS[..n])
      {
        var e := ALL_EMOTIONS[n];
        var days := EmotionDays(emotions, user, e, from, to);
        assert e !in ALL_EMOTIONS[..n] && ALL_EMOTIONS[..n + 1] == ALL_EMOTIONS[..n] + [e];
        if days != {} {
          var wins := SumOver(days, WinsAt(emotions));
          var losses := SumOver(days, LossesAt(emotions));
          var winRate := 0.0;
          if wins + losses > 0 {
            winRate := wins as real / (wins + losses) as real;
          }
          var rate := EmotionRate(e, wins, losses, winRate);
          RateAdded(rates, emotions, user, from, to, ALL_EMOTIONS[..n], rate);
          rates := rates + [rate];
        }
      }
      assert ALL_EMOTIONS[..|ALL_EMOTIONS|] == ALL_EMOTIONS;
      RatesComplete(rates, emotions, user, from, to);
    }
  }

  // ---- the metrics handler's aggregation ----

  datatype Point = Point(bucket: int, tradeCount: int, winRate: real, pnl: real, plan: real)

  function PointOf(b: Bucket): Point {
    Point(b.start, b.sums.trades, if b.sums.trades > 0 then b.sums.wins as real / b.sums.trades as real else 0.0,
          b.sums.pnl as real / UNITS, b.plan.GetOr(0.0))
  }

  function PlanOfBucket(b: Bucket): Option<real> { b.plan }

  function TiltOfBucket(b: Bucket): Option<real> { b.tilt }

  /** The values that are not null. */
  function Present(bs: seq<Bucket>, f: Bucket -> Option<real>): seq<real> {
    if bs == [] then []
    else
      var rest := Present(bs[..|bs| - 1], f);
      var x := f(bs[|bs| - 1]);
      if x.Some? then rest + [x.value] else rest
  }

  function SumReal(xs: seq<real>): real {
    if xs == [] then 0.0 else SumReal(xs[..|xs| - 1]) + xs[|xs| - 1]
  }

  function MeanOrZero(xs: seq<real>): real {
    if xs == [] then 0.0 else SumReal(xs) / |xs| as real
  }

  /** The handler's running total and count of a nullable column. */
  predicate Summed(bs: seq<Bucket>, f: Bucket -> Option<real>, total: real, count: int) {
    total == SumReal(Present(bs, f)) && count == |Present(bs, f)|
  }

  lemma {:induction false} SummedNext(buckets: seq<Bucket>, n: nat, f: Bucket -> Option<real>, total: real, count: int)
    requires n < |buckets| && Summed(buckets[..n], f, total, count)
    ensures f(buckets[n]).None? ==> Summed(buckets[..n + 1], f, total, count)
    ensures f(buckets[n]).Some? ==> Summed(buckets[..n + 1], f, total + f(buckets[n]).value, count + 1)
  {
    assert buckets[..n + 1][..n] == buckets[..n];
    var before, x := Present(buckets[..n], f), f(buckets[n]);
    if x.Some? {
      assert (before + [x.value])[..|before|] == before;
    }
  }

  function PointsOf(buckets: seq<Bucket>): seq<Point> {
    seq(|buckets|, i requires 0 <= i < |buckets| => PointOf(buckets[i]))
  }

  /** The loop over buckets of the metrics handler, and the two averages after it. */
  method Summarise(buckets: seq<Bucket>) returns (points: seq<Point>, plan: real, tilt: real)
    ensures points == PointsOf(buckets)
    ensures plan == MeanOrZero(Present(buckets, PlanOfBucket))
    ensures tilt == MeanOrZero(Present(buckets, TiltOfBucket))
  {
    var totalPlan, planCount, totalTilt, tiltCount := 0.0, 0, 0.0, 0;
    points := [];
    for n := 0 to |buckets|
      invariant points == PointsOf(buckets[..n])
      invariant Summed(buckets[..n], PlanOfBucket, totalPlan, planCount)
      invariant Summed(buckets[..n], TiltOfBucket, totalTilt, tiltCount)
    {
      var b := buckets[n];
      SummedNext(buckets, n, PlanOfBucket, totalPlan, planCount);
      SummedNext(buckets, n, TiltOfBucket, totalTilt, tiltCount);
      var winRate := 0.0;
      if b.sums.trades > 0 {
        winRate := b.sums.wins as real / b.sums.trades as real;
      }
      var avgPlan := 0.0;
      if b.plan.Some? {
        avgPlan := b.plan.value;
        totalPlan := totalPlan + avgPlan;
        planCount := planCount + 1;
      }
      if b.tilt.Some? {
        totalTilt := totalTilt + b.tilt.value;
        tiltCount := tiltCount + 1;
      }
      points := points + [Point(b.start, b.sums.trades, winRate, b.sums.pnl as real / UNITS, avgPlan)];
    }
    assert buckets[..|buckets|] == buckets;
    plan := if planCount > 0 then totalPlan / planCount as real else 0.0;
    tilt := if tiltCount > 0 then totalTilt / tiltCount as real else 0.0;
  }

  /** Every win rate that the handler reports from bounded rows is a ratio. */
  lemma {:induction false} WinRatesAreRatios(buckets: seq<Bucket>, rows: map<RowKey, Row>, user: string,
                                             bs: set<int>, w: int, i: nat)
    requires 0 < w && IsRollUp(buckets, rows, user, bs, w) && AllBounded(rows) && i < |buckets|
    ensures 0.0 <= PointOf(buckets[i]).winRate <= 1.0
  {
    var fiber := Fiber(bs, BucketOf(w), buckets[i].start);
    assert Aggregates(buckets[i], rows, user, fiber);
    WinsWithinTrades(rows, user, fiber);
    assert Col(buckets[i].sums, Wins) == SumSet(fiber, RollUp.ColumnAt(rows, user, Wins));
    assert Col(buckets[i].sums, Trades) == SumSet(fiber, RollUp.ColumnAt(rows, user, Trades));
    if buckets[i].sums.trades > 0 {
      QuotientBounds(buckets[i].sums.wins, buckets[i].sums.trades, 0, 1);
    }
  }
}
