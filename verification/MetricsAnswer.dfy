/**
 What a metrics response says, in terms of the rows it was read from: each point by the hourly rows of its
 group, the two scores by the groups that have a value, the win rates by the days of an emotion, and the two
 counts by the trades and events themselves.
 */
module MetricsAnswer {
  import opened Prelude
  import opened Timeline
  import opened Domain
  import opened Sums
  import opened MetricsTable
  import opened RollUp
  import opened MetricsStore
  import opened MetricsCache
  import opened MetricsResponse

  // ---- a user's hourly rows ----

  /** The hours in [from, to] and in [start, start + width) for which the user has a row. */
  ghost function Hours(rows: map<RowKey, Row>, user: string, from: int, to: int, start: int, width: int): set<int> {
    set k | k in rows && k.user == user && from <= k.bucket <= to && start <= k.bucket < start + width :: k.bucket
  }

  function TradesAt(rows: map<RowKey, Row>, user: string): int -> int {
    (b: int) => if RowKey(b, user) in rows then rows[RowKey(b, user)].trades else 0
  }

  function RowWinsAt(rows: map<RowKey, Row>, user: string): int -> int {
    (b: int) => if RowKey(b, user) in rows then rows[RowKey(b, user)].wins else 0
  }

  function PnlAt(rows: map<RowKey, Row>, user: string): int -> int {
    (b: int) => if RowKey(b, user) in rows then rows[RowKey(b, user)].pnl else 0
  }

  function PlanAt(rows: map<RowKey, Row>, user: string): int -> int {
    (b: int) => if RowKey(b, user) in rows then rows[RowKey(b, user)].plan.GetOr(0) else 0
  }

  function TiltAt(rows: map<RowKey, Row>, user: string): int -> int {
    (b: int) => if RowKey(b, user) in rows then rows[RowKey(b, user)].tilt.GetOr(0) else 0
  }

  /** The hours whose row has a plan average, or a tilt index. */
  ghost function Planned(rows: map<RowKey, Row>, user: string, bs: set<int>): set<int> {
    set b | b in bs && RowKey(b, user) in rows && rows[RowKey(b, user)].plan.Some?
  }

  ghost function Tilted(rows: map<RowKey, Row>, user: string, bs: set<int>): set<int> {
    set b | b in bs && RowKey(b, user) in rows && rows[RowKey(b, user)].tilt.Some?
  }

  /** All hours of the user in the closed range. */
  lemma {:induction false} HoursInRange(rows: map<RowKey, Row>, user: string, from: int, to: int, b: int)
    ensures b in InRange(rows, user, from, to) <==> RowKey(b, user) in rows && from <= b <= to
  {
    if RowKey(b, user) in rows && from <= b <= to {
      assert RowKey(b, user).user == user && RowKey(b, user).bucket == b;
    }
  }

  function Width(g: Granularity): int {
    match g
    case Hourly => 3_600_000_000_000
    case Daily => 86_400_000_000_000
    case Rolling30d => 2_592_000_000_000_000
  }

  // ---- one point ----

  /** The mean of n values with this sum, in units of 1e-4, or 0 without a value. */
  predicate IsMean(x: real, sum: int, n: nat) {
    x == if n == 0 then 0.0 else sum as real / n as real / 10_000.0
  }

  /** wins / trades, or 0 without a trade. */
  predicate IsShare(x: real, wins: int, trades: int) {
    x == if trades > 0 then wins as real / trades as real else 0.0
  }

  /** An amount in units of 1e-8. */
  predicate IsAmount(x: real, units: int) { x == units as real / 100_000_000.0 }

  /** p shows these sums, and the mean of these plan averages. */
  predicate ShowsSums(p: Point, trades: int, wins: int, pnl: int, plans: int, planned: nat) {
    p.tradeCount == trades && IsShare(p.winRate, wins, trades) && IsAmount(p.pnl, pnl) && IsMean(p.plan, plans, planned)
  }

  lemma {:induction false} PointShows(b: Bucket, plans: int, planned: nat)
    requires IsMean(b.plan.GetOr(0.0), plans, planned)
    ensures ShowsSums(PointOf(b), b.sums.trades, b.sums.wins, b.sums.pnl, plans, planned)
  {
  }

  /** p answers for these hours. */
  ghost predicate PointSays(p: Point, rows: map<RowKey, Row>, user: string, hours: set<int>) {
    var planned := Planned(rows, user, hours);
    ShowsSums(p, SumSet(hours, TradesAt(rows, user)), SumSet(hours, RowWinsAt(rows, user)),
              SumSet(hours, PnlAt(rows, user)), SumSet(planned, PlanAt(rows, user)), |planned|)
  }

  lemma {:induction false} ColumnSums(rows: map<RowKey, Row>, user: string, bs: set<int>)
    ensures SumSet(bs, RollUp.ColumnAt(rows, user, Trades)) == SumSet(bs, TradesAt(rows, user))
    ensures SumSet(bs, RollUp.ColumnAt(rows, user, Wins)) == SumSet(bs, RowWinsAt(rows, user))
    ensures SumSet(bs, RollUp.ColumnAt(rows, user, Pnl)) == SumSet(bs, PnlAt(rows, user))
  {
    SumExt(bs, RollUp.ColumnAt(rows, user, Trades), TradesAt(rows, user));
    SumExt(bs, RollUp.ColumnAt(rows, user, Wins), RowWinsAt(rows, user));
    SumExt(bs, RollUp.ColumnAt(rows, user, Pnl), PnlAt(rows, user));
  }

  lemma {:induction false} PlanAverage(rows: map<RowKey, Row>, user: string, bs: set<int>)
    ensures var planned := Planned(rows, user, bs);
            && (Average(rows, user, bs, Plan).Some? <==> planned != {})
            && IsMean(Average(rows, user, bs, Plan).GetOr(0.0), SumSet(planned, PlanAt(rows, user)), |planned|)
  {
    var planned := Planned(rows, user, bs);
    assert planned == NonNull(rows, user, bs, Plan);
    SumExt(planned, RatioAt(rows, user, Plan), PlanAt(rows, user));
  }

  lemma {:induction false} TiltAverage(rows: map<RowKey, Row>, user: string, bs: set<int>)
    ensures var tilted := Tilted(rows, user, bs);
            && (Average(rows, user, bs, Tilt).Some? <==> tilted != {})
            && IsMean(Average(rows, user, bs, Tilt).GetOr(0.0), SumSet(tilted, TiltAt(rows, user)), |tilted|)
  {
    var tilted := Tilted(rows, user, bs);
    assert tilted == NonNull(rows, user, bs, Tilt);
    SumExt(tilted, RatioAt(rows, user, Tilt), TiltAt(rows, user));
  }

  lemma {:induction false} GroupSums(b: Bucket, rows: map<RowKey, Row>, user: string, bs: set<int>)
    requires Aggregates(b, rows, user, bs)
    ensures b.sums.trades == SumSet(bs, TradesAt(rows, user)) && b.sums.wins == SumSet(bs, RowWinsAt(rows, user))
    ensures b.sums.pnl == SumSet(bs, PnlAt(rows, user))
  {
    ColumnSums(rows, user, bs);
    assert Col(b.sums, Trades) == b.sums.trades && Col(b.sums, Wins) == b.sums.wins && Col(b.sums, Pnl) == b.sums.pnl;
  }

  lemma {:induction false} PointOfGroup(b: Bucket, rows: map<RowKey, Row>, user: string, bs: set<int>)
    requires Aggregates(b, rows, user, bs)
    ensures PointSays(PointOf(b), rows, user, bs)
  {
    var planned := Planned(rows, user, bs);
    GroupSums(b, rows, user, bs);
    PlanAverage(rows, user, bs);
    PointShows(b, SumSet(planned, PlanAt(rows, user)), |planned|);
  }

  // ---- the groups ----

  lemma {:induction false} GroupOf(width: int, b: int, g: int)
    requires 0 < width
    ensures TimeBucket(width, b) == g <==> g <= b < g + width && (g - 946_857_600_000_000_000) % width == 0
  {
    TruncBounds(BUCKET_ORIGIN, width, b);
    if g <= b < g + width && (g - 946_857_600_000_000_000) % width == 0 {
      TruncUnique(BUCKET_ORIGIN, width, b, g);
    }
  }

  lemma {:induction false} FiberIsHours(rows: map<RowKey, Row>, user: string, from: int, to: int, g: int, width: int)
    requires 0 < width && (g - 946_857_600_000_000_000) % width == 0
    ensures Fiber(InRange(rows, user, from, to), BucketOf(width), g) == Hours(rows, user, from, to, g, width)
  {
    forall b
      ensures b in Fiber(InRange(rows, user, from, to), BucketOf(width), g)
              <==> b in Hours(rows, user, from, to, g, width)
    {
      HoursInRange(rows, user, from, to, b);
      GroupOf(width, b, g);
    }
  }

  /** Group starts are width apart. */
  lemma {:induction false} StartsApart(width: int, g: int, h: int)
    requires 0 < width && g < h
    requires (g - 946_857_600_000_000_000) % width == 0 && (h - 946_857_600_000_000_000) % width == 0
    ensures g + width <= h
  {
    var i, j := (g - 946_857_600_000_000_000) / width, (h - 946_857_600_000_000_000) / width;
    assert h - g == width * (j - i);
    MultipleSize(width, j - i);
    if g + width > h { NoSmallMultiple(width, j - i); }
  }

  /** p answers for the user's hours in the range and in its interval, and there are some. */
  ghost predicate PointRight(p: Point, rows: map<RowKey, Row>, user: string, from: int, to: int, width: int)
    requires 0 < width
  {
    var hours := Hours(rows, user, from, to, p.bucket, width);
    (p.bucket - 946_857_600_000_000_000) % width == 0 && hours != {} && PointSays(p, rows, user, hours)
  }

  /** b is the bucket of a group. */
  ghost predicate OfGroup(b: Bucket, rows: map<RowKey, Row>, user: string, bs: set<int>, width: int)
    requires 0 < width
  {
    b.start in Image(bs, BucketOf(width)) && Aggregates(b, rows, user, Fiber(bs, BucketOf(width), b.start))
  }

  lemma {:induction false} RollUpGroup(buckets: seq<Bucket>, i: nat, rows: map<RowKey, Row>, user: string,
                                       bs: set<int>, width: int)
    requires 0 < width && i < |buckets| && IsRollUp(buckets, rows, user, bs, width)
    ensures OfGroup(buckets[i], rows, user, bs, width)
  {
    assert buckets[i].start in Image(bs, BucketOf(width));
  }

  /** b aggregates the user's hours of its interval. */
  ghost predicate OfHours(b: Bucket, rows: map<RowKey, Row>, user: string, from: int, to: int, width: int) {
    var hours := Hours(rows, user, from, to, b.start, width);
    0 < width && (b.start - 946_857_600_000_000_000) % width == 0 && hours != {} && Aggregates(b, rows, user, hours)
  }

  lemma {:induction false} GroupIsHours(b: Bucket, rows: map<RowKey, Row>, user: string, from: int, to: int, width: int)
    requires 0 < width && OfGroup(b, rows, user, InRange(rows, user, from, to), width)
    ensures OfHours(b, rows, user, from, to, width)
  {
    var bs := InRange(rows, user, from, to);
    var h :| h in bs && BucketOf(width)(h) == b.start;
    GroupOf(width, h, b.start);
    FiberIsHours(rows, user, from, to, b.start, width);
    assert h in Fiber(bs, BucketOf(width), b.start);
  }

  lemma {:induction false} BucketOfHours(buckets: seq<Bucket>, i: nat, rows: map<RowKey, Row>, user: string, from: int,
                                         to: int, width: int)
    requires 0 < width && i < |buckets| && IsRollUp(buckets, rows, user, InRange(rows, user, from, to), width)
    ensures OfHours(buckets[i], rows, user, from, to, width)
  {
    RollUpGroup(buckets, i, rows, user, InRange(rows, user, from, to), width);
    GroupIsHours(buckets[i], rows, user, from, to, width);
  }

  lemma {:induction false} PointIsRight(b: Bucket, rows: map<RowKey, Row>, user: string, from: int, to: int, width: int)
    requires OfHours(b, rows, user, from, to, width)
    ensures PointRight(PointOf(b), rows, user, from, to, width)
  {
    PointOfGroup(b, rows, user, Hours(rows, user, from, to, b.start, width));
  }

  lemma {:induction false} RowHasPoint(buckets: seq<Bucket>, rows: map<RowKey, Row>, user: string, from: int, to: int,
                                       width: int, b: int) returns (i: nat)
    requires 0 < width && IsRollUp(buckets, rows, user, InRange(rows, user, from, to), width)
    requires RowKey(b, user) in rows && from <= b <= to
    ensures i < |buckets| && buckets[i].start <= b < buckets[i].start + width
  {
    HoursInRange(rows, user, from, to, b);
    var g := BucketOf(width)(b);
    assert g in Image(InRange(rows, user, from, to), BucketOf(width));
    i :| 0 <= i < |buckets| && buckets[i].start == g;
    GroupOf(width, b, g);
  }

  lemma {:induction false} PointsApart(b: Bucket, c: Bucket, rows: map<RowKey, Row>, user: string, from: int, to: int,
                                       width: int)
    requires OfHours(b, rows, user, from, to, width) && OfHours(c, rows, user, from, to, width) && b.start < c.start
    ensures b.start + width <= c.start
  {
    StartsApart(width, b.start, c.start);
  }

  /**
   The points of a response: each answers for the user's hourly rows in the closed range that lie in its
   interval of an hour, a day or 30 days; its trade count is their trades, its win rate their wins divided
   by that, its pnl their pnl and its plan value the mean of theirs; intervals start at a multiple of their
   width from 3 January 2000, come in order and do not overlap, and no row is left out.
   */
  lemma {:induction false} PointsExact(b: Body, rows: map<RowKey, Row>, r: Request, from: int, to: int)
    requires PointsRight(b, rows, r, from, to)
    ensures var w := Width(r.granularity);
            && (forall i :: 0 <= i < |b.points| ==> PointRight(b.points[i], rows, r.user, from, to, w))
            && (forall i, j :: 0 <= i < j < |b.points| ==> b.points[i].bucket + w <= b.points[j].bucket)
            && (forall k :: k in rows && k.user == r.user && from <= k.bucket <= to ==>
                  exists i :: 0 <= i < |b.points| && b.points[i].bucket <= k.bucket < b.points[i].bucket + w)
  {
    var w := Width(r.granularity);
    assert w == Interval(r.granularity);
    var buckets: seq<Bucket> :|
      IsRollUp(buckets, rows, r.user, InRange(rows, r.user, from, to), w) && Presents(b, buckets);
    forall i | 0 <= i < |b.points| ensures PointRight(b.points[i], rows, r.user, from, to, w) {
      BucketOfHours(buckets, i, rows, r.user, from, to, w);
      PointIsRight(buckets[i], rows, r.user, from, to, w);
    }
    forall i, j | 0 <= i < j < |b.points| ensures b.points[i].bucket + w <= b.points[j].bucket {
      BucketOfHours(buckets, i, rows, r.user, from, to, w);
      BucketOfHours(buckets, j, rows, r.user, from, to, w);
      PointsApart(buckets[i], buckets[j], rows, r.user, from, to, w);
    }
    forall k | k in rows && k.user == r.user && from <= k.bucket <= to
      ensures exists i :: 0 <= i < |b.points| && b.points[i].bucket <= k.bucket < b.points[i].bucket + w
    {
      assert k == RowKey(k.bucket, r.user);
      var i := RowHasPoint(buckets, rows, r.user, from, to, w, k.bucket);
      assert b.points[i].bucket <= k.bucket < b.points[i].bucket + w;
    }
  }

  // ---- the two scores ----

  /** score is the mean of the values of these groups, where the groups without a value have 0 in `values`. */
  ghost predicate IsScore(score: real, values: seq<real>, valued: set<int>) {
    score == if |valued| == 0 then 0.0 else SumReal(values) / |valued| as real
  }

  lemma {:induction false} PresentTotal(bs: seq<Bucket>, f: Bucket -> Option<real>, values: seq<real>)
    requires |values| == |bs| && forall i :: 0 <= i < |bs| ==> values[i] == f(bs[i]).GetOr(0.0)
    ensures SumReal(Present(bs, f)) == SumReal(values)
  {
    if bs != [] {
      var l := |bs| - 1;
      PresentTotal(bs[..l], f, values[..l]);
      var rest := Present(bs[..l], f);
      if f(bs[l]).Some? { assert (rest + [f(bs[l]).value])[..|rest|] == rest; }
    }
  }

  function HasValue(f: Bucket -> Option<real>): Bucket -> bool {
    (b: Bucket) => f(b).Some?
  }

  lemma {:induction false} PresentCount(bs: seq<Bucket>, f: Bucket -> Option<real>)
    ensures |Present(bs, f)| == CountWhere(bs, HasValue(f))
  {
    if bs != [] { PresentCount(bs[..|bs| - 1], f); }
  }

  lemma {:induction false} PresentScore(bs: seq<Bucket>, f: Bucket -> Option<real>, values: seq<real>, valued: set<int>)
    requires |values| == |bs| && forall i :: 0 <= i < |bs| ==> values[i] == f(bs[i]).GetOr(0.0)
    requires forall i :: i in valued <==> 0 <= i < |bs| && f(bs[i]).Some?
    ensures IsScore(MeanOrZero(Present(bs, f)), values, valued)
  {
    PresentTotal(bs, f, values);
    PresentCount(bs, f);
    CountOfIndices(bs, HasValue(f), valued);
  }

  /** Some of the hours of p has a plan average, or a tilt index. */
  ghost predicate HasPlan(p: Point, rows: map<RowKey, Row>, user: string, from: int, to: int, w: int) {
    Planned(rows, user, Hours(rows, user, from, to, p.bucket, w)) != {}
  }

  ghost predicate HasTilt(p: Point, rows: map<RowKey, Row>, user: string, from: int, to: int, w: int) {
    Tilted(rows, user, Hours(rows, user, from, to, p.bucket, w)) != {}
  }

  /** The groups among the points' that do. */
  ghost function PlannedPoints(points: seq<Point>, rows: map<RowKey, Row>, user: string, from: int, to: int, w: int)
    : set<int>
  {
    set i | 0 <= i < |points| && HasPlan(points[i], rows, user, from, to, w)
  }

  ghost function TiltedPoints(points: seq<Point>, rows: map<RowKey, Row>, user: string, from: int, to: int, w: int)
    : set<int>
  {
    set i | 0 <= i < |points| && HasTilt(points[i], rows, user, from, to, w)
  }

  /** x is the mean tilt of these hours, or 0. */
  ghost predicate IsTilt(x: real, rows: map<RowKey, Row>, user: string, hours: set<int>) {
    IsMean(x, SumSet(Tilted(rows, user, hours), TiltAt(rows, user)), |Tilted(rows, user, hours)|)
  }

  function Tilts(buckets: seq<Bucket>): seq<real> {
    seq(|buckets|, i requires 0 <= i < |buckets| => buckets[i].tilt.GetOr(0.0))
  }

  function PlansShown(points: seq<Point>): seq<real> {
    seq(|points|, i requires 0 <= i < |points| => points[i].plan)
  }

  lemma {:induction false} HoursPlan(b: Bucket, rows: map<RowKey, Row>, user: string, from: int, to: int, width: int)
    requires OfHours(b, rows, user, from, to, width)
    ensures b.plan.Some? <==> HasPlan(PointOf(b), rows, user, from, to, width)
  {
    PlanAverage(rows, user, Hours(rows, user, from, to, b.start, width));
  }

  lemma {:induction false} HoursHaveTilt(b: Bucket, rows: map<RowKey, Row>, user: string, from: int, to: int,
                                         width: int)
    requires OfHours(b, rows, user, from, to, width)
    ensures b.tilt.Some? <==> HasTilt(PointOf(b), rows, user, from, to, width)
  {
    TiltAverage(rows, user, Hours(rows, user, from, to, b.start, width));
  }

  lemma {:induction false} HoursTilt(b: Bucket, rows: map<RowKey, Row>, user: string, from: int, to: int, width: int)
    requires OfHours(b, rows, user, from, to, width)
    ensures IsTilt(b.tilt.GetOr(0.0), rows, user, Hours(rows, user, from, to, b.start, width))
  {
    TiltAverage(rows, user, Hours(rows, user, from, to, b.start, width));
  }

  lemma {:induction false} PlanScored(buckets: seq<Bucket>, rows: map<RowKey, Row>, user: string, from: int, to: int,
                                      w: int)
    requires forall i :: 0 <= i < |buckets| ==> OfHours(buckets[i], rows, user, from, to, w)
    ensures IsScore(MeanOrZero(Present(buckets, PlanOfBucket)), PlansShown(PointsOf(buckets)),
                    PlannedPoints(PointsOf(buckets), rows, user, from, to, w))
  {
    var points := PointsOf(buckets);
    var valued := PlannedPoints(points, rows, user, from, to, w);
    forall i | 0 <= i < |buckets| ensures i in valued <==> PlanOfBucket(buckets[i]).Some? {
      HoursPlan(buckets[i], rows, user, from, to, w);
      assert points[i].bucket == buckets[i].start;
    }
    PresentScore(buckets, PlanOfBucket, PlansShown(points), valued);
  }

  lemma {:induction false} TiltScored(buckets: seq<Bucket>, rows: map<RowKey, Row>, user: string, from: int, to: int,
                                      w: int)
    requires forall i :: 0 <= i < |buckets| ==> OfHours(buckets[i], rows, user, from, to, w)
    ensures IsScore(MeanOrZero(Present(buckets, TiltOfBucket)), Tilts(buckets),
                    TiltedPoints(PointsOf(buckets), rows, user, from, to, w))
  {
    var points := PointsOf(buckets);
    var valued := TiltedPoints(points, rows, user, from, to, w);
    forall i | 0 <= i < |buckets| ensures i in valued <==> TiltOfBucket(buckets[i]).Some? {
      HoursHaveTilt(buckets[i], rows, user, from, to, w);
    }
    PresentScore(buckets, TiltOfBucket, Tilts(buckets), valued);
  }

  /**
   The two scores of a response: the mean of the points' plan values over the groups that have one, and the
   mean of the groups' mean tilts over the groups that have one; 0 when no group does.
   */
  lemma {:induction false} ScoresExact(b: Body, rows: map<RowKey, Row>, r: Request, from: int, to: int)
    returns (tilts: seq<real>)
    requires PointsRight(b, rows, r, from, to)
    ensures var w := Width(r.granularity);
            && IsScore(b.planScore, PlansShown(b.points), PlannedPoints(b.points, rows, r.user, from, to, w))
            && IsScore(b.tilt, tilts, TiltedPoints(b.points, rows, r.user, from, to, w))
            && |tilts| == |b.points|
            && forall i :: 0 <= i < |tilts| ==>
                 IsTilt(tilts[i], rows, r.user, Hours(rows, r.user, from, to, b.points[i].bucket, w))
  {
    var w := Width(r.granularity);
    assert w == Interval(r.granularity);
    var buckets: seq<Bucket> :|
      IsRollUp(buckets, rows, r.user, InRange(rows, r.user, from, to), w) && Presents(b, buckets);
    forall i | 0 <= i < |buckets| ensures OfHours(buckets[i], rows, r.user, from, to, w) {
      BucketOfHours(buckets, i, rows, r.user, from, to, w);
    }
    PlanScored(buckets, rows, r.user, from, to, w);
    TiltScored(buckets, rows, r.user, from, to, w);
    tilts := Tilts(buckets);
    forall i | 0 <= i < |tilts|
      ensures IsTilt(tilts[i], rows, r.user, Hours(rows, r.user, from, to, b.points[i].bucket, w))
    {
      HoursTilt(buckets[i], rows, r.user, from, to, w);
    }
  }

  // ---- win rates by emotion, and the two counts ----

  /** The days from the first to the last date of the request on which the user has a tally of the emotion. */
  ghost function Days(emotions: map<EmotionKey, Tally>, user: string, e: Emotion, first: int, last: int): set<int> {
    set k | k in emotions && k.user == user && k.emotion == e && first <= k.day <= last :: k.day
  }

  function DayWins(emotions: map<EmotionKey, Tally>, user: string, e: Emotion): int -> int {
    (d: int) => if EmotionKey(user, e, d) in emotions then emotions[EmotionKey(user, e, d)].wins else 0
  }

  function DayLosses(emotions: map<EmotionKey, Tally>, user: string, e: Emotion): int -> int {
    (d: int) => if EmotionKey(user, e, d) in emotions then emotions[EmotionKey(user, e, d)].losses else 0
  }

  /** Summing over the keys of one user and emotion is summing over their days. */
  lemma {:induction false} SumOverDays(keys: set<EmotionKey>, user: string, e: Emotion, f: EmotionKey -> int,
                                       g: int -> int)
    requires forall k :: k in keys ==> k.user == user && k.emotion == e && f(k) == g(k.day)
    ensures SumSet(keys, f) == SumSet(set k | k in keys :: k.day, g)
    decreases |keys|
  {
    var days := set k | k in keys :: k.day;
    if keys == {} {
      assert days == {};
    } else {
      var k :| k in keys;
      var rest := keys - {k};
      var restDays := set j | j in rest :: j.day;
      SumRemove(keys, k, f);
      SumOverDays(rest, user, e, f, g);
      assert k.day !in restDays;
      assert days == restDays + {k.day};
      SumAdd(restDays, k.day, g);
    }
  }

  /**
   The rates of a response: one for each emotion with a tally on a day of the range, with the wins and
   losses of those days, and their wins divided by both.
   */
  lemma {:induction false} RatesExact(rates: seq<EmotionRate>, emotions: map<EmotionKey, Tally>, user: string,
                                      from: Zoned, to: Zoned, i: nat)
    requires AreRates(rates, emotions, user, from, to) && i < |rates|
    ensures var e, first, last := rates[i].emotion, CivilDay(from), CivilDay(to);
            var days := Days(emotions, user, e, first, last);
            && days != {}
            && rates[i].wins == SumSet(days, DayWins(emotions, user, e))
            && rates[i].losses == SumSet(days, DayLosses(emotions, user, e))
            && IsShare(rates[i].winRate, rates[i].wins, rates[i].wins + rates[i].losses)
  {
    var e := rates[i].emotion;
    var keys, days := EmotionDays(emotions, user, e, from, to), Days(emotions, user, e, CivilDay(from), CivilDay(to));
    assert IsRate(rates[i], emotions, user, from, to);
    assert days == set k | k in keys :: k.day;
    SumOverDays(keys, user, e, WinsAt(emotions), DayWins(emotions, user, e));
    SumOverDays(keys, user, e, LossesAt(emotions), DayLosses(emotions, user, e));
    var k :| k in keys;
    assert k.day in days;
  }

  lemma {:induction false} EmotionHasRate(rates: seq<EmotionRate>, emotions: map<EmotionKey, Tally>, user: string,
                                         from: Zoned, to: Zoned, k: EmotionKey) returns (i: nat)
    requires AreRates(rates, emotions, user, from, to)
    requires k in emotions && k.user == user && CivilDay(from) <= k.day <= CivilDay(to)
    ensures i < |rates| && rates[i].emotion == k.emotion
  {
    assert k in EmotionDays(emotions, user, k.emotion, from, to);
    i :| 0 <= i < |rates| && rates[i].emotion == k.emotion;
  }

  /**
   The two plain counts of a response whose queries succeed: the user's flagged trades with an entry in the
   closed range, and the user's overtrading events emitted in it.
   */
  lemma {:induction false} CountsExact(b: Body, s: Snapshot, r: Request, parse: Parser)
    requires WellTimed(r, parse) && PartRight(2, b, s, r, parse) && PartRight(3, b, s, r, parse)
    ensures var from, to := parse(r.fromText).value.instant, parse(r.toText).value.instant;
            && b.revengeTrades in {0, |set i | 0 <= i < |s.trades| && s.trades[i].userId == r.user
                                               && s.trades[i].revenge && from <= s.trades[i].entryAt <= to|}
            && b.overtradingEvents in {0, |set i | 0 <= i < |s.events| && s.events[i].user == r.user
                                                   && from <= s.events[i].emittedAt <= to|}
  {
    var from, to := parse(r.fromText).value.instant, parse(r.toText).value.instant;
    CountOfIndices(s.trades, RevengeIn(r.user, from, to),
                   set i | 0 <= i < |s.trades| && s.trades[i].userId == r.user && s.trades[i].revenge
                           && from <= s.trades[i].entryAt <= to);
    CountOfIndices(s.events, EmittedIn(r.user, from, to),
                   set i | 0 <= i < |s.events| && s.events[i].user == r.user && from <= s.events[i].emittedAt <= to);
  }
}
