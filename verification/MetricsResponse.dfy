/** The response of GET /users/{userId}/metrics: its parts, and the tables that each part is read from. */
module MetricsResponse {
  import opened Prelude
  import opened Timeline
  import opened Domain
  import opened Sums
  import opened MetricsTable
  import opened RollUp
  import opened MetricsStore
  import opened MetricsCache

  /** The response without its echo of the request. */
  datatype Body = Body(points: seq<Point>, planScore: real, tilt: real, rates: seq<EmotionRate>,
                       revengeTrades: nat, overtradingEvents: nat)

  /** What the handler's queries read. */
  datatype Snapshot = Snapshot(rows: map<RowKey, Row>, emotions: map<EmotionKey, Tally>,
                               trades: seq<Trade>, events: seq<OvertradingEvent>)

  /** time.Parse for RFC 3339. */
  type Parser = string -> Option<Zoned>

  ghost predicate IsParser(parse: Parser) {
    parse("").None? && forall s :: parse(s).Some? ==> Accepted(s)
  }

  predicate WellTimed(r: Request, parse: Parser) {
    parse(r.fromText).Some? && parse(r.toText).Some?
  }

  // ---- the four queries, in the handler's order ----

  const PARTS := 4

  /** b presents these buckets. */
  ghost predicate Presents(b: Body, buckets: seq<Bucket>) {
    && b.points == PointsOf(buckets)
    && b.planScore == MeanOrZero(Present(buckets, PlanOfBucket))
    && b.tilt == MeanOrZero(Present(buckets, TiltOfBucket))
  }

  ghost predicate PointsRight(b: Body, rows: map<RowKey, Row>, r: Request, from: int, to: int) {
    exists buckets :: IsRollUp(buckets, rows, r.user, InRange(rows, r.user, from, to), Interval(r.granularity))
                      && Presents(b, buckets)
  }

  /** Part n of b answers r from s; a count whose query failed is 0. */
  ghost predicate PartRight(n: nat, b: Body, s: Snapshot, r: Request, parse: Parser)
    requires WellTimed(r, parse)
  {
    var from, to := parse(r.fromText).value, parse(r.toText).value;
    if n == 0 then PointsRight(b, s.rows, r, from.instant, to.instant)
    else if n == 1 then AreRates(b.rates, s.emotions, r.user, from, to)
    else if n == 2 then b.revengeTrades in {0, CountWhere(s.trades, RevengeIn(r.user, from.instant, to.instant))}
    else b.overtradingEvents in {0, CountWhere(s.events, EmittedIn(r.user, from.instant, to.instant))}
  }

  /** The first n parts are the same. */
  predicate SameParts(n: nat, b: Body, c: Body) {
    && (0 < n ==> b.points == c.points && b.planScore == c.planScore && b.tilt == c.tilt)
    && (1 < n ==> b.rates == c.rates)
    && (2 < n ==> b.revengeTrades == c.revengeTrades)
    && (3 < n ==> b.overtradingEvents == c.overtradingEvents)
  }

  lemma {:induction false} SamePartRight(n: nat, i: nat, b: Body, c: Body, s: Snapshot, r: Request, parse: Parser)
    requires WellTimed(r, parse) && i < n <= PARTS && SameParts(n, b, c) && PartRight(i, b, s, r, parse)
    ensures PartRight(i, c, s, r, parse)
  {
    if i == 0 {
      var from, to := parse(r.fromText).value.instant, parse(r.toText).value.instant;
      var buckets: seq<Bucket> :|
        IsRollUp(buckets, s.rows, r.user, InRange(s.rows, r.user, from, to), Interval(r.granularity))
        && Presents(b, buckets);
      assert Presents(c, buckets);
    }
  }

  // ---- later tables ----

  predicate CountsNonNegative(rows: map<RowKey, Row>) { forall k :: k in rows ==> 0 <= rows[k].trades }

  /** Metrics rows stay and their trade counts never go down. */
  predicate RowsGrown(rows: map<RowKey, Row>, later: map<RowKey, Row>) {
    forall k :: k in rows ==> k in later && rows[k].trades <= later[k].trades
  }

  predicate Grown(s: Snapshot, later: Snapshot) {
    RowsGrown(s.rows, later.rows) && s.trades <= later.trades && s.events <= later.events
  }

  /** An upsert of the worker is a growth. */
  lemma {:induction false} UpsertGrows(rows: map<RowKey, Row>, k: RowKey, add: Row)
    requires CountsNonNegative(rows) && 0 <= add.trades
    ensures RowsGrown(rows, Upsert(rows, k, add)) && CountsNonNegative(Upsert(rows, k, add))
  {
  }

  /** The trade count of each bucket that has a row in the range. */
  ghost function TradeCounts(rows: map<RowKey, Row>, r: Request, from: int, to: int): map<int, int> {
    var bs, w := InRange(rows, r.user, from, to), Interval(r.granularity);
    map g | g in Image(bs, BucketOf(w)) :: SumSet(Fiber(bs, BucketOf(w), g), RollUp.ColumnAt(rows, r.user, Trades))
  }

  lemma {:induction false} CountsGrow(rows: map<RowKey, Row>, later: map<RowKey, Row>, r: Request, from: int, to: int)
    requires RowsGrown(rows, later) && CountsNonNegative(rows) && CountsNonNegative(later)
    ensures var before, after := TradeCounts(rows, r, from, to), TradeCounts(later, r, from, to);
            forall g :: g in before ==> g in after && before[g] <= after[g]
  {
    var bs, bs', w := InRange(rows, r.user, from, to), InRange(later, r.user, from, to), Interval(r.granularity);
    assert bs <= bs' by {
      forall b | b in bs ensures b in bs' { assert RowKey(b, r.user) in later; }
    }
    forall g | g in Image(bs, BucketOf(w))
      ensures g in Image(bs', BucketOf(w))
      ensures SumSet(Fiber(bs, BucketOf(w), g), RollUp.ColumnAt(rows, r.user, Trades))
              <= SumSet(Fiber(bs', BucketOf(w), g), RollUp.ColumnAt(later, r.user, Trades))
    {
      SumMonotone(Fiber(bs, BucketOf(w), g), Fiber(bs', BucketOf(w), g),
                  RollUp.ColumnAt(rows, r.user, Trades), RollUp.ColumnAt(later, r.user, Trades));
    }
  }

  /** The points show exactly these trade counts, one point per bucket start. */
  ghost predicate Shows(points: seq<Point>, counts: map<int, int>) {
    && (forall i :: 0 <= i < |points| ==>
          points[i].bucket in counts && points[i].tradeCount == counts[points[i].bucket])
    && (forall g :: g in counts ==> exists i :: 0 <= i < |points| && points[i].bucket == g)
  }

  lemma {:induction false} PointsShowCounts(b: Body, rows: map<RowKey, Row>, r: Request, from: int, to: int)
    requires PointsRight(b, rows, r, from, to)
    ensures Shows(b.points, TradeCounts(rows, r, from, to))
  {
    var bs, w, counts := InRange(rows, r.user, from, to), Interval(r.granularity), TradeCounts(rows, r, from, to);
    var buckets: seq<Bucket> :| IsRollUp(buckets, rows, r.user, bs, w) && Presents(b, buckets);
    forall i | 0 <= i < |b.points|
      ensures b.points[i].bucket in counts && b.points[i].tradeCount == counts[b.points[i].bucket]
    {
      var bucket := buckets[i];
      assert bucket.start in Image(bs, BucketOf(w));
      assert Aggregates(bucket, rows, r.user, Fiber(bs, BucketOf(w), bucket.start));
      assert Col(bucket.sums, Trades) == counts[bucket.start];
    }
    forall g | g in counts ensures exists i :: 0 <= i < |b.points| && b.points[i].bucket == g {
      var i :| 0 <= i < |buckets| && buckets[i].start == g;
      assert b.points[i].bucket == g;
    }
  }

  /** No trade count of b's points, and neither of its two plain counts, exceeds the one in s. */
  ghost predicate Within(b: Body, s: Snapshot, r: Request, parse: Parser)
    requires WellTimed(r, parse)
  {
    var from, to := parse(r.fromText).value.instant, parse(r.toText).value.instant;
    && (forall i :: 0 <= i < |b.points| ==>
          b.points[i].bucket in TradeCounts(s.rows, r, from, to)
          && b.points[i].tradeCount <= TradeCounts(s.rows, r, from, to)[b.points[i].bucket])
    && b.revengeTrades <= CountWhere(s.trades, RevengeIn(r.user, from, to))
    && b.overtradingEvents <= CountWhere(s.events, EmittedIn(r.user, from, to))
  }

  lemma {:induction false} CountPrefix<T>(a: seq<T>, b: seq<T>, p: T -> bool)
    requires a <= b
    ensures CountWhere(a, p) <= CountWhere(b, p)
  {
    assert b == a + b[|a|..];
    CountConcat(a, b[|a|..], p);
  }

  lemma {:induction false} PointsWithin(b: Body, rows: map<RowKey, Row>, later: map<RowKey, Row>, r: Request,
                                        from: int, to: int)
    requires PointsRight(b, rows, r, from, to)
    requires RowsGrown(rows, later) && CountsNonNegative(rows) && CountsNonNegative(later)
    ensures forall i :: 0 <= i < |b.points| ==>
              b.points[i].bucket in TradeCounts(later, r, from, to)
              && b.points[i].tradeCount <= TradeCounts(later, r, from, to)[b.points[i].bucket]
  {
    PointsShowCounts(b, rows, r, from, to);
    CountsGrow(rows, later, r, from, to);
  }

  /** Parts read from earlier tables are within the current ones. */
  lemma {:induction false} EarlierWithin(b: Body, s0: Snapshot, s2: Snapshot, s3: Snapshot, s: Snapshot,
                                         r: Request, parse: Parser)
    requires WellTimed(r, parse)
    requires PartRight(0, b, s0, r, parse) && PartRight(2, b, s2, r, parse) && PartRight(3, b, s3, r, parse)
    requires Grown(s0, s) && Grown(s2, s) && Grown(s3, s) && CountsNonNegative(s0.rows) && CountsNonNegative(s.rows)
    ensures Within(b, s, r, parse)
  {
    var from, to := parse(r.fromText).value.instant, parse(r.toText).value.instant;
    PointsWithin(b, s0.rows, s.rows, r, from, to);
    CountPrefix(s2.trades, s.trades, RevengeIn(r.user, from, to));
    CountPrefix(s3.events, s.events, EmittedIn(r.user, from, to));
  }
}
