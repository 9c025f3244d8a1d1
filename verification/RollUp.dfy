/**
 Reading behavioral_metrics in time buckets: GROUP BY time_bucket(interval, bucket) over a user's
 hourly rows in a range, with sums and averages, and how roll-ups nest.
 */
module RollUp {
  import opened Prelude
  import opened Timeline
  import opened Domain
  import opened Sums
  import opened MetricsTable
  import opened Batch

  datatype Granularity = Hourly | Daily | Rolling30d

  function Interval(g: Granularity): (w: int)
    ensures w == HOUR || w == DAY || w == THIRTY_DAYS
  {
    match g case Hourly => HOUR case Daily => DAY case Rolling30d => THIRTY_DAYS
  }

  /** WHERE user_id = user AND bucket >= from AND bucket <= to. */
  function InRange(rows: map<RowKey, Row>, user: string, from: int, to: int): set<int> {
    set k | k in rows && k.user == user && from <= k.bucket <= to :: k.bucket
  }

  function BucketOf(w: int): int -> int
    requires 0 < w
  {
    (b: int) => TimeBucket(w, b)
  }

  function ColumnAt(rows: map<RowKey, Row>, user: string, c: Column): int -> int {
    (b: int) => Col(Cell(rows, RowKey(b, user)), c)
  }

  // the two nullable columns, in 1e-4 units
  datatype Ratio = Plan | Tilt

  function RatioIn(r: Row, x: Ratio): Option<int> {
    match x case Plan => r.plan case Tilt => r.tilt
  }

  ghost function NonNull(rows: map<RowKey, Row>, user: string, bs: set<int>, x: Ratio): set<int> {
    set b | b in bs && RatioIn(Cell(rows, RowKey(b, user)), x).Some?
  }

  function RatioAt(rows: map<RowKey, Row>, user: string, x: Ratio): int -> int {
    (b: int) => RatioIn(Cell(rows, RowKey(b, user)), x).GetOr(0)
  }

  /** AVG over the non-null values; NULL when there are none. */
  ghost function Average(rows: map<RowKey, Row>, user: string, bs: set<int>, x: Ratio): Option<real> {
    var some := NonNull(rows, user, bs, x);
    if some == {} then None
    else Some(SumSet(some, RatioAt(rows, user, x)) as real / |some| as real / RATIO_UNITS)
  }

  /** One row of the answer. `sums` holds the summed columns. */
  datatype Bucket = Bucket(start: int, sums: Row, plan: Option<real>, tilt: Option<real>)

  /** b aggregates exactly the hourly rows `bs`. */
  ghost predicate Aggregates(b: Bucket, rows: map<RowKey, Row>, user: string, bs: set<int>) {
    && (forall c :: Col(b.sums, c) == SumSet(bs, ColumnAt(rows, user, c)))
    && b.plan == Average(rows, user, bs, Plan)
    && b.tilt == Average(rows, user, bs, Tilt)
  }

  /** The answer to QueryRange: one bucket per group, in strictly increasing order. */
  ghost predicate IsRollUp(buckets: seq<Bucket>, rows: map<RowKey, Row>, user: string, bs: set<int>, w: int)
    requires 0 < w
  {
    && (forall i, j :: 0 <= i < j < |buckets| ==> buckets[i].start < buckets[j].start)
    && (forall g :: g in Image(bs, BucketOf(w)) <==> exists i :: 0 <= i < |buckets| && buckets[i].start == g)
    && (forall i :: 0 <= i < |buckets| ==> Aggregates(buckets[i], rows, user, Fiber(bs, BucketOf(w), buckets[i].start)))
  }

  // ---- the counts add up ----

  function SumOf(c: Column): Bucket -> int { (b: Bucket) => Col(b.sums, c) }

  ghost function FiberSum(bs: set<int>, w: int, f: int -> int): int -> int
    requires 0 < w
  {
    (g: int) => SumSet(Fiber(bs, BucketOf(w), g), f)
  }

  ghost function Starts(buckets: seq<Bucket>): set<int> {
    set i | 0 <= i < |buckets| :: buckets[i].start
  }

  lemma {:induction false} StartsAppend(buckets: seq<Bucket>, b: Bucket)
    ensures Starts(buckets + [b]) == Starts(buckets) + {b.start}
  {
    var more := buckets + [b];
    assert more[|buckets|] == b;
    forall i | 0 <= i < |buckets| ensures buckets[i].start in Starts(more) {
      assert more[i].start == buckets[i].start;
    }
    forall i | 0 <= i < |more| ensures more[i].start in Starts(buckets) + {b.start} {
      if i < |buckets| { assert buckets[i].start in Starts(buckets); }
    }
  }

  lemma {:induction false} TotalOverStarts(buckets: seq<Bucket>, c: Column, f: int -> int)
    requires forall i, j :: 0 <= i < j < |buckets| ==> buckets[i].start < buckets[j].start
    requires forall i :: 0 <= i < |buckets| ==> f(buckets[i].start) == Col(buckets[i].sums, c)
    ensures Total(buckets, SumOf(c)) == SumSet(Starts(buckets), f)
  {
    if buckets == [] {
      assert Starts(buckets) == {};
    } else {
      var init, last := buckets[..|buckets| - 1], buckets[|buckets| - 1];
      TotalOverStarts(init, c, f);
      assert last.start !in Starts(init);
      SumAdd(Starts(init), last.start, f);
      assert buckets == init + [last];
      StartsAppend(init, last);
    }
  }

  /** At every granularity the returned counts and pnl sum to those of the hourly rows in range. */
  lemma {:induction false} RollUpConserves(buckets: seq<Bucket>, rows: map<RowKey, Row>, user: string,
                                           bs: set<int>, w: int, c: Column)
    requires 0 < w && IsRollUp(buckets, rows, user, bs, w)
    ensures Total(buckets, SumOf(c)) == SumSet(bs, ColumnAt(rows, user, c))
  {
    var f := ColumnAt(rows, user, c);
    var total := FiberSum(bs, w, f);
    forall i | 0 <= i < |buckets| ensures total(buckets[i].start) == Col(buckets[i].sums, c) {
      assert Aggregates(buckets[i], rows, user, Fiber(bs, BucketOf(w), buckets[i].start));
    }
    TotalOverStarts(buckets, c, total);
    assert Starts(buckets) == Image(bs, BucketOf(w));
    SumByGroup(bs, BucketOf(w), f, total);
  }

  // ---- roll-ups nest ----

  lemma {:induction false} BucketNested(fine: int, k: int, b: int)
    requires 0 < fine && 0 < k
    ensures 0 < fine * k && TimeBucket(fine * k, TimeBucket(fine, b)) == TimeBucket(fine * k, b)
  {
    TruncNested(BUCKET_ORIGIN, fine, k, b);
  }

  /** Rolling up to fine buckets and then to coarse ones is rolling up to coarse ones directly. */
  lemma {:induction false} RollUpNests(bs: set<int>, f: int -> int, fine: int, k: int, g: int)
    requires 0 < fine && 0 < k && 0 < fine * k
    ensures var days := Image(bs, BucketOf(fine));
            && Image(days, BucketOf(fine * k)) == Image(bs, BucketOf(fine * k))
            && SumSet(Fiber(days, BucketOf(fine * k), g), FiberSum(bs, fine, f))
               == SumSet(Fiber(bs, BucketOf(fine * k), g), f)
  {
    var coarse := fine * k;
    var days := Image(bs, BucketOf(fine));
    var s := Fiber(bs, BucketOf(coarse), g);
    forall b ensures TimeBucket(coarse, TimeBucket(fine, b)) == TimeBucket(coarse, b) { BucketNested(fine, k, b); }
    NestedImage(bs, fine, coarse);
    NestedFiber(bs, fine, coarse, g);
    forall d | d in Image(s, BucketOf(fine))
      ensures FiberSum(bs, fine, f)(d) == SumSet(Fiber(s, BucketOf(fine), d), f)
    {
      assert Fiber(s, BucketOf(fine), d) == Fiber(bs, BucketOf(fine), d);
    }
    SumByGroup(s, BucketOf(fine), f, FiberSum(bs, fine, f));
  }

  lemma {:induction false} NestedImage(bs: set<int>, fine: int, coarse: int)
    requires 0 < fine && 0 < coarse
    requires forall b :: TimeBucket(coarse, TimeBucket(fine, b)) == TimeBucket(coarse, b)
    ensures Image(Image(bs, BucketOf(fine)), BucketOf(coarse)) == Image(bs, BucketOf(coarse))
  {
    var days := Image(bs, BucketOf(fine));
    forall b | b in bs ensures TimeBucket(coarse, b) in Image(days, BucketOf(coarse)) {
      assert BucketOf(fine)(b) in days;
      assert BucketOf(coarse)(BucketOf(fine)(b)) == TimeBucket(coarse, b);
    }
    forall g | g in Image(days, BucketOf(coarse)) ensures g in Image(bs, BucketOf(coarse)) {
      var d :| d in days && BucketOf(coarse)(d) == g;
      var b :| b in bs && BucketOf(fine)(b) == d;
      assert BucketOf(coarse)(b) == g;
    }
    forall g | g in Image(bs, BucketOf(coarse)) ensures g in Image(days, BucketOf(coarse)) {
      var b :| b in bs && BucketOf(coarse)(b) == g;
    }
  }

  lemma {:induction false} NestedFiber(bs: set<int>, fine: int, coarse: int, g: int)
    requires 0 < fine && 0 < coarse
    requires forall b :: TimeBucket(coarse, TimeBucket(fine, b)) == TimeBucket(coarse, b)
    ensures Image(Fiber(bs, BucketOf(coarse), g), BucketOf(fine))
            == Fiber(Image(bs, BucketOf(fine)), BucketOf(coarse), g)
  {
  }

  // ---- bounds ----

  /** On bounded rows every bucket's wins are between 0 and its trades. */
  lemma {:induction false} WinsWithinTrades(rows: map<RowKey, Row>, user: string, bs: set<int>)
    requires AllBounded(rows)
    ensures 0 <= SumSet(bs, ColumnAt(rows, user, Wins)) <= SumSet(bs, ColumnAt(rows, user, Trades))
  {
    SumMonotone(bs, bs, ColumnAt(rows, user, Wins), ColumnAt(rows, user, Trades));
    SumMonotone({}, bs, ColumnAt(rows, user, Wins), ColumnAt(rows, user, Wins));
  }

  /** An average of stored averages stays between the bounds of its inputs. */
  lemma {:induction false} AverageBounds(rows: map<RowKey, Row>, user: string, bs: set<int>, x: Ratio, lo: int, hi: int)
    requires forall b :: b in NonNull(rows, user, bs, x) ==> lo <= RatioAt(rows, user, x)(b) <= hi
    ensures var a := Average(rows, user, bs, x);
            a.Some? ==> lo as real <= a.value * RATIO_UNITS <= hi as real
  {
    var some := NonNull(rows, user, bs, x);
    if some != {} {
      SumSetBounds(some, RatioAt(rows, user, x), lo, hi);
      QuotientBounds(SumSet(some, RatioAt(rows, user, x)), |some|, lo, hi);
    }
  }

  lemma {:induction false} SumSetBounds<T(!new)>(s: set<T>, f: T -> int, lo: int, hi: int)
    requires forall b :: b in s ==> lo <= f(b) <= hi
    ensures lo * |s| <= SumSet(s, f) <= hi * |s|
    decreases |s|
  {
    if s != {} {
      var b :| b in s;
      var rest := s - {b};
      SumRemove(s, b, f);
      SumSetBounds(rest, f, lo, hi);
      OneMore(lo, |rest|, |s|);
      OneMore(hi, |rest|, |s|);
    }
  }

  lemma {:induction false} OneMore(x: int, n: int, m: int)
    requires m == n + 1
    ensures x * m == x * n + x
  {
  }
}
