/**
 Time. An instant is a number of nanoseconds since the Unix epoch; no time zone is left once an
 instant is known. Three truncations meet in the pipeline: Go's Time.Truncate (counted from the
 zero time, 1 January of year 1), PostgreSQL's date_trunc and ::date in UTC (counted from the
 Unix epoch) and TimescaleDB's time_bucket (counted from Monday 3 January 2000).
 */
module Timeline {
  const MICRO := 1_000
  const MILLI := 1_000_000
  const SECOND := 1_000_000_000
  const HOUR := 3_600_000_000_000
  const DAY := 86_400_000_000_000
  const THIRTY_DAYS := 2_592_000_000_000_000

  // Go's zero time and TimescaleDB's default origin
  const ZERO_TIME := -62_135_596_800_000_000_000
  const BUCKET_ORIGIN := 946_857_600_000_000_000

  /** The latest multiple of width, counted from origin, that is not after t. */
  function TruncFrom(origin: int, width: int, t: int): int
    requires 0 < width
  {
    t - (t - origin) % width
  }

  // Time.Truncate in Go, and date_trunc and ::date in PostgreSQL
  function GoHour(t: int): int { t - (t - ZERO_TIME) % HOUR }
  function GoDay(t: int): int { t - (t - ZERO_TIME) % DAY }
  function SqlHour(t: int): int { t - t % HOUR }
  function SqlDay(t: int): int { t - t % DAY }

  /** TimescaleDB's time_bucket. */
  function TimeBucket(width: int, t: int): int
    requires 0 < width
  {
    TruncFrom(BUCKET_ORIGIN, width, t)
  }

  /** What Time.Unix() and Time.UnixMilli() return, and what RFC 3339 text without a fraction keeps. */
  function UnixSeconds(t: int): int { t / SECOND }

  function UnixMilli(t: int): int { t / MILLI }

  // 1 January of the years 0 and 10000, in Unix seconds
  const YEAR_0 := -62_167_219_200
  const YEAR_10000 := 253_402_300_800

  /** RFC 3339 text has four digits for the year. */
  predicate Printable(t: int) {
    YEAR_0 <= UnixSeconds(t) < YEAR_10000
  }

  /** What time.Parse makes of the text of t; the zero time when it refuses the text. */
  function Reparsed(t: int): int {
    if Printable(t) then UnixSeconds(t) * SECOND else ZERO_TIME
  }

  /** A TIMESTAMPTZ column keeps microseconds. */
  function Stored(t: int): int { t - t % MICRO }

  /** A parsed timestamp keeps its own offset from UTC. */
  datatype Zoned = Zoned(instant: int, offset: int)

  /** The calendar date of a timestamp in its own zone, which is how it becomes a DATE; dates are UTC midnights. */
  function CivilDay(z: Zoned): int { SqlDay(z.instant + z.offset) }

  lemma {:induction false} MultipleSize(d: int, n: int)
    requires 0 < d
    ensures 1 <= n ==> d <= d * n
    ensures n <= 0 ==> d * n <= 0
    ensures n <= -1 ==> d * n <= -d
  {
    if 1 <= n {
      assert d * n == d + d * (n - 1);
    } else if n <= -1 {
      assert d * n == -d + d * (n + 1);
    }
  }

  lemma {:induction false} NoSmallMultiple(d: int, n: int)
    requires -d < d * n < d
    ensures n == 0
  {
    MultipleSize(d, n);
  }

  lemma {:induction false} TruncBounds(origin: int, width: int, t: int)
    requires 0 < width
    ensures TruncFrom(origin, width, t) <= t < TruncFrom(origin, width, t) + width
    ensures (TruncFrom(origin, width, t) - origin) % width == 0
  {
    var q, r := (t - origin) / width, (t - origin) % width;
    assert TruncFrom(origin, width, t) - origin == width * q;
    MultipleMod(width, q);
  }

  lemma {:induction false} MultipleMod(d: int, q: int)
    requires 0 < d
    ensures (d * q) % d == 0
  {
    var m, r := (d * q) / d, (d * q) % d;
    assert d * (q - m) == r;
    NoSmallMultiple(d, q - m);
  }

  /** Truncation is the only multiple of the width in (t - width, t]. */
  lemma {:induction false} TruncUnique(origin: int, width: int, t: int, b: int)
    requires 0 < width && b <= t < b + width && (b - origin) % width == 0
    ensures TruncFrom(origin, width, t) == b
  {
    var q := (b - origin) / width;
    var p, r := (t - origin) / width, (t - origin) % width;
    assert width * (p - q) + r == t - b;
    NoSmallMultiple(width, p - q);
  }

  lemma {:induction false} MultipleOfMultiple(x: int, d: int, k: int)
    requires 0 < d && 0 < k && x % (d * k) == 0
    ensures x % d == 0
  {
    assert 0 < d * k;
    var q := x / (d * k);
    assert x == (d * k) * q;
    assert (d * k) * q == d * (k * q);
    MultipleMod(d, k * q);
  }

  /** Cutting an instant to a finer unit first does not change its coarser bucket. */
  lemma {:induction false} TruncNested(origin: int, fine: int, k: int, t: int)
    requires 0 < fine && 0 < k
    ensures 0 < fine * k
    ensures TruncFrom(origin, fine * k, TruncFrom(origin, fine, t)) == TruncFrom(origin, fine * k, t)
  {
    var wide := fine * k;
    assert 0 < wide;
    var f, b := TruncFrom(origin, fine, t), TruncFrom(origin, wide, t);
    TruncBounds(origin, fine, t);
    TruncBounds(origin, wide, t);
    MultipleOfMultiple(b - origin, fine, k);
    if f < b {
      MultipleGap(f - origin, b - origin, fine);
    }
    TruncUnique(origin, wide, f, b);
  }

  /** Two different multiples of d are at least d apart. */
  lemma {:induction false} MultipleGap(x: int, y: int, d: int)
    requires 0 < d && x % d == 0 && y % d == 0 && x < y
    ensures x + d <= y
  {
    var p, q := x / d, y / d;
    assert x == d * p && y == d * q;
    assert d * (q - p) == y - x;
    MultipleSize(d, q - p);
  }

  /** Cutting to microseconds does not go below a whole second. */
  lemma {:induction false} StoredKeepsSeconds(second: int, t: int)
    requires second * SECOND <= t
    ensures second * SECOND <= Stored(t) <= t
  {
    TruncBounds(0, MICRO, t);
    var whole := second * SECOND;
    assert whole == MICRO * (second * 1_000_000);
    MultipleMod(MICRO, second * 1_000_000);
    if Stored(t) < whole {
      MultipleGap(Stored(t), whole, MICRO);
    }
  }

  lemma {:induction false} ShiftMod(x: int, d: int, q: int)
    requires 0 < d
    ensures (x + d * q) % d == x % d
  {
    MultipleMod(d, q);
    var m, r := x / d, x % d;
    var m', r' := (x + d * q) / d, (x + d * q) % d;
    assert d * (m + q - m') == r' - r;
    NoSmallMultiple(d, m + q - m');
  }

  /**
   The three origins are whole days apart, so hours and days computed by the worker, by the batch
   statement and by time_bucket are the same hours and days.
   */
  lemma {:induction false} OriginsAgree(t: int)
    ensures GoHour(t) == SqlHour(t) == TimeBucket(HOUR, t)
    ensures GoDay(t) == SqlDay(t) == TimeBucket(DAY, t)
  {
    assert -ZERO_TIME == DAY * 719_162 && -ZERO_TIME == HOUR * 17_259_888;
    assert -BUCKET_ORIGIN == DAY * -10_959 && -BUCKET_ORIGIN == HOUR * -263_016;
    ShiftMod(t, DAY, 719_162);
    ShiftMod(t, HOUR, 17_259_888);
    ShiftMod(t, DAY, -10_959);
    ShiftMod(t, HOUR, -263_016);
  }

  /** Whole seconds lose nothing that an hour or a day bucket can see. */
  lemma {:induction false} SecondsKeepBuckets(t: int)
    ensures SqlHour(UnixSeconds(t) * SECOND) == SqlHour(t)
    ensures SqlDay(UnixSeconds(t) * SECOND) == SqlDay(t)
  {
    assert UnixSeconds(t) * SECOND == TruncFrom(0, SECOND, t);
    TruncNested(0, SECOND, 3_600, t);
    TruncNested(0, SECOND, 86_400, t);
  }

  lemma {:induction false} TruncNotBelow(width: int, b: int, t: int)
    requires 0 < width && b % width == 0 && b <= t
    ensures b <= TruncFrom(0, width, t)
  {
    TruncBounds(0, width, t);
    if TruncFrom(0, width, t) < b {
      MultipleGap(TruncFrom(0, width, t), b, width);
    }
  }

  lemma {:induction false} YearsAligned(width: int, t: int, u: int)
    requires (width == HOUR || width == DAY) && !Printable(t)
    ensures TruncFrom(0, width, t) != TruncFrom(0, width, Reparsed(u))
  {
    var v, first, end := Reparsed(u), YEAR_0 * SECOND, YEAR_10000 * SECOND;
    assert first % width == 0 && end % width == 0;
    assert first <= v < end;
    TruncBounds(0, width, t);
    TruncBounds(0, width, v);
    TruncNotBelow(width, first, v);
    if end <= t { TruncNotBelow(width, end, t); }
  }

  /** A bucket survives the trip through text exactly for the years 0 to 9999; the others land elsewhere. */
  lemma {:induction false} ReparsedBuckets(t: int, u: int)
    ensures Printable(t) ==> SqlHour(Reparsed(t)) == SqlHour(t)
    ensures Printable(t) ==> SqlDay(Reparsed(t)) == SqlDay(t)
    ensures !Printable(t) ==> SqlHour(t) != SqlHour(Reparsed(u))
    ensures !Printable(t) ==> SqlDay(t) != SqlDay(Reparsed(u))
  {
    SecondsKeepBuckets(t);
    if !Printable(t) {
      YearsAligned(HOUR, t, u);
      YearsAligned(DAY, t, u);
    }
  }

  /** A timestamp's own date is its UTC date exactly when the offset does not carry it over a midnight. */
  lemma {:induction false} CivilDayShift(z: Zoned)
    ensures CivilDay(z) == SqlDay(z.instant) <==> 0 <= z.instant % DAY + z.offset < DAY
  {
    var day := SqlDay(z.instant);
    TruncBounds(0, DAY, z.instant + z.offset);
    TruncBounds(0, DAY, z.instant);
    if day <= z.instant + z.offset < day + DAY {
      TruncUnique(0, DAY, z.instant + z.offset, day);
    }
  }

  lemma {:induction false} DayOfHour(t: int)
    ensures SqlDay(SqlHour(t)) == SqlDay(t)
  {
    TruncNested(0, HOUR, 24, t);
  }
}
