/**
 Trades and the arithmetic of internal/domain. Go decimals are exact, so they are `real` until they
 are stored; a NUMERIC(18,8) column then keeps a whole number of 1e-8 units and a NUMERIC(5,4)
 column a whole number of 1e-4 units.
 */
module Domain {
  import opened Prelude
  import opened Timeline

  datatype Direction = Long | Short
  datatype Status = Open | Closed | Cancelled
  datatype Outcome = Win | Loss
  datatype Emotion = Calm | Anxious | Greedy | Fearful | Neutral

  /** The client's payload; asset, asset class and rationale are copied through and not modelled. */
  datatype TradeInput = TradeInput(
    tradeId: string, userId: string, sessionId: string, direction: Direction,
    entryPrice: real, exitPrice: Option<real>, quantity: real,
    entryAt: int, exitAt: Option<int>, status: Status,
    planAdherence: Option<int>, emotion: Option<Emotion>)

  /** A trade in the handler's hands, not yet stored. */
  datatype Draft = Draft(input: TradeInput, pnl: Option<real>, outcome: Option<Outcome>, revenge: bool)

  /** A row of the trades table. */
  datatype Trade = Trade(
    tradeId: string, userId: string, sessionId: string, direction: Direction,
    entryPrice: int, exitPrice: Option<int>, quantity: int,
    entryAt: int, exitAt: Option<int>, status: Status,
    planAdherence: Option<int>, emotion: Option<Emotion>,
    outcome: Option<Outcome>, pnl: Option<int>, revenge: bool)

  /** What TradeInput.Validate leaves to check once the enumerations are types. */
  predicate ValidInput(t: TradeInput) {
    && t.tradeId != "" && t.userId != "" && t.sessionId != ""
    && t.entryPrice != 0.0 && t.quantity != 0.0
    && t.entryAt != ZERO_TIME
    && (t.planAdherence.Some? ==> 1 <= t.planAdherence.value <= 5)
  }

  // ---- stored decimals ----

  const UNITS := 100_000_000.0
  const RATIO_UNITS := 10_000.0
  const NUMERIC_18_8 := 1_000_000_000_000_000_000
  const NUMERIC_5_4 := 100_000

  /** NUMERIC rounds half away from zero. */
  function Rounded(x: real): int {
    if x >= 0.0 then (x + 0.5).Floor else -(0.5 - x).Floor
  }

  function Numeric8(x: real): int { Rounded(x * UNITS) }

  function Numeric4(x: real): int { Rounded(x * RATIO_UNITS) }

  lemma {:induction false} RoundedBounds(x: real)
    ensures -0.5 <= Rounded(x) as real - x <= 0.5
    ensures x >= 0.0 ==> Rounded(x) >= 0
    ensures x <= 0.0 ==> Rounded(x) <= 0
    ensures Rounded(-x) == -Rounded(x)
  {
    if x >= 0.0 {
      assert (x + 0.5).Floor as real <= x + 0.5 < (x + 0.5).Floor as real + 1.0;
    } else {
      assert (0.5 - x).Floor as real <= 0.5 - x < (0.5 - x).Floor as real + 1.0;
    }
    assert 0.5 - (-x) == x + 0.5;
  }

  lemma {:induction false} RoundedMonotone(x: real, y: real)
    requires x <= y
    ensures Rounded(x) <= Rounded(y)
  {
    RoundedBounds(x);
    RoundedBounds(y);
    if x >= 0.0 {
      assert (x + 0.5).Floor <= (y + 0.5).Floor;
    } else if y < 0.0 {
      assert (0.5 - y).Floor <= (0.5 - x).Floor;
    }
  }

  // ---- profit and loss ----

  function ComputePnL(d: Direction, entry: real, exit: real, quantity: real): (real, Outcome) {
    var pnl := match d
      case Long => (exit - entry) * quantity
      case Short => (entry - exit) * quantity;
    (pnl, if pnl > 0.0 then Win else Loss)
  }

  /**
   A stored win has pnl at least 0 and a stored loss at most 0, although the outcome is decided
   before rounding; swapping the direction negates the stored pnl.
   */
  lemma {:induction false} PnlSigns(d: Direction, entry: real, exit: real, quantity: real)
    ensures var (pnl, outcome) := ComputePnL(d, entry, exit, quantity);
            (outcome == Win ==> Numeric8(pnl) >= 0) && (outcome == Loss ==> Numeric8(pnl) <= 0)
    ensures Numeric8(ComputePnL(Long, entry, exit, quantity).0) == -Numeric8(ComputePnL(Short, entry, exit, quantity).0)
    ensures var (pnl, _) := ComputePnL(d, entry, exit, quantity);
            -0.5 <= Numeric8(pnl) as real - pnl * UNITS <= 0.5
    ensures (ComputePnL(Long, entry, exit, quantity).1 == ComputePnL(Short, entry, exit, quantity).1)
            <==> ComputePnL(d, entry, exit, quantity).0 == 0.0
  {
    var pnl := ComputePnL(d, entry, exit, quantity).0;
    RoundedBounds(pnl * UNITS);
    var long, short := (exit - entry) * quantity, (entry - exit) * quantity;
    assert long == -short by { assert entry - exit == -(exit - entry); }
    assert long * UNITS == -(short * UNITS);
    RoundedBounds(short * UNITS);
  }

  // ---- the handler's draft and the stored row ----

  function BuildDraft(t: TradeInput): Draft {
    if t.status == Closed && t.exitPrice.Some? then
      var (pnl, outcome) := ComputePnL(t.direction, t.entryPrice, t.exitPrice.value, t.quantity);
      Draft(t, Some(pnl), Some(outcome), false)
    else
      Draft(t, None, None, false)
  }

  function StoredAmount(x: Option<real>): Option<int> {
    match x case None => None case Some(v) => Some(Numeric8(v))
  }

  function StoredInstant(t: Option<int>): Option<int> {
    match t case None => None case Some(v) => Some(Stored(v))
  }

  /** The row that INSERT ... RETURNING gives back. */
  function StoredTrade(d: Draft): Trade {
    var t := d.input;
    Trade(t.tradeId, t.userId, t.sessionId, t.direction,
          Numeric8(t.entryPrice), StoredAmount(t.exitPrice), Numeric8(t.quantity),
          Stored(t.entryAt), StoredInstant(t.exitAt), t.status,
          t.planAdherence, t.emotion, d.outcome, StoredAmount(d.pnl), d.revenge)
  }

  predicate Fits(units: int) { -NUMERIC_18_8 < units < NUMERIC_18_8 }

  /** The column types accept the row; otherwise the INSERT reports an error and stores nothing. */
  predicate Storable(t: Trade) {
    && Fits(t.entryPrice) && Fits(t.quantity)
    && (t.exitPrice.Some? ==> Fits(t.exitPrice.value))
    && (t.pnl.Some? ==> Fits(t.pnl.value))
    && (t.planAdherence.Some? ==> 1 <= t.planAdherence.value <= 5)
  }

  /** A NUMERIC(18,8) column takes an amount exactly when it rounds to less than 10^10 either way. */
  lemma {:induction false} AmountFits(x: real)
    ensures Fits(Numeric8(x)) <==> -9_999_999_999.999_999_995 < x < 9_999_999_999.999_999_995
  {
    var y := x * UNITS;
    if y >= 0.0 {
      assert (y + 0.5).Floor as real <= y + 0.5 < (y + 0.5).Floor as real + 1.0;
    } else {
      assert (0.5 - y).Floor as real <= 0.5 - y < (0.5 - y).Floor as real + 1.0;
    }
  }

  /** What an amount looks like in a NUMERIC(18,8) column: the nearest whole number of 1e-8 units. */
  predicate IsNumeric8(units: int, x: real) { -0.5 <= units as real - x * 100_000_000.0 <= 0.5 }

  /** And in a NUMERIC(5,4) column, in units of 1e-4. */
  predicate IsNumeric4(units: int, x: real) { -0.5 <= units as real - x * 10_000.0 <= 0.5 }

  lemma {:induction false} StoredNearest(x: real)
    ensures IsNumeric8(Numeric8(x), x) && IsNumeric4(Numeric4(x), x)
  {
    RoundedBounds(x * UNITS);
    RoundedBounds(x * RATIO_UNITS);
  }

  /** The stored row of an input: amounts to the nearest 1e-8, instants cut to the microsecond. */
  lemma {:induction false} StoredFields(t: TradeInput, flag: bool)
    ensures var row := StoredTrade(BuildDraft(t).(revenge := flag));
            && row.tradeId == t.tradeId && row.userId == t.userId && row.sessionId == t.sessionId
            && row.direction == t.direction && row.status == t.status && row.planAdherence == t.planAdherence
            && row.emotion == t.emotion && row.revenge == flag
            && IsNumeric8(row.entryPrice, t.entryPrice) && IsNumeric8(row.quantity, t.quantity)
            && row.exitPrice.Some? == t.exitPrice.Some? && row.exitAt.Some? == t.exitAt.Some?
            && (t.exitPrice.Some? ==> IsNumeric8(row.exitPrice.value, t.exitPrice.value))
            && row.entryAt == t.entryAt - t.entryAt % 1_000
            && (t.exitAt.Some? ==> row.exitAt.value == t.exitAt.value - t.exitAt.value % 1_000)
  {
    StoredNearest(t.entryPrice);
    StoredNearest(t.quantity);
    if t.exitPrice.Some? { StoredNearest(t.exitPrice.value); }
  }

  lemma {:induction false} ShortProfit(entry: real, exit: real, quantity: real)
    ensures (entry - exit) * quantity == -((exit - entry) * quantity)
  {
    assert entry - exit == -(exit - entry);
  }

  lemma {:induction false} ProfitOfPrices(d: Direction, entry: real, exit: real, quantity: real)
    ensures var (pnl, outcome) := ComputePnL(d, entry, exit, quantity);
            var move := (exit - entry) * quantity;
            && pnl == (if d == Long then move else -move)
            && (outcome == Win <==> if d == Long then move > 0.0 else move < 0.0)
  {
    ShortProfit(entry, exit, quantity);
    match d case Long => case Short =>
  }

  /**
   The stored profit of a closed trade with an exit price is the price move times the quantity, negated
   for a short position, to the nearest 1e-8, and the trade is a win exactly when it is positive before
   rounding. Other trades have neither profit nor outcome.
   */
  lemma {:induction false} StoredProfit(t: TradeInput, flag: bool)
    ensures var row := StoredTrade(BuildDraft(t).(revenge := flag));
            if t.status == Closed && t.exitPrice.Some? then
              var move := (t.exitPrice.value - t.entryPrice) * t.quantity;
              && row.pnl.Some? && row.outcome.Some?
              && IsNumeric8(row.pnl.value, if t.direction == Long then move else -move)
              && (row.outcome == Some(Win) <==> if t.direction == Long then move > 0.0 else move < 0.0)
            else row.pnl == None && row.outcome == None
  {
    if t.status == Closed && t.exitPrice.Some? {
      ProfitOfPrices(t.direction, t.entryPrice, t.exitPrice.value, t.quantity);
      StoredNearest(ComputePnL(t.direction, t.entryPrice, t.exitPrice.value, t.quantity).0);
    }
  }

  /** A closed input with an exit price, an exit time and no profit. */
  predicate Loses(t: TradeInput) {
    && t.status == Closed && t.exitPrice.Some? && t.exitAt.Some?
    && var move := (t.exitPrice.value - t.entryPrice) * t.quantity;
       if t.direction == Long then move <= 0.0 else move >= 0.0
  }

  lemma {:induction false} LossOfPrices(t: TradeInput)
    requires Loses(t)
    ensures ComputePnL(t.direction, t.entryPrice, t.exitPrice.value, t.quantity).1 == Loss
  {
    ShortProfit(t.entryPrice, t.exitPrice.value, t.quantity);
    match t.direction case Long => case Short =>
  }

  lemma {:induction false} StoredLoss(t: TradeInput, flag: bool)
    requires Loses(t)
    ensures var row := StoredTrade(BuildDraft(t).(revenge := flag));
            && row.tradeId == t.tradeId && row.userId == t.userId
            && row.status == Closed && row.outcome == Some(Loss)
            && row.exitAt.Some? && row.exitAt.value / 1_000_000_000 == t.exitAt.value / 1_000_000_000
  {
    LossOfPrices(t);
    StoredKeepsSeconds(t.exitAt.value / 1_000_000_000, t.exitAt.value);
  }

  // ---- behavioural indicators ----

  const REVENGE_WINDOW := 90 * SECOND

  /** How long the exit time of a losing close is remembered. */
  const LAST_LOSS_TTL := 90 * SECOND

  function IsRevenge(prevExitAt: int, newEntryAt: int, emotion: Emotion): bool {
    var gap := newEntryAt - prevExitAt;
    !(gap >= REVENGE_WINDOW || gap < 0) && (emotion == Anxious || emotion == Fearful)
  }

  function SessionTiltIndex(lossFollow: int, total: int): real {
    if total == 0 then 0.0 else lossFollow as real / total as real
  }

  function SumOf(ratings: seq<int>): int {
    if ratings == [] then 0 else SumOf(ratings[..|ratings| - 1]) + ratings[|ratings| - 1]
  }

  function Mean(ratings: seq<int>): real
    requires ratings != []
  {
    SumOf(ratings) as real / |ratings| as real
  }

  function LastTen(ratings: seq<int>): seq<int> {
    if |ratings| > 10 then ratings[|ratings| - 10..] else ratings
  }

  method RollingAvg(ratings: seq<int>) returns (avg: real)
    ensures ratings == [] ==> avg == 0.0
    ensures ratings != [] ==> avg == Mean(LastTen(ratings))
    ensures ratings != [] ==>
              var last := if |ratings| > 10 then ratings[|ratings| - 10..] else ratings;
              avg == SumOf(last) as real / |last| as real
  {
    if |ratings| == 0 {
      return 0.0;
    }
    var start := 0;
    if |ratings| > 10 {
      start := |ratings| - 10;
    }
    var subset := ratings[start..];
    assert subset == LastTen(ratings);
    var sum := 0;
    for i := 0 to |subset|
      invariant sum == SumOf(subset[..i])
    {
      assert subset[..i + 1][..i] == subset[..i];
      sum := sum + subset[i];
    }
    assert subset[..|subset|] == subset;
    avg := sum as real / |subset| as real;
  }

  lemma {:induction false} SumOfBounds(ratings: seq<int>, lo: int, hi: int)
    requires forall i :: 0 <= i < |ratings| ==> lo <= ratings[i] <= hi
    ensures lo * |ratings| <= SumOf(ratings) <= hi * |ratings|
  {
    if ratings != [] {
      var l := |ratings| - 1;
      SumOfBounds(ratings[..l], lo, hi);
      assert lo * |ratings| == lo * l + lo && hi * |ratings| == hi * l + hi;
    }
  }

  lemma {:induction false} ScaleOrder(x: real, y: real, k: real)
    requires 0.0 < k
    ensures x * k <= y * k <==> x <= y
  {
    assert (y - x) * k == y * k - x * k;
  }

  lemma {:induction false} QuotientBounds(a: int, n: int, lo: int, hi: int)
    requires 0 < n && lo * n <= a <= hi * n
    ensures lo as real <= a as real / n as real <= hi as real
  {
    var q := a as real / n as real;
    assert q * n as real == a as real;
    ScaleOrder(lo as real, q, n as real);
    ScaleOrder(q, hi as real, n as real);
    assert (lo * n) as real == lo as real * n as real && (hi * n) as real == hi as real * n as real;
  }

  lemma {:induction false} MeanBounds(ratings: seq<int>, lo: int, hi: int)
    requires ratings != []
    requires forall i :: 0 <= i < |ratings| ==> lo <= ratings[i] <= hi
    ensures lo as real <= Mean(ratings) <= hi as real
  {
    SumOfBounds(ratings, lo, hi);
    QuotientBounds(SumOf(ratings), |ratings|, lo, hi);
  }
}
