/** The health check's queue lag: the time part of the last stream entry's id, against the clock. */
module QueueLag {

  const TWO_63 := 0x8000_0000_0000_0000
  const TWO_64 := 0x1_0000_0000_0000_0000

  /** int64 arithmetic wraps around. */
  function Int64(x: int): int {
    (x + TWO_63) % TWO_64 - TWO_63
  }

  function Digit(c: char): int { c as int - '0' as int }

  /** What the digit loop accumulates over a prefix of the id. */
  function Accumulated(s: string): int {
    if s == "" then 0 else Int64(Accumulated(s[..|s| - 1]) * 10 + Digit(s[|s| - 1]))
  }

  /** The text before the first '-', if there is one. */
  function TimePart(id: string): string
    requires '-' in id
    decreases |id|
  {
    if id[0] == '-' then "" else [id[0]] + TimePart(id[1..])
  }

  function Lag(ts: int, now: int): int {
    if ts > 0 then (if Int64(now - ts) < 0 then 0 else Int64(now - ts)) else 0
  }

  /** getQueueLag on the last entry's id; an id without '-' leaves ts at 0. */
  method GetQueueLag(id: string, now: int) returns (lag: int)
    ensures '-' in id ==> lag == Lag(Accumulated(TimePart(id)), now)
    ensures '-' !in id ==> lag == 0
  {
    var ts := 0;
    var i := 0;
    var found := false;
    while i < |id| && !found
      invariant 0 <= i <= |id|
      invariant !found ==> ts == 0 && '-' !in id[..i]
      invariant found ==> '-' in id && ts == Accumulated(TimePart(id))
      decreases |id| - i, !found
    {
      if id[i] == '-' {
        var prefix := id[..i];
        TimePartIs(id, i);
        for k := 0 to |prefix|
          invariant ts == Accumulated(prefix[..k])
        {
          assert prefix[..k + 1][..k] == prefix[..k];
          ts := Int64(ts * 10 + Digit(prefix[k]));
        }
        assert prefix[..|prefix|] == prefix;
        found := true;
      } else {
        i := i + 1;
      }
    }
    lag := 0;
    if ts > 0 {
      lag := Int64(now - ts);
      if lag < 0 {
        lag := 0;
      }
    }
  }

  lemma {:induction false} TimePartIs(id: string, i: nat)
    requires i < |id| && id[i] == '-' && '-' !in id[..i]
    ensures TimePart(id) == id[..i]
    decreases i
  {
    if i > 0 {
      assert id[0] == id[..i][0];
      assert id[1..][..i - 1] == id[1..i];
      forall k | 0 <= k < i - 1 ensures id[1..][k] != '-' { assert id[1..][k] == id[..i][k + 1]; }
      TimePartIs(id[1..], i - 1);
      assert [id[0]] + id[1..i] == id[..i];
    }
  }

  // ---- the printer, and its inverse ----

  /** The decimal text of a number. */
  function Decimal(n: nat): string {
    if n < 10 then [('0' as int + n) as char] else Decimal(n / 10) + [('0' as int + n % 10) as char]
  }

  function StreamId(ms: nat, sequence: nat): string {
    Decimal(ms) + "-" + Decimal(sequence)
  }

  lemma {:induction false} Int64Fits(x: int)
    requires -TWO_63 <= x < TWO_63
    ensures Int64(x) == x
  {
  }

  /** No step of the loop overflows on the digits of a number below 2^63. */
  lemma {:induction false} DecimalRoundTrip(n: nat)
    requires n < TWO_63
    ensures Accumulated(Decimal(n)) == n
    ensures forall i :: 0 <= i < |Decimal(n)| ==> '0' <= Decimal(n)[i] <= '9'
    ensures Decimal(n) != ""
  {
    if n < 10 {
      var s := Decimal(n);
      assert s[..|s| - 1] == "";
      Int64Fits(n);
    } else {
      DecimalRoundTrip(n / 10);
      var s := Decimal(n);
      assert s[..|s| - 1] == Decimal(n / 10);
      assert n / 10 * 10 + n % 10 == n;
      Int64Fits(n);
    }
  }

  /**
   For every id that Redis issues, with a time below 2^63 ms and any sequence number, the loops
   recover the time exactly, and the lag is the clock's distance from it, never negative.
   */
  lemma {:induction false} LagOfStreamId(ms: nat, sequence: nat, now: int)
    requires 1 <= ms < TWO_63 && 0 <= now < TWO_63
    ensures var id := StreamId(ms, sequence);
            '-' in id && Accumulated(TimePart(id)) == ms
            && Lag(Accumulated(TimePart(id)), now) == (if now > ms then now - ms else 0)
  {
    var id := StreamId(ms, sequence);
    var i := |Decimal(ms)|;
    DecimalRoundTrip(ms);
    assert id[i] == '-' && id[..i] == Decimal(ms);
    TimePartIs(id, i);
    Int64Fits(now - ms);
  }
}
