/** The metrics cache: its key, and the expiring store that also remembers the last loss of each user. */
module MetricsCache {
  import opened Prelude
  import opened Timeline
  import opened Domain
  import opened RollUp

  // ---- the key ----

  function GranularityText(g: Granularity): string {
    match g case Hourly => "hourly" case Daily => "daily" case Rolling30d => "rolling30d"
  }

  /** The query parameters as the client wrote them. */
  datatype Request = Request(user: string, fromText: string, toText: string, granularity: Granularity)

  function Key(r: Request): string {
    "metrics:" + r.user + ":" + r.fromText + ":" + r.toText + ":" + GranularityText(r.granularity)
  }

  predicate Digits(s: string, from: nat, n: nat) {
    from + n <= |s| && forall i :: from <= i < from + n ==> '0' <= s[i] <= '9'
  }

  /** time-offset of section 5.6 of RFC 3339, at position i up to the end. */
  predicate IsOffset(s: string, i: nat) {
    || (i + 1 == |s| && s[i] == 'Z')
    || (i + 6 == |s| && (s[i] == '+' || s[i] == '-') && Digits(s, i + 1, 2) && s[i + 3] == ':' && Digits(s, i + 4, 2))
  }

  /** date-time of section 5.6 of RFC 3339, with the capital T and Z that Go requires. */
  ghost predicate IsDateTime(s: string) {
    && Digits(s, 0, 4) && Digits(s, 5, 2) && Digits(s, 8, 2) && Digits(s, 11, 2) && Digits(s, 14, 2) && Digits(s, 17, 2)
    && s[4] == '-' && s[7] == '-' && s[10] == 'T' && s[13] == ':' && s[16] == ':'
    && (IsOffset(s, 19)
        || exists n: nat :: 1 <= n && 20 + n <= |s| && s[19] == '.' && Digits(s, 20, n) && IsOffset(s, 20 + n))
  }

  /**
   Every text that Go's time.Parse accepts for RFC 3339, including its leniencies (a one-digit hour, a
   comma before the fraction): ten characters of date, a T, and no second T.
   */
  predicate Accepted(s: string) {
    11 <= |s| && s[10] == 'T' && forall i :: 10 < i < |s| ==> s[i] != 'T'
  }

  lemma {:induction false} DateTimeAccepted(s: string)
    requires IsDateTime(s)
    ensures Accepted(s)
  {
  }

  predicate AcceptedRequest(r: Request) { Accepted(r.fromText) && Accepted(r.toText) }

  /** When two texts end in a colon and a tail, the shorter tail is the end of the longer one. */
  lemma {:induction false} LastPart(a: string, x: string, b: string, y: string)
    requires a + ":" + x == b + ":" + y && |x| <= |y|
    ensures |x| == |y| ==> a == b && x == y
    ensures |x| < |y| ==> y[|y| - |x| - 1] == ':' && y[|y| - |x|..] == x
  {
    var whole := a + ":" + x;
    assert x == whole[|whole| - |x|..];
    assert y == whole[|whole| - |y|..];
    assert whole[|a|] == ':' && whole[|b|] == ':';
    if |x| == |y| {
      assert a == whole[..|a|] && b == whole[..|b|];
    } else {
      assert y[|y| - |x| - 1] == whole[|a|];
    }
  }

  lemma {:induction false} ColonFreeTail(a: string, x: string, b: string, y: string)
    requires a + ":" + x == b + ":" + y && ':' !in x && ':' !in y
    ensures a == b && x == y
  {
    if |x| <= |y| { LastPart(a, x, b, y); } else { LastPart(b, y, a, x); }
  }

  /** No timestamp ends in a shorter one. */
  lemma {:induction false} SuffixFree(y: string, d: nat)
    requires Accepted(y) && 0 < d <= |y|
    ensures !Accepted(y[d..])
  {
  }

  lemma {:induction false} TimestampTail(a: string, x: string, b: string, y: string)
    requires a + ":" + x == b + ":" + y && Accepted(x) && Accepted(y)
    ensures a == b && x == y
  {
    if |x| < |y| { SuffixFree(y, |y| - |x|); }
    if |y| < |x| { SuffixFree(x, |x| - |y|); }
    if |x| <= |y| { LastPart(a, x, b, y); } else { LastPart(b, y, a, x); }
  }

  lemma {:induction false} GranularityTexts(g: Granularity, h: Granularity)
    ensures ':' !in GranularityText(g)
    ensures GranularityText(g) == GranularityText(h) ==> g == h
  {
  }

  /**
   Equal keys come from equal requests, for every user id (even one with colons): the timestamps
   contain colons, but the position of their T marks where each one starts.
   */
  lemma {:induction false} KeyInjective(r: Request, q: Request)
    requires AcceptedRequest(r) && AcceptedRequest(q) && Key(r) == Key(q)
    ensures r == q
  {
    var p := "metrics:";
    GranularityTexts(r.granularity, q.granularity);
    GranularityTexts(q.granularity, r.granularity);
    ColonFreeTail(p + r.user + ":" + r.fromText + ":" + r.toText, GranularityText(r.granularity),
                  p + q.user + ":" + q.fromText + ":" + q.toText, GranularityText(q.granularity));
    TimestampTail(p + r.user + ":" + r.fromText, r.toText, p + q.user + ":" + q.fromText, q.toText);
    TimestampTail(p + r.user, r.fromText, p + q.user, q.fromText);
    assert r.user == (p + r.user)[|p|..] && q.user == (p + q.user)[|p|..];
  }

  /** Without the handler's check of the timestamps two requests could share a key. */
  lemma {:induction false} UncheckedKeysCollide()
    ensures var r, q := Request("u", "a", "b:c", Daily), Request("u", "a:b", "c", Daily);
            r != q && Key(r) == Key(q) && !AcceptedRequest(r)
  {
  }

  // ---- the expiring store ----

  const METRICS_TTL := 300 * SECOND

  class MetricsCache<Body(==)> {
    var bodies: map<string, Expiring<Body>>
    var lastLoss: map<string, Expiring<int>>

    constructor ()
      ensures bodies == map[] && lastLoss == map[]
    {
      bodies, lastLoss := map[], map[];
    }

    method Get(now: int, key: string) returns (r: Option<Body>)
      ensures r.Some? <==> key in bodies && now < bodies[key].expires
      ensures r.Some? ==> r.value == bodies[key].value
    {
      if key in bodies && now < bodies[key].expires {
        return Some(bodies[key].value);
      }
      r := None;
    }

    method Set(now: int, key: string, body: Body)
      modifies this`bodies
      ensures bodies == old(bodies)[key := Expiring(body, now + 300_000_000_000)]
    {
      bodies := bodies[key := Expiring(body, now + METRICS_TTL)];
    }

    method SetLastLoss(now: int, user: string, exitAtUnix: int)
      modifies this`lastLoss
      ensures lastLoss == old(lastLoss)[user := Expiring(exitAtUnix, now + 90_000_000_000)]
    {
      lastLoss := lastLoss[user := Expiring(exitAtUnix, now + LAST_LOSS_TTL)];
    }

    /** 0 on a miss. */
    method GetLastLoss(now: int, user: string) returns (exitAtUnix: int)
      ensures exitAtUnix == if user in lastLoss && now < lastLoss[user].expires then lastLoss[user].value else 0
    {
      exitAtUnix := 0;
      if user in lastLoss && now < lastLoss[user].expires {
        exitAtUnix := lastLoss[user].value;
      }
    }
  }
}
