/** The queries over the trades table: session tilt, plan adherence ratings, pathology evidence. */
module TradeQueries {
  import opened Prelude
  import opened Domain
  import opened EventCodec
  import opened Sums
  import opened Query

  // ---- session tilt ----

  function InSession(session: string): Trade -> bool { (t: Trade) => t.sessionId == session }

  function ByEntry(): Trade -> Rank { (t: Trade) => Rank(0, t.entryAt) }

  /** s lists the trades of a session by entry. */
  ghost predicate IsSession(s: seq<Trade>, table: seq<Trade>, session: string) {
    OrderedListing(s, Where(table, InSession(session)), ByEntry())
  }

  /** LAG(outcome) OVER (ORDER BY entry_at), for one listing in entry order. */
  function PreviousOutcomes(s: seq<Trade>): seq<Option<Outcome>> {
    seq(|s|, i requires 0 <= i < |s| => if i == 0 then None else s[i - 1].outcome)
  }

  function WasLoss(): Option<Outcome> -> bool { (o: Option<Outcome>) => o == Some(Loss) }

  function WasDecided(): Option<Outcome> -> bool { (o: Option<Outcome>) => o.Some? }

  /** COUNT(*) FILTER (WHERE prev_outcome = 'loss') and COUNT(*), both where prev_outcome is not null. */
  ghost function TiltData(s: seq<Trade>): (int, int) {
    var decided := Where(PreviousOutcomes(s), WasDecided());
    (CountWhere(decided, WasLoss()), |decided|)
  }

  function Lost(): Trade -> bool { (t: Trade) => t.outcome == Some(Loss) }

  function Decided(): Trade -> bool { (t: Trade) => t.outcome.Some? }

  method GetSessionTiltData(table: seq<Trade>, session: string)
    returns (lossFollow: int, total: int, ghost listing: seq<Trade>)
    ensures IsSession(listing, table, session)
    ensures (lossFollow, total) == TiltData(listing)
    ensures 0 <= lossFollow <= total
  {
    var s := OrderBy(Where(table, InSession(session)), ByEntry());
    listing := s;
    lossFollow, total := 0, 0;
    var prev := PreviousOutcomes(s);
    for i := 0 to |prev|
      invariant 0 <= lossFollow <= total
      invariant total == |Where(prev[..i], WasDecided())|
      invariant lossFollow == CountWhere(Where(prev[..i], WasDecided()), WasLoss())
    {
      assert prev[..i + 1][..i] == prev[..i];
      CountAppend(Where(prev[..i], WasDecided()), prev[i], WasLoss());
      if prev[i].Some? {
        total := total + 1;
        if prev[i].value == Loss {
          lossFollow := lossFollow + 1;
        }
      }
    }
    assert prev[..|prev|] == prev;
  }

  lemma {:induction false} PreviousAppend(s: seq<Trade>, t: Trade)
    ensures PreviousOutcomes(s + [t])
            == PreviousOutcomes(s) + [if s == [] then None else s[|s| - 1].outcome]
  {
  }

  /** Appending a trade that enters last adds the previously last trade's outcome to the counts. */
  lemma {:induction false} TiltAppend(s: seq<Trade>, t: Trade)
    ensures TiltData(s + [t]) == if s == [] then (0, 0) else
              var last := s[|s| - 1];
              (TiltData(s).0 + (if last.outcome == Some(Loss) then 1 else 0),
               TiltData(s).1 + (if last.outcome.Some? then 1 else 0))
  {
    var prev, o := PreviousOutcomes(s), if s == [] then None else s[|s| - 1].outcome;
    PreviousAppend(s, t);
    WhereAppend(prev, o, WasDecided());
    CountAppend(Where(prev, WasDecided()), o, WasLoss());
    if s == [] {
      assert prev == [];
      CountZero(Where(prev, WasDecided()), WasLoss());
    }
  }

  /** The LAG query counts the losses and the outcomes of all trades but the last. */
  lemma {:induction false} TiltIsAllButLast(s: seq<Trade>)
    ensures s == [] ==> TiltData(s) == (0, 0)
    ensures s != [] ==> TiltData(s) == (CountWhere(s[..|s| - 1], Lost()), CountWhere(s[..|s| - 1], Decided()))
  {
    if s == [] {
      assert PreviousOutcomes(s) == [];
      CountZero(Where(PreviousOutcomes(s), WasDecided()), WasLoss());
    } else {
      var init, last := s[..|s| - 1], s[|s| - 1];
      assert s == init + [last];
      TiltIsAllButLast(init);
      TiltAppend(init, last);
      if init == [] {
        CountZero(init, Lost());
        CountZero(init, Decided());
      } else {
        var init', last' := init[..|init| - 1], init[|init| - 1];
        assert init == init' + [last'];
        CountAppend(init', last', Lost());
        CountAppend(init', last', Decided());
      }
    }
  }

  /**
   When one trade of the session enters after all others, the answer depends on the session's bag
   of trades alone: its losses and outcomes, less those of the latest trade.
   */
  lemma {:induction false} TiltOfSession(rows: seq<Trade>, s: seq<Trade>, latest: Trade)
    requires OrderedListing(s, rows, ByEntry())
    requires multiset(rows)[latest] == 1
    requires forall t :: t in rows && t != latest ==> t.entryAt < latest.entryAt
    ensures TiltData(s) == (CountWhere(rows, Lost()) - (if latest.outcome == Some(Loss) then 1 else 0),
                            CountWhere(rows, Decided()) - (if latest.outcome.Some? then 1 else 0))
  {
    LatestIsLast(rows, s, latest);
    TiltIsAllButLast(s);
    var init := s[..|s| - 1];
    assert s == init + [latest];
    CountAppend(init, latest, Lost());
    CountAppend(init, latest, Decided());
    CountBag(s, rows, Lost());
    CountBag(s, rows, Decided());
  }

  lemma {:induction false} LatestIsLast(rows: seq<Trade>, s: seq<Trade>, latest: Trade)
    requires OrderedListing(s, rows, ByEntry())
    requires multiset(rows)[latest] == 1
    requires forall t :: t in rows && t != latest ==> t.entryAt < latest.entryAt
    ensures s != [] && s[|s| - 1] == latest
  {
    assert latest in multiset(s);
    var i :| 0 <= i < |s| && s[i] == latest;
    var last := s[|s| - 1];
    assert last in multiset(rows);
    assert i == |s| - 1 || RankLe(ByEntry()(s[i]), ByEntry()(last));
  }

  /** The index is a ratio, and it fits NUMERIC(5,4). */
  lemma {:induction false} TiltInUnitInterval(lossFollow: int, total: int)
    requires 0 <= lossFollow <= total
    ensures total > 0 ==> SessionTiltIndex(lossFollow, total) * total as real == lossFollow as real
    ensures 0.0 <= SessionTiltIndex(lossFollow, total) <= 1.0
    ensures 0 <= Numeric4(SessionTiltIndex(lossFollow, total)) <= 10_000 < NUMERIC_5_4
  {
    if total > 0 {
      QuotientBounds(lossFollow, total, 0, 1);
    }
    var tilt := SessionTiltIndex(lossFollow, total);
    RoundedMonotone(0.0 * RATIO_UNITS, tilt * RATIO_UNITS);
    RoundedMonotone(tilt * RATIO_UNITS, 1.0 * RATIO_UNITS);
    assert Rounded(10_000.0) == 10_000;
  }

  // ---- plan adherence ratings ----

  function RatedBy(user: string): Trade -> bool {
    (t: Trade) => t.userId == user && t.status == Closed && t.planAdherence.Some?
  }

  /** ORDER BY exit_at DESC: PostgreSQL puts NULL first. */
  function ByExitDesc(): Trade -> Rank {
    (t: Trade) => if t.exitAt.Some? then Rank(1, -t.exitAt.value) else Rank(0, 0)
  }

  function Ratings(s: seq<Trade>): (r: seq<int>) {
    seq(|s|, i requires 0 <= i < |s| => s[i].planAdherence.GetOr(0))
  }

  /** s lists the user's rated closed trades, the latest exit first. */
  ghost predicate IsRated(s: seq<Trade>, table: seq<Trade>, user: string) {
    OrderedListing(s, Where(table, RatedBy(user)), ByExitDesc())
  }

  /** The ratings of the first trades of such a listing, at most limit of them. */
  ghost predicate AreLastRatings(ratings: seq<int>, table: seq<Trade>, user: string, limit: nat) {
    exists s :: IsRated(s, table, user) && ratings == Ratings(s[..Min(limit, |s|)])
  }

  method GetLastPlanAdherenceRatings(table: seq<Trade>, user: string, limit: nat) returns (ratings: seq<int>)
    ensures AreLastRatings(ratings, table, user, limit)
  {
    var s := OrderBy(Where(table, RatedBy(user)), ByExitDesc());
    assert IsRated(s, table, user);
    var n := Min(limit, |s|);
    ratings := [];
    for i := 0 to n
      invariant ratings == Ratings(s[..i])
    {
      ratings := ratings + [s[i].planAdherence.GetOr(0)];
    }
  }

  /** There is a rating exactly when the user has a rated closed trade. */
  lemma {:induction false} RatedOnes(ratings: seq<int>, table: seq<Trade>, user: string)
    requires AreLastRatings(ratings, table, user, 10)
    ensures ratings != [] <==> CountWhere(table, RatedBy(user)) > 0
  {
    var s :| IsRated(s, table, user) && ratings == Ratings(s[..Min(10, |s|)]);
    WhereCount(table, RatedBy(user));
    SameBagLength(s, Where(table, RatedBy(user)));
  }

  ghost predicate RatingsInRange(table: seq<Trade>) {
    forall t :: t in table && t.planAdherence.Some? ==> 1 <= t.planAdherence.value <= 5
  }

  /**
   With LIMIT 10 the last-ten cut of RollingAvg removes nothing: the average is the mean of the at
   most ten most recent ratings, and it lies in [1, 5] and fits NUMERIC(5,4). There is a rating
   exactly when the user has a rated closed trade.
   */
  lemma {:induction false} RollingOfLastTen(table: seq<Trade>, user: string, listing: seq<Trade>)
    requires RatingsInRange(table) && IsRated(listing, table, user)
    ensures var r := Ratings(listing[..Min(10, |listing|)]);
            && LastTen(r) == r && |r| == Min(10, CountWhere(table, RatedBy(user)))
            && (r != [] ==> 1.0 <= Mean(r) <= 5.0 && 10_000 <= Numeric4(Mean(r)) <= 50_000 < NUMERIC_5_4)
  {
    var r := Ratings(listing[..Min(10, |listing|)]);
    WhereCount(table, RatedBy(user));
    SameBagLength(listing, Where(table, RatedBy(user)));
    forall i | 0 <= i < |r| ensures 1 <= r[i] <= 5 {
      assert listing[i] in multiset(Where(table, RatedBy(user)));
      var j :| 0 <= j < |Where(table, RatedBy(user))| && Where(table, RatedBy(user))[j] == listing[i];
    }
    if r != [] {
      MeanBounds(r, 1, 5);
      RoundedMonotone(1.0 * RATIO_UNITS, Mean(r) * RATIO_UNITS);
      RoundedMonotone(Mean(r) * RATIO_UNITS, 5.0 * RATIO_UNITS);
      assert Rounded(10_000.0) == 10_000 && Rounded(50_000.0) == 50_000;
    }
  }

  /**
   NULL comes first in the listing, so the ratings averaged are those of trades with an exit time, and
   so of the latest exits, exactly when the user has no rated closed trade without one.
   */
  lemma {:induction false} LatestHaveExits(s: seq<Trade>, table: seq<Trade>, user: string)
    requires IsRated(s, table, user)
    ensures (forall i :: 0 <= i < Min(10, |s|) ==> s[i].exitAt.Some?)
            <==> forall t :: t in Where(table, RatedBy(user)) ==> t.exitAt.Some?
  {
    var rated := Where(table, RatedBy(user));
    forall t | t in rated && t.exitAt.None? ensures s != [] && s[0].exitAt.None? {
      assert t in multiset(rated);
      var j :| 0 <= j < |s| && s[j] == t;
      assert j == 0 || RankLe(ByExitDesc()(s[0]), ByExitDesc()(s[j]));
    }
    forall i | 0 <= i < |s| ensures s[i] in rated {
      assert s[i] in multiset(s);
    }
  }

  /** Such a trade can be stored: a closed, rated input need not have an exit time. */
  lemma {:induction false} RatedWithoutExit()
    ensures var input := TradeInput("t", "u", "s", Long, 1.0, Some(2.0), 1.0, 0, None, Closed, Some(3), None);
            var t := StoredTrade(BuildDraft(input));
            ValidInput(input) && Storable(t) && RatedBy("u")(t) && t.exitAt.None?
  {
    assert |"t"| == 1 && |"u"| == 1 && |"s"| == 1;
    assert Numeric8(1.0) == 100_000_000 && Numeric8(2.0) == 200_000_000;
  }

  // ---- what the worker's two reads can give for a message ----

  /** The plan adherence read gives nothing, or the rolling average of the user's ratings. */
  ghost predicate PlanRead(table: seq<Trade>, m: Message, plan: Option<real>) {
    plan.Some? ==>
      m.hasPlan &&
      exists ratings :: ratings != [] && AreLastRatings(ratings, table, m.userId, 10)
                        && plan.value == Mean(LastTen(ratings))
  }

  ghost function TiltOfListing(session: seq<Trade>): real {
    SessionTiltIndex(TiltData(session).0, TiltData(session).1)
  }

  /** The session read gives nothing, or the session's tilt index. */
  ghost predicate TiltRead(table: seq<Trade>, m: Message, tilt: Option<real>) {
    tilt.Some? ==>
      m.sessionId != "" && exists s :: IsSession(s, table, m.sessionId) && tilt.value == TiltOfListing(s)
  }

  /** Whatever the two reads give fits its column, as an average of ratings and as a ratio. */
  lemma {:induction false} ReadsInRange(table: seq<Trade>, m: Message, plan: Option<real>, tilt: Option<real>)
    requires RatingsInRange(table) && PlanRead(table, m, plan) && TiltRead(table, m, tilt)
    ensures plan.Some? ==> 10_000 <= Numeric4(plan.value) <= 50_000
    ensures tilt.Some? ==> 0 <= Numeric4(tilt.value) <= 10_000
  {
    if plan.Some? {
      var ratings :| ratings != [] && AreLastRatings(ratings, table, m.userId, 10)
                     && plan.value == Mean(LastTen(ratings));
      var listing :| IsRated(listing, table, m.userId) && ratings == Ratings(listing[..Min(10, |listing|)]);
      RollingOfLastTen(table, m.userId, listing);
    }
    if tilt.Some? {
      var s :| IsSession(s, table, m.sessionId) && tilt.value == TiltOfListing(s);
      TiltBounds(s);
      TiltInUnitInterval(TiltData(s).0, TiltData(s).1);
    }
  }

  lemma {:induction false} TiltBounds(s: seq<Trade>)
    ensures 0 <= TiltData(s).0 <= TiltData(s).1
  {
    var decided := Where(PreviousOutcomes(s), WasDecided());
    WhereCount(decided, WasLoss());
  }

  // ---- the two reads in terms of the trades themselves ----

  /** rows are the trades of the table, each as often as it is there, for which p holds. */
  ghost predicate AreRows(rows: seq<Trade>, table: seq<Trade>, p: Trade -> bool) {
    forall t :: multiset(rows)[t] == if p(t) then multiset(table)[t] else 0
  }

  lemma {:induction false} ListingRows(s: seq<Trade>, table: seq<Trade>, p: Trade -> bool, key: Trade -> Rank)
    requires OrderedListing(s, Where(table, p), key)
    ensures AreRows(s, table, p)
  {
    forall t ensures multiset(s)[t] == if p(t) then multiset(table)[t] else 0 {
      WhereBagCount(table, p, t);
    }
  }

  /** Of two exits in the listing the earlier one comes later, and no exit comes before a missing one. */
  lemma {:induction false} LatestExitsFirst(s: seq<Trade>, table: seq<Trade>, user: string, i: nat, j: nat)
    requires IsRated(s, table, user) && i < j < |s|
    ensures s[i].exitAt.Some? ==> s[j].exitAt.Some? && s[j].exitAt.value <= s[i].exitAt.value
  {
    assert RankLe(ByExitDesc()(s[i]), ByExitDesc()(s[j]));
  }

  function RatingSum(s: seq<Trade>): int {
    if s == [] then 0 else RatingSum(s[..|s| - 1]) + s[|s| - 1].planAdherence.GetOr(0)
  }

  lemma {:induction false} SumOfRatings(s: seq<Trade>)
    ensures SumOf(Ratings(s)) == RatingSum(s)
  {
    if s != [] {
      var l := |s| - 1;
      assert Ratings(s)[..l] == Ratings(s[..l]);
      SumOfRatings(s[..l]);
    }
  }

  lemma {:induction false} CutAt(s: seq<Trade>, table: seq<Trade>, user: string, n: nat)
    requires IsRated(s, table, user) && n <= |s|
    ensures forall t :: multiset(s[..n] + s[n..])[t]
                        == if t.userId == user && t.status == Closed && t.planAdherence.Some?
                           then multiset(table)[t] else 0
    ensures var a, b := s[..n], s[n..];
            forall i, j :: 0 <= i < |a| && 0 <= j < |b| && a[i].exitAt.Some? ==>
              b[j].exitAt.Some? && b[j].exitAt.value <= a[i].exitAt.value
  {
    assert s[..n] + s[n..] == s;
    ListingRows(s, table, RatedBy(user), ByExitDesc());
    var a, b := s[..n], s[n..];
    forall i, j | 0 <= i < |a| && 0 <= j < |b| && a[i].exitAt.Some?
      ensures b[j].exitAt.Some? && b[j].exitAt.value <= a[i].exitAt.value
    {
      LatestExitsFirst(s, table, user, i, n + j);
    }
  }

  lemma {:induction false} PlanListing(table: seq<Trade>, m: Message, plan: Option<real>) returns (s: seq<Trade>)
    requires PlanRead(table, m, plan) && plan.Some?
    ensures IsRated(s, table, m.userId) && s != []
    ensures plan.value == RatingSum(s[..Min(10, |s|)]) as real / Min(10, |s|) as real
  {
    var ratings :| ratings != [] && AreLastRatings(ratings, table, m.userId, 10)
                   && plan.value == Mean(LastTen(ratings));
    s :| IsRated(s, table, m.userId) && ratings == Ratings(s[..Min(10, |s|)]);
    SumOfRatings(s[..Min(10, |s|)]);
  }

  /**
   What a plan adherence read gives is the average rating of at most ten of the user's rated closed
   trades; when any such trade is left out there are ten of them, and it exited no later than each of
   those ten that has an exit time.
   */
  lemma {:induction false} AverageOfLatest(table: seq<Trade>, m: Message, plan: Option<real>)
    returns (averaged: seq<Trade>, others: seq<Trade>)
    requires PlanRead(table, m, plan) && plan.Some?
    ensures forall t :: multiset(averaged + others)[t]
                        == if t.userId == m.userId && t.status == Closed && t.planAdherence.Some?
                           then multiset(table)[t] else 0
    ensures 1 <= |averaged| <= 10 && (others != [] ==> |averaged| == 10)
    ensures forall i, j :: 0 <= i < |averaged| && 0 <= j < |others| && averaged[i].exitAt.Some? ==>
              others[j].exitAt.Some? && others[j].exitAt.value <= averaged[i].exitAt.value
    ensures plan.value == RatingSum(averaged) as real / |averaged| as real
  {
    var s := PlanListing(table, m, plan);
    var n := Min(10, |s|);
    averaged, others := s[..n], s[n..];
    CutAt(s, table, m.userId, n);
  }

  /**
   What a session read gives is the share of losses among the outcomes of the session's trades without
   the one that entered last; 0 when there are no outcomes.
   */
  lemma {:induction false} TiltOfOthers(table: seq<Trade>, m: Message, tilt: Option<real>) returns (s: seq<Trade>)
    requires TiltRead(table, m, tilt) && tilt.Some?
    ensures forall t :: multiset(s)[t] == if t.sessionId == m.sessionId then multiset(table)[t] else 0
    ensures forall i, j :: 0 <= i < j < |s| ==> s[i].entryAt <= s[j].entryAt
    ensures var lost := |set i | 0 <= i < |s| - 1 && s[i].outcome == Some(Loss)|;
            var decided := |set i | 0 <= i < |s| - 1 && s[i].outcome.Some?|;
            tilt.value == if decided == 0 then 0.0 else lost as real / decided as real
  {
    s :| IsSession(s, table, m.sessionId) && tilt.value == TiltOfListing(s);
    ListingRows(s, table, InSession(m.sessionId), ByEntry());
    forall i, j | 0 <= i < j < |s| ensures s[i].entryAt <= s[j].entryAt {
      assert RankLe(ByEntry()(s[i]), ByEntry()(s[j]));
    }
    TiltIsAllButLast(s);
    var init := if s == [] then [] else s[..|s| - 1];
    CountOfIndices(init, Lost(), set i | 0 <= i < |s| - 1 && s[i].outcome == Some(Loss));
    CountOfIndices(init, Decided(), set i | 0 <= i < |s| - 1 && s[i].outcome.Some?);
  }
}
