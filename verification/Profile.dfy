/** Pathology evidence and the profile built from it. */
module Profile {
  import opened Prelude
  import opened Timeline
  import opened Domain
  import opened Sums
  import opened Query

  datatype Pathology = RevengeTrading | Overtrading | FomoEntries | PlanNonAdherence | PrematureExit
                     | LossRunning | SessionTilt | TimeOfDayBias | PositionSizing

  const ALL_PATHOLOGIES := [RevengeTrading, Overtrading, FomoEntries, PlanNonAdherence, PrematureExit,
                            LossRunning, SessionTilt, TimeOfDayBias, PositionSizing]

  const EVIDENCE_LIMIT := 10

  function OfUser(user: string): Trade -> bool { (t: Trade) => t.userId == user }

  function InUserSession(user: string, session: string): Trade -> bool {
    (t: Trade) => t.userId == user && t.sessionId == session
  }

  function QuantityOf(user: string): Trade -> int { (t: Trade) => if t.userId == user then t.quantity else 0 }

  /**
   The trades table that one query sees, with the AVG(quantity) that the database computes for each
   user. AVG over NUMERIC is a quotient rounded to at least the column's eight places.
   */
  datatype Snapshot = Snapshot(trades: seq<Trade>, average: string -> real)

  function ExactAverage(db: Snapshot, user: string): real
    requires CountWhere(db.trades, OfUser(user)) > 0
  {
    Total(db.trades, QuantityOf(user)) as real / CountWhere(db.trades, OfUser(user)) as real
  }

  /** Rounding moves the average by at most half a unit of the eighth place. */
  ghost predicate RoundedAverage(db: Snapshot, user: string) {
    CountWhere(db.trades, OfUser(user)) > 0 ==>
      -0.5 <= db.average(user) - ExactAverage(db, user) <= 0.5
  }

  /** The WHERE clause of each pathology; None is no extra clause. */
  predicate Matches(db: Snapshot, user: string, p: Option<Pathology>, t: Trade) {
    t.userId == user &&
    match p
    case None => true
    case Some(RevengeTrading) => t.revenge
    case Some(Overtrading) => CountWhere(db.trades, InUserSession(user, t.sessionId)) > 8
    case Some(FomoEntries) => t.emotion == Some(Greedy)
    case Some(PlanNonAdherence) => t.planAdherence.Some? && t.planAdherence.value <= 2
    case Some(PrematureExit) => t.status == Closed && t.exitAt.Some? && t.exitAt.value - t.entryAt < 1_800 * SECOND
    case Some(LossRunning) =>
      t.outcome == Some(Loss) && t.pnl.Some? && (t.pnl.value > 10_000_000_000 || -t.pnl.value > 10_000_000_000)
    case Some(SessionTilt) =>
      exists u :: u in db.trades && u.userId == user && u.sessionId == t.sessionId && u.outcome == Some(Loss)
    case Some(TimeOfDayBias) => HourOfDay(t.entryAt) < 9 || HourOfDay(t.entryAt) > 15
    case Some(PositionSizing) => t.quantity as real > db.average(user) * 1.5
  }

  function HourOfDay(t: int): int { (t % DAY) / HOUR }

  function MatchOf(db: Snapshot, user: string, p: Option<Pathology>): Trade -> bool {
    (t: Trade) => Matches(db, user, p, t)
  }

  function ByEntryDesc(): Trade -> Rank { (t: Trade) => Rank(0, -t.entryAt) }

  /**
   The clause about position sizes compares with one and a half times the exact average, up to the
   rounding of AVG: a trade is listed when it is above by more than three quarters of a unit of the
   eighth place, and is not when it is below by as much.
   */
  lemma {:induction false} SizingIsAverage(db: Snapshot, user: string, t: Trade)
    requires t in db.trades && t.userId == user && RoundedAverage(db, user)
    ensures CountWhere(db.trades, OfUser(user)) > 0
    ensures var bound := ExactAverage(db, user) * 1.5;
            && (t.quantity as real > bound + 0.75 ==> Matches(db, user, Some(PositionSizing), t))
            && (t.quantity as real <= bound - 0.75 ==> !Matches(db, user, Some(PositionSizing), t))
  {
    CountZero(db.trades, OfUser(user));
    assert OfUser(user)(t);
  }

  /** The two clauses about sessions take all trades of a session or none. */
  lemma SessionClausesAreWhole(db: Snapshot, user: string, t: Trade, u: Trade)
    requires t.userId == u.userId == user && t.sessionId == u.sessionId
    ensures Matches(db, user, Some(Overtrading), t) <==> Matches(db, user, Some(Overtrading), u)
    ensures Matches(db, user, Some(SessionTilt), t) <==> Matches(db, user, Some(SessionTilt), u)
  {
  }

  /**
   The other clauses. Overtrading is a ninth trade in the session, by any count of its trades; an exit is
   premature before half an hour; a loss runs above an amount of 100; the hours kept are from 9:00 to 16:00.
   */
  lemma {:induction false} ClausesMean(db: Snapshot, user: string, t: Trade)
    requires t.userId == user
    ensures Matches(db, user, Some(RevengeTrading), t) <==> t.revenge
    ensures Matches(db, user, Some(Overtrading), t)
            <==> 9 <= |set i | 0 <= i < |db.trades| && db.trades[i].userId == user
                               && db.trades[i].sessionId == t.sessionId|
    ensures Matches(db, user, Some(FomoEntries), t) <==> t.emotion == Some(Greedy)
    ensures Matches(db, user, Some(PlanNonAdherence), t) <==> t.planAdherence.Some? && t.planAdherence.value < 3
    ensures Matches(db, user, Some(PrematureExit), t)
            <==> t.status == Closed && t.exitAt.Some? && t.exitAt.value < t.entryAt + 1_800_000_000_000
    ensures Matches(db, user, Some(LossRunning), t)
            <==> t.outcome == Some(Loss) && t.pnl.Some? && !(-10_000_000_000 <= t.pnl.value <= 10_000_000_000)
    ensures Matches(db, user, Some(SessionTilt), t)
            <==> exists i :: 0 <= i < |db.trades| && db.trades[i].userId == user
                             && db.trades[i].sessionId == t.sessionId && db.trades[i].outcome == Some(Loss)
    ensures Matches(db, user, Some(TimeOfDayBias), t)
            <==> !(32_400_000_000_000 <= t.entryAt % 86_400_000_000_000 < 57_600_000_000_000)
  {
    CountOfIndices(db.trades, InUserSession(user, t.sessionId),
                   set i | 0 <= i < |db.trades| && db.trades[i].userId == user
                           && db.trades[i].sessionId == t.sessionId);
    if i :| 0 <= i < |db.trades| && db.trades[i].userId == user
            && db.trades[i].sessionId == t.sessionId && db.trades[i].outcome == Some(Loss) {
      assert db.trades[i] in db.trades;
    }
  }

  // ---- evidence ----

  datatype Evidence = Evidence(tradeIds: seq<string>, sessionIds: seq<string>)

  function TradeIds(s: seq<Trade>): seq<string> { seq(|s|, i requires 0 <= i < |s| => s[i].tradeId) }

  function SessionIds(s: seq<Trade>): seq<string> { seq(|s|, i requires 0 <= i < |s| => s[i].sessionId) }

  /** Each element once, in the order of its first occurrence. */
  function FirstOccurrences(s: seq<string>): seq<string> {
    if s == [] then []
    else
      var l := |s| - 1;
      if s[l] in s[..l] then FirstOccurrences(s[..l]) else FirstOccurrences(s[..l]) + [s[l]]
  }

  function FirstIndex(s: seq<string>, x: string): nat
    requires x in s
  {
    if s[0] == x then 0 else 1 + FirstIndex(s[1..], x)
  }

  method GetEvidence(db: Snapshot, user: string, p: Option<Pathology>)
    returns (e: Evidence, ghost listing: seq<Trade>)
    ensures OrderedListing(listing, Where(db.trades, MatchOf(db, user, p)), ByEntryDesc())
    ensures var shown := if |listing| > 10 then listing[..10] else listing;
            e.tradeIds == TradeIds(shown) && e.sessionIds == FirstOccurrences(SessionIds(shown))
    ensures |e.tradeIds| == Hits(db, user, p)
  {
    var s := OrderBy(Where(db.trades, MatchOf(db, user, p)), ByEntryDesc());
    listing := s;
    SameBagLength(s, Where(db.trades, MatchOf(db, user, p)));
    WhereCount(db.trades, MatchOf(db, user, p));
    var shown := if |s| > EVIDENCE_LIMIT then s[..EVIDENCE_LIMIT] else s;
    var tradeIds, sessionIds := [], [];
    var sessionSet: set<string> := {};
    for i := 0 to |shown|
      invariant tradeIds == TradeIds(shown[..i])
      invariant sessionIds == FirstOccurrences(SessionIds(shown[..i]))
      invariant forall x :: x in sessionSet <==> x in SessionIds(shown[..i])
    {
      OneMoreShown(shown, i);
      tradeIds := tradeIds + [shown[i].tradeId];
      if shown[i].sessionId !in sessionSet {
        sessionSet := sessionSet + {shown[i].sessionId};
        sessionIds := sessionIds + [shown[i].sessionId];
      }
    }
    assert shown[..|shown|] == shown;
    e := Evidence(tradeIds, sessionIds);
  }

  lemma {:induction false} OneMoreShown(s: seq<Trade>, i: nat)
    requires i < |s|
    ensures TradeIds(s[..i + 1]) == TradeIds(s[..i]) + [s[i].tradeId]
    ensures SessionIds(s[..i + 1]) == SessionIds(s[..i]) + [s[i].sessionId]
    ensures FirstOccurrences(SessionIds(s[..i + 1]))
            == FirstOccurrences(SessionIds(s[..i]))
               + (if s[i].sessionId in SessionIds(s[..i]) then [] else [s[i].sessionId])
  {
    var sessions := SessionIds(s[..i + 1]);
    assert sessions[..i] == SessionIds(s[..i]) && sessions == SessionIds(s[..i]) + [s[i].sessionId];
  }

  /** The listing that evidence is cut from holds just the matching trades, the latest entry first. */
  lemma {:induction false} LatestEntriesFirst(db: Snapshot, user: string, p: Option<Pathology>, listing: seq<Trade>)
    requires OrderedListing(listing, Where(db.trades, MatchOf(db, user, p)), ByEntryDesc())
    ensures forall t :: multiset(listing)[t] == if Matches(db, user, p, t) then multiset(db.trades)[t] else 0
    ensures forall i, j :: 0 <= i < j < |listing| ==> listing[j].entryAt <= listing[i].entryAt
  {
    forall t ensures multiset(listing)[t] == if Matches(db, user, p, t) then multiset(db.trades)[t] else 0 {
      WhereBagCount(db.trades, MatchOf(db, user, p), t);
    }
    forall i, j | 0 <= i < j < |listing| ensures listing[j].entryAt <= listing[i].entryAt {
      assert RankLe(ByEntryDesc()(listing[i]), ByEntryDesc()(listing[j]));
    }
  }

  lemma {:induction false} FirstIndexOfPrefix(s: seq<string>, l: nat, x: string)
    requires l <= |s| && x in s[..l]
    ensures x in s && FirstIndex(s, x) == FirstIndex(s[..l], x) < l
    decreases l
  {
    if s[0] != x {
      assert s[..l][1..] == s[1..][..l - 1];
      assert s[..l][0] == s[0];
      FirstIndexOfPrefix(s[1..], l - 1, x);
    }
  }

  lemma {:induction false} FirstIndexAtEnd(s: seq<string>)
    requires s != [] && s[|s| - 1] !in s[..|s| - 1]
    ensures FirstIndex(s, s[|s| - 1]) == |s| - 1
  {
    if |s| > 1 {
      var t := s[1..];
      assert s[0] in s[..|s| - 1];
      forall k | 0 <= k < |t| - 1 ensures t[k] != t[|t| - 1] { assert t[k] == s[..|s| - 1][k + 1]; }
      FirstIndexAtEnd(t);
    }
  }

  /** The session list: no repeats, exactly the sessions of the listed trades, by first occurrence. */
  lemma {:induction false} SessionsDistinctInOrder(s: seq<string>)
    ensures var f := FirstOccurrences(s);
            && (forall x :: x in f <==> x in s)
            && (forall i, j :: 0 <= i < j < |f| ==> f[i] in s && f[j] in s && FirstIndex(s, f[i]) < FirstIndex(s, f[j]))
  {
    if s != [] {
      var l := |s| - 1;
      var f, g := FirstOccurrences(s), FirstOccurrences(s[..l]);
      SessionsDistinctInOrder(s[..l]);
      assert s == s[..l] + [s[l]];
      forall i | 0 <= i < |g|
        ensures f[i] == g[i] && g[i] in s[..l] && FirstIndex(s, g[i]) == FirstIndex(s[..l], g[i]) < l
      {
        assert g[i] in g;
        FirstIndexOfPrefix(s, l, g[i]);
      }
      if s[l] !in s[..l] {
        FirstIndexAtEnd(s);
      }
    }
  }

  // ---- the profile ----

  /** How many trades the LIMIT leaves. */
  function Hits(db: Snapshot, user: string, p: Option<Pathology>): nat {
    Min(EVIDENCE_LIMIT, CountWhere(db.trades, MatchOf(db, user, p)))
  }

  /** On one snapshot no pathology lists more trades than the unfiltered query. */
  lemma {:induction false} HitsWithinAll(db: Snapshot, user: string, p: Option<Pathology>)
    ensures Hits(db, user, p) <= Hits(db, user, None)
  {
    CountWeaken(db.trades, MatchOf(db, user, p), MatchOf(db, user, None));
  }

  /** At most ten, and otherwise as many as there are matching trades. */
  lemma {:induction false} HitsAreMatches(db: Snapshot, user: string, p: Option<Pathology>)
    ensures var matching := |set i | 0 <= i < |db.trades| && Matches(db, user, p, db.trades[i])|;
            Hits(db, user, p) == if matching > 10 then 10 else matching
  {
    CountOfIndices(db.trades, MatchOf(db, user, p),
                   set i | 0 <= i < |db.trades| && Matches(db, user, p, db.trades[i]));
  }

  datatype Finding = Finding(pathology: Pathology, confidence: real, sessions: seq<string>, trades: seq<string>)

  datatype Strength = DisciplinedExecution | EmotionalControl | RiskManagement | ConsistentSizing
                    | SelfAware | Committed

  /** The pathologies shown: the query succeeded and found at least two trades. */
  function Shown(db: Snapshot, user: string, failed: set<Pathology>): Pathology -> bool {
    (p: Pathology) => p !in failed && Hits(db, user, Some(p)) >= 2
  }

  function If<T>(c: bool, xs: seq<T>): seq<T> { if c then xs else [] }

  function StrengthsOf(shown: seq<Pathology>): seq<Strength> {
    If(PlanNonAdherence !in shown, [DisciplinedExecution])
    + If(RevengeTrading !in shown && SessionTilt !in shown, [EmotionalControl])
    + If(Overtrading !in shown, [RiskManagement])
    + If(PositionSizing !in shown, [ConsistentSizing])
    + If(shown != [], [SelfAware, Committed])
  }

  function PathologiesOf(fs: seq<Finding>): seq<Pathology> { seq(|fs|, i requires 0 <= i < |fs| => fs[i].pathology) }

  /** The place of a pathology in a profile. */
  function Place(p: Pathology): nat {
    match p
    case RevengeTrading => 0
    case Overtrading => 1
    case FomoEntries => 2
    case PlanNonAdherence => 3
    case PrematureExit => 4
    case LossRunning => 5
    case SessionTilt => 6
    case TimeOfDayBias => 7
    case PositionSizing => 8
  }

  lemma {:induction false} AllInPlace(p: Pathology)
    ensures |ALL_PATHOLOGIES| == 9 && ALL_PATHOLOGIES[Place(p)] == p
    ensures forall i :: 0 <= i < 9 ==> Place(ALL_PATHOLOGIES[i]) == i
  {
    match p
    case RevengeTrading =>
    case Overtrading =>
    case FomoEntries =>
    case PlanNonAdherence =>
    case PrematureExit =>
    case LossRunning =>
    case SessionTilt =>
    case TimeOfDayBias =>
    case PositionSizing =>
  }

  lemma {:induction false} WhereInOrder(ps: seq<Pathology>, q: Pathology -> bool)
    requires forall i, j :: 0 <= i < j < |ps| ==> Place(ps[i]) < Place(ps[j])
    ensures var s := Where(ps, q);
            && (forall p :: p in s <==> p in ps && q(p))
            && (forall i, j :: 0 <= i < j < |s| ==> Place(s[i]) < Place(s[j]))
  {
    if ps != [] {
      var l := |ps| - 1;
      assert ps == ps[..l] + [ps[l]];
      WhereInOrder(ps[..l], q);
      var kept := Where(ps[..l], q);
      forall i | 0 <= i < |kept| ensures Place(kept[i]) < Place(ps[l]) { assert kept[i] in kept; }
    }
  }

  /**
   The pathologies shown are just those whose query succeeded and which at least two trades match, each once
   and in a fixed order.
   */
  lemma {:induction false} ShownExactly(db: Snapshot, user: string, failed: set<Pathology>, p: Pathology)
    ensures var shown := Where(ALL_PATHOLOGIES, Shown(db, user, failed));
            var matching := |set i | 0 <= i < |db.trades| && Matches(db, user, Some(p), db.trades[i])|;
            && (p in shown <==> p !in failed && 2 <= matching)
            && (forall i, j :: 0 <= i < j < |shown| ==> Place(shown[i]) < Place(shown[j]))
  {
    AllInPlace(p);
    WhereInOrder(ALL_PATHOLOGIES, Shown(db, user, failed));
    HitsAreMatches(db, user, Some(p));
  }

  /** Each strength is the absence of its pathologies, and the last two need a pathology. */
  lemma {:induction false} StrengthsMean(shown: seq<Pathology>)
    ensures var s := StrengthsOf(shown);
            && (DisciplinedExecution in s <==> PlanNonAdherence !in shown)
            && (EmotionalControl in s <==> RevengeTrading !in shown && SessionTilt !in shown)
            && (RiskManagement in s <==> Overtrading !in shown)
            && (ConsistentSizing in s <==> PositionSizing !in shown)
            && (SelfAware in s <==> shown != []) && (Committed in s <==> shown != [])
  {
    StrengthParts(shown, DisciplinedExecution);
    StrengthParts(shown, EmotionalControl);
    StrengthParts(shown, RiskManagement);
    StrengthParts(shown, ConsistentSizing);
    StrengthParts(shown, SelfAware);
    StrengthParts(shown, Committed);
  }

  lemma {:induction false} StrengthParts(shown: seq<Pathology>, x: Strength)
    ensures x in StrengthsOf(shown)
            <==> || x in If(PlanNonAdherence !in shown, [DisciplinedExecution])
                 || x in If(RevengeTrading !in shown && SessionTilt !in shown, [EmotionalControl])
                 || x in If(Overtrading !in shown, [RiskManagement])
                 || x in If(PositionSizing !in shown, [ConsistentSizing])
                 || x in If(shown != [], [SelfAware, Committed])
  {
  }

  /** What a finding may claim when the unfiltered query listed `total` trades (1 if none). */
  predicate Supported(f: Finding, db: Snapshot, user: string, total: nat) {
    && |f.trades| == Hits(db, user, Some(f.pathology)) >= 2
    && 0.0 < f.confidence <= 1.0
    && 0 < total
    && (|f.trades| <= total ==> f.confidence == |f.trades| as real / total as real)
  }

  /** The finding for one pathology whose query succeeded; none below two trades. */
  method Assess(db: Snapshot, user: string, p: Pathology, total: nat) returns (f: Option<Finding>)
    requires 0 < total
    ensures f.Some? <==> Hits(db, user, Some(p)) >= 2
    ensures f.Some? ==> f.value.pathology == p && Supported(f.value, db, user, total)
  {
    var e, _ := GetEvidence(db, user, Some(p));
    if |e.tradeIds| == 0 {
      return None;
    }
    var confidence := |e.tradeIds| as real / total as real;
    if confidence > 1.0 {
      confidence := 1.0;
    }
    ConfidenceBounds(|e.tradeIds|, total);
    f := if |e.tradeIds| >= 2 then Some(Finding(p, confidence, e.sessionIds, e.tradeIds)) else None;
  }

  /**
   The profile of a user on one snapshot, `failed` being the pathologies whose query failed and
   `allFailed` the unfiltered query, whose error is ignored. Exactly the pathologies with two trades
   or more are shown, in the fixed order; and when the unfiltered query succeeded every confidence
   is the plain ratio, at most 1, so that the clamp changes nothing.
   */
  method BuildProfile(db: Snapshot, user: string, failed: set<Pathology>, allFailed: bool)
    returns (findings: seq<Finding>, strengths: seq<Strength>, totalTrades: nat)
    ensures totalTrades == if allFailed || Hits(db, user, None) == 0 then 1 else Hits(db, user, None)
    ensures PathologiesOf(findings) == Where(ALL_PATHOLOGIES, Shown(db, user, failed))
    ensures forall i :: 0 <= i < |findings| ==> Supported(findings[i], db, user, totalTrades)
    ensures !allFailed ==> forall i :: 0 <= i < |findings| ==>
              findings[i].confidence == |findings[i].trades| as real / totalTrades as real
    ensures strengths == StrengthsOf(PathologiesOf(findings))
  {
    totalTrades := 0;
    if !allFailed {
      var all, _ := GetEvidence(db, user, None);
      totalTrades := |all.tradeIds|;
    }
    if totalTrades == 0 {
      totalTrades := 1;
    }
    findings := [];
    for n := 0 to |ALL_PATHOLOGIES|
      invariant PathologiesOf(findings) == Where(ALL_PATHOLOGIES[..n], Shown(db, user, failed))
      invariant forall i :: 0 <= i < |findings| ==> Supported(findings[i], db, user, totalTrades)
    {
      var p := ALL_PATHOLOGIES[n];
      assert ALL_PATHOLOGIES[..n + 1][..n] == ALL_PATHOLOGIES[..n];
      if p !in failed {
        var f := Assess(db, user, p, totalTrades);
        if f.Some? {
          assert PathologiesOf(findings + [f.value]) == PathologiesOf(findings) + [p];
          findings := findings + [f.value];
        }
      }
    }
    assert ALL_PATHOLOGIES[..|ALL_PATHOLOGIES|] == ALL_PATHOLOGIES;
    forall i | !allFailed && 0 <= i < |findings| ensures |findings[i].trades| <= totalTrades {
      HitsWithinAll(db, user, Some(findings[i].pathology));
    }
    strengths := Strengths(PathologiesOf(findings));
  }

  method Strengths(shown: seq<Pathology>) returns (strengths: seq<Strength>)
    ensures strengths == StrengthsOf(shown)
  {
    var pathologySet := set p | p in shown;
    strengths := [];
    if PlanNonAdherence !in pathologySet {
      strengths := strengths + [DisciplinedExecution];
    }
    if RevengeTrading !in pathologySet && SessionTilt !in pathologySet {
      strengths := strengths + [EmotionalControl];
    }
    if Overtrading !in pathologySet {
      strengths := strengths + [RiskManagement];
    }
    if PositionSizing !in pathologySet {
      strengths := strengths + [ConsistentSizing];
    }
    if |shown| > 0 {
      strengths := strengths + [SelfAware, Committed];
    }
  }

  lemma {:induction false} ConfidenceBounds(hits: nat, total: nat)
    requires 0 < hits && 0 < total
    ensures 0.0 < hits as real / total as real
    ensures hits <= total ==> hits as real / total as real <= 1.0
  {
    var c := hits as real / total as real;
    assert c * total as real == hits as real;
    ScaleOrder(c, 0.0, total as real);
    ScaleOrder(c, 1.0, total as real);
  }

  /** When the table grows between the two queries, only the clamp keeps the confidence at 1. */
  lemma {:induction false} ClampNeededAcrossSnapshots(a: Trade, b: Trade, average: string -> real)
    requires a.userId == b.userId && a.revenge && b.revenge
    ensures Hits(Snapshot([a], average), a.userId, None) == 1
    ensures Hits(Snapshot([a, b], average), a.userId, Some(RevengeTrading)) == 2
  {
    var all := MatchOf(Snapshot([a], average), a.userId, None);
    var flagged := MatchOf(Snapshot([a, b], average), a.userId, Some(RevengeTrading));
    assert all(a) && flagged(a) && flagged(b);
    CountOfBoth(a, b, all);
    CountOfBoth(a, b, flagged);
  }

  lemma {:induction false} CountOfBoth(a: Trade, b: Trade, p: Trade -> bool)
    ensures CountWhere([a], p) == (if p(a) then 1 else 0)
    ensures CountWhere([a, b], p) == (if p(a) then 1 else 0) + (if p(b) then 1 else 0)
  {
    var none: seq<Trade> := [];
    CountAppend(none, a, p);
    CountAppend([a], b, p);
    assert none + [a] == [a] && [a] + [b] == [a, b];
  }
}
