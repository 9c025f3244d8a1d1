/**
 The overtrading window: one Redis sorted set per user, to which handler goroutines and the worker
 add with NX and which the worker prunes and counts.
 */
module SlidingWindow {
  import opened Prelude
  import opened Timeline
  import opened Sums

  type ZSet = map<string, int>

  const WINDOW_MS := 1_800_000
  const MAX_TRADES_PER_WINDOW := 10

  /** ZADD NX: an existing score stays. */
  function AddNX(z: ZSet, id: string, score: int): ZSet {
    if id in z then z else z[id := score]
  }

  /** ZREMRANGEBYSCORE 0 cut: both ends are included, and so a negative score is never removed. */
  function Pruned(z: ZSet, cut: int): ZSet {
    map id | id in z && !(0 <= z[id] <= cut) :: z[id]
  }

  /** ZCOUNT cut +inf. */
  function Counted(z: ZSet, cut: int): set<string> {
    set id | id in z && cut <= z[id]
  }

  /** Redis runs one command at a time, so any interleaving on one key is a sequence of commands. */
  datatype Command = Add(id: string, score: int) | Prune(cut: int) | CountFrom(cut: int)

  function Effect(z: ZSet, c: Command): ZSet {
    match c
    case Add(id, score) => AddNX(z, id, score)
    case Prune(cut) => Pruned(z, cut)
    case CountFrom(_) => z
  }

  function Exec(cmds: seq<Command>): ZSet {
    if cmds == [] then map[] else Effect(Exec(cmds[..|cmds| - 1]), cmds[|cmds| - 1])
  }

  lemma {:induction false} ExecMore(cmds: seq<Command>, c: Command)
    ensures Exec(cmds + [c]) == Effect(Exec(cmds), c)
  {
    assert (cmds + [c])[..|cmds|] == cmds;
  }

  // ---- the sorted sets as the client uses them ----

  function WindowKey(user: string): string { "user:" + user + ":trades-ts" }

  /** A ZADD NX by a handler's goroutine. */
  datatype Added = Added(key: string, id: string, score: int)

  /** What other goroutines add before the prune and before the count of a check. */
  datatype Others = Others(beforePrune: seq<Added>, beforeCount: seq<Added>)

  /** The commands executed on each set. */
  type Logs = map<string, seq<Command>>

  function LogIn(logs: Logs, key: string): seq<Command> {
    if key in logs then logs[key] else []
  }

  function Logged(logs: Logs, key: string, c: Command, runs: bool): Logs {
    if runs then logs[key := LogIn(logs, key) + [c]] else logs
  }

  function WithAdds(logs: Logs, adds: seq<Added>): Logs {
    if adds == [] then logs
    else
      var last := adds[|adds| - 1];
      Logged(WithAdds(logs, adds[..|adds| - 1]), last.key, Add(last.id, last.score), true)
  }

  /**
   One check, with the commands of other goroutines. The pipeline is not a transaction: after an
   error the server has executed some prefix of its three commands, `executed` of them.
   */
  function BeforeCount(logs: Logs, key: string, id: string, nowMs: int, cut: int, executed: nat, others: Others): Logs {
    var added := Logged(logs, key, Add(id, nowMs), 1 <= executed);
    var pruned := Logged(WithAdds(added, others.beforePrune), key, Prune(cut), 2 <= executed);
    WithAdds(pruned, others.beforeCount)
  }

  function AfterCheck(logs: Logs, key: string, id: string, nowMs: int, cut: int, executed: nat, others: Others): Logs {
    Logged(BeforeCount(logs, key, id, nowMs, cut, executed, others), key, CountFrom(cut), 3 <= executed)
  }

  /** The answer to ZCOUNT cut +inf. */
  function CountOf(z: ZSet, cut: int): nat { |Counted(z, cut)| }

  /** The last command of the log is a count at the cut, and this was its answer. */
  ghost predicate Answered(log: seq<Command>, cut: int, count: nat) {
    && log != [] && log[|log| - 1] == CountFrom(cut)
    && var z := Exec(log[..|log| - 1]); count == |set id | id in z && cut <= z[id]|
  }

  /** What the check is told, when all its commands are executed. */
  function CheckCount(logs: Logs, key: string, id: string, nowMs: int, cut: int, executed: nat, others: Others): nat {
    CountOf(Exec(LogIn(BeforeCount(logs, key, id, nowMs, cut, executed, others), key)), cut)
  }

  class ZSetClient {
    var sets: map<string, ZSet>
    ghost var logs: Logs

    constructor ()
      ensures Valid() && logs == map[]
    {
      sets, logs := map[], map[];
    }

    /** Each set is what its commands have made of it. */
    ghost predicate Valid()
      reads this
    {
      sets.Keys == logs.Keys && forall k :: k in sets ==> sets[k] == Exec(logs[k])
    }

    function Of(key: string): ZSet
      reads this
    {
      if key in sets then sets[key] else map[]
    }

    /** A command, if the server gets as far. */
    method Issue(key: string, c: Command, runs: bool) returns (count: nat)
      requires Valid()
      modifies this
      ensures Valid() && logs == Logged(old(logs), key, c, runs)
      ensures runs && c.CountFrom? ==> count == CountOf(Exec(LogIn(old(logs), key)), c.cut)
    {
      count := 0;
      if runs {
        var z := Of(key);
        ghost var log := LogIn(logs, key);
        assert z == Exec(log);
        ExecMore(log, c);
        sets := sets[key := Effect(z, c)];
        if c.CountFrom? {
          count := CountOf(z, c.cut);
        }
        logs := Logged(logs, key, c, true);
      }
    }

    method AddAll(adds: seq<Added>)
      requires Valid()
      modifies this
      ensures Valid() && logs == WithAdds(old(logs), adds)
    {
      for n := 0 to |adds|
        invariant Valid() && logs == WithAdds(old(logs), adds[..n])
      {
        assert adds[..n + 1][..n] == adds[..n];
        var _ := Issue(adds[n].key, Add(adds[n].id, adds[n].score), true);
      }
      assert adds[..|adds|] == adds;
    }

    method AddAndPrune(key: string, nowMs: int, tradeId: string, cut: int, executed: nat, others: Others)
      requires Valid()
      modifies this
      ensures Valid() && logs == BeforeCount(old(logs), key, tradeId, nowMs, cut, executed, others)
    {
      var _ := Issue(key, Add(tradeId, nowMs), 1 <= executed);
      AddAll(others.beforePrune);
      var _ := Issue(key, Prune(cut), 2 <= executed);
      AddAll(others.beforeCount);
    }

    method OvertradingCheck(key: string, nowMs: int, tradeId: string, windowMs: int, executed: nat, others: Others)
      returns (count: nat, ok: bool)
      requires Valid()
      modifies this
      ensures Valid() && (ok <==> 3 <= executed)
      ensures logs == AfterCheck(old(logs), key, tradeId, nowMs, nowMs - windowMs, executed, others)
      ensures ok ==> count == CheckCount(old(logs), key, tradeId, nowMs, nowMs - windowMs, executed, others)
    {
      var cut := nowMs - windowMs;
      AddAndPrune(key, nowMs, tradeId, cut, executed, others);
      ghost var before := logs;
      count := Issue(key, CountFrom(cut), 3 <= executed);
      ok := 3 <= executed;
      assert before == BeforeCount(old(logs), key, tradeId, nowMs, cut, executed, others);
      assert ok ==> count == CountOf(Exec(LogIn(before, key)), cut);
    }
  }

  // ---- every interleaving ----

  /** The handler scores a trade with its entry time in ms, the worker with the time in the event's text. */
  function HandlerScore(at: string -> int, id: string): int { UnixMilli(at(id)) }

  function WorkerScore(at: string -> int, id: string): int { UnixMilli(Reparsed(at(id))) }

  ghost predicate WellScored(cmds: seq<Command>, at: string -> int) {
    forall i :: 0 <= i < |cmds| && cmds[i].Add? ==>
      cmds[i].score == HandlerScore(at, cmds[i].id) || cmds[i].score == WorkerScore(at, cmds[i].id)
  }

  ghost function AddedTo(cmds: seq<Command>): set<string> {
    set i | 0 <= i < |cmds| && cmds[i].Add? :: cmds[i].id
  }

  /** Newer than the cut. For a negative cut nothing is pruned and ZCOUNT's own bound is inclusive. */
  predicate InWindow(score: int, cut: int) {
    cut <= score && !(0 <= score <= cut)
  }

  /** Check times before the present check did not run ahead of it. */
  ghost predicate CutsUpTo(cmds: seq<Command>, cut: int) {
    forall i :: 0 <= i < |cmds| && cmds[i].Prune? ==> cmds[i].cut <= cut
  }

  lemma {:induction false} ScoresClose(at: string -> int, id: string)
    requires Printable(at(id))
    ensures WorkerScore(at, id) == UnixSeconds(at(id)) * 1_000
    ensures WorkerScore(at, id) <= HandlerScore(at, id) < WorkerScore(at, id) + 1_000
    ensures 0 <= HandlerScore(at, id) ==> 0 <= WorkerScore(at, id)
  {
  }

  lemma {:induction false} AddedAppend(cmds: seq<Command>)
    requires cmds != []
    ensures var l := |cmds| - 1;
            AddedTo(cmds) == AddedTo(cmds[..l]) + if cmds[l].Add? then {cmds[l].id} else {}
  {
  }

  /** Members were added, with one of their two scores. */
  lemma {:induction false} MembersAdded(cmds: seq<Command>, at: string -> int)
    requires WellScored(cmds, at)
    ensures Exec(cmds).Keys <= AddedTo(cmds)
    ensures forall id :: id in Exec(cmds) ==>
              Exec(cmds)[id] == HandlerScore(at, id) || Exec(cmds)[id] == WorkerScore(at, id)
  {
    if cmds != [] {
      AddedAppend(cmds);
      MembersAdded(cmds[..|cmds| - 1], at);
    }
  }

  /** While checks do not run ahead, a trade newer than the cut stays in the set once added. */
  lemma {:induction false} NewTradesStay(cmds: seq<Command>, at: string -> int, cut: int, id: string)
    requires WellScored(cmds, at) && CutsUpTo(cmds, cut)
    requires id in AddedTo(cmds) && Printable(at(id)) && InWindow(WorkerScore(at, id), cut)
    ensures id in Exec(cmds) && cut <= Exec(cmds)[id]
  {
    ScoresClose(at, id);
    var l := |cmds| - 1;
    assert cmds != [];
    AddedAppend(cmds);
    if id in AddedTo(cmds[..l]) {
      NewTradesStay(cmds[..l], at, cut, id);
      MembersAdded(cmds[..l], at);
    } else {
      MembersAdded(cmds[..l], at);
      assert cmds[l].Add? && cmds[l].id == id;
    }
  }

  // ---- one check: its prune at p and its count at n, with adds of other goroutines between ----

  ghost predicate OneCheck(cmds: seq<Command>, p: nat, n: nat, cut: int) {
    && p < n < |cmds| && cmds[p] == Prune(cut) && cmds[n] == CountFrom(cut)
    && forall i :: p < i < n ==> cmds[i].Add?
  }

  /** The score that the first add of the trade after position p and before n gives it. */
  function FirstAdd(cmds: seq<Command>, p: nat, n: nat, id: string): Option<int>
    requires n <= |cmds|
    decreases n
  {
    if n <= p + 1 then None
    else
      var r := FirstAdd(cmds, p, n - 1, id);
      if r.None? && cmds[n - 1].Add? && cmds[n - 1].id == id then Some(cmds[n - 1].score) else r
  }

  /** What the adds since the prune have made of one member. */
  lemma {:induction false} SincePrune(cmds: seq<Command>, p: nat, n: nat, id: string)
    requires p < n <= |cmds| && forall i :: p < i < n ==> cmds[i].Add?
    ensures var z0, z := Exec(cmds[..p + 1]), Exec(cmds[..n]);
            && (id in z0 ==> id in z && z[id] == z0[id])
            && (id !in z0 ==> FirstAdd(cmds, p, n, id) == if id in z then Some(z[id]) else None)
    decreases n
  {
    if p + 1 < n {
      SincePrune(cmds, p, n - 1, id);
      assert cmds[..n] == cmds[..n - 1] + [cmds[n - 1]];
      ExecMore(cmds[..n - 1], cmds[n - 1]);
    }
  }

  lemma {:induction false} FirstAddScored(cmds: seq<Command>, at: string -> int, p: nat, n: nat, id: string)
    requires n <= |cmds| && WellScored(cmds, at)
    ensures var r := FirstAdd(cmds, p, n, id);
            r.Some? ==> r.value == HandlerScore(at, id) || r.value == WorkerScore(at, id)
    decreases n
  {
    if p + 1 < n { FirstAddScored(cmds, at, p, n - 1, id); }
  }

  /** A trade that is not in the window is counted exactly when its first add since the prune is at the cut. */
  lemma {:induction false} CountedAtCut(cmds: seq<Command>, at: string -> int, p: nat, n: nat, cut: int, id: string)
    requires OneCheck(cmds, p, n, cut) && WellScored(cmds, at)
    requires Printable(at(id)) && !InWindow(HandlerScore(at, id), cut)
    ensures id in Counted(Exec(cmds[..n]), cut) <==> FirstAdd(cmds, p, n, id) == Some(cut)
  {
    MembersAdded(cmds[..n], at);
    ScoresClose(at, id);
    FirstAddScored(cmds, at, p, n, id);
    SincePrune(cmds, p, n, id);
    if HandlerScore(at, id) == cut {
      MembersAdded(cmds[..p], at);
      assert cmds[..p + 1] == cmds[..p] + [cmds[p]];
      ExecMore(cmds[..p], cmds[p]);
      assert id !in Exec(cmds[..p + 1]);
    }
  }

  /**
   One check: whatever is counted was added and entered no earlier than the cut; a trade that is not
   newer than the cut is counted exactly when its first add since the check's own prune is at the
   cut; and if no earlier check ran ahead, every added trade whose whole-second entry time is newer
   than the cut is counted. Trades are those of the years 0 to 9999.
   */
  lemma {:induction false} WindowRefinement(cmds: seq<Command>, at: string -> int, p: nat, n: nat, cut: int)
    requires OneCheck(cmds, p, n, cut) && WellScored(cmds, at)
    ensures var c, counted := cmds[..n], Counted(Exec(cmds[..n]), cut);
            && (forall id :: id in counted ==> id in AddedTo(c))
            && (forall id :: id in counted && Printable(at(id)) ==> cut <= HandlerScore(at, id))
            && (forall id :: Printable(at(id)) && !InWindow(HandlerScore(at, id), cut) ==>
                  (id in counted <==> FirstAdd(cmds, p, n, id) == Some(cut)))
            && (CutsUpTo(c, cut) ==> forall id :: (id in AddedTo(c) && Printable(at(id))
                                                   && InWindow(WorkerScore(at, id), cut)) ==> id in counted)
  {
    var c := cmds[..n];
    MembersAdded(c, at);
    forall id | id in Counted(Exec(c), cut) && Printable(at(id)) ensures cut <= HandlerScore(at, id) {
      ScoresClose(at, id);
    }
    forall id | Printable(at(id)) && !InWindow(HandlerScore(at, id), cut)
      ensures id in Counted(Exec(c), cut) <==> FirstAdd(cmds, p, n, id) == Some(cut)
    {
      CountedAtCut(cmds, at, p, n, cut, id);
    }
    if CutsUpTo(c, cut) {
      forall id | id in AddedTo(c) && Printable(at(id)) && InWindow(WorkerScore(at, id), cut)
        ensures id in Counted(Exec(c), cut)
      {
        NewTradesStay(c, at, cut, id);
      }
    }
  }

  ghost predicate AddsAfter(log: seq<Command>, p: nat) {
    forall i :: p < i < |log| ==> log[i].Add?
  }

  lemma {:induction false} AddsKeep(logs: Logs, adds: seq<Added>, key: string, p: nat)
    requires p < |LogIn(logs, key)| && AddsAfter(LogIn(logs, key), p)
    ensures var later := LogIn(WithAdds(logs, adds), key); LogIn(logs, key) <= later && AddsAfter(later, p)
  {
    if adds != [] { AddsKeep(logs, adds[..|adds| - 1], key, p); }
  }

  /**
   A complete check of the client is one check in the log of its set: after all that was there it adds the
   trade, and the prune and the count come later in this order, with only adds in between.
   */
  lemma {:induction false} CheckIsOneCheck(logs: Logs, key: string, id: string, nowMs: int, cut: int, others: Others)
    returns (p: nat)
    ensures var log := LogIn(AfterCheck(logs, key, id, nowMs, cut, 3, others), key);
            && |LogIn(logs, key)| < p && LogIn(logs, key) + [Add(id, nowMs)] <= log
            && OneCheck(log, p, |log| - 1, cut)
            && log[..|log| - 1] == LogIn(BeforeCount(logs, key, id, nowMs, cut, 3, others), key)
  {
    var added := Logged(logs, key, Add(id, nowMs), true);
    var pruned := Logged(WithAdds(added, others.beforePrune), key, Prune(cut), true);
    p := |LogIn(pruned, key)| - 1;
    AddsKeep(added, others.beforePrune, key, |LogIn(logs, key)|);
    AddsKeep(pruned, others.beforeCount, key, p);
  }

  /** The same with the answer, for a pipeline of which the server executes at least the three commands. */
  lemma {:induction false} CompleteCheck(logs: Logs, key: string, id: string, nowMs: int, cut: int, executed: nat,
                                         others: Others)
    returns (p: nat, count: nat)
    requires 3 <= executed
    ensures var log := LogIn(AfterCheck(logs, key, id, nowMs, cut, executed, others), key);
            && LogIn(logs, key) + [Add(id, nowMs)] <= log && |LogIn(logs, key)| < p
            && OneCheck(log, p, |log| - 1, cut) && Answered(log, cut, count)
    ensures count == CheckCount(logs, key, id, nowMs, cut, executed, others)
  {
    p := CheckIsOneCheck(logs, key, id, nowMs, cut, others);
    var z := Exec(LogIn(BeforeCount(logs, key, id, nowMs, cut, executed, others), key));
    count := CountOf(z, cut);
    assert Counted(z, cut) == set id | id in z && cut <= z[id];
  }

  /** No two users share a set. */
  lemma {:induction false} WindowKeyInjective(user: string, other: string)
    ensures WindowKey(user) == "user:" + user + ":trades-ts"
    ensures WindowKey(user) == WindowKey(other) ==> user == other
  {
    if WindowKey(user) == WindowKey(other) {
      assert |user| == |other|;
      assert WindowKey(user)[5..5 + |user|] == user && WindowKey(other)[5..5 + |other|] == other;
    }
  }

  /** An uninterrupted check counts the pruned set when no score is negative. */
  lemma {:induction false} CountIsPrunedSize(z: ZSet, cut: int)
    requires 0 <= cut && forall id :: id in z ==> 0 <= z[id]
    ensures Counted(Pruned(z, cut), cut) == Pruned(z, cut).Keys
    ensures |Counted(Pruned(z, cut), cut)| == |Pruned(z, cut)|
  {
  }

  // ---- whole-second trades: the exact count, and exactly when it is exact ----

  ghost predicate WholeSeconds(cmds: seq<Command>, at: string -> int) {
    forall id :: id in AddedTo(cmds) ==> HandlerScore(at, id) == WorkerScore(at, id)
  }

  /** The specification: the distinct added trades newer than the cut. */
  ghost function Distinct(cmds: seq<Command>, at: string -> int, cut: int): set<string> {
    set id | id in AddedTo(cmds) && InWindow(WorkerScore(at, id), cut)
  }

  predicate Covers(c: Command, score: int) { c.Prune? && 0 <= score <= c.cut }

  ghost predicate LastsFrom(cmds: seq<Command>, i: nat, id: string, score: int) {
    && i < |cmds| && cmds[i].Add? && cmds[i].id == id
    && forall j :: i < j < |cmds| ==> !Covers(cmds[j], score)
  }

  /** Some add of the trade is not followed by a prune that reaches its score. */
  ghost predicate Survives(cmds: seq<Command>, id: string, score: int) {
    exists i: nat :: LastsFrom(cmds, i, id, score)
  }

  lemma {:induction false} SurvivesAppend(cmds: seq<Command>, id: string, score: int)
    requires cmds != []
    ensures var init, last := cmds[..|cmds| - 1], cmds[|cmds| - 1];
            Survives(cmds, id, score)
            <==> (last.Add? && last.id == id) || (Survives(init, id, score) && !Covers(last, score))
  {
    var l := |cmds| - 1;
    if cmds[l].Add? && cmds[l].id == id {
      assert LastsFrom(cmds, l, id, score);
    } else {
      if Survives(cmds, id, score) {
        var i: nat :| LastsFrom(cmds, i, id, score);
        assert LastsFrom(cmds[..l], i, id, score);
      }
      if Survives(cmds[..l], id, score) && !Covers(cmds[l], score) {
        var i: nat :| LastsFrom(cmds[..l], i, id, score);
        assert forall j :: i < j < l ==> cmds[..l][j] == cmds[j];
        assert LastsFrom(cmds, i, id, score);
      }
    }
  }

  lemma {:induction false} MemberSurvives(cmds: seq<Command>, at: string -> int, id: string)
    requires WellScored(cmds, at) && WholeSeconds(cmds, at)
    ensures id in Exec(cmds) <==> Survives(cmds, id, WorkerScore(at, id))
  {
    if cmds != [] {
      var l := |cmds| - 1;
      AddedAppend(cmds);
      MemberSurvives(cmds[..l], at, id);
      MembersAdded(cmds[..l], at);
      SurvivesAppend(cmds, id, WorkerScore(at, id));
    }
  }

  /** The trades that handlers add at the cut itself between a check's prune and its count. */
  ghost function AtCut(cmds: seq<Command>, p: nat, n: nat, cut: int): set<string> {
    set i | p < i < n && i < |cmds| && cmds[i].Add? && cmds[i].score == cut && 0 <= cut :: cmds[i].id
  }

  lemma {:induction false} SurvivesAtCut(cmds: seq<Command>, at: string -> int, p: nat, n: nat, cut: int, id: string)
    requires OneCheck(cmds, p, n, cut) && WellScored(cmds, at) && 0 <= cut
    requires HandlerScore(at, id) == WorkerScore(at, id) == cut
    ensures Survives(cmds[..n], id, cut) <==> id in AtCut(cmds, p, n, cut)
  {
    var c := cmds[..n];
    if i: nat :| LastsFrom(c, i, id, cut) {
      assert c[p] == cmds[p] && Covers(c[p], cut);
      assert p < i < n && cmds[i] == c[i];
    }
    if id in AtCut(cmds, p, n, cut) {
      var i: nat :| p < i < n && cmds[i].Add? && cmds[i].score == cut && cmds[i].id == id;
      forall j | i < j < |c| ensures !Covers(c[j], cut) { assert c[j] == cmds[j]; }
      assert LastsFrom(c, i, id, cut);
    }
  }

  /** Whether one trade is counted. */
  lemma {:induction false} WholeSecondMember(cmds: seq<Command>, at: string -> int, p: nat, n: nat, cut: int,
                                             id: string)
    requires OneCheck(cmds, p, n, cut) && WellScored(cmds, at) && WholeSeconds(cmds[..n], at)
    ensures var c := cmds[..n];
            var distinct, late := Distinct(c, at, cut), AtCut(cmds, p, n, cut);
            && !(id in distinct && id in late)
            && (id in Counted(Exec(c), cut)
                <==> (id in distinct && Survives(c, id, WorkerScore(at, id))) || id in late)
  {
    var c := cmds[..n];
    MembersAdded(c, at);
    MemberSurvives(c, at, id);
    if id in AtCut(cmds, p, n, cut) {
      var i: nat :| p < i < n && cmds[i].Add? && cmds[i].score == cut && cmds[i].id == id;
      assert c[i] == cmds[i] && id in AddedTo(c);
    }
    if id in AddedTo(c) && WorkerScore(at, id) == cut && 0 <= cut {
      SurvivesAtCut(cmds, at, p, n, cut, id);
    }
  }

  /**
   For whole-second trades a check counts the distinct trades newer than its cut that no check which
   ran ahead has pruned for good, and besides them just the trades that handlers added at the cut
   between its own prune and count. In time order, and with no such add, it counts exactly.
   */
  lemma {:induction false} ExactCount(cmds: seq<Command>, at: string -> int, p: nat, n: nat, cut: int)
    requires OneCheck(cmds, p, n, cut) && WellScored(cmds, at) && WholeSeconds(cmds[..n], at)
    ensures var c := cmds[..n];
            var counted, distinct, late := Counted(Exec(c), cut), Distinct(c, at, cut), AtCut(cmds, p, n, cut);
            && distinct !! late && late <= counted <= distinct + late
            && |counted| <= |distinct| + |late|
            && (|counted| == |distinct| + |late|
                <==> forall id :: id in distinct ==> Survives(c, id, WorkerScore(at, id)))
            && (CutsUpTo(c, cut) ==> counted == distinct + late)
  {
    var c := cmds[..n];
    var counted, distinct, late := Counted(Exec(c), cut), Distinct(c, at, cut), AtCut(cmds, p, n, cut);
    forall id
      ensures !(id in distinct && id in late)
      ensures id in counted <==> (id in distinct && Survives(c, id, WorkerScore(at, id))) || id in late
    {
      WholeSecondMember(cmds, at, p, n, cut, id);
    }
    assert |distinct + late| == |distinct| + |late|;
    if counted != distinct + late { SubsetSmaller(counted, distinct + late); }
    if CutsUpTo(c, cut) {
      forall id | id in distinct ensures id in counted {
        WholeIsPrintable(at, id);
        NewTradesStay(c, at, cut, id);
      }
    }
  }

  lemma {:induction false} WholeIsPrintable(at: string -> int, id: string)
    requires HandlerScore(at, id) == WorkerScore(at, id)
    ensures Printable(at(id))
  {
  }
}
