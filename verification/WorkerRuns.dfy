/**
 What the worker's loop leaves in the metrics tables: the calls that `Worker.Run` reports are a fold over
 events, so without failed statements the tables are the batch statements over the processed trades.
 */
module WorkerRuns {
  import opened Domain
  import opened EventCodec
  import opened MetricsTable
  import opened Batch
  import opened Incremental
  import opened Rounds
  import G = ConsumerGroup

  function StepsOf(r: Round, calls: seq<Call>): seq<Step> {
    seq(|calls|, i requires 0 <= i < |calls| =>
      Step(calls[i].m, calls[i].seen, r.trouble(calls[i].id).faults))
  }

  function AllSteps(rounds: seq<Round>, calls: seq<seq<Call>>): seq<Step>
    requires |calls| == |rounds|
  {
    if rounds == [] then []
    else
      var l := |rounds| - 1;
      AllSteps(rounds[..l], calls[..l]) + StepsOf(rounds[l], calls[l])
  }

  lemma {:induction false} CallsTables(w: World, r: Round, calls: seq<Call>)
    ensures AfterCalls(w, r, calls).tables == RunAll(w.tables, StepsOf(r, calls))
  {
    if calls != [] {
      var l := |calls| - 1;
      CallsTables(w, r, calls[..l]);
      assert StepsOf(r, calls)[..l] == StepsOf(r, calls[..l]);
    }
  }

  lemma {:induction false} RoundsTables(w: World, rounds: seq<Round>, calls: seq<seq<Call>>)
    requires |calls| == |rounds|
    ensures AfterRounds(w, rounds, calls).tables == RunAll(w.tables, AllSteps(rounds, calls))
  {
    if rounds != [] {
      var l := |rounds| - 1;
      var before := AfterRounds(w, rounds[..l], calls[..l]);
      RoundsTables(w, rounds[..l], calls[..l]);
      CallsTables(Arrived(before, rounds[l]), rounds[l], calls[l]);
      RunAllConcat(w.tables, AllSteps(rounds[..l], calls[..l]), StepsOf(rounds[l], calls[l]));
    }
  }

  /** No counts or emotion statement fails. */
  ghost predicate Untroubled(rounds: seq<Round>) {
    forall n, id :: 0 <= n < |rounds| ==>
      !rounds[n].trouble(id).faults.counts && !rounds[n].trouble(id).faults.emotion
  }

  ghost predicate StepRight(steps: seq<Step>, ids: seq<nat>, entries: seq<Values>, i: nat) {
    i < |steps| && i < |ids| && ids[i] < |entries| && steps[i].m == Decode(entries[ids[i]])
  }

  /** The steps process the entries `ids`, in order. */
  ghost predicate StepsRight(steps: seq<Step>, ids: seq<nat>, entries: seq<Values>) {
    |steps| == |ids| && forall i: nat :: i < |steps| ==> StepRight(steps, ids, entries, i)
  }

  lemma {:induction false} BatchSteps(w: World, r: Round, calls: seq<Call>, entries: seq<Values>)
    requires BatchRight(w, r, calls, entries)
    ensures StepsRight(StepsOf(r, calls), IdsOf(calls), entries)
  {
    if calls != [] {
      var l := |calls| - 1;
      BatchSteps(w, r, calls[..l], entries);
      forall i: nat | i < |calls| ensures StepRight(StepsOf(r, calls), IdsOf(calls), entries, i) {
        if i < l { assert StepRight(StepsOf(r, calls[..l]), IdsOf(calls[..l]), entries, i); }
      }
    }
  }

  lemma {:induction false} StepsJoin(a: seq<Step>, b: seq<Step>, ids: seq<nat>, more: seq<nat>, entries: seq<Values>)
    requires StepsRight(a, ids, entries) && StepsRight(b, more, entries)
    ensures StepsRight(a + b, ids + more, entries)
  {
    forall i: nat | i < |a + b| ensures StepRight(a + b, ids + more, entries, i) {
      if i < |a| { assert StepRight(a, ids, entries, i); } else { assert StepRight(b, more, entries, i - |a|); }
    }
  }

  lemma {:induction false} RoundsSteps(w: World, rounds: seq<Round>, calls: seq<seq<Call>>, entries: seq<Values>)
    requires |calls| == |rounds| && AllRight(w, rounds, calls, entries)
    ensures StepsRight(AllSteps(rounds, calls), AllIds(calls), entries)
  {
    if rounds != [] {
      var l := |rounds| - 1;
      RoundsSteps(w, rounds[..l], calls[..l], entries);
      BatchSteps(Arrived(AfterRounds(w, rounds[..l], calls[..l]), rounds[l]), rounds[l], calls[l], entries);
      StepsJoin(AllSteps(rounds[..l], calls[..l]), StepsOf(rounds[l], calls[l]),
                AllIds(calls[..l]), IdsOf(calls[l]), entries);
    }
  }

  ghost predicate AllTook(steps: seq<Step>) {
    forall i :: 0 <= i < |steps| ==> !steps[i].faults.counts && !steps[i].faults.emotion
  }

  lemma {:induction false} UntroubledSteps(rounds: seq<Round>, calls: seq<seq<Call>>)
    requires |calls| == |rounds| && Untroubled(rounds)
    ensures AllTook(AllSteps(rounds, calls))
  {
    if rounds != [] {
      var l := |rounds| - 1;
      assert forall n :: 0 <= n < l ==> rounds[..l][n] == rounds[n];
      UntroubledSteps(rounds[..l], calls[..l]);
      var last := StepsOf(rounds[l], calls[l]);
      forall i | 0 <= i < |last| ensures !last[i].faults.counts && !last[i].faults.emotion {
        assert last[i].faults == rounds[l].trouble(calls[l][i].id).faults;
      }
    }
  }

  lemma {:induction false} TookEvery(ts: seq<Trade>, steps: seq<Step>, p: Step -> bool)
    requires |ts| == |steps| && forall i :: 0 <= i < |steps| ==> p(steps[i])
    ensures Took(ts, steps, p) == ts
  {
    if ts != [] { TookEvery(ts[..|ts| - 1], steps[..|ts| - 1], p); }
  }

  /** When every statement took effect, the tables are the two batch statements exactly on this condition. */
  lemma {:induction false} UntroubledFold(t: Tables, seeded: seq<Trade>, ts: seq<Trade>, steps: seq<Step>)
    requires Decodes(steps, ts) && SeededFrom(t, seeded) && AllTook(steps)
    ensures SeededFrom(RunAll(t, steps), seeded + ts) <==> AllDecided(ts) && ClosedPrintable(ts)
  {
    TookEvery(ts, steps, CountsTook());
    TookEvery(ts, steps, EmotionTook());
    assert StraysCovered(steps, seeded + ts) by {
      forall k ensures !StrayAt(steps, k) {}
    }
    IncrementalEqualsBatch(t, seeded, ts, steps);
    IncrementalTallies(t, seeded, ts, steps);
  }

  /** ts are the stored trades whose events the processed entries are. */
  ghost predicate Behind(ts: seq<Trade>, ids: seq<nat>, entries: seq<Values>) {
    |ts| == |ids| && forall i :: 0 <= i < |ts| ==> ids[i] < |entries| && entries[ids[i]] == Encode(ts[i])
  }

  lemma {:induction false} BehindDecodes(ts: seq<Trade>, steps: seq<Step>, ids: seq<nat>, entries: seq<Values>)
    requires Behind(ts, ids, entries) && StepsRight(steps, ids, entries)
    ensures Decodes(steps, ts)
  {
    forall i | 0 <= i < |ts| ensures steps[i].m == MessageOf(ts[i]) {
      assert StepRight(steps, ids, entries, i);
      DecodeEncode(ts[i]);
    }
  }

  /**
   Iterations of the loop in which no counts or emotion statement fails, whatever happens to reads and
   acknowledgements, leave the batch statements over the seeded trades and the ones processed exactly
   when each closed one of the latter has an outcome and a year that the event text can carry.
   */
  lemma {:induction false} RunLeavesBatch(l0: G.Log, w0: World, entries0: seq<Values>,
                                          l: G.Log, w: World, entries: seq<Values>, rounds: seq<Round>,
                                          calls: seq<seq<Call>>, seeded: seq<Trade>, ts: seq<Trade>)
    requires Progress(l0, w0, entries0, l, w, entries, rounds, calls) && Untroubled(rounds)
    requires SeededFrom(w0.tables, seeded) && Behind(ts, AllIds(calls), entries)
    ensures SeededFrom(w.tables, seeded + ts) <==> AllDecided(ts) && ClosedPrintable(ts)
  {
    var steps := AllSteps(rounds, calls);
    RoundsTables(w0, rounds, calls);
    RoundsSteps(w0, rounds, calls, entries);
    UntroubledSteps(rounds, calls);
    BehindDecodes(ts, steps, AllIds(calls), entries);
    UntroubledFold(w0.tables, seeded, ts, steps);
  }

  lemma {:induction false} Cancel(p: seq<nat>, a: seq<nat>, b: seq<nat>)
    requires p + a == p + b
    ensures a == b
  {
    assert a == (p + a)[|p|..] && b == (p + b)[|p|..];
  }

  /** When nothing new arrives, one answered read for every ten undelivered entries handles all of them. */
  lemma {:induction false} EnoughRounds(l0: G.Log, w0: World, l: G.Log, w: World, entries: seq<Values>,
                                        rounds: seq<Round>, calls: seq<seq<Call>>)
    requires Progress(l0, w0, entries, l, w, entries, rounds, calls) && AllReplied(rounds) && Arrivals(rounds) == []
    requires G.Inv(l0.group, l0.length) && IdleGroup(l0.group) && l0.length == |entries|
    requires |entries| <= l0.group.delivered + 10 * |rounds|
    ensures l.group.delivered == |entries| && AllIds(calls) == G.UpFrom(l0.group.delivered, |entries|)
  {
    RepliedRounds(l0, rounds);
    CallsAreProcessed(l0, rounds, calls);
    Cancel(l0.group.processed, AllIds(calls), G.UpFrom(l0.group.delivered, |entries|));
  }

  /**
   And then the tables are the batch statements over the seeded trades and those of all undelivered entries,
   even if acknowledgements fail.
   */
  lemma {:induction false} EnoughRoundsLeaveBatch(l0: G.Log, w0: World, l: G.Log, w: World, entries: seq<Values>,
                                                  rounds: seq<Round>, calls: seq<seq<Call>>,
                                                  seeded: seq<Trade>, ts: seq<Trade>)
    requires Progress(l0, w0, entries, l, w, entries, rounds, calls) && AllReplied(rounds) && Arrivals(rounds) == []
    requires G.Inv(l0.group, l0.length) && IdleGroup(l0.group) && l0.length == |entries|
    requires |entries| <= l0.group.delivered + 10 * |rounds| && Untroubled(rounds)
    requires SeededFrom(w0.tables, seeded) && Behind(ts, G.UpFrom(l0.group.delivered, |entries|), entries)
    ensures SeededFrom(w.tables, seeded + ts) <==> AllDecided(ts) && ClosedPrintable(ts)
  {
    EnoughRounds(l0, w0, l, w, entries, rounds, calls);
    RunLeavesBatch(l0, w0, entries, l, w, entries, rounds, calls, seeded, ts);
  }
}
