/**
 The consumer group of the event stream and the worker that reads it, as a state machine. Stream
 entries are numbered in stream order. The group was created from id 0, the worker asks only for
 entries never delivered before (">"), and it acknowledges a message whatever became of it.
 */
module ConsumerGroup {
  import opened Prelude

  const BATCH := 10

  /**
   `delivered` entries have been handed out; `pending` are delivered and unacknowledged. `batch` is
   what the worker holds in memory, `handled` says that its head has been through processMessage.
   `processed` is the history of calls of processMessage, `acked` of acknowledged entries.
   */
  datatype Group = Group(delivered: nat, pending: set<nat>, batch: seq<nat>, handled: bool,
                         processed: seq<nat>, acked: set<nat>)

  const INITIAL := Group(0, {}, [], false, [], {})

  datatype Action =
    | Read(lost: bool)   // XREADGROUP; `lost` when the reply never reached the worker
    | ReadError          // nothing was delivered
    | Process            // processMessage is called, with any result
    | Ack(ok: bool)      // XACK, executed or not
    | Crash              // the worker restarts and forgets its batch

  function Unread(g: Group, length: nat): seq<nat> {
    if g.delivered < length then seq(Min(BATCH, length - g.delivered), i => g.delivered + i) else []
  }

  /** One step, on a stream of `length` entries. An action that is not enabled changes nothing. */
  function Apply(g: Group, length: nat, a: Action): Group {
    match a
    case Read(lost) =>
      if g.batch == [] then
        var batch := Unread(g, length);
        g.(delivered := g.delivered + |batch|, pending := g.pending + (set i | i in batch),
           batch := if lost then [] else batch)
      else g
    case ReadError => g
    case Process =>
      if g.batch != [] && !g.handled then g.(handled := true, processed := g.processed + [g.batch[0]]) else g
    case Ack(ok) =>
      if g.batch != [] && g.handled then
        g.(batch := g.batch[1..], handled := false,
           pending := if ok then g.pending - {g.batch[0]} else g.pending,
           acked := if ok then g.acked + {g.batch[0]} else g.acked)
      else g
    case Crash => g.(batch := [], handled := false)
  }

  predicate Increasing(s: seq<nat>) {
    forall i, j :: 0 <= i < j < |s| ==> s[i] < s[j]
  }

  ghost predicate Inv(g: Group, length: nat) {
    && g.delivered <= length
    && |g.batch| <= g.delivered
    && (forall i :: 0 <= i < |g.batch| ==> g.batch[i] == g.delivered - |g.batch| + i)
    && Increasing(g.processed)
    && (forall i :: 0 <= i < |g.processed| ==>
          g.processed[i] < g.delivered - |g.batch| + (if g.handled then 1 else 0))
    && (g.handled ==> g.batch != [] && g.processed != [] && g.processed[|g.processed| - 1] == g.batch[0])
    && (forall i :: i in g.acked ==> i in g.processed)
    && (forall i :: i in g.pending <==> 0 <= i < g.delivered && i !in g.acked)
    && (forall i :: i in g.batch ==> i !in g.acked)
  }

  lemma {:induction false} UnreadMembers(g: Group, length: nat)
    requires g.delivered <= length
    ensures forall i :: i in Unread(g, length) <==> g.delivered <= i < g.delivered + |Unread(g, length)|
    ensures g.delivered + |Unread(g, length)| <= length
  {
    var unread := Unread(g, length);
    forall i | g.delivered <= i < g.delivered + |unread| ensures i in unread {
      assert unread[i - g.delivered] == i;
    }
  }

  lemma {:induction false} StepKeeps(g: Group, length: nat, a: Action)
    requires Inv(g, length)
    ensures Inv(Apply(g, length, a), length)
    ensures g.processed <= Apply(g, length, a).processed
  {
    UnreadMembers(g, length);
    if a == Process && g.batch != [] && !g.handled {
      var g' := Apply(g, length, a);
      assert g'.processed == g.processed + [g.batch[0]];
    }
  }

  /** Entries arrive between the worker's steps. */
  datatype Event = Arrival | Worker(a: Action)

  datatype Log = Log(group: Group, length: nat)

  function Run(l: Log, events: seq<Event>): Log {
    if events == [] then l
    else
      var m := Run(l, events[..|events| - 1]);
      match events[|events| - 1]
      case Arrival => m.(length := m.length + 1)
      case Worker(a) => m.(group := Apply(m.group, m.length, a))
  }

  lemma {:induction false} RunConcat(l: Log, a: seq<Event>, b: seq<Event>)
    ensures Run(l, a + b) == Run(Run(l, a), b)
    decreases |b|
  {
    if b == [] {
      assert a + b == a;
    } else {
      assert (a + b)[..|a + b| - 1] == a + b[..|b| - 1];
      RunConcat(l, a, b[..|b| - 1]);
    }
  }

  lemma {:induction false} RunOne(l: Log, a: seq<Event>, e: Event)
    ensures Run(l, a + [e]) == match e
              case Arrival => Run(l, a).(length := Run(l, a).length + 1)
              case Worker(w) => Run(l, a).(group := Apply(Run(l, a).group, Run(l, a).length, w))
  {
  }

  lemma {:induction false} RunKeeps(l: Log, events: seq<Event>)
    requires Inv(l.group, l.length)
    ensures Inv(Run(l, events).group, Run(l, events).length)
    ensures l.group.processed <= Run(l, events).group.processed
  {
    if events != [] {
      RunKeeps(l, events[..|events| - 1]);
      var m := Run(l, events[..|events| - 1]);
      if events[|events| - 1].Worker? {
        StepKeeps(m.group, m.length, events[|events| - 1].a);
      }
    }
  }

  /**
   With any arrivals, crashes, restarts and read or ack errors: each entry reaches processMessage at
   most once and in stream order, only processed entries are acknowledged, and only delivered
   entries are processed.
   */
  lemma {:induction false} AtMostOnceInOrder(length: nat, events: seq<Event>)
    ensures var l := Run(Log(INITIAL, length), events);
            var g := l.group;
            && Increasing(g.processed)
            && (forall i, j :: 0 <= i < j < |g.processed| ==> g.processed[i] != g.processed[j])
            && (forall i :: i in g.acked ==> i in g.processed)
            && (forall i :: i in g.processed ==> i < g.delivered <= l.length)
            && (forall i :: i in g.pending <==> 0 <= i < g.delivered && i !in g.acked)
  {
    RunKeeps(Log(INITIAL, length), events);
  }

  ghost predicate FirstLost(g: Group, length: nat) {
    Inv(g, length) && 0 !in g.processed && 0 in g.pending && 1 <= g.delivered - |g.batch|
  }

  lemma {:induction false} StaysLost(g: Group, length: nat, a: Action)
    requires FirstLost(g, length)
    ensures FirstLost(Apply(g, length, a), length)
  {
    StepKeeps(g, length, a);
    UnreadMembers(g, length);
  }

  lemma {:induction false} RunStaysLost(l: Log, events: seq<Event>)
    requires FirstLost(l.group, l.length)
    ensures FirstLost(Run(l, events).group, Run(l, events).length)
  {
    if events != [] {
      RunStaysLost(l, events[..|events| - 1]);
      var m := Run(l, events[..|events| - 1]);
      if events[|events| - 1].Worker? {
        StaysLost(m.group, m.length, events[|events| - 1].a);
      }
    }
  }

  /** A reply lost after the read loses its entries for good: nothing processes them any more. */
  lemma {:induction false} DeliveryCanBeLost(more: seq<Event>)
    ensures var l := Log(Apply(INITIAL, 1, Read(true)), 1);
            0 !in Run(l, more).group.processed && 0 in Run(l, more).group.pending
  {
    UnreadMembers(INITIAL, 1);
    StepKeeps(INITIAL, 1, Read(true));
    RunStaysLost(Log(Apply(INITIAL, 1, Read(true)), 1), more);
  }

  // ---- draining ----

  /** What the worker does next when nothing fails. */
  function Next(g: Group): Action {
    if g.batch == [] then Read(false) else if !g.handled then Process else Ack(true)
  }

  function Drive(g: Group, length: nat, steps: nat): Group
    decreases steps
  {
    if steps == 0 then g else Drive(Apply(g, length, Next(g)), length, steps - 1)
  }

  /** Undelivered entries, each costing at most a read, a call and an ack, and the batch in memory. */
  function Measure(g: Group, length: nat): int {
    3 * (length - g.delivered) + 2 * |g.batch| - (if g.handled then 1 else 0)
  }

  lemma {:induction false} MeasureDecreases(g: Group, length: nat)
    requires Inv(g, length)
    ensures Measure(g, length) >= 0
    ensures Measure(g, length) > 0 ==> Measure(Apply(g, length, Next(g)), length) < Measure(g, length)
    ensures Measure(g, length) == 0 <==> g.batch == [] && g.delivered == length
    ensures Measure(g, length) == 0 ==> Apply(g, length, Next(g)) == g
  {
  }

  function UpFrom(from: nat, to: nat): seq<nat> {
    if from < to then seq(to - from, i => from + i) else []
  }

  /** The entries that no step of the worker will ever touch again: left behind by crashes and lost replies. */
  ghost function Orphans(g: Group): set<nat> {
    set i | i in g.pending && i !in g.batch
  }

  lemma {:induction false} DriveRead(g: Group, length: nat)
    requires Inv(g, length) && g.batch == []
    ensures var g' := Apply(g, length, Read(false));
            Orphans(g') == Orphans(g) && g'.processed == g.processed && ToProcess(g') == ToProcess(g)
  {
  }

  lemma {:induction false} DriveAck(g: Group, length: nat)
    requires Inv(g, length) && g.handled
    ensures var g' := Apply(g, length, Ack(true));
            Orphans(g') == Orphans(g) && g'.processed == g.processed && ToProcess(g') == ToProcess(g)
  {
  }

  lemma {:induction false} DriveProcess(g: Group, length: nat)
    requires Inv(g, length) && g.batch != [] && !g.handled
    ensures var g' := Apply(g, length, Process);
            && Orphans(g') == Orphans(g)
            && g'.processed + UpFrom(ToProcess(g'), length) == g.processed + UpFrom(ToProcess(g), length)
  {
  }

  lemma {:induction false} DriveStep(g: Group, length: nat)
    requires Inv(g, length)
    ensures var g' := Apply(g, length, Next(g));
            && Inv(g', length) && Orphans(g') == Orphans(g)
            && g'.processed + UpFrom(ToProcess(g'), length) == g.processed + UpFrom(ToProcess(g), length)
  {
    StepKeeps(g, length, Next(g));
    if g.batch == [] {
      DriveRead(g, length);
    } else if g.handled {
      DriveAck(g, length);
    } else {
      DriveProcess(g, length);
    }
  }

  /** The first entry that the worker has still to process. */
  function ToProcess(g: Group): nat
    requires |g.batch| <= g.delivered
  {
    g.delivered - |g.batch| + if g.handled && g.batch != [] then 1 else 0
  }

  /**
   With no errors and no new entries, after at most Measure steps the group is drained: every entry
   not yet processed has been processed once, in order, and pending holds only what crashes and lost
   replies had left behind before.
   */
  lemma {:induction false} Drains(g: Group, length: nat, steps: nat)
    requires Inv(g, length) && Measure(g, length) <= steps
    ensures var d := Drive(g, length, steps);
            && d.batch == [] && d.delivered == length
            && d.pending == Orphans(g)
            && d.processed == g.processed + UpFrom(ToProcess(g), length)
    decreases steps
  {
    MeasureDecreases(g, length);
    if steps == 0 {
      assert Orphans(g) == g.pending;
      assert g.processed + UpFrom(ToProcess(g), length) == g.processed;
    } else {
      var g' := Apply(g, length, Next(g));
      DriveStep(g, length);
      MeasureDecreases(g', length);
      Drains(g', length, steps - 1);
    }
  }

  /**
   Delivery is at least once exactly for the entries that no crash or lost reply has left behind: an
   entry is processed by the time the group is drained if and only if it already was, or the worker
   still holds it or has not been given it.
   */
  lemma {:induction false} ProcessedAfterDrain(g: Group, length: nat, steps: nat, i: nat)
    requires Inv(g, length) && Measure(g, length) <= steps && i < length
    ensures i in Drive(g, length, steps).processed <==> i in g.processed || i in g.batch || g.delivered <= i
  {
    Drains(g, length, steps);
    var from := ToProcess(g);
    var rest := UpFrom(from, length);
    if from <= i {
      assert rest[i - from] == i;
    }
    if g.delivered - |g.batch| <= i < g.delivered {
      assert g.batch[i - (g.delivered - |g.batch|)] == i;
    }
    assert Drive(g, length, steps).processed == g.processed + rest;
  }
}
