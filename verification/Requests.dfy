/**
 POST /trades on values: one request as a path of the write-path machine, what it stores and what it
 starts.
 */
module Requests {
  import opened Prelude
  import opened Domain
  import opened EventCodec
  import W = WritePath

  /** What the database did to the two statements of an Upsert. */
  datatype UpsertFaults = UpsertFaults(insertFails: bool, committed: bool, selectFails: bool)

  /** The table after an Upsert; an insert that is reported as failed may have been committed. */
  function TableAfter(db: W.Table, t: Trade, f: UpsertFaults): W.Table {
    if !Storable(t) || (f.insertFails && !f.committed) then db else W.InsertRow(db, t)
  }

  /** What Upsert returns: the inserted row, or the stored one when the id is taken; None is an error. */
  function ResultOf(db: W.Table, t: Trade, f: UpsertFaults): Option<Trade> {
    if f.insertFails || !Storable(t) then None
    else if t.tradeId !in db.rows then Some(t)
    else if f.selectFails then None
    else Some(db.rows[t.tradeId])
  }

  /** One request, start to end, with no other step in between: a path of the write-path machine. */
  function Uninterrupted(s: W.State, c: nat, input: TradeInput, cacheOk: bool, f: UpsertFaults): W.State {
    Upserted(W.Apply(W.Apply(s, W.Arrive(c, input)), W.ReadLastLoss(c, cacheOk)), c, f)
  }

  function Upserted(s: W.State, c: nat, f: UpsertFaults): W.State {
    if f.insertFails then W.Apply(s, W.InsertError(c, f.committed))
    else W.Apply(W.Apply(s, W.Insert(c)), if f.selectFails then W.SelectError(c) else W.Select(c))
  }

  function FlaggedDraft(s: W.State, input: TradeInput, cacheOk: bool): Draft {
    BuildDraft(input).(revenge := W.Flagged(s, BuildDraft(input), cacheOk))
  }

  lemma {:induction false} PathPrefix(s: W.State, c: nat, input: TradeInput, cacheOk: bool)
    requires c !in s.clients && ValidInput(input)
    ensures var d := FlaggedDraft(s, input, cacheOk);
            W.Apply(W.Apply(s, W.Arrive(c, input)), W.ReadLastLoss(c, cacheOk))
            == s.(clients := s.clients[c := W.Inserting(d)])
  {
  }

  function ClientAfter(r: Option<Trade>): W.Client {
    if r.Some? then W.Done(r.value) else W.Failed
  }

  function TasksAfter(tasks: multiset<W.Task>, r: Option<Trade>): multiset<W.Task> {
    if r.Some? then tasks + W.Spawned(r.value) else tasks
  }

  lemma {:induction false} SelectOutcome(s: W.State, c: nat, d: Draft, f: UpsertFaults)
    requires c in s.clients && s.clients[c] == W.Inserting(d) && !f.insertFails
    requires var t := StoredTrade(d); Storable(t) && t.tradeId in s.db.rows
    ensures var r := ResultOf(s.db, StoredTrade(d), f);
            Upserted(s, c, f) == s.(clients := s.clients[c := ClientAfter(r)], tasks := TasksAfter(s.tasks, r))
  {
    var id := StoredTrade(d).tradeId;
    var m := W.Apply(s, W.Insert(c));
    assert m == s.(clients := s.clients[c := W.Selecting(id)]);
    var client := ClientAfter(ResultOf(s.db, StoredTrade(d), f));
    assert m.clients[c := client] == s.clients[c := client];
  }

  lemma {:induction false} NoSelectOutcome(s: W.State, c: nat, d: Draft, f: UpsertFaults)
    requires c in s.clients && s.clients[c] == W.Inserting(d)
    requires var t := StoredTrade(d); f.insertFails || !Storable(t) || t.tradeId !in s.db.rows
    ensures var t, r := StoredTrade(d), ResultOf(s.db, StoredTrade(d), f);
            Upserted(s, c, f) == s.(db := TableAfter(s.db, t, f), clients := s.clients[c := ClientAfter(r)],
                                    tasks := TasksAfter(s.tasks, r))
  {
  }

  /** What the machine's steps for the upsert of a waiting draft come to. */
  lemma {:induction false} UpsertOutcome(s: W.State, c: nat, d: Draft, f: UpsertFaults)
    requires c in s.clients && s.clients[c] == W.Inserting(d)
    ensures var t, r := StoredTrade(d), ResultOf(s.db, StoredTrade(d), f);
            Upserted(s, c, f) == s.(db := TableAfter(s.db, t, f), clients := s.clients[c := ClientAfter(r)],
                                    tasks := TasksAfter(s.tasks, r))
  {
    var t := StoredTrade(d);
    if f.insertFails || !Storable(t) || t.tradeId !in s.db.rows {
      NoSelectOutcome(s, c, d, f);
    } else {
      SelectOutcome(s, c, d, f);
    }
  }

  lemma {:induction false} CreateOutcome(s: W.State, input: TradeInput, cacheOk: bool, f: UpsertFaults)
    requires s.clients == map[] && ValidInput(input)
    ensures var t := StoredTrade(FlaggedDraft(s, input, cacheOk));
            var e, r := Uninterrupted(s, 0, input, cacheOk, f), ResultOf(s.db, t, f);
            && e.(clients := map[]) == s.(db := TableAfter(s.db, t, f), tasks := TasksAfter(s.tasks, r))
            && 0 in e.clients && e.clients[0] == ClientAfter(r)
  {
    var d := FlaggedDraft(s, input, cacheOk);
    PathPrefix(s, 0, input, cacheOk);
    UpsertOutcome(s.(clients := s.clients[0 := W.Inserting(d)]), 0, d, f);
  }

  // ---- what an answered request leaves ----

  /** A valid request that no other step interrupts and whose statements succeed. */
  function Post(c: nat, input: TradeInput): seq<W.Action> {
    [W.Arrive(c, input), W.ReadLastLoss(c, true), W.Insert(c), W.Select(c)]
  }

  /** The record that a request is answered with: the stored one when the id is taken. */
  function RecordOf(db: W.Table, t: Trade): Trade { if t.tradeId in db.rows then db.rows[t.tradeId] else t }

  lemma {:induction false} WriteMore(s: W.State, ws: seq<W.Action>, w: W.Action)
    ensures W.Run(s, ws + [w]) == W.Apply(W.Run(s, ws), w)
  {
    assert (ws + [w])[..|ws|] == ws;
  }

  lemma {:induction false} PostIsPath(s: W.State, c: nat, input: TradeInput)
    ensures W.Run(s, Post(c, input)) == Uninterrupted(s, c, input, true, UpsertFaults(false, false, false))
  {
    var ws := Post(c, input);
    assert ws == [] + [ws[0]] + [ws[1]] + [ws[2]] + [ws[3]];
    WriteMore(s, [], ws[0]);
    WriteMore(s, [] + [ws[0]], ws[1]);
    WriteMore(s, [] + [ws[0]] + [ws[1]], ws[2]);
    WriteMore(s, [] + [ws[0]] + [ws[1]] + [ws[2]], ws[3]);
  }

  lemma {:induction false} Posted(s: W.State, c: nat, input: TradeInput)
    requires c !in s.clients && ValidInput(input) && Storable(StoredTrade(FlaggedDraft(s, input, true)))
    ensures var t := StoredTrade(FlaggedDraft(s, input, true));
            var r := RecordOf(s.db, t);
            W.Run(s, Post(c, input)) == s.(db := W.InsertRow(s.db, t), clients := s.clients[c := W.Done(r)],
                                           tasks := s.tasks + W.Spawned(r))
  {
    var d, f := FlaggedDraft(s, input, true), UpsertFaults(false, false, false);
    var t := StoredTrade(d);
    PostIsPath(s, c, input);
    PathPrefix(s, c, input, true);
    var waiting := s.(clients := s.clients[c := W.Inserting(d)]);
    UpsertOutcome(waiting, c, d, f);
    var r := ResultOf(s.db, t, f);
    assert r == Some(RecordOf(s.db, t));
    assert waiting.clients[c := ClientAfter(r)] == s.clients[c := ClientAfter(r)];
  }

  lemma {:induction false} SpawnedIs(t: Trade)
    ensures W.Spawned(t)
            == (if t.status == Closed && t.outcome == Some(Loss) && t.exitAt.Some? then
                  multiset{W.SetLastLoss(t.userId, t.exitAt.value / 1_000_000_000)} else multiset{})
               + multiset{W.Publish(Encode(t)), W.AddToWindow(t.userId, t.entryAt / 1_000_000, t.tradeId)}
  {
  }

  lemma {:induction false} InsertAnswers(s: W.State, c: nat)
    requires var later := W.Apply(s, W.Insert(c));
             c in later.clients && later.clients[c].Done? && !(c in s.clients && s.clients[c].Done?)
    ensures var later := W.Apply(s, W.Insert(c)); later.tasks == s.tasks + W.Spawned(later.clients[c].result)
  {
  }

  lemma {:induction false} SelectAnswers(s: W.State, c: nat)
    requires var later := W.Apply(s, W.Select(c));
             c in later.clients && later.clients[c].Done? && !(c in s.clients && s.clients[c].Done?)
    ensures var later := W.Apply(s, W.Select(c)); later.tasks == s.tasks + W.Spawned(later.clients[c].result)
  {
  }

  lemma {:induction false} OnlyUpsertsAnswer(s: W.State, a: W.Action, c: nat)
    requires var later := W.Apply(s, a);
             c in later.clients && later.clients[c].Done? && !(c in s.clients && s.clients[c].Done?)
    ensures a == W.Insert(c) || a == W.Select(c)
  {
    match a
    case Arrive(d, _) =>
    case ReadLastLoss(d, _) =>
    case Insert(d) =>
    case InsertError(d, _) =>
    case Select(d) =>
    case SelectError(d) =>
    case RunTask(task) => { match task case SetLastLoss(_, _) => case Publish(_) => case AddToWindow(_, _, _) => }
    case DropTask(_) =>
    case Tick(_) =>
  }

  /**
   Whatever step answers a request, it starts just these goroutines for the record of the answer: one that
   remembers the exit second of a closed losing trade which has an exit time, one that publishes the event
   and one that adds the trade to the window.
   */
  lemma {:induction false} AnswerStarts(s: W.State, a: W.Action, c: nat)
    requires var later := W.Apply(s, a);
             c in later.clients && later.clients[c].Done? && !(c in s.clients && s.clients[c].Done?)
    ensures var later := W.Apply(s, a);
            var t := later.clients[c].result;
            later.tasks
            == s.tasks
               + (if t.status == Closed && t.outcome == Some(Loss) && t.exitAt.Some? then
                    multiset{W.SetLastLoss(t.userId, t.exitAt.value / 1_000_000_000)} else multiset{})
               + multiset{W.Publish(Encode(t)), W.AddToWindow(t.userId, t.entryAt / 1_000_000, t.tradeId)}
  {
    OnlyUpsertsAnswer(s, a, c);
    SpawnedIs(W.Apply(s, a).clients[c].result);
    if a.Insert? { InsertAnswers(s, c); } else { SelectAnswers(s, c); }
  }

  /**
   A request under a new id is answered with its own row: the input's fields, the flag that the check
   gives, and for a closed trade with an exit price the profit of its prices.
   */
  lemma {:induction false} NewRow(s: W.State, c: nat, input: TradeInput)
    requires c !in s.clients && ValidInput(input) && Storable(StoredTrade(FlaggedDraft(s, input, true)))
    requires input.tradeId !in s.db.rows
    ensures var e := W.Run(s, Post(c, input));
            && input.tradeId in e.db.rows && c in e.clients
            && var row := e.db.rows[input.tradeId];
               && e.clients[c] == W.Done(row)
               && row.userId == input.userId && row.sessionId == input.sessionId
               && row.direction == input.direction && row.status == input.status
               && row.planAdherence == input.planAdherence && row.emotion == input.emotion
               && IsNumeric8(row.entryPrice, input.entryPrice) && IsNumeric8(row.quantity, input.quantity)
               && row.entryAt == input.entryAt - input.entryAt % 1_000
               && row.exitAt.Some? == input.exitAt.Some?
               && (input.exitAt.Some? ==> row.exitAt.value == input.exitAt.value - input.exitAt.value % 1_000)
    ensures var row := W.Run(s, Post(c, input)).db.rows[input.tradeId];
            if input.status == Closed && input.exitPrice.Some? then
              var move := (input.exitPrice.value - input.entryPrice) * input.quantity;
              && row.pnl.Some? && row.outcome.Some?
              && IsNumeric8(row.pnl.value, if input.direction == Long then move else -move)
              && (row.outcome == Some(Win) <==> if input.direction == Long then move > 0.0 else move < 0.0)
            else row.pnl == None && row.outcome == None
  {
    var flag := FlaggedDraft(s, input, true).revenge;
    assert FlaggedDraft(s, input, true) == BuildDraft(input).(revenge := flag);
    Posted(s, c, input);
    StoredFields(input, flag);
    StoredProfit(input, flag);
  }

  /** A request whose price or quantity no column can hold fails and leaves nothing. */
  lemma {:induction false} OverflowFails(s: W.State, c: nat, input: TradeInput)
    requires c !in s.clients && ValidInput(input)
    requires || input.entryPrice >= 10_000_000_000.0 || input.entryPrice <= -10_000_000_000.0
             || input.quantity >= 10_000_000_000.0 || input.quantity <= -10_000_000_000.0
             || (input.exitPrice.Some?
                 && (input.exitPrice.value >= 10_000_000_000.0 || input.exitPrice.value <= -10_000_000_000.0))
    ensures W.Run(s, Post(c, input)) == s.(clients := s.clients[c := W.Failed])
  {
    var d, f := FlaggedDraft(s, input, true), UpsertFaults(false, false, false);
    PostIsPath(s, c, input);
    PathPrefix(s, c, input, true);
    AmountFits(input.entryPrice);
    AmountFits(input.quantity);
    if input.exitPrice.Some? { AmountFits(input.exitPrice.value); }
    assert !Storable(StoredTrade(d));
    var waiting := s.(clients := s.clients[c := W.Inserting(d)]);
    UpsertOutcome(waiting, c, d, f);
    assert waiting.clients[c := W.Failed] == s.clients[c := W.Failed];
  }
}
