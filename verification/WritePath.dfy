/**
 POST /trades as a state machine over the trades table, the last_loss keys, the in-flight requests
 and the goroutines they leave behind. Every database and Redis command is one step, so the steps of
 any number of requests and goroutines interleave freely.
 */
module WritePath {
  import opened Prelude
  import opened Timeline
  import opened Domain
  import opened EventCodec

  // ---- the trades table ----

  /** `order` lists the rows by insertion; rows present before the first request come first. */
  datatype Table = Table(rows: map<string, Trade>, order: seq<string>)

  ghost predicate ValidTable(db: Table) {
    && (forall id :: id in db.order <==> id in db.rows)
    && (forall i, j :: 0 <= i < j < |db.order| ==> db.order[i] != db.order[j])
    && (forall id :: id in db.rows ==> db.rows[id].tradeId == id)
  }

  function Listing(db: Table): seq<Trade>
    requires forall id :: id in db.order ==> id in db.rows
  {
    seq(|db.order|, i requires 0 <= i < |db.order| => db.rows[db.order[i]])
  }

  /** INSERT ... ON CONFLICT (trade_id) DO NOTHING. */
  function InsertRow(db: Table, t: Trade): Table {
    if t.tradeId in db.rows then db else Table(db.rows[t.tradeId := t], db.order + [t.tradeId])
  }

  /** Rows are never changed or removed, and the insertion order only grows. */
  predicate Extends(db: Table, later: Table) {
    && db.order <= later.order
    && forall id :: id in db.rows ==> id in later.rows && later.rows[id] == db.rows[id]
  }

  // ---- the machine ----

  /** Where a request stands. `Done` has been answered with the stored record. */
  datatype Client = Checking(draft: Draft) | Inserting(draft: Draft) | Selecting(tradeId: string)
                  | Done(result: Trade) | Failed

  /** A goroutine that has been started and has not run. */
  datatype Task = SetLastLoss(user: string, second: int) | Publish(values: Values)
                | AddToWindow(user: string, score: int, tradeId: string)

  /** `lastLoss` holds, for each user, the exit time in Unix seconds of a losing trade. */
  datatype State = State(
    now: int, db: Table, lastLoss: map<string, Expiring<int>>, clients: map<nat, Client>,
    tasks: multiset<Task>, stream: seq<Values>)

  /** GetLastLoss: 0 when the key is missing or has expired. */
  function LastLossSecond(s: State, user: string): int {
    if user in s.lastLoss && s.now < s.lastLoss[user].expires then s.lastLoss[user].value else 0
  }

  /** The revenge check; ok is false when the Redis read failed. */
  function Flagged(s: State, d: Draft, ok: bool): bool {
    d.input.emotion.Some? && ok &&
    var last := LastLossSecond(s, d.input.userId);
    last > 0 && IsRevenge(last * SECOND, d.input.entryAt, d.input.emotion.value)
  }

  predicate LosingClose(t: Trade) {
    t.status == Closed && t.outcome == Some(Loss) && t.exitAt.Some?
  }

  /** The goroutines started for the record that Upsert returned, whoever stored it. */
  function Spawned(t: Trade): multiset<Task> {
    (if LosingClose(t) then multiset{SetLastLoss(t.userId, UnixSeconds(t.exitAt.value))} else multiset{})
    + multiset{Publish(Encode(t)), AddToWindow(t.userId, UnixMilli(t.entryAt), t.tradeId)}
  }

  function Answer(s: State, c: nat, t: Trade): State {
    s.(clients := s.clients[c := Done(t)], tasks := s.tasks + Spawned(t))
  }

  datatype Action =
    | Arrive(c: nat, input: TradeInput)
    | ReadLastLoss(c: nat, ok: bool)
    | Insert(c: nat)
    | InsertError(c: nat, committed: bool)  // the request fails; the row may have been stored
    | Select(c: nat)
    | SelectError(c: nat)
    | RunTask(task: Task)
    | DropTask(task: Task)  // the goroutine's command failed or was cancelled
    | Tick(elapsed: nat)

  function RunEffect(s: State, task: Task): State {
    match task
    case SetLastLoss(user, second) => s.(lastLoss := s.lastLoss[user := Expiring(second, s.now + LAST_LOSS_TTL)])
    case Publish(values) => s.(stream := s.stream + [values])
    case AddToWindow(_, _, _) => s
  }

  /** One step. An action that is not enabled changes nothing. */
  function Apply(s: State, a: Action): State {
    match a
    case Arrive(c, input) =>
      if c !in s.clients && ValidInput(input) then s.(clients := s.clients[c := Checking(BuildDraft(input))]) else s
    case ReadLastLoss(c, ok) =>
      if c in s.clients && s.clients[c].Checking? then
        var d := s.clients[c].draft;
        s.(clients := s.clients[c := Inserting(d.(revenge := Flagged(s, d, ok)))])
      else s
    case Insert(c) =>
      if c in s.clients && s.clients[c].Inserting? then
        var t := StoredTrade(s.clients[c].draft);
        if !Storable(t) then s.(clients := s.clients[c := Failed])
        else if t.tradeId in s.db.rows then s.(clients := s.clients[c := Selecting(t.tradeId)])
        else Answer(s.(db := InsertRow(s.db, t)), c, t)
      else s
    case InsertError(c, committed) =>
      if c in s.clients && s.clients[c].Inserting? then
        var t := StoredTrade(s.clients[c].draft);
        s.(clients := s.clients[c := Failed], db := if committed && Storable(t) then InsertRow(s.db, t) else s.db)
      else s
    case Select(c) =>
      if c in s.clients && s.clients[c].Selecting? then
        var id := s.clients[c].tradeId;
        if id in s.db.rows then Answer(s, c, s.db.rows[id]) else s.(clients := s.clients[c := Failed])
      else s
    case SelectError(c) =>
      if c in s.clients && s.clients[c].Selecting? then s.(clients := s.clients[c := Failed]) else s
    case RunTask(task) =>
      if task in s.tasks then RunEffect(s.(tasks := s.tasks - multiset{task}), task) else s
    case DropTask(task) => s.(tasks := s.tasks - multiset{task})
    case Tick(elapsed) => s.(now := s.now + elapsed)
  }

  function Run(s: State, actions: seq<Action>): State {
    if actions == [] then s else Apply(Run(s, actions[..|actions| - 1]), actions[|actions| - 1])
  }

  /** Any table that the migrations left, no requests, no keys, an empty stream. */
  ghost predicate Init(s: State) {
    ValidTable(s.db) && s.lastLoss == map[] && s.clients == map[] && s.tasks == multiset{} && s.stream == []
  }

  // ---- what every step keeps ----

  /** Row number j of the table is a losing close of the user whose exit second is `second`. */
  predicate LossAt(db: Table, j: int, user: string, second: int) {
    0 <= j < |db.order| && db.order[j] in db.rows &&
    var t := db.rows[db.order[j]];
    LosingClose(t) && t.userId == user && UnixSeconds(t.exitAt.value) == second
  }

  ghost predicate LossStored(db: Table, user: string, second: int) {
    exists j :: LossAt(db, j, user, second)
  }

  /** l explains why t carries the flag. */
  predicate Justifies(l: Trade, t: Trade) {
    && l.tradeId != t.tradeId && l.userId == t.userId
    && l.status == Closed && l.outcome == Some(Loss) && l.exitAt.Some?
    && -1_000_000_000 < t.entryAt - l.exitAt.value < 90_000_000_000
    && (t.emotion == Some(Anxious) || t.emotion == Some(Fearful))
  }

  predicate JustifiedBy(db: Table, i: int, j: int) {
    0 <= j < i < |db.order| && db.order[i] in db.rows && db.order[j] in db.rows &&
    Justifies(db.rows[db.order[j]], db.rows[db.order[i]])
  }

  /** Every flagged row inserted after the first `seeded` ones has an earlier row that explains it. */
  ghost predicate FlagsSound(db: Table, seeded: nat) {
    forall i :: seeded <= i < |db.order| && db.order[i] in db.rows && db.rows[db.order[i]].revenge ==>
      exists j :: JustifiedBy(db, i, j)
  }

  /** The window that the flag was computed with, before the stored times are cut. */
  ghost predicate FlagExplained(db: Table, d: Draft) {
    d.revenge ==>
      d.input.emotion.Some? &&
      exists second :: LossStored(db, d.input.userId, second)
                       && IsRevenge(second * SECOND, d.input.entryAt, d.input.emotion.value)
  }

  ghost predicate ClientOk(db: Table, client: Client) {
    match client
    case Checking(d) => !d.revenge
    case Inserting(d) => FlagExplained(db, d)
    case Selecting(id) => id in db.rows
    case Done(t) => t.tradeId in db.rows && db.rows[t.tradeId] == t
    case Failed => true
  }

  ghost predicate IsEventOf(db: Table, values: Values, id: string) {
    id in db.rows && values == Encode(db.rows[id])
  }

  ghost predicate EventStored(db: Table, values: Values) {
    exists id :: IsEventOf(db, values, id)
  }

  ghost predicate TaskOk(db: Table, task: Task) {
    match task
    case SetLastLoss(user, second) => LossStored(db, user, second)
    case Publish(values) => EventStored(db, values)
    case AddToWindow(user, score, id) =>
      id in db.rows && db.rows[id].userId == user && UnixMilli(db.rows[id].entryAt) == score
  }

  ghost predicate Inv(s: State, seeded: nat) {
    && ValidTable(s.db)
    && FlagsSound(s.db, seeded)
    && (forall u :: u in s.lastLoss ==> LossStored(s.db, u, s.lastLoss[u].value))
    && (forall c :: c in s.clients ==> ClientOk(s.db, s.clients[c]))
    && (forall t :: t in s.tasks ==> TaskOk(s.db, t))
    && (forall i :: 0 <= i < |s.stream| ==> EventStored(s.db, s.stream[i]))
  }

  // facts about the table survive its growth

  lemma {:induction false} InsertExtends(db: Table, t: Trade)
    requires ValidTable(db)
    ensures ValidTable(InsertRow(db, t)) && Extends(db, InsertRow(db, t))
    ensures t.tradeId in InsertRow(db, t).rows
  {
  }

  lemma {:induction false} ListingGrows(db: Table, later: Table)
    requires ValidTable(db) && ValidTable(later) && Extends(db, later)
    ensures Listing(db) <= Listing(later)
  {
    forall i | 0 <= i < |db.order| ensures Listing(db)[i] == Listing(later)[i] {
      assert later.order[i] == db.order[i] && db.order[i] in db.order;
    }
  }

  lemma {:induction false} LossPersists(db: Table, later: Table, user: string, second: int)
    requires Extends(db, later) && LossStored(db, user, second)
    ensures LossStored(later, user, second)
  {
    var j :| LossAt(db, j, user, second);
    assert later.order[j] == db.order[j];
    assert LossAt(later, j, user, second);
  }

  lemma {:induction false} ClientPersists(db: Table, later: Table, client: Client)
    requires Extends(db, later) && ClientOk(db, client)
    ensures ClientOk(later, client)
  {
    if client.Inserting? && client.draft.revenge {
      var d := client.draft;
      var second :| LossStored(db, d.input.userId, second)
                    && IsRevenge(second * SECOND, d.input.entryAt, d.input.emotion.value);
      LossPersists(db, later, d.input.userId, second);
    }
  }

  lemma {:induction false} EventPersists(db: Table, later: Table, values: Values)
    requires Extends(db, later) && EventStored(db, values)
    ensures EventStored(later, values)
  {
    var id :| IsEventOf(db, values, id);
    assert IsEventOf(later, values, id);
  }

  lemma {:induction false} TaskPersists(db: Table, later: Table, task: Task)
    requires Extends(db, later) && TaskOk(db, task)
    ensures TaskOk(later, task)
  {
    match task
    case SetLastLoss(user, second) => LossPersists(db, later, user, second);
    case Publish(values) => EventPersists(db, later, values);
    case AddToWindow(_, _, _) =>
  }

  /** The window of the check, seen through stored microseconds and a whole-second exit time. */
  lemma {:induction false} WindowInStoredTime(second: int, entryAt: int, exitAt: int, emotion: Emotion)
    requires UnixSeconds(exitAt) == second && IsRevenge(second * SECOND, entryAt, emotion)
    ensures -SECOND < Stored(entryAt) - exitAt < REVENGE_WINDOW
  {
    StoredKeepsSeconds(second, entryAt);
  }

  /**
   The remembered exit time has whole seconds, so the check can flag an entry before the exit and
   miss one at the end of the window. It agrees with the check on the exact exit time just when the
   entry is in neither gap.
   */
  lemma {:induction false} WindowShift(entryAt: int, exitAt: int, emotion: Emotion)
    ensures var whole := UnixSeconds(exitAt) * SECOND;
            var early, late := whole <= entryAt < exitAt, whole <= entryAt - REVENGE_WINDOW < exitAt;
            (IsRevenge(whole, entryAt, emotion) <==> IsRevenge(exitAt, entryAt, emotion))
            <==> (emotion != Anxious && emotion != Fearful) || (!early && !late)
    ensures IsRevenge(UnixSeconds(1_500_000_000) * SECOND, 1_200_000_000, Anxious)
  {
  }

  lemma {:induction false} NewFlagJustified(db: Table, d: Draft)
    requires ValidTable(db) && FlagExplained(db, d) && d.revenge && d.input.tradeId !in db.rows
    ensures exists j :: JustifiedBy(InsertRow(db, StoredTrade(d)), |db.order|, j)
  {
    var later := InsertRow(db, StoredTrade(d));
    var second :| LossStored(db, d.input.userId, second)
                  && IsRevenge(second * SECOND, d.input.entryAt, d.input.emotion.value);
    var j :| LossAt(db, j, d.input.userId, second);
    WindowInStoredTime(second, d.input.entryAt, db.rows[db.order[j]].exitAt.value, d.input.emotion.value);
    assert JustifiedBy(later, |db.order|, j);
  }

  lemma {:induction false} InsertKeepsFlags(db: Table, d: Draft, seeded: nat)
    requires ValidTable(db) && FlagsSound(db, seeded) && FlagExplained(db, d)
    ensures FlagsSound(InsertRow(db, StoredTrade(d)), seeded)
  {
    var t := StoredTrade(d);
    var later := InsertRow(db, t);
    if t.tradeId !in db.rows {
      forall i | seeded <= i < |later.order| && later.rows[later.order[i]].revenge
        ensures exists j :: JustifiedBy(later, i, j)
      {
        if i < |db.order| {
          assert later.order[i] == db.order[i] && db.order[i] in db.order;
          var j :| JustifiedBy(db, i, j);
          assert JustifiedBy(later, i, j);
        } else {
          NewFlagJustified(db, d);
        }
      }
    }
  }

  lemma {:induction false} SpawnedOk(db: Table, t: Trade)
    requires ValidTable(db) && t.tradeId in db.rows && db.rows[t.tradeId] == t
    ensures forall task :: task in Spawned(t) ==> TaskOk(db, task)
  {
    assert t.tradeId in db.order;
    var j :| 0 <= j < |db.order| && db.order[j] == t.tradeId;
    assert IsEventOf(db, Encode(t), t.tradeId);
    if LosingClose(t) {
      assert LossAt(db, j, t.userId, UnixSeconds(t.exitAt.value));
    }
  }

  /** A state whose table grew keeps the rest of its invariant. */
  lemma {:induction false} GrowKeeps(s: State, db: Table, seeded: nat)
    requires Inv(s, seeded) && ValidTable(db) && Extends(s.db, db) && FlagsSound(db, seeded)
    ensures Inv(s.(db := db), seeded)
  {
    forall u | u in s.lastLoss ensures LossStored(db, u, s.lastLoss[u].value) {
      LossPersists(s.db, db, u, s.lastLoss[u].value);
    }
    forall c | c in s.clients ensures ClientOk(db, s.clients[c]) { ClientPersists(s.db, db, s.clients[c]); }
    forall t | t in s.tasks ensures TaskOk(db, t) { TaskPersists(s.db, db, t); }
    forall i | 0 <= i < |s.stream| ensures EventStored(db, s.stream[i]) { EventPersists(s.db, db, s.stream[i]); }
  }

  lemma {:induction false} AnswerKeeps(s: State, c: nat, t: Trade, seeded: nat)
    requires Inv(s, seeded) && t.tradeId in s.db.rows && s.db.rows[t.tradeId] == t
    ensures Inv(Answer(s, c, t), seeded)
  {
    SpawnedOk(s.db, t);
  }

  lemma {:induction false} InsertKeeps(s: State, c: nat, seeded: nat)
    requires Inv(s, seeded) && c in s.clients && s.clients[c].Inserting?
    ensures var db := InsertRow(s.db, StoredTrade(s.clients[c].draft));
            Inv(s.(db := db), seeded) && Extends(s.db, db)
  {
    var d := s.clients[c].draft;
    var t := StoredTrade(d);
    assert ClientOk(s.db, s.clients[c]);
    InsertExtends(s.db, t);
    InsertKeepsFlags(s.db, d, seeded);
    GrowKeeps(s, InsertRow(s.db, t), seeded);
  }

  lemma {:induction false} ReadKeeps(s: State, c: nat, ok: bool, seeded: nat)
    requires Inv(s, seeded)
    ensures Inv(Apply(s, ReadLastLoss(c, ok)), seeded)
  {
  }

  lemma {:induction false} ClientKeeps(s: State, c: nat, client: Client, seeded: nat)
    requires Inv(s, seeded) && ClientOk(s.db, client)
    ensures Inv(s.(clients := s.clients[c := client]), seeded)
  {
  }

  lemma {:induction false} InsertStepKeeps(s: State, c: nat, seeded: nat)
    requires Inv(s, seeded)
    ensures Inv(Apply(s, Insert(c)), seeded) && Extends(s.db, Apply(s, Insert(c)).db)
  {
    if c in s.clients && s.clients[c].Inserting? {
      var t := StoredTrade(s.clients[c].draft);
      if !Storable(t) {
        ClientKeeps(s, c, Failed, seeded);
      } else if t.tradeId in s.db.rows {
        ClientKeeps(s, c, Selecting(t.tradeId), seeded);
      } else {
        InsertKeeps(s, c, seeded);
        AnswerKeeps(s.(db := InsertRow(s.db, t)), c, t, seeded);
      }
    }
  }

  lemma {:induction false} InsertErrorKeeps(s: State, c: nat, committed: bool, seeded: nat)
    requires Inv(s, seeded)
    ensures Inv(Apply(s, InsertError(c, committed)), seeded)
    ensures Extends(s.db, Apply(s, InsertError(c, committed)).db)
  {
    if c in s.clients && s.clients[c].Inserting? {
      InsertKeeps(s, c, seeded);
      ClientKeeps(s, c, Failed, seeded);
      ClientKeeps(s.(db := InsertRow(s.db, StoredTrade(s.clients[c].draft))), c, Failed, seeded);
    }
  }

  lemma {:induction false} SelectKeeps(s: State, c: nat, seeded: nat)
    requires Inv(s, seeded)
    ensures Inv(Apply(s, Select(c)), seeded)
  {
    if c in s.clients && s.clients[c].Selecting? {
      assert ClientOk(s.db, s.clients[c]);
      AnswerKeeps(s, c, s.db.rows[s.clients[c].tradeId], seeded);
    }
  }

  lemma {:induction false} ArriveKeeps(s: State, c: nat, input: TradeInput, seeded: nat)
    requires Inv(s, seeded)
    ensures Inv(Apply(s, Arrive(c, input)), seeded)
  {
  }

  lemma {:induction false} SelectErrorKeeps(s: State, c: nat, seeded: nat)
    requires Inv(s, seeded)
    ensures Inv(Apply(s, SelectError(c)), seeded)
  {
    ClientKeeps(s, c, Failed, seeded);
  }

  lemma {:induction false} CalmKeeps(s: State, a: Action, seeded: nat)
    requires Inv(s, seeded) && (a.DropTask? || a.Tick?)
    ensures Inv(Apply(s, a), seeded)
  {
  }

  predicate Inserts(a: Action) { a.Insert? || a.InsertError? }

  lemma {:induction false} SameTable(s: State, a: Action)
    requires !Inserts(a)
    ensures Apply(s, a).db == s.db
  {
  }

  lemma {:induction false} StepKeeps(s: State, a: Action, seeded: nat)
    requires Inv(s, seeded)
    ensures Inv(Apply(s, a), seeded) && Extends(s.db, Apply(s, a).db)
  {
    if !Inserts(a) { SameTable(s, a); }
    match a
    case Arrive(c, input) => ArriveKeeps(s, c, input, seeded);
    case ReadLastLoss(c, ok) => ReadKeeps(s, c, ok, seeded);
    case Insert(c) => InsertStepKeeps(s, c, seeded);
    case InsertError(c, committed) => InsertErrorKeeps(s, c, committed, seeded);
    case Select(c) => SelectKeeps(s, c, seeded);
    case SelectError(c) => SelectErrorKeeps(s, c, seeded);
    case RunTask(task) => TaskKeeps(s, task, seeded);
    case DropTask(task) => CalmKeeps(s, a, seeded);
    case Tick(elapsed) => CalmKeeps(s, a, seeded);
  }

  lemma {:induction false} TaskKeeps(s: State, task: Task, seeded: nat)
    requires Inv(s, seeded)
    ensures Inv(Apply(s, RunTask(task)), seeded)
  {
    if task in s.tasks {
      assert TaskOk(s.db, task);
    }
  }

  lemma {:induction false} RunKeeps(s: State, actions: seq<Action>, seeded: nat)
    requires Inv(s, seeded)
    ensures Inv(Run(s, actions), seeded) && Extends(s.db, Run(s, actions).db)
  {
    if actions != [] {
      RunKeeps(s, actions[..|actions| - 1], seeded);
      StepKeeps(Run(s, actions[..|actions| - 1]), actions[|actions| - 1], seeded);
    }
  }

  lemma {:induction false} InitInv(s: State)
    requires Init(s)
    ensures Inv(s, |s.db.order|)
  {
  }

  // ---- the two theorems about all runs ----

  /**
   Whatever requests and goroutines interleave, fail, are delayed, dropped, overwritten or expire:
   a row stored by a request with the revenge flag set comes after a different losing close of the
   same user, with the entry strictly between 1 s before and 90 s after that exit, and was entered
   anxious or fearful. The second before the exit comes from the exit time's whole seconds.
   */
  lemma {:induction false} RevengeSound(s: State, actions: seq<Action>, i: nat)
    requires Init(s)
    requires var db := Run(s, actions).db;
             |s.db.order| <= i < |db.order| && db.order[i] in db.rows && db.rows[db.order[i]].revenge
    ensures var db := Run(s, actions).db; exists j :: JustifiedBy(db, i, j)
  {
    InitInv(s);
    RunKeeps(s, actions, |s.db.order|);
  }

  /**
   Interleaved upserts: the fallback select always finds a row, every answered request for a trade
   id holds the one stored record of that id, and no stored row ever changes or disappears.
   */
  lemma {:induction false} UpsertRaceFree(s: State, before: seq<Action>, after: seq<Action>)
    requires Init(s)
    ensures var m, e := Run(s, before), Run(s, before + after);
            && Extends(s.db, m.db) && Extends(m.db, e.db) && ValidTable(e.db)
            && (forall c :: c in m.clients && m.clients[c].Selecting? ==> Apply(m, Select(c)).clients[c].Done?)
            && (forall c :: c in m.clients && m.clients[c].Done? ==>
                  var t := m.clients[c].result;
                  t.tradeId in e.db.rows && e.db.rows[t.tradeId] == t)
            && (forall c, d :: (c in e.clients && d in e.clients && e.clients[c].Done? && e.clients[d].Done?
                                && e.clients[c].result.tradeId == e.clients[d].result.tradeId) ==>
                  e.clients[c].result == e.clients[d].result)
  {
    InitInv(s);
    RunKeeps(s, before, |s.db.order|);
    RunKeeps(s, before + after, |s.db.order|);
    RunConcat(s, before, after);
    RunKeeps(Run(s, before), after, |s.db.order|);
    var m, e := Run(s, before), Run(s, before + after);
    forall c | c in m.clients && m.clients[c].Selecting? ensures Apply(m, Select(c)).clients[c].Done? {
      assert ClientOk(m.db, m.clients[c]);
    }
    forall c | c in m.clients && m.clients[c].Done?
      ensures m.clients[c].result.tradeId in e.db.rows && e.db.rows[m.clients[c].result.tradeId] == m.clients[c].result
    {
      assert ClientOk(m.db, m.clients[c]);
    }
    forall c | c in e.clients && e.clients[c].Done?
      ensures e.clients[c].result.tradeId in e.db.rows && e.db.rows[e.clients[c].result.tradeId] == e.clients[c].result
    {
      assert ClientOk(e.db, e.clients[c]);
    }
  }

  lemma {:induction false} RunConcat(s: State, a: seq<Action>, b: seq<Action>)
    ensures Run(s, a + b) == Run(Run(s, a), b)
    decreases |b|
  {
    if b == [] {
      assert a + b == a;
    } else {
      assert (a + b)[..|a + b| - 1] == a + b[..|b| - 1];
      RunConcat(s, a, b[..|b| - 1]);
    }
  }

  ghost predicate RatingsInRange(db: Table) {
    forall id :: id in db.rows && db.rows[id].planAdherence.Some? ==> 1 <= db.rows[id].planAdherence.value <= 5
  }

  lemma {:induction false} RatingsStep(s: State, a: Action)
    requires RatingsInRange(s.db)
    ensures RatingsInRange(Apply(s, a).db)
  {
    if !Inserts(a) { SameTable(s, a); }
  }

  /** No run stores a rating outside 1 to 5. */
  lemma {:induction false} RatingsStayInRange(s: State, actions: seq<Action>)
    requires RatingsInRange(s.db)
    ensures RatingsInRange(Run(s, actions).db)
  {
    if actions != [] {
      RatingsStayInRange(s, actions[..|actions| - 1]);
      RatingsStep(Run(s, actions[..|actions| - 1]), actions[|actions| - 1]);
    }
  }
}
