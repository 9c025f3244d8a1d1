/**
 Revenge flags end to end: what a losing close leaves behind, how long it is remembered, and which later
 trade is flagged because of it.
 */
module RevengeRuns {
  import opened Prelude
  import opened Domain
  import opened WritePath
  import R = Requests

  /** No goroutine remembers another loss of the user. */
  ghost predicate NoOtherLoss(actions: seq<Action>, user: string) {
    forall i :: 0 <= i < |actions| && actions[i].RunTask? && actions[i].task.SetLastLoss? ==>
      actions[i].task.user != user
  }

  lemma {:induction false} KeyStaysStep(s: State, a: Action, user: string)
    requires user in s.lastLoss
    requires !(a.RunTask? && a.task.SetLastLoss? && a.task.user == user)
    ensures var later := Apply(s, a); user in later.lastLoss && later.lastLoss[user] == s.lastLoss[user]
  {
  }

  lemma {:induction false} KeyStays(s: State, actions: seq<Action>, user: string)
    requires user in s.lastLoss && NoOtherLoss(actions, user)
    ensures var e := Run(s, actions); user in e.lastLoss && e.lastLoss[user] == s.lastLoss[user]
  {
    if actions != [] {
      var l := |actions| - 1;
      assert forall i :: 0 <= i < l ==> actions[..l][i] == actions[i];
      KeyStays(s, actions[..l], user);
      KeyStaysStep(Run(s, actions[..l]), actions[l], user);
    }
  }

  /**
   The check of a request flags its trade exactly when the read of the remembered second succeeds and
   finds one, the trader is anxious or fearful, and the entry is from that second on and less than 90
   seconds after it.
   */
  lemma {:induction false} CheckFlags(s: State, c: nat, ok: bool)
    requires c in s.clients && s.clients[c].Checking?
    ensures var input := s.clients[c].draft.input;
            var e, user := Apply(s, ReadLastLoss(c, ok)), input.userId;
            && e.clients[c].Inserting?
            && (e.clients[c].draft.revenge <==>
                  && ok && user in s.lastLoss && s.now < s.lastLoss[user].expires && 0 < s.lastLoss[user].value
                  && (input.emotion == Some(Anxious) || input.emotion == Some(Fearful))
                  && 0 <= input.entryAt - s.lastLoss[user].value * 1_000_000_000 < 90_000_000_000)
  {
  }

  /** A goroutine that remembers a loss keeps its second for 90 seconds. */
  lemma {:induction false} LossRemembered(s: State, user: string, second: int)
    requires SetLastLoss(user, second) in s.tasks
    ensures var e := Apply(s, RunTask(SetLastLoss(user, second)));
            user in e.lastLoss && e.lastLoss[user] == Expiring(second, s.now + 90_000_000_000)
  {
  }

  lemma {:induction false} PostFlags(s: State, c: nat, input: TradeInput)
    requires c !in s.clients && ValidInput(input) && Storable(StoredTrade(R.FlaggedDraft(s, input, true)))
    requires input.tradeId !in s.db.rows && input.userId in s.lastLoss
    ensures var e, key := Run(s, R.Post(c, input)), s.lastLoss[input.userId];
            && input.tradeId in e.db.rows
            && (e.db.rows[input.tradeId].revenge <==>
                  && s.now < key.expires && 0 < key.value
                  && (input.emotion == Some(Anxious) || input.emotion == Some(Fearful))
                  && 0 <= input.entryAt - key.value * 1_000_000_000 < 90_000_000_000)
  {
    R.Posted(s, c, input);
  }

  /**
   Once the loss of a user is remembered, and until another one is, whatever else happens: a request of the
   user under a new id is stored with the flag if and only if less than 90 seconds have passed since, the
   trader is anxious or fearful, and the entry is from the remembered second on and less than 90 seconds
   after it.
   */
  lemma {:induction false} RevengeExact(s: State, second: int, between: seq<Action>, c: nat, input: TradeInput)
    requires SetLastLoss(input.userId, second) in s.tasks && NoOtherLoss(between, input.userId)
    requires var m := Run(Apply(s, RunTask(SetLastLoss(input.userId, second))), between);
             && c !in m.clients && input.tradeId !in m.db.rows
             && ValidInput(input) && Storable(StoredTrade(R.FlaggedDraft(m, input, true)))
    ensures var m := Run(Apply(s, RunTask(SetLastLoss(input.userId, second))), between);
            var e := Run(m, R.Post(c, input));
            && input.tradeId in e.db.rows
            && (e.db.rows[input.tradeId].revenge <==>
                  && m.now < s.now + 90_000_000_000 && 0 < second
                  && (input.emotion == Some(Anxious) || input.emotion == Some(Fearful))
                  && 0 <= input.entryAt - second * 1_000_000_000 < 90_000_000_000)
  {
    var remembered := Apply(s, RunTask(SetLastLoss(input.userId, second)));
    LossRemembered(s, input.userId, second);
    KeyStays(remembered, between, input.userId);
    PostFlags(Run(remembered, between), c, input);
  }

  lemma {:induction false} LossTask(t: Trade)
    requires t.status == Closed && t.outcome == Some(Loss) && t.exitAt.Some?
    ensures SetLastLoss(t.userId, t.exitAt.value / 1_000_000_000) in Spawned(t)
  {
    R.SpawnedIs(t);
  }

  /** The goroutine that an answered losing close leaves. */
  lemma {:induction false} LossStarts(s: State, c: nat, input: TradeInput)
    requires c !in s.clients && ValidInput(input) && Storable(StoredTrade(R.FlaggedDraft(s, input, true)))
    requires input.tradeId !in s.db.rows && Loses(input)
    ensures SetLastLoss(input.userId, input.exitAt.value / 1_000_000_000) in Run(s, R.Post(c, input)).tasks
  {
    var flag := R.FlaggedDraft(s, input, true).revenge;
    assert R.FlaggedDraft(s, input, true) == BuildDraft(input).(revenge := flag);
    R.Posted(s, c, input);
    StoredLoss(input, flag);
    LossTask(StoredTrade(R.FlaggedDraft(s, input, true)));
  }

  /**
   From a losing close to the next trade, in terms of the two inputs: the close is answered and its
   goroutine runs, and then, whatever happens in between to other users, the user's next trade is flagged
   if and only if less than 90 seconds have passed since, the trader is anxious or fearful, and the entry
   is from the exit's whole second on and less than 90 seconds after it.
   */
  lemma {:induction false} LosingCloseFlags(s: State, c: nat, first: TradeInput, between: seq<Action>, d: nat,
                                            next: TradeInput)
    requires c !in s.clients && ValidInput(first) && Storable(StoredTrade(R.FlaggedDraft(s, first, true)))
    requires first.tradeId !in s.db.rows && Loses(first) && 0 < first.exitAt.value / 1_000_000_000
    requires next.userId == first.userId && NoOtherLoss(between, next.userId)
    requires var answered := Run(s, R.Post(c, first));
             var task := SetLastLoss(first.userId, first.exitAt.value / 1_000_000_000);
             var m := Run(Apply(answered, RunTask(task)), between);
             && d !in m.clients && next.tradeId !in m.db.rows
             && ValidInput(next) && Storable(StoredTrade(R.FlaggedDraft(m, next, true)))
    ensures var answered := Run(s, R.Post(c, first));
            var second := first.exitAt.value / 1_000_000_000;
            var m := Run(Apply(answered, RunTask(SetLastLoss(first.userId, second))), between);
            var e := Run(m, R.Post(d, next));
            && next.tradeId in e.db.rows
            && (e.db.rows[next.tradeId].revenge <==>
                  && m.now < answered.now + 90_000_000_000
                  && (next.emotion == Some(Anxious) || next.emotion == Some(Fearful))
                  && 0 <= next.entryAt - second * 1_000_000_000 < 90_000_000_000)
  {
    LossStarts(s, c, first);
    RevengeExact(Run(s, R.Post(c, first)), first.exitAt.value / 1_000_000_000, between, d, next);
  }
}
