/**
 The stream entry that the trade handler publishes and the worker decodes. A field is kept as the
 value its text denotes: the text forms of decimals, integers and RFC 3339 times are
 library codecs, and the enumeration constants are distinct words. An `Instant` is a whole number
 of seconds, because the handler formats times without a fraction; outside the years 0 to 9999 it is
 a text that time.Parse refuses. `Text` is any other text, among them the "1" or "0" that the Redis
 client writes for a bool.
 */
module EventCodec {
  import opened Prelude
  import opened Timeline
  import opened Domain

  datatype Field = TradeId | UserId | SessionId | StatusOf | DirectionOf | EntryAt
                 | OutcomeOf | PnL | EmotionalState | PlanAdherence | ExitAt | RevengeFlag

  datatype Value = Text(s: string) | StatusWord(status: Status) | DirectionWord(direction: Direction)
                 | OutcomeWord(outcome: Outcome) | EmotionWord(emotion: Emotion)
                 | Number(n: int) | Amount(units: int) | Instant(seconds: int)

  type Values = map<Field, Value>

  /** The handler's conditional assignments, in order: a field is set only when there is a value. */
  function Fill(m: Values, extras: seq<(Field, Option<Value>)>): Values
    decreases |extras|
  {
    if extras == [] then m
    else
      var (f, v) := extras[0];
      Fill(if v.Some? then m[f := v.value] else m, extras[1..])
  }

  function OutcomeField(t: Trade): Option<Value> {
    if t.outcome.Some? then Some(OutcomeWord(t.outcome.value)) else None
  }

  function PnlField(t: Trade): Option<Value> {
    if t.pnl.Some? then Some(Amount(t.pnl.value)) else None
  }

  function EmotionField(t: Trade): Option<Value> {
    if t.emotion.Some? then Some(EmotionWord(t.emotion.value)) else None
  }

  function AdherenceField(t: Trade): Option<Value> {
    if t.planAdherence.Some? then Some(Number(t.planAdherence.value)) else None
  }

  function ExitField(t: Trade): Option<Value> {
    if t.exitAt.Some? then Some(Instant(UnixSeconds(t.exitAt.value))) else None
  }

  function FlagText(b: bool): string { if b then "1" else "0" }

  function Required(t: Trade): Values {
    map[
      TradeId := Text(t.tradeId), UserId := Text(t.userId), SessionId := Text(t.sessionId),
      StatusOf := StatusWord(t.status),
      DirectionOf := DirectionWord(t.direction),
      EntryAt := Instant(UnixSeconds(t.entryAt))]
  }

  function Extras(t: Trade): seq<(Field, Option<Value>)> {
    [(OutcomeOf, OutcomeField(t)), (PnL, PnlField(t)), (EmotionalState, EmotionField(t)),
     (PlanAdherence, AdherenceField(t)), (ExitAt, ExitField(t)), (RevengeFlag, Some(Text(FlagText(t.revenge))))]
  }

  /** The event built by the publishing goroutine of Create. */
  function Encode(t: Trade): Values {
    Fill(Required(t), Extras(t))
  }

  function Lookup(values: Values, f: Field): Option<Value> {
    if f in values then Some(values[f]) else None
  }

  lemma {:induction false} FillOther(m: Values, extras: seq<(Field, Option<Value>)>, g: Field)
    requires forall i :: 0 <= i < |extras| ==> extras[i].0 != g
    ensures Lookup(Fill(m, extras), g) == Lookup(m, g)
    decreases |extras|
  {
    if extras != [] {
      var (f, v) := extras[0];
      FillOther(if v.Some? then m[f := v.value] else m, extras[1..], g);
    }
  }

  lemma {:induction false} FillAt(m: Values, extras: seq<(Field, Option<Value>)>, n: nat)
    requires n < |extras|
    requires forall i :: 0 <= i < |extras| && i != n ==> extras[i].0 != extras[n].0
    requires extras[n].0 !in m
    ensures Lookup(Fill(m, extras), extras[n].0) == extras[n].1
    decreases |extras|
  {
    var (f, v) := extras[0];
    var m' := if v.Some? then m[f := v.value] else m;
    if n == 0 {
      FillOther(m', extras[1..], f);
    } else {
      FillAt(m', extras[1..], n - 1);
    }
  }

  /** values holds exactly the trade's fields, each optional one only when the trade has it. */
  predicate Carries(values: Values, t: Trade) {
    CarriesRequired(values, t) && CarriesOptional(values, t)
  }

  predicate CarriesRequired(values: Values, t: Trade) {
    && Lookup(values, TradeId) == Some(Text(t.tradeId))
    && Lookup(values, UserId) == Some(Text(t.userId))
    && Lookup(values, SessionId) == Some(Text(t.sessionId))
    && Lookup(values, StatusOf) == Some(StatusWord(t.status))
    && Lookup(values, DirectionOf) == Some(DirectionWord(t.direction))
    && Lookup(values, EntryAt) == Some(Instant(UnixSeconds(t.entryAt)))
    && Lookup(values, RevengeFlag) == Some(Text(FlagText(t.revenge)))
  }

  predicate CarriesOptional(values: Values, t: Trade) {
    && Lookup(values, OutcomeOf) == OutcomeField(t)
    && Lookup(values, PnL) == PnlField(t)
    && Lookup(values, EmotionalState) == EmotionField(t)
    && Lookup(values, PlanAdherence) == AdherenceField(t)
    && Lookup(values, ExitAt) == ExitField(t)
  }

  lemma {:induction false} EncodeOptional(t: Trade)
    ensures CarriesOptional(Encode(t), t)
  {
    var m, extras := Required(t), Extras(t);
    FillAt(m, extras, 0);
    FillAt(m, extras, 1);
    FillAt(m, extras, 2);
    FillAt(m, extras, 3);
    FillAt(m, extras, 4);
  }

  lemma {:induction false} EncodeRequired(t: Trade)
    ensures CarriesRequired(Encode(t), t)
  {
    var m, extras := Required(t), Extras(t);
    FillOther(m, extras, TradeId);
    FillOther(m, extras, UserId);
    FillOther(m, extras, SessionId);
    FillOther(m, extras, StatusOf);
    FillOther(m, extras, DirectionOf);
    FillOther(m, extras, EntryAt);
    FillAt(m, extras, 5);
  }

  lemma {:induction false} EncodeCarries(t: Trade)
    ensures Carries(Encode(t), t)
  {
    EncodeRequired(t);
    EncodeOptional(t);
  }

  /** The emotionalState text: absent or empty, one of the enum's words, or a word the database refuses. */
  datatype EmotionArg = NoEmotion | Known(emotion: Emotion) | Unknown

  /** The worker's local variables. An absent field reads as the empty text. */
  datatype Message = Message(
    tradeId: string, userId: string, sessionId: string, closed: bool, won: bool,
    pnl: int, emotion: EmotionArg, hasPlan: bool, entryAt: int, revenge: bool)

  function TextField(values: Values, f: Field): string {
    if f in values && values[f].Text? then values[f].s else ""
  }

  function EmotionFieldOf(values: Values): EmotionArg {
    if EmotionalState !in values || values[EmotionalState] == Text("") then NoEmotion
    else if values[EmotionalState].EmotionWord? then Known(values[EmotionalState].emotion)
    else Unknown
  }

  /** time.Parse of the entryAt text; the error is ignored, which leaves the zero time. */
  function InstantField(values: Values, f: Field): int {
    if f in values && values[f].Instant? then Reparsed(values[f].seconds * SECOND) else ZERO_TIME
  }

  /** decimal.NewFromString of the pnl text; the error is ignored, which leaves zero. */
  function AmountField(values: Values, f: Field): int {
    if f in values && values[f].Amount? then values[f].units else 0
  }

  /** The worker takes "true" or "1" for set. */
  predicate FlagField(values: Values, f: Field) {
    TextField(values, f) == "true" || TextField(values, f) == "1" || Lookup(values, f) == Some(Number(1))
  }

  function Decode(values: Values): Message {
    Message(
      TextField(values, TradeId), TextField(values, UserId), TextField(values, SessionId),
      Lookup(values, StatusOf) == Some(StatusWord(Closed)),
      Lookup(values, OutcomeOf) == Some(OutcomeWord(Win)),
      AmountField(values, PnL), EmotionFieldOf(values),
      PlanAdherence in values && values[PlanAdherence] != Text(""),
      InstantField(values, EntryAt), FlagField(values, RevengeFlag))
  }

  /** What the worker reads from the event of a stored trade. */
  function MessageOf(t: Trade): Message {
    Message(
      t.tradeId, t.userId, t.sessionId, t.status == Closed, t.outcome == Some(Win),
      if t.pnl.Some? then t.pnl.value else 0,
      if t.emotion.Some? then Known(t.emotion.value) else NoEmotion,
      t.planAdherence.Some?, Reparsed(t.entryAt), t.revenge)
  }

  lemma {:induction false} DecodeCarried(values: Values, t: Trade)
    requires Carries(values, t)
    ensures Decode(values) == MessageOf(t)
  {
    assert FlagText(true)[0] == '1' && FlagText(false)[0] == '0' && |"true"| == 4;
  }

  /**
   Every field that the worker reads comes back, but the entry time only to the second, which no hour
   or day bucket can see, and only in the years 0 to 9999: the buckets are those of the stored entry
   time exactly then.
   */
  lemma {:induction false} DecodeEncode(t: Trade)
    ensures Decode(Encode(t)) == MessageOf(t)
    ensures var m := Decode(Encode(t));
            && m.tradeId == t.tradeId && m.userId == t.userId && m.sessionId == t.sessionId
            && (m.closed <==> t.status == Closed) && (m.won <==> t.outcome == Some(Win))
            && m.pnl == t.pnl.GetOr(0) && m.revenge == t.revenge && m.hasPlan == t.planAdherence.Some?
            && m.emotion == (if t.emotion.Some? then Known(t.emotion.value) else NoEmotion)
            && m.entryAt == if -62_167_219_200 <= t.entryAt / 1_000_000_000 < 253_402_300_800
                            then t.entryAt - t.entryAt % 1_000_000_000 else -62_135_596_800_000_000_000
    ensures Printable(t.entryAt) <==> GoHour(MessageOf(t).entryAt) == SqlHour(t.entryAt)
    ensures Printable(t.entryAt) <==> GoDay(MessageOf(t).entryAt) == SqlDay(t.entryAt)
  {
    EncodeCarries(t);
    DecodeCarried(Encode(t), t);
    ReparsedBuckets(t.entryAt, t.entryAt);
    OriginsAgree(Reparsed(t.entryAt));
  }

  /** Other years are accepted: 9999-12-31T23:59:59-23:59 parses, is stored, and is then in the year 10000. */
  lemma {:induction false} UnprintableAccepted()
    ensures var late := 253_402_387_139 * SECOND;
            var input := TradeInput("t", "u", "s", Long, 1.0, Some(2.0), 1.0, late, None, Closed, None, None);
            var t := StoredTrade(BuildDraft(input));
            && ValidInput(input) && Storable(t) && t.outcome == Some(Win)
            && !Printable(t.entryAt) && MessageOf(t).entryAt == ZERO_TIME
  {
    assert |"t"| == 1 && |"u"| == 1 && |"s"| == 1;
    assert Numeric8(1.0) == 100_000_000 && Numeric8(2.0) == 200_000_000;
  }

  /** No two different field values share an event. */
  lemma {:induction false} EncodeInjective(t: Trade, u: Trade)
    requires Encode(t) == Encode(u)
    ensures t.tradeId == u.tradeId && t.userId == u.userId && t.sessionId == u.sessionId
    ensures t.status == u.status && t.direction == u.direction && t.revenge == u.revenge
    ensures t.outcome == u.outcome && t.pnl == u.pnl
    ensures t.emotion == u.emotion && t.planAdherence == u.planAdherence
    ensures UnixSeconds(t.entryAt) == UnixSeconds(u.entryAt)
    ensures t.exitAt.Some? == u.exitAt.Some?
    ensures t.exitAt.Some? ==> UnixSeconds(t.exitAt.value) == UnixSeconds(u.exitAt.value)
  {
    EncodeCarries(t);
    EncodeCarries(u);
    CarriedFields(Encode(t), t, u);
  }

  lemma {:induction false} CarriedFields(values: Values, t: Trade, u: Trade)
    requires Carries(values, t) && Carries(values, u)
    ensures t.tradeId == u.tradeId && t.userId == u.userId && t.sessionId == u.sessionId
    ensures t.status == u.status && t.direction == u.direction && t.revenge == u.revenge
    ensures t.outcome == u.outcome && t.pnl == u.pnl
    ensures t.emotion == u.emotion && t.planAdherence == u.planAdherence
    ensures UnixSeconds(t.entryAt) == UnixSeconds(u.entryAt)
    ensures t.exitAt.Some? == u.exitAt.Some?
    ensures t.exitAt.Some? ==> UnixSeconds(t.exitAt.value) == UnixSeconds(u.exitAt.value)
  {
    assert FlagText(true)[0] == '1' && FlagText(false)[0] == '0';
  }
}
