/**
 * Wire messages exchanged between the poker server and one remote player,
 * the error taxonomy of the protocol adapter, and the `msg_id` check every
 * inbound reply goes through.
 */
module Messages {

  /** A playing card; its representation and serialisation belong to the game engine. */
  type Card(==)

  /** A hand score; only its comparison (passed in as `cmp`) and its serialisation matter here. */
  type Score(==)

  /**
   * A decoded wire value. `VCard` and `VScore` stand for the serialised form
   * (`dto()`) of a card and of a score, which is not part of this model.
   */
  datatype Value =
    | VNull
    | VBool(b: bool)
    | VInt(i: int)
    | VReal(x: real)
    | VStr(s: string)
    | VList(items: seq<Value>)
    | VMap(fields: map<string, Value>)
    | VCard(card: Card)
    | VScore(score: Score)

  /** A message is a mapping from field names to values; key order is irrelevant. */
  type Message = map<string, Value>

  /** The errors a protocol operation can end with. */
  datatype Error =
    | MessageFormatError(attribute: string)  // a malformed reply, blamed on one field
    | ChannelError                           // the transport failed
    | MessageTimeout                         // nothing arrived before the deadline
    | Unparsable                             // the reply's bet is not a number (see Betting)

  datatype Result<T> = Ok(value: T) | Err(error: Error)

  datatype Option<T> = None | Some(value: T)

  datatype Outcome = Pass | Fail(error: Error)

  /** A receive deadline: none, or an absolute point in time (seconds since the epoch). */
  datatype Deadline = Unbounded | At(time: real)

  /** Whether `msg` carries `msg_id` equal to the string `id`. */
  predicate HasMsgId(msg: Message, id: string) {
    "msg_id" in msg && msg["msg_id"] == VStr(id)
  }

  /**
   * The check made on a reply before its body is read: the reply must carry a
   * `msg_id` and it must be the expected one; otherwise the reply is blamed on
   * `msg_id`.
   */
  function CheckMsgId(msg: Message, expected: string): (r: Outcome)
    ensures r.Pass? <==> HasMsgId(msg, expected)
    ensures r.Fail? ==> r.error == MessageFormatError("msg_id")
  {
    if "msg_id" !in msg then Fail(MessageFormatError("msg_id"))
    else if msg["msg_id"] != VStr(expected) then Fail(MessageFormatError("msg_id"))
    else Pass
  }

  /** The keep-alive message. */
  function PingMessage(): (m: Message)
    ensures HasMsgId(m, "ping") && m.Keys == {"msg_id"}
  {
    map["msg_id" := VStr("ping")]
  }

  /** The one-way deal notification: the hand, its score and whether the player may open. */
  function SetCardsMessage(hand: seq<Card>, score: Score, allowedToOpen: bool): (m: Message)
    ensures HasMsgId(m, "set-cards")
    ensures m.Keys == {"msg_id", "cards", "score", "allowed_to_open"}
  {
    map[
      "msg_id" := VStr("set-cards"),
      "cards" := VList(seq(|hand|, i requires 0 <= i < |hand| => VCard(hand[i]))),
      "score" := VScore(score),
      "allowed_to_open" := VBool(allowedToOpen)
    ]
  }

  /** What a player reads back from a deal notification; `None` for anything else. */
  function ReadSetCards(m: Message): (r: Option<(seq<Card>, Score, bool)>)
    ensures r.Some? ==> HasMsgId(m, "set-cards")
  {
    if HasMsgId(m, "set-cards") && "cards" in m && "score" in m && "allowed_to_open" in m
       && m["cards"].VList? && m["score"].VScore? && m["allowed_to_open"].VBool?
       && (forall v | v in m["cards"].items :: v.VCard?)
    then
      var items := m["cards"].items;
      Some((seq(|items|, i requires 0 <= i < |items| => items[i].card), m["score"].score, m["allowed_to_open"].b))
    else None
  }

  /** A deal notification carries exactly the hand, the score and the opening flag it was built from. */
  lemma SetCardsRoundTrip(hand: seq<Card>, score: Score, allowedToOpen: bool)
    ensures ReadSetCards(SetCardsMessage(hand, score, allowedToOpen)) == Some((hand, score, allowedToOpen))
  {
    var m := SetCardsMessage(hand, score, allowedToOpen);
    var items := m["cards"].items;
    assert forall v | v in items :: v.VCard?;
    assert seq(|items|, i requires 0 <= i < |items| => items[i].card) == hand;
  }

  /**
   * The `timeout` field of a bet request: null when there is no deadline or the
   * deadline is zero (Python treats 0 as false), otherwise the deadline
   * formatted as a UTC timestamp by `utcStamp`.
   */
  function TimeoutField(timeout: Deadline, utcStamp: real -> string): (v: Value)
    ensures v == VNull <==> timeout == Unbounded || timeout == At(0.0)
    ensures timeout.At? && timeout.time != 0.0 ==> v == VStr(utcStamp(timeout.time))
  {
    match timeout
    case Unbounded => VNull
    case At(t) => if t == 0.0 then VNull else VStr(utcStamp(t))
  }

  /** The bet request offering a betting turn with bounds `[minBet, maxBet]`. */
  function BetRequest(minBet: real, maxBet: real, opening: bool, timeout: Deadline, utcStamp: real -> string): (m: Message)
    ensures HasMsgId(m, "bet")
    ensures m.Keys == {"msg_id", "timeout", "min_bet", "max_bet", "opening"}
    ensures m["min_bet"] == VReal(minBet) && m["max_bet"] == VReal(maxBet) && m["opening"] == VBool(opening)
    ensures m["timeout"] == TimeoutField(timeout, utcStamp)
  {
    map[
      "msg_id" := VStr("bet"),
      "timeout" := TimeoutField(timeout, utcStamp),
      "min_bet" := VReal(minBet),
      "max_bet" := VReal(maxBet),
      "opening" := VBool(opening)
    ]
  }
}
