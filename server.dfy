/**
 * The protocol adapter between the game engine and one remote player: it
 * notifies the player of a deal, receives the player's discards and bets,
 * probes liveness, and owns a replaceable channel to the player.
 */
module Server {
  import opened Messages
  import opened Replies
  import opened Discards
  import opened Betting
  import opened Transport

  /** What `change_cards` makes of the queued traffic: the receive loop, then the discard validation. */
  function ChangeCardsTurn(events: seq<Incoming>, hand: seq<Card>): (r: Result<Discard>)
    ensures Await(events).result.Err? ==> r == Err(Await(events).result.error)
    ensures Await(events).result.Ok? ==> r == DiscardReply(Await(events).result.value, hand)
  {
    match Await(events).result
    case Err(e) => Err(e)
    case Ok(m) => DiscardReply(m, hand)
  }

  /** What `bet` makes of the queued traffic once its request is sent. */
  function BetTurn(events: seq<Incoming>, minBet: real, maxBet: real, parse: Value -> Option<real>): (r: Result<BetDecision>)
    ensures Await(events).result.Err? ==> r == Err(Await(events).result.error)
    ensures Await(events).result.Ok? ==> r == BetReply(Await(events).result.value, minBet, maxBet, parse)
  {
    match Await(events).result
    case Err(e) => Err(e)
    case Ok(m) => BetReply(m, minBet, maxBet, parse)
  }

  /** Leading pings do not change the outcome of a discard exchange. */
  lemma ChangeCardsSkipsPings(pings: seq<Incoming>, events: seq<Incoming>, hand: seq<Card>)
    requires forall i | 0 <= i < |pings| :: IsPing(pings[i])
    ensures ChangeCardsTurn(pings + events, hand) == ChangeCardsTurn(events, hand)
  {
    AwaitSkipsPings(pings, events);
  }

  /** Leading pings do not change the outcome of a betting turn. */
  lemma BetSkipsPings(pings: seq<Incoming>, events: seq<Incoming>, minBet: real, maxBet: real, parse: Value -> Option<real>)
    requires forall i | 0 <= i < |pings| :: IsPing(pings[i])
    ensures BetTurn(pings + events, minBet, maxBet, parse) == BetTurn(events, minBet, maxBet, parse)
  {
    AwaitSkipsPings(pings, events);
  }

  /** The `change-cards` reply naming the slots `ks`. */
  function DiscardMessage(ks: seq<int>): (m: Message)
    ensures HasMsgId(m, "change-cards") && "cards" in m && IndicesOf(m["cards"]) == Some(ks)
  {
    var m := map["msg_id" := VStr("change-cards"), "cards" := VList(seq(|ks|, i requires 0 <= i < |ks| => VInt(ks[i])))];
    var items := m["cards"].items;
    assert forall e | e in items :: e.VInt?;
    assert IndicesOf(m["cards"]).value == ks;
    m
  }

  /**
   * On a hand of five cards, the reply `[2, 2, 0]` drops the duplicate, sorts
   * the slots and returns the cards in slots 0 and 2.
   */
  lemma DuplicateSlotsExample(a: Card, b: Card, c: Card, d: Card, e: Card)
    ensures DiscardReply(DiscardMessage([2, 2, 0]), [a, b, c, d, e]) == Ok(Discard([0, 2], [a, c]))
  {
    NormalizeIsSortedSet([2, 2, 0], [0, 2]);
    ResolveTwo([a, b, c, d, e], 0, 2);
    AcceptedReply(DiscardMessage([2, 2, 0]), [a, b, c, d, e], [2, 2, 0]);
  }

  /** The same reply preceded by two pings gives the same discards. */
  lemma ChangeCardsExample(a: Card, b: Card, c: Card, d: Card, e: Card)
    ensures ChangeCardsTurn([Delivered(PingMessage()), Delivered(PingMessage()), Delivered(DiscardMessage([2, 2, 0]))],
                            [a, b, c, d, e])
            == Ok(Discard([0, 2], [a, c]))
  {
    var reply := DiscardMessage([2, 2, 0]);
    var pings := [Delivered(PingMessage()), Delivered(PingMessage())];
    assert [Delivered(PingMessage()), Delivered(PingMessage()), Delivered(reply)] == pings + [Delivered(reply)] + [];
    AwaitFindsFirstSubstantive(pings, reply, []);
    DuplicateSlotsExample(a, b, c, d, e);
  }

  /** Negative slots count from the end, so `-1` and `4` both name the last card of a five-card hand. */
  lemma NegativeIndexExample(a: Card, b: Card, c: Card, d: Card, e: Card)
    ensures DiscardReply(DiscardMessage([4, -1]), [a, b, c, d, e]) == Ok(Discard([-1, 4], [e, e]))
  {
    NormalizeIsSortedSet([4, -1], [-1, 4]);
    ResolveTwo([a, b, c, d, e], -1, 4);
    AcceptedReply(DiscardMessage([4, -1]), [a, b, c, d, e], [4, -1]);
  }

  /** Resolving two valid slots gives the two cards in them. */
  lemma ResolveTwo(hand: seq<Card>, k0: int, k1: int)
    requires ValidIndex(|hand|, k0) && ValidIndex(|hand|, k1)
    ensures Resolve(hand, [k0, k1]) == Some([hand[Slot(|hand|, k0)], hand[Slot(|hand|, k1)]])
  {
    var keys := [k0, k1];
    assert keys[0] == k0 && keys[1] == k1;
    assert forall k | k in keys :: ValidIndex(|hand|, k);
    var r := Resolve(hand, keys);
    assert r.Some? && |r.value| == 2;
    assert r.value[0] == hand[Slot(|hand|, k0)] && r.value[1] == hand[Slot(|hand|, k1)];
    assert r.value == [r.value[0], r.value[1]];
  }

  /** A reply naming at most four valid slots is answered with the normalised keys and their cards. */
  lemma AcceptedReply(msg: Message, hand: seq<Card>, ks: seq<int>)
    requires HasMsgId(msg, "change-cards") && "cards" in msg && IndicesOf(msg["cards"]) == Some(ks)
    requires |Normalize(ks)| <= MaxDiscards && Resolve(hand, Normalize(ks)).Some?
    ensures DiscardReply(msg, hand) == Ok(Discard(Normalize(ks), Resolve(hand, Normalize(ks)).value))
  {
  }

  /** The deadline log of `n` receives that all wait until `t`. */
  function Repeated(t: Deadline, n: nat): (log: seq<Deadline>)
    ensures |log| == n && forall i | 0 <= i < n :: log[i] == t
  {
    if n == 0 then [] else Repeated(t, n - 1) + [t]
  }

  /** One more receive with the same deadline logs that deadline once more. */
  lemma RepeatedGrows(log: seq<Deadline>, t: Deadline, n: nat)
    ensures log + Repeated(t, n) + [t] == log + Repeated(t, n + 1)
  {
  }

  /** The adapter for one player. */
  class PlayerServer {
    var channel: Channel
    var hand: seq<Card>          // the player's current cards
    var score: Option<Score>     // the score of the current hand, once dealt
    var allowedToOpen: bool      // whether the current hand may open the round

    constructor (channel: Channel)
      ensures this.channel == channel && hand == [] && score == None && !allowedToOpen
    {
      this.channel := channel;
      hand := [];
      score := None;
      allowedToOpen := false;
    }

    /** Best-effort close of the channel: every error from closing is swallowed. */
    method Disconnect()
      modifies channel`closeCalls
      ensures channel.closeCalls == old(channel.closeCalls) + 1
    {
      var _ := channel.Close();
    }

    /** Replaces the channel after a reconnection; nothing is sent or received. */
    method UpdateChannel(c: Channel)
      modifies this`channel
      ensures channel == c
    {
      channel := c;
    }

    /**
     * Deals `cards` with score `s`: records them, decides whether the hand
     * may open (`cmp(minOpeningScore, s) >= 0`), and sends one `set-cards`
     * message carrying exactly that decision. Nothing is received.
     */
    method SetCards(cards: seq<Card>, s: Score, minOpeningScore: Score, cmp: (Score, Score) -> int) returns (r: Outcome)
      modifies this`hand, this`score, this`allowedToOpen, channel`outbox
      ensures hand == cards && score == Some(s)
      ensures allowedToOpen == (cmp(minOpeningScore, s) >= 0)
      ensures r == (if channel.sendFails then Fail(ChannelError) else Pass)
      ensures channel.outbox == if channel.sendFails then old(channel.outbox)
                                else old(channel.outbox) + [SetCardsMessage(cards, s, allowedToOpen)]
    {
      hand := cards;
      score := Some(s);
      allowedToOpen := cmp(minOpeningScore, s) >= 0;
      r := channel.Send(SetCardsMessage(hand, s, allowedToOpen));
    }

    /**
     * The receive loop shared by `change_cards` and `bet`: receive with the
     * same deadline until a message whose `msg_id` is not `ping` arrives; a
     * message without `msg_id`, a timeout or a transport failure ends it.
     */
    method AwaitReply(timeout: Deadline) returns (r: Result<Message>)
      modifies channel`inbox, channel`deadlines
      ensures r == Await(old(channel.inbox)).result
      ensures channel.inbox == Await(old(channel.inbox)).rest
      ensures channel.deadlines == old(channel.deadlines) + Repeated(timeout, Await(old(channel.inbox)).receives)
    {
      ghost var skipped: nat := 0;
      while true
        invariant Await(old(channel.inbox)) ==
                  Awaited(Await(channel.inbox).result, Await(channel.inbox).receives + skipped, Await(channel.inbox).rest)
        invariant channel.deadlines == old(channel.deadlines) + Repeated(timeout, skipped)
        decreases |channel.inbox|
      {
        ghost var queued := channel.inbox;
        var m := channel.Receive(timeout);
        RepeatedGrows(old(channel.deadlines), timeout, skipped);
        if m.Err? {
          AwaitStopsWithoutPing(queued);
          return m;
        }
        if "msg_id" !in m.value {
          AwaitStopsWithoutPing(queued);
          return Err(MessageFormatError("msg_id"));
        }
        if m.value["msg_id"] != VStr("ping") {
          AwaitStopsWithoutPing(queued);
          return m;
        }
        AwaitAfterPing(queued);
        skipped := skipped + 1;
      }
    }

    /**
     * Receives the player's discards (no request is sent) and validates them
     * against the current hand.
     */
    method ChangeCards(timeout: Deadline) returns (r: Result<Discard>)
      modifies channel`inbox, channel`deadlines
      ensures r == ChangeCardsTurn(old(channel.inbox), hand)
      ensures channel.inbox == Await(old(channel.inbox)).rest
      ensures channel.deadlines == old(channel.deadlines) + Repeated(timeout, Await(old(channel.inbox)).receives)
    {
      var m := AwaitReply(timeout);
      if m.Err? {
        return Err(m.error);
      }
      r := DiscardReply(m.value, hand);
    }

    /**
     * Offers a betting turn: sends the request, then receives and validates
     * the player's bet. A failed send ends the turn before anything is received.
     */
    method Bet(minBet: real, maxBet: real, opening: bool, timeout: Deadline,
               utcStamp: real -> string, parse: Value -> Option<real>) returns (r: Result<BetDecision>)
      modifies channel`outbox, channel`inbox, channel`deadlines
      ensures channel.sendFails ==> r == Err(ChannelError)
      ensures channel.sendFails ==> unchanged(channel`outbox, channel`inbox, channel`deadlines)
      ensures !channel.sendFails ==>
                && channel.outbox == old(channel.outbox) + [BetRequest(minBet, maxBet, opening, timeout, utcStamp)]
                && r == BetTurn(old(channel.inbox), minBet, maxBet, parse)
                && channel.inbox == Await(old(channel.inbox)).rest
                && channel.deadlines == old(channel.deadlines) + Repeated(timeout, Await(old(channel.inbox)).receives)
    {
      var sent := channel.Send(BetRequest(minBet, maxBet, opening, timeout, utcStamp));
      if sent.Fail? {
        return Err(sent.error);
      }
      var m := AwaitReply(timeout);
      if m.Err? {
        return Err(m.error);
      }
      r := BetReply(m.value, minBet, maxBet, parse);
    }

    /**
     * Liveness probe that never fails: sends a ping and, when `pong`, waits
     * until `now + 2` for a reply whose `msg_id` is `ping`. A transport
     * failure, a timeout or a malformed reply disconnects the channel and
     * yields false.
     */
    method Ping(pong: bool, now: real) returns (alive: bool)
      modifies channel`outbox, channel`inbox, channel`deadlines, channel`closeCalls
      ensures alive <==> !channel.sendFails && (pong ==> Receipt(old(channel.inbox)).Ok? && HasMsgId(Receipt(old(channel.inbox)).value, "ping"))
      ensures channel.closeCalls == old(channel.closeCalls) + (if alive then 0 else 1)
      ensures channel.outbox == if channel.sendFails then old(channel.outbox) else old(channel.outbox) + [PingMessage()]
      ensures channel.deadlines == old(channel.deadlines) + (if !channel.sendFails && pong then [At(now + 2.0)] else [])
      ensures channel.inbox == if !channel.sendFails && pong && old(channel.inbox) != [] then old(channel.inbox)[1..] else old(channel.inbox)
    {
      var sent := channel.Send(PingMessage());
      var failed := sent.Fail?;
      if !failed && pong {
        var m := channel.Receive(At(now + 2.0));
        failed := m.Err? || CheckMsgId(m.value, "ping").Fail?;
      }
      if failed {
        Disconnect();
        return false;
      }
      return true;
    }

    /** Sends `m`, answering false instead of failing when the transport fails. */
    method TrySendMessage(m: Message) returns (sent: bool)
      modifies channel`outbox
      ensures sent == !channel.sendFails
      ensures channel.outbox == if sent then old(channel.outbox) + [m] else old(channel.outbox)
    {
      var r := channel.Send(m);
      return r.Pass?;
    }
  }
}
