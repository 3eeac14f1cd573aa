/**
 * What the receive loops of the protocol adapter make of the player's inbound
 * traffic: keep receiving, skip keep-alive `ping` messages, stop at the first
 * substantive message, a message without `msg_id`, or a transport failure.
 */
module Replies {
  import opened Messages

  /** What one receive on the channel produces. */
  datatype Incoming =
    | Delivered(msg: Message)  // a message arrived
    | Broken                   // the transport failed (ChannelError)
    | Expired                  // the deadline passed (MessageTimeout)

  /** A delivered keep-alive message. */
  predicate IsPing(e: Incoming) {
    e.Delivered? && HasMsgId(e.msg, "ping")
  }

  /** The result of one receive; an empty queue means nothing arrives before the deadline. */
  function Receipt(events: seq<Incoming>): (r: Result<Message>)
    ensures r.Ok? <==> events != [] && events[0].Delivered?
    ensures events != [] && events[0].Delivered? ==> r == Ok(events[0].msg)
    ensures events != [] && events[0].Broken? ==> r == Err(ChannelError)
    ensures events == [] || events[0].Expired? ==> r == Err(MessageTimeout)
  {
    if events == [] then Err(MessageTimeout)
    else match events[0]
      case Delivered(m) => Ok(m)
      case Broken => Err(ChannelError)
      case Expired => Err(MessageTimeout)
  }

  /** The outcome of a receive loop: its result, how many receives it made, and what is left queued. */
  datatype Awaited = Awaited(result: Result<Message>, receives: nat, rest: seq<Incoming>)

  /**
   * The receive loop over the queue `events`. The contract states what the
   * loop promises: it consumes a prefix of the queue, every consumed message
   * but the last is a ping, and a successful result is the last consumed
   * message, which has a `msg_id` other than `ping`.
   */
  function Await(events: seq<Incoming>): (a: Awaited)
    ensures a.receives != 0
    ensures a.receives <= |events| ==> a.rest == events[a.receives..]
    ensures a.receives > |events| ==> a.receives == |events| + 1 && a.rest == [] && a.result == Err(MessageTimeout)
    ensures forall i | 0 <= i < a.receives - 1 :: IsPing(events[i])
    ensures a.result.Ok? ==>
              a.receives <= |events| && events[a.receives - 1] == Delivered(a.result.value)
              && "msg_id" in a.result.value && !HasMsgId(a.result.value, "ping")
    ensures a.result.Err? ==> a.result.error in {MessageFormatError("msg_id"), ChannelError, MessageTimeout}
    decreases |events|
  {
    match Receipt(events)
    case Err(e) => Awaited(Err(e), 1, if events == [] then [] else events[1..])
    case Ok(m) =>
      if "msg_id" !in m then Awaited(Err(MessageFormatError("msg_id")), 1, events[1..])
      else if m["msg_id"] != VStr("ping") then Awaited(Ok(m), 1, events[1..])
      else
        var a := Await(events[1..]);
        Awaited(a.result, a.receives + 1, a.rest)
  }

  /**
   * Any number of leading pings is consumed and skipped: the loop then ends
   * exactly as it would on the queue without them, having made one more
   * receive per ping.
   */
  lemma {:induction false} AwaitSkipsPings(pings: seq<Incoming>, events: seq<Incoming>)
    requires forall i | 0 <= i < |pings| :: IsPing(pings[i])
    ensures Await(pings + events).result == Await(events).result
    ensures Await(pings + events).receives == Await(events).receives + |pings|
    ensures Await(pings + events).rest == Await(events).rest
    decreases |pings|
  {
    if pings != [] {
      var all := pings + events;
      assert all[0] == pings[0] && all[1..] == pings[1..] + events;
      AwaitSkipsPings(pings[1..], events);
      var a := Await(all[1..]);
      assert Await(all) == Awaited(a.result, a.receives + 1, a.rest);
    } else {
      assert pings + events == events;
    }
  }

  /**
   * A loop that does not start with a ping ends after exactly one receive,
   * with that receive's message or error, or with the missing-`msg_id` error.
   */
  lemma AwaitStopsWithoutPing(events: seq<Incoming>)
    requires events == [] || !IsPing(events[0])
    ensures Await(events).receives == 1
    ensures Await(events).rest == if events == [] then [] else events[1..]
    ensures Receipt(events).Err? ==> Await(events).result == Receipt(events)
    ensures Receipt(events).Ok? && "msg_id" !in Receipt(events).value ==> Await(events).result == Err(MessageFormatError("msg_id"))
    ensures Receipt(events).Ok? && "msg_id" in Receipt(events).value ==> Await(events).result == Receipt(events)
  {
  }

  /** A leading ping is skipped: the loop goes on with the rest of the queue, one receive later. */
  lemma AwaitAfterPing(events: seq<Incoming>)
    requires events != [] && IsPing(events[0])
    ensures Await(events) == Awaited(Await(events[1..]).result, Await(events[1..]).receives + 1, Await(events[1..]).rest)
  {
  }

  /** A message without `msg_id` ends the loop with a format error blamed on `msg_id`, even after pings. */
  lemma MissingMsgIdFails(pings: seq<Incoming>, m: Message, events: seq<Incoming>)
    requires forall i | 0 <= i < |pings| :: IsPing(pings[i])
    requires "msg_id" !in m
    ensures Await(pings + [Delivered(m)] + events).result == Err(MessageFormatError("msg_id"))
  {
    assert pings + [Delivered(m)] + events == pings + ([Delivered(m)] + events);
    AwaitSkipsPings(pings, [Delivered(m)] + events);
  }

  /** A substantive message after any number of pings is the loop's result. */
  lemma AwaitFindsFirstSubstantive(pings: seq<Incoming>, m: Message, events: seq<Incoming>)
    requires forall i | 0 <= i < |pings| :: IsPing(pings[i])
    requires "msg_id" in m && !HasMsgId(m, "ping")
    ensures Await(pings + [Delivered(m)] + events) == Awaited(Ok(m), |pings| + 1, events)
  {
    assert pings + [Delivered(m)] + events == pings + ([Delivered(m)] + events);
    AwaitSkipsPings(pings, [Delivered(m)] + events);
    assert ([Delivered(m)] + events)[1..] == events;
  }

  /**
   * The loop ends on a failed receive with that receive's error, unchanged:
   * a transport failure stays ChannelError and a timeout stays MessageTimeout.
   */
  lemma {:induction false} AwaitPropagatesReceiveError(events: seq<Incoming>)
    ensures var a := Await(events);
            a.receives - 1 <= |events| &&
            (Receipt(events[a.receives - 1..]).Err? ==> a.result == Receipt(events[a.receives - 1..]))
    decreases |events|
  {
    if events != [] && IsPing(events[0]) {
      AwaitPropagatesReceiveError(events[1..]);
      var a := Await(events[1..]);
      assert Await(events) == Awaited(a.result, a.receives + 1, a.rest);
      assert events[a.receives..] == events[1..][a.receives - 1..];
    }
  }

  /** A transport failure or a timeout, even after pings, ends the loop with that error unchanged. */
  lemma ReceiveFailurePropagates(pings: seq<Incoming>, e: Incoming, events: seq<Incoming>)
    requires forall i | 0 <= i < |pings| :: IsPing(pings[i])
    requires !e.Delivered?
    ensures Await(pings + [e] + events).result == Receipt([e] + events)
    ensures e.Broken? ==> Await(pings + [e] + events).result == Err(ChannelError)
    ensures e.Expired? ==> Await(pings + [e] + events).result == Err(MessageTimeout)
  {
    assert pings + [e] + events == pings + ([e] + events);
    AwaitSkipsPings(pings, [e] + events);
  }
}
