/**
 * The message channel to one remote player, seen from the adapter: a queue
 * of what the next receives will produce, a log of what was sent, a log of
 * the deadline given to every receive, and a count of close requests.
 * Transport, framing and real time are not modelled; whether a send or a
 * close fails is fixed by the channel's state.
 */
module Transport {
  import opened Messages
  import opened Replies

  class Channel {
    var inbox: seq<Incoming>      // what the coming receives produce, in order
    var outbox: seq<Message>      // every message sent so far, in order
    var deadlines: seq<Deadline>  // the deadline given to every receive so far, in order
    var sendFails: bool           // sending fails with ChannelError
    var closeFails: bool          // closing raises an error
    var closeCalls: nat           // how many times close was requested

    constructor (inbox: seq<Incoming>, sendFails: bool, closeFails: bool)
      ensures this.inbox == inbox && outbox == [] && deadlines == []
      ensures this.sendFails == sendFails && this.closeFails == closeFails && closeCalls == 0
    {
      this.inbox := inbox;
      outbox := [];
      deadlines := [];
      this.sendFails := sendFails;
      this.closeFails := closeFails;
      closeCalls := 0;
    }

    /** Transmits one message, or fails with ChannelError and transmits nothing. */
    method Send(m: Message) returns (r: Outcome)
      modifies this`outbox
      ensures r == (if sendFails then Fail(ChannelError) else Pass)
      ensures outbox == if sendFails then old(outbox) else old(outbox) + [m]
    {
      if sendFails {
        r := Fail(ChannelError);
      } else {
        outbox := outbox + [m];
        r := Pass;
      }
    }

    /** Waits for the next inbound message until `timeout`. */
    method Receive(timeout: Deadline) returns (r: Result<Message>)
      modifies this`inbox, this`deadlines
      ensures r == Receipt(old(inbox))
      ensures inbox == if old(inbox) == [] then [] else old(inbox)[1..]
      ensures deadlines == old(deadlines) + [timeout]
    {
      r := Receipt(inbox);
      if inbox != [] {
        inbox := inbox[1..];
      }
      deadlines := deadlines + [timeout];
    }

    /** Releases the transport; may raise. */
    method Close() returns (r: Outcome)
      modifies this`closeCalls
      ensures closeCalls == old(closeCalls) + 1
      ensures r.Fail? <==> closeFails
    {
      closeCalls := closeCalls + 1;
      r := if closeFails then Fail(ChannelError) else Pass;
    }
  }
}
