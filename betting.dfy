/**
 * Validation of a player's `bet` reply. The source returns one float, where
 * `-1` means both "no bet required" and "the player folds"; the model keeps
 * the two apart and `AsFloat` maps them back to the source's value.
 */
module Betting {
  import opened Messages

  /** What a validated bet reply decides. */
  datatype BetDecision =
    | Bet(amount: real)  // a bet within the offered bounds
    | Fold               // the player sent -1.0
    | NotRequired        // max_bet was -1: no bet was required, the reply body is not read

  /** The sentinel the source uses for both folding and "no bet required". */
  const FoldSentinel: real := -1.0

  /** The value the source returns for a decision. */
  function AsFloat(d: BetDecision): (x: real)
    ensures x == FoldSentinel <==> !d.Bet? || d.amount == FoldSentinel
  {
    match d
    case Bet(v) => v
    case Fold => FoldSentinel
    case NotRequired => FoldSentinel
  }

  /**
   * The body of `bet` after the receive loop. `parse` stands for Python's
   * `float(...)` applied to the reply's `bet` field (`None` when it raises).
   */
  function BetReply(msg: Message, minBet: real, maxBet: real, parse: Value -> Option<real>): (r: Result<BetDecision>)
    // msg_id is validated first, whatever max_bet is
    ensures !HasMsgId(msg, "bet") ==> r == Err(MessageFormatError("msg_id"))
    // "no bet required" exactly when max_bet is the sentinel, and then for every body
    ensures HasMsgId(msg, "bet") ==> (r == Ok(NotRequired) <==> maxBet == FoldSentinel)
    // otherwise the bet field is required and must be a number
    ensures HasMsgId(msg, "bet") && maxBet != FoldSentinel && "bet" !in msg ==> r == Err(MessageFormatError("bet"))
    ensures HasMsgId(msg, "bet") && maxBet != FoldSentinel && "bet" in msg && parse(msg["bet"]).None? ==> r.Err?
    // a fold is the sentinel sent by the player, accepted without a range check
    ensures r == Ok(Fold) <==> HasMsgId(msg, "bet") && maxBet != FoldSentinel && "bet" in msg && parse(msg["bet"]) == Some(FoldSentinel)
    // an accepted bet is what the player sent, and lies within the bounds
    ensures r.Ok? && r.value.Bet? ==>
              "bet" in msg && parse(msg["bet"]) == Some(r.value.amount) && minBet <= r.value.amount <= maxBet
    // a number other than the sentinel is accepted exactly when it is in range, and blamed on bet otherwise
    ensures HasMsgId(msg, "bet") && maxBet != FoldSentinel && "bet" in msg
            && parse(msg["bet"]).Some? && parse(msg["bet"]).value != FoldSentinel ==>
              var v := parse(msg["bet"]).value;
              r == (if minBet <= v <= maxBet then Ok(Bet(v)) else Err(MessageFormatError("bet")))
  {
    if CheckMsgId(msg, "bet").Fail? then Err(CheckMsgId(msg, "bet").error)
    else if maxBet == FoldSentinel then Ok(NotRequired)
    else if "bet" !in msg then Err(MessageFormatError("bet"))
    else match parse(msg["bet"])
      case None => Err(Unparsable)
      case Some(v) =>
        if v == FoldSentinel then Ok(Fold)
        else if v < minBet || v > maxBet then Err(MessageFormatError("bet"))
        else Ok(Bet(v))
  }

  /**
   * The float the source returns is recovered from the decision: -1 when no
   * bet is required, -1.0 on a fold, the parsed bet otherwise; and it is
   * either the sentinel or within the bounds.
   */
  lemma BetReplyAsFloat(msg: Message, minBet: real, maxBet: real, parse: Value -> Option<real>)
    requires BetReply(msg, minBet, maxBet, parse).Ok?
    ensures var x := AsFloat(BetReply(msg, minBet, maxBet, parse).value);
            x == FoldSentinel || minBet <= x <= maxBet
    ensures maxBet != FoldSentinel ==>
              "bet" in msg && parse(msg["bet"]) == Some(AsFloat(BetReply(msg, minBet, maxBet, parse).value))
  {
  }

  /**
   * Folding is allowed even when -1.0 lies below the lower bound, while any
   * other value below the lower bound is rejected.
   */
  lemma FoldBypassesRange(msg: Message, minBet: real, maxBet: real, parse: Value -> Option<real>)
    requires HasMsgId(msg, "bet") && "bet" in msg && maxBet != FoldSentinel
    requires minBet > FoldSentinel
    ensures parse(msg["bet"]) == Some(FoldSentinel) ==> BetReply(msg, minBet, maxBet, parse) == Ok(Fold)
    ensures parse(msg["bet"]).Some? && parse(msg["bet"]).value < minBet && parse(msg["bet"]).value != FoldSentinel ==>
              BetReply(msg, minBet, maxBet, parse) == Err(MessageFormatError("bet"))
  {
  }

  /**
   * With bounds 10 and 50, a reply of "30" is accepted as 30.0 and a reply
   * of "5" is rejected and blamed on `bet`.
   */
  lemma BetRangeExample(parse: Value -> Option<real>)
    requires parse(VStr("30")) == Some(30.0) && parse(VStr("5")) == Some(5.0)
    ensures BetReply(map["msg_id" := VStr("bet"), "bet" := VStr("30")], 10.0, 50.0, parse) == Ok(Bet(30.0))
    ensures BetReply(map["msg_id" := VStr("bet"), "bet" := VStr("5")], 10.0, 50.0, parse) == Err(MessageFormatError("bet"))
  {
  }
}
