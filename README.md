# PlayerServer protocol adapter, modelled in Dafny

`PlayerServer` sits between the poker game engine and one remote player. It
sends the player their hand (`set-cards`) and tells them whether it may open
the round. It receives the player's discard choice (`change-cards`). It offers
a betting turn (`bet`) and validates the answer. It probes liveness (`ping`),
sends best-effort notifications, and keeps a channel that can be swapped after
a reconnection. Every inbound reply is untrusted. This model states exactly
which replies are accepted, what is returned for them, and which error ends
the turn otherwise.

Layout, one module per concern:

- `messages.dfy` (`Messages`): wire values and messages, the error taxonomy
  (`MessageFormatError(attribute)`, `ChannelError`, `MessageTimeout`), the
  `msg_id` check, and the outbound `set-cards`, `bet` and `ping` messages.
- `replies.dfy` (`Replies`): the receive loop as a function over the queue of
  inbound events. It skips `ping` messages and stops at the first substantive
  message.
- `discards.dfy` (`Discards`): the `change_cards` validation. The indices are
  deduplicated and sorted (`sorted(set(...))`), limited to four, and resolved
  with Python indexing.
- `betting.dfy` (`Betting`): the `bet` validation. The result is a tagged
  decision `Bet(v) | Fold | NotRequired`, and `AsFloat` maps it back to the
  source's single float.
- `transport.dfy` (`Transport`): the channel as an object. It holds a queue of
  what the coming receives produce, a log of sent messages, a log of the
  deadline given to every receive, and a count of close requests.
- `server.dfy` (`Server`): the `PlayerServer` class. Its fields are the
  channel, the hand, the score and the opening flag. Its methods hold the
  receive loop and are proved against the functions above.

Collaborators that the source does not show are parameters:

- score comparison is `cmp: (Score, Score) -> int`;
- Python's `float(...)` on the reply's `bet` field is
  `parse: Value -> Option<real>`;
- the UTC timestamp formatting is `utcStamp: real -> string`;
- the current time used by `ping` is `now`.

Cards and scores are abstract types. Their serialised forms are the values
`VCard` and `VScore`.

Python behaviours the model keeps on purpose:

- Discard indices follow Python list indexing. A negative index `k` with
  `-len(hand) <= k < 0` counts from the end, so on a five-card hand `[4, -1]`
  names the last card twice.
- A `cards` field that is an empty string or an empty mapping iterates to
  nothing, so it is accepted as "discard nothing".
- A bet request whose deadline is `0` sends a null `timeout`, because Python
  treats `0` as false. The receive is still given the deadline `0`.
- A bet that is not a number does not end with a format error on `bet`.
  Line 112 formats its text from `message.bet`, which a mapping does not have,
  and `float(...)` raises `TypeError` on some values, which is not caught. The
  model says only that the turn fails (`Unparsable`).

## Model

| member | source | states |
|---|---|---|
| `Messages.CheckMsgId` | poker/player_server.py:51 | a reply passes exactly when its `msg_id` is the expected string; otherwise it is blamed on `msg_id` |
| `Messages.PingMessage` | poker/player_server.py:116 | the keep-alive message carries only `msg_id` = `ping` |
| `Messages.SetCardsMessage` | poker/player_server.py:34-39 | the deal notification has `msg_id` `set-cards` and exactly the fields cards, score, allowed_to_open |
| `Messages.SetCardsRoundTrip` | poker/player_server.py:34-39 | a deal notification reads back as exactly the hand, score and opening flag it was built from |
| `Messages.TimeoutField` | poker/player_server.py:74 | the request's timeout is null exactly when there is no deadline or the deadline is 0, and otherwise is the deadline formatted as a UTC timestamp |
| `Messages.BetRequest` | poker/player_server.py:72-77 | the bet request has `msg_id` `bet`, carries the bounds and the opening flag unchanged, and its timeout is the formatted deadline (or null) |
| `Replies.Receipt` | poker/player_server.py:136-137 | one receive yields the next queued message when it is a delivery, ChannelError on a transport failure, and MessageTimeout on an expired deadline or an empty queue |
| `Replies.Await` | poker/player_server.py:44-50 | the loop consumes a prefix of the queue; every consumed message but the last is a ping; a success is the last consumed message, which has a `msg_id` other than `ping`; failures are a `msg_id` format error, ChannelError or MessageTimeout |
| `Replies.AwaitSkipsPings` | poker/player_server.py:79-85 | any number of leading pings is skipped: same result and same remaining queue as without them, one more receive per ping |
| `Replies.AwaitStopsWithoutPing` | poker/player_server.py:43-48 | a loop whose first receive is not a ping stops after that one receive, with its error, the missing-`msg_id` error, or the message itself |
| `Replies.AwaitAfterPing` | poker/player_server.py:47-48 | a leading ping is consumed and the loop carries on with the rest of the queue, one receive later |
| `Replies.MissingMsgIdFails` | poker/player_server.py:46-47 | a message without `msg_id`, even after pings, ends the loop with a format error on `msg_id` |
| `Replies.AwaitPropagatesReceiveError` | poker/player_server.py:44-45 | a loop that ends on a failed receive returns that receive's error unchanged (ChannelError or MessageTimeout) |
| `Replies.ReceiveFailurePropagates` | poker/player_server.py:79-80 | a transport failure or timeout after any number of pings ends the loop with ChannelError or MessageTimeout respectively |
| `Replies.AwaitFindsFirstSubstantive` | poker/player_server.py:81-85 | after any pings, the first message with a non-ping `msg_id` is returned and the rest of the queue is untouched |
| `Discards.Insert` | poker/player_server.py:60 | inserting into an ascending duplicate-free sequence keeps it so, and adds exactly the one element |
| `Discards.Normalize` | poker/player_server.py:60 | `sorted(set(keys))` is strictly increasing and has exactly the elements of the input |
| `Discards.StrictlyIncreasingUnique` | poker/player_server.py:60 | two strictly increasing sequences with the same elements are equal |
| `Discards.NormalizeIsSortedSet` | poker/player_server.py:60 | the normalised keys are the one ascending duplicate-free sequence of the input's elements |
| `Discards.NormalizeCountsDistinct` | poker/player_server.py:60-61 | the number of normalised keys, which the limit of four is checked against, is the number of distinct indices named |
| `Discards.Slot` | poker/player_server.py:63 | a valid Python index denotes a slot of the hand, counting from the end when negative |
| `Discards.Resolve` | poker/player_server.py:63 | the lookup succeeds exactly when every key satisfies `-len(hand) <= k < len(hand)`, and then gives `hand[key]` for each key in order |
| `Discards.AsIndex` | poker/player_server.py:63 | a list element can index the hand exactly when it is an int or a bool; an int gives itself, a bool gives 0 or 1 |
| `Discards.IndicesOf` | poker/player_server.py:56-60 | a list of ints and bools is read element by element; an empty string or empty mapping names no indices; nothing else can name indices |
| `Discards.DiscardReply` | poker/player_server.py:51-67 | a wrong `msg_id` is blamed on `msg_id` and every other rejection on `cards`; an accepted reply returns at most four strictly increasing keys, exactly the indices sent, each valid, with the card in each slot; every well-formed reply is accepted |
| `Discards.TooManyDecidedBeforeLookup` | poker/player_server.py:61-63 | more than four distinct keys are rejected on `cards` whatever the hand, before any index is looked up |
| `Betting.AsFloat` | poker/player_server.py:90-101 | the source's float is -1 exactly for "not required", for a fold, and for a bet of -1 |
| `Betting.BetReply` | poker/player_server.py:87-112 | `msg_id` is checked first; with `max_bet == -1` the answer is "not required" whatever the body; otherwise a missing `bet` is blamed on `bet` and a non-number fails; -1.0 folds with no range check; any other value is returned exactly when `min_bet <= v <= max_bet` and is blamed on `bet` otherwise |
| `Betting.BetReplyAsFloat` | poker/player_server.py:89-109 | the returned float is the sentinel or within the bounds, and unless no bet was required it is the value the player sent |
| `Betting.FoldBypassesRange` | poker/player_server.py:99-107 | with `min_bet > -1`, a -1.0 reply still folds while another value below `min_bet` is rejected |
| `Betting.BetRangeExample` | poker/player_server.py:103-109 | with bounds 10 and 50, "30" is accepted as 30.0 and "5" is rejected on `bet` |
| `Transport.Channel.Send` | poker/player_server.py:133-134 | a send appends the message to the log, or fails with ChannelError and sends nothing |
| `Transport.Channel.Receive` | poker/player_server.py:136-137 | a receive takes the next queued event and records the deadline it was given |
| `Transport.Channel.Close` | poker/player_server.py:22 | a close is requested once and may raise |
| `Server.ChangeCardsTurn` | poker/player_server.py:41-67 | a discard exchange is the receive loop's error, or the discard validation of the message it returns |
| `Server.BetTurn` | poker/player_server.py:79-112 | a betting turn is the receive loop's error, or the bet validation of the message it returns |
| `Server.ChangeCardsSkipsPings` | poker/player_server.py:44-50 | leading pings do not change the outcome of a discard exchange |
| `Server.BetSkipsPings` | poker/player_server.py:79-85 | leading pings do not change the outcome of a betting turn |
| `Server.DuplicateSlotsExample` | poker/player_server.py:60-64 | on hand [A,B,C,D,E], the reply [2, 2, 0] returns keys [0, 2] and cards [A, C] |
| `Server.ChangeCardsExample` | poker/player_server.py:44-64 | the traffic ping, ping, change-cards [2, 2, 0] gives the same result as the reply alone |
| `Server.NegativeIndexExample` | poker/player_server.py:63 | on a five-card hand, [4, -1] returns keys [-1, 4] and the last card twice |
| `Server.PlayerServer.constructor` | poker/player_server.py:7-10 | a new adapter holds the given channel, with no hand dealt yet |
| `Server.PlayerServer.Disconnect` | poker/player_server.py:19-24 | close is requested once, and no error from it escapes |
| `Server.PlayerServer.UpdateChannel` | poker/player_server.py:26-27 | only the channel field changes |
| `Server.PlayerServer.SetCards` | poker/player_server.py:29-39 | records the hand and score, sets the flag to exactly `cmp(min_opening_score, score) >= 0`, sends one `set-cards` message carrying that flag, and receives nothing; a failed send returns ChannelError |
| `Server.Repeated` | poker/player_server.py:44 | the deadline log of `n` receives has length `n` and holds the one deadline given to all of them |
| `Server.ResolveTwo` | poker/player_server.py:63 | looking up two valid indices gives the two cards they denote, in order |
| `Server.AcceptedReply` | poker/player_server.py:50-64 | a well-formed reply naming at most four valid indices is accepted with the sorted distinct keys and their cards |
| `Server.PlayerServer.AwaitReply` | poker/player_server.py:79-85 | the loop's result and remaining queue are those of `Await`, and every receive it makes is given the same deadline |
| `Server.PlayerServer.ChangeCards` | poker/player_server.py:41-67 | sends nothing, and returns `ChangeCardsTurn` of the queued traffic and the current hand; every receive gets the caller's deadline |
| `Server.PlayerServer.Bet` | poker/player_server.py:69-112 | a failed request send ends the turn with ChannelError and receives nothing; otherwise the request is logged and the result is `BetTurn` of the queued traffic, with every receive given the caller's deadline |
| `Server.PlayerServer.Ping` | poker/player_server.py:114-124 | never fails: answers true exactly when the send succeeds and, with `pong`, the one reply received by `now + 2` has `msg_id` `ping`; a false answer requests one close |
| `Server.PlayerServer.TrySendMessage` | poker/player_server.py:126-131 | answers false instead of failing when the send fails, and logs the message otherwise |

## Left out

- `dto` (poker/player_server.py:12-17) is a read-only snapshot of the player record. It is not modelled.
- Logging at poker/player_server.py:122 is a side effect with no behavioural content.
- Clock and timestamp formatting (`time.gmtime`, `time.strftime`, `time.time()`) are parameters: `utcStamp` and `now`.
- `send_message` and `recv_message` only delegate to the channel. They are the `Transport.Channel` methods.
- The `Player` base class is not part of this model. Its `set_cards` is modelled as storing the hand and score. Its other state (id, name, money) is left out.
- `Score.cmp` and card or score serialisation are not part of this model. They are the `cmp` parameter and the `VCard`/`VScore` values.
- `MessageFormatError.validate_msg_id` is not part of this model. It is assumed to raise a format error on `msg_id` when `msg_id` is missing or differs from the expected string.
- Error descriptions (the `desc` text) are not modelled. An error carries only its kind and, for format errors, the blamed attribute.
- `Betting.BetReply`: states only that a non-numeric bet fails. It does not say which exception the source raises there (line 112 or an uncaught `TypeError` from `float`).
- IEEE floating point (NaN, infinities, rounding, string parsing) is left out. Bets and bounds are reals, and `float(...)` is the abstract `parse`.
- `Discards.IndicesOf`: rejects any list element that is not an int or a bool. In Python, `[2, 2.0]` would collapse to `{2}` in the set before indexing and succeed. Mixed-type lists whose order decides which equal element survives are not modelled.
- `Discards.AsIndex`: a bool key is returned as 0 or 1. Python returns the bool itself, which compares equal to that int.
- `Transport.Channel.Receive`: an empty queue yields MessageTimeout. With no deadline, a real channel would block instead.
- `Transport.Channel.Send`: whether a send fails is a fixed property of the channel, not chosen per call.
- `Transport.Channel.Close`: the error a failing close raises is arbitrary in the source. It is represented as ChannelError and always swallowed.
- Concurrency: the adapter is driven by one caller at a time, and a channel swap racing an in-flight receive is not modelled.
