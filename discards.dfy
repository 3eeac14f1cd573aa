/**
 * Validation of a player's `change-cards` reply: which slots of the hand the
 * player discards. The indices are deduplicated and sorted, at most four are
 * allowed, and each is resolved against the hand with Python's indexing rules
 * (negative indices count from the end).
 */
module Discards {
  import opened Messages

  /** The validated answer: the distinct slot indices, ascending, and the cards in those slots. */
  datatype Discard = Discard(keys: seq<int>, cards: seq<Card>)

  /** The largest number of slots a player may discard. */
  const MaxDiscards := 4

  predicate StrictlyIncreasing(s: seq<int>) {
    forall i, j | 0 <= i < j < |s| :: s[i] < s[j]
  }

  /** `x` added to the ascending, duplicate-free `s`, keeping it so. */
  function Insert(x: int, s: seq<int>): (r: seq<int>)
    requires StrictlyIncreasing(s)
    ensures StrictlyIncreasing(r)
    ensures forall y :: y in r <==> y == x || y in s
    ensures |r| <= |s| + 1
    decreases |s|
  {
    if s == [] then [x]
    else if x < s[0] then [x] + s
    else if x == s[0] then s
    else
      var t := Insert(x, s[1..]);
      assert forall y | y in t :: s[0] < y by {
        forall y | y in t ensures s[0] < y {
          if y != x {
            var j :| 0 <= j < |s[1..]| && s[1..][j] == y;
            assert s[j + 1] == y;
          }
        }
      }
      ConsIncreasing(s[0], t);
      [s[0]] + t
  }

  lemma ConsIncreasing(h: int, t: seq<int>)
    requires StrictlyIncreasing(t) && forall y | y in t :: h < y
    ensures StrictlyIncreasing([h] + t)
  {
    var r := [h] + t;
    forall i, j | 0 <= i < j < |r| ensures r[i] < r[j] {
      assert r[j] == t[j - 1];
      if i > 0 { assert r[i] == t[i - 1]; } else { assert t[j - 1] in t; }
    }
  }

  /** `sorted(set(ks))`: the distinct elements of `ks` in ascending order. */
  function Normalize(ks: seq<int>): (r: seq<int>)
    ensures StrictlyIncreasing(r)
    ensures forall y :: y in r <==> y in ks
    ensures |r| <= |ks|
    decreases |ks|
  {
    if ks == [] then [] else Insert(ks[0], Normalize(ks[1..]))
  }

  /** An ascending, duplicate-free sequence is determined by its elements. */
  lemma {:induction false} StrictlyIncreasingUnique(a: seq<int>, b: seq<int>)
    requires StrictlyIncreasing(a) && StrictlyIncreasing(b)
    requires forall y :: y in a <==> y in b
    ensures a == b
    decreases |a|
  {
    if a != [] { assert a[0] in a; }
    if b != [] { assert b[0] in b; }
    if a != [] && b != [] {
      assert a[0] in b && b[0] in a;
      var i :| 0 <= i < |a| && a[i] == b[0];
      var j :| 0 <= j < |b| && b[j] == a[0];
      assert a[0] <= a[i] && b[0] <= b[j];
      assert a[0] == b[0];
      TailsAgree(a, b);
      StrictlyIncreasingUnique(a[1..], b[1..]);
      assert a == [a[0]] + a[1..] && b == [b[0]] + b[1..];
    }
  }

  /** Two such sequences with the same elements and the same head have tails with the same elements. */
  lemma TailsAgree(a: seq<int>, b: seq<int>)
    requires StrictlyIncreasing(a) && StrictlyIncreasing(b)
    requires forall y :: y in a <==> y in b
    requires a != [] && b != [] && a[0] == b[0]
    ensures forall y :: y in a[1..] <==> y in b[1..]
  {
    forall y
      ensures y in a[1..] <==> y in b[1..]
    {
      if y in a[1..] {
        var k :| 0 <= k < |a| - 1 && a[1..][k] == y;
        assert a[k + 1] == y && y != a[0] && y in b;
      }
      if y in b[1..] {
        var k :| 0 <= k < |b| - 1 && b[1..][k] == y;
        assert b[k + 1] == y && y != b[0] && y in a;
      }
    }
  }

  /** Normalize is `sorted(set(.))`: the one ascending, duplicate-free sequence of the same elements. */
  lemma NormalizeIsSortedSet(ks: seq<int>, s: seq<int>)
    requires StrictlyIncreasing(s) && forall y :: y in s <==> y in ks
    ensures Normalize(ks) == s
  {
    StrictlyIncreasingUnique(Normalize(ks), s);
  }

  /** Whether `k` is a valid Python index into a sequence of length `n`: `-(n as int) <= k < n`. */
  predicate ValidIndex(n: nat, k: int) {
    -(n as int) <= k < n
  }

  /** The slot a valid Python index denotes: negative indices count from the end. */
  function Slot(n: nat, k: int): (i: nat)
    requires ValidIndex(n, k)
    ensures i < n
    ensures i == k || i == k + n
  {
    if k < 0 then k + n else k
  }

  /** `[hand[k] for k in keys]`: `None` as soon as one index is out of range. */
  function Resolve(hand: seq<Card>, keys: seq<int>): (r: Option<seq<Card>>)
    ensures r.Some? <==> forall k | k in keys :: ValidIndex(|hand|, k)
    ensures r.Some? ==> |r.value| == |keys|
    ensures r.Some? ==> forall i | 0 <= i < |keys| :: ValidIndex(|hand|, keys[i]) && r.value[i] == hand[Slot(|hand|, keys[i])]
  {
    if forall k | k in keys :: ValidIndex(|hand|, k) then
      Some(seq(|keys|, i requires 0 <= i < |keys| => hand[Slot(|hand|, keys[i])]))
    else None
  }

  /**
   * An element of the `cards` list as a Python index: an int, or a bool
   * (Python's bool is an int: False is 0, True is 1); `None` for anything else,
   * which fails when sorted or when used as an index.
   */
  function AsIndex(v: Value): (r: Option<int>)
    ensures r.Some? <==> v.VInt? || v.VBool?
    ensures v.VInt? ==> r == Some(v.i)
    ensures v.VBool? ==> r == Some(if v.b then 1 else 0)
  {
    match v
    case VInt(i) => Some(i)
    case VBool(b) => Some(if b then 1 else 0)
    case _ => None
  }

  /**
   * The indices the `cards` field names, when every one of them can index a
   * list: a list of ints or bools, or an empty string or empty mapping
   * (iterating those yields nothing). `None` otherwise.
   */
  function IndicesOf(v: Value): (r: Option<seq<int>>)
    ensures v.VList? && (forall e | e in v.items :: AsIndex(e).Some?) ==> r.Some? && |r.value| == |v.items|
    ensures v.VList? && r.Some? ==> |r.value| == |v.items| && forall i | 0 <= i < |v.items| :: AsIndex(v.items[i]) == Some(r.value[i])
    ensures r.Some? ==> v.VList? || v == VStr("") || v == VMap(map[])
    ensures v == VStr("") || v == VMap(map[]) ==> r == Some([])
  {
    match v
    case VList(items) =>
      if forall e | e in items :: AsIndex(e).Some? then
        Some(seq(|items|, i requires 0 <= i < |items| => AsIndex(items[i]).value))
      else None
    case VStr(s) => if s == "" then Some([]) else None
    case VMap(m) => if m == map[] then Some([]) else None
    case _ => None
  }

  /**
   * The body of `change_cards` after the receive loop: check `msg_id`,
   * require `cards`, normalise the indices, reject more than four, then
   * resolve them against the hand.
   */
  function DiscardReply(msg: Message, hand: seq<Card>): (r: Result<Discard>)
    // a reply with a wrong or missing msg_id is blamed on msg_id, any other rejection on cards
    ensures !HasMsgId(msg, "change-cards") ==> r == Err(MessageFormatError("msg_id"))
    ensures HasMsgId(msg, "change-cards") && r.Err? ==> r.error == MessageFormatError("cards")
    // an accepted reply names a list of indices, and the keys are exactly that list sorted and deduplicated
    ensures r.Ok? ==> "cards" in msg && IndicesOf(msg["cards"]).Some?
    ensures r.Ok? ==> StrictlyIncreasing(r.value.keys) && |r.value.keys| <= MaxDiscards
    ensures r.Ok? ==> forall k :: k in r.value.keys <==> k in IndicesOf(msg["cards"]).value
    // each key is a valid index and the discards are the cards in those slots
    ensures r.Ok? ==> |r.value.cards| == |r.value.keys|
    ensures r.Ok? ==> forall i | 0 <= i < |r.value.keys| ::
                        ValidIndex(|hand|, r.value.keys[i]) && r.value.cards[i] == hand[Slot(|hand|, r.value.keys[i])]
    // and every well-formed reply is accepted
    ensures HasMsgId(msg, "change-cards") && "cards" in msg && IndicesOf(msg["cards"]).Some?
            && |Normalize(IndicesOf(msg["cards"]).value)| <= MaxDiscards
            && (forall k | k in IndicesOf(msg["cards"]).value :: ValidIndex(|hand|, k))
            ==> r.Ok?
  {
    if CheckMsgId(msg, "change-cards").Fail? then Err(CheckMsgId(msg, "change-cards").error)
    else if "cards" !in msg then Err(MessageFormatError("cards"))
    else match IndicesOf(msg["cards"])
      case None => Err(MessageFormatError("cards"))
      case Some(ks) =>
        var keys := Normalize(ks);
        if |keys| > MaxDiscards then Err(MessageFormatError("cards"))
        else match Resolve(hand, keys)
          case None => Err(MessageFormatError("cards"))
          case Some(cards) => Ok(Discard(keys, cards))
  }

  /**
   * More than four distinct indices are rejected whatever the hand: the
   * limit is checked before any index is looked up, so even indices that
   * would be out of range are reported as too many.
   */
  lemma TooManyDecidedBeforeLookup(msg: Message, hand: seq<Card>, ks: seq<int>)
    requires HasMsgId(msg, "change-cards") && "cards" in msg && IndicesOf(msg["cards"]) == Some(ks)
    requires |Normalize(ks)| > MaxDiscards
    ensures DiscardReply(msg, hand) == Err(MessageFormatError("cards"))
  {
  }

  /** The number of keys `Normalize` keeps is the number of distinct indices named. */
  lemma NormalizeCountsDistinct(ks: seq<int>)
    ensures |Normalize(ks)| == |set k | k in ks|
  {
    var r := Normalize(ks);
    assert (set k | k in r) == (set k | k in ks);
    SetOfStrictlyIncreasing(r);
  }

  lemma {:induction false} SetOfStrictlyIncreasing(s: seq<int>)
    requires StrictlyIncreasing(s)
    ensures |set k | k in s| == |s|
    decreases |s|
  {
    if s != [] {
      SetOfStrictlyIncreasing(s[1..]);
      assert (set k | k in s) == {s[0]} + (set k | k in s[1..]);
      assert s[0] !in (set k | k in s[1..]);
    }
  }
}
