// The Python helpers of ace_utils.py: card names such as "Ah" and the integer
// card words of a deck, the removal of dealt cards from a deck, and the list
// of the 169 distinct starting hands.
// FULL_DECK (built by the Cython init_deck, which is not part of this model) is
// the parameter deck. The Python values the helpers accept are the datatype
// Value, and a raised exception is a Fail result naming its class.

module AceUtils {

  datatype Error = TypeError | KeyError | ValueError | IndexError

  datatype Result<T> = Ok(value: T) | Fail(error: Error)

  /** The Python values these helpers take and return. */
  datatype Value =
    | Int(n: int)
    | Str(s: string)
    | Tuple(items: seq<Value>)
    | List(items: seq<Value>)
    | NoneValue

  // ---------------------------------------------------------------------
  // CARD_STRINGS and CARD_DICT
  // ---------------------------------------------------------------------

  const RANK_CHARS: string := "23456789TJQKA"
  const SUIT_CHARS: string := "hcds"

  /** CARD_STRINGS: "2h" .. "Ah", "2c" .. "Ac", "2d" .. "Ad", "2s" .. "As";
      name i is rank i % 13 followed by suit i / 13. */
  const CARD_STRINGS: seq<string> := CardStrings()

  function CardStrings(): (names: seq<string>)
    ensures |names| == 52 && forall i | 0 <= i < 52 :: names[i] == CardName(i)
  {
    seq(52, CardName)
  }

  function CardName(i: int): string
    requires 0 <= i < 52
  {
    [RANK_CHARS[i % 13], SUIT_CHARS[i / 13]]
  }

  /** Name i is rank i % 13 followed by suit i / 13. */
  lemma CardStringsNamed(i: int)
    requires 0 <= i < 52
    ensures CARD_STRINGS[i] == CardName(i)
  {
  }

  /** The position of a rank character in RANK_CHARS, or -1. */
  function RankIndex(c: char): (k: int)
    ensures -1 <= k < 13
  {
    if c == '2' then 0 else if c == '3' then 1 else if c == '4' then 2
    else if c == '5' then 3 else if c == '6' then 4 else if c == '7' then 5
    else if c == '8' then 6 else if c == '9' then 7 else if c == 'T' then 8
    else if c == 'J' then 9 else if c == 'Q' then 10 else if c == 'K' then 11
    else if c == 'A' then 12 else -1
  }

  /** The position of a suit character in SUIT_CHARS, or -1. */
  function SuitIndex(c: char): (k: int)
    ensures -1 <= k < 4
  {
    if c == 'h' then 0 else if c == 'c' then 1 else if c == 'd' then 2
    else if c == 's' then 3 else -1
  }

  lemma RankIndexInverse(k: int)
    requires 0 <= k < 13
    ensures RankIndex(RANK_CHARS[k]) == k
  {
    assert k == 0 || k == 1 || k == 2 || k == 3 || k == 4 || k == 5 || k == 6 ||
           k == 7 || k == 8 || k == 9 || k == 10 || k == 11 || k == 12;
  }

  lemma RankIndexSound(c: char)
    requires RankIndex(c) >= 0
    ensures RANK_CHARS[RankIndex(c)] == c
  {
  }

  lemma SuitIndexInverse(k: int)
    requires 0 <= k < 4
    ensures SuitIndex(SUIT_CHARS[k]) == k
  {
    assert k == 0 || k == 1 || k == 2 || k == 3;
  }

  lemma SuitIndexSound(c: char)
    requires SuitIndex(c) >= 0
    ensures SUIT_CHARS[SuitIndex(c)] == c
  {
  }

  /** The index of a card name in CARD_STRINGS, or -1 for any other string. */
  function NameIndex(s: string): (k: int)
    ensures -1 <= k < 52
  {
    if |s| == 2 && RankIndex(s[0]) >= 0 && SuitIndex(s[1]) >= 0
    then 13 * SuitIndex(s[1]) + RankIndex(s[0])
    else -1
  }

  /** NameIndex finds every card name at its own index ... */
  lemma NameIndexInverse(i: int)
    requires 0 <= i < 52
    ensures NameIndex(CARD_STRINGS[i]) == i
  {
    CardStringsNamed(i);
    RankIndexInverse(i % 13);
    SuitIndexInverse(i / 13);
  }

  /** ... and only card names. */
  lemma NameIndexSound(s: string)
    requires NameIndex(s) >= 0
    ensures CARD_STRINGS[NameIndex(s)] == s
  {
    var i := NameIndex(s);
    RankIndexSound(s[0]);
    SuitIndexSound(s[1]);
    CardStringsNamed(i);
    assert i % 13 == RankIndex(s[0]) && i / 13 == SuitIndex(s[1]);
  }

  /** The 52 names are pairwise different. */
  lemma NamesDistinct()
    ensures forall i, j | 0 <= i < 52 && 0 <= j < 52 && CARD_STRINGS[i] == CARD_STRINGS[j] :: i == j
  {
    forall i, j | 0 <= i < 52 && 0 <= j < 52 && CARD_STRINGS[i] == CARD_STRINGS[j]
      ensures i == j
    {
      NameIndexInverse(i);
      NameIndexInverse(j);
    }
  }

  /** CARD_DICT: each name maps to its index in CARD_STRINGS. */
  function CardDict(): (d: map<string, int>)
    ensures forall i | 0 <= i < 52 :: CARD_STRINGS[i] in d && d[CARD_STRINGS[i]] == i
  {
    NamesDistinct();
    map i | 0 <= i < 52 :: CARD_STRINGS[i] := i
  }

  /** The keys of CARD_DICT are exactly the card names, each mapped to its index. */
  lemma CardDictKeys(s: string)
    ensures s in CardDict() <==> NameIndex(s) >= 0
    ensures s in CardDict() ==> CardDict()[s] == NameIndex(s)
  {
    if NameIndex(s) >= 0 {
      NameIndexSound(s);
    }
    if s in CardDict() {
      var i :| 0 <= i < 52 && CARD_STRINGS[i] == s;
      NameIndexInverse(i);
    }
  }

  // ---------------------------------------------------------------------
  // Python list primitives
  // ---------------------------------------------------------------------

  /** list.index: the first position of c, or ValueError. */
  function IndexOf(xs: seq<int>, c: int): (r: Result<nat>)
    ensures r.Ok? <==> c in xs
    ensures r.Ok? ==> r.value < |xs| && xs[r.value] == c && c !in xs[..r.value]
    ensures r.Fail? ==> r.error == ValueError
  {
    if |xs| == 0 then Fail(ValueError)
    else if xs[0] == c then Ok(0)
    else match IndexOf(xs[1..], c)
      case Ok(k) => (assert xs[..k + 1] == [xs[0]] + xs[1..][..k]; Ok(k + 1))
      case Fail(e) => Fail(e)
  }

  /** xs[k] with Python's negative indices counting from the end. */
  function At<T>(xs: seq<T>, k: int): (r: Result<T>)
    ensures r.Ok? <==> -|xs| <= k < |xs|
    ensures 0 <= k < |xs| ==> r == Ok(xs[k])
    ensures -|xs| <= k < 0 ==> r == Ok(xs[|xs| + k])
    ensures r.Fail? ==> r.error == IndexError
  {
    if 0 <= k < |xs| then Ok(xs[k])
    else if -|xs| <= k < 0 then Ok(xs[|xs| + k])
    else Fail(IndexError)
  }

  /** list.remove: drop the first occurrence of c, or ValueError. */
  function RemoveFirst(xs: seq<int>, c: int): (r: Result<seq<int>>)
    ensures r.Ok? <==> c in xs
    ensures r.Ok? ==> multiset(r.value) == multiset(xs) - multiset{c} && |r.value| + 1 == |xs|
    ensures r.Fail? ==> r.error == ValueError
  {
    match IndexOf(xs, c)
    case Ok(k) =>
      (assert xs == xs[..k] + [xs[k]] + xs[k + 1..]; Ok(xs[..k] + xs[k + 1..]))
    case Fail(e) => Fail(e)
  }

  // ---------------------------------------------------------------------
  // _card_to_string, _string_to_card
  // ---------------------------------------------------------------------

  /** _card_to_string: the name at the card's first position in the deck. */
  function CardToString(deck: seq<int>, c: int): (r: Result<string>)
    ensures r.Ok? <==> c in deck && IndexOf(deck, c).value < 52
    ensures r.Ok? ==> r.value == CARD_STRINGS[IndexOf(deck, c).value]
    ensures r.Fail? ==> (c !in deck && r.error == ValueError) || (c in deck && r.error == IndexError)
  {
    match IndexOf(deck, c)
    case Ok(k) => if k < 52 then Ok(CARD_STRINGS[k]) else Fail(IndexError)
    case Fail(e) => Fail(e)
  }

  /** Whether Python can hash the value (a dictionary key must be hashable). */
  predicate Hashable(v: Value)
  {
    match v
    case List(_) => false
    case Tuple(xs) => forall k | 0 <= k < |xs| :: Hashable(xs[k])
    case _ => true
  }

  /** _string_to_card: the deck's card at the name's index. */
  function StringToCard(deck: seq<int>, v: Value): (r: Result<int>)
    ensures r.Ok? <==> v.Str? && 0 <= NameIndex(v.s) < |deck|
    ensures r.Ok? ==> r == At(deck, NameIndex(v.s))
    ensures r.Fail? ==> r.error == (if !Hashable(v) then TypeError
                                    else if v.Str? && NameIndex(v.s) >= 0 then IndexError
                                    else KeyError)
  {
    if !Hashable(v) then Fail(TypeError)
    else if v.Str? && v.s in CardDict() then (CardDictKeys(v.s); At(deck, CardDict()[v.s]))
    else (CardDictKeys(if v.Str? then v.s else ""); Fail(KeyError))
  }

  /** With a deck of 52 distinct cards, the name of the deck's i-th card is
      CARD_STRINGS[i], and that name gives the card back. */
  lemma CardRoundTrip(deck: seq<int>, i: int)
    requires |deck| == 52 && forall p, q | 0 <= p < q < 52 :: deck[p] != deck[q]
    requires 0 <= i < 52
    ensures CardToString(deck, deck[i]) == Ok(CARD_STRINGS[i])
    ensures StringToCard(deck, Str(CARD_STRINGS[i])) == Ok(deck[i])
  {
    var k := IndexOf(deck, deck[i]).value;
    assert deck[k] == deck[i];
    NameIndexInverse(i);
  }

  /** _card_to_string(_string_to_card(s)) == s for every card name s. */
  lemma NameRoundTrip(deck: seq<int>, s: string)
    requires |deck| == 52 && forall p, q | 0 <= p < q < 52 :: deck[p] != deck[q]
    requires NameIndex(s) >= 0
    ensures StringToCard(deck, Str(s)).Ok?
    ensures CardToString(deck, StringToCard(deck, Str(s)).value) == Ok(s)
  {
    NameIndexSound(s);
    CardRoundTrip(deck, NameIndex(s));
  }

  // ---------------------------------------------------------------------
  // cards_to_string
  // ---------------------------------------------------------------------

  /** The name of one tuple entry: only an int can be found in the deck. */
  function EntryName(deck: seq<int>, v: Value): (r: Result<Value>)
    ensures r.Ok? <==> v.Int? && CardToString(deck, v.n).Ok?
    ensures r.Ok? ==> r.value == Str(CardToString(deck, v.n).value)
  {
    if v.Int? then
      match CardToString(deck, v.n)
      case Ok(name) => Ok(Str(name))
      case Fail(e) => Fail(e)
    else Fail(ValueError)
  }

  /** tuple(map(_card_to_string, xs)): names in order; the first failure wins. */
  function TupleNames(deck: seq<int>, xs: seq<Value>): (r: Result<seq<Value>>)
    ensures r.Ok? <==> forall k | 0 <= k < |xs| :: EntryName(deck, xs[k]).Ok?
    ensures r.Ok? ==> |r.value| == |xs| && forall k | 0 <= k < |xs| :: r.value[k] == EntryName(deck, xs[k]).value
  {
    if |xs| == 0 then Ok([])
    else match EntryName(deck, xs[0])
      case Fail(e) => Fail(e)
      case Ok(a) =>
        match TupleNames(deck, xs[1..])
        case Fail(e) => Fail(e)
        case Ok(rest) => Ok([a] + rest)
  }

  /** The container shapes cards_to_string keeps: an int becomes a string, a
      tuple a tuple of as many strings, a list a list of converted elements;
      any other value gives None. */
  predicate SameShape(v: Value, w: Value)
  {
    match v
    case Int(_) => w.Str?
    case Tuple(xs) =>
      w.Tuple? && |w.items| == |xs| && forall k | 0 <= k < |xs| :: w.items[k].Str?
    case List(xs) =>
      w.List? && |w.items| == |xs| && forall k | 0 <= k < |xs| :: SameShape(xs[k], w.items[k])
    case _ => w == NoneValue
  }

  /** cards_to_string. */
  function CardsToString(deck: seq<int>, v: Value): (r: Result<Value>)
    ensures r.Ok? ==> SameShape(v, r.value)
    ensures v.Int? ==> r == EntryName(deck, v)
    ensures v.Str? || v.NoneValue? ==> r == Ok(NoneValue)
    decreases v
  {
    match v
    case Int(_) => EntryName(deck, v)
    case Tuple(xs) =>
      (match TupleNames(deck, xs)
       case Ok(ys) => Ok(Tuple(ys))
       case Fail(e) => Fail(e))
    case List(xs) =>
      (match ListNames(deck, xs)
       case Ok(ys) => Ok(List(ys))
       case Fail(e) => Fail(e))
    case _ => Ok(NoneValue)
  }

  /** [cards_to_string(c) for c in xs]. */
  function ListNames(deck: seq<int>, xs: seq<Value>): (r: Result<seq<Value>>)
    ensures r.Ok? <==> forall k | 0 <= k < |xs| :: CardsToString(deck, xs[k]).Ok?
    ensures r.Ok? ==> |r.value| == |xs| && forall k | 0 <= k < |xs| :: r.value[k] == CardsToString(deck, xs[k]).value
    decreases xs
  {
    if |xs| == 0 then Ok([])
    else match CardsToString(deck, xs[0])
      case Fail(e) => Fail(e)
      case Ok(a) =>
        match ListNames(deck, xs[1..])
        case Fail(e) => Fail(e)
        case Ok(rest) => Ok([a] + rest)
  }

  // ---------------------------------------------------------------------
  // string_to_cards
  // ---------------------------------------------------------------------

  /** [cards[i*2:i*2+2] for i in range(len(cards)//2)]: the two-character
      chunks of s; an odd last character is dropped. */
  function Chunks(s: string): (r: seq<Value>)
    ensures |r| == |s| / 2
    ensures forall k | 0 <= k < |s| / 2 :: r[k] == Str(s[2 * k..2 * k + 2])
  {
    if |s| < 2 then []
    else
      var rest := Chunks(s[2..]);
      assert forall k | 1 <= k < |s| / 2 :: s[2..][2 * (k - 1)..2 * (k - 1) + 2] == s[2 * k..2 * k + 2];
      [Str(s[..2])] + rest
  }

  /** The elements Python yields when iterating over v. */
  function Items(v: Value): (r: Result<seq<Value>>)
    ensures r.Ok? <==> !(v.Int? || v.NoneValue?)
    ensures v.Tuple? || v.List? ==> r == Ok(v.items)
    ensures v.Str? ==> r.Ok? && |r.value| == |v.s| && forall k | 0 <= k < |v.s| :: r.value[k] == Str([v.s[k]])
    ensures r.Fail? ==> r.error == TypeError
  {
    match v
    case Tuple(xs) => Ok(xs)
    case List(xs) => Ok(xs)
    case Str(s) => Ok(Letters(s))
    case _ => Fail(TypeError)
  }

  /** The one-character strings of s. */
  function Letters(s: string): (r: seq<Value>)
    ensures |r| == |s| && forall k | 0 <= k < |s| :: r[k] == Str([s[k]])
  {
    if |s| == 0 then [] else [Str([s[0]])] + Letters(s[1..])
  }

  /** [c for h in cards for c in h]. */
  function Flatten(xs: seq<Value>): (r: Result<seq<Value>>)
    ensures r.Ok? <==> forall k | 0 <= k < |xs| :: Items(xs[k]).Ok?
    ensures r.Fail? ==> r.error == TypeError
    ensures (forall k | 0 <= k < |xs| :: xs[k].Tuple? && |xs[k].items| == 2) ==>
      r.Ok? && |r.value| == 2 * |xs| &&
      forall k | 0 <= k < |xs| :: r.value[2 * k] == xs[k].items[0] && r.value[2 * k + 1] == xs[k].items[1]
  {
    if |xs| == 0 then Ok([])
    else match Items(xs[0])
      case Fail(e) => Fail(e)
      case Ok(first) =>
        match Flatten(xs[1..])
        case Fail(e) => Fail(e)
        case Ok(rest) =>
          (assert forall k | 1 <= k < |xs| :: xs[1..][k - 1] == xs[k];
           Ok(first + rest))
  }

  /** The card_list that string_to_cards builds from its argument. */
  function CardList(v: Value): (r: Result<seq<Value>>)
    ensures v.Str? ==> r == Ok(Chunks(v.s))
    ensures v.Tuple? ==> r == Ok(v.items)
    ensures v.List? && |v.items| == 0 ==> r == Fail(IndexError)
    ensures v.List? && |v.items| > 0 && !v.items[0].Tuple? ==> r == Ok(v.items)
    ensures v.List? && |v.items| > 0 && v.items[0].Tuple? ==> r == Flatten(v.items)
    ensures v.Int? || v.NoneValue? ==> r == Fail(TypeError)
  {
    match v
    case Str(s) => Ok(Chunks(s))
    case List(xs) =>
      if |xs| == 0 then Fail(IndexError)
      else if xs[0].Tuple? then Flatten(xs)
      else Ok(xs)
    case Tuple(xs) => Ok(xs)
    case _ => Fail(TypeError)
  }

  /** tuple(map(_string_to_card, xs)): the board; the first failure wins. */
  function BoardCards(deck: seq<int>, xs: seq<Value>): (r: Result<seq<Value>>)
    ensures r.Ok? <==> forall k | 0 <= k < |xs| :: StringToCard(deck, xs[k]).Ok?
    ensures r.Ok? ==> |r.value| == |xs| && forall k | 0 <= k < |xs| :: r.value[k] == Int(StringToCard(deck, xs[k]).value)
    ensures r.Fail? ==> FailsFirst(deck, xs, |xs|, r.error)
  {
    if |xs| == 0 then Ok([])
    else match StringToCard(deck, xs[0])
      case Fail(e) => (assert StringToCard(deck, xs[0]) == Fail(e); Fail(e))
      case Ok(a) =>
        match BoardCards(deck, xs[1..])
        case Fail(e) =>
          (FailsFirstShift(deck, xs, e);
           Fail(e))
        case Ok(rest) => Ok([Int(a)] + rest)
  }

  /** Looking up entries 0 .. n - 1 of xs in order first fails at an entry
      that raises e. */
  predicate FailsFirst(deck: seq<int>, xs: seq<Value>, n: int, e: Error)
    requires n <= |xs|
  {
    exists j | 0 <= j < n :: StringToCard(deck, xs[j]) == Fail(e) && LooksUp(deck, xs, j)
  }

  /** Entries 0 .. j - 1 of xs are card names found in the deck. */
  predicate LooksUp(deck: seq<int>, xs: seq<Value>, j: int)
    requires j <= |xs|
  {
    forall i | 0 <= i < j :: StringToCard(deck, xs[i]).Ok?
  }

  lemma FailsFirstShift(deck: seq<int>, xs: seq<Value>, e: Error)
    requires |xs| > 0 && StringToCard(deck, xs[0]).Ok? && FailsFirst(deck, xs[1..], |xs| - 1, e)
    ensures FailsFirst(deck, xs, |xs|, e)
  {
    var j :| 0 <= j < |xs| - 1 && StringToCard(deck, xs[1..][j]) == Fail(e) && LooksUp(deck, xs[1..], j);
    assert StringToCard(deck, xs[j + 1]) == Fail(e);
    forall i | 0 <= i < j + 1
      ensures StringToCard(deck, xs[i]).Ok?
    {
      if i > 0 {
        assert xs[i] == xs[1..][i - 1];
      }
    }
    assert LooksUp(deck, xs, j + 1);
  }

  /** hand k is the tuple of the cards named by entries 2k and 2k + 1. */
  predicate PairAt(deck: seq<int>, xs: seq<Value>, k: int, hand: Value)
    requires 0 <= k && 2 * k + 1 < |xs|
  {
    StringToCard(deck, xs[2 * k]).Ok? && StringToCard(deck, xs[2 * k + 1]).Ok? &&
    hand == Tuple([Int(StringToCard(deck, xs[2 * k]).value), Int(StringToCard(deck, xs[2 * k + 1]).value)])
  }

  /** The hands hold one tuple for each two consecutive entries of xs. */
  predicate Paired(deck: seq<int>, xs: seq<Value>, hands: seq<Value>)
  {
    |hands| == |xs| / 2 && forall k | 0 <= k < |hands| :: PairAt(deck, xs, k, hands[k])
  }

  /** The zip(c_iter, c_iter) loop: pairs consecutive entries; an odd last
      entry is never looked up. */
  method PairCards(deck: seq<int>, xs: seq<Value>) returns (r: Result<seq<Value>>)
    ensures r.Ok? ==> Paired(deck, xs, r.value)
    ensures r.Fail? ==> FailsFirst(deck, xs, |xs| / 2 * 2, r.error)
  {
    var hands: seq<Value> := [];
    var i := 0;
    while i < |xs| / 2
      invariant 0 <= i <= |xs| / 2
      invariant |hands| == i
      invariant forall k | 0 <= k < i :: PairAt(deck, xs, k, hands[k])
      invariant LooksUp(deck, xs, 2 * i)
    {
      var hand := PairCard(deck, xs, i);
      if hand.Fail? {
        FailsFirstWider(deck, xs, 2 * i + 2, |xs| / 2 * 2, hand.error);
        return Fail(hand.error);
      }
      hands := hands + [hand.value];
      i := i + 1;
    }
    return Ok(hands);
  }

  /** One round of the loop: the hand of entries 2i and 2i + 1. */
  method PairCard(deck: seq<int>, xs: seq<Value>, i: int) returns (r: Result<Value>)
    requires 0 <= i && 2 * i + 1 < |xs| && LooksUp(deck, xs, 2 * i)
    ensures r.Ok? ==> PairAt(deck, xs, i, r.value) && LooksUp(deck, xs, 2 * i + 2)
    ensures r.Fail? ==> FailsFirst(deck, xs, 2 * i + 2, r.error)
  {
    var a := StringToCard(deck, xs[2 * i]);
    if a.Fail? {
      assert StringToCard(deck, xs[2 * i]) == Fail(a.error) && LooksUp(deck, xs, 2 * i);
      return Fail(a.error);
    }
    var b := StringToCard(deck, xs[2 * i + 1]);
    if b.Fail? {
      assert LooksUp(deck, xs, 2 * i + 1);
      assert StringToCard(deck, xs[2 * i + 1]) == Fail(b.error);
      return Fail(b.error);
    }
    return Ok(Tuple([Int(a.value), Int(b.value)]));
  }

  lemma FailsFirstWider(deck: seq<int>, xs: seq<Value>, n: int, m: int, e: Error)
    requires n <= m <= |xs| && FailsFirst(deck, xs, n, e)
    ensures FailsFirst(deck, xs, m, e)
  {
  }

  /** string_to_cards: hands (a list of two-card tuples) or, with isBoard, a
      board tuple; TypeError for an argument that is not a string, list or
      tuple. */
  method StringToCards(deck: seq<int>, cards: Value, isBoard: bool) returns (r: Result<Value>)
    ensures CardList(cards).Fail? ==> r == Fail(CardList(cards).error)
    ensures CardList(cards).Ok? && isBoard ==>
      match BoardCards(deck, CardList(cards).value)
      case Ok(board) => r == Ok(Tuple(board))
      case Fail(e) => r == Fail(e)
    ensures CardList(cards).Ok? && !isBoard && r.Ok? ==>
      r.value.List? && Paired(deck, CardList(cards).value, r.value.items)
    ensures CardList(cards).Ok? && !isBoard && r.Fail? ==>
      FailsFirst(deck, CardList(cards).value, |CardList(cards).value| / 2 * 2, r.error)
  {
    var cardList := CardList(cards);
    if cardList.Fail? {
      return Fail(cardList.error);
    }
    if !isBoard {
      var hands := PairCards(deck, cardList.value);
      if hands.Fail? {
        return Fail(hands.error);
      }
      return Ok(List(hands.value));
    } else {
      var board := BoardCards(deck, cardList.value);
      if board.Fail? {
        return Fail(board.error);
      }
      return Ok(Tuple(board.value));
    }
  }

  // ---------------------------------------------------------------------
  // remove_from_deck
  // ---------------------------------------------------------------------

  /** The cards of the hands, in order. */
  function Flat(hands: seq<seq<int>>): seq<int>
  {
    if |hands| == 0 then [] else Flat(hands[..|hands| - 1]) + hands[|hands| - 1]
  }

  lemma {:induction false} FlatAppend(a: seq<seq<int>>, b: seq<seq<int>>)
    ensures Flat(a + b) == Flat(a) + Flat(b)
    decreases |b|
  {
    if |b| > 0 {
      assert (a + b)[..|a + b| - 1] == a + b[..|b| - 1];
      FlatAppend(a, b[..|b| - 1]);
    } else {
      assert a + b == a;
    }
  }

  /** The last card of a non-empty list, split off. */
  lemma SplitLast(cs: seq<int>, rest: seq<int>, c: int)
    requires |cs| > 0 && rest == cs[..|cs| - 1] && c == cs[|cs| - 1]
    ensures multiset(cs) == multiset(rest) + multiset{c} && |cs| == |rest| + 1
  {
    assert cs == rest + [c];
  }

  /** After removing the cards p from the deck, c can be removed iff p and c
      together are part of the deck. */
  lemma RemoveNext(deck: seq<int>, p: multiset<int>, c: int, d: seq<int>)
    requires p <= multiset(deck) && multiset(d) == multiset(deck) - p
    ensures c in d <==> p + multiset{c} <= multiset(deck)
    ensures multiset(d) - multiset{c} == multiset(deck) - (p + multiset{c})
  {
    assert c in d <==> c in multiset(d);
  }

  /** The deck after removing the cards cs one after another, each at its
      first occurrence; ValueError when one is missing. */
  function RemoveAll(deck: seq<int>, cs: seq<int>): (r: Result<seq<int>>)
    ensures r.Ok? <==> multiset(cs) <= multiset(deck)
    ensures r.Ok? ==> multiset(r.value) == multiset(deck) - multiset(cs) && |r.value| == |deck| - |cs|
    ensures r.Fail? ==> r.error == ValueError
    decreases |cs|
  {
    if |cs| == 0 then Ok(deck)
    else
      var rest, c := cs[..|cs| - 1], cs[|cs| - 1];
      SplitLast(cs, rest, c);
      match RemoveAll(deck, rest)
      case Ok(d) =>
        RemoveNext(deck, multiset(rest), c, d);
        RemoveFirst(d, c)
      case Fail(e) => Fail(e)
  }

  /** Once a prefix of the cards cannot be removed, neither can all of them. */
  lemma RemoveAllFails(deck: seq<int>, cs: seq<int>, more: seq<int>)
    requires RemoveAll(deck, cs).Fail?
    ensures RemoveAll(deck, cs + more) == Fail(ValueError)
  {
    assert multiset(cs + more) == multiset(cs) + multiset(more);
  }

  /** Removing a prefix and then the rest is removing all of them. */
  lemma {:induction false} RemoveAllAppend(deck: seq<int>, cs: seq<int>, more: seq<int>, d: seq<int>)
    requires RemoveAll(deck, cs) == Ok(d)
    ensures RemoveAll(deck, cs + more) == RemoveAll(d, more)
    decreases |more|
  {
    if |more| == 0 {
      assert cs + more == cs;
    } else {
      var m := more[..|more| - 1];
      assert (cs + more)[..|cs + more| - 1] == cs + m;
      RemoveAllAppend(deck, cs, m, d);
    }
  }

  /** Removing one more card. */
  lemma RemoveAllStep(deck: seq<int>, h: seq<int>, j: int, d: seq<int>)
    requires 0 <= j < |h| && RemoveAll(deck, h[..j]) == Ok(d)
    ensures RemoveAll(deck, h[..j + 1]) == RemoveFirst(d, h[j])
  {
    assert h[..j + 1][..j] == h[..j];
  }

  /** A card that cannot be removed makes the whole removal fail. */
  lemma RemoveHandFails(deck: seq<int>, h: seq<int>, j: int)
    requires 0 <= j < |h| && RemoveAll(deck, h[..j + 1]).Fail?
    ensures RemoveAll(deck, h) == Fail(ValueError)
  {
    var done, more := h[..j + 1], h[j + 1..];
    RemoveAllFails(deck, done, more);
    assert done + more == h;
  }

  /** The inner loop of remove_from_deck: remove the cards of one hand. */
  method RemoveHand(deck: seq<int>, h: seq<int>) returns (r: Result<seq<int>>)
    ensures r == RemoveAll(deck, h)
  {
    var newDeck := deck;
    var j := 0;
    while j < |h|
      invariant 0 <= j <= |h|
      invariant RemoveAll(deck, h[..j]) == Ok(newDeck)
    {
      var next := RemoveFirst(newDeck, h[j]);
      RemoveAllStep(deck, h, j, newDeck);
      if next.Fail? {
        RemoveHandFails(deck, h, j);
        return Fail(ValueError);
      }
      newDeck := next.value;
      j := j + 1;
    }
    assert h[..|h|] == h;
    return Ok(newDeck);
  }

  /** Removing the cards of one more hand. */
  lemma RemoveHandStep(deck: seq<int>, hands: seq<seq<int>>, i: int, d: seq<int>)
    requires 0 <= i < |hands| && RemoveAll(deck, Flat(hands[..i])) == Ok(d)
    ensures RemoveAll(deck, Flat(hands[..i + 1])) == RemoveAll(d, hands[i])
  {
    assert hands[..i + 1][..i] == hands[..i];
    RemoveAllAppend(deck, Flat(hands[..i]), hands[i], d);
  }

  /** A hand that cannot be removed makes the whole removal fail. */
  lemma RemoveHandsFail(deck: seq<int>, hands: seq<seq<int>>, i: int)
    requires 0 <= i < |hands| && RemoveAll(deck, Flat(hands[..i + 1])).Fail?
    ensures RemoveAll(deck, Flat(hands)) == Fail(ValueError)
  {
    var done, more := hands[..i + 1], hands[i + 1..];
    assert hands == done + more;
    FlatAppend(done, more);
    var a, b := Flat(done), Flat(more);
    RemoveAllFails(deck, a, b);
  }

  /** remove_from_deck: a copy of the deck without the cards of the hands
      (the argument deck is a value, so it is unchanged). */
  method RemoveFromDeck(deck: seq<int>, hands: seq<seq<int>>) returns (r: Result<seq<int>>)
    ensures r == RemoveAll(deck, Flat(hands))
  {
    var newDeck := deck;
    var i := 0;
    while i < |hands|
      invariant 0 <= i <= |hands|
      invariant RemoveAll(deck, Flat(hands[..i])) == Ok(newDeck)
    {
      var next := RemoveHand(newDeck, hands[i]);
      RemoveHandStep(deck, hands, i, newDeck);
      if next.Fail? {
        RemoveHandsFail(deck, hands, i);
        return Fail(ValueError);
      }
      newDeck := next.value;
      i := i + 1;
    }
    assert hands[..|hands|] == hands;
    return Ok(newDeck);
  }

  // ---------------------------------------------------------------------
  // unique_starting_hands
  // ---------------------------------------------------------------------

  /** The index pairs (i, j) for lo <= j < hi. */
  function Row(i: int, lo: int, hi: int): (r: seq<(int, int)>)
    ensures |r| == if lo < hi then hi - lo else 0
    ensures forall k | 0 <= k < |r| :: r[k] == (i, lo + k)
    decreases hi - lo
  {
    if lo >= hi then [] else [(i, lo)] + Row(i, lo + 1, hi)
  }

  /** The pairs of the first loop for i < n: (i, j) with i < j < 13, the
      two cards of one suit. */
  function SuitedRows(n: nat): (r: seq<(int, int)>)
    requires n <= 13
    ensures 2 * |r| == n * (25 - n)
  {
    if n == 0 then [] else SuitedRows(n - 1) + Row(n - 1, n, 13)
  }

  /** The pairs of the second loop for i < n: (i, j) with i + 13 <= j < 26,
      a card of the first suit and one of the second. */
  function OtherRows(n: nat): (r: seq<(int, int)>)
    requires n <= 13
    ensures 2 * |r| == n * (27 - n)
  {
    if n == 0 then [] else OtherRows(n - 1) + Row(n - 1, n + 12, 26)
  }

  /** The deck indices of unique_starting_hands, before the offset. */
  function StartingPairs(): seq<(int, int)>
  {
    SuitedRows(13) + OtherRows(13)
  }

  /** The tuples (FULL_DECK[i + offset], FULL_DECK[j + offset]) of the pairs,
      in order; an index outside the deck raises IndexError. */
  function Lookup(deck: seq<int>, offset: int, ps: seq<(int, int)>): (r: Result<seq<(int, int)>>)
    ensures r.Ok? <==> forall k | 0 <= k < |ps| :: At(deck, ps[k].0 + offset).Ok? && At(deck, ps[k].1 + offset).Ok?
    ensures r.Ok? ==> |r.value| == |ps| && forall k | 0 <= k < |ps| ::
      r.value[k] == (At(deck, ps[k].0 + offset).value, At(deck, ps[k].1 + offset).value)
    ensures r.Fail? ==> r.error == IndexError
    decreases |ps|
  {
    if |ps| == 0 then Ok([])
    else
      var p := ps[|ps| - 1];
      match Lookup(deck, offset, ps[..|ps| - 1])
      case Fail(e) => Fail(e)
      case Ok(hs) =>
        match At(deck, p.0 + offset)
        case Fail(e) => Fail(e)
        case Ok(a) =>
          match At(deck, p.1 + offset)
          case Fail(e) => Fail(e)
          case Ok(b) => Ok(hs + [(a, b)])
  }

  /** One more pair (i, j) at the end of a row. */
  lemma LookupRowStep(deck: seq<int>, offset: int, ps: seq<(int, int)>, i: int, lo: int, j: int,
                      hs: seq<(int, int)>, a: int, b: int)
    requires lo <= j && Lookup(deck, offset, ps + Row(i, lo, j)) == Ok(hs)
    requires At(deck, i + offset) == Ok(a) && At(deck, j + offset) == Ok(b)
    ensures Lookup(deck, offset, ps + Row(i, lo, j + 1)) == Ok(hs + [(a, b)])
  {
    RowStep(i, lo, j);
    var front := ps + Row(i, lo, j);
    var qs := front + [(i, j)];
    assert ps + Row(i, lo, j + 1) == qs;
    assert qs[..|qs| - 1] == front;
    assert qs[|qs| - 1] == (i, j);
  }

  lemma RowStep(i: int, lo: int, j: int)
    requires lo <= j
    ensures Row(i, lo, j + 1) == Row(i, lo, j) + [(i, j)]
  {
  }

  /** A pair whose lookup fails makes the whole list fail. */
  lemma LookupFails(deck: seq<int>, offset: int, ps: seq<(int, int)>, i: int, j: int)
    requires (i, j) in ps && (At(deck, i + offset).Fail? || At(deck, j + offset).Fail?)
    ensures Lookup(deck, offset, ps) == Fail(IndexError)
  {
    var k :| 0 <= k < |ps| && ps[k] == (i, j);
  }

  lemma {:induction false} SuitedMember(n: nat, a: int, b: int)
    requires n <= 13
    ensures (a, b) in SuitedRows(n) <==> 0 <= a < n && a < b < 13
  {
    if n > 0 {
      SuitedMember(n - 1, a, b);
      if a == n - 1 && a < b < 13 {
        assert Row(n - 1, n, 13)[b - n] == (a, b);
      }
    }
  }

  lemma {:induction false} OtherMember(n: nat, a: int, b: int)
    requires n <= 13
    ensures (a, b) in OtherRows(n) <==> 0 <= a < n && a + 13 <= b < 26
  {
    if n > 0 {
      OtherMember(n - 1, a, b);
      if a == n - 1 && a + 13 <= b < 26 {
        assert Row(n - 1, n + 12, 26)[b - n - 12] == (a, b);
      }
    }
  }

  /** The pairs of unique_starting_hands are the pairs of two cards of the
      first suit and the pairs of a card of the first suit with a card of
      the second whose rank is not lower. */
  lemma StartingMember(a: int, b: int)
    ensures (a, b) in StartingPairs() <==> (0 <= a < b < 13) || (0 <= a < 13 && a + 13 <= b < 26)
  {
    SuitedMember(13, a, b);
    OtherMember(13, a, b);
  }

  /** Entry j - lo of a row is the pair (i, j). */
  lemma {:induction false} RowAt(i: int, lo: int, j: int, hi: int)
    requires lo <= j < hi
    ensures j - lo < |Row(i, lo, hi)| && Row(i, lo, hi)[j - lo] == (i, j)
    decreases hi - lo
  {
    if lo < j {
      RowAt(i, lo + 1, j, hi);
    }
  }

  /** A failing lookup at (i, j) fails the whole row after ps. */
  lemma RowFails(deck: seq<int>, offset: int, ps: seq<(int, int)>, i: int, lo: int, j: int, hi: int)
    requires lo <= j < hi && (At(deck, i + offset).Fail? || At(deck, j + offset).Fail?)
    ensures Lookup(deck, offset, ps + Row(i, lo, hi)) == Fail(IndexError)
  {
    RowAt(i, lo, j, hi);
    var qs := ps + Row(i, lo, hi);
    assert qs[|ps| + j - lo] == (i, j);
    LookupFails(deck, offset, qs, i, j);
  }

  /** The pairs of the first loop up to m start those up to n. */
  lemma {:induction false} SuitedPrefix(m: nat, n: nat) returns (rest: seq<(int, int)>)
    requires m <= n <= 13
    ensures SuitedRows(n) == SuitedRows(m) + rest
    decreases n - m
  {
    if m == n {
      rest := [];
    } else {
      var more := SuitedPrefix(m, n - 1);
      rest := more + Row(n - 1, n, 13);
    }
  }

  /** The same for the second loop. */
  lemma {:induction false} OtherPrefix(m: nat, n: nat) returns (rest: seq<(int, int)>)
    requires m <= n <= 13
    ensures OtherRows(n) == OtherRows(m) + rest
    decreases n - m
  {
    if m == n {
      rest := [];
    } else {
      var more := OtherPrefix(m, n - 1);
      rest := more + Row(n - 1, n + 12, 26);
    }
  }

  lemma Assoc(a: seq<(int, int)>, b: seq<(int, int)>, c: seq<(int, int)>)
    ensures a + (b + c) == (a + b) + c
  {
  }

  lemma OtherRowsStep(first: seq<(int, int)>, i: nat)
    requires i < 13
    ensures (first + OtherRows(i)) + Row(i, i + 13, 26) == first + OtherRows(i + 1)
  {
    assert OtherRows(i + 1) == OtherRows(i) + Row(i, i + 13, 26);
  }

  predicate NoRepeats(s: seq<(int, int)>)
  {
    forall p, q | 0 <= p < q < |s| :: s[p] != s[q]
  }

  lemma AppendNoRepeats(a: seq<(int, int)>, b: seq<(int, int)>)
    requires NoRepeats(a) && NoRepeats(b) && forall x | x in a :: x !in b
    ensures NoRepeats(a + b)
  {
    forall p, q | 0 <= p < q < |a + b|
      ensures (a + b)[p] != (a + b)[q]
    {
      if p < |a| && q >= |a| {
        assert (a + b)[p] in a && (a + b)[q] == b[q - |a|];
      }
    }
  }

  lemma {:induction false} SuitedNoRepeats(n: nat)
    requires n <= 13
    ensures NoRepeats(SuitedRows(n))
  {
    if n > 0 {
      var m := n - 1;
      SuitedNoRepeats(m);
      forall x | x in SuitedRows(m)
        ensures x !in Row(m, n, 13)
      {
        SuitedMember(m, x.0, x.1);
      }
      AppendNoRepeats(SuitedRows(m), Row(m, n, 13));
    }
  }

  lemma {:induction false} OtherNoRepeats(n: nat)
    requires n <= 13
    ensures NoRepeats(OtherRows(n))
  {
    if n > 0 {
      var m := n - 1;
      OtherNoRepeats(m);
      forall x | x in OtherRows(m)
        ensures x !in Row(m, n + 12, 26)
      {
        OtherMember(m, x.0, x.1);
      }
      AppendNoRepeats(OtherRows(m), Row(m, n + 12, 26));
    }
  }

  /** unique_starting_hands lists 78 suited and 91 other pairs, 169 in all,
      and none twice. */
  lemma StartingCount()
    ensures |SuitedRows(13)| == 78 && |OtherRows(13)| == 91 && |StartingPairs()| == 169
    ensures NoRepeats(StartingPairs())
  {
    SuitedNoRepeats(13);
    OtherNoRepeats(13);
    forall x | x in SuitedRows(13)
      ensures x !in OtherRows(13)
    {
      SuitedMember(13, x.0, x.1);
      OtherMember(13, x.0, x.1);
    }
    AppendNoRepeats(SuitedRows(13), OtherRows(13));
  }

  /** With an offset that keeps all 26 indices inside the deck, the lookup
      succeeds and gives 169 hands. */
  lemma StartingLookup(deck: seq<int>, offset: int)
    requires -|deck| <= offset && offset + 25 < |deck|
    ensures Lookup(deck, offset, StartingPairs()).Ok?
    ensures |Lookup(deck, offset, StartingPairs()).value| == 169
  {
    StartingCount();
    forall k | 0 <= k < |StartingPairs()|
      ensures At(deck, StartingPairs()[k].0 + offset).Ok? && At(deck, StartingPairs()[k].1 + offset).Ok?
    {
      var x := StartingPairs()[k];
      StartingMember(x.0, x.1);
    }
  }

  /** A prefix that fails makes the whole list fail. */
  lemma LookupPrefixFails(deck: seq<int>, offset: int, ps: seq<(int, int)>, qs: seq<(int, int)>)
    requires Lookup(deck, offset, ps).Fail?
    ensures Lookup(deck, offset, ps + qs) == Fail(IndexError)
  {
    var k :| 0 <= k < |ps| && !(At(deck, ps[k].0 + offset).Ok? && At(deck, ps[k].1 + offset).Ok?);
    assert (ps + qs)[k] == ps[k];
  }

  /** unique_starting_hands: FULL_DECK[i + offset] and FULL_DECK[j + offset]
      for the pairs of both loops, in order. */
  method UniqueStartingHands(deck: seq<int>, offset: int) returns (r: Result<seq<(int, int)>>)
    ensures r == Lookup(deck, offset, StartingPairs())
  {
    var suited := SuitedHands(deck, offset);
    if suited.Fail? {
      LookupPrefixFails(deck, offset, SuitedRows(13), OtherRows(13));
      return Fail(IndexError);
    }
    r := OtherHands(deck, offset, SuitedRows(13), suited.value);
  }

  /** The first loop of unique_starting_hands: two cards of the first suit. */
  method SuitedHands(deck: seq<int>, offset: int) returns (r: Result<seq<(int, int)>>)
    ensures r == Lookup(deck, offset, SuitedRows(13))
  {
    var hands: seq<(int, int)> := [];
    var i := 0;
    while i < 13
      invariant 0 <= i <= 13
      invariant Lookup(deck, offset, SuitedRows(i)) == Ok(hands)
    {
      var row := RowHands(deck, offset, SuitedRows(i), hands, i, i + 1, 13);
      assert SuitedRows(i + 1) == SuitedRows(i) + Row(i, i + 1, 13);
      if row.Fail? {
        var rest := SuitedPrefix(i + 1, 13);
        LookupPrefixFails(deck, offset, SuitedRows(i + 1), rest);
        return Fail(IndexError);
      }
      hands := row.value;
      i := i + 1;
    }
    return Ok(hands);
  }

  /** The second loop of unique_starting_hands, appending to the hands of the
      first: a card of the first suit and one of the second. */
  method OtherHands(deck: seq<int>, offset: int, ghost first: seq<(int, int)>, start: seq<(int, int)>)
    returns (r: Result<seq<(int, int)>>)
    requires Lookup(deck, offset, first) == Ok(start)
    ensures r == Lookup(deck, offset, first + OtherRows(13))
  {
    var hands := start;
    var i := 0;
    assert first + OtherRows(0) == first;
    while i < 13
      invariant 0 <= i <= 13
      invariant Lookup(deck, offset, first + OtherRows(i)) == Ok(hands)
    {
      var row := RowHands(deck, offset, first + OtherRows(i), hands, i, i + 13, 26);
      OtherRowsStep(first, i);
      if row.Fail? {
        var rest := OtherPrefix(i + 1, 13);
        Assoc(first, OtherRows(i + 1), rest);
        LookupPrefixFails(deck, offset, first + OtherRows(i + 1), rest);
        return Fail(IndexError);
      }
      hands := row.value;
      i := i + 1;
    }
    return Ok(hands);
  }

  /** The inner loop of both loops: the pairs (i, j) for lo <= j < hi,
      appended to the hands of the pairs ps. */
  method RowHands(deck: seq<int>, offset: int, ghost ps: seq<(int, int)>, start: seq<(int, int)>,
                  i: int, lo: int, hi: int) returns (r: Result<seq<(int, int)>>)
    requires lo <= hi && Lookup(deck, offset, ps) == Ok(start)
    ensures r == Lookup(deck, offset, ps + Row(i, lo, hi))
  {
    var hands := start;
    var j := lo;
    assert ps + Row(i, lo, j) == ps;
    while j < hi
      invariant lo <= j <= hi
      invariant Lookup(deck, offset, ps + Row(i, lo, j)) == Ok(hands)
    {
      var a := At(deck, i + offset);
      var b := At(deck, j + offset);
      if a.Fail? || b.Fail? {
        RowFails(deck, offset, ps, i, lo, j, hi);
        return Fail(IndexError);
      }
      LookupRowStep(deck, offset, ps, i, lo, j, hands, a.value, b.value);
      hands := hands + [(a.value, b.value)];
      j := j + 1;
    }
    return Ok(hands);
  }
}
