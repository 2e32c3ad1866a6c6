/**
 * Building, shuffling and dealing the 52 cards (`initGame` and `shuffle`).
 */
module Deck {
  import opened Cards

  /** The deck in the order `initGame` pushes it: suit by suit, Ace to King, all face-down. */
  function FullDeck(): (d: seq<Card>)
    ensures |d| == 52 && forall k :: 0 <= k < 52 ==> !d[k].faceUp
  {
    seq(52, k requires 0 <= k < 52 => Card(Suits[k / 13], k % 13 + 1, false))
  }

  /** Where a card sits in the fresh deck: 13 places per suit, in suit order. */
  function Position(c: Card): int {
    13 * (if c.suit == Hearts then 0 else if c.suit == Diamonds then 1 else if c.suit == Clubs then 2 else 3)
    + c.rank - 1
  }

  lemma FullDeckPositions()
    ensures forall k :: 0 <= k < 52 ==> Position(FullDeck()[k]) == k
  {
    var d := FullDeck();
    forall k | 0 <= k < 52 ensures Position(d[k]) == k {
      var q, r := k / 13, k % 13;
      assert k == 13 * q + r && 0 <= q < 4;
      assert d[k] == Card(Suits[q], r + 1, false);
    }
  }

  /** The fresh deck holds 52 different cards, every suit/value pair among them,
      with `numValue` one more than the label's index. */
  lemma FullDeckIsComplete()
    ensures Distinct(FullDeck())
    ensures forall s: Suit, r: Rank :: Card(s, r, false) in FullDeck()
    ensures forall k :: 0 <= k < 52 ==> !FullDeck()[k].faceUp && Labels[k % 13] == Value(FullDeck()[k])
    ensures forall k :: 0 <= k < 52 ==> (Color(FullDeck()[k]) == Red <==> k < 26)
  {
    var d := FullDeck();
    FullDeckPositions();
    assert forall c :: Position(Identity(c)) == Position(c);
    forall s: Suit, r: Rank ensures Card(s, r, false) in d {
      var k := Position(Card(s, r, false));
      assert d[k] == Card(Suits[k / 13], k % 13 + 1, false);
    }
  }

  /** The nested loop of `initGame` that pushes the cards onto an empty deck. */
  method NewDeck() returns (d: seq<Card>)
    ensures d == FullDeck()
  {
    d := [];
    var s := 0;
    while s < 4
      invariant 0 <= s <= 4
      invariant d == FullDeck()[..13 * s]
    {
      var i := 0;
      while i < |Labels|
        invariant 0 <= i <= 13
        invariant d == FullDeck()[..13 * s + i]
      {
        assert (13 * s + i) / 13 == s && (13 * s + i) % 13 == i;
        d := d + [Card(Suits[s], i + 1, false)];
        i := i + 1;
      }
      s := s + 1;
    }
  }

  /** The random index drawn at step `i` of the shuffle, one per position. */
  predicate ValidChoices(js: seq<int>, n: int) {
    |js| == n && forall i :: 0 < i < n ==> 0 <= js[i] <= i
  }

  /** `[array[i], array[j]] = [array[j], array[i]]`. */
  function Swap<T>(s: seq<T>, i: int, j: int): (r: seq<T>)
    requires 0 <= i < |s| && 0 <= j < |s|
    ensures |r| == |s| && r[i] == s[j] && r[j] == s[i]
    ensures forall k :: 0 <= k < |s| && k != i && k != j ==> r[k] == s[k]
  {
    s[i := s[j]][j := s[i]]
  }

  /**
   * Fisher-Yates from position `i` down to 1, with `js[i]` standing for
   * `Math.floor(Math.random() * (i + 1))`.
   */
  function FisherYates<T>(s: seq<T>, js: seq<int>, i: int): (r: seq<T>)
    requires i < |s| && |js| == |s|
    requires forall k :: 0 < k <= i ==> 0 <= js[k] <= k
    ensures |r| == |s|
    decreases i
  {
    if i <= 0 then s else FisherYates(Swap(s, i, js[i]), js, i - 1)
  }

  /** The shuffle from position `i` down never touches the positions above `i`. */
  lemma {:induction false} FisherYatesKeepsAbove<T>(s: seq<T>, js: seq<int>, i: int)
    requires i < |s| && |js| == |s|
    requires forall k :: 0 < k <= i ==> 0 <= js[k] <= k
    ensures forall k :: 0 <= k < |s| && i < k ==> FisherYates(s, js, i)[k] == s[k]
    decreases i
  {
    if i > 0 {
      FisherYatesKeepsAbove(Swap(s, i, js[i]), js, i - 1);
    }
  }

  /** Whatever the random indices, the shuffle only rearranges the cards. */
  lemma {:induction false} FisherYatesPermutes<T>(s: seq<T>, js: seq<int>, i: int)
    requires i < |s| && |js| == |s|
    requires forall k :: 0 < k <= i ==> 0 <= js[k] <= k
    ensures |FisherYates(s, js, i)| == |s|
    ensures multiset(FisherYates(s, js, i)) == multiset(s)
    decreases i
  {
    if i > 0 {
      var t := Swap(s, i, js[i]);
      assert multiset(t) == multiset(s) by {
        if js[i] != i {
          assert t == s[i := s[js[i]]][js[i] := s[i]];
        } else {
          assert t == s;
        }
      }
      FisherYatesPermutes(t, js, i - 1);
    }
  }

  /** `shuffle`: the in-place Fisher-Yates loop. */
  method Shuffle<T>(a: array<T>, js: seq<int>)
    requires ValidChoices(js, a.Length)
    modifies a
    ensures a[..] == FisherYates(old(a[..]), js, a.Length - 1)
    ensures multiset(a[..]) == multiset(old(a[..]))
  {
    var i := a.Length - 1;
    while i > 0
      invariant -1 <= i < a.Length
      invariant FisherYates(a[..], js, i) == FisherYates(old(a[..]), js, a.Length - 1)
    {
      var j := js[i];
      ghost var before := a[..];
      var t := a[i];
      a[i] := a[j];
      a[j] := t;
      assert a[..] == Swap(before, i, j);
      i := i - 1;
    }
    FisherYatesPermutes(old(a[..]), js, a.Length - 1);
  }

  /** The shuffled fresh deck still holds the 52 cards, all face-down. */
  lemma ShuffledDeck(js: seq<int>)
    requires ValidChoices(js, 52)
    ensures var d := FisherYates(FullDeck(), js, 51);
      && (forall k :: 0 <= k < 52 ==> !d[k].faceUp)
      && Ids(d) == Ids(FullDeck())
  {
    var full := FullDeck();
    var d := FisherYates(full, js, 51);
    FisherYatesPermutes(full, js, 51);
    FullDeckIsComplete();
    forall k | 0 <= k < 52 ensures !d[k].faceUp {
      assert d[k] in multiset(full);
    }
    IdsFaceDown(d);
    IdsFaceDown(full);
  }

  /** How many cards the deal has popped before pass `i` (pass `p` deals `7 - p`). */
  function Popped(i: int): (n: int)
    requires 0 <= i <= 7
    ensures 0 <= n && n + (7 - i) <= 28
  {
    match i
    case 0 => 0
    case 1 => 7
    case 2 => 13
    case 3 => 18
    case 4 => 22
    case 5 => 25
    case 6 => 27
    case _ => 28
  }

  lemma PoppedNext(i: int)
    requires 0 <= i < 7
    ensures Popped(i + 1) == Popped(i) + (7 - i)
  {
  }

  /** The deck position of the `k`-th card of column `j`: it is popped on pass `k`. */
  function DealSource(k: int, j: int): (p: int)
    requires 0 <= k <= j < 7
    ensures 24 <= p < 52
  {
    51 - Popped(k) - (j - k)
  }

  /** The card as dealt: the last card of each column is turned face-up. */
  function Dealt(c: Card, last: bool): Card {
    if last then c.(faceUp := true) else c
  }

  /** Before pass `i`, column `j`: the columns before `j` have one card more than the rest. */
  ghost predicate ColumnSizes(tableaus: seq<seq<Card>>, i: int, j: int)
    requires |tableaus| == 7
  {
    forall c :: 0 <= c < 7 ==> |tableaus[c]| == if c < i then c + 1 else if c < j then i + 1 else i
  }

  /** Every card dealt so far sits where the deal puts it. */
  ghost predicate ColumnCards(d: seq<Card>, tableaus: seq<seq<Card>>)
    requires |d| == 52 && |tableaus| == 7
  {
    forall c, k :: 0 <= c < 7 && 0 <= k < |tableaus[c]| ==>
      k <= c && tableaus[c][k] == Dealt(d[DealSource(k, c)], k == c)
  }

  /** What the deal has done before pass `i`, column `j`. */
  ghost predicate DealtSoFar(d: seq<Card>, stock: seq<Card>, tableaus: seq<seq<Card>>, i: int, j: int)
    requires |d| == 52 && 0 <= i <= j <= 7 && (j == 7 || i < 7)
  {
    && |tableaus| == 7
    && stock == d[..52 - Popped(i) - (j - i)]
    && ColumnSizes(tableaus, i, j)
    && ColumnCards(d, tableaus)
    && Ids(stock) + PilesIds(tableaus) == Ids(d)
  }

  /** One pass of the deal: columns `i..6` each receive one card. */
  method DealPass(d: seq<Card>, stock0: seq<Card>, tableaus0: seq<seq<Card>>, i: int)
    returns (stock: seq<Card>, tableaus: seq<seq<Card>>)
    requires |d| == 52 && 0 <= i < 7
    requires DealtSoFar(d, stock0, tableaus0, i, i)
    ensures DealtSoFar(d, stock, tableaus, i, 7)
  {
    stock, tableaus := stock0, tableaus0;
    var j := i;
    while j < 7
      invariant i <= j <= 7
      invariant DealtSoFar(d, stock, tableaus, i, j)
    {
      DealStep(d, stock, tableaus, i, j);
      var n := |stock|;
      var card := stock[n - 1];
      if i == j {
        card := card.(faceUp := true);
      }
      assert card == Dealt(stock[n - 1], i == j);
      stock, tableaus := stock[..n - 1], tableaus[j := tableaus[j] + [card]];
      j := j + 1;
    }
  }

  /** Popping the next card onto column `j` keeps the record of the deal. */
  lemma DealStep(d: seq<Card>, stock: seq<Card>, tableaus: seq<seq<Card>>, i: int, j: int)
    requires |d| == 52 && 0 <= i <= j < 7
    requires DealtSoFar(d, stock, tableaus, i, j)
    ensures |stock| > 0
    ensures DealtSoFar(d, stock[..|stock| - 1],
                       tableaus[j := tableaus[j] + [Dealt(stock[|stock| - 1], i == j)]], i, j + 1)
  {
    var n := |stock|;
    assert n == 52 - Popped(i) - (j - i);
    var card := Dealt(stock[n - 1], i == j);
    var ts := tableaus[j := tableaus[j] + [card]];
    assert n - 1 == DealSource(i, j) && stock[n - 1] == d[n - 1];
    assert stock[..n - 1] == d[..52 - Popped(i) - (j + 1 - i)];
    DealStepPositions(d, tableaus, i, j, card, ts);
    DealStepIds(stock, tableaus, j, card);
  }

  lemma DealStepPositions(d: seq<Card>, tableaus: seq<seq<Card>>, i: int, j: int, card: Card, ts: seq<seq<Card>>)
    requires |d| == 52 && 0 <= i <= j < 7 && |tableaus| == 7
    requires ts == tableaus[j := tableaus[j] + [card]]
    requires ColumnSizes(tableaus, i, j) && ColumnCards(d, tableaus)
    requires card == Dealt(d[DealSource(i, j)], i == j)
    ensures ColumnSizes(ts, i, j + 1) && ColumnCards(d, ts)
  {
    forall c, k | 0 <= c < 7 && 0 <= k < |ts[c]|
      ensures k <= c && ts[c][k] == Dealt(d[DealSource(k, c)], k == c)
    {
      if c == j && k == |tableaus[j]| {
        assert k == i;
      } else {
        assert ts[c][k] == tableaus[c][k];
      }
    }
  }

  lemma DealStepIds(stock: seq<Card>, tableaus: seq<seq<Card>>, j: int, card: Card)
    requires |stock| > 0 && 0 <= j < |tableaus|
    requires Identity(card) == Identity(stock[|stock| - 1])
    ensures Ids(stock[..|stock| - 1]) + PilesIds(tableaus[j := tableaus[j] + [card]])
         == Ids(stock) + PilesIds(tableaus)
  {
    var n := |stock|;
    var ts := tableaus[j := tableaus[j] + [card]];
    var y := Ids([card]);
    IdsPrefix(stock, n - 1);
    assert stock[n - 1..] == [stock[n - 1]];
    assert Ids(stock[n - 1..]) == y;
    PilesIdsAppend(tableaus, j, [card]);
  }

  /**
   * The deal of `initGame`: pass `i` pops one card for each column `i..6`,
   * turning the first of them (the last that column receives) face-up.
   */
  method Deal(d: seq<Card>) returns (stock: seq<Card>, tableaus: seq<seq<Card>>)
    requires |d| == 52
    ensures stock == d[..24]
    ensures |tableaus| == 7
    ensures forall j :: 0 <= j < 7 ==> |tableaus[j]| == j + 1
    ensures forall j, k :: 0 <= k <= j < 7 ==> tableaus[j][k] == Dealt(d[DealSource(k, j)], k == j)
    ensures Ids(stock) + PilesIds(tableaus) == Ids(d)
  {
    stock := d;
    tableaus := [[], [], [], [], [], [], []];
    PilesIdsOfEmpty(tableaus);
    var i := 0;
    while i < 7
      invariant 0 <= i <= 7
      invariant DealtSoFar(d, stock, tableaus, i, i)
    {
      stock, tableaus := DealPass(d, stock, tableaus, i);
      PoppedNext(i);
      i := i + 1;
    }
  }
}
