/**
 * The board of a Klondike game: the stock (`deck`), the waste, four
 * foundations and seven tableaus, plus the records kept for undo and the
 * array primitives (`pop`, `splice`, `findIndex`) the game applies to piles.
 */
module Piles {
  import opened Wrappers
  import opened Cards

  /** The pile a move comes from or goes to (`'waste'`, `'foundation-2'`, `'tableau-5'`, ...). */
  datatype Loc = Stock | Waste | Foundation(index: int) | Tableau(index: int)

  predicate LocOk(l: Loc) {
    match l
    case Foundation(i) => 0 <= i < 4
    case Tableau(i) => 0 <= i < 7
    case _ => true
  }

  datatype Board = Board(deck: seq<Card>, waste: seq<Card>,
                         foundations: seq<seq<Card>>, tableaus: seq<seq<Card>>)

  /** Four foundations and seven tableaus. */
  predicate Shaped(b: Board) {
    |b.foundations| == 4 && |b.tableaus| == 7
  }

  /** The entries of `moveHistory`. */
  datatype Record =
    | Draw(card: Card)
    | ResetDeck(waste: seq<Card>)
    | Move(cards: seq<Card>, source: Loc, target: Loc, flipped: Option<Card>)

  /** Every move record names real piles and at least one card. */
  predicate RecordOk(r: Record) {
    r.Move? ==> |r.cards| > 0 && LocOk(r.source) && LocOk(r.target)
  }

  /** The top of a pile is its last card. */
  function Top(s: seq<Card>): Card
    requires |s| > 0
  {
    s[|s| - 1]
  }

  /** `array.pop()` with its result discarded: nothing happens to an empty array. */
  function Pop(s: seq<Card>): (r: seq<Card>)
    ensures |s| > 0 ==> s == r + [s[|s| - 1]]
    ensures |s| == 0 ==> r == []
  {
    if |s| == 0 then s else s[..|s| - 1]
  }

  /**
   * `array.splice(start)`: everything from `start` on is removed; a negative
   * `start` counts back from the end and stops at the first element.
   */
  function KeepBefore(s: seq<Card>, start: int): (r: seq<Card>)
    ensures |r| <= |s| && r == s[..|r|]
    ensures 0 <= start <= |s| ==> |r| == start
    ensures -|s| <= start < 0 ==> |r| == |s| + start
    ensures start < -|s| ==> r == []
    ensures start > |s| ==> r == s
  {
    var n := if start >= 0 then (if start <= |s| then start else |s|)
             else (if |s| + start >= 0 then |s| + start else 0);
    s[..n]
  }

  /**
   * The flip that follows lifting cards off a tableau: a face-down top card
   * turns face-up and is reported as the flipped card.
   */
  function Expose(t: seq<Card>): (r: (seq<Card>, Option<Card>))
    ensures |r.0| == |t|
    ensures r.1.Some? <==> |t| > 0 && !Top(t).faceUp
    ensures r.1.Some? ==> r.0 == t[..|t| - 1] + [Top(t).(faceUp := true)] && r.1.value == Top(r.0)
    ensures r.1.None? ==> r.0 == t
  {
    if |t| > 0 && !Top(t).faceUp then
      var up := Top(t).(faceUp := true);
      (t[|t| - 1 := up], Some(up))
    else
      (t, None)
  }

  /** `findIndex(card => card.suit === c.suit && card.value === c.value)`. */
  function FindIndex(s: seq<Card>, c: Card): (r: int)
    ensures -1 <= r < |s|
    ensures r == -1 <==> forall k :: 0 <= k < |s| ==> !SameCard(s[k], c)
    ensures r >= 0 ==> SameCard(s[r], c) && forall k :: 0 <= k < r ==> !SameCard(s[k], c)
    decreases |s|
  {
    if |s| == 0 then -1
    else if SameCard(s[0], c) then 0
    else
      var r := FindIndex(s[1..], c);
      if r == -1 then -1 else r + 1
  }

  /** `foundations.every(foundation => foundation.length === 13)`. */
  predicate IsWon(b: Board): (won: bool)
    requires Shaped(b)
    ensures won ==> PilesSize(b.foundations) == 52
  {
    var full := forall i :: 0 <= i < 4 ==> |b.foundations[i]| == 13;
    if full then FullFoundationsSize(b.foundations); full else full
  }

  /** The identities of every card on the board. */
  function BoardIds(b: Board): multiset<Card> {
    Ids(b.deck) + Ids(b.waste) + PilesIds(b.foundations) + PilesIds(b.tableaus)
  }

  /** The number of cards in a list of piles. */
  function PilesSize(ps: seq<seq<Card>>): nat
    decreases |ps|
  {
    if |ps| == 0 then 0 else PilesSize(ps[..|ps| - 1]) + |ps[|ps| - 1]|
  }

  /** The card count of a list of piles is the size of its multiset of identities. */
  lemma {:induction false} PilesSizeIds(ps: seq<seq<Card>>)
    ensures PilesSize(ps) == |PilesIds(ps)|
    decreases |ps|
  {
    if |ps| > 0 {
      PilesSizeIds(ps[..|ps| - 1]);
      assert |Ids(ps[|ps| - 1])| == |ps[|ps| - 1]|;
    }
  }

  /** The number of cards on the board. */
  lemma BoardSize(b: Board)
    ensures |BoardIds(b)| == |b.deck| + |b.waste| + PilesSize(b.foundations) + PilesSize(b.tableaus)
  {
    assert |Ids(b.deck)| == |IdSeq(b.deck)|;
    assert |Ids(b.waste)| == |IdSeq(b.waste)|;
    PilesSizeIds(b.foundations);
    PilesSizeIds(b.tableaus);
  }

  lemma FullFoundationsSize(fs: seq<seq<Card>>)
    requires |fs| == 4 && forall i :: 0 <= i < 4 ==> |fs[i]| == 13
    ensures PilesSize(fs) == 52
  {
    assert fs[..1][..0] == [] && fs[..2][..1] == fs[..1] && fs[..3][..2] == fs[..2] && fs[..4][..3] == fs[..3];
    assert PilesSize(fs[..1]) == 13;
    assert PilesSize(fs[..2]) == 26;
    assert PilesSize(fs[..3]) == 39;
    assert fs[..4] == fs;
  }

  /**
   * Once every foundation holds 13 cards, a board of 52 cards has nothing left
   * in the stock, the waste or the tableaus.
   */
  lemma WonBoardIsCleared(b: Board)
    requires Shaped(b) && IsWon(b) && |BoardIds(b)| == 52
    ensures b.deck == [] && b.waste == []
    ensures forall i :: 0 <= i < 7 ==> b.tableaus[i] == []
  {
    BoardSize(b);
    FullFoundationsSize(b.foundations);
    forall i | 0 <= i < 7 ensures b.tableaus[i] == [] {
      PilesSizeAtLeast(b.tableaus, i);
    }
  }

  lemma {:induction false} PilesSizeAtLeast(ps: seq<seq<Card>>, i: nat)
    requires i < |ps|
    ensures PilesSize(ps) >= |ps[i]|
    decreases |ps|
  {
    if i < |ps| - 1 {
      PilesSizeAtLeast(ps[..|ps| - 1], i);
    }
  }

  /** Replacing one pile changes the card count by the difference in that pile's length. */
  lemma {:induction false} PilesSizeUpdate(ps: seq<seq<Card>>, i: nat, p: seq<Card>)
    requires i < |ps|
    ensures PilesSize(ps[i := p]) + |ps[i]| == PilesSize(ps) + |p|
    decreases |ps|
  {
    var n := |ps| - 1;
    if i == n {
      assert ps[i := p][..n] == ps[..n];
    } else {
      assert ps[i := p][..n] == ps[..n][i := p];
      PilesSizeUpdate(ps[..n], i, p);
    }
  }
}
