/**
 * Move legality: `isValidMove` and the build rules it enforces on
 * foundations and tableaus.
 */
module Rules {
  import opened Cards
  import opened Piles

  /** An empty foundation takes only an Ace; otherwise the next value of the top card's suit. */
  predicate FoundationAccepts(f: seq<Card>, c: Card) {
    if |f| == 0 then IsAce(c) else c.suit == Top(f).suit && c.rank == Top(f).rank + 1
  }

  /** An empty tableau takes only a King; otherwise a card of the other colour, one value lower. */
  predicate TableauAccepts(t: seq<Card>, c: Card) {
    if |t| == 0 then IsKing(c) else Color(c) != Color(Top(t)) && c.rank == Top(t).rank - 1
  }

  /**
   * `isValidMove(cards, source, targetType, targetIndex)`. The source is not
   * consulted, and only the first card of a run is checked against the target.
   */
  predicate IsValidMove(b: Board, cards: seq<Card>, source: Loc, target: Loc): (ok: bool)
    requires Shaped(b) && LocOk(target) && |cards| > 0
    ensures ok ==> target.Foundation? || target.Tableau?
    ensures ok && target.Foundation? ==> |cards| == 1
    ensures ok && target.Foundation? && |b.foundations[target.index]| == 0 ==> IsAce(cards[0])
    ensures ok && target.Tableau? && |b.tableaus[target.index]| == 0 ==> IsKing(cards[0])
  {
    match target
    case Foundation(i) => |cards| == 1 && FoundationAccepts(b.foundations[i], cards[0])
    case Tableau(i) => TableauAccepts(b.tableaus[i], cards[0])
    case _ => false
  }

  /** A run whose colours alternate and whose values fall by one (`validSequence`). */
  predicate IsRun(s: seq<Card>) {
    forall k :: 0 <= k < |s| - 1 ==> Color(s[k]) != Color(s[k + 1]) && s[k].rank == s[k + 1].rank + 1
  }

  /** A foundation as the game builds it: one suit, Ace first, each value one above the last. */
  predicate IsFoundationPile(f: seq<Card>) {
    forall k :: 0 <= k < |f| ==> f[k].rank == k + 1 && f[k].suit == f[0].suit
  }

  /** Moving more or fewer than one card onto a foundation is never legal. */
  lemma FoundationTakesOneCard(b: Board, cards: seq<Card>, source: Loc, i: int)
    requires Shaped(b) && 0 <= i < 4 && |cards| > 0
    ensures IsValidMove(b, cards, source, Foundation(i)) ==> |cards| == 1
    ensures IsValidMove(b, cards, source, Foundation(i)) <==>
      |cards| == 1 &&
      if |b.foundations[i]| == 0 then cards[0].rank == 1
      else cards[0].suit == Top(b.foundations[i]).suit && cards[0].rank == Top(b.foundations[i]).rank + 1
  {
    LabelsMatchRanks(cards[0]);
  }

  /** An empty tableau takes exactly the Kings; a non-empty one an opposite-colour card one lower. */
  lemma TableauTakesKingOrNextLower(b: Board, cards: seq<Card>, source: Loc, i: int)
    requires Shaped(b) && 0 <= i < 7 && |cards| > 0
    ensures IsValidMove(b, cards, source, Tableau(i)) <==>
      if |b.tableaus[i]| == 0 then cards[0].rank == 13
      else Color(cards[0]) != Color(Top(b.tableaus[i])) && cards[0].rank == Top(b.tableaus[i]).rank - 1
  {
    LabelsMatchRanks(cards[0]);
  }

  /** Neither the stock nor the waste is ever a legal target. */
  lemma OnlyPilesAreTargets(b: Board, cards: seq<Card>, source: Loc, target: Loc)
    requires Shaped(b) && LocOk(target) && |cards| > 0
    requires target == Stock || target == Waste
    ensures !IsValidMove(b, cards, source, target)
  {
  }

  /**
   * A legal foundation move keeps the foundation a same-suit run from the Ace,
   * so a foundation never holds more than 13 cards.
   */
  lemma FoundationMoveKeepsPile(f: seq<Card>, c: Card)
    requires IsFoundationPile(f) && FoundationAccepts(f, c)
    ensures IsFoundationPile(f + [c])
    ensures |f + [c]| <= 13
  {
    LabelsMatchRanks(c);
    var g := f + [c];
    if |f| > 0 {
      assert Top(f).rank == |f|;
    }
    forall k | 0 <= k < |g| ensures g[k].rank == k + 1 && g[k].suit == g[0].suit {
      if k < |f| {
        assert g[k] == f[k];
      }
    }
  }

  /** Putting a run on a tableau whose top accepts its first card extends the run by that top card. */
  lemma TableauMoveExtendsRun(t: seq<Card>, cards: seq<Card>)
    requires |t| > 0 && |cards| > 0
    requires IsRun(cards) && TableauAccepts(t, cards[0])
    ensures IsRun([Top(t)] + cards)
  {
    var s := [Top(t)] + cards;
    forall k | 0 <= k < |s| - 1 ensures Color(s[k]) != Color(s[k + 1]) && s[k].rank == s[k + 1].rank + 1 {
      if k > 0 {
        assert s[k] == cards[k - 1] && s[k + 1] == cards[k];
      }
    }
  }

  /** The worked examples: Queen and King on an empty tableau; 3 of diamonds and hearts on A-2 of hearts. */
  lemma Examples(b: Board)
    requires Shaped(b) && b.tableaus[0] == []
    requires b.foundations[0] == [Card(Hearts, 1, true), Card(Hearts, 2, true)]
    ensures !IsValidMove(b, [Card(Spades, 12, true)], Waste, Tableau(0))
    ensures IsValidMove(b, [Card(Spades, 13, true)], Waste, Tableau(0))
    ensures !IsValidMove(b, [Card(Diamonds, 3, true)], Waste, Foundation(0))
    ensures IsValidMove(b, [Card(Hearts, 3, true)], Waste, Foundation(0))
  {
    LabelsMatchRanks(Card(Spades, 12, true));
    LabelsMatchRanks(Card(Spades, 13, true));
  }
}
