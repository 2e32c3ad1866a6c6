/**
 * The state changes of the game, as functions from one board to the next:
 * `performMove`, `moveCardToFoundation`, `moveCardsToTableau`,
 * `handleDeckClick` and `undoMove`. Each step also yields the history
 * record it pushes and the points it adds to the score.
 */
module Engine {
  import opened Wrappers
  import opened Cards
  import opened Piles

  datatype Step = Step(board: Board, record: Record, points: int)

  /**
   * Takes the moving cards off their source: `pop` on the waste or a
   * foundation, `splice(start)` on a tableau followed by the flip of a
   * face-down card the removal exposes. A stock source is not touched.
   * `Game.Game.LiftCards` is the in-place version.
   */
  function Lift(b: Board, source: Loc, start: int): (r: (Board, Option<Card>))
    requires Shaped(b) && LocOk(source)
    ensures Shaped(r.0) && r.0.deck == b.deck
    ensures r.1.Some? ==> source.Tableau?
    ensures r.0.waste == if source == Waste then Pop(b.waste) else b.waste
    ensures forall i :: 0 <= i < 4 ==>
      r.0.foundations[i] == if source == Foundation(i) then Pop(b.foundations[i]) else b.foundations[i]
    ensures forall i :: 0 <= i < 7 && source != Tableau(i) ==> r.0.tableaus[i] == b.tableaus[i]
    ensures source.Tableau? ==>
      (r.0.tableaus[source.index], r.1) == Expose(KeepBefore(b.tableaus[source.index], start))
  {
    match source
    case Waste => (b.(waste := Pop(b.waste)), None)
    case Foundation(i) => (b.(foundations := b.foundations[i := Pop(b.foundations[i])]), None)
    case Tableau(i) =>
      var e := Expose(KeepBefore(b.tableaus[i], start));
      (b.(tableaus := b.tableaus[i := e.0]), e.1)
    case Stock => (b, None)
  }

  /** Puts the cards on the target: a foundation receives only the first of them (in place: `Game.Game.LandCards`). */
  function Land(b: Board, cards: seq<Card>, target: Loc): (r: Board)
    requires Shaped(b) && LocOk(target) && |cards| > 0
    ensures Shaped(r) && r.deck == b.deck && r.waste == b.waste
    ensures forall i :: 0 <= i < 4 ==>
      r.foundations[i] == b.foundations[i] + if target == Foundation(i) then [cards[0]] else []
    ensures forall i :: 0 <= i < 7 ==> r.tableaus[i] == b.tableaus[i] + if target == Tableau(i) then cards else []
  {
    match target
    case Foundation(i) => b.(foundations := b.foundations[i := b.foundations[i] + [cards[0]]])
    case Tableau(i) => b.(tableaus := b.tableaus[i := b.tableaus[i] + cards])
    case _ => b
  }

  /** The score rule of `performMove`: the three move bonuses exclude one another (in place: `Game.Game.ScorePerform`). */
  function PerformPoints(source: Loc, target: Loc, flipped: bool): int {
    (if target.Foundation? then 10
     else if source.Foundation? && target.Tableau? then -5
     else if source == Waste then 5
     else 0)
    + (if flipped then 5 else 0)
  }

  /** The cards a tableau keeps under the moved ones. */
  function Remaining(b: Board, source: Loc, start: int): seq<Card>
    requires Shaped(b) && LocOk(source) && source.Tableau?
  {
    KeepBefore(b.tableaus[source.index], start)
  }

  /** `performMove`, the drag-and-drop path. */
  function Perform(b: Board, cards: seq<Card>, source: Loc, target: Loc): (r: Step)
    requires Shaped(b) && LocOk(source) && LocOk(target) && |cards| > 0
    ensures Shaped(r.board) && RecordOk(r.record) && r.board.deck == b.deck
    ensures r.record.Move? && r.record.cards == cards && r.record.source == source && r.record.target == target
    ensures r.record.flipped.Some? <==>
      source.Tableau? &&
      var rest := Remaining(b, source, |b.tableaus[source.index]| - |cards|);
      |rest| > 0 && !Top(rest).faceUp
    ensures target.Foundation? ==> r.points == (if r.record.flipped.Some? then 15 else 10)
    ensures source.Foundation? && target.Tableau? ==> r.points == -5
    ensures source == Waste && target.Tableau? ==> r.points == 5
    ensures source.Tableau? && target.Tableau? ==> r.points == (if r.record.flipped.Some? then 5 else 0)
  {
    var start := if source.Tableau? then |b.tableaus[source.index]| - |cards| else 0;
    var lifted := Lift(b, source, start);
    Step(Land(lifted.0, cards, target), Move(cards, source, target, lifted.1),
         PerformPoints(source, target, lifted.1.Some?))
  }

  /**
   * What `performMove` does to the piles: the source loses its top card, or
   * a tableau source its last `cards.length` cards with the new top turned
   * face-up; the target gains the cards; every other pile is untouched.
   */
  lemma PerformPiles(b: Board, cards: seq<Card>, source: Loc, target: Loc)
    requires Shaped(b) && LocOk(source) && LocOk(target) && |cards| > 0 && source != target
    requires source.Tableau? ==> |cards| <= |b.tableaus[source.index]|
    ensures var r := Perform(b, cards, source, target).board;
      && r.deck == b.deck
      && r.waste == (if source == Waste then Pop(b.waste) else b.waste)
      && (source.Foundation? ==> r.foundations[source.index] == Pop(b.foundations[source.index]))
      && (source.Tableau? ==>
            var t := b.tableaus[source.index];
            r.tableaus[source.index] == Expose(t[..|t| - |cards|]).0)
      && (target.Foundation? ==> r.foundations[target.index] == b.foundations[target.index] + [cards[0]])
      && (target.Tableau? ==> r.tableaus[target.index] == b.tableaus[target.index] + cards)
      && (forall i :: 0 <= i < 4 && Foundation(i) != source && Foundation(i) != target ==>
            r.foundations[i] == b.foundations[i])
      && (forall i :: 0 <= i < 7 && Tableau(i) != source && Tableau(i) != target ==>
            r.tableaus[i] == b.tableaus[i])
  {
    if source.Tableau? {
      var t := b.tableaus[source.index];
      assert KeepBefore(t, |t| - |cards|) == t[..|t| - |cards|];
    }
  }

  /** `moveCardToFoundation`: a tableau loses exactly its top card, whatever card is named. */
  function ToFoundation(b: Board, card: Card, source: Loc, index: int): (r: Step)
    requires Shaped(b) && LocOk(source) && 0 <= index < 4
    ensures Shaped(r.board) && RecordOk(r.record) && r.board.deck == b.deck
    ensures r.record.Move? && r.record == Move([card], source, Foundation(index), r.record.flipped)
    ensures r.record.flipped.Some? ==> source.Tableau?
    ensures r.points == 10 + (if r.record.flipped.Some? then 5 else 0) + (if source == Waste then 5 else 0)
    ensures r.board.foundations[index] ==
      (if source == Foundation(index) then Pop(b.foundations[index]) else b.foundations[index]) + [card]
  {
    var start := if source.Tableau? then |b.tableaus[source.index]| - 1 else 0;
    var lifted := Lift(b, source, start);
    Step(Land(lifted.0, [card], Foundation(index)), Move([card], source, Foundation(index), lifted.1),
         10 + (if lifted.1.Some? then 5 else 0) + (if source == Waste then 5 else 0))
  }

  /** `moveCardsToTableau`: a tableau source is cut at `cardIndex`. */
  function ToTableau(b: Board, cards: seq<Card>, source: Loc, cardIndex: int, index: int): (r: Step)
    requires Shaped(b) && LocOk(source) && 0 <= index < 7 && |cards| > 0
    ensures Shaped(r.board) && RecordOk(r.record) && r.board.deck == b.deck
    ensures r.record.Move? && r.record == Move(cards, source, Tableau(index), r.record.flipped)
    ensures r.record.flipped.Some? ==> source.Tableau?
    ensures r.points == (if source.Foundation? then -5 else if source == Waste then 5 else 0)
                        + (if r.record.flipped.Some? then 5 else 0)
    ensures r.board.tableaus[index] ==
      (if source == Tableau(index) then Lift(b, source, cardIndex).0.tableaus[index] else b.tableaus[index]) + cards
  {
    var lifted := Lift(b, source, cardIndex);
    Step(Land(lifted.0, cards, Tableau(index)), Move(cards, source, Tableau(index), lifted.1),
         (if source.Foundation? then -5 else if source == Waste then 5 else 0)
         + (if lifted.1.Some? then 5 else 0))
  }

  /**
   * What `moveCardToFoundation` does to the other piles: the waste or a
   * foundation source is popped; a tableau source loses its last card, and
   * a face-down card it exposes is turned up and recorded; nothing else
   * changes.
   */
  lemma ToFoundationPiles(b: Board, card: Card, source: Loc, index: int)
    requires Shaped(b) && LocOk(source) && 0 <= index < 4
    ensures var st := ToFoundation(b, card, source, index); var r := st.board;
      && r.waste == (if source == Waste then Pop(b.waste) else b.waste)
      && (source.Foundation? && source.index != index ==>
            r.foundations[source.index] == Pop(b.foundations[source.index]))
      && (source.Tableau? ==>
            var t := b.tableaus[source.index];
            var e := Expose(if |t| == 0 then [] else t[..|t| - 1]);
            r.tableaus[source.index] == e.0 && st.record.flipped == e.1)
      && (!source.Tableau? ==> st.record.flipped.None?)
      && (forall i :: 0 <= i < 4 && i != index && Foundation(i) != source ==> r.foundations[i] == b.foundations[i])
      && (forall i :: 0 <= i < 7 && Tableau(i) != source ==> r.tableaus[i] == b.tableaus[i])
  {
    if source.Tableau? {
      var t := b.tableaus[source.index];
      assert KeepBefore(t, |t| - 1) == if |t| == 0 then [] else t[..|t| - 1];
    }
  }

  /**
   * What `moveCardsToTableau` does to the other piles: the waste or a
   * foundation source is popped; a tableau source is cut at `cardIndex`
   * (`splice(cardIndex)`), and a face-down card it exposes is turned up and
   * recorded; nothing else changes.
   */
  lemma ToTableauPiles(b: Board, cards: seq<Card>, source: Loc, cardIndex: int, index: int)
    requires Shaped(b) && LocOk(source) && 0 <= index < 7 && |cards| > 0
    ensures var st := ToTableau(b, cards, source, cardIndex, index); var r := st.board;
      && r.waste == (if source == Waste then Pop(b.waste) else b.waste)
      && (forall i :: 0 <= i < 4 ==>
            r.foundations[i] == if source == Foundation(i) then Pop(b.foundations[i]) else b.foundations[i])
      && (source.Tableau? ==>
            var e := Expose(KeepBefore(b.tableaus[source.index], cardIndex));
            r.tableaus[source.index] == e.0 + (if source.index == index then cards else [])
            && st.record.flipped == e.1)
      && (!source.Tableau? ==> st.record.flipped.None?)
      && (forall i :: 0 <= i < 7 && i != index && Tableau(i) != source ==> r.tableaus[i] == b.tableaus[i])
  {
  }

  /** `Perform` is a lift at `performMove`'s cut followed by a landing. */
  lemma PerformUnfold(b: Board, cards: seq<Card>, source: Loc, target: Loc, start: int)
    requires Shaped(b) && LocOk(source) && LocOk(target) && |cards| > 0
    requires start == if source.Tableau? then |b.tableaus[source.index]| - |cards| else 0
    ensures var lifted := Lift(b, source, start);
      Perform(b, cards, source, target)
        == Step(Land(lifted.0, cards, target), Move(cards, source, target, lifted.1),
                PerformPoints(source, target, lifted.1.Some?))
  {
  }

  /** `ToFoundation` is a lift of the source's top card followed by a landing. */
  lemma ToFoundationUnfold(b: Board, card: Card, source: Loc, index: int, start: int)
    requires Shaped(b) && LocOk(source) && 0 <= index < 4
    requires start == if source.Tableau? then |b.tableaus[source.index]| - 1 else 0
    ensures var lifted := Lift(b, source, start);
      ToFoundation(b, card, source, index)
        == Step(Land(lifted.0, [card], Foundation(index)), Move([card], source, Foundation(index), lifted.1),
                10 + (if lifted.1.Some? then 5 else 0) + (if source == Waste then 5 else 0))
  {
  }

  /** `ToTableau` is a lift at `cardIndex` followed by a landing. */
  lemma ToTableauUnfold(b: Board, cards: seq<Card>, source: Loc, cardIndex: int, index: int)
    requires Shaped(b) && LocOk(source) && 0 <= index < 7 && |cards| > 0
    ensures var lifted := Lift(b, source, cardIndex);
      ToTableau(b, cards, source, cardIndex, index)
        == Step(Land(lifted.0, cards, Tableau(index)), Move(cards, source, Tableau(index), lifted.1),
                (if source.Foundation? then -5 else if source == Waste then 5 else 0)
                + (if lifted.1.Some? then 5 else 0))
  {
  }

  /** The stock rebuilt from the waste: reversed, every card face-down. */
  function Recycled(w: seq<Card>): (d: seq<Card>)
    ensures |d| == |w|
  {
    seq(|w|, k requires 0 <= k < |w| => w[|w| - 1 - k].(faceUp := false))
  }

  /** `handleDeckClick`: draw the stock's top card face-up, or recycle the waste when the stock is empty. */
  function DeckClick(b: Board): (r: Step)
    requires Shaped(b)
    ensures Shaped(r.board) && RecordOk(r.record) && r.points == 0
    ensures r.board.foundations == b.foundations && r.board.tableaus == b.tableaus
    ensures |b.deck| > 0 ==>
      && r.record == Draw(Top(b.deck).(faceUp := true))
      && r.board.deck == b.deck[..|b.deck| - 1]
      && r.board.waste == b.waste + [Top(b.deck).(faceUp := true)]
    ensures |b.deck| == 0 ==>
      && r.record == ResetDeck(b.waste)
      && r.board.waste == []
      && |r.board.deck| == |b.waste|
      && forall k :: 0 <= k < |b.waste| ==>
           !r.board.deck[k].faceUp && Identity(r.board.deck[k]) == Identity(b.waste[|b.waste| - 1 - k])
  {
    if |b.deck| == 0 then
      Step(b.(deck := Recycled(b.waste), waste := []), ResetDeck(b.waste), 0)
    else
      var card := Top(b.deck).(faceUp := true);
      Step(b.(deck := Pop(b.deck), waste := b.waste + [card]), Draw(card), 0)
  }

  /** A deck click neither loses nor copies a card: a draw moves one, a recycle moves them all. */
  lemma DeckClickKeepsCards(b: Board)
    requires Shaped(b)
    ensures BoardIds(DeckClick(b).board) == BoardIds(b)
  {
    if |b.deck| == 0 {
      IdsRecycled(b.waste);
    } else {
      var card := Top(b.deck).(faceUp := true);
      IdsPrefix(b.deck, |b.deck| - 1);
      assert b.deck[|b.deck| - 1..] == [Top(b.deck)];
      IdsAppend(b.waste, [card]);
      assert Ids([card]) == Ids([Top(b.deck)]);
    }
  }

  lemma {:induction false} IdsRecycled(w: seq<Card>)
    ensures Ids(Recycled(w)) == Ids(w)
    decreases |w|
  {
    if |w| > 0 {
      var n := |w| - 1;
      assert Recycled(w) == [w[n].(faceUp := false)] + Recycled(w[..n]);
      IdsRecycled(w[..n]);
      IdsAppend([w[n].(faceUp := false)], Recycled(w[..n]));
      IdsPrefix(w, n);
      assert w[n..] == [w[n]];
      assert Ids([w[n].(faceUp := false)]) == Ids([w[n]]);
    }
  }

  /** Turns the recorded flipped card face-down again, found by suit and value. */
  function Unflip(t: seq<Card>, flipped: Option<Card>): (r: seq<Card>)
    ensures |r| == |t| && Ids(r) == Ids(t)
  {
    if flipped.None? then t
    else
      var k := FindIndex(t, flipped.value);
      if k == -1 then t
      else
        IdsFlip(t, k, false);
        t[k := t[k].(faceUp := false)]
  }

  /** `undoMove` applied to one history record. */
  function Undo(b: Board, r: Record): (u: Board)
    requires Shaped(b) && RecordOk(r)
    ensures Shaped(u)
    ensures r.Draw? ==> u == b.(waste := Pop(b.waste), deck := b.deck + [r.card])
    ensures r.ResetDeck? ==> u == b.(waste := r.waste, deck := [])
    ensures r.Move? ==> u.deck == b.deck
  {
    match r
    case Draw(c) => b.(waste := Pop(b.waste), deck := b.deck + [c])
    case ResetDeck(w) => b.(waste := w, deck := [])
    case Move(cards, source, target, flipped) => PutBack(TakeBack(b, cards, target), cards, source, flipped)
  }

  /** Returns the moved cards to their source, turning the flipped card back face-down (in place: `Game.Game.PutBackCards`). */
  function PutBack(b: Board, cards: seq<Card>, source: Loc, flipped: Option<Card>): (r: Board)
    requires Shaped(b) && LocOk(source) && |cards| > 0
    ensures Shaped(r) && r.deck == b.deck
    ensures r.waste == b.waste + if source == Waste then [cards[0]] else []
    ensures forall i :: 0 <= i < 4 ==>
      r.foundations[i] == b.foundations[i] + if source == Foundation(i) then [cards[0]] else []
    ensures forall i :: 0 <= i < 7 ==>
      r.tableaus[i] == if source == Tableau(i) then Unflip(b.tableaus[i] + cards, flipped) else b.tableaus[i]
  {
    match source
    case Waste => b.(waste := b.waste + [cards[0]])
    case Foundation(i) => b.(foundations := b.foundations[i := b.foundations[i] + [cards[0]]])
    case Tableau(i) => b.(tableaus := b.tableaus[i := Unflip(b.tableaus[i] + cards, flipped)])
    case Stock => b
  }

  /** Removes the moved cards from the target: one from a foundation, `cards.length` from a tableau (in place: `Game.Game.TakeBackCards`). */
  function TakeBack(b: Board, cards: seq<Card>, target: Loc): (r: Board)
    requires Shaped(b) && LocOk(target)
    ensures Shaped(r) && r.deck == b.deck && r.waste == b.waste
    ensures forall i :: 0 <= i < 4 ==>
      r.foundations[i] == if target == Foundation(i) then Pop(b.foundations[i]) else b.foundations[i]
    ensures forall i :: 0 <= i < 7 && target != Tableau(i) ==> r.tableaus[i] == b.tableaus[i]
    ensures target.Tableau? && |cards| <= |b.tableaus[target.index]| ==>
      var t := b.tableaus[target.index];
      r.tableaus[target.index] == t[..|t| - |cards|]
  {
    match target
    case Foundation(i) => b.(foundations := b.foundations[i := Pop(b.foundations[i])])
    case Tableau(i) => b.(tableaus := b.tableaus[i := KeepBefore(b.tableaus[i], |b.tableaus[i]| - |cards|)])
    case _ => b
  }

  /** `cards` is what a move from `source` takes away when the removal starts at `start`. */
  predicate TakesTop(b: Board, cards: seq<Card>, source: Loc, start: int)
    requires Shaped(b) && LocOk(source)
  {
    match source
    case Waste => |b.waste| > 0 && |cards| > 0 && cards[0] == Top(b.waste)
    case Foundation(i) => |b.foundations[i]| > 0 && |cards| > 0 && cards[0] == Top(b.foundations[i])
    case Tableau(i) =>
      0 <= start <= |b.tableaus[i]| && b.tableaus[i][start..] == cards && Distinct(b.tableaus[i])
    case Stock => true
  }

  /** Undoing the flip finds the flipped card where it was exposed, and turns it back. */
  lemma UnflipRestores(t: seq<Card>, start: int)
    requires 0 <= start <= |t| && Distinct(t)
    ensures Unflip(Expose(t[..start]).0 + t[start..], Expose(t[..start]).1) == t
  {
    var e := Expose(t[..start]);
    if e.1.Some? {
      var s := e.0 + t[start..];
      var k := start - 1;
      assert s[k] == e.1.value;
      SameCardIsSameIdentity(s[k], e.1.value);
      forall m | 0 <= m < k ensures !SameCard(s[m], e.1.value) {
        assert s[m] == t[m];
        SameCardIsSameIdentity(s[m], e.1.value);
      }
      assert FindIndex(s, e.1.value) == k;
      assert s[k := s[k].(faceUp := false)] == t;
    } else {
      assert t[..start] + t[start..] == t;
    }
  }

  /** Taking back what was landed on a foundation or a tableau leaves that pile as it was. */
  lemma TakeBackLand(b: Board, cards: seq<Card>, target: Loc)
    requires Shaped(b) && LocOk(target) && |cards| > 0
    requires target.Foundation? || target.Tableau?
    ensures TakeBack(Land(b, cards, target), cards, target) == b
  {
    var off := TakeBack(Land(b, cards, target), cards, target);
    match target
    case Foundation(i) =>
      assert off.foundations == b.foundations;
    case Tableau(i) =>
      assert off.tableaus[i] == b.tableaus[i];
      assert off.tableaus == b.tableaus;
  }

  /** Putting the cards back where they were lifted from restores the source pile. */
  lemma PutBackLift(b: Board, cards: seq<Card>, source: Loc, start: int)
    requires Shaped(b) && LocOk(source) && |cards| > 0
    requires TakesTop(b, cards, source, start)
    ensures PutBack(Lift(b, source, start).0, cards, source, Lift(b, source, start).1) == b
  {
    match source
    case Waste =>
      assert b.waste == Pop(b.waste) + [cards[0]];
    case Foundation(i) =>
      assert b.foundations[i] == Pop(b.foundations[i]) + [cards[0]];
      assert b.foundations[i := Pop(b.foundations[i]) + [cards[0]]] == b.foundations;
    case Tableau(i) =>
      PutBackLiftTableau(b, cards, i, start);
    case Stock =>
  }

  /** The tableau case of `PutBackLift`: the cut pile plus the cards, unflipped, is the old pile. */
  lemma PutBackLiftTableau(b: Board, cards: seq<Card>, i: int, start: int)
    requires Shaped(b) && 0 <= i < 7 && |cards| > 0
    requires TakesTop(b, cards, Tableau(i), start)
    ensures PutBack(Lift(b, Tableau(i), start).0, cards, Tableau(i), Lift(b, Tableau(i), start).1) == b
  {
    var t := b.tableaus[i];
    assert KeepBefore(t, start) == t[..start];
    var e := Expose(t[..start]);
    var lifted := Lift(b, Tableau(i), start);
    assert lifted.0 == b.(tableaus := b.tableaus[i := e.0]) && lifted.1 == e.1;
    UnflipRestores(t, start);
    assert Unflip(e.0 + cards, e.1) == t;
    assert b.tableaus[i := e.0][i := t] == b.tableaus;
  }

  /**
   * Lifting the cards off their source and landing them on a pile is undone
   * by the record it produces: every pile is back, card for card.
   */
  lemma UndoLiftLand(b: Board, cards: seq<Card>, source: Loc, target: Loc, start: int)
    requires Shaped(b) && LocOk(source) && LocOk(target) && |cards| > 0
    requires target.Foundation? || target.Tableau?
    requires TakesTop(b, cards, source, start)
    ensures var lifted := Lift(b, source, start);
      Undo(Land(lifted.0, cards, target), Move(cards, source, target, lifted.1)) == b
  {
    var lifted := Lift(b, source, start);
    TakeBackLand(lifted.0, cards, target);
    PutBackLift(b, cards, source, start);
  }

  /** `undoMove` right after `performMove` restores the whole board. */
  lemma UndoPerform(b: Board, cards: seq<Card>, source: Loc, target: Loc)
    requires Shaped(b) && LocOk(source) && LocOk(target) && |cards| > 0
    requires target.Foundation? || target.Tableau?
    requires TakesTop(b, cards, source, if source.Tableau? then |b.tableaus[source.index]| - |cards| else 0)
    ensures Undo(Perform(b, cards, source, target).board, Perform(b, cards, source, target).record) == b
  {
    UndoLiftLand(b, cards, source, target, if source.Tableau? then |b.tableaus[source.index]| - |cards| else 0);
  }

  /** `undoMove` right after `moveCardToFoundation` restores the whole board. */
  lemma UndoToFoundation(b: Board, card: Card, source: Loc, index: int)
    requires Shaped(b) && LocOk(source) && 0 <= index < 4
    requires TakesTop(b, [card], source, if source.Tableau? then |b.tableaus[source.index]| - 1 else 0)
    ensures Undo(ToFoundation(b, card, source, index).board, ToFoundation(b, card, source, index).record) == b
  {
    UndoLiftLand(b, [card], source, Foundation(index), if source.Tableau? then |b.tableaus[source.index]| - 1 else 0);
  }

  /** `undoMove` right after `moveCardsToTableau` restores the whole board. */
  lemma UndoToTableau(b: Board, cards: seq<Card>, source: Loc, cardIndex: int, index: int)
    requires Shaped(b) && LocOk(source) && 0 <= index < 7 && |cards| > 0
    requires TakesTop(b, cards, source, cardIndex)
    ensures Undo(ToTableau(b, cards, source, cardIndex, index).board,
                 ToTableau(b, cards, source, cardIndex, index).record) == b
  {
    UndoLiftLand(b, cards, source, Tableau(index), cardIndex);
  }

  /** Undoing a recycle puts the waste back in its old order and empties the stock. */
  lemma UndoRecycle(b: Board)
    requires Shaped(b) && |b.deck| == 0
    ensures Undo(DeckClick(b).board, DeckClick(b).record) == b
  {
  }

  /**
   * Undoing a draw returns the card to the stock and leaves the waste as it
   * was; the card goes back as the face-up copy the record holds.
   */
  lemma UndoDraw(b: Board)
    requires Shaped(b) && |b.deck| > 0
    ensures var u := Undo(DeckClick(b).board, DeckClick(b).record);
      && u.waste == b.waste && u.foundations == b.foundations && u.tableaus == b.tableaus
      && u.deck == b.deck[..|b.deck| - 1] + [Top(b.deck).(faceUp := true)]
      && Ids(u.deck) == Ids(b.deck)
  {
    var u := Undo(DeckClick(b).board, DeckClick(b).record);
    var n := |b.deck| - 1;
    assert Pop(b.waste + [Top(b.deck).(faceUp := true)]) == b.waste;
    IdsFlip(b.deck, n, true);
    assert b.deck[n := b.deck[n].(faceUp := true)] == u.deck;
  }

  /** What `performMove` takes from the source comes back on the target, so no card is lost or copied. */
  lemma PerformKeepsCards(b: Board, cards: seq<Card>, source: Loc, target: Loc)
    requires Shaped(b) && LocOk(source) && LocOk(target) && |cards| > 0
    requires target.Foundation? || target.Tableau?
    requires source != Stock
    requires target.Foundation? || source == Waste || source.Foundation? ==> |cards| == 1
    requires TakesTop(b, cards, source, if source.Tableau? then |b.tableaus[source.index]| - |cards| else 0)
    ensures BoardIds(Perform(b, cards, source, target).board) == BoardIds(b)
  {
    var start := if source.Tableau? then |b.tableaus[source.index]| - |cards| else 0;
    LiftIds(b, cards, source, start);
    LandIds(Lift(b, source, start).0, cards, target);
  }

  lemma LiftIds(b: Board, cards: seq<Card>, source: Loc, start: int)
    requires Shaped(b) && LocOk(source) && source != Stock && |cards| > 0
    requires source == Waste || source.Foundation? ==> |cards| == 1
    requires TakesTop(b, cards, source, start)
    ensures BoardIds(Lift(b, source, start).0) + Ids(cards) == BoardIds(b)
  {
    match source
    case Waste =>
      assert b.waste == Pop(b.waste) + cards;
      IdsAppend(Pop(b.waste), cards);
    case Foundation(i) =>
      LiftFoundationIds(b, cards, i);
    case Tableau(i) =>
      LiftTableauIds(b, cards, i, start);
  }

  lemma LiftFoundationIds(b: Board, cards: seq<Card>, i: int)
    requires Shaped(b) && 0 <= i < 4 && |cards| == 1
    requires |b.foundations[i]| > 0 && cards[0] == Top(b.foundations[i])
    ensures PilesIds(b.foundations[i := Pop(b.foundations[i])]) + Ids(cards) == PilesIds(b.foundations)
    ensures BoardIds(Lift(b, Foundation(i), 0).0) + Ids(cards) == BoardIds(b)
  {
    var f := b.foundations[i];
    assert f == Pop(f) + cards;
    IdsAppend(Pop(f), cards);
    PilesIdsUpdate(b.foundations, i, Pop(f));
    MultisetCancel(PilesIds(b.foundations[i := Pop(f)]) + Ids(cards), PilesIds(b.foundations), Ids(Pop(f)));
  }

  lemma LiftTableauIds(b: Board, cards: seq<Card>, i: int, start: int)
    requires Shaped(b) && 0 <= i < 7
    requires 0 <= start <= |b.tableaus[i]| && b.tableaus[i][start..] == cards
    ensures PilesIds(Lift(b, Tableau(i), start).0.tableaus) + Ids(cards) == PilesIds(b.tableaus)
    ensures BoardIds(Lift(b, Tableau(i), start).0) + Ids(cards) == BoardIds(b)
  {
    var t := b.tableaus[i];
    var e := Expose(t[..start]);
    assert KeepBefore(t, start) == t[..start];
    assert Lift(b, Tableau(i), start).0 == b.(tableaus := b.tableaus[i := e.0]);
    ExposeIds(t[..start]);
    IdsPrefix(t, start);
    var rest, moved := Ids(e.0), Ids(cards);
    assert Ids(t) == rest + moved;
    PilesIdsUpdate(b.tableaus, i, e.0);
    assert PilesIds(b.tableaus[i := e.0]) + moved + rest == PilesIds(b.tableaus) + rest;
    MultisetCancel(PilesIds(b.tableaus[i := e.0]) + moved, PilesIds(b.tableaus), rest);
  }

  lemma ExposeIds(t: seq<Card>)
    ensures Ids(Expose(t).0) == Ids(t)
  {
    if |t| > 0 && !Top(t).faceUp {
      IdsFlip(t, |t| - 1, true);
    }
  }

  lemma LandIds(b: Board, cards: seq<Card>, target: Loc)
    requires Shaped(b) && LocOk(target) && |cards| > 0
    requires target.Foundation? || target.Tableau?
    requires target.Foundation? ==> |cards| == 1
    ensures BoardIds(Land(b, cards, target)) == BoardIds(b) + Ids(cards)
  {
    var r := Land(b, cards, target);
    var d, w, f, t, c := Ids(b.deck), Ids(b.waste), PilesIds(b.foundations), PilesIds(b.tableaus), Ids(cards);
    AddToPart(d, w, f, t, c);
    match target
    case Foundation(i) =>
      assert [cards[0]] == cards;
      PilesIdsAppend(b.foundations, i, cards);
      assert BoardIds(r) == d + w + (f + c) + t;
    case Tableau(i) =>
      PilesIdsAppend(b.tableaus, i, cards);
      assert BoardIds(r) == d + w + f + (t + c);
  }

  /** Adding to one part of the board's four parts adds to the whole. */
  lemma AddToPart(d: multiset<Card>, w: multiset<Card>, f: multiset<Card>, t: multiset<Card>, c: multiset<Card>)
    ensures d + w + (f + c) + t == d + w + f + t + c
    ensures d + w + f + (t + c) == d + w + f + t + c
  {
    assert forall x :: (d + w + (f + c) + t)[x] == (d + w + f + t + c)[x];
    assert forall x :: (d + w + f + (t + c))[x] == (d + w + f + t + c)[x];
  }

  /**
   * `handleDeckClick` as written: the recycle record copies the waste array,
   * but the copy holds the same card objects that the recycle then turns
   * face-down, so the snapshot is the waste with every card face-down.
   * The model fixes these flags when the record is pushed: in the script a
   * later draw of a recycled card turns the shared object, and so the saved
   * copy, face-up again, so the snapshot is all face-down only until then.
   */
  function DeckClickAsWritten(b: Board): (r: Step)
    requires Shaped(b)
    ensures |b.deck| == 0 ==> r.record.ResetDeck? && |r.record.waste| == |b.waste|
    ensures |b.deck| == 0 ==> forall k :: 0 <= k < |b.waste| ==> !r.record.waste[k].faceUp
    ensures |b.deck| == 0 ==> forall k :: 0 <= k < |b.waste| ==> Identity(r.record.waste[k]) == Identity(b.waste[k])
    ensures r.board == DeckClick(b).board && r.points == 0
    ensures |b.deck| > 0 ==> r.record == DeckClick(b).record
  {
    var r := DeckClick(b);
    if |b.deck| == 0 then r.(record := ResetDeck(IdSeq(b.waste))) else r
  }

  /** Undoing a recycle as written brings the waste back in order but turned face-down. */
  lemma RecycleUndoAsWrittenHidesWaste()
    ensures var b := Board([], [Card(Hearts, 1, true)], [[], [], [], []], [[], [], [], [], [], [], []]);
      var u := Undo(DeckClickAsWritten(b).board, DeckClickAsWritten(b).record);
      u.waste == [Card(Hearts, 1, false)] && u != b
  {
  }

  /**
   * The moves that neither lose nor copy a card: the cards are the ones
   * lifted off a real source, and a target that receives only one card is
   * given only one.
   */
  predicate Conserves(b: Board, cards: seq<Card>, source: Loc, target: Loc, start: int)
    requires Shaped(b) && LocOk(source)
  {
    && (target.Foundation? || target.Tableau?)
    && source != Stock
    && (target.Foundation? || source == Waste || source.Foundation? ==> |cards| == 1)
    && TakesTop(b, cards, source, start)
  }

  /**
   * A lift followed by a landing of the lifted cards keeps every card on
   * the board, the cards `moveCardToFoundation` and `moveCardsToTableau`
   * move included.
   */
  lemma MoveKeepsCards(b: Board, cards: seq<Card>, source: Loc, target: Loc, start: int)
    requires Shaped(b) && LocOk(source) && LocOk(target) && |cards| > 0
    requires Conserves(b, cards, source, target, start)
    ensures BoardIds(Land(Lift(b, source, start).0, cards, target)) == BoardIds(b)
  {
    LiftIds(b, cards, source, start);
    LandIds(Lift(b, source, start).0, cards, target);
  }

  /**
   * A move to a foundation from the waste or a non-empty tableau puts one
   * more card on the foundations and leaves one fewer in the waste and the
   * tableaus together.
   */
  lemma ToFoundationCounts(b: Board, card: Card, source: Loc, index: int)
    requires Shaped(b) && LocOk(source) && 0 <= index < 4
    requires (source == Waste && |b.waste| > 0) || (source.Tableau? && |b.tableaus[source.index]| > 0)
    ensures var r := ToFoundation(b, card, source, index).board;
      && r.deck == b.deck
      && |r.waste| + PilesSize(r.tableaus) + 1 == |b.waste| + PilesSize(b.tableaus)
      && PilesSize(r.foundations) == PilesSize(b.foundations) + 1
  {
    var start := if source.Tableau? then |b.tableaus[source.index]| - 1 else 0;
    var lifted := Lift(b, source, start).0;
    assert ToFoundation(b, card, source, index).board == Land(lifted, [card], Foundation(index));
    LandFoundationCounts(lifted, card, index);
    if source.Tableau? {
      LiftTableauCounts(b, source.index);
    }
  }

  lemma LandFoundationCounts(b: Board, card: Card, index: int)
    requires Shaped(b) && 0 <= index < 4
    ensures var r := Land(b, [card], Foundation(index));
      r.waste == b.waste && r.tableaus == b.tableaus && PilesSize(r.foundations) == PilesSize(b.foundations) + 1
  {
    PilesSizeUpdate(b.foundations, index, b.foundations[index] + [card]);
  }

  lemma LiftTableauCounts(b: Board, i: int)
    requires Shaped(b) && 0 <= i < 7 && |b.tableaus[i]| > 0
    ensures var lifted := Lift(b, Tableau(i), |b.tableaus[i]| - 1).0;
      lifted.waste == b.waste && lifted.foundations == b.foundations && PilesSize(lifted.tableaus) + 1 == PilesSize(b.tableaus)
  {
    var t := b.tableaus[i];
    var e := Expose(KeepBefore(t, |t| - 1));
    assert |e.0| == |t| - 1;
    PilesSizeUpdate(b.tableaus, i, e.0);
  }


  /** `moveCardToFoundation` of the top card keeps every card on the board. */
  lemma ToFoundationKeepsCards(b: Board, card: Card, source: Loc, index: int)
    requires Shaped(b) && LocOk(source) && 0 <= index < 4 && source != Stock
    requires TakesTop(b, [card], source, if source.Tableau? then |b.tableaus[source.index]| - 1 else 0)
    ensures BoardIds(ToFoundation(b, card, source, index).board) == BoardIds(b)
  {
    var start := if source.Tableau? then |b.tableaus[source.index]| - 1 else 0;
    assert ToFoundation(b, card, source, index).board == Land(Lift(b, source, start).0, [card], Foundation(index));
    MoveKeepsCards(b, [card], source, Foundation(index), start);
  }

  /** `moveCardsToTableau` of the cards from `cardIndex` on keeps every card on the board. */
  lemma ToTableauKeepsCards(b: Board, cards: seq<Card>, source: Loc, cardIndex: int, index: int)
    requires Shaped(b) && LocOk(source) && 0 <= index < 7 && |cards| > 0 && source != Stock
    requires source == Waste || source.Foundation? ==> |cards| == 1
    requires TakesTop(b, cards, source, cardIndex)
    ensures BoardIds(ToTableau(b, cards, source, cardIndex, index).board) == BoardIds(b)
  {
    assert ToTableau(b, cards, source, cardIndex, index).board == Land(Lift(b, source, cardIndex).0, cards, Tableau(index));
    MoveKeepsCards(b, cards, source, Tableau(index), cardIndex);
  }
}
