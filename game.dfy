/**
 * The game closure itself: the module-level arrays `deck`, `waste`,
 * `foundations`, `tableaus`, `moveHistory` and `score`, and the handlers
 * that change them in place. Each method is tied to the board function of
 * the Engine module that specifies it, so the lemmas proved there (undo
 * round trips, conservation of cards, scores) hold of these updates.
 */
module Game {
  import opened Wrappers
  import opened Cards
  import opened Deck
  import opened Piles
  import opened Rules
  import opened Engine
  import opened Search

  /** A board holding the 52 cards of a full deck, each exactly once. */
  predicate Complete(b: Board) {
    BoardIds(b) == Ids(FullDeck())
  }

  /** On a complete board no tableau holds the same card twice. */
  lemma CompleteTableausDistinct(b: Board, i: int)
    requires Shaped(b) && Complete(b) && 0 <= i < 7
    ensures Distinct(b.tableaus[i])
  {
    FullDeckIsComplete();
    DistinctIds(FullDeck());
    PilesIdsUpdate(b.tableaus, i, []);
    assert Ids([]) == multiset{};
    var rest, mine := PilesIds(b.tableaus[i := []]), Ids(b.tableaus[i]);
    assert rest + mine == PilesIds(b.tableaus);
    forall x ensures mine[x] <= 1 {
      assert (rest + mine)[x] == rest[x] + mine[x];
      assert BoardIds(b)[x] >= PilesIds(b.tableaus)[x];
    }
    DistinctIds(b.tableaus[i]);
  }

  /**
   * The deal of `initGame` from the shuffle indices `js`: the 52 fresh cards
   * shuffled in place, then dealt into seven columns.
   */
  method DealNewGame(js: seq<int>) returns (stock: seq<Card>, columns: seq<seq<Card>>)
    requires ValidChoices(js, 52)
    ensures var d := FisherYates(FullDeck(), js, 51);
      && stock == d[..24] && |columns| == 7
      && (forall j :: 0 <= j < 7 ==> |columns[j]| == j + 1)
      && (forall j, k :: 0 <= k <= j < 7 ==> columns[j][k] == Dealt(d[DealSource(k, j)], k == j))
    ensures forall k :: 0 <= k < |stock| ==> !stock[k].faceUp
    ensures forall j, k :: 0 <= j < 7 && 0 <= k < |columns[j]| ==> (columns[j][k].faceUp <==> k == j)
    ensures Ids(stock) + PilesIds(columns) == Ids(FullDeck())
  {
    var full := NewDeck();
    var a := new Card[52](k requires 0 <= k < 52 => full[k]);
    assert a[..] == FullDeck();
    Shuffle(a, js);
    ShuffledDeck(js);
    stock, columns := Deal(a[..]);
  }

  /** A board of the dealt cards with empty waste and foundations holds the full deck. */
  lemma FreshBoardComplete(stock: seq<Card>, columns: seq<seq<Card>>)
    requires Ids(stock) + PilesIds(columns) == Ids(FullDeck())
    ensures Complete(Board(stock, [], [[], [], [], []], columns))
  {
    FreshBoardIds(stock, columns);
  }

  /** A freshly dealt board with an empty history is a sound start for undoing. */
  lemma FreshBoardSound(stock: seq<Card>, columns: seq<seq<Card>>)
    requires Ids(stock) + PilesIds(columns) == Ids(FullDeck()) && |columns| == 7
    ensures Complete(Board(stock, [], [[], [], [], []], columns))
    ensures UndoChain([], [], Board(stock, [], [[], [], [], []], columns))
  {
    FreshBoardComplete(stock, columns);
  }

  /** With empty waste and foundations, the board's cards are the stock's and the columns'. */
  lemma FreshBoardIds(stock: seq<Card>, columns: seq<seq<Card>>)
    ensures BoardIds(Board(stock, [], [[], [], [], []], columns)) == Ids(stock) + PilesIds(columns)
  {
    var none: seq<seq<Card>> := [[], [], [], []];
    PilesIdsOfEmpty(none);
    assert Ids([]) == multiset{};
  }

  /**
   * The cards a drag or a double-click picks up: the top card of the waste
   * or of a foundation, or a tableau from the clicked card `cardIndex` to
   * its end.
   */
  predicate Selected(b: Board, cards: seq<Card>, source: Loc, cardIndex: int)
    requires Shaped(b) && LocOk(source)
  {
    match source
    case Waste => |b.waste| > 0 && cards == [Top(b.waste)]
    case Foundation(i) => |b.foundations[i]| > 0 && cards == [Top(b.foundations[i])]
    case Tableau(i) => 0 <= cardIndex < |b.tableaus[i]| && cards == b.tableaus[i][cardIndex..]
    case Stock => false
  }

  /** Where `performMove` cuts the source: a tableau loses its last `cards.length` cards. */
  function DragStart(b: Board, cards: seq<Card>, source: Loc): int
    requires Shaped(b) && LocOk(source)
  {
    if source.Tableau? then |b.tableaus[source.index]| - |cards| else 0
  }

  /** A legal drop of picked-up cards keeps a complete board complete. */
  lemma DropComplete(b: Board, cards: seq<Card>, source: Loc, target: Loc, cardIndex: int)
    requires Shaped(b) && LocOk(source) && LocOk(target) && |cards| > 0
    requires Complete(b) && Selected(b, cards, source, cardIndex) && IsValidMove(b, cards, source, target)
    ensures Complete(Perform(b, cards, source, target).board)
  {
    if source.Tableau? {
      CompleteTableausDistinct(b, source.index);
    }
    PerformKeepsCards(b, cards, source, target);
  }

  /** An automatic move of picked-up cards to the destination `tryAutoMove` accepts keeps a complete board complete. */
  lemma AutoMoveComplete(b: Board, cards: seq<Card>, source: Loc, cardIndex: int, target: Loc)
    requires Shaped(b) && LocOk(source) && |cards| > 0
    requires Complete(b) && Selected(b, cards, source, cardIndex) && IsAutoTarget(b, cards, source, target)
    ensures target.Foundation? ==> Complete(ToFoundation(b, cards[0], source, target.index).board)
    ensures target.Tableau? ==> Complete(ToTableau(b, cards, source, cardIndex, target.index).board)
  {
    if source.Tableau? {
      CompleteTableausDistinct(b, source.index);
    }
    if target.Foundation? {
      ToFoundationKeepsCards(b, cards[0], source, target.index);
    } else {
      ToTableauKeepsCards(b, cards, source, cardIndex, target.index);
    }
  }

  /** `moveCardToFoundation` of the card on top of its source keeps a complete board complete. */
  lemma ToFoundationComplete(b: Board, card: Card, source: Loc, index: int)
    requires Shaped(b) && LocOk(source) && 0 <= index < 4 && source != Stock && Complete(b)
    requires TakesTop(b, [card], source, if source.Tableau? then |b.tableaus[source.index]| - 1 else 0)
    ensures Complete(ToFoundation(b, card, source, index).board)
  {
    ToFoundationKeepsCards(b, card, source, index);
  }

  /** What auto-complete moves comes off the top of its pile, so no card is lost or copied. */
  lemma AutoCompleteKeepsCards(b: Board, h: Hint)
    requires Shaped(b) && Complete(b) && IsAutoCompleteMove(b, h)
    ensures Complete(ToFoundation(b, h.cards[0], h.source, h.target.index).board)
  {
    if h.source.Tableau? {
      CompleteTableausDistinct(b, h.source.index);
      var t := b.tableaus[h.source.index];
      assert t[|t| - 1..] == h.cards;
    }
    ToFoundationComplete(b, h.cards[0], h.source, h.target.index);
  }

  /**
   * Two boards that differ at most in the face-up flags of the stock: the
   * stock holds the same cards in the same order, but undoing a draw pushes
   * back the recorded face-up copy, so an undo returns to such a board
   * rather than to the very same one.
   */
  predicate Alike(a: Board, b: Board) {
    a.waste == b.waste && a.foundations == b.foundations && a.tableaus == b.tableaus && IdSeq(a.deck) == IdSeq(b.deck)
  }

  /** Alike boards hold the same cards. */
  lemma AlikeIds(a: Board, b: Board)
    requires Alike(a, b)
    ensures BoardIds(a) == BoardIds(b)
  {
    assert Ids(a.deck) == Ids(b.deck);
  }

  /** Undoing one record on alike boards gives alike boards. */
  lemma UndoAlike(a: Board, b: Board, r: Record)
    requires Shaped(a) && Shaped(b) && RecordOk(r) && Alike(a, b)
    ensures Alike(Undo(a, r), Undo(b, r))
  {
    match r
    case Draw(c) =>
      assert IdSeq(a.deck + [c]) == IdSeq(a.deck) + IdSeq([c]);
      assert IdSeq(b.deck + [c]) == IdSeq(b.deck) + IdSeq([c]);
    case ResetDeck(w) =>
    case Move(cards, source, target, flipped) =>
      assert a == b.(deck := a.deck);
  }

  /** `undoMove` applied to a record, where the record fits the board. */
  function Undone(b: Board, r: Record): Board {
    if Shaped(b) && RecordOk(r) then Undo(b, r) else b
  }

  /** The board right after the `k`-th recorded move: the next saved board, or the current one. */
  function After(past: seq<Board>, cur: Board, k: int): Board
    requires 0 <= k < |past|
  {
    if k + 1 < |past| then past[k + 1] else cur
  }

  /**
   * The history undoes move by move: `past[k]` is the board before the
   * `k`-th recorded move, undoing that record on the board after it gives
   * back a board alike to `past[k]`, and every board along the way holds
   * the whole deck.
   */
  ghost predicate UndoChain(past: seq<Board>, history: seq<Record>, cur: Board) {
    |past| == |history| && Shaped(cur) && Complete(cur) && Saved(past, history) && Linked(past, history, cur)
  }

  /** Every saved board holds the whole deck, and every record fits a board. */
  ghost predicate Saved(past: seq<Board>, history: seq<Record>)
    requires |past| == |history|
  {
    forall k :: 0 <= k < |past| ==> Shaped(past[k]) && Complete(past[k]) && RecordOk(history[k])
  }

  /** Undoing each record on the board after it gives a board alike to the one before it. */
  ghost predicate Linked(past: seq<Board>, history: seq<Record>, cur: Board)
    requires |past| == |history|
  {
    forall k :: 0 <= k < |past| ==> Alike(Undone(After(past, cur, k), history[k]), past[k])
  }

  /** A move whose record undoes it keeps the chain, with the old board saved. */
  lemma ChainPush(past: seq<Board>, history: seq<Record>, cur: Board, r: Record, next: Board)
    requires UndoChain(past, history, cur)
    requires Shaped(next) && Complete(next) && RecordOk(r) && Alike(Undo(next, r), cur)
    ensures UndoChain(past + [cur], history + [r], next)
  {
    var p, h := past + [cur], history + [r];
    forall k | 0 <= k < |p| ensures Shaped(p[k]) && Complete(p[k]) && RecordOk(h[k]) {
      if k < |past| {
        assert p[k] == past[k] && h[k] == history[k];
      }
    }
    forall k | 0 <= k < |p| ensures Alike(Undone(After(p, next, k), h[k]), p[k]) {
      if k < |past| {
        assert After(p, next, k) == After(past, cur, k);
        assert p[k] == past[k] && h[k] == history[k];
      }
    }
  }

  /** Undoing the last record keeps the chain and returns to a board alike to the last saved one. */
  lemma ChainPop(past: seq<Board>, history: seq<Record>, cur: Board)
    requires UndoChain(past, history, cur) && |history| > 0
    ensures Shaped(cur) && RecordOk(history[|history| - 1])
    ensures var u := Undo(cur, history[|history| - 1]);
      Alike(u, past[|past| - 1]) && UndoChain(past[..|past| - 1], history[..|history| - 1], u)
  {
    var n := |past|;
    assert After(past, cur, n - 1) == cur;
    assert Alike(Undone(cur, history[n - 1]), past[n - 1]);
    ChainPrefix(past, history, cur, Undo(cur, history[n - 1]));
  }

  /** Dropping the last record and its saved board keeps the chain for any board alike to that one. */
  lemma ChainPrefix(past: seq<Board>, history: seq<Record>, cur: Board, u: Board)
    requires UndoChain(past, history, cur) && |past| > 0
    requires Shaped(u) && Alike(u, past[|past| - 1])
    ensures UndoChain(past[..|past| - 1], history[..|history| - 1], u)
  {
    var n := |past|;
    AlikeIds(u, past[n - 1]);
    SavedPrefix(past, history);
    LinkedPrefix(past, history, cur, u);
  }

  lemma SavedPrefix(past: seq<Board>, history: seq<Record>)
    requires |past| == |history| > 0 && Saved(past, history)
    ensures Saved(past[..|past| - 1], history[..|history| - 1])
  {
    var p, h := past[..|past| - 1], history[..|history| - 1];
    forall k | 0 <= k < |p| ensures Shaped(p[k]) && Complete(p[k]) && RecordOk(h[k]) {
      assert p[k] == past[k] && h[k] == history[k];
    }
  }

  lemma LinkedPrefix(past: seq<Board>, history: seq<Record>, cur: Board, u: Board)
    requires |past| == |history| > 0 && Saved(past, history) && Linked(past, history, cur)
    requires Shaped(u) && Alike(u, past[|past| - 1])
    ensures Linked(past[..|past| - 1], history[..|history| - 1], u)
  {
    var n := |past|;
    var p, h := past[..n - 1], history[..n - 1];
    forall k | 0 <= k < |p| ensures Alike(Undone(After(p, u, k), h[k]), p[k]) {
      assert p[k] == past[k] && h[k] == history[k];
      assert Alike(Undone(After(past, cur, k), history[k]), past[k]);
      if k + 1 < |p| {
        assert After(p, u, k) == After(past, cur, k);
      } else {
        assert After(p, u, k) == u && After(past, cur, k) == past[n - 1];
        UndoneAlike(u, past[n - 1], history[k]);
      }
    }
  }

  /** Undoing a record, where it fits, on alike boards gives alike boards. */
  lemma UndoneAlike(a: Board, b: Board, r: Record)
    requires Shaped(a) && Shaped(b) && Alike(a, b)
    ensures Alike(Undone(a, r), Undone(b, r))
  {
    if RecordOk(r) {
      UndoAlike(a, b, r);
    }
  }

  /** A legal drop of picked-up cards keeps the chain. */
  lemma DropChain(past: seq<Board>, history: seq<Record>, b: Board, cards: seq<Card>, source: Loc, target: Loc,
                  cardIndex: int)
    requires Shaped(b) && LocOk(source) && LocOk(target) && |cards| > 0
    requires UndoChain(past, history, b) && Selected(b, cards, source, cardIndex)
    requires IsValidMove(b, cards, source, target)
    ensures var st := Perform(b, cards, source, target);
      UndoChain(past + [b], history + [st.record], st.board)
  {
    var st := Perform(b, cards, source, target);
    DropComplete(b, cards, source, target, cardIndex);
    if source.Tableau? {
      CompleteTableausDistinct(b, source.index);
      assert |b.tableaus[source.index]| - |cards| == cardIndex;
    }
    UndoPerform(b, cards, source, target);
    ChainPush(past, history, b, st.record, st.board);
  }

  /** An automatic move of picked-up cards to an accepted destination keeps the chain. */
  lemma AutoMoveChain(past: seq<Board>, history: seq<Record>, b: Board, cards: seq<Card>, source: Loc,
                      cardIndex: int, target: Loc)
    requires Shaped(b) && LocOk(source) && |cards| > 0
    requires UndoChain(past, history, b) && Selected(b, cards, source, cardIndex)
    requires IsAutoTarget(b, cards, source, target)
    ensures target.Foundation? ==>
      var st := ToFoundation(b, cards[0], source, target.index);
      UndoChain(past + [b], history + [st.record], st.board)
    ensures target.Tableau? ==>
      var st := ToTableau(b, cards, source, cardIndex, target.index);
      UndoChain(past + [b], history + [st.record], st.board)
  {
    if target.Foundation? {
      var st := ToFoundation(b, cards[0], source, target.index);
      AutoFoundationUndoes(b, cards, source, cardIndex, target.index);
      ChainPush(past, history, b, st.record, st.board);
    } else {
      var st := ToTableau(b, cards, source, cardIndex, target.index);
      AutoTableauUndoes(b, cards, source, cardIndex, target.index);
      ChainPush(past, history, b, st.record, st.board);
    }
  }

  /** An automatic move to a foundation keeps the board complete, and its record undoes it. */
  lemma AutoFoundationUndoes(b: Board, cards: seq<Card>, source: Loc, cardIndex: int, index: int)
    requires Shaped(b) && LocOk(source) && |cards| > 0 && Complete(b)
    requires Selected(b, cards, source, cardIndex) && IsAutoTarget(b, cards, source, Foundation(index))
    ensures var st := ToFoundation(b, cards[0], source, index);
      Complete(st.board) && Undo(st.board, st.record) == b
  {
    AutoMoveComplete(b, cards, source, cardIndex, Foundation(index));
    if source.Tableau? {
      CompleteTableausDistinct(b, source.index);
    }
    assert cards == [cards[0]];
    UndoToFoundation(b, cards[0], source, index);
  }

  /** An automatic move to a tableau keeps the board complete, and its record undoes it. */
  lemma AutoTableauUndoes(b: Board, cards: seq<Card>, source: Loc, cardIndex: int, index: int)
    requires Shaped(b) && LocOk(source) && |cards| > 0 && Complete(b)
    requires Selected(b, cards, source, cardIndex) && IsAutoTarget(b, cards, source, Tableau(index))
    ensures var st := ToTableau(b, cards, source, cardIndex, index);
      Complete(st.board) && Undo(st.board, st.record) == b
  {
    AutoMoveComplete(b, cards, source, cardIndex, Tableau(index));
    if source.Tableau? {
      CompleteTableausDistinct(b, source.index);
    }
    UndoToTableau(b, cards, source, cardIndex, index);
  }

  /** What an auto-complete move keeps: the card counts, the whole deck and the undo chain. */
  lemma AutoCompleteKeeps(past: seq<Board>, history: seq<Record>, b: Board, h: Hint)
    requires Shaped(b) && IsAutoCompleteMove(b, h)
    ensures var st := ToFoundation(b, h.cards[0], h.source, h.target.index);
      && st.board.deck == b.deck
      && |st.board.waste| + PilesSize(st.board.tableaus) + 1 == |b.waste| + PilesSize(b.tableaus)
      && PilesSize(st.board.foundations) == PilesSize(b.foundations) + 1
      && (Complete(b) ==> Complete(st.board))
      && (UndoChain(past, history, b) ==> UndoChain(past + [b], history + [st.record], st.board))
  {
    ToFoundationCounts(b, h.cards[0], h.source, h.target.index);
    if Complete(b) {
      AutoCompleteKeepsCards(b, h);
    }
    if UndoChain(past, history, b) {
      AutoCompleteChain(past, history, b, h);
    }
  }

  /** What an automatic move of a selected slice keeps: the whole deck and the undo chain. */
  lemma AutoMoveKeeps(past: seq<Board>, history: seq<Record>, b: Board, cards: seq<Card>, source: Loc,
                      cardIndex: int, target: Loc)
    requires Shaped(b) && LocOk(source) && |cards| > 0 && IsAutoTarget(b, cards, source, target)
    ensures var st := if target.Foundation? then ToFoundation(b, cards[0], source, target.index)
                      else ToTableau(b, cards, source, cardIndex, target.index);
      && (Complete(b) && Selected(b, cards, source, cardIndex) ==> Complete(st.board))
      && (UndoChain(past, history, b) && Selected(b, cards, source, cardIndex) ==>
            UndoChain(past + [b], history + [st.record], st.board))
  {
    if Complete(b) && Selected(b, cards, source, cardIndex) {
      AutoMoveComplete(b, cards, source, cardIndex, target);
    }
    if UndoChain(past, history, b) && Selected(b, cards, source, cardIndex) {
      AutoMoveChain(past, history, b, cards, source, cardIndex, target);
    }
  }

  lemma AutoCompleteChain(past: seq<Board>, history: seq<Record>, b: Board, h: Hint)
    requires Shaped(b) && UndoChain(past, history, b) && IsAutoCompleteMove(b, h)
    ensures var st := ToFoundation(b, h.cards[0], h.source, h.target.index);
      UndoChain(past + [b], history + [st.record], st.board)
  {
    var st := ToFoundation(b, h.cards[0], h.source, h.target.index);
    AutoCompleteUndoes(b, h);
    ChainPush(past, history, b, st.record, st.board);
  }

  /** An auto-complete move keeps the board complete, and its record undoes it. */
  lemma AutoCompleteUndoes(b: Board, h: Hint)
    requires Shaped(b) && Complete(b) && IsAutoCompleteMove(b, h)
    ensures var st := ToFoundation(b, h.cards[0], h.source, h.target.index);
      Complete(st.board) && Undo(st.board, st.record) == b
  {
    AutoCompleteKeepsCards(b, h);
    AutoCompleteTakesTop(b, h);
    UndoToFoundation(b, h.cards[0], h.source, h.target.index);
  }

  /** An auto-complete move takes the top card of its source, which has no card twice. */
  lemma AutoCompleteTakesTop(b: Board, h: Hint)
    requires Shaped(b) && Complete(b) && IsAutoCompleteMove(b, h)
    ensures LocOk(h.source)
    ensures TakesTop(b, [h.cards[0]], h.source, if h.source.Tableau? then |b.tableaus[h.source.index]| - 1 else 0)
  {
    if h.source.Tableau? {
      CompleteTableausDistinct(b, h.source.index);
      var t := b.tableaus[h.source.index];
      assert t[|t| - 1..] == h.cards;
    }
  }

  /** A draw or a recycle keeps the chain. */
  lemma DeckClickChain(past: seq<Board>, history: seq<Record>, b: Board)
    requires Shaped(b) && UndoChain(past, history, b)
    ensures UndoChain(past + [b], history + [DeckClick(b).record], DeckClick(b).board)
  {
    var st := DeckClick(b);
    DeckClickKeepsCards(b);
    if |b.deck| > 0 {
      UndoDraw(b);
      assert IdSeq(Undo(st.board, st.record).deck) == IdSeq(b.deck);
    } else {
      UndoRecycle(b);
    }
    ChainPush(past, history, b, st.record, st.board);
  }

  class Game {
    var deck: seq<Card>
    var waste: seq<Card>
    var foundations: seq<seq<Card>>
    var tableaus: seq<seq<Card>>
    var history: seq<Record>
    var score: int
    /** The board before each recorded move, for stating what `undoMove` returns to. */
    ghost var past: seq<Board>

    /** The piles as one board value. */
    function State(): Board
      reads this
    {
      Board(deck, waste, foundations, tableaus)
    }

    /** Four foundations, seven tableaus, well-formed history records, and one saved board per record. */
    ghost predicate Valid()
      reads this
    {
      Shaped(State()) && (forall k :: 0 <= k < |history| ==> RecordOk(history[k])) && |past| == |history|
    }

    /**
     * The game holds the whole deck, and its history undoes move by move
     * back through the saved boards, each holding the whole deck too.
     */
    ghost predicate Sound()
      reads this
    {
      UndoChain(past, history, State())
    }

    /** The state `initGame` leaves for the shuffle indices `js`. */
    ghost predicate FreshDeal(js: seq<int>)
      requires ValidChoices(js, 52)
      reads this
    {
      var d := FisherYates(FullDeck(), js, 51);
      && deck == d[..24] && waste == [] && foundations == [[], [], [], []]
      && |tableaus| == 7
      && (forall j :: 0 <= j < 7 ==> |tableaus[j]| == j + 1)
      && (forall j, k :: 0 <= k <= j < 7 ==> tableaus[j][k] == Dealt(d[DealSource(k, j)], k == j))
      && history == [] && score == 0
    }

    /** A new game, dealt from the shuffle indices `js`. */
    constructor (js: seq<int>)
      requires ValidChoices(js, 52)
      ensures Valid() && FreshDeal(js) && Complete(State()) && Sound()
      ensures forall k :: 0 <= k < |deck| ==> !deck[k].faceUp
      ensures forall j, k :: 0 <= j < 7 && 0 <= k < |tableaus[j]| ==> (tableaus[j][k].faceUp <==> k == j)
    {
      new;
      InitGame(js);
    }

    /**
     * `initGame`: build the 52 cards, shuffle them in place, deal seven
     * columns of 1 to 7 cards with only the last card of each face-up,
     * and leave the other 24 face-down in the stock.
     */
    method InitGame(js: seq<int>)
      requires ValidChoices(js, 52)
      modifies this
      ensures Valid() && FreshDeal(js) && Complete(State()) && Sound()
      ensures forall k :: 0 <= k < |deck| ==> !deck[k].faceUp
      ensures forall j, k :: 0 <= j < 7 && 0 <= k < |tableaus[j]| ==> (tableaus[j][k].faceUp <==> k == j)
    {
      var stock, columns := DealNewGame(js);
      FreshBoardSound(stock, columns);
      deck, waste, foundations, tableaus := stock, [], [[], [], [], []], columns;
      history, score := [], 0;
      past := [];
    }

    /** `handleDeckClick`: draw one card, or turn the waste over into the stock. */
    method HandleDeckClick()
      requires Valid()
      modifies this
      ensures var st := DeckClick(old(State()));
        && State() == st.board && history == old(history) + [st.record] && score == old(score)
      ensures past == old(past) + [old(State())]
      ensures Valid()
      ensures old(Complete(State())) ==> Complete(State())
      ensures old(Sound()) ==> Sound()
    {
      ghost var b := State();
      DeckClickKeepsCards(b);
      if Sound() {
        DeckClickChain(past, history, b);
      }
      if |deck| == 0 {
        RecycleStock();
      } else {
        DrawCard();
      }
    }

    /** The empty-stock branch of `handleDeckClick`, specified by the deck-click function. */
    method RecycleStock()
      requires Valid() && |deck| == 0
      modifies this
      ensures var st := DeckClick(old(State()));
        && State() == st.board && history == old(history) + [st.record] && score == old(score)
      ensures past == old(past) + [old(State())] && Valid()
    {
      past := past + [State()];
      history := history + [ResetDeck(waste)];
      var d := RecycleWaste(waste);
      deck, waste := d, [];
    }

    /** The drawing branch of `handleDeckClick`, specified by the deck-click function. */
    method DrawCard()
      requires Valid() && |deck| > 0
      modifies this
      ensures var st := DeckClick(old(State()));
        && State() == st.board && history == old(history) + [st.record] && score == old(score)
      ensures past == old(past) + [old(State())] && Valid()
    {
      past := past + [State()];
      var card := deck[|deck| - 1].(faceUp := true);
      deck := deck[..|deck| - 1];
      history := history + [Draw(card)];
      waste := waste + [card];
    }

    /** The stock the recycle loop of `handleDeckClick` builds from the waste. */
    static method RecycleWaste(w: seq<Card>) returns (d: seq<Card>)
      ensures d == Recycled(w)
    {
      d := [];
      var k := |w|;
      while k > 0
        invariant 0 <= k <= |w|
        invariant d == Recycled(w[k..])
      {
        assert w[k - 1..] == [w[k - 1]] + w[k..];
        d := d + [w[k - 1].(faceUp := false)];
        k := k - 1;
      }
    }

    /** Takes the moving cards off `source`, flipping a face-down card the removal exposes; specified by `Engine.Lift`. */
    method LiftCards(source: Loc, start: int) returns (flipped: Option<Card>)
      requires Valid() && LocOk(source)
      modifies this
      ensures (State(), flipped) == Lift(old(State()), source, start)
      ensures history == old(history) && score == old(score) && Valid()
    {
      flipped := None;
      match source
      case Waste => waste := Pop(waste);
      case Foundation(i) => foundations := foundations[i := Pop(foundations[i])];
      case Tableau(i) =>
        var t := KeepBefore(tableaus[i], start);
        if |t| > 0 && !t[|t| - 1].faceUp {
          t := t[|t| - 1 := t[|t| - 1].(faceUp := true)];
          flipped := Some(t[|t| - 1]);
        }
        tableaus := tableaus[i := t];
      case Stock =>
    }

    /** Puts the cards on `target`: the first card on a foundation, all of them on a tableau; specified by `Engine.Land`. */
    method LandCards(cards: seq<Card>, target: Loc)
      requires Valid() && LocOk(target) && |cards| > 0
      modifies this
      ensures State() == Land(old(State()), cards, target)
      ensures history == old(history) && score == old(score) && Valid()
    {
      match target
      case Foundation(i) => foundations := foundations[i := foundations[i] + [cards[0]]];
      case Tableau(i) => tableaus := tableaus[i := tableaus[i] + cards];
      case _ =>
    }

    /** The score change of `performMove`, specified by `Engine.PerformPoints`. */
    method ScorePerform(source: Loc, target: Loc, flipped: bool)
      modifies this`score
      ensures score == old(score) + PerformPoints(source, target, flipped)
    {
      if target.Foundation? {
        score := score + 10;
      } else if source.Foundation? && target.Tableau? {
        score := score - 5;
      } else if source == Waste {
        score := score + 5;
      }
      if flipped {
        score := score + 5;
      }
    }

    /** `performMove`: the drag-and-drop move, scored and pushed on the history. */
    method PerformMove(cards: seq<Card>, source: Loc, target: Loc)
      requires Valid() && LocOk(source) && LocOk(target) && |cards| > 0
      modifies this
      ensures var st := Perform(old(State()), cards, source, target);
        && State() == st.board && history == old(history) + [st.record] && score == old(score) + st.points
      ensures past == old(past) + [old(State())]
      ensures Valid()
    {
      ghost var b := State();
      ghost var p := past;
      var start := if source.Tableau? then |tableaus[source.index]| - |cards| else 0;
      PerformUnfold(b, cards, source, target, start);
      var flipped := LiftCards(source, start);
      LandCards(cards, target);
      ScorePerform(source, target, flipped.Some?);
      history := history + [Move(cards, source, target, flipped)];
      past := p + [b];

    }

    /** The score change of `moveCardToFoundation`. */
    method ScoreToFoundation(source: Loc, flipped: bool)
      modifies this`score
      ensures score == old(score) + 10 + (if flipped then 5 else 0) + (if source == Waste then 5 else 0)
    {
      score := score + 10;
      if flipped {
        score := score + 5;
      }
      if source == Waste {
        score := score + 5;
      }
    }

    /** `moveCardToFoundation`: the auto-move path to a foundation, with its own scoring. */
    method MoveCardToFoundation(card: Card, source: Loc, index: int)
      requires Valid() && LocOk(source) && 0 <= index < 4
      modifies this
      ensures var st := ToFoundation(old(State()), card, source, index);
        && State() == st.board && history == old(history) + [st.record] && score == old(score) + st.points
      ensures past == old(past) + [old(State())]
      ensures Valid()
    {
      ghost var b := State();
      ghost var p := past;
      var start := if source.Tableau? then |tableaus[source.index]| - 1 else 0;
      ToFoundationUnfold(b, card, source, index, start);
      var flipped := LiftCards(source, start);
      LandCards([card], Foundation(index));
      ScoreToFoundation(source, flipped.Some?);
      history := history + [Move([card], source, Foundation(index), flipped)];
      past := p + [b];
    }

    /** The score change of `moveCardsToTableau`. */
    method ScoreToTableau(source: Loc, flipped: bool)
      modifies this`score
      ensures score == old(score) + (if source.Foundation? then -5 else if source == Waste then 5 else 0)
                                   + (if flipped then 5 else 0)
    {
      if source.Foundation? {
        score := score - 5;
      } else if source == Waste {
        score := score + 5;
      }
      if flipped {
        score := score + 5;
      }
    }

    /** `moveCardsToTableau`: the auto-move path to a tableau, cutting a tableau source at `cardIndex`. */
    method MoveCardsToTableau(cards: seq<Card>, source: Loc, cardIndex: int, index: int)
      requires Valid() && LocOk(source) && 0 <= index < 7 && |cards| > 0
      modifies this
      ensures var st := ToTableau(old(State()), cards, source, cardIndex, index);
        && State() == st.board && history == old(history) + [st.record] && score == old(score) + st.points
      ensures past == old(past) + [old(State())]
      ensures Valid()
    {
      ghost var b := State();
      ghost var p := past;
      ToTableauUnfold(b, cards, source, cardIndex, index);
      var flipped := LiftCards(source, cardIndex);
      LandCards(cards, Tableau(index));
      ScoreToTableau(source, flipped.Some?);
      history := history + [Move(cards, source, Tableau(index), flipped)];
      past := p + [b];
    }

    /** The state part of `handleDrop`: perform the move only when `isValidMove` accepts it. */
    method AttemptMove(cards: seq<Card>, source: Loc, target: Loc) returns (moved: bool)
      requires Valid() && LocOk(source) && LocOk(target) && |cards| > 0
      modifies this
      ensures moved == IsValidMove(old(State()), cards, source, target)
      ensures moved ==> var st := Perform(old(State()), cards, source, target);
        && State() == st.board && history == old(history) + [st.record] && score == old(score) + st.points
      ensures !moved ==> State() == old(State()) && history == old(history) && score == old(score)
      ensures Valid()
      ensures old(Complete(State()) && Selected(State(), cards, source, DragStart(State(), cards, source)))
              ==> Complete(State())
      ensures old(Sound() && Selected(State(), cards, source, DragStart(State(), cards, source))) ==> Sound()
    {
      ghost var b := State();
      ghost var start := DragStart(b, cards, source);
      moved := IsValidMove(State(), cards, source, target);
      if moved && Complete(b) && Selected(b, cards, source, start) {
        DropComplete(b, cards, source, target, start);
        if Sound() {
          DropChain(past, history, b, cards, source, target, start);
        }
      }
      if moved {
        PerformMove(cards, source, target);
      }
    }

    /** Removes the moved cards from the target of a move record; specified by `Engine.TakeBack`. */
    method TakeBackCards(cards: seq<Card>, target: Loc)
      requires Valid() && LocOk(target)
      modifies this
      ensures State() == TakeBack(old(State()), cards, target)
      ensures history == old(history) && past == old(past) && score == old(score) && Valid()
    {
      match target
      case Foundation(i) => foundations := foundations[i := Pop(foundations[i])];
      case Tableau(i) => tableaus := tableaus[i := KeepBefore(tableaus[i], |tableaus[i]| - |cards|)];
      case _ =>
    }

    /** Returns the moved cards to the source of a move record, turning the flipped card back; specified by `Engine.PutBack`. */
    method PutBackCards(cards: seq<Card>, source: Loc, flipped: Option<Card>)
      requires Valid() && LocOk(source) && |cards| > 0
      modifies this
      ensures State() == PutBack(old(State()), cards, source, flipped)
      ensures history == old(history) && past == old(past) && score == old(score) && Valid()
    {
      match source
      case Waste => waste := waste + [cards[0]];
      case Foundation(i) => foundations := foundations[i := foundations[i] + [cards[0]]];
      case Tableau(i) =>
        var t := tableaus[i] + cards;
        if flipped.Some? {
          var k := FindIndex(t, flipped.value);
          if k != -1 {
            t := t[k := t[k].(faceUp := false)];
          }
        }
        tableaus := tableaus[i := t];
      case Stock =>
    }

    /**
     * `undoMove`: pop the last record and reverse it. An empty history is a
     * no-op, and the score is never restored. On a sound game the undo
     * returns to a board alike to the one before the move, and the game
     * stays sound, so any number of undos keeps the whole deck on the board.
     */
    method UndoMove()
      requires Valid()
      modifies this
      ensures old(history) == [] ==> State() == old(State()) && history == []
      ensures old(history) != [] ==>
        && history == old(history)[..|old(history)| - 1]
        && State() == Undo(old(State()), old(history)[|old(history)| - 1])
      ensures score == old(score) && Valid()
      ensures past == if old(history) == [] then old(past) else old(past)[..|old(past)| - 1]
      ensures old(Sound()) ==> Sound() && Complete(State())
      ensures old(Sound()) && old(history) != [] ==> Alike(State(), old(past)[|old(past)| - 1])
    {
      if |history| > 0 && Sound() {
        ChainPop(past, history, State());
      }
      UndoLast();
    }

    /** The state change of `undoMove`, specified by `Undo` on the last record. */
    method UndoLast()
      requires Valid()
      modifies this
      ensures old(history) == [] ==> State() == old(State()) && history == []
      ensures old(history) != [] ==>
        && history == old(history)[..|old(history)| - 1]
        && State() == Undo(old(State()), old(history)[|old(history)| - 1])
      ensures score == old(score) && Valid()
      ensures past == if old(history) == [] then old(past) else old(past)[..|old(past)| - 1]
    {
      if |history| == 0 {
        return;
      }
      var last := history[|history| - 1];
      history := history[..|history| - 1];
      past := past[..|past| - 1];
      match last
      case Draw(c) =>
        waste := Pop(waste);
        deck := deck + [c];
      case ResetDeck(w) =>
        waste := w;
        deck := [];
      case Move(cards, source, target, flipped) =>
        TakeBackCards(cards, target);
        PutBackCards(cards, source, flipped);
    }

    /**
     * `tryAutoMove`: move `cards` to the destination the Search module
     * chooses, through `moveCardToFoundation` or `moveCardsToTableau`. The
     * destination used is returned; `None` stands for the `false` of the
     * source, when nothing takes the cards and nothing changes.
     */
    method TryAutoMove(cards: seq<Card>, source: Loc, cardIndex: int) returns (target: Option<Loc>)
      requires Valid() && LocOk(source) && |cards| > 0
      modifies this
      ensures target.None? <==> forall l :: !IsAutoTarget(old(State()), cards, source, l)
      ensures target.None? ==> State() == old(State()) && history == old(history) && score == old(score)
      ensures target.Some? ==> IsAutoTarget(old(State()), cards, source, target.value)
      ensures target.Some? ==> forall l :: IsAutoTarget(old(State()), cards, source, l) ==>
        !Before(AutoKey(old(State()), cards, source, l), AutoKey(old(State()), cards, source, target.value))
      ensures target.Some? ==> LocOk(target.value) && IsValidMove(old(State()), cards, source, target.value)
      ensures target.Some? ==>
        var l := target.value;
        var st := if l.Foundation? then ToFoundation(old(State()), cards[0], source, l.index)
                  else ToTableau(old(State()), cards, source, cardIndex, l.index);
        State() == st.board && history == old(history) + [st.record] && score == old(score) + st.points
      ensures Valid()
      ensures target.Some? && old(Complete(State()) && Selected(State(), cards, source, cardIndex)) ==> Complete(State())
      ensures old(Sound() && Selected(State(), cards, source, cardIndex)) ==> Sound()
    {
      ghost var b := State();
      target := ChooseAutoTarget(State(), cards, source);
      if target.Some? {
        var l := target.value;
        AutoMoveKeeps(past, history, b, cards, source, cardIndex, l);
        if l.Foundation? {
          MoveCardToFoundation(cards[0], source, l.index);
        } else {
          MoveCardsToTableau(cards, source, cardIndex, l.index);
        }
      }
    }

    /** Cards not yet on a foundation that auto-complete can still move there. */
    function Unplayed(): nat
      reads this
    {
      |waste| + PilesSize(tableaus)
    }

    /**
     * One step of `autoCompleteStep`: move the card the Search module
     * chooses to its foundation through `moveCardToFoundation`, and report
     * the move made. A move leaves one card fewer in the waste and the
     * tableaus.
     */
    method AutoCompleteStep() returns (made: Option<Hint>)
      requires Valid()
      modifies this
      ensures made.None? <==> forall h :: !IsAutoCompleteMove(old(State()), h)
      ensures made.None? ==> State() == old(State()) && history == old(history) && score == old(score)
      ensures made.Some? ==> IsAutoCompleteMove(old(State()), made.value)
      ensures made.Some? ==> forall h :: IsAutoCompleteMove(old(State()), h) ==>
        !Before(AutoCompleteKey(old(State()), h), AutoCompleteKey(old(State()), made.value))
      ensures made.Some? ==>
        var st := ToFoundation(old(State()), made.value.cards[0], made.value.source, made.value.target.index);
        State() == st.board && history == old(history) + [st.record] && score == old(score) + st.points
      ensures made.Some? ==> Unplayed() + 1 == old(Unplayed()) && deck == old(deck)
      ensures Valid()
      ensures old(Complete(State())) ==> Complete(State())
      ensures old(Sound()) ==> Sound()
    {
      ghost var b := State();
      made := ChooseAutoCompleteMove(State());
      if made.Some? {
        var h := made.value;
        AutoCompleteKeeps(past, history, b, h);
        MoveCardToFoundation(h.cards[0], h.source, h.target.index);
      }
    }

    /**
     * `autoComplete`: repeat the step until it finds nothing. Each step
     * takes a card out of the waste or the tableaus, so the repetition
     * ends; at the end no auto-complete move is left.
     */
    method AutoComplete()
      requires Valid()
      modifies this
      ensures Valid() && deck == old(deck)
      ensures forall h :: !IsAutoCompleteMove(State(), h)
      ensures old(Complete(State())) ==> Complete(State())
      ensures old(Sound()) ==> Sound()
    {
      var moved := true;
      while moved
        invariant Valid() && deck == old(deck)
        invariant !moved ==> forall h :: !IsAutoCompleteMove(State(), h)
        invariant old(Complete(State())) ==> Complete(State())
        invariant old(Sound()) ==> Sound()
        decreases Unplayed(), moved
      {
        var made := AutoCompleteStep();
        moved := made.Some?;
      }
    }

    /** `checkWinCondition`: the game is won when every foundation holds 13 cards. */
    predicate CheckWinCondition(): (won: bool)
      requires Valid()
      reads this
      ensures won ==> PilesSize(foundations) == 52
    {
      IsWon(State())
    }

    /** A won game of 52 cards has nothing left outside the foundations. */
    lemma WonGameIsCleared()
      requires Valid() && Complete(State()) && CheckWinCondition()
      ensures deck == [] && waste == [] && forall i :: 0 <= i < 7 ==> tableaus[i] == []
    {
      FullDeckIsComplete();
      assert |Ids(FullDeck())| == 52;
      WonBoardIsCleared(State());
    }
  }
}
