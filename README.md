# Klondike rules engine

A Dafny model of the rules engine of a browser Klondike solitaire game,
the state and handlers inside the single `DOMContentLoaded` closure of
`script.js`. The game keeps module-level arrays: `deck` (the stock),
`waste`, four `foundations`, seven `tableaus`, the undo list
`moveHistory` and a `score`. Its handlers change them in place.

The model has the same layers as the script:

- `Cards` (cards.dfy): the card object of `initGame`, with its suit, its
  `numValue` 1..13 (`Rank`), its `value` label, its colour and its
  mutable `faceUp` flag. A card is a value. Its *identity* is the card
  with `faceUp` cleared. Multisets of identities (`Ids`, `PilesIds`)
  track the 52 cards across flips.
- `Deck` (deck.dfy): building the 52 cards, the in-place Fisher-Yates
  `shuffle` on an `array`, and the two nested loops of the deal.
- `Piles` (piles.dfy): the board value, pile locations (`'waste'`,
  `'foundation-i'`, `'tableau-i'`) and the history records. It also
  holds the array primitives the handlers use: `pop`, `splice(start)`
  (negative starts included), `findIndex`.
- `Rules` (rules.dfy): `isValidMove` and its build rules.
- `Engine` (engine.dfy): every state change as a function from one board
  to the next, which also yields the history record and the score delta.
  These are `performMove`, `moveCardToFoundation`, `moveCardsToTableau`,
  the state part of `handleDeckClick`, and `undoMove`. This module holds
  the undo round trips and card conservation.
- `Search` (search.dfy): the read-only scans. These are `findHintMove`,
  the destination choice of `tryAutoMove` and the search half of
  `autoCompleteStep`. Each is a loop method specified by its set of
  acceptable candidates and their scan order.
- `Game` (game.dfy): class `Game` with the six module-level variables as
  fields. Its methods change them in place as the handlers do. Each
  method's postcondition ties the new state, record and score to the
  Engine function that specifies it. A ghost field `past` keeps the board
  before each history entry. `Sound()` says that each record undoes the
  board after it to one *alike* to the board before it, and that every
  one of these boards holds the whole deck. Alike means the same waste,
  foundations and tableaus, and a stock with the same cards in the same
  order; only the stock's face-up flags may differ, because an undone draw comes back
  face-up. Every handler keeps `Sound()` (a drop or double-click when it
  moves the slice a drag selects), so undoing any number of moves never
  loses or copies a card.

`Math.random` is replaced by an input: the sequence `js` of shuffle
indices, where `js[i]` is the index drawn at step `i`, with
`0 <= js[i] <= i`.

Three behaviours of script.js worth noting:

- When a drag moves the waste card to a foundation, `performMove` gives +10, not +15. Its scoring is an `else if` chain (script.js:1177-1183).
- The deal gives column `j` exactly `j + 1` cards, with its last card face-up (script.js:57-64).
- Undoing a draw pushes back the face-up copy held in the record (script.js:999, 1228). The card does not go back face-down.

## Model

| member | source | states |
|---|---|---|
| Cards.LabelsMatchRanks | script.js:29-45 | the label tests `value === 'A'` and `value === 'K'` hold exactly for `numValue` 1 and 13 |
| Cards.ValueDeterminesRank | script.js:41-45 | two cards have the same `value` label exactly when their `numValue`s are equal |
| Cards.SameCardIsSameIdentity | script.js:1256-1259 | the suit-and-value match of `undoMove` holds exactly when two cards are the same card up to `faceUp` |
| Cards.DistinctIds | script.js:39-50 | a pile holds no card twice exactly when no identity occurs more than once in its multiset |
| Cards.PilesIdsUpdate | script.js:1151-1174 | replacing one pile of a list changes the list's identities by exactly that pile's difference |
| Cards.PilesIdsAppend | script.js:1170-1174 | pushing cards onto one pile adds exactly their identities to the list's |
| Deck.FullDeckIsComplete | script.js:39-50 | the built deck has 52 distinct cards: every suit/value pair, all face-down, label = `values[numValue - 1]`, red exactly for the first two suits (♥, ♦) |
| Deck.FullDeck | script.js:39-50 | the fresh deck has 52 cards, all face-down |
| Deck.NewDeck | script.js:39-50 | the nested suit/value loop pushes exactly the fresh deck in suit order, Ace to King |
| Deck.FisherYates | script.js:100-105 | the shuffle keeps the array's length |
| Deck.FisherYatesKeepsAbove | script.js:100-105 | the loop running from position `i` down never changes a position above `i` |
| Deck.FisherYatesPermutes | script.js:100-105 | for every choice of indices `0 <= j <= i`, the shuffle keeps the length and the multiset of its input |
| Deck.Shuffle | script.js:100-105 | the in-place loop leaves the array equal to the Fisher-Yates function of its old contents, and a permutation of them |
| Deck.ShuffledDeck | script.js:39-53 | the shuffled fresh deck is still 52 face-down cards with the identities of the full deck |
| Deck.DealPass | script.js:58-64 | one pass `i` pops one card onto each column `i..6` and turns the first of them face-up |
| Deck.DealStep | script.js:59-63 | popping the stock's last card onto column `j` keeps the deal's record of positions and of identities |
| Deck.Deal | script.js:56-65 | the deal leaves 24 stock cards, gives column `j` its `j + 1` cards from fixed deck positions with only the last one face-up, and conserves the identities |
| Piles.Pop | script.js:1152 | `pop()` removes the last card and does nothing to an empty pile |
| Piles.KeepBefore | script.js:1158 | `splice(start)` keeps the first `start` cards; a negative start counts from the end, and one past the front empties the pile |
| Piles.Expose | script.js:1161-1163 | a face-down top card is turned face-up and reported as `flippedCard`; otherwise the pile is unchanged and nothing is reported |
| Piles.FindIndex | script.js:1256-1259 | it returns the first index whose card matches by suit and value, or -1 exactly when none matches |
| Piles.BoardSize | script.js:9-12 | the number of identities on the board is the number of cards in the stock, the waste, the foundations and the tableaus |
| Piles.PilesSizeUpdate | script.js:1151-1174 | replacing one pile changes the card count by the difference of that pile's length |
| Piles.WonBoardIsCleared | script.js:1271-1272 | once every foundation holds 13 cards, a 52-card board has nothing left in the stock, the waste or the tableaus |
| Piles.IsWon | script.js:1271-1272 | a board is won when every foundation holds 13 cards, which puts 52 cards on the foundations |
| Rules.IsValidMove | script.js:1101-1132 | a legal move targets a foundation or a tableau; a foundation takes a single card, an Ace when empty; an empty tableau takes only a King |
| Rules.FoundationTakesOneCard | script.js:1104-1117 | a foundation move is legal exactly for one card: an Ace on an empty foundation, otherwise the same suit one above the top |
| Rules.TableauTakesKingOrNextLower | script.js:1118-1128 | a tableau move is legal exactly for a King on an empty tableau, otherwise the other colour one below the top |
| Rules.OnlyPilesAreTargets | script.js:1131 | no move to the stock or the waste is legal |
| Rules.FoundationMoveKeepsPile | script.js:1104-1117 | a legal foundation move keeps the foundation a same-suit run from the Ace, so it never holds more than 13 cards |
| Rules.TableauMoveExtendsRun | script.js:1118-1128 | a legal run on a tableau top extends the run by that top card |
| Rules.Examples | script.js:1111-1128 | worked cases: a Queen is refused and a King accepted on an empty tableau; 3♦ is refused and 3♥ accepted on A♥ 2♥ |
| Engine.Lift | script.js:1150-1167 | the source pile is popped (waste, foundation) or cut at `start` with its new top exposed (tableau, the flipped card reported); every other pile and the stock stay as they were |
| Engine.Land | script.js:1170-1174 | the target foundation gains the first card, or the target tableau all the cards; every other pile stays as it was |
| Engine.Perform | script.js:1135-1190 | the record holds the cards, source and target; a card is flipped exactly when the cut tableau has a face-down top; points are +10 (+5 when flipped) on a foundation, -5 from a foundation to a tableau, +5 from the waste to a tableau, +5 for a flip |
| Engine.PerformPiles | script.js:1150-1174 | `performMove` pops the source or cuts `cards.length` cards off the source tableau and flips its new top, appends to the target, and leaves every other pile alone |
| Engine.ToFoundation | script.js:892-932 | the target foundation gains the card; the points are +10, +5 for a flip and +5 from the waste |
| Engine.ToFoundationPiles | script.js:902-919 | `moveCardToFoundation` pops the waste or a foundation source, or cuts the last card off a tableau source and flips its new top (recording the flipped card), and leaves every other pile alone |
| Engine.ToTableau | script.js:935-977 | the target tableau gains the cards; the points are -5 from a foundation or +5 from the waste, and +5 for a flip |
| Engine.ToTableauPiles | script.js:945-962 | `moveCardsToTableau` pops the waste or a foundation source, or cuts a tableau source at `cardIndex` and flips its new top, pushes the cards on the target, and leaves every other pile alone |
| Engine.DeckClick | script.js:981-1003 | a draw moves the stock's last card face-up onto the waste and records a face-up copy; on an empty stock the waste is reversed face-down into the stock and emptied |
| Engine.DeckClickKeepsCards | script.js:981-1003 | a draw or a recycle neither loses nor copies a card |
| Engine.IdsRecycled | script.js:989-991 | the recycled stock holds the waste's cards |
| Engine.Unflip | script.js:1255-1262 | turning the flipped card back keeps the pile's length and identities |
| Engine.UnflipRestores | script.js:1252-1262 | after a cut and a flip, the lookup by suit and value finds the flipped card and turns it back face-down, restoring the pile |
| Engine.Undo | script.js:1220-1265 | undoing a draw pops the waste and pushes the recorded card on the stock; undoing a reset restores the recorded waste and empties the stock; undoing a move leaves the stock alone |
| Engine.TakeBack | script.js:1238-1242 | undoing a move pops a foundation target or cuts `cards.length` cards off a tableau target, and leaves every other pile alone |
| Engine.PutBack | script.js:1245-1264 | undoing a move pushes the first card back on a waste or foundation source, or all the cards on a tableau source with the flipped card turned back, and leaves every other pile alone |
| Engine.TakeBackLand | script.js:1238-1242 | removing one card from a foundation target, or `cards.length` from a tableau, undoes the landing |
| Engine.PutBackLift | script.js:1245-1264 | pushing the cards back onto their source and unflipping restores the source pile |
| Engine.UndoLiftLand | script.js:1233-1264 | the record of a lift-and-land undoes it to the same board, card for card and face-up state included |
| Engine.UndoPerform | script.js:1135-1190 | `undoMove` right after `performMove` of the source's top cards restores the whole board |
| Engine.UndoToFoundation | script.js:892-932 | `undoMove` right after `moveCardToFoundation` restores the whole board |
| Engine.UndoToTableau | script.js:935-977 | `undoMove` right after `moveCardsToTableau` restores the whole board |
| Engine.UndoRecycle | script.js:1229-1232 | undoing a recycle (as corrected) restores the waste in its old order and empties the stock |
| Engine.UndoDraw | script.js:1225-1228 | undoing a draw restores the waste; the stock gets its card back as the face-up copy, with the same identities as before |
| Engine.PerformKeepsCards | script.js:1150-1174 | `performMove` of the source's top cards neither loses nor copies a card |
| Engine.LiftIds | script.js:1151-1167 | lifting takes exactly the moved cards' identities off the board |
| Engine.ExposeIds | script.js:1161-1163 | turning the new top card face-up keeps the pile's identities |
| Engine.LandIds | script.js:1170-1174 | landing adds exactly the moved cards' identities to the board |
| Engine.MoveKeepsCards | script.js:1150-1174 | a lift followed by a landing of the lifted cards keeps every card on the board |
| Engine.ToFoundationCounts | script.js:903-919 | a foundation move from the waste or a tableau puts one card more on the foundations and one fewer in the waste and tableaus together |
| Engine.ToFoundationKeepsCards | script.js:892-932 | `moveCardToFoundation` of the source's top card keeps every card on the board |
| Engine.ToTableauKeepsCards | script.js:935-977 | `moveCardsToTableau` of the cards from `cardIndex` on keeps every card on the board |
| Engine.DeckClickAsWritten | script.js:981-1003 | the board and points are those of the corrected deck click, and so is a draw record; the reset record as written holds the waste's cards, identity by identity, every one of them face-down |
| Engine.RecycleUndoAsWrittenHidesWaste | script.js:984-991 | undoing a recycle as written brings back a face-up waste card face-down |
| Search.IsHint | script.js:330-427 | an accepted hint names valid piles, moves at least one card, and does not target its own source |
| Search.HintIsValidMove | script.js:330-427 | every hint passes `isValidMove` and does not target its own source; a run hint starts at a face-up card and is a run |
| Search.FirstFoundationFor | script.js:334-344 | it returns the first foundation, by index, that takes the card (skipping the source foundation), or none when none does |
| Search.FirstHintTableauFor | script.js:388-403 | it returns the first other tableau that takes the card under the hint test (a King on an empty pile, otherwise a face-up top of the other colour one above) |
| Search.CheckRun | script.js:377-384 | the loop's answer is true exactly when the cards alternate colour and fall by one |
| Search.FirstTableauToFoundation | script.js:348-365 | it returns the first (column, foundation) pair whose face-up top goes to the foundation, or none when no pair does |
| Search.FirstTableauToTableau | script.js:368-406 | it returns the first (column, start, target) run move in scan order, or none when no such move exists |
| Search.FindHintMove | script.js:330-427 | the hint returned is accepted, and no accepted hint comes earlier in the order waste→foundation, tableau→foundation, run→tableau, waste→tableau; none when nothing is accepted |
| Search.FirstEmptyTableau | script.js:856-867 | it returns the first empty tableau other than the source, or none when every other tableau holds cards |
| Search.FirstStackFor | script.js:871-886 | it returns the first non-empty tableau other than the source whose top takes the card, or none when no such tableau does |
| Search.IsAutoTarget | script.js:822-889 | a destination `tryAutoMove` accepts is a valid pile other than the source |
| Search.AutoTargetIsValidMove | script.js:822-889 | every destination `tryAutoMove` accepts passes `isValidMove` and is not the source |
| Search.NoHint | script.js:330-427 | when none of the four scans finds a candidate, no hint exists at all |
| Search.ChooseAutoTarget | script.js:822-889 | the destination is accepted and none comes earlier (a foundation for one card, then an empty tableau for a King, then a tableau whose top takes the card); it is legal and not the source; none when nothing is accepted |
| Search.ChooseAutoCompleteMove | script.js:518-635 | the move is a face-up tableau top or the waste top onto a foundation, and no such move comes earlier (tableaus by column first, then the waste); none when there is none |
| Game.DealNewGame | script.js:32-65 | the shuffled deck is dealt: the first 24 cards stay face-down in the stock, column `j` holds `j + 1` cards with only its last face-up, and the 52 identities are kept |
| Game.FreshBoardComplete | script.js:32-65 | the freshly dealt board holds the whole deck |
| Game.FreshBoardSound | script.js:32-65 | the freshly dealt board holds the whole deck and, with an empty history, is a sound start for undoing |
| Game.CompleteTableausDistinct | script.js:39-65 | on a board holding the deck exactly once, no tableau holds a card twice |
| Game.DropComplete | script.js:1093-1097 | a legal drop of dragged cards keeps every card of the deck on the board exactly once |
| Game.AutoMoveComplete | script.js:822-889 | an automatic move of selected cards to an accepted destination keeps every card of the deck on the board exactly once |
| Game.ToFoundationComplete | script.js:892-932 | `moveCardToFoundation` of the source's top card keeps every card of the deck on the board exactly once |
| Game.AutoCompleteKeepsCards | script.js:518-635 | an auto-complete move keeps every card of the deck on the board exactly once |
| Game.UndoAlike | script.js:1220-1265 | undoing one record on two boards that differ only in the face-up flags of the stock (same cards in the same order) gives two such boards again |
| Game.ChainPush | script.js:1220-1265 | a move whose record undoes it back to the board before keeps the undo chain: every record still undoes the board after it to one alike to the board before it |
| Game.ChainPop | script.js:1220-1265 | popping the last record and undoing it gives a board alike to the one before that move (the same waste, foundations and tableaus, and the same stock cards in the same order), and the rest of the history is still an undo chain from it |
| Game.DropChain | script.js:1093-1097 | a legal drop of the selected cards keeps the undo chain |
| Game.AutoFoundationUndoes | script.js:892-932 | an automatic foundation move of the selected cards keeps the whole deck, and its record undoes it to the same board |
| Game.AutoTableauUndoes | script.js:935-977 | an automatic tableau move of the selected cards keeps the whole deck, and its record undoes it to the same board |
| Game.AutoMoveChain | script.js:822-889 | an automatic move of the selected cards keeps the undo chain |
| Game.AutoMoveKeeps | script.js:822-889 | an automatic move of the selected cards keeps the whole deck and the undo chain |
| Game.AutoCompleteUndoes | script.js:518-635 | an auto-complete move keeps the whole deck, and its record undoes it to the same board |
| Game.AutoCompleteTakesTop | script.js:518-635 | an auto-complete move takes its source's top card, and on a board holding the deck once that source pile has no card twice |
| Game.AutoCompleteChain | script.js:518-635 | an auto-complete move keeps the undo chain |
| Game.AutoCompleteKeeps | script.js:518-635 | an auto-complete move keeps the stock, puts one card more on the foundations and one fewer in the waste and tableaus, and keeps the whole deck and the undo chain |
| Game.DeckClickChain | script.js:981-1003 | a draw or a recycle keeps the undo chain: undoing it gives back a board with the same piles and the same stock cards in the same order |
| Game.Game.constructor | script.js:32-65 | a new game is the deal of the input indices, with empty history and score 0, holding the whole deck and sound |
| Game.Game.InitGame | script.js:32-65 | the state is the deal of the shuffled deck: 24 face-down stock cards, column `j` with `j + 1` cards and only its last face-up, empty waste, foundations and history; all 52 cards once; the game is sound |
| Game.Game.HandleDeckClick | script.js:981-1003 | the new piles and record are those of the deck-click function, the score is unchanged, a board with the whole deck keeps it, and a sound game (one whose history undoes step by step back to the deal) stays sound |
| Game.Game.RecycleStock | script.js:982-991 | on an empty stock the reset record is pushed, the reversed waste becomes the face-down stock and the waste is emptied |
| Game.Game.RecycleWaste | script.js:989-991 | the loop builds the waste reversed and turned face-down |
| Game.Game.DrawCard | script.js:992-1002 | the stock's last card goes face-up onto the waste and a face-up copy is recorded |
| Game.Game.LiftCards | script.js:1151-1167 | the piles become the lifted board, and the flipped card is the one reported |
| Game.Game.LandCards | script.js:1170-1174 | the piles become the landed board |
| Game.Game.ScorePerform | script.js:1177-1187 | the score moves by `performMove`'s points |
| Game.Game.PerformMove | script.js:1135-1190 | the piles, the pushed record and the score change are those of `Perform` |
| Game.Game.ScoreToFoundation | script.js:922-928 | the score moves by +10, +5 for a flip and +5 from the waste |
| Game.Game.MoveCardToFoundation | script.js:892-932 | the piles, the pushed record and the score change are those of `ToFoundation` |
| Game.Game.ScoreToTableau | script.js:964-973 | the score moves by -5 from a foundation or +5 from the waste, and +5 for a flip |
| Game.Game.MoveCardsToTableau | script.js:935-977 | the piles, the pushed record and the score change are those of `ToTableau` |
| Game.Game.AttemptMove | script.js:1093-1097 | a move is made exactly when `isValidMove` accepts it; then it is `performMove`, otherwise nothing changes; a legal drop keeps the whole deck on the board and a sound game sound |
| Game.Game.TakeBackCards | script.js:1238-1242 | the piles become the target-side undo of the record |
| Game.Game.PutBackCards | script.js:1245-1264 | the piles become the source-side undo of the record, the flipped card turned back |
| Game.Game.UndoMove | script.js:1220-1265 | with an empty history nothing changes; otherwise the last record is popped and reversed by `Undo`; the score is never restored; on a sound game the undo returns to a board alike to the one before the move (every pile as it was, the stock in the same order with only face-up flags possibly different), the game stays sound and the whole deck stays on the board |
| Game.Game.UndoLast | script.js:1220-1265 | the last record is popped and reversed by `Undo`; an empty history is a no-op |
| Game.Game.TryAutoMove | script.js:822-889 | nothing changes exactly when no destination is accepted; otherwise the first accepted destination is used through the matching helper and the move is legal; a selected slice keeps the whole deck and a sound game sound |
| Game.Game.AutoCompleteStep | script.js:518-635 | the first auto-complete move is made through `moveCardToFoundation`, one card leaves the waste and tableaus, the stock is unchanged; nothing changes when there is none; the whole deck stays and a sound game stays sound |
| Game.Game.AutoComplete | script.js:505-635 | the repeated step ends, leaves no auto-complete move, keeps the stock, and keeps the whole deck on the board and a sound game sound |
| Game.Game.CheckWinCondition | script.js:1271-1272 | the game is won when every foundation holds 13 cards, which puts 52 cards on the foundations |
| Game.Game.WonGameIsCleared | script.js:1271-1272 | a won game holding the whole deck has empty stock, waste and tableaus |

## Left out

- DOM rendering, element construction, the score and timer displays, hint highlighting, the animation queue, timers and `alert`s. They are presentation. Only the state change each animation callback performs is modelled.
- The winnability snapshot. `isCurrentlyWinnable`, `saveWinnableState` and `isGameWinnable` are used in `performMove` (script.js:1137-1138, 1193) but defined nowhere in script.js. These calls are omitted.
- `Math.random` and the `Date` timer. The shuffle indices are an input sequence with `0 <= js[i] <= i`.
- Event wiring and drag state (`handleDrag*`, the element lookups of `handleDrop` and `handleDoubleClick`). Of these, `Game.Selected` models which slice `handleDragStart` takes (the cards from the dragged index to the top), and `AttemptMove` models the state part of `handleDrop`. The face-up test that decides which cards can be dragged at all (script.js:275-279) is not modelled.
- `tryAutoMoveWithAnimation` makes the same choice as `tryAutoMove` and adds animation. Only `tryAutoMove` is modelled.
- Sharing of card objects between piles and records. Cards are values, and a flip updates the element inside its pile. The one place where sharing is visible is the reset snapshot, described under Findings.
- Engine.DeckClick: its reset record is the corrected one, the waste as it was with its face-up flags. The record as written is `Engine.DeckClickAsWritten` (see Findings).
- Game.Game.HandleDeckClick: it pushes the corrected reset record of `Engine.DeckClick`, not the face-down one script.js stores (see Findings).
- Game.Game.RecycleStock: the empty-stock branch of `handleDeckClick`; it pushes the corrected reset record of `Engine.DeckClick`, not the face-down one script.js stores (see Findings).
- Game.Game.TryAutoMove: it returns the destination it used, or `None`, instead of the script's boolean.
- Game.Game.AutoCompleteStep: it returns the move it made, or `None`, and the timer-driven repetition of `autoCompleteStep` becomes the loop of `AutoComplete`.
- Game.Game.PerformMove: card conservation is stated for the `Perform` function it is tied to (`Engine.PerformKeepsCards`, `Game.DropComplete`), not as a postcondition of the method.
- Game.Game.MoveCardToFoundation: card conservation is stated for the `ToFoundation` function it is tied to (`Engine.ToFoundationKeepsCards`), not as a postcondition of the method.
- Game.Game.MoveCardsToTableau: card conservation is stated for the `ToTableau` function it is tied to (`Engine.ToTableauKeepsCards`), not as a postcondition of the method.
- An unknown `sourceType` is recorded by the auto-move helpers as `'waste'` (script.js:897-898, 940-941). No caller passes one. The model keeps such a source as `Stock`, which nothing lifts from.

## Findings

| source | as written | input that shows it | evidently intended | confidence | as-written member | corrected member |
|---|---|---|---|---|---|---|
| script.js:984-991, 1229-1232 | the `reset-deck` record copies the waste array, but the copy shares the card objects that the recycle then turns face-down, so undoing the recycle right after the click brings the waste back face-down (a later draw of a recycled card turns that shared object, and with it the saved copy, face-up again; the model fixes the snapshot's flags when it is pushed) | stock empty, waste [A♥ face-up]: click the stock, then undo; the waste is [A♥ face-down] | undoing a recycle restores the waste exactly as it was, face-up | not executed | Engine.RecycleUndoAsWrittenHidesWaste | Engine.UndoRecycle |
