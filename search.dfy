/**
 * The read-only scans: `findHintMove`, the destination choice of
 * `tryAutoMove` and the search half of `autoCompleteStep`. Each is a
 * fixed-order scan that returns its first acceptable candidate; each is
 * specified by the set of acceptable candidates and their scan order.
 */
module Search {
  import opened Wrappers
  import opened Cards
  import opened Piles
  import opened Rules

  /** A suggested move: `{ from, cards, to, index }`. */
  datatype Hint = Hint(source: Loc, cards: seq<Card>, target: Loc)

  /** Scan position of a candidate: phase, source column, start of the run, target index. */
  datatype Key = Key(phase: int, column: int, start: int, dest: int)

  /** `x` comes strictly before `y` in scan order. */
  predicate Before(x: Key, y: Key) {
    || x.phase < y.phase
    || (x.phase == y.phase && x.column < y.column)
    || (x.phase == y.phase && x.column == y.column && x.start < y.start)
    || (x.phase == y.phase && x.column == y.column && x.start == y.start && x.dest < y.dest)
  }

  /** The tableau test of the hint scan: like `isValidMove`, but the top card must also be face-up. */
  predicate HintTableauAccepts(t: seq<Card>, c: Card) {
    if |t| == 0 then IsKing(c) else Top(t).faceUp && Color(c) != Color(Top(t)) && c.rank == Top(t).rank - 1
  }

  /** Phase 1: the waste top onto foundation `j`. */
  predicate WasteToFoundation(b: Board, j: int)
    requires Shaped(b)
  {
    |b.waste| > 0 && 0 <= j < 4 && FoundationAccepts(b.foundations[j], Top(b.waste))
  }

  /** Phase 2: the face-up top of tableau `i` onto foundation `j`. */
  predicate TableauToFoundation(b: Board, i: int, j: int)
    requires Shaped(b)
  {
    && 0 <= i < 7 && 0 <= j < 4 && |b.tableaus[i]| > 0
    && Top(b.tableaus[i]).faceUp && FoundationAccepts(b.foundations[j], Top(b.tableaus[i]))
  }

  /** Phase 3: the run of tableau `i` from its face-up card `k` onto another tableau `j`. */
  predicate TableauToTableau(b: Board, i: int, k: int, j: int)
    requires Shaped(b)
  {
    && 0 <= i < 7 && 0 <= j < 7 && i != j && 0 <= k < |b.tableaus[i]|
    && b.tableaus[i][k].faceUp && IsRun(b.tableaus[i][k..])
    && HintTableauAccepts(b.tableaus[j], b.tableaus[i][k])
  }

  /** Phase 4: the waste top onto tableau `j`. */
  predicate WasteToTableau(b: Board, j: int)
    requires Shaped(b)
  {
    |b.waste| > 0 && 0 <= j < 7 && HintTableauAccepts(b.tableaus[j], Top(b.waste))
  }

  /** `h` is one of the moves the hint scan accepts. */
  predicate IsHint(b: Board, h: Hint): (ok: bool)
    requires Shaped(b)
    ensures ok ==> LocOk(h.source) && LocOk(h.target) && |h.cards| > 0 && h.source != h.target
  {
    match (h.source, h.target)
    case (Waste, Foundation(j)) => WasteToFoundation(b, j) && h.cards == [Top(b.waste)]
    case (Tableau(i), Foundation(j)) =>
      TableauToFoundation(b, i, j) && h.cards == [Top(b.tableaus[i])]
    case (Tableau(i), Tableau(j)) =>
      && 0 <= i < 7 && 0 < |h.cards| <= |b.tableaus[i]|
      && h.cards == b.tableaus[i][|b.tableaus[i]| - |h.cards|..]
      && TableauToTableau(b, i, |b.tableaus[i]| - |h.cards|, j)
    case (Waste, Tableau(j)) => WasteToTableau(b, j) && h.cards == [Top(b.waste)]
    case _ => false
  }

  /** Where the hint scan meets an accepted move. */
  function HintKey(b: Board, h: Hint): Key
    requires Shaped(b) && IsHint(b, h)
  {
    match (h.source, h.target)
    case (Waste, Foundation(j)) => Key(1, 0, 0, j)
    case (Tableau(i), Foundation(j)) => Key(2, i, 0, j)
    case (Tableau(i), Tableau(j)) => Key(3, i, |b.tableaus[i]| - |h.cards|, j)
    case (Waste, Tableau(j)) => Key(4, 0, 0, j)
  }

  /** Every hint is a move `isValidMove` accepts; a run hint starts at a face-up card,
      is a run, and never targets its own column. */
  lemma HintIsValidMove(b: Board, h: Hint)
    requires Shaped(b) && IsHint(b, h)
    ensures LocOk(h.source) && LocOk(h.target) && |h.cards| > 0
    ensures IsValidMove(b, h.cards, h.source, h.target)
    ensures h.source != h.target
    ensures h.source.Tableau? && h.target.Tableau? ==> h.cards[0].faceUp && IsRun(h.cards)
  {
  }

  /**
   * The first foundation, by index, that takes `c`, skipping the foundation
   * the card comes from (the foundation loops of the hint scan, of
   * `autoCompleteStep` and of `tryAutoMove`).
   */
  method FirstFoundationFor(b: Board, c: Card, from: Loc) returns (r: Option<int>)
    requires Shaped(b)
    ensures r.Some? ==> 0 <= r.value < 4 && from != Foundation(r.value)
                        && FoundationAccepts(b.foundations[r.value], c)
    ensures r.Some? ==> forall j :: 0 <= j < r.value && from != Foundation(j) ==> !FoundationAccepts(b.foundations[j], c)
    ensures r.None? ==> forall j :: 0 <= j < 4 && from != Foundation(j) ==> !FoundationAccepts(b.foundations[j], c)
  {
    var j := 0;
    while j < 4
      invariant 0 <= j <= 4
      invariant forall j' :: 0 <= j' < j && from != Foundation(j') ==> !FoundationAccepts(b.foundations[j'], c)
    {
      if from != Foundation(j) && FoundationAccepts(b.foundations[j], c) {
        return Some(j);
      }
      j := j + 1;
    }
    return None;
  }

  /** The first tableau, by index and other than `skip`, that the hint scan lets `c` onto. */
  method FirstHintTableauFor(b: Board, c: Card, skip: int) returns (r: Option<int>)
    requires Shaped(b)
    ensures r.Some? ==> 0 <= r.value < 7 && r.value != skip && HintTableauAccepts(b.tableaus[r.value], c)
    ensures r.Some? ==> forall j :: 0 <= j < r.value && j != skip ==> !HintTableauAccepts(b.tableaus[j], c)
    ensures r.None? ==> forall j :: 0 <= j < 7 && j != skip ==> !HintTableauAccepts(b.tableaus[j], c)
  {
    var j := 0;
    while j < 7
      invariant 0 <= j <= 7
      invariant forall j' :: 0 <= j' < j && j' != skip ==> !HintTableauAccepts(b.tableaus[j'], c)
    {
      if j != skip && HintTableauAccepts(b.tableaus[j], c) {
        return Some(j);
      }
      j := j + 1;
    }
    return None;
  }

  /** The `validSequence` loop: does the run alternate colours and fall by one? */
  method CheckRun(s: seq<Card>) returns (ok: bool)
    ensures ok <==> IsRun(s)
  {
    var k := 0;
    while k < |s| - 1
      invariant 0 <= k <= if |s| == 0 then 0 else |s| - 1
      invariant forall m :: 0 <= m < k ==> Color(s[m]) != Color(s[m + 1]) && s[m].rank == s[m + 1].rank + 1
    {
      if Color(s[k]) == Color(s[k + 1]) || s[k].rank != s[k + 1].rank + 1 {
        return false;
      }
      k := k + 1;
    }
    return true;
  }

  /** Phase 2 of the hint scan (and the first half of `autoCompleteStep`). */
  method FirstTableauToFoundation(b: Board) returns (r: Option<(int, int)>)
    requires Shaped(b)
    ensures r.Some? ==> TableauToFoundation(b, r.value.0, r.value.1)
    ensures r.Some? ==> forall i, j :: TableauToFoundation(b, i, j) ==>
      !(i < r.value.0 || (i == r.value.0 && j < r.value.1))
    ensures r.None? ==> forall i, j :: !TableauToFoundation(b, i, j)
  {
    var i := 0;
    while i < 7
      invariant 0 <= i <= 7
      invariant forall i', j :: i' < i ==> !TableauToFoundation(b, i', j)
    {
      if |b.tableaus[i]| > 0 && Top(b.tableaus[i]).faceUp {
        var j := FirstFoundationFor(b, Top(b.tableaus[i]), Tableau(i));
        if j.Some? {
          return Some((i, j.value));
        }
      }
      i := i + 1;
    }
    return None;
  }

  /** Phase 3 of the hint scan: source column, then run start from the bottom, then target. */
  method FirstTableauToTableau(b: Board) returns (r: Option<(int, int, int)>)
    requires Shaped(b)
    ensures r.Some? ==> TableauToTableau(b, r.value.0, r.value.1, r.value.2)
    ensures r.Some? ==> forall i, k, j :: TableauToTableau(b, i, k, j) ==>
      !Before(Key(3, i, k, j), Key(3, r.value.0, r.value.1, r.value.2))
    ensures r.None? ==> forall i, k, j :: !TableauToTableau(b, i, k, j)
  {
    var i := 0;
    while i < 7
      invariant 0 <= i <= 7
      invariant forall i', k, j :: i' < i ==> !TableauToTableau(b, i', k, j)
    {
      var t := b.tableaus[i];
      var k := 0;
      while k < |t|
        invariant 0 <= k <= |t|
        invariant forall i', k', j :: i' < i ==> !TableauToTableau(b, i', k', j)
        invariant forall k', j :: k' < k ==> !TableauToTableau(b, i, k', j)
      {
        if t[k].faceUp {
          var ok := CheckRun(t[k..]);
          if ok {
            var j := FirstHintTableauFor(b, t[k], i);
            if j.Some? {
              return Some((i, k, j.value));
            }
          }
        }
        k := k + 1;
      }
      i := i + 1;
    }
    return None;
  }

  /** A waste-to-foundation hint with no earlier foundation comes first of all hints. */
  lemma WasteToFoundationFirst(b: Board, j: int)
    requires Shaped(b)
    requires forall j' :: 0 <= j' < j ==> !WasteToFoundation(b, j')
    ensures forall h :: IsHint(b, h) ==> !Before(HintKey(b, h), Key(1, 0, 0, j))
  {
    forall h | IsHint(b, h) ensures !Before(HintKey(b, h), Key(1, 0, 0, j)) {
      HintPhaseOf(b, h);
    }
  }

  /** With no waste-to-foundation hint, the first tableau-to-foundation hint comes first. */
  lemma TableauToFoundationFirst(b: Board, i: int, j: int)
    requires Shaped(b)
    requires forall j' :: !WasteToFoundation(b, j')
    requires forall i', j' :: TableauToFoundation(b, i', j') ==> !(i' < i || (i' == i && j' < j))
    ensures forall h :: IsHint(b, h) ==> !Before(HintKey(b, h), Key(2, i, 0, j))
  {
    forall h | IsHint(b, h) ensures !Before(HintKey(b, h), Key(2, i, 0, j)) {
      HintPhaseOf(b, h);
    }
  }

  /** With no foundation hint, the first run hint comes first. */
  lemma TableauToTableauFirst(b: Board, i: int, k: int, j: int)
    requires Shaped(b)
    requires forall j' :: !WasteToFoundation(b, j')
    requires forall i', j' :: !TableauToFoundation(b, i', j')
    requires forall i', k', j' :: TableauToTableau(b, i', k', j') ==> !Before(Key(3, i', k', j'), Key(3, i, k, j))
    ensures forall h :: IsHint(b, h) ==> !Before(HintKey(b, h), Key(3, i, k, j))
  {
    forall h | IsHint(b, h) ensures !Before(HintKey(b, h), Key(3, i, k, j)) {
      HintPhaseOf(b, h);
    }
  }

  /** With no foundation hint and no run hint, the first waste-to-tableau hint comes first. */
  lemma WasteToTableauFirst(b: Board, j: int)
    requires Shaped(b)
    requires forall j' :: !WasteToFoundation(b, j')
    requires forall i', j' :: !TableauToFoundation(b, i', j')
    requires forall i', k', j' :: !TableauToTableau(b, i', k', j')
    requires forall j' :: 0 <= j' < j ==> !WasteToTableau(b, j')
    ensures forall h :: IsHint(b, h) ==> !Before(HintKey(b, h), Key(4, 0, 0, j))
  {
    forall h | IsHint(b, h) ensures !Before(HintKey(b, h), Key(4, 0, 0, j)) {
      HintPhaseOf(b, h);
    }
  }

  /** A board with no candidate in any phase has no hint. */
  lemma NoHint(b: Board)
    requires Shaped(b)
    requires forall j' :: !WasteToFoundation(b, j')
    requires forall i', j' :: !TableauToFoundation(b, i', j')
    requires forall i', k', j' :: !TableauToTableau(b, i', k', j')
    requires forall j' :: !WasteToTableau(b, j')
    ensures forall h :: !IsHint(b, h)
  {
    forall h | IsHint(b, h) ensures false {
      HintPhaseOf(b, h);
    }
  }

  /**
   * `findHintMove`: the first accepted move in the order waste to
   * foundation, tableau top to foundation, tableau run to another tableau,
   * waste to tableau; `None` when the scan accepts nothing.
   */
  method FindHintMove(b: Board) returns (r: Option<Hint>)
    requires Shaped(b)
    ensures r.Some? ==> IsHint(b, r.value)
    ensures r.Some? ==> forall h :: IsHint(b, h) ==> !Before(HintKey(b, h), HintKey(b, r.value))
    ensures r.None? ==> forall h :: !IsHint(b, h)
  {
    if |b.waste| > 0 {
      var w := FirstFoundationFor(b, Top(b.waste), Waste);
      if w.Some? {
        WasteToFoundationFirst(b, w.value);
        return Some(Hint(Waste, [Top(b.waste)], Foundation(w.value)));
      }
    }
    assert forall j :: !WasteToFoundation(b, j);

    var tf := FirstTableauToFoundation(b);
    if tf.Some? {
      var (i, j) := tf.value;
      TableauToFoundationFirst(b, i, j);
      return Some(Hint(Tableau(i), [Top(b.tableaus[i])], Foundation(j)));
    }

    var tt := FirstTableauToTableau(b);
    if tt.Some? {
      var (i, k, j) := tt.value;
      TableauToTableauFirst(b, i, k, j);
      var t := b.tableaus[i];
      assert |t| - |t[k..]| == k && t[|t| - |t[k..]|..] == t[k..];
      return Some(Hint(Tableau(i), t[k..], Tableau(j)));
    }

    if |b.waste| > 0 {
      var wt := FirstHintTableauFor(b, Top(b.waste), -1);
      if wt.Some? {
        WasteToTableauFirst(b, wt.value);
        return Some(Hint(Waste, [Top(b.waste)], Tableau(wt.value)));
      }
    }
    NoHint(b);
    return None;
  }

  /** Which candidate of its phase an accepted hint is. */
  lemma HintPhaseOf(b: Board, h: Hint)
    requires Shaped(b) && IsHint(b, h)
    ensures var key := HintKey(b, h);
      && (key.phase == 1 ==> WasteToFoundation(b, key.dest))
      && (key.phase == 2 ==> TableauToFoundation(b, key.column, key.dest))
      && (key.phase == 3 ==> TableauToTableau(b, key.column, key.start, key.dest))
      && (key.phase == 4 ==> WasteToTableau(b, key.dest))
      && 1 <= key.phase <= 4
  {
  }

  /** `tryAutoMove`, first choice: a single card onto a foundation other than its source. */
  predicate AutoFoundation(b: Board, cards: seq<Card>, source: Loc, i: int)
    requires Shaped(b) && |cards| > 0
  {
    |cards| == 1 && 0 <= i < 4 && source != Foundation(i) && FoundationAccepts(b.foundations[i], cards[0])
  }

  /** `tryAutoMove`, second choice: a King onto an empty tableau other than its source. */
  predicate AutoEmptyTableau(b: Board, cards: seq<Card>, source: Loc, i: int)
    requires Shaped(b) && |cards| > 0
  {
    IsKing(cards[0]) && 0 <= i < 7 && source != Tableau(i) && |b.tableaus[i]| == 0
  }

  /** `tryAutoMove`, last choice: onto a non-empty tableau other than the source whose top takes it. */
  predicate AutoStack(b: Board, cards: seq<Card>, source: Loc, i: int)
    requires Shaped(b) && |cards| > 0
  {
    0 <= i < 7 && source != Tableau(i) && |b.tableaus[i]| > 0 && TableauAccepts(b.tableaus[i], cards[0])
  }

  /** A destination `tryAutoMove` accepts. */
  predicate IsAutoTarget(b: Board, cards: seq<Card>, source: Loc, target: Loc): (ok: bool)
    requires Shaped(b) && |cards| > 0
    ensures ok ==> LocOk(target) && target != source
  {
    match target
    case Foundation(i) => AutoFoundation(b, cards, source, i)
    case Tableau(i) => AutoEmptyTableau(b, cards, source, i) || AutoStack(b, cards, source, i)
    case _ => false
  }

  /** Where `tryAutoMove` meets an accepted destination. */
  function AutoKey(b: Board, cards: seq<Card>, source: Loc, target: Loc): Key
    requires Shaped(b) && |cards| > 0 && IsAutoTarget(b, cards, source, target)
  {
    match target
    case Foundation(i) => Key(1, 0, 0, i)
    case Tableau(i) => if |b.tableaus[i]| == 0 then Key(2, 0, 0, i) else Key(3, 0, 0, i)
  }

  /** The first empty tableau other than the source, for a King. */
  method FirstEmptyTableau(b: Board, source: Loc) returns (r: Option<int>)
    requires Shaped(b)
    ensures r.Some? ==> 0 <= r.value < 7 && source != Tableau(r.value) && |b.tableaus[r.value]| == 0
    ensures r.Some? ==> forall i :: 0 <= i < r.value && source != Tableau(i) ==> |b.tableaus[i]| > 0
    ensures r.None? ==> forall i :: 0 <= i < 7 && source != Tableau(i) ==> |b.tableaus[i]| > 0
  {
    var i := 0;
    while i < 7
      invariant 0 <= i <= 7
      invariant forall i' :: 0 <= i' < i && source != Tableau(i') ==> |b.tableaus[i']| > 0
    {
      if source != Tableau(i) && |b.tableaus[i]| == 0 {
        return Some(i);
      }
      i := i + 1;
    }
    return None;
  }

  /** The first non-empty tableau other than the source whose top takes `c`. */
  method FirstStackFor(b: Board, c: Card, source: Loc) returns (r: Option<int>)
    requires Shaped(b)
    ensures r.Some? ==> 0 <= r.value < 7 && source != Tableau(r.value) && |b.tableaus[r.value]| > 0
                        && TableauAccepts(b.tableaus[r.value], c)
    ensures r.Some? ==> forall i :: 0 <= i < r.value && source != Tableau(i) && |b.tableaus[i]| > 0 ==>
      !TableauAccepts(b.tableaus[i], c)
    ensures r.None? ==> forall i :: 0 <= i < 7 && source != Tableau(i) && |b.tableaus[i]| > 0 ==>
      !TableauAccepts(b.tableaus[i], c)
  {
    var i := 0;
    while i < 7
      invariant 0 <= i <= 7
      invariant forall i' :: 0 <= i' < i && source != Tableau(i') && |b.tableaus[i']| > 0 ==>
        !TableauAccepts(b.tableaus[i'], c)
    {
      if source != Tableau(i) && |b.tableaus[i]| > 0 && TableauAccepts(b.tableaus[i], c) {
        return Some(i);
      }
      i := i + 1;
    }
    return None;
  }

  /** No foundation takes the cards when there are several, or when no other foundation takes the one card. */
  lemma NoAutoFoundation(b: Board, cards: seq<Card>, source: Loc)
    requires Shaped(b) && |cards| > 0
    requires |cards| == 1 ==>
      forall j :: 0 <= j < 4 && source != Foundation(j) ==> !FoundationAccepts(b.foundations[j], cards[0])
    ensures forall i :: !AutoFoundation(b, cards, source, i)
  {
  }

  /** No empty tableau takes the cards unless they start with a King and another tableau is empty. */
  lemma NoAutoEmptyTableau(b: Board, cards: seq<Card>, source: Loc)
    requires Shaped(b) && |cards| > 0
    requires IsKing(cards[0]) ==> forall i :: 0 <= i < 7 && source != Tableau(i) ==> |b.tableaus[i]| > 0
    ensures forall i :: !AutoEmptyTableau(b, cards, source, i)
  {
  }

  /** Every accepted destination is a legal move away from the source. */
  lemma AutoTargetIsValidMove(b: Board, cards: seq<Card>, source: Loc, target: Loc)
    requires Shaped(b) && |cards| > 0 && IsAutoTarget(b, cards, source, target)
    ensures LocOk(target) && target != source && IsValidMove(b, cards, source, target)
  {
  }

  /** The first foundation taking a single card comes first of all destinations. */
  lemma AutoFoundationFirst(b: Board, cards: seq<Card>, source: Loc, i: int)
    requires Shaped(b) && |cards| > 0
    requires forall i' :: 0 <= i' < i ==> !AutoFoundation(b, cards, source, i')
    ensures forall l :: IsAutoTarget(b, cards, source, l) ==>
      !Before(AutoKey(b, cards, source, l), Key(1, 0, 0, i))
  {
  }

  /** With no foundation taking the cards, the first empty tableau for a King comes first. */
  lemma AutoEmptyTableauFirst(b: Board, cards: seq<Card>, source: Loc, i: int)
    requires Shaped(b) && |cards| > 0
    requires forall i' :: !AutoFoundation(b, cards, source, i')
    requires forall i' :: 0 <= i' < i ==> !AutoEmptyTableau(b, cards, source, i')
    ensures forall l :: IsAutoTarget(b, cards, source, l) ==>
      !Before(AutoKey(b, cards, source, l), Key(2, 0, 0, i))
  {
    forall l | IsAutoTarget(b, cards, source, l) ensures !Before(AutoKey(b, cards, source, l), Key(2, 0, 0, i)) {
      if l.Tableau? && |b.tableaus[l.index]| == 0 {
        assert AutoEmptyTableau(b, cards, source, l.index);
      }
    }
  }

  /** With no foundation and no empty tableau, the first tableau whose top takes the cards comes first. */
  lemma AutoStackFirst(b: Board, cards: seq<Card>, source: Loc, i: int)
    requires Shaped(b) && |cards| > 0
    requires forall i' :: !AutoFoundation(b, cards, source, i')
    requires forall i' :: !AutoEmptyTableau(b, cards, source, i')
    requires forall i' :: 0 <= i' < i ==> !AutoStack(b, cards, source, i')
    ensures forall l :: IsAutoTarget(b, cards, source, l) ==>
      !Before(AutoKey(b, cards, source, l), Key(3, 0, 0, i))
  {
    forall l | IsAutoTarget(b, cards, source, l) ensures !Before(AutoKey(b, cards, source, l), Key(3, 0, 0, i)) {
      if l.Tableau? {
        assert AutoStack(b, cards, source, l.index);
      }
    }
  }

  /**
   * The destination `tryAutoMove` picks for `cards` taken from `source`:
   * a foundation for a single card, else an empty tableau for a King,
   * else the first tableau whose top takes the first card. The chosen
   * destination always passes `isValidMove` and is never the source.
   */
  method ChooseAutoTarget(b: Board, cards: seq<Card>, source: Loc) returns (r: Option<Loc>)
    requires Shaped(b) && |cards| > 0
    ensures r.Some? ==> IsAutoTarget(b, cards, source, r.value)
    ensures r.Some? ==> forall l :: IsAutoTarget(b, cards, source, l) ==>
      !Before(AutoKey(b, cards, source, l), AutoKey(b, cards, source, r.value))
    ensures r.None? ==> forall l :: !IsAutoTarget(b, cards, source, l)
    ensures r.Some? ==> LocOk(r.value) && r.value != source && IsValidMove(b, cards, source, r.value)
  {
    if |cards| == 1 {
      var f := FirstFoundationFor(b, cards[0], source);
      if f.Some? {
        AutoFoundationFirst(b, cards, source, f.value);
        AutoTargetIsValidMove(b, cards, source, Foundation(f.value));
        return Some(Foundation(f.value));
      }
    }
    NoAutoFoundation(b, cards, source);
    if IsKing(cards[0]) {
      var e := FirstEmptyTableau(b, source);
      if e.Some? {
        AutoEmptyTableauFirst(b, cards, source, e.value);
        AutoTargetIsValidMove(b, cards, source, Tableau(e.value));
        return Some(Tableau(e.value));
      }
    }
    NoAutoEmptyTableau(b, cards, source);
    var s := FirstStackFor(b, cards[0], source);
    if s.Some? {
      AutoStackFirst(b, cards, source, s.value);
      AutoTargetIsValidMove(b, cards, source, Tableau(s.value));
      return Some(Tableau(s.value));
    }
    return None;
  }

  /** A move `autoCompleteStep` accepts: a face-up tableau top or the waste top, onto a foundation. */
  predicate IsAutoCompleteMove(b: Board, h: Hint)
    requires Shaped(b)
  {
    IsHint(b, h) && h.target.Foundation?
  }

  /** Where `autoCompleteStep` meets an accepted move: tableaus first, then the waste. */
  function AutoCompleteKey(b: Board, h: Hint): Key
    requires Shaped(b) && IsAutoCompleteMove(b, h)
  {
    match h.source
    case Tableau(i) => Key(1, i, 0, h.target.index)
    case Waste => Key(2, 0, 0, h.target.index)
  }

  /**
   * The search of `autoCompleteStep`: the first face-up tableau top, by
   * column, that some foundation takes, else the waste top; `None` ends
   * the auto-complete.
   */
  method ChooseAutoCompleteMove(b: Board) returns (r: Option<Hint>)
    requires Shaped(b)
    ensures r.Some? ==> IsAutoCompleteMove(b, r.value)
    ensures r.Some? ==> forall h :: IsAutoCompleteMove(b, h) ==>
      !Before(AutoCompleteKey(b, h), AutoCompleteKey(b, r.value))
    ensures r.None? ==> forall h :: !IsAutoCompleteMove(b, h)
  {
    var tf := FirstTableauToFoundation(b);
    if tf.Some? {
      var (i, j) := tf.value;
      r := Some(Hint(Tableau(i), [Top(b.tableaus[i])], Foundation(j)));
      forall h | IsAutoCompleteMove(b, h) ensures !Before(AutoCompleteKey(b, h), AutoCompleteKey(b, r.value)) {
        if h.source.Tableau? {
          assert TableauToFoundation(b, h.source.index, h.target.index);
        }
      }
      return;
    }
    if |b.waste| > 0 {
      var w := FirstFoundationFor(b, Top(b.waste), Waste);
      if w.Some? {
        r := Some(Hint(Waste, [Top(b.waste)], Foundation(w.value)));
        forall h | IsAutoCompleteMove(b, h) ensures !Before(AutoCompleteKey(b, h), AutoCompleteKey(b, r.value)) {
          if h.source == Waste {
            assert WasteToFoundation(b, h.target.index);
          }
        }
        return;
      }
    }
    r := None;
    forall h | IsAutoCompleteMove(b, h) ensures false {
      HintPhaseOf(b, h);
    }
  }
}
