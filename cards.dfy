/**
 * Cards as built by `initGame`: a suit, a numeric value 1..13 (`numValue`),
 * the label `value` derived from it, a colour derived from the suit, and the
 * one mutable attribute `faceUp`.
 */
module Cards {

  datatype Suit = Hearts | Diamonds | Clubs | Spades

  datatype CardColor = Red | Black

  /** `numValue`: the index into the label table plus one. */
  type Rank = r: int | 1 <= r <= 13 witness 1

  datatype Card = Card(suit: Suit, rank: Rank, faceUp: bool)

  /** The suit table, in the order the deck is built. */
  const Suits: seq<Suit> := [Hearts, Diamonds, Clubs, Spades]

  /** The label table; `value` of a card is `Labels[numValue - 1]`. */
  const Labels: seq<string> := ["A", "2", "3", "4", "5", "6", "7", "8", "9", "10", "J", "Q", "K"]

  function ColorOf(s: Suit): CardColor {
    if s == Hearts || s == Diamonds then Red else Black
  }

  function Color(c: Card): CardColor {
    ColorOf(c.suit)
  }

  /** The `value` string of a card. */
  function Value(c: Card): string {
    Labels[c.rank - 1]
  }

  /** `card.value === 'A'`. */
  predicate IsAce(c: Card) {
    Value(c) == "A"
  }

  /** `card.value === 'K'`. */
  predicate IsKing(c: Card) {
    Value(c) == "K"
  }

  /** The label comparisons the rules make agree with the numeric value. */
  lemma LabelsMatchRanks(c: Card)
    ensures IsAce(c) <==> c.rank == 1
    ensures IsKing(c) <==> c.rank == 13
  {
    assert Labels[0] == "A" && Labels[12] == "K";
    assert forall k :: 0 <= k < 13 && k != 0 ==> Labels[k] != "A";
    assert forall k :: 0 <= k < 12 ==> Labels[k] != "K";
  }

  /** Two cards carry the same label exactly when their numeric values agree. */
  lemma ValueDeterminesRank(a: Card, b: Card)
    ensures Value(a) == Value(b) <==> a.rank == b.rank
  {
    assert forall k, m :: 0 <= k < 13 && 0 <= m < 13 && k != m ==> Labels[k] != Labels[m];
  }

  /**
   * The identity of a card: what stays the same when it is flipped.
   * Two cards are the same card when suit and value match.
   */
  function Identity(c: Card): (id: Card)
    ensures !id.faceUp
    ensures id.suit == c.suit && id.rank == c.rank
  {
    c.(faceUp := false)
  }

  /** Matching by suit and `value`, as `undoMove` looks up the flipped card. */
  predicate SameCard(a: Card, b: Card) {
    a.suit == b.suit && Value(a) == Value(b)
  }

  lemma SameCardIsSameIdentity(a: Card, b: Card)
    ensures SameCard(a, b) <==> Identity(a) == Identity(b)
  {
    ValueDeterminesRank(a, b);
  }

  function IdSeq(s: seq<Card>): (r: seq<Card>)
    ensures |r| == |s|
    ensures forall k :: 0 <= k < |s| ==> r[k] == Identity(s[k])
  {
    seq(|s|, k requires 0 <= k < |s| => Identity(s[k]))
  }

  /** The multiset of card identities in a pile. */
  function Ids(s: seq<Card>): multiset<Card> {
    multiset(IdSeq(s))
  }

  lemma IdsAppend(s: seq<Card>, t: seq<Card>)
    ensures Ids(s + t) == Ids(s) + Ids(t)
  {
    assert IdSeq(s + t) == IdSeq(s) + IdSeq(t);
  }

  lemma IdsPrefix(s: seq<Card>, n: nat)
    requires n <= |s|
    ensures Ids(s) == Ids(s[..n]) + Ids(s[n..])
  {
    assert s == s[..n] + s[n..];
    IdsAppend(s[..n], s[n..]);
  }

  /** Flipping a card keeps the identities of its pile. */
  lemma IdsFlip(s: seq<Card>, k: nat, up: bool)
    requires k < |s|
    ensures Ids(s[k := s[k].(faceUp := up)]) == Ids(s)
  {
    assert IdSeq(s[k := s[k].(faceUp := up)]) == IdSeq(s);
  }

  /** A pile of face-down cards is its own identity sequence. */
  lemma IdsFaceDown(s: seq<Card>)
    requires forall k :: 0 <= k < |s| ==> !s[k].faceUp
    ensures Ids(s) == multiset(s)
  {
    assert IdSeq(s) == s;
  }

  /** No two cards of the pile are the same card. */
  predicate Distinct(s: seq<Card>) {
    forall k, m :: 0 <= k < m < |s| ==> Identity(s[k]) != Identity(s[m])
  }

  /** The identities held by a list of piles (the foundations or the tableaus). */
  function PilesIds(ps: seq<seq<Card>>): multiset<Card>
    decreases |ps|
  {
    if |ps| == 0 then multiset{} else PilesIds(ps[..|ps| - 1]) + Ids(ps[|ps| - 1])
  }

  /** Replacing one pile changes the identities of the list by that pile's difference. */
  lemma {:induction false} PilesIdsUpdate(ps: seq<seq<Card>>, i: nat, p: seq<Card>)
    requires i < |ps|
    ensures PilesIds(ps[i := p]) + Ids(ps[i]) == PilesIds(ps) + Ids(p)
    decreases |ps|
  {
    var n := |ps| - 1;
    if i == n {
      assert ps[i := p][..n] == ps[..n];
    } else {
      var q := ps[..n];
      UpdateThenPrefix(ps, i, p, n);
      PilesIdsUpdate(q, i, p);
      ReorderUnion(PilesIds(q[i := p]), Ids(ps[n]), Ids(ps[i]), PilesIds(q), Ids(p));
    }
  }

  /** Putting cards on one pile of a list adds exactly their identities to the list's. */
  lemma PilesIdsAppend(ps: seq<seq<Card>>, i: nat, cards: seq<Card>)
    requires i < |ps|
    ensures PilesIds(ps[i := ps[i] + cards]) == PilesIds(ps) + Ids(cards)
  {
    var a, c := PilesIds(ps[i := ps[i] + cards]), Ids(ps[i]);
    IdsAppend(ps[i], cards);
    PilesIdsUpdate(ps, i, ps[i] + cards);
    assert a + c == PilesIds(ps) + Ids(cards) + c;
    MultisetCancel(a, PilesIds(ps) + Ids(cards), c);
  }

  /** Updating a list and then cutting it after the update point commute. */
  lemma UpdateThenPrefix<T>(s: seq<T>, i: nat, x: T, n: nat)
    requires i < n < |s|
    ensures s[i := x][..n] == s[..n][i := x] && s[i := x][n] == s[n] && s[..n][i] == s[i]
  {
  }

  /** `a + c == e + d` survives adding `b` on both sides. */
  lemma ReorderUnion(a: multiset<Card>, b: multiset<Card>, c: multiset<Card>, e: multiset<Card>, d: multiset<Card>)
    requires a + c == e + d
    ensures a + b + c == e + b + d
  {
    assert forall x :: (a + b + c)[x] == (a + c)[x] + b[x] == (e + d)[x] + b[x] == (e + b + d)[x];
  }

  lemma {:induction false} PilesIdsOfEmpty(ps: seq<seq<Card>>)
    requires forall i :: 0 <= i < |ps| ==> ps[i] == []
    ensures PilesIds(ps) == multiset{}
    decreases |ps|
  {
    if |ps| > 0 {
      PilesIdsOfEmpty(ps[..|ps| - 1]);
      assert Ids(ps[|ps| - 1]) == multiset{};
    }
  }

  lemma MultisetCancel(a: multiset<Card>, b: multiset<Card>, c: multiset<Card>)
    requires a + c == b + c
    ensures a == b
  {
    assert forall x :: a[x] == (a + c)[x] - c[x] == (b + c)[x] - c[x] == b[x];
  }

  /** A pile has no card twice exactly when no identity occurs twice in its multiset. */
  lemma {:induction false} DistinctIds(s: seq<Card>)
    ensures Distinct(s) <==> forall x :: Ids(s)[x] <= 1
    decreases |s|
  {
    if |s| > 0 {
      var n := |s| - 1;
      var p, c := s[..n], Identity(s[n]);
      DistinctIds(p);
      IdsPrefix(s, n);
      assert s[n..] == [s[n]];
      assert Ids([s[n]]) == multiset{c};
      assert Ids(s) == Ids(p) + multiset{c};
      assert c in Ids(p) <==> exists k :: 0 <= k < n && Identity(s[k]) == c by {
        assert c in Ids(p) <==> c in IdSeq(p);
      }
      if Distinct(s) {
        assert Distinct(p);
        assert c !in Ids(p);
      }
      if forall x :: Ids(s)[x] <= 1 {
        assert Ids(s)[c] <= 1;
        assert c !in Ids(p);
        forall x ensures Ids(p)[x] <= 1 {
          assert Ids(s)[x] == Ids(p)[x] + multiset{c}[x];
        }
        assert Distinct(p);
      }
    }
  }
}
