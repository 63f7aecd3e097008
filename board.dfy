/** The board: the deck laid out in a grid, its shuffle and its reset. */
module Boards {
  import opened Cards

  /**
   * The random indices a shuffle draws. At loop index i the shuffle swaps position i with
   * position picks[i], which the random source always draws from [0, i]; picks[0] is never used.
   */
  predicate ValidPicks(picks: seq<nat>, n: nat)
  {
    |picks| == n && forall i :: 0 < i < n ==> picks[i] <= i
  }

  /** The sequence with the elements at positions i and j exchanged. */
  function Swap<T>(s: seq<T>, i: nat, j: nat): (r: seq<T>)
    requires i < |s| && j < |s|
    ensures |r| == |s|
  {
    s[i := s[j]][j := s[i]]
  }

  /** Exchanging two elements keeps the multiset of elements. */
  lemma SwapPermutes<T>(s: seq<T>, i: nat, j: nat)
    requires i < |s| && j < |s|
    ensures multiset(Swap(s, i, j)) == multiset(s)
  {
  }

  /** The steps of the Fisher-Yates shuffle from loop index i down to 1, applied to s. */
  function ShuffleDown<T>(s: seq<T>, picks: seq<nat>, i: nat): (r: seq<T>)
    requires ValidPicks(picks, |s|) && i < |s|
    ensures |r| == |s|
    decreases i
  {
    if i == 0 then s else ShuffleDown(Swap(s, i, picks[i]), picks, i - 1)
  }

  /** The order a Fisher-Yates shuffle with the given draws puts s in. */
  function Shuffled<T>(s: seq<T>, picks: seq<nat>): (r: seq<T>)
    requires ValidPicks(picks, |s|)
    ensures |r| == |s|
    ensures |s| <= 1 ==> r == s
  {
    if |s| == 0 then s else ShuffleDown(s, picks, |s| - 1)
  }

  /** Each step of the shuffle only exchanges two elements, so the steps together permute s. */
  lemma {:induction false} ShuffleDownPermutes<T>(s: seq<T>, picks: seq<nat>, i: nat)
    requires ValidPicks(picks, |s|) && i < |s|
    ensures multiset(ShuffleDown(s, picks, i)) == multiset(s)
    decreases i
  {
    if i > 0 {
      var t := Swap(s, i, picks[i]);
      assert ShuffleDown(s, picks, i) == ShuffleDown(t, picks, i - 1);
      ShuffleDownPermutes(t, picks, i - 1);
      SwapPermutes(s, i, picks[i]);
    }
  }

  /** A shuffle keeps the length and reorders the elements: the result is a permutation of s. */
  lemma ShufflePermutes<T>(s: seq<T>, picks: seq<nat>)
    requires ValidPicks(picks, |s|)
    ensures |Shuffled(s, picks)| == |s|
    ensures multiset(Shuffled(s, picks)) == multiset(s)
  {
    if |s| > 0 {
      ShuffleDownPermutes(s, picks, |s| - 1);
    }
  }

  /** The cards of a game, laid out in order; the array itself is never replaced. */
  class Board {
    const cards: array<Card>

    constructor (cards: array<Card>)
      ensures this.cards == cards
    {
      this.cards := cards;
    }

    /** The cards currently on the board, as a set of objects. */
    ghost function CardSet(): set<Card>
      reads cards
    {
      set k | 0 <= k < cards.Length :: cards[k]
    }

    /**
     * The grid width: half the number of cards, clamped to [2, 12], made even by going one down,
     * except that 11 goes up to 12.
     */
    function CalculateColumns(): (columns: nat)
      ensures 2 <= columns <= 12 && columns % 2 == 0
      ensures var half := Clamp(cards.Length / 2, 2, 12);
        half - 1 <= columns <= half + 1 && (columns > half <==> half == 11)
    {
      var half := Clamp(cards.Length / 2, 2, 12);
      if half % 2 != 0 then (if half == 11 then 12 else half - 1) else half
    }

    /** Fisher-Yates shuffle in place: the draw for loop index i is picks[i]. Returns the same array. */
    method ShuffleCards(picks: seq<nat>) returns (r: array<Card>)
      requires ValidPicks(picks, cards.Length)
      modifies cards
      ensures r == cards
      ensures cards[..] == Shuffled(old(cards[..]), picks)
      ensures multiset(cards[..]) == multiset(old(cards[..]))
    {
      var i := cards.Length - 1;
      while i > 0
        invariant -1 <= i < cards.Length
        invariant cards.Length > 0 ==> 0 <= i && ShuffleDown(cards[..], picks, i) == Shuffled(old(cards[..]), picks)
      {
        var j := picks[i];
        ghost var before := cards[..];
        assert ShuffleDown(before, picks, i) == ShuffleDown(Swap(before, i, j), picks, i - 1);
        SwapCards(i, j);
        i := i - 1;
      }
      ghost var initial := old(cards[..]);
      ghost var final := cards[..];
      assert |final| > 0 ==> ShuffleDown(final, picks, 0) == final;
      assert final == Shuffled(initial, picks);
      ShufflePermutes(initial, picks);
      r := cards;
    }

    /** Exchanges the cards at positions i and j (the destructuring assignment of the shuffle loop). */
    method SwapCards(i: nat, j: nat)
      requires i < cards.Length && j < cards.Length
      modifies cards
      ensures cards[..] == Swap(old(cards[..]), i, j)
    {
      var t := cards[i];
      cards[i] := cards[j];
      cards[j] := t;
    }

    /** Forces every card face-down, whatever its state: each card is marked face-up and then toggled. */
    method FlipDownAllCards()
      modifies CardSet()
      ensures cards[..] == old(cards[..])
      ensures forall c | c in cards[..] :: !c.isFlipped
    {
      var k := 0;
      while k < cards.Length
        invariant 0 <= k <= cards.Length
        invariant forall m :: 0 <= m < k ==> !cards[m].isFlipped
      {
        cards[k].isFlipped := true;
        cards[k].ToggleFlip();
        k := k + 1;
      }
    }

    /** Turns every card face-down, then shuffles the deck with the given draws. */
    method Reset(picks: seq<nat>)
      requires ValidPicks(picks, cards.Length)
      modifies cards, CardSet()
      ensures cards[..] == Shuffled(old(cards[..]), picks)
      ensures multiset(cards[..]) == multiset(old(cards[..]))
      ensures forall c | c in cards[..] :: !c.isFlipped
    {
      FlipDownAllCards();
      ghost var faceDown := cards[..];
      var _ := ShuffleCards(picks);
      forall c | c in cards[..]
        ensures !c.isFlipped
      {
        assert c in multiset(faceDown);
      }
    }
  }

  /** x limited to the range [lo, hi]. */
  function Clamp(x: int, lo: int, hi: int): (r: int)
    requires lo <= hi
    ensures lo <= r <= hi
    ensures lo <= x <= hi ==> r == x
  {
    if x < lo then lo else if x > hi then hi else x
  }

  /** Grid widths for some deck sizes: 4, 6, 8, 12, 22 and 24 cards give 2, 2, 4, 6, 12 and 12 columns. */
  lemma ColumnsExamples(b: Board)
    ensures b.cards.Length == 4 ==> b.CalculateColumns() == 2
    ensures b.cards.Length == 6 ==> b.CalculateColumns() == 2
    ensures b.cards.Length == 8 ==> b.CalculateColumns() == 4
    ensures b.cards.Length == 12 ==> b.CalculateColumns() == 6
    ensures b.cards.Length == 22 ==> b.CalculateColumns() == 12
    ensures b.cards.Length == 24 ==> b.CalculateColumns() == 12
  {
  }

  /** More cards never give a narrower grid. */
  lemma ColumnsMonotone(a: Board, b: Board)
    requires a.cards.Length <= b.cards.Length
    ensures a.CalculateColumns() <= b.CalculateColumns()
  {
  }
}
