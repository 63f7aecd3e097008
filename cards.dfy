/** The cards of the memory game and the deck they are dealt from. */
module Cards {

  /** One entry of the card list a game is set up with: the pairing label and the image shown. */
  datatype CardData = CardData(name: string, img: string)

  /** A single tile. Its label and image are fixed at construction; only the face-up flag changes. */
  class Card {
    const name: string
    const img: string
    var isFlipped: bool

    constructor (name: string, img: string)
      ensures this.name == name && this.img == img
      ensures !isFlipped
    {
      this.name := name;
      this.img := img;
      isFlipped := false;
    }

    /** Turns the card over; the label and the image stay as they are (both are constants). */
    method ToggleFlip()
      modifies this
      ensures isFlipped == !old(isFlipped)
    {
      if isFlipped {
        isFlipped := false;
      } else {
        isFlipped := true;
      }
    }

    /**
     * Two cards form a pair when their labels are equal, whatever their images; so a card selected
     * twice pairs with itself.
     */
    predicate Matches(other: Card)
      ensures other == this ==> Matches(other)
      ensures other.name != name ==> !Matches(other)
    {
      name == other.name
    }
  }

  /** Matching depends on the labels alone, so it is reflexive and symmetric. */
  lemma MatchesIsLabelEquality(a: Card, b: Card)
    ensures a.Matches(b) <==> a.name == b.name
    ensures a.Matches(b) <==> b.Matches(a)
    ensures a.Matches(a)
  {
  }

  /** The card list the game ships with: six pairwise different languages. */
  function Languages(): (list: seq<CardData>)
    ensures |list| == 6 && Distinct(list)
  {
    [
      CardData("Python", "./img/Python.svg"),
      CardData("JavaScript", "./img/JS.svg"),
      CardData("Java", "./img/Java.svg"),
      CardData("CSharp", "./img/CSharp.svg"),
      CardData("Go", "./img/Go.svg"),
      CardData("Ruby", "./img/Ruby.svg")
    ]
  }

  /** The deck dealt from a card list: every entry twice, side by side, in list order. */
  function Duplicated(data: seq<CardData>): (deck: seq<CardData>)
    ensures |deck| == 2 * |data|
    ensures forall k :: 0 <= k < |deck| ==> deck[k] == data[k / 2]
  {
    if data == [] then [] else [data[0], data[0]] + Duplicated(data[1..])
  }

  /** Every entry occurs in the deck exactly twice as often as in the list. */
  lemma {:induction false} DuplicatedCounts(data: seq<CardData>)
    ensures multiset(Duplicated(data)) == multiset(data) + multiset(data)
  {
    if data != [] {
      var rest := data[1..];
      DuplicatedCounts(rest);
      assert data == [data[0]] + rest;
      assert Duplicated(data) == [data[0], data[0]] + Duplicated(rest);
    }
  }

  /** No entry of the list occurs twice in it. */
  predicate Distinct(data: seq<CardData>)
  {
    forall i, j :: 0 <= i < j < |data| ==> data[i] != data[j]
  }

  /** An entry of a list without repetitions occurs in it exactly once. */
  lemma {:induction false} DistinctOnce(data: seq<CardData>, d: CardData)
    requires Distinct(data) && d in data
    ensures multiset(data)[d] == 1
  {
    assert data == [data[0]] + data[1..];
    if data[0] == d {
      assert d !in data[1..];
    } else {
      DistinctOnce(data[1..], d);
    }
  }

  /** The shipped deck has twelve cards and holds each language exactly twice. */
  lemma LanguagesDeck()
    ensures |Duplicated(Languages())| == 12
    ensures forall d | d in Languages() :: multiset(Duplicated(Languages()))[d] == 2
  {
    forall d | d in Languages()
      ensures multiset(Duplicated(Languages()))[d] == 2
    {
      TwiceInDeck(Languages(), d);
    }
  }

  /** In the deck of a list without repetitions, each entry of the list occurs exactly twice. */
  lemma TwiceInDeck(data: seq<CardData>, d: CardData)
    requires Distinct(data) && d in data
    ensures multiset(Duplicated(data))[d] == 2
  {
    DuplicatedCounts(data);
    DistinctOnce(data, d);
  }
}
