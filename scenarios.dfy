/** Client scenarios of the game, proved from the contracts alone, whatever the shuffle draws. */
module Scenarios {
  import opened Cards
  import opened Boards
  import opened Game

  /** A fresh game: nothing pending or matched, no attempts, no points, a full pool, the clock at zero. */
  ghost predicate FreshGame(game: MemoryGame)
    reads game
  {
    game.Valid() && game.flippedCards == [] && game.matchedCards == [] &&
    game.count == 0 && game.points == 0 && game.maxPoints == PointCeiling && game.time == 0
  }

  /** Deals the two pairs "A" and "B", builds a game over them, starts its clock and plays TwoPairs. */
  method DealTwoPairs(picks: seq<nat>)
    requires ValidPicks(picks, 4)
  {
    var a1 := new Card("A", "a.svg");
    var a2 := new Card("A", "a.svg");
    var b1 := new Card("B", "b.svg");
    var b2 := new Card("B", "b.svg");
    var cards := new Card[4] [a1, a2, b1, b2];
    var board := new Board(cards);
    ghost var dealt := cards[..];
    assert dealt == [a1, a2, b1, b2];
    var game := new MemoryGame(board, 350, picks);
    assert a1 in multiset(dealt) && a2 in multiset(dealt) && b1 in multiset(dealt) && b2 in multiset(dealt);
    assert game.flipDuration == 350;
    game.StartTime();
    TwoPairs(game, a1, a2, b1, b2);
  }

  /** Deals one "A" and one "B" card, builds a game with an out-of-range delay and plays Mismatch. */
  method DealMismatch(picks: seq<nat>)
    requires ValidPicks(picks, 2)
  {
    var a := new Card("A", "a.svg");
    var b := new Card("B", "b.svg");
    var cards := new Card[2] [a, b];
    var board := new Board(cards);
    ghost var dealt := cards[..];
    assert dealt == [a, b];
    var game := new MemoryGame(board, 5000, picks);
    assert game.flipDuration == 350;
    assert a in multiset(dealt) && b in multiset(dealt);
    Mismatch(game, a, b);
  }

  /**
   * The first pair is found on the first attempt and earns the whole pool; a third click while two
   * cards are pending is ignored, and so is a click on a matched card. The second pair, one second
   * later, earns the pool less 1 * 1 * 10. With four cards the game never reaches the twelve matched
   * cards that finish it, so the clock keeps running.
   */
  method TwoPairs(game: MemoryGame, a1: Card, a2: Card, b1: Card, b2: Card)
    requires FreshGame(game) && game.running
    requires a1.name == "A" && a2.name == "A" && b1.name == "B" && b2.name == "B"
    requires a1 != a2 && b1 != b2
    requires !a1.isFlipped && !a2.isFlipped && !b1.isFlipped && !b2.isFlipped
    modifies game, a1, a2, b1, b2
  {
    var due := game.HandleCardClick(a1);
    assert !due;
    due := game.HandleCardClick(a2);
    assert due && game.flippedCards == [a1, a2];
    due := game.HandleCardClick(b1);
    assert !due && game.flippedCards == [a1, a2] && !b1.isFlipped;

    game.CheckForMatch();
    assert game.matchedCards == [a1, a2] && game.count == 1 && game.points == PointCeiling;
    assert a1.isFlipped && a2.isFlipped && game.flippedCards == [];
    SecondPair(game, a1, a2, b1, b2);
  }

  /** The second half of TwoPairs. */
  method SecondPair(game: MemoryGame, a1: Card, a2: Card, b1: Card, b2: Card)
    requires game.Valid() && game.flippedCards == [] && game.matchedCards == [a1, a2]
    requires game.count == 1 && game.points == PointCeiling && game.maxPoints == PointCeiling && game.time == 0
    requires game.running
    requires b1.name == "B" && b2.name == "B" && b1 != b2
    requires a1.isFlipped && !b1.isFlipped && !b2.isFlipped
    modifies game, a1, a2, b1, b2
  {
    var due := game.HandleCardClick(a1);
    assert !due && game.flippedCards == [];
    due := game.HandleCardClick(b1);
    due := game.HandleCardClick(b2);
    assert due;
    game.Tick();
    game.CheckForMatch();
    assert game.count == 2 && game.matchedCards == [a1, a2, b1, b2];
    assert game.maxPoints == PointCeiling - 1 * 1 * 10 && game.points == PointCeiling + 9990;
    assert game.running;
  }

  /** A mismatch: both cards go back face-down, nothing is matched, and the attempt is counted. */
  method Mismatch(game: MemoryGame, a: Card, b: Card)
    requires FreshGame(game)
    requires a.name == "A" && b.name == "B" && !a.isFlipped && !b.isFlipped
    modifies game, a, b
  {
    var due := game.HandleCardClick(a);
    due := game.HandleCardClick(b);
    assert due;
    game.CheckForMatch();
    assert !a.isFlipped && !b.isFlipped;
    assert game.matchedCards == [] && game.count == 1 && game.points == 0;
  }

  /**
   * A reset while one card is pending keeps it pending although it is face-down again, so the same
   * card can be selected a second time and is then scored as a pair with itself.
   */
  method ResetWithPendingCard(picks: seq<nat>, again: seq<nat>)
    requires ValidPicks(picks, 2) && ValidPicks(again, 2)
  {
    var a1 := new Card("A", "a.svg");
    var a2 := new Card("A", "a.svg");
    var cards := new Card[2] [a1, a2];
    var board := new Board(cards);
    ghost var dealt := cards[..];
    assert dealt == [a1, a2];
    var game := new MemoryGame(board, 1000, picks);
    assert a1 in multiset(dealt);

    var due := game.HandleCardClick(a1);
    ghost var before := cards[..];
    assert a1 in before;
    game.ResetGame(again);
    assert a1 in multiset(before);
    SelectTwice(game, a1);
  }

  /** The second half of ResetWithPendingCard. */
  method SelectTwice(game: MemoryGame, a: Card)
    requires game.Valid() && game.flippedCards == [a] && !a.isFlipped
    requires game.matchedCards == [] && game.points == 0 && game.count == 0 && game.maxPoints == PointCeiling
    modifies game, a
  {
    var due := game.HandleCardClick(a);
    assert due && game.flippedCards == [a, a];
    game.CheckForMatch();
    assert game.matchedCards == [a, a] && game.points == PointCeiling;
  }
}
