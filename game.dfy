/** The turn state machine of the memory game: selection, pair resolution, scoring, clock, reset. */
module Game {
  import opened Cards
  import opened Boards

  /** Accepted range for the reveal delay, in milliseconds, and the value an invalid one is replaced by. */
  const MinFlipDuration: int := 350
  const MaxFlipDuration: int := 3000
  const FallbackFlipDuration: int := 350

  /** The point pool a game starts with. */
  const PointCeiling: int := 10000

  /** The number of matched cards at which the game counts as finished (a literal, not the deck size). */
  const CompletedCards: int := 12

  /** The reveal delay a game keeps: in-range values unchanged, anything else replaced by the fallback. */
  function CheckedFlipDuration(flipDuration: int): (d: int)
    ensures MinFlipDuration <= d <= MaxFlipDuration
    ensures MinFlipDuration <= flipDuration <= MaxFlipDuration ==> d == flipDuration
    ensures flipDuration < MinFlipDuration || MaxFlipDuration < flipDuration ==> d == FallbackFlipDuration
  {
    if flipDuration < MinFlipDuration || flipDuration > MaxFlipDuration then FallbackFlipDuration else flipDuration
  }

  /**
   * The point pool after a match, charged ten points per second per earlier attempt: it never
   * grows, and it is untouched on the first attempt or at time zero.
   */
  function Pool(maxPoints: int, time: nat, count: nat): (pool: int)
    ensures pool <= maxPoints
    ensures count == 0 || time == 0 ==> pool == maxPoints
  {
    assert time * count >= 0;
    maxPoints - time * count * 10
  }

  /** What a match adds to the score: the pool while it is positive, nothing once it is used up. */
  function Gain(pool: int): (g: nat)
    ensures pool <= g
    ensures g == pool || g == 0
  {
    if pool > 0 then pool else 0
  }

  /** A match never adds more than the old pool when that is positive, and nothing when it is not. */
  lemma ScoringBounds(maxPoints: int, time: nat, count: nat)
    ensures Gain(Pool(maxPoints, time, count)) <= Gain(maxPoints)
    ensures maxPoints <= 0 ==> Gain(Pool(maxPoints, time, count)) == 0
  {
  }

  class MemoryGame {
    const board: Board
    const flipDuration: int
    /** The cards turned up and waiting for resolution, in the order they were selected. */
    var flippedCards: seq<Card>
    /** The cards found in pairs, two by two. */
    var matchedCards: seq<Card>
    /** Resolved attempts. */
    var count: nat
    var points: nat
    var maxPoints: int
    /** Elapsed seconds. */
    var time: nat
    /** Whether the one-second clock is running. */
    var running: bool

    /** What every operation keeps. */
    ghost predicate Valid()
      reads this
    {
      |flippedCards| <= 2 &&
      MinFlipDuration <= flipDuration <= MaxFlipDuration &&
      maxPoints <= PointCeiling &&
      2 * points <= PointCeiling * |matchedCards|
    }

    /**
     * The state holds together with the cards: the pending and matched cards are board cards and
     * disjoint, the two pending cards are different, and a board card is face-up exactly when it
     * is pending or matched.
     */
    ghost predicate Consistent()
      reads this, board.cards, board.CardSet()
    {
      (forall c | c in flippedCards :: c in board.cards[..] && c !in matchedCards) &&
      (forall c | c in matchedCards :: c in board.cards[..]) &&
      (|flippedCards| == 2 ==> flippedCards[0] != flippedCards[1]) &&
      (forall k :: 0 <= k < board.cards.Length ==>
        (board.cards[k].isFlipped <==> board.cards[k] in flippedCards || board.cards[k] in matchedCards))
    }

    /**
     * Under Consistent(), pending and matched cards are face-up; so a matched card can never be
     * selected again, since a click is only accepted on a face-down card.
     */
    lemma FaceUpWhenPendingOrMatched(c: Card)
      requires Consistent() && (c in flippedCards || c in matchedCards)
      ensures c.isFlipped
    {
      assert c in board.cards[..];
      var k :| 0 <= k < |board.cards[..]| && board.cards[..][k] == c;
      assert board.cards[k] == c;
    }

    /**
     * A new game over the board: the delay is validated, the board is reset (all cards face-down,
     * shuffled with the given draws), and the counters start from zero with a full pool.
     */
    constructor (board: Board, flipDuration: int, picks: seq<nat>)
      requires ValidPicks(picks, board.cards.Length)
      modifies board.cards, board.CardSet()
      ensures this.board == board
      ensures this.flipDuration == CheckedFlipDuration(flipDuration)
      ensures board.cards[..] == Shuffled(old(board.cards[..]), picks)
      ensures multiset(board.cards[..]) == multiset(old(board.cards[..]))
      ensures forall c | c in board.cards[..] :: !c.isFlipped
      ensures flippedCards == [] && matchedCards == []
      ensures count == 0 && points == 0 && maxPoints == PointCeiling && time == 0 && !running
      ensures Valid() && Consistent()
    {
      this.board := board;
      flippedCards := [];
      matchedCards := [];
      this.flipDuration := CheckedFlipDuration(flipDuration);
      count := 0;
      points := 0;
      maxPoints := PointCeiling;
      time := 0;
      running := false;
      new;
      board.Reset(picks);
    }

    /**
     * A click on a card: accepted only while fewer than two cards are pending and the card is
     * face-down; then the card is turned up and appended. Returns whether the pair is now due
     * for resolution (where the game schedules CheckForMatch after flipDuration).
     */
    method HandleCardClick(card: Card) returns (checkDue: bool)
      requires Valid()
      modifies this, card
      ensures Valid()
      ensures old(|flippedCards| < 2 && !card.isFlipped) ==>
        card.isFlipped && flippedCards == old(flippedCards) + [card]
      ensures !old(|flippedCards| < 2 && !card.isFlipped) ==> unchanged(this, card)
      ensures checkDue <==> old(|flippedCards| < 2 && !card.isFlipped) && |flippedCards| == 2
      ensures matchedCards == old(matchedCards) && count == old(count) && points == old(points)
      ensures maxPoints == old(maxPoints) && time == old(time) && running == old(running)
      ensures old(Consistent()) && card in board.cards[..] ==> Consistent()
    {
      checkDue := false;
      if |flippedCards| < 2 && !card.isFlipped {
        card.ToggleFlip();
        flippedCards := flippedCards + [card];
        if |flippedCards| == 2 {
          checkDue := true;
        }
      }
    }

    /**
     * Resolves the two pending cards. A pair is scored and moved to the matched cards; reaching
     * twelve matched cards stops the clock and refills the pool. Two different cards are turned
     * back. Either way the pending cards are cleared and the attempt is counted.
     */
    method CheckForMatch()
      requires Valid() && |flippedCards| == 2
      modifies this, flippedCards[0], flippedCards[1]
      ensures Valid()
      ensures flippedCards == [] && count == old(count) + 1 && time == old(time)
      ensures points >= old(points)
      ensures old(flippedCards[0].Matches(flippedCards[1])) ==>
        matchedCards == old(matchedCards + flippedCards) &&
        points == old(points) + Gain(Pool(old(maxPoints), old(time), old(count))) &&
        old(flippedCards)[0].isFlipped == old(flippedCards[0].isFlipped) &&
        old(flippedCards)[1].isFlipped == old(flippedCards[1].isFlipped)
      ensures old(flippedCards[0].Matches(flippedCards[1])) && |matchedCards| == CompletedCards ==>
        maxPoints == PointCeiling && !running
      ensures old(flippedCards[0].Matches(flippedCards[1])) && |matchedCards| != CompletedCards ==>
        maxPoints == Pool(old(maxPoints), old(time), old(count)) && running == old(running)
      ensures !old(flippedCards[0].Matches(flippedCards[1])) ==>
        matchedCards == old(matchedCards) && points == old(points) &&
        maxPoints == old(maxPoints) && running == old(running) &&
        old(flippedCards)[0].isFlipped == !old(flippedCards[0].isFlipped) &&
        old(flippedCards)[1].isFlipped == !old(flippedCards[1].isFlipped)
      ensures old(Consistent()) ==> Consistent()
      ensures old(Consistent()) && !old(flippedCards[0].Matches(flippedCards[1])) ==>
        !old(flippedCards)[0].isFlipped && !old(flippedCards)[1].isFlipped
    {
      var cards := flippedCards;
      if Consistent() {
        FaceUpWhenPendingOrMatched(cards[0]);
        FaceUpWhenPendingOrMatched(cards[1]);
      }
      if cards[0].Matches(cards[1]) {
        PointsEarned();
        matchedCards := matchedCards + [cards[0]];
        matchedCards := matchedCards + [cards[1]];
        if |matchedCards| == CompletedCards {
          StopTime();
          maxPoints := PointCeiling;
        }
      } else {
        cards[0].ToggleFlip();
        cards[1].ToggleFlip();
      }
      flippedCards := [];
      count := count + 1;
    }

    /** One tick of the clock. */
    method Tick()
      modifies this
      ensures time == old(time) + 1
      ensures flippedCards == old(flippedCards) && matchedCards == old(matchedCards) && count == old(count)
      ensures points == old(points) && maxPoints == old(maxPoints) && running == old(running)
    {
      time := time + 1;
    }

    /** Starts the clock. */
    method StartTime()
      modifies this
      ensures running
      ensures flippedCards == old(flippedCards) && matchedCards == old(matchedCards) && count == old(count)
      ensures points == old(points) && maxPoints == old(maxPoints) && time == old(time)
    {
      running := true;
    }

    /** Stops the clock; stopping a stopped clock changes nothing. */
    method StopTime()
      modifies this
      ensures !running
      ensures flippedCards == old(flippedCards) && matchedCards == old(matchedCards) && count == old(count)
      ensures points == old(points) && maxPoints == old(maxPoints) && time == old(time)
    {
      running := false;
    }

    /**
     * A new game on the same object: the board is reset with the given draws, the matched cards and
     * the counters are cleared and the clock is started. The pool and the pending cards are kept.
     */
    method ResetGame(picks: seq<nat>)
      requires Valid() && ValidPicks(picks, board.cards.Length)
      modifies this, board.cards, board.CardSet()
      ensures Valid()
      ensures board.cards[..] == Shuffled(old(board.cards[..]), picks)
      ensures multiset(board.cards[..]) == multiset(old(board.cards[..]))
      ensures forall c | c in board.cards[..] :: !c.isFlipped
      ensures matchedCards == [] && count == 0 && time == 0 && points == 0 && running
      ensures flippedCards == old(flippedCards) && maxPoints == old(maxPoints)
      ensures old(flippedCards) == [] ==> Consistent()
    {
      board.Reset(picks);
      matchedCards := [];
      count := 0;
      time := 0;
      points := 0;
      StartTime();
    }

    /**
     * Scoring for a match: the pool is charged time * count * 10, and the score grows by the new
     * pool only while it is positive.
     */
    method PointsEarned()
      modifies this
      ensures maxPoints == Pool(old(maxPoints), old(time), old(count))
      ensures points == old(points) + Gain(maxPoints)
      ensures maxPoints <= old(maxPoints) && points >= old(points)
      ensures flippedCards == old(flippedCards) && matchedCards == old(matchedCards) && count == old(count)
      ensures time == old(time) && running == old(running)
    {
      maxPoints := maxPoints - time * count * 10;
      if maxPoints > 0 {
        points := points + maxPoints;
      }
    }
  }
}
