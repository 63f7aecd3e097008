# Memory game engine — Dafny model

This project models the engine of a browser memory game (`ejercicio4/memory.js`). A deck holds
each card name twice. The deck is shuffled and dealt face-down. The player turns up two cards per
turn. A pair stays face-up and earns points. A non-pair is turned back after a short delay. The
game counts attempts and elapsed seconds.

The model follows the source's three classes:

- `Cards.Card` (cards.dfy) is a class. `name` and `img` are constants and `isFlipped` is the only
  mutable field, changed by `ToggleFlip`. `Matches` compares names. The pure deck construction
  (`flatMap` duplicating every entry of the card list) is the function `Duplicated` over the
  datatype `CardData`.
- `Boards.Board` (board.dfy) holds the card array (`array<Card>`). `CalculateColumns` is the grid
  width. `ShuffleCards` is the in-place Fisher–Yates loop, proved equal to the specification
  function `Shuffled` and a permutation of the old contents. `FlipDownAllCards` forces every card
  face-down, and `Reset` does both.
- `Game.MemoryGame` (game.dfy) is the turn state machine. It holds `flippedCards` and `matchedCards`
  (sequences of card references), `count`, `points`, `maxPoints`, `time` and a `running` flag for
  the clock. `Valid()` is kept by every operation except `PointsEarned`, the scoring step that
  `CheckForMatch` takes before it appends the pair. It says: at most two pending cards, the delay
  in range, the pool at most 10000, and at most 10000 points per matched pair. `Consistent()` ties
  the state to the cards. Pending and matched cards are board cards and disjoint, the two pending
  cards are different, and a board card is face-up exactly when it is pending or matched.

The environment becomes parameters:

- The shuffle's random index `j = floor(random * (i + 1))` is `picks[i]`, chosen by the caller.
  `ValidPicks` states the random source's guarantee, `picks[i] <= i`.
- The `setTimeout` after the second selection is the result of `HandleCardClick`, which says
  whether a resolution is now due. The caller then calls `CheckForMatch`.
- The one-second `setInterval` tick is `Tick` (`time + 1`). Starting and clearing the interval
  are `StartTime` and `StopTime`, which set the `running` flag.

scenarios.dfy holds client scenarios proved from the contracts alone, whatever the shuffle draws:
a two-pair game, a mismatch, and a reset with a card pending.

Two preconditions restate what the source's callers guarantee:

- `CheckForMatch` requires two pending cards. The source reads `cards[0]` and `cards[1]` without
  a check and fails on fewer, and its timeout is only scheduled once two cards are pending.
- `HandleCardClick` keeps `Consistent()` for a card on the board. The source attaches the click
  listener only to board cards.

Behaviour of the code worth noting:

- Six cards give 2 columns, not 4: half of 6 is 3, which is odd and goes down to 2
  (`Boards.ColumnsExamples`).
- The game finishes when `matchedCards` reaches the literal 12, not the deck size. A four-card
  game never finishes, and its clock is never stopped (`Scenarios.SecondPair`).
- `resetGame` does not refill `maxPoints` and does not clear `flippedCards`. The pool is refilled
  only in the constructor and on completion.
- After a reset with one card pending, that card is face-down but still pending. Selecting it
  again makes it the second pending card, and it is then scored as a pair with itself
  (`Scenarios.ResetWithPendingCard`). So `ResetGame` re-establishes `Consistent()` only when no
  card was pending. `CheckForMatch` promises "both cards face-down after a mismatch" only from a
  consistent state: it toggles the two cards, whatever state they were in.
- The constructor does not start the clock; `resetGame` does.
- The scoring charge uses `count` before it is incremented, so the first attempt of a game costs
  nothing whatever the time.

## Model

| member | source | states |
|---|---|---|
| `Cards.Card.constructor` | ejercicio4/memory.js:2-7 | a new card carries the given name and image and is face-down |
| `Cards.Card.ToggleFlip` | ejercicio4/memory.js:35-43 | `isFlipped` becomes its negation, so two toggles restore it; name and image are constants and cannot change |
| `Cards.Card.Matches` | ejercicio4/memory.js:45-51 | a card selected twice pairs with itself, and cards with different names never pair |
| `Cards.MatchesIsLabelEquality` | ejercicio4/memory.js:45-51 | two cards match exactly when their names are equal; matching is symmetric and reflexive |
| `Cards.Duplicated` | ejercicio4/memory.js:222-225 | a deck from n entries has 2n cards, and positions 2k and 2k+1 both hold entry k |
| `Cards.DuplicatedCounts` | ejercicio4/memory.js:222-225 | the multiset of the deck is the multiset of the list taken twice |
| `Cards.TwiceInDeck` | ejercicio4/memory.js:222-225 | for a list without repeated entries, every entry occurs in the deck exactly twice |
| `Cards.Languages` | ejercicio4/memory.js:213-220 | the shipped card list has six entries, pairwise different |
| `Cards.LanguagesDeck` | ejercicio4/memory.js:213-225 | the shipped six-language list gives a twelve-card deck holding each language exactly twice |
| `Boards.Board.constructor` | ejercicio4/memory.js:55-59 | the board keeps the given card array itself, not a copy |
| `Boards.Board.CalculateColumns` | ejercicio4/memory.js:61-72 | the width is even and in [2,12]; it is within one of half the card count clamped to [2,12], and above it only when that value is 11 |
| `Boards.Clamp` | ejercicio4/memory.js:65 | the result lies in [lo,hi] and equals x when x is already in range |
| `Boards.ColumnsExamples` | ejercicio4/memory.js:61-72 | 4, 6, 8, 12, 22 and 24 cards give 2, 2, 4, 6, 12 and 12 columns |
| `Boards.ColumnsMonotone` | ejercicio4/memory.js:61-72 | more cards never give fewer columns |
| `Boards.Swap` | ejercicio4/memory.js:100 | exchanging two positions keeps the length |
| `Boards.SwapPermutes` | ejercicio4/memory.js:100 | exchanging two positions keeps the multiset of elements |
| `Boards.ShuffleDown` | ejercicio4/memory.js:98-101 | the loop steps from index i down to 1 keep the length |
| `Boards.ShuffleDownPermutes` | ejercicio4/memory.js:98-101 | the loop steps from index i down to 1 permute the sequence |
| `Boards.Shuffled` | ejercicio4/memory.js:96-103 | the reference order of a whole shuffle: it keeps the length, and a deck of at most one card is left as it is |
| `Boards.ShufflePermutes` | ejercicio4/memory.js:96-103 | a whole shuffle keeps the length and the multiset of cards: the result is a permutation |
| `Boards.Board.SwapCards` | ejercicio4/memory.js:100 | the array afterwards is the old contents with positions i and j exchanged |
| `Boards.Board.ShuffleCards` | ejercicio4/memory.js:96-103 | works in place and returns the same array; the new contents are `Shuffled` of the old contents with the given draws, a permutation of them |
| `Boards.Board.FlipDownAllCards` | ejercicio4/memory.js:105-111 | afterwards every card on the board is face-down, whatever its state before (so a second call changes nothing); the order is unchanged |
| `Boards.Board.Reset` | ejercicio4/memory.js:113-117 | afterwards every card is face-down and the array is the shuffle of the old contents, a permutation of them |
| `Game.CheckedFlipDuration` | ejercicio4/memory.js:125-131 | the stored delay lies in [350,3000]; an in-range value is kept, any out-of-range value becomes exactly 350 |
| `Game.Pool` | ejercicio4/memory.js:204 | the pool charged for a match never exceeds the old pool, and equals it when no attempt was made earlier or no time has elapsed |
| `Game.Gain` | ejercicio4/memory.js:205-207 | what a match adds is never less than the pool and is either the pool or nothing, so it is the pool exactly when the pool is positive |
| `Game.ScoringBounds` | ejercicio4/memory.js:203-209 | a match adds at most the old pool when that is positive, and nothing when the old pool is used up |
| `Game.MemoryGame.constructor` | ejercicio4/memory.js:121-141 | the delay is validated as above; the board is reset (face-down, shuffled); nothing is pending or matched; counters are zero, the pool is 10000 and the clock is stopped; `Valid` and `Consistent` hold |
| `Game.MemoryGame.FaceUpWhenPendingOrMatched` | ejercicio4/memory.js:143-152 | in a consistent state every pending or matched card is face-up, so a click on a matched card is never accepted |
| `Game.MemoryGame.HandleCardClick` | ejercicio4/memory.js:143-152 | with fewer than two pending cards and the card face-down, the card is turned up and appended; otherwise all state is unchanged; a resolution is due exactly when an accepted click makes two cards pending; at most two cards are ever pending; a click on a board card keeps `Consistent` |
| `Game.MemoryGame.CheckForMatch` | ejercicio4/memory.js:154-174 | pending cards are cleared and `count` grows by exactly one; points never decrease; a pair is appended to `matchedCards` and earns `Gain(Pool(...))` from the old pool, time and count; reaching 12 matched cards stops the clock and refills the pool to 10000; a non-pair leaves the matched cards, points and pool unchanged and toggles both cards, which end face-down in a consistent state; `Valid` and `Consistent` are kept |
| `Game.MemoryGame.PointsEarned` | ejercicio4/memory.js:203-209 | the pool is charged `time * count * 10`; points grow by the new pool exactly when it is positive; points never decrease and the pool never grows |
| `Game.MemoryGame.Tick` | ejercicio4/memory.js:178-181 | the elapsed time grows by one and nothing else changes |
| `Game.MemoryGame.StartTime` | ejercicio4/memory.js:176-184 | the clock is running and no counter changes |
| `Game.MemoryGame.StopTime` | ejercicio4/memory.js:186-191 | the clock is stopped, so stopping twice is harmless, and no counter changes |
| `Game.MemoryGame.ResetGame` | ejercicio4/memory.js:193-201 | all cards are face-down and the deck is the shuffle of the previous deck, a permutation of it; `matchedCards` is empty; `count`, `time` and `points` are 0; the clock runs; the pool and the pending cards are kept; `Consistent` holds when no card was pending |

## Left out

- DOM work is not modelled: `#createCardElement`, `#flip`/`#unflip`, `render`, `#setGridColumns`,
  the `onCardClicked` wiring, the element fields and the text written to the page. Cards carry no
  `element`.
- `setTimeout` is left to the caller, so a resolution that fires after a reset is simply a later
  call of `CheckForMatch`. Timing and interleaving are not modelled.
- The timer is left out. Its Promise wrappers are dropped. Each `resetGame` starts a new interval
  without clearing the previous one, so the real clock can tick several times per second, and
  `stopTime` on completion clears only the latest interval (ejercicio4/memory.js:188), so after a restart
  the clock goes on ticking once the game is over. The model has one `running` flag and a `Tick`
  that the environment calls.
- `Duplicated` builds the deck as a sequence of `CardData` values. The source makes two fresh
  `Card` objects per entry (ejercicio4/memory.js:222-225) and puts them on the board. The model does not
  connect that deck to `Board.cards`: a board is built from any array of cards.
- `Math.random` is left out: the draws are parameters, and the uniformity of the shuffle and the
  reachability of every permutation are not proved.
- `alert` (the configuration warning) and `console.log` are side effects only and are dropped.
- `isNaN` is not modelled: the delay is an integer, so only the range checks remain.
- The default delay of 500 ms when none is given is not modelled: callers pass a delay.
- JavaScript numbers are doubles. The model uses unbounded integers, so precision loss at very
  large times or counts is not modelled.
- The `DOMContentLoaded` bootstrap is not modelled beyond the deck duplication and the shipped
  card list. `ejercicio3/converter.js` (a currency-conversion HTTP wrapper) is not part of this
  model.
