# card-clash game engine in Dafny

card-clash is a two-player card game, one human against the computer.
Players take turns playing cards onto a shared running score, starting at 0.
The first player to bring the score to 45 or more wins. This project models the
game engine hook `useGameEngine.js` and proves its properties:

- the difficulty-weighted 40-card deck and its shuffle;
- the effect resolver;
- the computer's four move strategies;
- the three deal policies of `startGame`;
- the state transitions of `playCard`, `drawCard` and `makeComputerMove`.

It also models the separate deck builder in `deckUtils.js`, which the engine does not use.

Modules:

- `Decimal` (decimal.dfy): renders a number as in `N${val}` and proves that rendering injective.
- `Cards` (cards.dfy): cards, tiers and sides. It also states that card ids are unique.
- `Deck` (deck.dfy): `generateDeck(difficulty)`.
  - Its two push loops become the method `GenerateDeck`.
  - The method is proved equal to the specification function `DeckOf`.
- `Effects` (effects.dfy): `applyCardEffect`.
- `Strategy` (strategy.dfy): `getComputerMove`.
  - The advanced and nightmare `forEach` loops are methods.
  - Each is proved to return the earliest card of greatest value.
- `Shuffling` (shuffling.dfy): the Fisher–Yates `shuffle`. It is an in-place loop over an array.
- `Engine` (engine.dfy): the deal policies as functions on the shuffled deck.
  - The hook's seven pieces of state are fields of the class `GameEngine`.
  - Each operation is a method whose `ensures` gives the complete new state.
  - A ghost field `deck` holds the dealt deck.
  - The predicate `Conserved` says every card of that deck is in exactly one hand or pile, and no two cards share an id.
  - `PlayCard` preserves `Conserved` when the card is in the actor's hand; `DrawCard` always does. A card the actor does not hold ends up on the played pile without leaving any hand.
  - After `StartGame`, `Conserved` holds exactly for the beginner, intermediate and unknown tiers.
- `DeckUtils` (deck_utils.dfy): the fixed deck of `deckUtils.js`.

The engine's quirks are modelled as written:

- `playCard` checks only whether there is a winner.
- After a winning move, the turn still passes to the other side.
- `drawCard` ignores the winner.
- The `drawCard` call that recycles the played pile draws nothing. Its second emptiness test reads the draw pile from before the call.
- Two deals put some cards in play twice:
  - The advanced deal gives the computer and the player four cards each. The draw pile gets the good and other cards that were not dealt, followed by the whole deck. That makes 32 + 40 = 72 draw-pile cards and 80 cards in play.
  - The nightmare computer's four cards come from a sorted copy and stay in the deck, so 44 cards are in play.

## Model

| member | source | states |
|---|---|---|
| Decimal.NatToString | card-clash/src/hooks/useGameEngine.js:27-34 | the rendering of a value has at least one digit, and at least two from 10 up |
| Decimal.NatToStringInjective | card-clash/src/hooks/useGameEngine.js:26-35 | two values with the same rendering are equal, so `N${val}` ids of different values differ |
| Deck.FavorableCountTable | card-clash/src/hooks/useGameEngine.js:10-21 | the favourable counts are 21, 15, 9 and 6; an unknown tier gets the intermediate count |
| Deck.DeckOf | card-clash/src/hooks/useGameEngine.js:23-53 | the tier's unshuffled deck: FavorableCount(d) even cards 2, 4, … with effect +value, then 30 - FavorableCount(d) odd cards 1, 3, … with effect -value, then AA..AF with ranks 1..6, then S*1, S$1, S@1, S@2 |
| Deck.GenerateDeck | card-clash/src/hooks/useGameEngine.js:8-54 | the two push loops and the appended letter and symbol cards build exactly the tier's deck `DeckOf(d)` |
| Deck.DeckShape | card-clash/src/hooks/useGameEngine.js:23-53 | 40 cards: numbers at 0..29, letters at 30..35 with ranks 1..6, then the repeat, +10 and two flexible symbols |
| Deck.NumberCardAt | card-clash/src/hooks/useGameEngine.js:25-35 | number position i holds the i-th favourable card below the favourable count and an unfavourable card after it |
| Deck.NumberCardsSigned | card-clash/src/hooks/useGameEngine.js:25-35 | exactly the first FavorableCount(d) number cards have a positive effect; they are even with effect +value, the rest odd with effect -value |
| Deck.NumberValuesDistinct | card-clash/src/hooks/useGameEngine.js:26-35 | no two number cards have the same value |
| Deck.DeckIdsDistinct | card-clash/src/hooks/useGameEngine.js:26-51 | all forty ids of a tier's deck are pairwise distinct |
| Deck.UnknownTierIsIntermediate | card-clash/src/hooks/useGameEngine.js:17 | an unknown tier builds the intermediate deck |
| Effects.ApplyCardEffect | card-clash/src/hooks/useGameEngine.js:217-242 | a number card adds its effect, a letter card floor-divides by its rank, +10 adds 10, a flexible card gives 45 exactly within 5 of 45 and otherwise keeps the score, a repeat with nothing to repeat keeps the score |
| Effects.LastCardOnlyMattersToRepeat | card-clash/src/hooks/useGameEngine.js:217-242 | the last card changes the outcome only for a repeat card |
| Effects.RepeatReplaysLast | card-clash/src/hooks/useGameEngine.js:228-229 | a repeat card has the effect of the card it follows, played from the same score |
| Effects.ResolveExamples | card-clash/src/hooks/useGameEngine.js:221-235 | floor division of negative scores, a negative number card, and the flexible window's two sides on concrete cards |
| Strategy.Project | card-clash/src/hooks/useGameEngine.js:80-91 | the strategies' projected score is the effect resolver's score with no last card |
| Strategy.PositiveCards | card-clash/src/hooks/useGameEngine.js:67-71 | the filter keeps exactly the hand's positive number cards and +10 cards |
| Strategy.IntermediateMove | card-clash/src/hooks/useGameEngine.js:65-72 | the intermediate tier plays a card of the hand |
| Strategy.IntermediatePlaysFirstPositive | card-clash/src/hooks/useGameEngine.js:67-72 | the intermediate tier plays the first positive card of the hand |
| Strategy.IntermediateFallsBackToFirst | card-clash/src/hooks/useGameEngine.js:72 | with no positive card it plays the first card |
| Strategy.AdvancedValue | card-clash/src/hooks/useGameEngine.js:94 | a projection at or below 45 is worth itself; above 45 it is worth 45 minus twice the overshoot |
| Strategy.NightmareValue | card-clash/src/hooks/useGameEngine.js:124-133 | a projection of 45 or more is worth 1000; otherwise itself, plus 50 from 40 up and, separately, 25 from 35 up |
| Strategy.AdvancedValuePeaksAtTarget | card-clash/src/hooks/useGameEngine.js:93-94 | an advanced value is at most 45, and exactly 45 only for a projection of 45 |
| Strategy.NightmareValueOrder | card-clash/src/hooks/useGameEngine.js:124-133 | non-winning values stay at or below 119 and rise strictly with the projection |
| Strategy.FirstMaxIsUnique | card-clash/src/hooks/useGameEngine.js:96-99 | the strict `>` comparison selects one position: the earliest greatest value |
| Strategy.AdvancedMove | card-clash/src/hooks/useGameEngine.js:74-101 | the loop returns the first card whose advanced value is the greatest in the hand |
| Strategy.NightmareMove | card-clash/src/hooks/useGameEngine.js:103-140 | the loop returns the first card whose nightmare value is the greatest in the hand |
| Strategy.GetComputerMove | card-clash/src/hooks/useGameEngine.js:57-145 | no move exactly for an empty hand; otherwise a card of the hand that is the tier's choice |
| Strategy.ComputerChoiceIsDeterministic | card-clash/src/hooks/useGameEngine.js:57-145 | each tier's choice is a function of the hand and the score |
| Strategy.NightmareTakesAWin | card-clash/src/hooks/useGameEngine.js:124-126 | when some card reaches 45, the nightmare tier plays one that does |
| Strategy.NightmareMaximisesProjection | card-clash/src/hooks/useGameEngine.js:127-137 | with no winning card, the nightmare tier plays the first card of greatest projection |
| Strategy.AdvancedHitsTarget | card-clash/src/hooks/useGameEngine.js:93-98 | when some card lands exactly on 45, the advanced tier plays one that does |
| Shuffling.Swap | card-clash/src/hooks/useGameEngine.js:160 | the destructuring swap exchanges positions i and j and keeps the length |
| Shuffling.FisherYates | card-clash/src/hooks/useGameEngine.js:158-161 | the loop's steps from i down to 1, step k swapping k with rand(k) mod (k + 1); the length is kept |
| Shuffling.Shuffle | card-clash/src/hooks/useGameEngine.js:156-163 | the in-place loop over a copy computes exactly the steps i = n-1 down to 1 of `Shuffled(cards, rand)`, a permutation of the cards |
| Shuffling.SwapPermutes | card-clash/src/hooks/useGameEngine.js:160 | the destructuring swap keeps the cards with multiplicity |
| Shuffling.FisherYatesPermutes | card-clash/src/hooks/useGameEngine.js:158-161 | any run of the shuffle's steps is a permutation |
| Engine.RemoveId | card-clash/src/hooks/useGameEngine.js:254 | `filter((c) => c.id !== card.id)`: the hand in order without the cards carrying the id; never longer than the hand |
| Engine.RemoveIdMembers | card-clash/src/hooks/useGameEngine.js:254 | the filtered hand holds exactly the hand's cards with another id |
| Engine.RemoveIdRemovesOnlyCard | card-clash/src/hooks/useGameEngine.js:254 | in a hand with distinct ids, filtering out a held card's id removes exactly one copy of that card |
| Engine.PlayedCardLeavesHand | card-clash/src/hooks/useGameEngine.js:254-257 | a held card of a hand drawn from a deck with distinct ids leaves that hand exactly once |
| Engine.PlayKeepsPool | card-clash/src/hooks/useGameEngine.js:244-262 | moving a held card from a hand to the played pile keeps every card of the deck in exactly one place |
| Engine.RecycleKeepsPool | card-clash/src/hooks/useGameEngine.js:203-206 | recycling all played cards but the last into the empty draw pile keeps the pool of cards |
| Engine.DrawKeepsPool | card-clash/src/hooks/useGameEngine.js:211-214 | moving the top of the draw pile to the end of a hand keeps the pool of cards |
| Engine.Keep | card-clash/src/hooks/useGameEngine.js:182-183 | the two filters of the advanced deal in deck order: with `true` the number cards with a positive effect, with `false` all others; never longer than the deck |
| Engine.KeepMembers | card-clash/src/hooks/useGameEngine.js:182-183 | each filter keeps exactly the deck's cards of its kind |
| Engine.KeepLengthPermutation | card-clash/src/hooks/useGameEngine.js:182-183 | filtering a permutation keeps as many cards |
| Engine.KeepComplement | card-clash/src/hooks/useGameEngine.js:182-183 | every card passes exactly one of the two filters |
| Engine.DeckOfGood | card-clash/src/hooks/useGameEngine.js:182 | an unshuffled deck has exactly FavorableCount(d) good cards |
| Engine.ShuffledDeckSplit | card-clash/src/hooks/useGameEngine.js:166-183 | a shuffled deck has FavorableCount(d) good cards and 40 - FavorableCount(d) others |
| Engine.Desirability | card-clash/src/hooks/useGameEngine.js:174-175 | the comparator's key: a number card's effect, 10 for the +10 card, 5 for every other card |
| Engine.InsertByDesirability | card-clash/src/hooks/useGameEngine.js:173-177 | one insertion step of the sort adds the card and keeps the others |
| Engine.SortByDesirability | card-clash/src/hooks/useGameEngine.js:173-177 | the sorted copy is a permutation of the deck |
| Engine.InsertKeepsSorted | card-clash/src/hooks/useGameEngine.js:173-177 | inserting into a sorted sequence keeps it sorted |
| Engine.SortIsSorted | card-clash/src/hooks/useGameEngine.js:173-177 | the sorted copy runs from the most to the least desirable card |
| Engine.TopFourAreMostDesirable | card-clash/src/hooks/useGameEngine.js:173-178 | the computer's four nightmare cards are at least as desirable as every other card |
| Engine.ShuffledDeckIdsDistinct | card-clash/src/hooks/useGameEngine.js:166 | a shuffled tier deck has 40 cards with pairwise distinct ids |
| Engine.NightmareDeal | card-clash/src/hooks/useGameEngine.js:171-179 | the computer takes the first four cards of the sorted copy, the player the first four of the deck, the pile the rest of the deck |
| Engine.AdvancedDeal | card-clash/src/hooks/useGameEngine.js:180-186 | the computer takes two good then two other cards, the player the next two other then two good cards, the pile the undealt good and other cards followed by the whole deck |
| Engine.NormalDeal | card-clash/src/hooks/useGameEngine.js:187-190 | the player takes the first four cards, the computer the next four, the pile the rest |
| Engine.DealFor | card-clash/src/hooks/useGameEngine.js:171-191 | the nightmare deal for nightmare, the advanced deal for advanced, the four-and-four deal for every other tier |
| Engine.NormalDealConserves | card-clash/src/hooks/useGameEngine.js:187-190 | four cards to the player, the next four to the computer, the rest to the draw pile, every card once |
| Engine.NightmareDealDuplicates | card-clash/src/hooks/useGameEngine.js:171-179 | the player and the pile split the deck, and every computer card is also in one of them: 44 cards in play |
| Engine.AdvancedDeckSplit | card-clash/src/hooks/useGameEngine.js:180-183 | a shuffled advanced deck has 9 good cards and 31 others |
| Engine.AdvancedDealDuplicates | card-clash/src/hooks/useGameEngine.js:180-186 | the draw pile is the undealt good cards, the undealt others and the whole deck: 72 cards, holding every dealt card, 80 in play |
| Engine.AdvancedDealShape | card-clash/src/hooks/useGameEngine.js:184-186 | with four cards of each kind both sides get four cards of the deck |
| Engine.ShuffleAndDeal | card-clash/src/hooks/useGameEngine.js:165-191 | the shuffle of the tier's deck, 40 cards with distinct ids, and the tier's deal of it, which puts every card in exactly one place exactly for the tiers other than advanced and nightmare |
| Engine.GameEngine.constructor | card-clash/src/hooks/useGameEngine.js:148-154 | empty hands and piles, score 0, the player's turn, no winner |
| Engine.GameEngine.PlayCard | card-clash/src/hooks/useGameEngine.js:244-262 | with a winner nothing changes; otherwise the resolved score, the card on the played pile, its id out of the actor's hand, the turn to the other side, a win at 45 or more; a held card keeps every card in one place |
| Engine.GameEngine.DrawCard | card-clash/src/hooks/useGameEngine.js:202-215 | an empty pile with more than one played card becomes the shuffle of all played cards but the last, which stays played, and nothing is drawn; an empty pile otherwise changes nothing; else the top card goes to the actor; every card stays in one place |
| Engine.GameEngine.MakeComputerMove | card-clash/src/hooks/useGameEngine.js:264-273 | a non-empty hand plays the tier's choice from it; an empty hand draws; every card stays in one place |
| Engine.GameEngine.StartGame | card-clash/src/hooks/useGameEngine.js:165-200 | the deck is the shuffle of the tier's deck and the state is its tier's deal with the score, pile, turn and winner reset; every card is in one place exactly for the tiers other than advanced and nightmare |
| Engine.GameEngine.Install | card-clash/src/hooks/useGameEngine.js:193-199 | the seven setters install the deal and reset the rest |
| DeckUtils.GenerateDeck | card-clash/src/utils/deckUtils.js:4-25 | the fixed deck has 40 cards |
| DeckUtils.NumberCardsInOrder | card-clash/src/utils/deckUtils.js:5-9 | positions 0..29 are number cards N1..N30 with values 1..30 |
| DeckUtils.AlphabetCardsInOrder | card-clash/src/utils/deckUtils.js:11-15 | positions 30..35 are alphabet cards AA..AF with values 1..6 |
| DeckUtils.SymbolCardsLast | card-clash/src/utils/deckUtils.js:17-22 | the deck ends with the symbol cards S*, S$, S@1 and S@2 |
| DeckUtils.DeckOrder | card-clash/src/utils/deckUtils.js:24 | each kind occupies exactly its block: numbers, then letters, then symbols |
| DeckUtils.IdsDistinct | card-clash/src/utils/deckUtils.js:4-25 | all forty ids are pairwise distinct |

## Left out

- `Math.random`: the shuffle takes a function `rand`, and step i swaps with position `rand(i) % (i + 1)`.
- The React `useState`/`useEffect` machinery:
  - State lives in the fields of `GameEngine`, and each operation is one atomic transition from the state before the call.
  - The setters' batching is reproduced only where it shows: the stale read of the draw pile in `drawCard`.
  - The constructor stands for the initial `useState` values. The effect that calls `startGame` when the difficulty changes is not modelled.
- The float ratios 0.7, 0.5, 0.3 and 0.2 become whole percents. floor(30 · ratio) gives the same counts, 21, 15, 9 and 6.
- A letter card's effect closure becomes its rank, and the resolver divides by it. The strategies' projection of a repeat card (no case of its own, so the score stays) is written out as `Project`.
- Every `splice(0, n)` on a local copy becomes a `Take` and a `Drop`. `newDeck.splice(0, 0, ...)` becomes a concatenation in front of the deck.
- Difficulty tags that name an inherited property of a plain object, such as `"toString"`, are not modelled. For them `difficultySettings[difficulty]` does not fall back to the intermediate settings, and the counts become NaN. The difficulty menu never passes such a tag. `Unknown` stands only for the tags that do fall back.
- `getComputerMove`'s `drawPile` parameter is never read, so it is not a parameter here.
- Engine.GameEngine.DrawCard: the method returns straight after a recycle, with nothing drawn. This is what the source's second test does, since it still sees the empty draw pile from before the call.
- Engine.SortByDesirability: the stable descending sort is an insertion sort, proved to be a sorted permutation. That ties keep their order is a property of the construction and is not stated as a lemma.
- `shuffleDeck` in `deckUtils.js`: it sorts with a random comparator, whose result the language leaves to the implementation.
- The presentation components, the thinking-delay timer and the progress bar are not part of this model.
