/** The turn engine: the state of one game (two hands, the draw pile, the
    played pile, the score, whose turn it is and the winner) and the
    operations the board calls. Each operation is one atomic transition
    computed from the state before the call. */
module Engine {
  import opened Cards
  import opened Effects
  import opened Deck
  import opened Strategy
  import opened Shuffling

  /** hand.filter(c => c.id !== id). */
  function RemoveId(hand: seq<Card>, id: string): (r: seq<Card>)
    ensures |r| <= |hand|
  {
    if hand == [] then []
    else (if hand[0].id != id then [hand[0]] else []) + RemoveId(hand[1..], id)
  }

  /** The filtered hand holds exactly the hand's cards with another id. */
  lemma {:induction false} RemoveIdMembers(hand: seq<Card>, id: string, c: Card)
    ensures c in RemoveId(hand, id) <==> c in hand && c.id != id
  {
    if hand != [] {
      assert hand == [hand[0]] + hand[1..];
      RemoveIdMembers(hand[1..], id, c);
    }
  }

  lemma {:induction false} RemoveAbsentId(hand: seq<Card>, id: string)
    requires forall c :: c in hand ==> c.id != id
    ensures RemoveId(hand, id) == hand
  {
    if hand != [] {
      assert hand[0] in hand;
      assert forall c :: c in hand[1..] ==> c in hand;
      RemoveAbsentId(hand[1..], id);
    }
  }

  /** Behind the first card of a hand with distinct ids come distinct ids
      that all differ from the first card's. */
  lemma DistinctIdsTail(hand: seq<Card>)
    requires hand != [] && DistinctIds(hand)
    ensures DistinctIds(hand[1..])
    ensures forall c :: c in hand[1..] ==> c.id != hand[0].id
  {
    var tail := hand[1..];
    forall i, j | 0 <= i < j < |tail| ensures tail[i].id != tail[j].id {
      assert tail[i] == hand[i + 1] && tail[j] == hand[j + 1];
    }
    forall c | c in tail ensures c.id != hand[0].id {
      var k :| 0 <= k < |tail| && tail[k] == c;
      assert hand[k + 1] == c;
    }
  }

  /** In a hand with distinct ids, removing a card's id removes that card
      and nothing else. */
  lemma {:induction false} RemoveIdRemovesOnlyCard(hand: seq<Card>, card: Card)
    requires card in hand && DistinctIds(hand)
    ensures multiset(RemoveId(hand, card.id)) == multiset(hand) - multiset{card}
  {
    var tail := hand[1..];
    assert hand == [hand[0]] + tail;
    DistinctIdsTail(hand);
    if hand[0] == card {
      RemoveAbsentId(tail, card.id);
    } else {
      RemoveIdRemovesOnlyCard(tail, card);
    }
  }

  /** A card of a hand that is part of a pool with unique ids leaves the
      hand alone when its id is filtered out. */
  lemma PlayedCardLeavesHand(deck: seq<Card>, hand: seq<Card>, card: Card)
    requires DistinctIds(deck) && multiset(hand) <= multiset(deck) && card in hand
    ensures multiset(RemoveId(hand, card.id)) + multiset{card} == multiset(hand)
  {
    DistinctIdsUnique(deck);
    UniqueIdsSub(multiset(deck), multiset(hand));
    UniqueIdsDistinct(hand);
    RemoveIdRemovesOnlyCard(hand, card);
  }

  /** Playing a card of a hand moves it, and only it, to the played pile.
      The conditions are the antecedent of each ensures rather than a
      requires so that playCard can call it whether or not the card is
      held; the two ensures are the same fact with the actor's hand first
      (the player) or second (the computer) in the pool. */
  lemma PlayKeepsPool(deck: seq<Card>, hand: seq<Card>, other: seq<Card>, pile: seq<Card>,
                      played: seq<Card>, card: Card)
    ensures && DistinctIds(deck) && card in hand
            && multiset(hand) + multiset(other) + multiset(pile) + multiset(played) == multiset(deck)
            ==> && multiset(RemoveId(hand, card.id)) + multiset(other) + multiset(pile) + multiset(played + [card])
                   == multiset(deck)
                && DistinctIds(deck)
    ensures && DistinctIds(deck) && card in hand
            && multiset(other) + multiset(hand) + multiset(pile) + multiset(played) == multiset(deck)
            ==> && multiset(other) + multiset(RemoveId(hand, card.id)) + multiset(pile) + multiset(played + [card])
                   == multiset(deck)
                && DistinctIds(deck)
  {
    if DistinctIds(deck) && card in hand
       && multiset(hand) + multiset(other) + multiset(pile) + multiset(played) == multiset(deck) {
      assert multiset(hand) <= multiset(deck);
      PlayedCardLeavesHand(deck, hand, card);
      assert multiset(played + [card]) == multiset(played) + multiset{card};
    }
  }

  /** Recycling moves all played cards but the last to the empty draw pile.
      The pools are written in the four parts of Pool(): hands, draw
      pile, played pile. */
  lemma RecycleKeepsPool(hand: seq<Card>, other: seq<Card>, played: seq<Card>, recycled: seq<Card>)
    requires |played| > 0 && multiset(recycled) == multiset(played[..|played| - 1])
    ensures multiset(hand) + multiset(other) + multiset(recycled) + multiset([played[|played| - 1]])
            == multiset(hand) + multiset(other) + multiset([]) + multiset(played)
  {
    assert played == played[..|played| - 1] + [played[|played| - 1]];
  }

  /** Drawing moves the top card of the pile to the end of a hand. */
  lemma DrawKeepsPool(hand: seq<Card>, other: seq<Card>, pile: seq<Card>, played: seq<Card>)
    requires pile != []
    ensures multiset(hand + [pile[0]]) + multiset(other) + multiset(pile[1..]) + multiset(played)
            == multiset(hand) + multiset(other) + multiset(pile) + multiset(played)
    ensures multiset(other) + multiset(hand + [pile[0]]) + multiset(pile[1..]) + multiset(played)
            == multiset(other) + multiset(hand) + multiset(pile) + multiset(played)
  {
    assert pile == [pile[0]] + pile[1..];
  }

  /** The advanced deal's split: number cards with a positive effect. */
  predicate IsGood(c: Card) {
    c.Number? && c.effect > 0
  }

  /** deck.filter(c => IsGood(c) == good). */
  function Keep(s: seq<Card>, good: bool): (r: seq<Card>)
    ensures |r| <= |s|
  {
    if s == [] then []
    else (if IsGood(s[0]) == good then [s[0]] else []) + Keep(s[1..], good)
  }

  lemma {:induction false} KeepMembers(s: seq<Card>, good: bool, c: Card)
    ensures c in Keep(s, good) <==> c in s && IsGood(c) == good
  {
    if s != [] {
      assert s == [s[0]] + s[1..];
      KeepMembers(s[1..], good, c);
    }
  }

  lemma {:induction false} KeepAppend(a: seq<Card>, b: seq<Card>, good: bool)
    ensures Keep(a + b, good) == Keep(a, good) + Keep(b, good)
    decreases |a|
  {
    if a != [] {
      var head := if IsGood(a[0]) == good then [a[0]] else [];
      assert (a + b)[0] == a[0];
      assert (a + b)[1..] == a[1..] + b;
      assert Keep(a + b, good) == head + Keep(a[1..] + b, good);
      assert Keep(a, good) == head + Keep(a[1..], good);
      KeepAppend(a[1..], b, good);
    } else {
      assert a + b == b;
    }
  }

  lemma {:induction false} KeepUniform(s: seq<Card>, good: bool)
    requires forall i :: 0 <= i < |s| ==> IsGood(s[i]) == good
    ensures Keep(s, good) == s && Keep(s, !good) == []
  {
    if s != [] {
      KeepUniform(s[1..], good);
    }
  }

  /** Taking out the card at position i takes one copy of it out of the
      multiset of cards. */
  lemma MultisetRemoveAt(t: seq<Card>, i: nat)
    requires i < |t|
    ensures multiset(t[..i] + t[i + 1..]) == multiset(t) - multiset{t[i]}
  {
    assert t == t[..i] + [t[i]] + t[i + 1..];
  }

  /** Taking out the card at position i takes it out of its filter. */
  lemma KeepRemoveAt(t: seq<Card>, i: nat, good: bool)
    requires i < |t|
    ensures |Keep(t, good)| == |Keep(t[..i] + t[i + 1..], good)| + (if IsGood(t[i]) == good then 1 else 0)
  {
    assert t == t[..i] + ([t[i]] + t[i + 1..]);
    KeepAppend(t[..i], [t[i]] + t[i + 1..], good);
    KeepAppend([t[i]], t[i + 1..], good);
    KeepAppend(t[..i], t[i + 1..], good);
  }

  /** Filtering is insensitive to order: permutations keep as many cards. */
  lemma {:induction false} KeepLengthPermutation(s: seq<Card>, t: seq<Card>, good: bool)
    requires multiset(s) == multiset(t)
    ensures |Keep(s, good)| == |Keep(t, good)|
    decreases |s|
  {
    if s == [] {
      assert |t| == |multiset(t)| == 0;
    } else {
      var x := s[0];
      assert x in multiset(t);
      var i :| 0 <= i < |t| && t[i] == x;
      MultisetRemoveAt(t, i);
      assert s == [x] + s[1..];
      assert multiset(s[1..]) == multiset(s) - multiset{x};
      KeepLengthPermutation(s[1..], t[..i] + t[i + 1..], good);
      KeepRemoveAt(t, i, good);
    }
  }

  lemma KeepUniformCount(s: seq<Card>, good: bool)
    requires forall i :: 0 <= i < |s| ==> IsGood(s[i]) == good
    ensures |Keep(s, good)| == |s| && |Keep(s, !good)| == 0
  {
    KeepUniform(s, good);
  }

  lemma KeepAppendCount(a: seq<Card>, b: seq<Card>, good: bool)
    ensures |Keep(a + b, good)| == |Keep(a, good)| + |Keep(b, good)|
  {
    KeepAppend(a, b, good);
  }

  /** Filtering four groups laid end to end keeps each group's cards. */
  lemma KeepFourGroups(f: seq<Card>, u: seq<Card>, a: seq<Card>, y: seq<Card>, good: bool)
    ensures |Keep(f + u + a + y, good)| == |Keep(f, good)| + |Keep(u, good)| + |Keep(a, good)| + |Keep(y, good)|
  {
    KeepAppendCount(f, u, good);
    KeepAppendCount(f + u, a, good);
    KeepAppendCount(f + u + a, y, good);
  }

  /** Every card passes exactly one of the two filters. */
  lemma {:induction false} KeepComplement(s: seq<Card>)
    ensures |Keep(s, true)| + |Keep(s, false)| == |s|
  {
    if s != [] {
      KeepComplement(s[1..]);
    }
  }

  /** Favourable number cards are all good. */
  lemma FavorablesGood(n: nat)
    ensures |Keep(Favorables(n), true)| == n
  {
    KeepUniformCount(Favorables(n), true);
  }

  /** Unfavourable number cards, letters and symbols are not. */
  lemma OthersNotGood(n: nat)
    ensures |Keep(Unfavorables(n), true)| == 0
    ensures |Keep(AlphabetCards(), true)| == 0 && |Keep(SymbolCards, true)| == 0
  {
    KeepUniformCount(Unfavorables(n), false);
    KeepUniformCount(AlphabetCards(), false);
    KeepUniformCount(SymbolCards, false);
  }

  /** An unshuffled deck's good cards are its favourable number cards. */
  lemma DeckOfGood(d: Difficulty)
    ensures |Keep(DeckOf(d), true)| == FavorableCount(d)
  {
    var fav := FavorableCount(d);
    FavorablesGood(fav);
    OthersNotGood(30 - fav);
    KeepFourGroups(Favorables(fav), Unfavorables(30 - fav), AlphabetCards(), SymbolCards, true);
  }

  /** A shuffled deck holds the tier's favourable cards as its good cards
      and the 40 - FavorableCount(d) others, in any order. */
  lemma ShuffledDeckSplit(d: Difficulty, deck: seq<Card>)
    requires multiset(deck) == multiset(DeckOf(d))
    ensures |Keep(deck, true)| == FavorableCount(d) && |Keep(deck, false)| == 40 - FavorableCount(d)
  {
    DeckSize(d);
    assert |deck| == |multiset(deck)|;
    DeckOfGood(d);
    KeepLengthPermutation(deck, DeckOf(d), true);
    KeepComplement(deck);
  }

  /** Array.prototype.splice(0, n) on a copy: the first n cards, or all. */
  function Take(s: seq<Card>, n: nat): seq<Card> {
    if n <= |s| then s[..n] else s
  }

  /** What splice(0, n) leaves behind. */
  function Drop(s: seq<Card>, n: nat): seq<Card> {
    if n <= |s| then s[n..] else []
  }

  /** The nightmare deal's sort key. */
  function Desirability(c: Card): int {
    if c.Number? then c.effect
    else if c.Symbol? && c.kind == Bonus10 then 10
    else 5
  }

  predicate SortedByDesirability(s: seq<Card>) {
    forall i, j :: 0 <= i < j < |s| ==> Desirability(s[i]) >= Desirability(s[j])
  }

  /** Insert c in front of the first card it is at least as desirable as. */
  function InsertByDesirability(c: Card, sorted: seq<Card>): (r: seq<Card>)
    ensures |r| == |sorted| + 1
    ensures multiset(r) == multiset(sorted) + multiset{c}
  {
    if sorted == [] || Desirability(c) >= Desirability(sorted[0]) then [c] + sorted
    else
      assert sorted == [sorted[0]] + sorted[1..];
      [sorted[0]] + InsertByDesirability(c, sorted[1..])
  }

  /** A card at least as desirable as the head of a sorted sequence can go
      in front of it. */
  lemma PrependKeepsSorted(c: Card, s: seq<Card>)
    requires SortedByDesirability(s)
    requires s == [] || Desirability(c) >= Desirability(s[0])
    ensures SortedByDesirability([c] + s)
  {
    var r := [c] + s;
    forall i, j | 0 <= i < j < |r| ensures Desirability(r[i]) >= Desirability(r[j]) {
      assert r[j] == s[j - 1];
      if i > 0 {
        assert r[i] == s[i - 1];
      } else if j > 1 {
        assert Desirability(s[0]) >= Desirability(s[j - 1]);
      }
    }
  }

  lemma SortedTail(s: seq<Card>)
    requires s != [] && SortedByDesirability(s)
    ensures SortedByDesirability(s[1..])
  {
    var t := s[1..];
    forall i, j | 0 <= i < j < |t| ensures Desirability(t[i]) >= Desirability(t[j]) {
      assert t[i] == s[i + 1] && t[j] == s[j + 1];
    }
  }

  lemma {:induction false} InsertKeepsSorted(c: Card, sorted: seq<Card>)
    requires SortedByDesirability(sorted)
    ensures SortedByDesirability(InsertByDesirability(c, sorted))
  {
    if sorted == [] || Desirability(c) >= Desirability(sorted[0]) {
      PrependKeepsSorted(c, sorted);
    } else {
      var tail := sorted[1..];
      SortedTail(sorted);
      InsertKeepsSorted(c, tail);
      var rest := InsertByDesirability(c, tail);
      assert rest[0] == c || rest[0] == tail[0];
      PrependKeepsSorted(sorted[0], rest);
    }
  }

  /** The stable descending sort `sort((a, b) => value(b) - value(a))`:
      each card goes in front of the later cards it is at least as
      desirable as, so equally desirable cards keep their order. */
  function SortByDesirability(s: seq<Card>): (r: seq<Card>)
    ensures |r| == |s|
    ensures multiset(r) == multiset(s)
  {
    if s == [] then []
    else
      assert s == [s[0]] + s[1..];
      InsertByDesirability(s[0], SortByDesirability(s[1..]))
  }

  /** The sort orders the cards from the most to the least desirable. */
  lemma {:induction false} SortIsSorted(s: seq<Card>)
    ensures SortedByDesirability(SortByDesirability(s))
  {
    if s != [] {
      SortIsSorted(s[1..]);
      InsertKeepsSorted(s[0], SortByDesirability(s[1..]));
    }
  }

  /** The four cards the nightmare computer is dealt are at least as
      desirable as every other card of the deck. */
  lemma TopFourAreMostDesirable(s: seq<Card>)
    requires |s| >= 4
    ensures multiset(SortByDesirability(s)[..4]) + multiset(SortByDesirability(s)[4..]) == multiset(s)
    ensures forall c, x :: c in SortByDesirability(s)[..4] && x in SortByDesirability(s)[4..] ==>
              Desirability(c) >= Desirability(x)
  {
    var r := SortByDesirability(s);
    SortIsSorted(s);
    assert r == r[..4] + r[4..];
    forall c, x | c in r[..4] && x in r[4..] ensures Desirability(c) >= Desirability(x) {
      var i :| 0 <= i < 4 && r[..4][i] == c;
      var j :| 0 <= j < |r[4..]| && r[4..][j] == x;
      assert r[i] == c && r[4 + j] == x;
    }
  }

  lemma DeckSize(d: Difficulty)
    ensures |DeckOf(d)| == 40
  {
    DeckShape(d);
  }

  /** The three piles startGame deals. */
  datatype Deal = Deal(player: seq<Card>, computer: seq<Card>, pile: seq<Card>)

  /** The nightmare deal: the player takes the deck's first four cards and
      the computer the first four of a copy sorted by desirability. */
  function NightmareDeal(deck: seq<Card>): Deal {
    Deal(Take(deck, 4), Take(SortByDesirability(deck), 4), Drop(deck, 4))
  }

  /** The advanced deal: two good and two other cards to the computer, the
      next two other and two good cards to the player, and the remaining
      good and other cards spliced in front of the whole deck. */
  function AdvancedDeal(deck: seq<Card>): Deal {
    var good, other := Keep(deck, true), Keep(deck, false);
    var computer := Take(good, 2) + Take(other, 2);
    var good', other' := Drop(good, 2), Drop(other, 2);
    var player := Take(other', 2) + Take(good', 2);
    Deal(player, computer, Drop(good', 2) + Drop(other', 2) + deck)
  }

  /** The beginner and intermediate deal: four cards each off the top. */
  function NormalDeal(deck: seq<Card>): Deal {
    Deal(Take(deck, 4), Take(Drop(deck, 4), 4), Drop(Drop(deck, 4), 4))
  }

  /** startGame's deal from the shuffled deck, by the tier's policy; each
      splice(0, n) on a local copy becomes a Take and a Drop. */
  function DealFor(d: Difficulty, deck: seq<Card>): Deal {
    match d
    case Nightmare => NightmareDeal(deck)
    case Advanced => AdvancedDeal(deck)
    case _ => NormalDeal(deck)
  }

  /** Every card of a deal, with multiplicity, in the four parts of
      Pool(); the last, the played pile, is empty after a deal. */
  function DealtPool(deal: Deal): multiset<Card> {
    multiset(deal.player) + multiset(deal.computer) + multiset(deal.pile) + multiset([])
  }

  /** A shuffled deck has the tier's 40 cards, no two with the same id. */
  lemma ShuffledDeckIdsDistinct(d: Difficulty, deck: seq<Card>)
    requires multiset(deck) == multiset(DeckOf(d))
    ensures |deck| == 40 && DistinctIds(deck)
  {
    DeckSize(d);
    assert |deck| == |multiset(deck)|;
    DeckIdsDistinct(d);
    DistinctIdsPermutation(DeckOf(d), deck);
  }

  /** The beginner, intermediate and unknown deal: four cards to the player,
      the next four to the computer, the rest to the draw pile, so every
      card of the deck is in exactly one place. */
  lemma NormalDealConserves(deck: seq<Card>)
    requires |deck| == 40
    ensures NormalDeal(deck) == Deal(deck[..4], deck[4..8], deck[8..])
    ensures DealtPool(NormalDeal(deck)) == multiset(deck)
  {
    assert deck == deck[..4] + deck[4..8] + deck[8..];
  }

  /** The nightmare deal: the computer gets the four most desirable cards of
      a sorted copy, which stay in the player's hand or the draw pile as
      well, so 44 cards are in play. */
  lemma NightmareDealDuplicates(deck: seq<Card>)
    requires |deck| == 40
    ensures NightmareDeal(deck) == Deal(deck[..4], SortByDesirability(deck)[..4], deck[4..])
    ensures forall c :: c in NightmareDeal(deck).computer ==>
              c in NightmareDeal(deck).player || c in NightmareDeal(deck).pile
    ensures |DealtPool(NightmareDeal(deck))| == 44
  {
    var sorted := SortByDesirability(deck);
    assert deck == deck[..4] + deck[4..];
    forall c | c in sorted[..4] ensures c in deck[..4] || c in deck[4..] {
      assert c in multiset(sorted);
    }
  }

  /** A shuffled advanced deck has 9 good cards and 31 others. */
  lemma AdvancedDeckSplit(deck: seq<Card>)
    requires multiset(deck) == multiset(DeckOf(Advanced))
    ensures |deck| == 40 && |Keep(deck, true)| == 9 && |Keep(deck, false)| == 31
  {
    DeckSize(Advanced);
    assert |deck| == |multiset(deck)|;
    ShuffledDeckSplit(Advanced, deck);
  }

  /** The advanced deal of a deck with 9 good cards and 31 others: two
      good and two other cards to the computer, two other and two good
      cards to the player, and the whole deck behind the undealt good and
      other cards in the draw pile, so 80 cards are in play. */
  lemma AdvancedDealDuplicates(deck: seq<Card>)
    requires |deck| == 40 && |Keep(deck, true)| == 9 && |Keep(deck, false)| == 31
    ensures AdvancedDeal(deck).pile == Drop(Keep(deck, true), 4) + Drop(Keep(deck, false), 4) + deck
    ensures |AdvancedDeal(deck).pile| == 72
    ensures forall c :: c in AdvancedDeal(deck).computer + AdvancedDeal(deck).player ==>
              c in AdvancedDeal(deck).pile
    ensures |DealtPool(AdvancedDeal(deck))| == 80
  {
    AdvancedDealShape(deck);
  }

  /** With at least four cards of each kind, the advanced deal hands out
      four cards to each side that all remain in the deck behind the draw
      pile's undealt cards. */
  lemma AdvancedDealShape(deck: seq<Card>)
    requires |Keep(deck, true)| >= 4 && |Keep(deck, false)| >= 4
    ensures |AdvancedDeal(deck).computer| == 4 && |AdvancedDeal(deck).player| == 4
    ensures AdvancedDeal(deck).pile == Drop(Keep(deck, true), 4) + Drop(Keep(deck, false), 4) + deck
    ensures forall c :: c in AdvancedDeal(deck).computer + AdvancedDeal(deck).player ==> c in deck
  {
    var good, other := Keep(deck, true), Keep(deck, false);
    assert Drop(Drop(good, 2), 2) == Drop(good, 4);
    assert Drop(Drop(other, 2), 2) == Drop(other, 4);
    var deal := AdvancedDeal(deck);
    forall c | c in deal.computer + deal.player ensures c in deck {
      KeepMembers(deck, true, c);
      KeepMembers(deck, false, c);
      assert c in good || c in other;
    }
  }

  /** The deck and the deal of startGame: the tier's deck, shuffled, dealt
      by the tier's policy. Only the beginner and intermediate deals put
      every card of the deck in exactly one place. */
  method ShuffleAndDeal(d: Difficulty, rand: nat -> nat) returns (deck: seq<Card>, dealt: Deal)
    ensures deck == Shuffled(DeckOf(d), rand)
    ensures |deck| == 40 && multiset(deck) == multiset(DeckOf(d))
    ensures DistinctIds(deck)
    ensures dealt == DealFor(d, deck)
    ensures DealtPool(dealt) == multiset(deck) <==> !d.Nightmare? && !d.Advanced?
  {
    var generated := GenerateDeck(d);
    deck := Shuffle(generated, rand);
    ShuffledDeckIdsDistinct(d, deck);
    assert |multiset(deck)| == 40;
    if d == Nightmare {
      NightmareDealDuplicates(deck);
      dealt := NightmareDeal(deck);
    } else if d == Advanced {
      AdvancedDeckSplit(deck);
      AdvancedDealDuplicates(deck);
      dealt := AdvancedDeal(deck);
    } else {
      NormalDealConserves(deck);
      dealt := NormalDeal(deck);
    }
  }

  class GameEngine {
    const difficulty: Difficulty
    var playerHand: seq<Card>
    var computerHand: seq<Card>
    var drawPile: seq<Card>
    var playedCards: seq<Card>
    var score: int
    var turn: Side
    var winner: Option<Side>
    /** The shuffled deck the current game was dealt from. */
    ghost var deck: seq<Card>

    /** The hook's initial state, before the first deal. */
    constructor (difficulty: Difficulty)
      ensures this.difficulty == difficulty
      ensures playerHand == [] && computerHand == [] && drawPile == [] && playedCards == []
      ensures score == 0 && turn == Player && winner == None
      ensures deck == [] && Conserved()
    {
      this.difficulty := difficulty;
      playerHand, computerHand, drawPile, playedCards := [], [], [], [];
      score, turn, winner := 0, Player, None;
      deck := [];
    }

    function Hand(isPlayer: bool): seq<Card>
      reads this
    {
      if isPlayer then playerHand else computerHand
    }

    function LastPlayed(): Option<Card>
      reads this
    {
      if playedCards == [] then None else Some(playedCards[|playedCards| - 1])
    }

    /** Every card held or piled, with multiplicity. */
    ghost function Pool(): multiset<Card>
      reads this
    {
      multiset(playerHand) + multiset(computerHand) + multiset(drawPile) + multiset(playedCards)
    }

    /** Every card of the dealt deck is in exactly one hand or pile, and no
        two cards share an id. */
    ghost predicate Conserved()
      reads this
    {
      Pool() == multiset(deck) && DistinctIds(deck)
    }

    twostate predicate Unchanged()
      reads this
    {
      && playerHand == old(playerHand) && computerHand == old(computerHand)
      && drawPile == old(drawPile) && playedCards == old(playedCards)
      && score == old(score) && turn == old(turn) && winner == old(winner)
      && deck == old(deck)
    }

    /** The transition of playCard: nothing once there is a winner; else
        the resolved score, the card on the played pile, every card with
        its id out of the actor's hand, the turn to the other side, and a
        win for the actor at 45 or more. */
    twostate predicate PlayedCard(card: Card, isPlayer: bool)
      reads this
    {
      && (old(winner).Some? ==> Unchanged())
      && (old(winner).None? ==>
            && score == ApplyCardEffect(card, old(score), old(LastPlayed()))
            && playedCards == old(playedCards) + [card]
            && Hand(isPlayer) == RemoveId(old(Hand(isPlayer)), card.id)
            && Hand(!isPlayer) == old(Hand(!isPlayer))
            && drawPile == old(drawPile)
            && turn == SideOf(!isPlayer)
            && winner == (if score >= Target then Some(SideOf(isPlayer)) else None)
            && deck == old(deck))
    }

    /** The transition of drawCard: an empty draw pile with more than one
        played card is rebuilt from all played cards but the last and
        nothing is drawn; an empty draw pile otherwise changes nothing; a
        non-empty one gives its first card to the actor. */
    twostate predicate DrewCard(isPlayer: bool, rand: nat -> nat)
      reads this
    {
      && score == old(score) && turn == old(turn) && winner == old(winner) && deck == old(deck)
      && (old(drawPile) == [] && |old(playedCards)| > 1 ==>
            && drawPile == Shuffled(old(playedCards)[..|old(playedCards)| - 1], rand)
            && |drawPile| == |old(playedCards)| - 1
            && multiset(drawPile) == multiset(old(playedCards)[..|old(playedCards)| - 1])
            && playedCards == [old(playedCards)[|old(playedCards)| - 1]]
            && playerHand == old(playerHand) && computerHand == old(computerHand))
      && (old(drawPile) == [] && |old(playedCards)| <= 1 ==> Unchanged())
      && (old(drawPile) != [] ==>
            && drawPile == old(drawPile)[1..]
            && playedCards == old(playedCards)
            && Hand(isPlayer) == old(Hand(isPlayer)) + [old(drawPile)[0]]
            && Hand(!isPlayer) == old(Hand(!isPlayer)))
    }

    /** playCard. It checks only for a winner: whose turn it is and whether
        the card is in the hand are left to the board. */
    method PlayCard(card: Card, isPlayer: bool)
      modifies this
      ensures PlayedCard(card, isPlayer)
      ensures old(Conserved()) && card in old(Hand(isPlayer)) ==> Conserved()
    {
      if winner.Some? {
        return;
      }
      var newScore := ApplyCardEffect(card, score, LastPlayed());
      var newWinner := if newScore >= Target then Some(SideOf(isPlayer)) else None;
      var newPlayed := playedCards + [card];
      if isPlayer {
        PlayKeepsPool(deck, playerHand, computerHand, drawPile, playedCards, card);
        playerHand, playedCards, score, turn, winner :=
          RemoveId(playerHand, card.id), newPlayed, newScore, Computer, newWinner;
      } else {
        PlayKeepsPool(deck, computerHand, playerHand, drawPile, playedCards, card);
        computerHand, playedCards, score, turn, winner :=
          RemoveId(computerHand, card.id), newPlayed, newScore, Player, newWinner;
      }
    }

    /** drawCard. It ignores the winner and the turn. The emptiness test
        after a recycle reads the draw pile as it was before the call, so
        the recycling call draws nothing. */
    method DrawCard(isPlayer: bool, rand: nat -> nat)
      modifies this
      ensures DrewCard(isPlayer, rand)
      ensures old(Conserved()) ==> Conserved()
    {
      if |drawPile| == 0 {
        if |playedCards| > 1 {
          var last := playedCards[|playedCards| - 1];
          var recycled := Shuffle(playedCards[..|playedCards| - 1], rand);
          RecycleKeepsPool(playerHand, computerHand, playedCards, recycled);
          drawPile, playedCards := recycled, [last];
        }
        // The test below the recycle still sees the empty pile.
        return;
      }
      var drawn := drawPile[0];
      if isPlayer {
        DrawKeepsPool(playerHand, computerHand, drawPile, playedCards);
        playerHand, drawPile := playerHand + [drawn], drawPile[1..];
      } else {
        DrawKeepsPool(computerHand, playerHand, drawPile, playedCards);
        computerHand, drawPile := computerHand + [drawn], drawPile[1..];
      }
    }

    /** makeComputerMove: play the strategy's card, or draw from an empty
        hand. Neither the turn nor the winner is checked here. */
    method MakeComputerMove(rand: nat -> nat)
      modifies this
      ensures old(computerHand) != [] ==>
        exists c :: && IsComputerChoice(old(computerHand), old(score), difficulty, c)
                    && c in old(computerHand)
                    && PlayedCard(c, false)
      ensures old(computerHand) == [] ==> DrewCard(false, rand)
      ensures old(Conserved()) ==> Conserved()
    {
      if |computerHand| > 0 {
        var selectedCard := GetComputerMove(computerHand, score, difficulty);
        if selectedCard.Some? {
          PlayCard(selectedCard.value, false);
        }
      } else {
        DrawCard(false, rand);
      }
    }

    /** startGame: build and shuffle the tier's deck, deal by the tier's
        policy, and reset the score, the played pile, the turn and the
        winner. Only the beginner, intermediate and unknown deals keep
        every card in exactly one place: the advanced deal leaves the dealt
        cards in the draw pile as well, and the nightmare computer's cards
        come from a sorted copy and stay in the deck. */
    method StartGame(rand: nat -> nat)
      modifies this
      ensures deck == Shuffled(DeckOf(difficulty), rand)
      ensures |deck| == 40 && multiset(deck) == multiset(DeckOf(difficulty))
      ensures Deal(playerHand, computerHand, drawPile) == DealFor(difficulty, deck)
      ensures score == 0 && playedCards == [] && turn == Player && winner == None
      ensures Conserved() <==> !difficulty.Nightmare? && !difficulty.Advanced?
    {
      var newDeck, dealt := ShuffleAndDeal(difficulty, rand);
      Install(newDeck, dealt);
    }

    /** The seven setters at the end of startGame. */
    method Install(newDeck: seq<Card>, dealt: Deal)
      modifies this
      ensures deck == newDeck && Deal(playerHand, computerHand, drawPile) == dealt
      ensures score == 0 && playedCards == [] && turn == Player && winner == None
      ensures Pool() == DealtPool(dealt)
    {
      deck, playerHand, computerHand, drawPile := newDeck, dealt.player, dealt.computer, dealt.pile;
      playedCards, score, turn, winner := [], 0, Player, None;
    }
  }
}
