/** The difficulty-weighted 40-card deck of the game engine: 30 number
    cards split into favourable (even, positive effect) and unfavourable
    (odd, negative effect) ones, six letter cards and four symbol cards. */
module Deck {
  import opened Cards
  import opened Decimal

  /** The favourable ratio of each tier, in percent; an unknown tier gets
      the intermediate ratio. */
  function FavorablePercent(d: Difficulty): nat {
    match d
    case Beginner => 70
    case Intermediate => 50
    case Advanced => 30
    case Nightmare => 20
    case Unknown => 50
  }

  /** floor(30 * ratio). */
  function FavorableCount(d: Difficulty): (n: nat)
    ensures n <= 30
  {
    30 * FavorablePercent(d) / 100
  }

  lemma FavorableCountTable()
    ensures FavorableCount(Beginner) == 21 && FavorableCount(Intermediate) == 15
    ensures FavorableCount(Advanced) == 9 && FavorableCount(Nightmare) == 6
    ensures FavorableCount(Unknown) == FavorableCount(Intermediate)
  {
  }

  function NumberCard(val: nat, effect: int): Card {
    Number("N" + NatToString(val), val, effect)
  }

  /** The i-th favourable card: value 2(i+1), effect +value. */
  function FavorableCard(i: nat): Card {
    NumberCard((i + 1) * 2, (i + 1) * 2)
  }

  /** The i-th unfavourable card: value 2i+1, effect -value. */
  function UnfavorableCard(i: nat): Card {
    NumberCard(i * 2 + 1, -(i * 2 + 1))
  }

  const Alphabet: string := "ABCDEF"

  function AlphaCard(i: nat): Card
    requires i < 6
  {
    Alpha("A" + [Alphabet[i]], Alphabet[i], i + 1)
  }

  function AlphabetCards(): seq<Card> {
    seq(6, i requires 0 <= i < 6 => AlphaCard(i))
  }

  const SymbolCards: seq<Card> := [
    Symbol("S*1", '*', Repeat),
    Symbol("S$1", '$', Bonus10),
    Symbol("S@1", '@', Flexible),
    Symbol("S@2", '@', Flexible)
  ]

  function Favorables(n: nat): seq<Card> {
    seq(n, i requires 0 <= i => FavorableCard(i))
  }

  function Unfavorables(n: nat): seq<Card> {
    seq(n, i requires 0 <= i => UnfavorableCard(i))
  }

  /** The deck a tier is built from, before shuffling. */
  function DeckOf(d: Difficulty): seq<Card> {
    var fav := FavorableCount(d);
    Favorables(fav) + Unfavorables(30 - fav) + AlphabetCards() + SymbolCards
  }

  /** The engine's deck builder, filling the number cards with two push
      loops and appending the letter and symbol cards. */
  method GenerateDeck(d: Difficulty) returns (deck: seq<Card>)
    ensures deck == DeckOf(d)
  {
    var favorableCount := FavorableCount(d);
    var unfavorableCount := 30 - favorableCount;
    var numberCards: seq<Card> := [];
    var i := 0;
    while i < favorableCount
      invariant 0 <= i <= favorableCount
      invariant numberCards == Favorables(i)
    {
      var val: int := (i + 1) * 2;
      numberCards := numberCards + [Number("N" + NatToString(val), val, val)];
      i := i + 1;
    }
    i := 0;
    while i < unfavorableCount
      invariant 0 <= i <= unfavorableCount
      invariant numberCards == Favorables(favorableCount) + Unfavorables(i)
    {
      var val: int := i * 2 + 1;
      numberCards := numberCards + [Number("N" + NatToString(val), val, -val)];
      i := i + 1;
    }
    var alphabetCards := seq(|Alphabet|, k requires 0 <= k < |Alphabet| =>
      Alpha("A" + [Alphabet[k]], Alphabet[k], k + 1));
    deck := numberCards + alphabetCards + SymbolCards;
  }

  /** Forty cards: numbers in positions 0..29, letters in 30..35 with ranks
      1..6, symbols in 36..39 (one repeat, one +10, two flexible). */
  lemma DeckShape(d: Difficulty)
    ensures |DeckOf(d)| == 40
    ensures forall i :: 0 <= i < 40 ==>
      && (DeckOf(d)[i].Number? <==> i < 30)
      && (DeckOf(d)[i].Alpha? <==> 30 <= i < 36)
      && (DeckOf(d)[i].Symbol? <==> 36 <= i)
    ensures forall i :: 30 <= i < 36 ==> DeckOf(d)[i].Alpha? && DeckOf(d)[i].rank == i - 29
    ensures [DeckOf(d)[36].kind, DeckOf(d)[37].kind, DeckOf(d)[38].kind, DeckOf(d)[39].kind]
            == [Repeat, Bonus10, Flexible, Flexible]
  {
    var fav := FavorableCount(d);
    var deck := DeckOf(d);
    assert |Favorables(fav) + Unfavorables(30 - fav)| == 30;
    forall i | 0 <= i < 40
      ensures && (deck[i].Number? <==> i < 30)
              && (deck[i].Alpha? <==> 30 <= i < 36)
              && (deck[i].Symbol? <==> 36 <= i)
    {
      if i < fav {
        assert deck[i] == FavorableCard(i);
      } else if i < 30 {
        assert deck[i] == UnfavorableCard(i - fav);
      } else if i < 36 {
        assert deck[i] == AlphaCard(i - 30);
      } else {
        assert deck[i] == SymbolCards[i - 36];
      }
    }
    forall i | 30 <= i < 36 ensures deck[i].Alpha? && deck[i].rank == i - 29 {
      assert deck[i] == AlphaCard(i - 30);
    }
  }

  /** Position i < 30 of a deck holds the i-th favourable card or, past
      the favourable ones, an unfavourable card. */
  lemma NumberCardAt(d: Difficulty, i: nat)
    requires i < 30
    ensures |DeckOf(d)| == 40
    ensures DeckOf(d)[i] == if i < FavorableCount(d) then FavorableCard(i)
                            else UnfavorableCard(i - FavorableCount(d))
  {
    var fav := FavorableCount(d);
    var numbers := Favorables(fav) + Unfavorables(30 - fav);
    assert DeckOf(d) == numbers + (AlphabetCards() + SymbolCards);
    assert DeckOf(d)[i] == numbers[i];
  }

  /** The card at position i < 30 is a number card; it is favourable
      exactly when i < FavorableCount(d), and then it is even with effect
      +value, otherwise odd with effect -value. */
  lemma NumberCardSigned(d: Difficulty, i: nat)
    requires i < 30
    ensures |DeckOf(d)| == 40
    ensures var c := DeckOf(d)[i];
      && c.Number? && c.value > 0
      && (c.effect > 0 <==> i < FavorableCount(d))
      && (c.effect > 0 ==> c.value % 2 == 0 && c.effect == c.value)
      && (c.effect <= 0 ==> c.value % 2 == 1 && c.effect == -c.value)
  {
    NumberCardAt(d, i);
  }

  /** The number cards: exactly the first FavorableCount(d) of them are
      favourable, and those are the even ones with effect +value; the rest
      are odd with effect -value. */
  lemma NumberCardsSigned(d: Difficulty)
    ensures |DeckOf(d)| == 40
    ensures forall i :: 0 <= i < 30 ==>
      && DeckOf(d)[i].Number?
      && DeckOf(d)[i].value > 0
      && (DeckOf(d)[i].effect > 0 <==> i < FavorableCount(d))
      && (DeckOf(d)[i].effect > 0 ==> DeckOf(d)[i].value % 2 == 0 && DeckOf(d)[i].effect == DeckOf(d)[i].value)
      && (DeckOf(d)[i].effect <= 0 ==> DeckOf(d)[i].value % 2 == 1 && DeckOf(d)[i].effect == -DeckOf(d)[i].value)
  {
    NumberCardAt(d, 0);
    forall i | 0 <= i < 30
      ensures && DeckOf(d)[i].Number?
              && DeckOf(d)[i].value > 0
              && (DeckOf(d)[i].effect > 0 <==> i < FavorableCount(d))
              && (DeckOf(d)[i].effect > 0 ==> DeckOf(d)[i].value % 2 == 0 && DeckOf(d)[i].effect == DeckOf(d)[i].value)
              && (DeckOf(d)[i].effect <= 0 ==> DeckOf(d)[i].value % 2 == 1 && DeckOf(d)[i].effect == -DeckOf(d)[i].value)
    {
      NumberCardSigned(d, i);
    }
  }

  /** Number-card values are pairwise distinct: evens among themselves,
      odds among themselves, and an even is never an odd. */
  lemma NumberValuesDistinct(d: Difficulty, i: nat, j: nat)
    requires i < j < 30
    ensures DeckOf(d)[i].Number? && DeckOf(d)[j].Number?
    ensures DeckOf(d)[i].value != DeckOf(d)[j].value
  {
    NumberCardAt(d, i);
    NumberCardAt(d, j);
  }

  /** The first character of every identifier names the card's kind. */
  lemma IdPrefix(d: Difficulty, i: nat)
    requires i < 40
    ensures |DeckOf(d)| == 40
    ensures |DeckOf(d)[i].id| >= 2
    ensures DeckOf(d)[i].id[0] == if i < 30 then 'N' else if i < 36 then 'A' else 'S'
  {
    var fav := FavorableCount(d);
    var deck := DeckOf(d);
    assert |Favorables(fav) + Unfavorables(30 - fav)| == 30;
    if i < fav {
      assert deck[i] == FavorableCard(i);
    } else if i < 30 {
      assert deck[i] == UnfavorableCard(i - fav);
    } else if i < 36 {
      assert deck[i] == AlphaCard(i - 30);
    } else {
      assert deck[i] == SymbolCards[i - 36];
    }
  }

  /** A number card's identifier is "N" followed by its value in decimal. */
  lemma NumberIdAt(d: Difficulty, i: nat)
    requires i < 30
    ensures |DeckOf(d)| == 40 && DeckOf(d)[i].Number?
    ensures DeckOf(d)[i].id == "N" + NatToString(DeckOf(d)[i].value)
  {
    NumberCardAt(d, i);
  }

  /** Two number cards have different identifiers, as their values differ. */
  lemma NumberIdsDistinct(d: Difficulty, i: nat, j: nat)
    requires i < j < 30
    ensures DeckOf(d)[i].id != DeckOf(d)[j].id
  {
    NumberValuesDistinct(d, i, j);
    NumberIdAt(d, i);
    NumberIdAt(d, j);
    var vi, vj := DeckOf(d)[i].value, DeckOf(d)[j].value;
    var si, sj := DeckOf(d)[i].id, DeckOf(d)[j].id;
    assert si[1..] == NatToString(vi) && sj[1..] == NatToString(vj);
    if si == sj {
      NatToStringInjective(vi, vj);
    }
  }

  /** Behind any thirty number cards, two letter cards have different
      identifiers, and so do two symbol cards. */
  lemma TailIdsDistinct(numbers: seq<Card>, i: nat, j: nat)
    requires |numbers| == 30 && 30 <= i < j < 40 && (j < 36 || 36 <= i)
    ensures (numbers + AlphabetCards() + SymbolCards)[i].id != (numbers + AlphabetCards() + SymbolCards)[j].id
  {
    var deck := numbers + AlphabetCards() + SymbolCards;
    if j < 36 {
      assert deck[i] == AlphaCard(i - 30) && deck[j] == AlphaCard(j - 30);
      assert AlphaCard(i - 30).id[1] != AlphaCard(j - 30).id[1];
    } else {
      assert deck[i] == SymbolCards[i - 36] && deck[j] == SymbolCards[j - 36];
    }
  }

  /** Cards at two different positions of a deck have different ids. */
  lemma IdsDistinctAt(d: Difficulty, i: nat, j: nat)
    requires i < j < 40
    ensures |DeckOf(d)| == 40 && DeckOf(d)[i].id != DeckOf(d)[j].id
  {
    if j < 30 {
      NumberIdsDistinct(d, i, j);
    } else if 30 <= i && (j < 36 || 36 <= i) {
      var fav := FavorableCount(d);
      var numbers := Favorables(fav) + Unfavorables(30 - fav);
      assert |numbers| == 30;
      TailIdsDistinct(numbers, i, j);
    } else {
      IdPrefix(d, i);
      IdPrefix(d, j);
    }
  }

  /** Every identifier in a tier's deck is different from every other. */
  lemma DeckIdsDistinct(d: Difficulty)
    ensures DistinctIds(DeckOf(d))
  {
    var deck := DeckOf(d);
    IdPrefix(d, 0);
    forall i, j | 0 <= i < j < |deck| ensures deck[i].id != deck[j].id {
      IdsDistinctAt(d, i, j);
    }
  }

  lemma UnknownTierIsIntermediate()
    ensures DeckOf(Unknown) == DeckOf(Intermediate)
  {
  }
}
