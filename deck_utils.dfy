/** The stand-alone deck builder of the utilities: a fixed 40-card deck of
    thirty number cards N1..N30, the six alphabet cards AA..AF and four
    symbol cards, with no effects and no difficulty. Nothing in the engine
    uses it; its cards carry only an id, a type and a value or a symbol. */
module DeckUtils {
  import opened Decimal

  datatype PlainCard =
    | NumberCard(id: string, value: nat)
    | AlphabetCard(id: string, value: nat)
    | SymbolCard(id: string, symbol: char)

  const Letters: string := "ABCDEF"

  /** The i-th card of Array.from({ length: 30 }, ...): id N(i+1), value i+1. */
  function NumberAt(i: nat): PlainCard {
    NumberCard("N" + NatToString(i + 1), i + 1)
  }

  /** The card the alphabet map builds from letter i: id A followed by the
      letter, value i+1. */
  function AlphabetAt(i: nat): PlainCard
    requires i < 6
  {
    AlphabetCard("A" + [Letters[i]], i + 1)
  }

  function NumberCards(): (r: seq<PlainCard>)
    ensures |r| == 30
  {
    seq(30, i requires 0 <= i < 30 => NumberAt(i))
  }

  function AlphabetCards(): (r: seq<PlainCard>)
    ensures |r| == 6
  {
    seq(6, i requires 0 <= i < 6 => AlphabetAt(i))
  }

  const SymbolCards: seq<PlainCard> := [
    SymbolCard("S*", '*'),
    SymbolCard("S$", '$'),
    SymbolCard("S@1", '@'),
    SymbolCard("S@2", '@')
  ]

  /** generateDeck(): the number cards, then the alphabet cards, then the
      symbol cards. */
  function GenerateDeck(): (deck: seq<PlainCard>)
    ensures |deck| == 40
  {
    NumberCards() + AlphabetCards() + SymbolCards
  }

  /** Positions 0..29 hold N1..N30 with values 1..30. */
  lemma NumberCardsInOrder()
    ensures forall i :: 0 <= i < 30 ==>
      && GenerateDeck()[i].NumberCard?
      && GenerateDeck()[i].value == i + 1
      && GenerateDeck()[i].id == "N" + NatToString(i + 1)
  {
    var deck := GenerateDeck();
    forall i | 0 <= i < 30
      ensures deck[i].NumberCard? && deck[i].value == i + 1 && deck[i].id == "N" + NatToString(i + 1)
    {
      assert deck[i] == NumberCards()[i];
    }
  }

  /** Positions 30..35 hold AA..AF with values 1..6. */
  lemma AlphabetCardsInOrder()
    ensures [GenerateDeck()[30].id, GenerateDeck()[31].id, GenerateDeck()[32].id,
             GenerateDeck()[33].id, GenerateDeck()[34].id, GenerateDeck()[35].id]
            == ["AA", "AB", "AC", "AD", "AE", "AF"]
    ensures forall i :: 30 <= i < 36 ==>
      GenerateDeck()[i].AlphabetCard? && GenerateDeck()[i].value == i - 29
  {
    var deck := GenerateDeck();
    forall i | 30 <= i < 36 ensures deck[i] == AlphabetAt(i - 30) {
      assert deck[i] == AlphabetCards()[i - 30];
    }
    assert deck[30].id == "AA" && deck[31].id == "AB" && deck[32].id == "AC";
    assert deck[33].id == "AD" && deck[34].id == "AE" && deck[35].id == "AF";
  }

  /** Positions 36..39 hold the four symbol cards S*, S$, S@1 and S@2. */
  lemma SymbolCardsLast()
    ensures GenerateDeck()[36..] == SymbolCards
    ensures [GenerateDeck()[36].id, GenerateDeck()[37].id, GenerateDeck()[38].id, GenerateDeck()[39].id]
            == ["S*", "S$", "S@1", "S@2"]
    ensures forall i :: 36 <= i < 40 ==> GenerateDeck()[i].SymbolCard?
  {
    var deck := GenerateDeck();
    assert deck == (NumberCards() + AlphabetCards()) + SymbolCards;
  }

  /** Exactly the positions of each group hold its kind of card: numbers
      first, then the alphabet, then the symbols. */
  lemma DeckOrder()
    ensures forall i :: 0 <= i < 40 ==>
      && (GenerateDeck()[i].NumberCard? <==> i < 30)
      && (GenerateDeck()[i].AlphabetCard? <==> 30 <= i < 36)
      && (GenerateDeck()[i].SymbolCard? <==> 36 <= i)
  {
    NumberCardsInOrder();
    AlphabetCardsInOrder();
    SymbolCardsLast();
  }

  /** The first character of every id names the card's group. */
  lemma IdPrefixAt(i: nat)
    requires i < 40
    ensures |GenerateDeck()[i].id| >= 2
    ensures GenerateDeck()[i].id[0] == if i < 30 then 'N' else if i < 36 then 'A' else 'S'
  {
    var deck := GenerateDeck();
    if i < 30 {
      assert deck[i] == NumberAt(i);
    } else if i < 36 {
      assert deck[i] == AlphabetAt(i - 30);
    } else {
      assert deck[i] == SymbolCards[i - 36];
    }
  }

  /** Two cards at different positions have different ids. */
  lemma IdsDistinctAt(i: nat, j: nat)
    requires i < j < 40
    ensures GenerateDeck()[i].id != GenerateDeck()[j].id
  {
    var deck := GenerateDeck();
    IdPrefixAt(i);
    IdPrefixAt(j);
    if j < 30 {
      assert deck[i] == NumberAt(i) && deck[j] == NumberAt(j);
      var si, sj := deck[i].id, deck[j].id;
      assert si[1..] == NatToString(i + 1) && sj[1..] == NatToString(j + 1);
      if si == sj {
        NatToStringInjective(i + 1, j + 1);
      }
    } else if 30 <= i && j < 36 {
      assert deck[i] == AlphabetAt(i - 30) && deck[j] == AlphabetAt(j - 30);
      assert AlphabetAt(i - 30).id[1] != AlphabetAt(j - 30).id[1];
    } else if 36 <= i {
      assert deck[i] == SymbolCards[i - 36] && deck[j] == SymbolCards[j - 36];
    }
  }

  /** All forty ids are pairwise distinct. */
  lemma IdsDistinct()
    ensures forall i, j :: 0 <= i < j < |GenerateDeck()| ==> GenerateDeck()[i].id != GenerateDeck()[j].id
  {
    var deck := GenerateDeck();
    forall i, j | 0 <= i < j < |deck| ensures deck[i].id != deck[j].id {
      IdsDistinctAt(i, j);
    }
  }
}
