/** The engine's Fisher-Yates shuffle. Math.random is not modelled: the
    caller supplies `rand`, and step i swaps position i with position
    rand(i) mod (i + 1), which ranges over exactly the positions that
    floor(Math.random() * (i + 1)) can produce. */
module Shuffling {
  import opened Cards

  /** The destructuring swap of positions i and j. */
  function Swap(s: seq<Card>, i: nat, j: nat): (r: seq<Card>)
    requires i < |s| && j < |s|
    ensures |r| == |s|
  {
    s[i := s[j]][j := s[i]]
  }

  lemma SwapPermutes(s: seq<Card>, i: nat, j: nat)
    requires i < |s| && j < |s|
    ensures multiset(Swap(s, i, j)) == multiset(s)
  {
    var t := s[i := s[j]];
    assert multiset(t) == multiset(s) - multiset{s[i]} + multiset{s[j]};
  }

  /** The steps i, i - 1, ..., 1 of the shuffle applied to s. */
  function FisherYates(s: seq<Card>, i: int, rand: nat -> nat): (r: seq<Card>)
    requires i < |s|
    ensures |r| == |s|
    decreases i
  {
    if i <= 0 then s else FisherYates(Swap(s, i, rand(i) % (i + 1)), i - 1, rand)
  }

  /** The shuffle of a whole sequence, starting from its last position. */
  function Shuffled(cards: seq<Card>, rand: nat -> nat): seq<Card> {
    FisherYates(cards, |cards| - 1, rand)
  }

  /** Every step only swaps, so the shuffle is a permutation. */
  lemma {:induction false} FisherYatesPermutes(s: seq<Card>, i: int, rand: nat -> nat)
    requires i < |s|
    ensures multiset(FisherYates(s, i, rand)) == multiset(s)
    decreases i
  {
    if i > 0 {
      SwapPermutes(s, i, rand(i) % (i + 1));
      FisherYatesPermutes(Swap(s, i, rand(i) % (i + 1)), i - 1, rand);
    }
  }

  method Shuffle(cards: seq<Card>, rand: nat -> nat) returns (shuffled: seq<Card>)
    ensures shuffled == Shuffled(cards, rand)
    ensures |shuffled| == |cards| && multiset(shuffled) == multiset(cards)
  {
    var a := new Card[|cards|](k requires 0 <= k < |cards| => cards[k]);
    assert a[..] == cards;
    var i := a.Length - 1;
    while i > 0
      invariant -1 <= i < a.Length
      invariant FisherYates(a[..], i, rand) == Shuffled(cards, rand)
    {
      var j := rand(i) % (i + 1);
      ghost var before := a[..];
      a[i], a[j] := a[j], a[i];
      assert a[..] == Swap(before, i, j);
      i := i - 1;
    }
    shuffled := a[..];
    FisherYatesPermutes(cards, |cards| - 1, rand);
  }
}
