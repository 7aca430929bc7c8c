/** The computer opponent's move selection, one strategy per tier. */
module Strategy {
  import opened Cards
  import opened Effects

  /** The score the advanced and nightmare tiers expect from a card. The
      repeat card falls through every case and projects an unchanged
      score. */
  function Project(card: Card, score: int): (p: int)
    ensures p == ApplyCardEffect(card, score, None)
  {
    match card
    case Number(_, _, effect) => score + effect
    case Alpha(_, _, rank) => score / rank
    case Symbol(_, _, kind) =>
      if kind == Bonus10 then score + 10
      else if kind == Flexible && WithinFlexWindow(score) then Target
      else score
  }

  /** The intermediate tier's notion of a positive card. */
  predicate IsPositive(c: Card) {
    (c.Number? && c.effect > 0) || (c.Symbol? && c.kind == Bonus10)
  }

  /** hand.filter(IsPositive). */
  function PositiveCards(hand: seq<Card>): (r: seq<Card>)
    ensures |r| <= |hand|
    ensures forall c :: c in r <==> c in hand && IsPositive(c)
  {
    if hand == [] then []
    else (if IsPositive(hand[0]) then [hand[0]] else []) + PositiveCards(hand[1..])
  }

  function IntermediateMove(hand: seq<Card>): (c: Card)
    requires hand != []
    ensures c in hand
  {
    var positive := PositiveCards(hand);
    if |positive| > 0 then positive[0] else hand[0]
  }

  /** The intermediate tier plays the first positive card of the hand. */
  lemma {:induction false} IntermediatePlaysFirstPositive(hand: seq<Card>, k: nat)
    requires k < |hand| && IsPositive(hand[k])
    requires forall j :: 0 <= j < k ==> !IsPositive(hand[j])
    ensures IntermediateMove(hand) == hand[k]
  {
    if k > 0 {
      assert hand[1..][k - 1] == hand[k];
      IntermediatePlaysFirstPositive(hand[1..], k - 1);
    }
  }

  /** Without a positive card the intermediate tier plays the first card. */
  lemma IntermediateFallsBackToFirst(hand: seq<Card>)
    requires hand != []
    requires forall j :: 0 <= j < |hand| ==> !IsPositive(hand[j])
    ensures IntermediateMove(hand) == hand[0]
  {
    if |PositiveCards(hand)| > 0 {
      assert PositiveCards(hand)[0] in PositiveCards(hand);
    }
  }

  /** Closer to 45 from below is better; overshooting costs twice its size. */
  function AdvancedValue(p: int): int {
    if p <= Target then p else Target - (p - Target) * 2
  }

  /** A projected win is worth 1000; otherwise the projection earns +50 at
      40 and above and, independently, +25 at 35 and above. */
  function NightmareValue(p: int): int {
    if p >= Target then 1000
    else p + (if p >= 40 then 50 else 0) + (if p >= 35 then 25 else 0)
  }

  /** Hitting 45 exactly is the advanced tier's unique best value. */
  lemma AdvancedValuePeaksAtTarget(p: int)
    ensures AdvancedValue(p) <= Target
    ensures AdvancedValue(p) == Target <==> p == Target
  {
  }

  /** Non-winning nightmare values stay below 1000 and grow strictly with
      the projection; a projection of 42 is worth 117. */
  lemma NightmareValueOrder(p: int, q: int)
    ensures p < Target ==> NightmareValue(p) <= 119
    ensures p < q < Target ==> NightmareValue(p) < NightmareValue(q)
    ensures NightmareValue(42) == 117
  {
  }

  function Projections(hand: seq<Card>, score: int): (v: seq<int>)
    ensures |v| == |hand|
  {
    seq(|hand|, i requires 0 <= i < |hand| => Project(hand[i], score))
  }

  function AdvancedValues(hand: seq<Card>, score: int): (v: seq<int>)
    ensures |v| == |hand|
  {
    seq(|hand|, i requires 0 <= i < |hand| => AdvancedValue(Project(hand[i], score)))
  }

  function NightmareValues(hand: seq<Card>, score: int): (v: seq<int>)
    ensures |v| == |hand|
  {
    seq(|hand|, i requires 0 <= i < |hand| => NightmareValue(Project(hand[i], score)))
  }

  /** k is the earliest position of a strictly greatest value. */
  predicate IsFirstMax(values: seq<int>, k: int) {
    && 0 <= k < |values|
    && (forall j :: 0 <= j < |values| ==> values[j] <= values[k])
    && (forall j :: 0 <= j < k ==> values[j] < values[k])
  }

  lemma FirstMaxIsUnique(values: seq<int>, k: int, m: int)
    requires IsFirstMax(values, k) && IsFirstMax(values, m)
    ensures k == m
  {
    assert values[k] == values[m];
  }

  /** The advanced tier's loop: keep the first card whose value beats every
      value seen so far (the first card beats the initial minus infinity). */
  method AdvancedMove(hand: seq<Card>, score: int) returns (bestCard: Card)
    requires hand != []
    ensures exists k :: IsFirstMax(AdvancedValues(hand, score), k) && bestCard == hand[k]
  {
    ghost var values := AdvancedValues(hand, score);
    ghost var at := 0;
    bestCard := hand[0];
    var bestScore := 0;
    var i := 0;
    while i < |hand|
      invariant 0 <= i <= |hand|
      invariant i > 0 ==> at < i && bestCard == hand[at] && bestScore == values[at]
      invariant i > 0 ==> IsFirstMax(values[..i], at)
      invariant i == 0 ==> at == 0 && bestCard == hand[0]
    {
      var projectedScore := Project(hand[i], score);
      var scoreValue := if projectedScore <= Target then projectedScore
                        else Target - (projectedScore - Target) * 2;
      if i == 0 || scoreValue > bestScore {
        bestScore, bestCard, at := scoreValue, hand[i], i;
      }
      i := i + 1;
    }
    assert values[..|hand|] == values;
    assert IsFirstMax(values, at);
  }

  /** The nightmare tier's loop, over its own values. */
  method NightmareMove(hand: seq<Card>, score: int) returns (optimalCard: Card)
    requires hand != []
    ensures exists k :: IsFirstMax(NightmareValues(hand, score), k) && optimalCard == hand[k]
  {
    ghost var values := NightmareValues(hand, score);
    ghost var at := 0;
    optimalCard := hand[0];
    var optimalValue := 0;
    var i := 0;
    while i < |hand|
      invariant 0 <= i <= |hand|
      invariant i > 0 ==> at < i && optimalCard == hand[at] && optimalValue == values[at]
      invariant i > 0 ==> IsFirstMax(values[..i], at)
      invariant i == 0 ==> at == 0 && optimalCard == hand[0]
    {
      var projectedScore := Project(hand[i], score);
      var value := 0;
      if projectedScore >= Target {
        value := 1000;
      } else {
        value := projectedScore;
        if projectedScore >= 40 { value := value + 50; }
        if projectedScore >= 35 { value := value + 25; }
      }
      if i == 0 || value > optimalValue {
        optimalValue, optimalCard, at := value, hand[i], i;
      }
      i := i + 1;
    }
    assert values[..|hand|] == values;
    assert IsFirstMax(values, at);
  }

  /** What each tier plays from a non-empty hand. Beginner and any unknown
      tier play the first card. */
  ghost predicate IsComputerChoice(hand: seq<Card>, score: int, difficulty: Difficulty, c: Card)
    requires hand != []
  {
    match difficulty
    case Beginner => c == hand[0]
    case Unknown => c == hand[0]
    case Intermediate => c == IntermediateMove(hand)
    case Advanced => exists k :: IsFirstMax(AdvancedValues(hand, score), k) && c == hand[k]
    case Nightmare => exists k :: IsFirstMax(NightmareValues(hand, score), k) && c == hand[k]
  }

  /** The computer's move: none for an empty hand, otherwise a card of the
      hand chosen by the tier's strategy. */
  method GetComputerMove(hand: seq<Card>, score: int, difficulty: Difficulty) returns (move: Option<Card>)
    ensures move.None? <==> hand == []
    ensures move.Some? ==> move.value in hand && IsComputerChoice(hand, score, difficulty, move.value)
  {
    if |hand| == 0 {
      return None;
    }
    match difficulty
    case Beginner =>
      move := Some(hand[0]);
    case Intermediate =>
      move := Some(IntermediateMove(hand));
    case Advanced =>
      var bestCard := AdvancedMove(hand, score);
      move := Some(bestCard);
    case Nightmare =>
      var optimalCard := NightmareMove(hand, score);
      move := Some(optimalCard);
    case Unknown =>
      move := Some(hand[0]);
  }

  /** Each tier's choice is determined by the hand and the score. */
  lemma ComputerChoiceIsDeterministic(hand: seq<Card>, score: int, difficulty: Difficulty, c: Card, e: Card)
    requires hand != []
    requires IsComputerChoice(hand, score, difficulty, c) && IsComputerChoice(hand, score, difficulty, e)
    ensures c == e
  {
    match difficulty
    case Advanced =>
      var k :| IsFirstMax(AdvancedValues(hand, score), k) && c == hand[k];
      var m :| IsFirstMax(AdvancedValues(hand, score), m) && e == hand[m];
      FirstMaxIsUnique(AdvancedValues(hand, score), k, m);
    case Nightmare =>
      var k :| IsFirstMax(NightmareValues(hand, score), k) && c == hand[k];
      var m :| IsFirstMax(NightmareValues(hand, score), m) && e == hand[m];
      FirstMaxIsUnique(NightmareValues(hand, score), k, m);
    case _ =>
  }

  /** The nightmare tier never passes up a card that reaches 45. */
  lemma NightmareTakesAWin(hand: seq<Card>, score: int, c: Card, w: nat)
    requires w < |hand| && Project(hand[w], score) >= Target
    requires IsComputerChoice(hand, score, Nightmare, c)
    ensures Project(c, score) >= Target
  {
    var values := NightmareValues(hand, score);
    var k :| IsFirstMax(values, k) && c == hand[k];
    assert values[w] == 1000 <= values[k];
    NightmareValueOrder(Project(c, score), Target);
  }

  /** With no winning card, the nightmare tier plays the first card of
      greatest projection. */
  lemma NightmareMaximisesProjection(hand: seq<Card>, score: int, c: Card)
    requires hand != []
    requires forall j :: 0 <= j < |hand| ==> Project(hand[j], score) < Target
    requires IsComputerChoice(hand, score, Nightmare, c)
    ensures exists k :: 0 <= k < |hand| && c == hand[k] && IsFirstMax(Projections(hand, score), k)
  {
    var values := NightmareValues(hand, score);
    var projections := Projections(hand, score);
    var k :| IsFirstMax(values, k) && c == hand[k];
    forall j | 0 <= j < |hand| ensures projections[j] <= projections[k] {
      NightmareValueOrder(projections[k], projections[j]);
    }
    forall j | 0 <= j < k ensures projections[j] < projections[k] {
      NightmareValueOrder(projections[k], projections[j]);
    }
    assert IsFirstMax(projections, k);
  }

  /** The advanced tier plays a card that lands exactly on 45 when there is one. */
  lemma AdvancedHitsTarget(hand: seq<Card>, score: int, c: Card, w: nat)
    requires w < |hand| && Project(hand[w], score) == Target
    requires IsComputerChoice(hand, score, Advanced, c)
    ensures Project(c, score) == Target
  {
    var values := AdvancedValues(hand, score);
    var k :| IsFirstMax(values, k) && c == hand[k];
    assert values[w] == Target <= values[k];
    AdvancedValuePeaksAtTarget(Project(c, score));
  }
}
