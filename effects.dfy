/** The effect resolver: the score that playing one card produces, given
    the current score and the card played just before it. */
module Effects {
  import opened Cards

  predicate IsRepeat(c: Card) {
    c.Symbol? && c.kind == Repeat
  }

  /** The flexible card's window: |45 - score| <= 5. */
  predicate WithinFlexWindow(score: int) {
    -5 <= Target - score <= 5
  }

  /** New score after playing `card` at `score`. A repeat card replays the
      last card with no last card of its own, so recursion stops at depth
      one and a repeat of a repeat leaves the score alone. Letter cards
      divide and round toward minus infinity, which is what Dafny's `/`
      does for a positive divisor. */
  function ApplyCardEffect(card: Card, score: int, lastCard: Option<Card>): (r: int)
    ensures card.Number? ==> r == score + card.effect
    ensures card.Alpha? ==> card.rank * r <= score < card.rank * r + card.rank
    ensures card.Symbol? && card.kind == Bonus10 ==> r == score + 10
    ensures card.Symbol? && card.kind == Flexible ==>
              (r == Target <==> WithinFlexWindow(score)) && (r == Target || r == score)
    ensures IsRepeat(card) && (lastCard.None? || IsRepeat(lastCard.value)) ==> r == score
    decreases if lastCard.Some? then 1 else 0
  {
    match card
    case Number(_, _, effect) => score + effect
    case Alpha(_, _, rank) => score / rank
    case Symbol(_, _, kind) =>
      if kind == Repeat && lastCard.Some? then ApplyCardEffect(lastCard.value, score, None)
      else if kind == Bonus10 then score + 10
      else if kind == Flexible && WithinFlexWindow(score) then Target
      else score
  }

  /** Only a repeat card looks at the last card. */
  lemma LastCardOnlyMattersToRepeat(card: Card, score: int, x: Option<Card>, y: Option<Card>)
    requires !IsRepeat(card)
    ensures ApplyCardEffect(card, score, x) == ApplyCardEffect(card, score, y)
  {
  }

  /** A repeat card has the effect of the card it follows, played afresh. */
  lemma {:induction false} RepeatReplaysLast(repeat: Card, last: Card, score: int, x: Option<Card>)
    requires IsRepeat(repeat) && !IsRepeat(last)
    ensures ApplyCardEffect(repeat, score, Some(last)) == ApplyCardEffect(last, score, x)
  {
    LastCardOnlyMattersToRepeat(last, score, None, x);
  }

  lemma ResolveExamples()
    ensures ApplyCardEffect(Alpha("AC", 'C', 3), 10, None) == 3
    ensures ApplyCardEffect(Alpha("AB", 'B', 2), -3, None) == -2
    ensures ApplyCardEffect(Number("N7", 7, -7), 5, None) == -2
    ensures ApplyCardEffect(Symbol("S@1", '@', Flexible), 42, None) == 45
    ensures ApplyCardEffect(Symbol("S@1", '@', Flexible), 30, None) == 30
  {
  }
}
