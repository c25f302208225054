/** The two bust probabilities the decision compares. They are kept exactly,
    as whole hundredths: 35 stands for 0.35 and 100 for 1. */
module Probability {

  /** The dealer's bust probability by the value of the upcard. */
  const DealerBustProbabilities: map<int, nat> := map[
    2 := 35,
    3 := 37,
    4 := 40,
    5 := 42,
    6 := 42,
    7 := 26,
    8 := 24,
    9 := 23,
    10 := 21,
    11 := 11
  ]

  /** getDealerBustProbability: the table entry, or 0 for a value without one
      (the 0 of an unknown card among them). */
  function DealerBustProbability(dealerCardValue: int): (p: nat)
    ensures p <= 42
    ensures p == 0 <==> !(2 <= dealerCardValue <= 11)
    ensures 2 <= dealerCardValue <= 11 ==> p >= 11
  {
    if dealerCardValue in DealerBustProbabilities then DealerBustProbabilities[dealerCardValue] else 0
  }

  /** The fixed values a next card is assumed to take. */
  const RemainingCards: seq<int> := [2, 3, 4, 5, 6, 7, 8, 9, 10, 11]

  /** How many of the values would push the total past 21. */
  function BustingCards(playerTotal: int, values: seq<int>): (n: nat)
    ensures n <= |values|
  {
    if values == [] then 0
    else (if playerTotal + values[0] > 21 then 1 else 0) + BustingCards(playerTotal, values[1..])
  }

  /** calculateBustProbability: the share of the fixed values that bust. */
  function CalculateBustProbability(playerTotal: int): (p: int)
    ensures 0 <= p <= 100
    ensures p % 10 == 0
  {
    BustingCards(playerTotal, RemainingCards) * 100 / |RemainingCards|
  }

  /** The integers lo, lo + 1, ..., hi - 1. */
  function Range(lo: int, hi: int): (r: seq<int>)
    requires lo <= hi
    ensures |r| == hi - lo
    decreases hi - lo
  {
    if lo == hi then [] else [lo] + Range(lo + 1, hi)
  }

  function Clamp(x: int, lo: int, hi: int): int {
    if x < lo then lo else if x > hi then hi else x
  }

  /** Of lo, ..., hi - 1, the ones that bust a total t are those from 22 - t
      on. */
  lemma {:induction false} BustingInRange(t: int, lo: int, hi: int)
    requires lo <= hi
    ensures BustingCards(t, Range(lo, hi)) == hi - Clamp(22 - t, lo, hi)
    decreases hi - lo
  {
    if lo < hi {
      BustingInRange(t, lo + 1, hi);
      assert Range(lo, hi)[1..] == Range(lo + 1, hi);
    }
  }

  /** The player's bust probability is 0.1 for every point above 10, up to 1:
      the number of values v in 2..11 with t + v > 21, over ten. */
  lemma BustProbabilityClosedForm(t: int)
    ensures CalculateBustProbability(t) == 10 * Clamp(t - 10, 0, 10)
  {
    assert RemainingCards == Range(2, 12);
    BustingInRange(t, 2, 12);
  }

  /** The player's bust probability lies between 0 and 1, is 0 for totals up
      to 10 and 1 for totals of 20 or more. */
  lemma BustProbabilityBounds(t: int)
    ensures 0 <= CalculateBustProbability(t) <= 100
    ensures t <= 10 ==> CalculateBustProbability(t) == 0
    ensures t >= 20 ==> CalculateBustProbability(t) == 100
  {
    BustProbabilityClosedForm(t);
  }

  /** A larger total never has a smaller bust probability. */
  lemma BustProbabilityMonotonic(t1: int, t2: int)
    requires t1 <= t2
    ensures CalculateBustProbability(t1) <= CalculateBustProbability(t2)
  {
    BustProbabilityClosedForm(t1);
    BustProbabilityClosedForm(t2);
  }
}
