/** Hand total: the sum of the card values, with aces demoted from 11 to 1,
    one at a time, while the total is over 21. */
module Hand {
  import opened Cards

  /** The sum of the card values, accumulated left to right. */
  function RawSum(cards: seq<string>): (r: nat)
    ensures r <= 11 * |cards|
  {
    if cards == [] then 0 else RawSum(cards[..|cards| - 1]) + ConvertCard(cards[|cards| - 1])
  }

  /** The number of aces in the hand. */
  function AceCount(cards: seq<string>): (r: nat)
    ensures r <= |cards|
  {
    if cards == [] then 0
    else AceCount(cards[..|cards| - 1]) + (if IsAce(cards[|cards| - 1]) then 1 else 0)
  }

  /** Some card of the hand is an ace. */
  predicate HasAce(cards: seq<string>) {
    exists i :: 0 <= i < |cards| && IsAce(cards[i])
  }

  function Min(a: int, b: int): int {
    if a <= b then a else b
  }

  /** How many aces are demoted from 11 to 1: the least number that brings
      the total to 21 or below, or all of them when no number does. */
  function Demotions(raw: int, aces: nat): (k: nat)
    ensures k <= aces
    ensures raw - 10 * k <= 21 || k == aces
    ensures forall j :: 0 <= j < k ==> raw - 10 * j > 21
  {
    if raw <= 21 then 0 else Min(aces, (raw - 12) / 10)
  }

  /** The three properties above single out one number of demotions. */
  lemma DemotionsUnique(raw: int, aces: nat, k: nat)
    requires k <= aces
    requires raw - 10 * k <= 21 || k == aces
    requires forall j :: 0 <= j < k ==> raw - 10 * j > 21
    ensures k == Demotions(raw, aces)
  {
  }

  /** The hand total of the specification: the raw sum less 10 for every
      demoted ace. */
  function HandTotal(cards: seq<string>): (r: int)
    ensures r <= RawSum(cards)
    ensures r <= 21 || r == RawSum(cards) - 10 * AceCount(cards)
  {
    RawSum(cards) - 10 * Demotions(RawSum(cards), AceCount(cards))
  }

  /** Every ace contributes 11 to the raw sum. */
  lemma {:induction false} AcesInRawSum(cards: seq<string>)
    ensures AceCount(cards) <= |cards|
    ensures RawSum(cards) >= 11 * AceCount(cards)
  {
    if cards != [] {
      var last := cards[|cards| - 1];
      AcesInRawSum(cards[..|cards| - 1]);
      AceIsEleven(last);
    }
  }

  /** The ace counter of the total and the ace test of the decision agree. */
  lemma {:induction false} HasAceIffAceCount(cards: seq<string>)
    ensures HasAce(cards) <==> AceCount(cards) > 0
  {
    if cards != [] {
      var init := cards[..|cards| - 1];
      HasAceIffAceCount(init);
      if HasAce(init) {
        var i :| 0 <= i < |init| && IsAce(init[i]);
        assert IsAce(cards[i]);
      }
      if HasAce(cards) && !IsAce(cards[|cards| - 1]) {
        var i :| 0 <= i < |cards| && IsAce(cards[i]);
        assert IsAce(init[i]);
      }
    }
  }

  /** The raw sum and ace count of a two-card hand. */
  lemma TwoCardTotal(cards: seq<string>)
    requires |cards| == 2
    ensures RawSum(cards) == ConvertCard(cards[0]) + ConvertCard(cards[1])
    ensures AceCount(cards) == (if IsAce(cards[0]) then 1 else 0) + (if IsAce(cards[1]) then 1 else 0)
  {
    var first := cards[..1];
    assert first[..0] == [];
    assert cards[..|cards| - 1] == first;
    assert RawSum(first) == ConvertCard(cards[0]);
    assert AceCount(first) == if IsAce(cards[0]) then 1 else 0;
  }

  /** The total is 21 or less unless every ace has been demoted; it never
      goes below the all-aces-demoted total, and that is at least the number
      of aces, so it is never negative. */
  lemma HandTotalBounds(cards: seq<string>)
    ensures HandTotal(cards) <= 21 || HandTotal(cards) == RawSum(cards) - 10 * AceCount(cards)
    ensures RawSum(cards) - 10 * AceCount(cards) <= HandTotal(cards) <= RawSum(cards)
    ensures HandTotal(cards) >= AceCount(cards)
  {
    AcesInRawSum(cards);
  }

  /** calculateHandTotal: a pass over the cards summing values and counting
      aces, then a loop demoting aces while the total is over 21. */
  method CalculateHandTotal(cards: seq<string>) returns (total: int)
    ensures total == HandTotal(cards)
  {
    total := 0;
    var aceCount := 0;
    for i := 0 to |cards|
      invariant total == RawSum(cards[..i])
      invariant aceCount == AceCount(cards[..i])
    {
      assert cards[..i + 1][..i] == cards[..i];
      var value := ConvertCard(cards[i]);
      total := total + value;
      if Upper(cards[i]) == "A" {
        aceCount := aceCount + 1;
      }
    }
    assert cards[..|cards|] == cards;
    ghost var raw, aces := total, aceCount;

    while total > 21 && aceCount > 0
      invariant 0 <= aceCount <= aces
      invariant total == raw - 10 * (aces - aceCount)
      invariant forall j :: 0 <= j < aces - aceCount ==> raw - 10 * j > 21
    {
      total := total - 10;
      aceCount := aceCount - 1;
    }
    DemotionsUnique(raw, aces, aces - aceCount);
  }
}
