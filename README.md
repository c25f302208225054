# Blackjack strategy advisor: the advice engine

This project models the decision core of a small blackjack strategy
advisor. The advisor takes three inputs: the dealer's upcard, the player's
cards (as rank strings) and a flag that says whether a cash-out is offered.
It returns one of six recommendations: Cash Out, Double Down, Split, Stand,
Hit or Consider Cashing Out.

The engine has four parts, one Dafny module each:

- `Cards` (`cards.dfy`): the rank table and `ConvertCard`. A card string is
  upper-cased and looked up. A string the table does not know, including
  the empty "not selected" value, is worth 0.
- `Hand` (`hand.dfy`): the hand total. `CalculateHandTotal` is the source's
  loop: one pass sums the values and counts the aces, then a second loop
  demotes aces from 11 to 1 while the total is over 21. It is proved equal
  to `HandTotal`, which subtracts 10 for each of the `Demotions` aces. That
  number is the least number of demotions that brings the total to 21 or
  below, or every ace when no number does.
- `Probability` (`probability.dfy`): the dealer's bust probability, looked up
  in a ten-entry table, and the player's bust probability. The player's is
  the share of the fixed next-card values 2..11 that would take the total
  past 21. Probabilities are exact whole hundredths (35 is 0.35).
  `1 - p < 1 - d` is kept literally, as `100 - p < 100 - d`. This is exact
  for every comparison the engine makes. The table constants are whole
  hundredths and every player probability is k/10. So two compared values
  are either equal or at least 0.01 apart, far beyond double rounding error.
  The equal cases are these four:
  - Cash-out check, player 0.4 against dealer 0.40 (a total of 14 against
    a 4). `4 / 10` and the literal `0.40` are the same double, so both sides
    compute the same `1 - x`.
  - Cash-out check, player 0 against dealer 0 (a total of 10 or less
    against an unknown upcard). Both sides are `1 - 0`, exactly 1.
  - Hit/stand against 7 or more, and the override: player 0.5 against the
    literal 0.5 (a total of 15). `5 / 10` is exactly 0.5 in binary.
  - Hit/stand against 2 to 6: dealer 0.40 against the literal 0.4 (an
    upcard of 4). `0.40` and `0.4` are the same double.

  In each of these cases both sides are equal in doubles too, as in the
  model.
- `Strategy` (`strategy.dfy`): `GetAdvice`, the ordered ladder of rules. It
  applies the cash-out check, then double-down for two-card hands (hard when
  the hand has no ace, soft when it has one), then the pair rules or the
  hit/stand rules, and finally the cash-out override. The first rule that
  decides wins. The recommendation is a closed datatype, and `Text` gives
  its display string.

Proved about the model:

- Card values agree with an independent list of accepted spellings.
- The hand total is characterised exactly (least demotions), with its bounds.
- The player bust probability has a closed form, 0.1 per point above 10 up
  to 1. It is therefore bounded, monotone, 0 up to 10 and 1 from 20.
- Cash Out is returned exactly when the flag is set and the player's bust
  probability is above the dealer's.
- Split and Double Down are given only to two cards.
- Consider Cashing Out is unreachable. A hand that reaches the override with
  the flag set has a bust probability of at most the dealer's, which is at
  most 0.42, so it is never above 0.5.

Where the system's informal description and the code differ, the model
follows the code:

- The informal description says the total exceeds 21 only when the hand
  has no ace. In the code the total can also exceed 21 once every ace has
  been demoted: A, K, K, K totals 31. `HandTotalBounds` states the code's
  property.
- The informal description reaches Stand for 10 and K against a 10 through
  the total of 20. In the code both cards are worth 10, so the hand is a
  pair and the pair rule gives Stand (`ScenarioTwenty`).

## Model

| member | source | states |
|---|---|---|
| Cards.Upper | app/page.tsx:30 | the upper-cased string has the same length and each character is upper-cased |
| Cards.ConvertCard | app/page.tsx:13-31 | the value is at most 11, and it is 0 exactly when the upper-cased card is not a key of the rank table |
| Cards.ConvertCardBySpelling | app/page.tsx:13-31 | the value is 11 for "A"/"a", the face value for "2".."9", 10 for "10", "J", "Q", "K" in either case, and 0 for every other string, including "" |
| Cards.IsAce | app/page.tsx:40 | the ace test holds exactly for "A" and "a" |
| Cards.AceIsEleven | app/page.tsx:13-14 | a card is an ace exactly when it is worth 11 |
| Hand.RawSum | app/page.tsx:37-43 | the sum the pass accumulates is at most 11 per card (its exact properties: `AcesInRawSum`, `TwoCardTotal`) |
| Hand.AceCount | app/page.tsx:37-43 | the ace counter the pass accumulates is at most the number of cards |
| Hand.HasAce | app/page.tsx:93 | no contract of its own: `HasAceIffAceCount` ties it to the ace counter |
| Hand.HandTotal | app/page.tsx:33-52 | the reference total never exceeds the raw sum, and exceeds 21 only when every ace is demoted (exact characterisation: `Demotions`; bounds: `HandTotalBounds`) |
| Hand.Demotions | app/page.tsx:45-49 | the number of demoted aces is at most the ace count, brings the total to 21 or below unless it is every ace, and is the least such number |
| Hand.DemotionsUnique | app/page.tsx:45-49 | any number of demotions with those three properties is the one the loop performs |
| Hand.AcesInRawSum | app/page.tsx:37-43 | there are at most as many aces as cards, and each ace contributes 11 to the raw sum |
| Hand.HasAceIffAceCount | app/page.tsx:93 | the ace test of the decision holds exactly when the ace counter of the total is positive |
| Hand.TwoCardTotal | app/page.tsx:37-43 | the raw sum and ace count of a two-card hand are those of its two cards |
| Hand.HandTotalBounds | app/page.tsx:33-52 | the total is at most 21 or every ace was demoted; it lies between the all-demoted sum and the raw sum, and it is at least the number of aces |
| Hand.CalculateHandTotal | app/page.tsx:33-52 | the summing pass and the demotion loop compute the hand total: raw sum minus 10 per least-needed demotion |
| Probability.DealerBustProbability | app/page.tsx:54-69 | the dealer's bust probability is at most 0.42, at least 0.11 for the values 2..11, and 0 exactly for every other value |
| Probability.CalculateBustProbability | app/page.tsx:71-77 | the player's bust probability lies in [0, 1] and is a whole number of tenths (closed form: `BustProbabilityClosedForm`) |
| Probability.BustingCards | app/page.tsx:72-75 | the number of busting values is at most the number of values tried |
| Probability.BustingInRange | app/page.tsx:73-75 | of the values lo..hi-1, exactly those from 22 - t on bust a total t |
| Probability.BustProbabilityClosedForm | app/page.tsx:71-77 | the player's bust probability is 0.1 times the number of points above 10, capped at 1 |
| Probability.BustProbabilityBounds | app/page.tsx:71-77 | the player's bust probability lies in [0, 1], is 0 for totals up to 10 and 1 for totals of 20 or more |
| Probability.BustProbabilityMonotonic | app/page.tsx:71-77 | a larger total never has a smaller bust probability |
| Strategy.Recommendation.Text | app/page.tsx:105-196 | no recommendation is shown as the empty string the result starts as |
| Strategy.TextInjective | app/page.tsx:105-196 | distinct recommendations have distinct display strings |
| Strategy.Assess | app/page.tsx:82-102 | one value per player card; a pair has exactly two cards; the soft flag implies an ace; the player's probability is in [0, 1] and the dealer's in [0, 0.42]; `1 - p < 1 - d` holds exactly when p > d |
| Strategy.DoubleDownRule | app/page.tsx:116-146 | a double-down needs a total of 9 to 18; without an ace only 9 to 11 and never against an ace; with an ace at least 13 and only against 3 to 6 |
| Strategy.PairRule | app/page.tsx:148-167 | a pair yields Split, Stand or Hit; aces and 8s are always split; 10s and 5s always stood on |
| Strategy.HitStandRule | app/page.tsx:168-189 | a hand that is not a pair yields Stand or Hit |
| Strategy.StiffHandPlay | app/page.tsx:172-188 | a total of 12 to 16 is hit against 7 or more only up to 14, and against a lower upcard is stood on only against 5 or 6 |
| Strategy.CashOutOverride | app/page.tsx:191-194 | the override changes a recommendation only from Hit to Consider Cashing Out, and only with the flag set and a bust probability above 0.5 |
| Strategy.GetAdvice | app/page.tsx:80-197 | Cash Out exactly when the flag is set and the player's bust probability exceeds the dealer's; Split and Double Down only for two cards, Split only for equal values; never Consider Cashing Out |
| Strategy.HardElevenDoublesDown | app/page.tsx:116-122 | a two-card ace-free 11 against a non-ace upcard is doubled, unless the flag is set and the upcard is unknown, when it is cashed out |
| Strategy.NoDoubleOnAcesOrEights | app/page.tsx:116-146 | no double-down rule applies to a pair of aces (a soft 12) or of 8s (a hard 16), whatever the upcard |
| Strategy.SplitAcesAndEights | app/page.tsx:148-151 | a pair of aces or 8s that the cash-out check lets through is split, as no double-down rule applies to it |
| Strategy.ScenarioHardEleven | app/page.tsx:119-122 | 5, 6 against a 6 without cash-out: Double Down |
| Strategy.ScenarioPairOfAces | app/page.tsx:148-151 | A, A against a 6 without cash-out: Split |
| Strategy.ScenarioPairOfNines | app/page.tsx:154-156 | 9, 9 against a 10 without cash-out: Stand |
| Strategy.ScenarioTwenty | app/page.tsx:152-153 | 10, K against a 10 without cash-out: a pair of tens, Stand |
| Strategy.ScenarioCashOut | app/page.tsx:107-113 | 10, 6 against a 5 with cash-out offered: Cash Out (0.4 < 0.58) |
| Strategy.ScenarioSoftEighteen | app/page.tsx:137-140 | A, 7 against a 5 without cash-out: Double Down |

## Left out

- The React component around the engine is not modelled: its state hooks, the submit handler, the card options and the form. It only collects the three inputs and shows the result.
- The "Recommended Action: ..." prefix added for display is not modelled; `Text` gives the bare recommendation string.
- IEEE-754 double arithmetic is not modelled. Probabilities are exact hundredths, which makes every comparison the engine performs come out as it does in doubles.
- Cards.Upper upper-cases ASCII letters only, whereas JavaScript's toUpperCase follows Unicode. No non-ASCII string upper-cases to a rank symbol, so card values and the ace test are unaffected.
- The soft-total flag is derived in `Situation.softTotal` as the source derives it, but no rule reads it, as in the source.
- Dafny's integers are unbounded; the source's numbers never leave the small range where JavaScript numbers are exact integers, so no wrap-around is modelled.
