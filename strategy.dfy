/** The advice: an ordered ladder of rules over the dealer's upcard, the
    player's cards and the cash-out flag, where the first rule that applies
    decides. */
module Strategy {
  import opened Cards
  import opened Hand
  import opened Probability

  /** The six pieces of advice, with the text shown for each. */
  datatype Recommendation = CashOut | DoubleDown | Split | Stand | Hit | ConsiderCashingOut {
    function Text(): (s: string)
      ensures s != ""
    {
      match this
      case CashOut => "Cash Out"
      case DoubleDown => "Double Down"
      case Split => "Split"
      case Stand => "Stand"
      case Hit => "Hit"
      case ConsiderCashingOut => "Consider Cashing Out"
    }
  }

  /** Distinct pieces of advice are shown as distinct texts. */
  lemma TextInjective(a: Recommendation, b: Recommendation)
    ensures a.Text() == b.Text() ==> a == b
  {
  }

  /** What the decision derives from its inputs before applying any rule.
      Probabilities are in hundredths. */
  datatype Situation = Situation(
    dealerValue: nat,
    playerValues: seq<nat>,
    playerTotal: int,
    isPair: bool,
    hasAce: bool,
    softTotal: bool,          // derived as in the source, and read by no rule
    playerBustProb: int,
    dealerBustProb: int,
    expectedPlayerWinProb: int,
    expectedDealerWinProb: int)

  function Assess(dealerCard: string, playerCards: seq<string>): (s: Situation)
    ensures |s.playerValues| == |playerCards|
    ensures s.isPair ==> |playerCards| == 2
    ensures s.softTotal ==> s.hasAce
    ensures 0 <= s.playerBustProb <= 100 && 0 <= s.dealerBustProb <= 42
    ensures s.expectedPlayerWinProb < s.expectedDealerWinProb <==> s.playerBustProb > s.dealerBustProb
  {
    var dealerValue := ConvertCard(dealerCard);
    var playerValues := seq(|playerCards|, i requires 0 <= i < |playerCards| => ConvertCard(playerCards[i]));
    var playerTotal := HandTotal(playerCards);
    var isPair := |playerValues| == 2 && playerValues[0] == playerValues[1];
    var hasAce := HasAce(playerCards);
    var playerBustProb := CalculateBustProbability(playerTotal);
    var dealerBustProb := DealerBustProbability(dealerValue);
    Situation(dealerValue, playerValues, playerTotal, isPair, hasAce, hasAce && playerTotal <= 21,
              playerBustProb, dealerBustProb, 100 - playerBustProb, 100 - dealerBustProb)
  }

  /** The double-down rule of a two-card hand: hard totals when the hand has
      no ace, soft totals when it has one. */
  predicate DoubleDownRule(hasAce: bool, playerTotal: int, dealerValue: int): (b: bool)
    ensures b ==> 9 <= playerTotal <= 18
    ensures b && !hasAce ==> playerTotal <= 11 && dealerValue != 11
    ensures b && hasAce ==> 13 <= playerTotal && 3 <= dealerValue <= 6
  {
    if !hasAce then
      (playerTotal == 11 && dealerValue != 11)
      || (playerTotal == 10 && 2 <= dealerValue <= 9)
      || (playerTotal == 9 && 3 <= dealerValue <= 6)
    else
      (playerTotal == 17 && 3 <= dealerValue <= 6)
      || (playerTotal == 18 && 3 <= dealerValue <= 6)
      || (13 <= playerTotal <= 16 && 4 <= dealerValue <= 6)
  }

  /** The advice for a pair of cards of value pairValue. */
  function PairRule(pairValue: int, dealerValue: int): (r: Recommendation)
    ensures r == Split || r == Stand || r == Hit
    ensures pairValue == 8 || pairValue == 11 ==> r == Split
    ensures pairValue == 10 || pairValue == 5 ==> r == Stand
  {
    if pairValue == 8 || pairValue == 11 then Split
    else if pairValue == 10 || pairValue == 5 then Stand
    else if pairValue == 9 then
      (if dealerValue == 7 || dealerValue >= 10 || dealerValue == 11 then Stand else Split)
    else if 2 <= pairValue <= 7 && 2 <= dealerValue <= 7 then Split
    else Hit
  }

  /** The advice for a hand that is not a pair. */
  function HitStandRule(playerTotal: int, dealerValue: int, playerBustProb: int, dealerBustProb: int): (r: Recommendation)
    ensures r == Stand || r == Hit
  {
    if playerTotal >= 17 then Stand
    else if playerTotal <= 11 then Hit
    else if dealerValue >= 7 || dealerValue == 11 then
      (if playerBustProb < 50 then Hit else Stand)
    else if dealerBustProb > 40 then Stand
    else Hit
  }

  /** With the bust probabilities filled in, a total of 12 to 16 is hit
      against 7 or more only up to 14, and stood on against 2 to 6 only when
      the upcard is 5 or 6 (0.40 against a 4 is not above 0.4). */
  lemma StiffHandPlay(playerTotal: int, dealerValue: int)
    requires 12 <= playerTotal <= 16
    ensures HitStandRule(playerTotal, dealerValue, CalculateBustProbability(playerTotal), DealerBustProbability(dealerValue))
            == if dealerValue >= 7 then (if playerTotal <= 14 then Hit else Stand)
               else if dealerValue == 5 || dealerValue == 6 then Stand
               else Hit
  {
    BustProbabilityClosedForm(playerTotal);
  }

  /** The closing override: a Hit becomes Consider Cashing Out when cash-out
      is offered and the bust probability is above 0.5. */
  function CashOutOverride(rec: Recommendation, cashoutAvailable: bool, playerBustProb: int): (r: Recommendation)
    ensures r != rec ==> rec == Hit && r == ConsiderCashingOut && cashoutAvailable && playerBustProb > 50
  {
    if cashoutAvailable && rec == Hit && playerBustProb > 50 then ConsiderCashingOut else rec
  }

  /** getAdvice: cash-out, then double-down on two cards, then the pair or
      hit/stand advice, then the cash-out override.
      Cash Out is given exactly when the flag is set and the player's bust
      probability exceeds the dealer's (1 - p < 1 - d); Split and Double Down
      only to two cards, and Split only to a pair; Consider Cashing Out never,
      since a hand that reaches the override with the flag set has a bust
      probability no larger than the dealer's, which is at most 0.42. */
  function GetAdvice(dealerCard: string, playerCards: seq<string>, cashoutAvailable: bool): (r: Recommendation)
    ensures r == CashOut <==>
              cashoutAvailable
              && CalculateBustProbability(HandTotal(playerCards)) > DealerBustProbability(ConvertCard(dealerCard))
    ensures r == Split || r == DoubleDown ==> |playerCards| == 2
    ensures r == Split ==> ConvertCard(playerCards[0]) == ConvertCard(playerCards[1])
    ensures r != ConsiderCashingOut
  {
    var s := Assess(dealerCard, playerCards);
    if cashoutAvailable && s.expectedPlayerWinProb < s.expectedDealerWinProb then CashOut
    else if |playerCards| == 2 && DoubleDownRule(s.hasAce, s.playerTotal, s.dealerValue) then DoubleDown
    else
      var rec := if s.isPair then PairRule(s.playerValues[0], s.dealerValue)
                 else HitStandRule(s.playerTotal, s.dealerValue, s.playerBustProb, s.dealerBustProb);
      CashOutOverride(rec, cashoutAvailable, s.playerBustProb)
  }

  /** A two-card hard 11 is doubled against any upcard but an ace; only an
      unknown upcard (bust probability 0) lets the cash-out check take it
      first. */
  lemma HardElevenDoublesDown(dealerCard: string, playerCards: seq<string>, cashoutAvailable: bool)
    requires |playerCards| == 2 && !HasAce(playerCards) && HandTotal(playerCards) == 11
    requires ConvertCard(dealerCard) != 11
    ensures GetAdvice(dealerCard, playerCards, cashoutAvailable) == DoubleDown
            || (cashoutAvailable && ConvertCard(dealerCard) == 0
                && GetAdvice(dealerCard, playerCards, cashoutAvailable) == CashOut)
  {
    BustProbabilityClosedForm(11);
  }

  /** A pair of aces totals a soft 12 and a pair of 8s a hard 16, so no
      double-down rule applies to either. */
  lemma NoDoubleOnAcesOrEights(playerCards: seq<string>, dealerValue: int)
    requires |playerCards| == 2
    requires ConvertCard(playerCards[0]) == ConvertCard(playerCards[1])
    requires ConvertCard(playerCards[0]) == 8 || ConvertCard(playerCards[0]) == 11
    ensures !DoubleDownRule(HasAce(playerCards), HandTotal(playerCards), dealerValue)
  {
    TwoCardTotal(playerCards);
    HasAceIffAceCount(playerCards);
    AceIsEleven(playerCards[0]);
    AceIsEleven(playerCards[1]);
    if ConvertCard(playerCards[0]) == 8 {
      assert AceCount(playerCards) == 0 && RawSum(playerCards) == 16;
    } else {
      assert AceCount(playerCards) == 2 && RawSum(playerCards) == 22;
    }
  }

  /** A pair of aces or of 8s is split whenever the cash-out check does not
      fire. */
  lemma SplitAcesAndEights(dealerCard: string, playerCards: seq<string>, cashoutAvailable: bool)
    requires |playerCards| == 2
    requires ConvertCard(playerCards[0]) == ConvertCard(playerCards[1])
    requires ConvertCard(playerCards[0]) == 8 || ConvertCard(playerCards[0]) == 11
    requires !(cashoutAvailable
               && CalculateBustProbability(HandTotal(playerCards)) > DealerBustProbability(ConvertCard(dealerCard)))
    ensures GetAdvice(dealerCard, playerCards, cashoutAvailable) == Split
  {
    var s := Assess(dealerCard, playerCards);
    NoDoubleOnAcesOrEights(playerCards, s.dealerValue);
    assert s.isPair && s.playerValues[0] == ConvertCard(playerCards[0]);
  }

  /** The worked examples: upcard, cards, flag and the advice given. */
  lemma ScenarioHardEleven()
    ensures GetAdvice("6", ["5", "6"], false) == DoubleDown
  {
    var cards := ["5", "6"];
    ConvertCardBySpelling("6");
    ConvertCardBySpelling("5");
    TwoCardTotal(cards);
    AceIsEleven("5");
    AceIsEleven("6");
    HasAceIffAceCount(cards);
  }

  lemma ScenarioPairOfAces()
    ensures GetAdvice("6", ["A", "A"], false) == Split
  {
    var cards := ["A", "A"];
    ConvertCardBySpelling("6");
    ConvertCardBySpelling("A");
    TwoCardTotal(cards);
    AceIsEleven("A");
    HasAceIffAceCount(cards);
  }

  lemma ScenarioPairOfNines()
    ensures GetAdvice("10", ["9", "9"], false) == Stand
  {
    var cards := ["9", "9"];
    ConvertCardBySpelling("10");
    ConvertCardBySpelling("9");
    TwoCardTotal(cards);
    AceIsEleven("9");
    HasAceIffAceCount(cards);
  }

  lemma ScenarioTwenty()
    ensures GetAdvice("10", ["10", "K"], false) == Stand
  {
    var cards := ["10", "K"];
    ConvertCardBySpelling("10");
    ConvertCardBySpelling("K");
    TwoCardTotal(cards);
    AceIsEleven("10");
    AceIsEleven("K");
    HasAceIffAceCount(cards);
  }

  lemma ScenarioCashOut()
    ensures GetAdvice("5", ["10", "6"], true) == CashOut
  {
    var cards := ["10", "6"];
    ConvertCardBySpelling("5");
    ConvertCardBySpelling("10");
    ConvertCardBySpelling("6");
    TwoCardTotal(cards);
    AceIsEleven("10");
    AceIsEleven("6");
    BustProbabilityClosedForm(16);
  }

  lemma ScenarioSoftEighteen()
    ensures GetAdvice("5", ["A", "7"], false) == DoubleDown
  {
    var cards := ["A", "7"];
    ConvertCardBySpelling("5");
    ConvertCardBySpelling("A");
    ConvertCardBySpelling("7");
    TwoCardTotal(cards);
    AceIsEleven("A");
    AceIsEleven("7");
    HasAceIffAceCount(cards);
  }
}
