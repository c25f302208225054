/** Card values: the rank table and the lookup that turns a card string into
    its blackjack point value. Unknown strings, including the empty
    "not selected" value, are worth 0. */
module Cards {

  /** Upper-casing of one character. Only ASCII letters change, so this
      differs from full Unicode upper-casing on other characters ("é", "ß").
      No string with such a character upper-cases to a rank symbol, so the
      same strings find an entry in the table below, and the same strings
      pass the ace test, as with full Unicode upper-casing. */
  function UpperChar(c: char): char {
    if 'a' <= c <= 'z' then (c as int - 32) as char else c
  }

  function Upper(s: string): (u: string)
    ensures |u| == |s|
    ensures forall i :: 0 <= i < |s| ==> u[i] == UpperChar(s[i])
  {
    if s == [] then [] else [UpperChar(s[0])] + Upper(s[1..])
  }

  /** The rank table, keyed by upper-case rank symbol. */
  const CardValues: map<string, nat> := map[
    "A" := 11,
    "2" := 2,
    "3" := 3,
    "4" := 4,
    "5" := 5,
    "6" := 6,
    "7" := 7,
    "8" := 8,
    "9" := 9,
    "10" := 10,
    "J" := 10,
    "Q" := 10,
    "K" := 10
  ]

  /** The point value of a card: the table entry of its upper-cased symbol,
      or 0 when there is none. */
  function ConvertCard(card: string): (v: nat)
    ensures v <= 11
    ensures v == 0 <==> Upper(card) !in CardValues
  {
    var key := Upper(card);
    if key in CardValues then CardValues[key] else 0
  }

  /** A card is an ace when its upper-cased symbol is exactly "A": that is,
      when it is "A" or "a". */
  predicate IsAce(card: string): (b: bool)
    ensures b <==> card == "A" || card == "a"
  {
    Upper(card) == "A"
  }

  /** The value of each accepted spelling, written out independently of the
      table and of upper-casing. */
  function SpelledValue(card: string): nat {
    if card == "A" || card == "a" then 11
    else if |card| == 1 && '2' <= card[0] <= '9' then card[0] as int - '0' as int
    else if card == "10" || card == "J" || card == "j" || card == "Q" || card == "q"
         || card == "K" || card == "k" then 10
    else 0
  }

  lemma UpperOneChar(card: string, c: char)
    requires Upper(card) == [c]
    ensures |card| == 1 && UpperChar(card[0]) == c
  {
  }

  /** ConvertCard gives 11 for "A"/"a", the face value for "2".."9", 10 for
      "10", "J", "Q", "K" in either case, and 0 for every other string. */
  lemma ConvertCardBySpelling(card: string)
    ensures ConvertCard(card) == SpelledValue(card)
  {
    var key := Upper(card);
    if key in CardValues {
      if |key| == 1 {
        UpperOneChar(card, key[0]);
        assert card == [card[0]];
      } else {
        assert key == "10";
        assert card[0] == '1' && card[1] == '0';
        assert card == "10";
      }
    } else if SpelledValue(card) != 0 {
      SpelledKey(card);
    }
  }

  lemma SpelledKey(card: string)
    requires SpelledValue(card) != 0
    ensures Upper(card) in CardValues
  {
    if |card| == 1 {
      assert Upper(card) == [UpperChar(card[0])];
    } else {
      assert card == "10";
      assert Upper(card) == [UpperChar('1'), UpperChar('0')];
    }
  }

  /** An ace is exactly a card worth 11. */
  lemma AceIsEleven(card: string)
    ensures IsAce(card) <==> ConvertCard(card) == 11
  {
    ConvertCardBySpelling(card);
  }
}
