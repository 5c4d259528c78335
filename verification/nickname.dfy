/** The random nickname: an adjective, a noun and a number from 1 to 999,
    written `"<adjective> <noun> <number>호"`. The three random draws are
    parameters. */
module Nickname {
  import opened JsValues
  import opened Text

  const ADJECTIVES: seq<string> := [
    "설거지하는", "분리수거하는", "음쓰버리는", "플스숨기는", "비상금털린",
    "낚시가고픈", "회식핑계대는", "거실에서자는", "용돈받는", "주말에출근한",
    "기저귀가는", "육퇴기다리는", "몰래라면먹는", "등짝스매싱맞은", "반찬투정하는",
    "소파와물아일체된", "리모컨사수하는", "아내눈치보는", "자유를갈망하는", "로또당첨꿈꾸는"
  ]

  const NOUNS: seq<string> := [
    "유부남", "남편", "아빠", "가장", "머슴",
    "집사", "운전기사", "노예", "투사", "생존자"
  ]

  /** `Math.floor(Math.random() * 999) + 1` ranges over 1 to this. */
  const NUMBER_RANGE: nat := 999

  /** The three parts a nickname is made of. */
  datatype Parts = Parts(adjective: string, noun: string, number: nat)

  /** The text before and after the first space, if there is one. */
  function SplitAtSpace(s: string): (r: Option<(string, string)>)
    ensures r.Some? ==> s == r.value.0 + " " + r.value.1 && ' ' !in r.value.0
    ensures r.None? ==> ' ' !in s
  {
    if s == [] then None
    else if s[0] == ' ' then Some(([], s[1..]))
    else
      match SplitAtSpace(s[1..])
      case None => None
      case Some((a, b)) => Some(([s[0]] + a, b))
  }

  lemma {:induction false} SplitAtFirstSpace(a: string, b: string)
    requires ' ' !in a
    ensures SplitAtSpace(a + " " + b) == Some((a, b))
  {
    if a != [] {
      assert (a + " " + b)[1..] == a[1..] + " " + b;
      SplitAtFirstSpace(a[1..], b);
      assert [a[0]] + a[1..] == a;
    }
  }

  /** Decimal digits as `String(n)` writes them: no leading zero except in
      "0" itself. */
  predicate CanonicalDecimal(digits: string) {
    digits != [] && (forall i :: 0 <= i < |digits| ==> IsDigit(digits[i])) &&
    (|digits| == 1 || digits[0] != '0')
  }

  /** Reads a nickname back into its parts: the inverse of the format. */
  function Parse(s: string): Option<Parts> {
    if s == [] || s[|s| - 1] != '호' then None
    else
      match SplitAtSpace(s[..|s| - 1])
      case None => None
      case Some((adjective, rest)) =>
        match SplitAtSpace(rest)
        case None => None
        case Some((noun, digits)) =>
          if CanonicalDecimal(digits)
          then Some(Parts(adjective, noun, ParseDecimal(digits)))
          else None
  }

  /** The template `${adj} ${noun} ${number}호`. */
  function Format(adjective: string, noun: string, number: nat): string {
    adjective + " " + noun + " " + NatToDecimal(number) + "호"
  }

  /** Reading a nickname back gives the parts it was written from, as long as
      the adjective and the noun hold no space. */
  lemma FormatParses(adjective: string, noun: string, number: nat)
    requires ' ' !in adjective && ' ' !in noun
    ensures Parse(Format(adjective, noun, number)) == Some(Parts(adjective, noun, number))
  {
    var digits := NatToDecimal(number);
    var s := Format(adjective, noun, number);
    assert s[..|s| - 1] == adjective + " " + (noun + " " + digits);
    SplitAtFirstSpace(adjective, noun + " " + digits);
    SplitAtFirstSpace(noun, digits);
    DecimalRoundTrip(number);
  }

  /** A number part with a leading zero, which the template never writes,
      does not read back. */
  lemma LeadingZeroRejected(adjective: string, noun: string, digits: string)
    requires ' ' !in adjective && ' ' !in noun
    requires |digits| > 1 && digits[0] == '0'
    ensures Parse(adjective + " " + noun + " " + digits + "호").None?
  {
    var s := adjective + " " + noun + " " + digits + "호";
    assert s[..|s| - 1] == adjective + " " + (noun + " " + digits);
    SplitAtFirstSpace(adjective, noun + " " + digits);
    SplitAtFirstSpace(noun, digits);
  }

  lemma WordListsAreHangul()
    ensures forall i :: 0 <= i < |ADJECTIVES| ==> AllHangul(ADJECTIVES[i])
    ensures forall i :: 0 <= i < |NOUNS| ==> AllHangul(NOUNS[i])
  {
  }

  lemma HangulHasNoSpace(s: string)
    requires AllHangul(s)
    ensures ' ' !in s
  {
  }

  /** `generateRandomNickname()`, given the index drawn into each list and the
      raw draw `Math.floor(Math.random() * 999)`. */
  function GenerateRandomNickname(adjIndex: nat, nounIndex: nat, roll: nat): (r: string)
    requires adjIndex < |ADJECTIVES| && nounIndex < |NOUNS| && roll < NUMBER_RANGE
    ensures Parse(r) == Some(Parts(ADJECTIVES[adjIndex], NOUNS[nounIndex], roll + 1))
    ensures StartsWith(r, ADJECTIVES[adjIndex] + " ")
    ensures r[|r| - 1] == '호'
  {
    WordListsAreHangul();
    HangulHasNoSpace(ADJECTIVES[adjIndex]);
    HangulHasNoSpace(NOUNS[nounIndex]);
    FormatParses(ADJECTIVES[adjIndex], NOUNS[nounIndex], roll + 1);
    var r := Format(ADJECTIVES[adjIndex], NOUNS[nounIndex], roll + 1);
    assert r[..|ADJECTIVES[adjIndex] + " "|] == ADJECTIVES[adjIndex] + " ";
    r
  }

  /** The number in a generated nickname lies in 1 to 999. */
  lemma NumberInRange(adjIndex: nat, nounIndex: nat, roll: nat)
    requires adjIndex < |ADJECTIVES| && nounIndex < |NOUNS| && roll < NUMBER_RANGE
    ensures var p := Parse(GenerateRandomNickname(adjIndex, nounIndex, roll));
      p.Some? && 1 <= p.value.number <= 999
  {
  }

  /** Different draws of the number give different nicknames. */
  lemma DistinctRollsDistinctNicknames(adjIndex: nat, nounIndex: nat, roll1: nat, roll2: nat)
    requires adjIndex < |ADJECTIVES| && nounIndex < |NOUNS|
    requires roll1 < NUMBER_RANGE && roll2 < NUMBER_RANGE && roll1 != roll2
    ensures GenerateRandomNickname(adjIndex, nounIndex, roll1) != GenerateRandomNickname(adjIndex, nounIndex, roll2)
  {
  }
}
