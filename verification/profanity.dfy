/** The profanity checker: a fixed word list searched in the raw text and in
    the text with white space and punctuation removed. */
module Profanity {
  import opened JsValues
  import opened Text
  import Seqs

  const BAD_WORDS: seq<string> := [
    "개새끼", "씨발", "시발", "병신", "미친년", "미친놈", "꺼져", "죽어",
    "느금마", "니애미", "창녀", "걸레", "따먹", "섹스", "자지", "보지",
    "강간", "자살", "살인", "마약"
  ]

  /** The punctuation the cleaning pattern lists besides `\s`. */
  const PUNCTUATION: string := "!@#$%^&*()_+-=[]{};':\"\\|,.<>/?"

  /** A character the cleaning pattern removes. */
  predicate IsStripped(c: char) {
    IsJsWhitespace(c) || c in PUNCTUATION
  }

  predicate Kept(c: char) {
    !IsStripped(c)
  }

  /** The text with every stripped character removed. */
  function Clean(text: string): (r: string)
    ensures |r| <= |text|
    ensures forall i :: 0 <= i < |r| ==> !IsStripped(r[i])
    ensures forall i :: 0 <= i < |text| && !IsStripped(text[i]) ==> text[i] in r
  {
    var r := Seqs.Filter(text, Kept);
    assert forall i :: 0 <= i < |r| ==> r[i] in r;
    assert forall i :: 0 <= i < |text| ==> text[i] in text;
    r
  }

  /** The result of a check: `{ hasProfanity, badWord? }`. */
  datatype Verdict = Verdict(hasProfanity: bool, badWord: Option<string>)

  /** A word is caught when it occurs in the raw or in the cleaned text. */
  predicate Matches(text: string, word: string) {
    Includes(text, word) || Includes(Clean(text), word)
  }

  /** The index of the first word, in list order, that the text matches. */
  function FirstMatch(text: string, words: seq<string>): (r: Option<nat>)
    ensures r.Some? ==> r.value < |words| && Matches(text, words[r.value])
    ensures r.Some? ==> forall j :: 0 <= j < r.value ==> !Matches(text, words[j])
    ensures r.None? ==> forall j :: 0 <= j < |words| ==> !Matches(text, words[j])
  {
    if words == [] then None
    else if Matches(text, words[0]) then Some(0)
    else
      match FirstMatch(text, words[1..])
      case None => None
      case Some(k) => Some(k + 1)
  }

  /** `checkProfanity(text)`. */
  function CheckProfanity(text: string): (r: Verdict)
    ensures text == [] ==> r == Verdict(false, None)
    ensures r.hasProfanity <==> r.badWord.Some?
    ensures r.badWord.Some? ==> r.badWord.value in BAD_WORDS && Matches(text, r.badWord.value)
    ensures r.badWord.Some? ==>
      exists k :: 0 <= k < |BAD_WORDS| && BAD_WORDS[k] == r.badWord.value &&
        forall j :: 0 <= j < k ==> !Matches(text, BAD_WORDS[j])
    ensures !r.hasProfanity && text != [] ==>
      forall j :: 0 <= j < |BAD_WORDS| ==> !Matches(text, BAD_WORDS[j])
  {
    if text == [] then Verdict(false, None)
    else
      match FirstMatch(text, BAD_WORDS)
      case Some(k) => Verdict(true, Some(BAD_WORDS[k]))
      case None => Verdict(false, None)
  }

  lemma BadWordIsHangul(k: nat)
    requires k < |BAD_WORDS|
    ensures |BAD_WORDS[k]| > 0 && AllHangul(BAD_WORDS[k])
  {
  }

  /** No Hangul syllable is white space or listed punctuation. */
  lemma HangulIsKept(c: char)
    requires IsHangulSyllable(c)
    ensures !IsStripped(c)
  {
    HangulIsNotWhitespace(c);
  }

  /** Some list entry occurring in the raw or cleaned text is always reported. */
  lemma AnyMatchIsReported(text: string, k: nat)
    requires k < |BAD_WORDS| && Matches(text, BAD_WORDS[k])
    ensures CheckProfanity(text).hasProfanity
  {
    BadWordIsHangul(k);
  }

  /** Cleaning removes nothing but stripped characters, and cleaning again
      changes nothing. */
  lemma CleanIdempotent(text: string)
    ensures Clean(Clean(text)) == Clean(text)
  {
    Seqs.FilterIdempotent(text, Kept);
  }

  /** The word with `gaps[i]` written between its letters `i` and `i + 1`. */
  function Spaced(word: string, gaps: seq<string>): string
    requires |gaps| + 1 == |word|
    decreases |word|
  {
    if |word| == 1 then word else [word[0]] + gaps[0] + Spaced(word[1..], gaps[1..])
  }

  /** Every separator is made of characters the cleaning removes. */
  predicate AllStripped(gaps: seq<string>) {
    forall g, i :: 0 <= g < |gaps| && 0 <= i < |gaps[g]| ==> IsStripped(gaps[g][i])
  }

  /** Cleaning works piece by piece. */
  lemma CleanAppend(a: string, b: string)
    ensures Clean(a + b) == Clean(a) + Clean(b)
  {
    Seqs.FilterAppend(a, b, Kept);
  }

  /** Separators between the letters of a word vanish when the text is cleaned. */
  lemma {:induction false} CleanSpaced(word: string, gaps: seq<string>)
    requires |gaps| + 1 == |word|
    requires forall i :: 0 <= i < |word| ==> !IsStripped(word[i])
    requires AllStripped(gaps)
    ensures Clean(Spaced(word, gaps)) == word
    decreases |word|
  {
    if |word| == 1 {
      assert Seqs.Filter(word[1..], Kept) == [];
    } else {
      CleanAppend([word[0]] + gaps[0], Spaced(word[1..], gaps[1..]));
      CleanAppend([word[0]], gaps[0]);
      assert Seqs.Filter([word[0]], Kept) == [word[0]] by {
        assert [word[0]][1..] == [];
      }
      assert forall i :: 0 <= i < |gaps[0]| ==> IsStripped(gaps[0][i]);
      Seqs.FilterDropsAll(gaps[0], Kept);
      assert forall g :: 0 <= g < |gaps[1..]| ==> gaps[1..][g] == gaps[g + 1];
      CleanSpaced(word[1..], gaps[1..]);
      assert [word[0]] + word[1..] == word;
    }
  }

  /** A listed word with separators between its letters (`개 새 끼`), anywhere
      in a message, still matches through the cleaned text. */
  lemma SpacedBadWordMatches(k: nat, pre: string, gaps: seq<string>, post: string)
    requires k < |BAD_WORDS| && |gaps| + 1 == |BAD_WORDS[k]| && AllStripped(gaps)
    ensures Matches(pre + Spaced(BAD_WORDS[k], gaps) + post, BAD_WORDS[k])
  {
    var w := BAD_WORDS[k];
    BadWordIsHangul(k);
    forall i | 0 <= i < |w| ensures !IsStripped(w[i]) {
      HangulIsKept(w[i]);
    }
    var spaced := Spaced(w, gaps);
    CleanSpaced(w, gaps);
    CleanAppend(pre + spaced, post);
    CleanAppend(pre, spaced);
    var c := Clean(pre) + w + Clean(post);
    assert Clean(pre + spaced + post) == c;
    assert c[|Clean(pre)|..|Clean(pre)| + |w|] == w;
    assert OccursAt(c, w, |Clean(pre)|);
  }

  /** ... and so the message is reported as profane. */
  lemma SpacedBadWordDetected(k: nat, pre: string, gaps: seq<string>, post: string)
    requires k < |BAD_WORDS| && |gaps| + 1 == |BAD_WORDS[k]| && AllStripped(gaps)
    ensures CheckProfanity(pre + Spaced(BAD_WORDS[k], gaps) + post).hasProfanity
  {
    SpacedBadWordMatches(k, pre, gaps, post);
    AnyMatchIsReported(pre + Spaced(BAD_WORDS[k], gaps) + post, k);
  }

  /** The first entry of the list, whenever it matches, is the one reported. */
  lemma FirstEntryReported(text: string)
    requires text != [] && Matches(text, BAD_WORDS[0])
    ensures CheckProfanity(text) == Verdict(true, Some(BAD_WORDS[0]))
  {
    assert FirstMatch(text, BAD_WORDS) == Some(0);
  }

  /** `개 새 끼`, with any stripped separators between the letters and any
      text around it, is reported as `개새끼`. */
  lemma SpacedFirstWordReported(pre: string, gaps: seq<string>, post: string)
    requires |gaps| + 1 == |BAD_WORDS[0]| && AllStripped(gaps)
    ensures CheckProfanity(pre + Spaced(BAD_WORDS[0], gaps) + post) == Verdict(true, Some(BAD_WORDS[0]))
  {
    var text := pre + Spaced(BAD_WORDS[0], gaps) + post;
    SpacedBadWordMatches(0, pre, gaps, post);
    if Includes(text, BAD_WORDS[0]) {
      IncludesNoLonger(text, BAD_WORDS[0]);
    } else {
      IncludesNoLonger(Clean(text), BAD_WORDS[0]);
    }
    FirstEntryReported(text);
  }
}
