/** The little of Python's str the model needs, on ASCII text. */
module Text {

  function LowerChar(c: char): char {
    if 'A' <= c <= 'Z' then c - 'A' + 'a' else c
  }

  function Lower(s: string): string {
    seq(|s|, (i: nat) requires i < |s| => LowerChar(s[i]))
  }

  predicate OccursAt(text: string, phrase: string, i: nat) {
    i + |phrase| <= |text| && text[i..i + |phrase|] == phrase
  }

  /** `phrase in text` */
  predicate Contains(text: string, phrase: string) {
    exists i: nat | 0 <= i <= |text| :: OccursAt(text, phrase, i)
  }

  /** A phrase found in a prefix is found in the whole. */
  lemma ContainsInLonger(prefix: string, text: string, phrase: string)
    requires prefix <= text && Contains(prefix, phrase)
    ensures Contains(text, phrase)
  {
    var i: nat :| 0 <= i <= |prefix| && OccursAt(prefix, phrase, i);
    assert text[i..i + |phrase|] == prefix[i..i + |phrase|];
    assert OccursAt(text, phrase, i);
  }

  /** An occurrence of the phrase that ends after the first n characters. */
  predicate OccursPast(text: string, phrase: string, n: nat) {
    exists i: nat | 0 <= i <= |text| :: OccursAt(text, phrase, i) && i + |phrase| > n
  }

  /** An occurrence lies in a prefix or ends past it. */
  lemma OccurrencesSplit(prefix: string, text: string, phrase: string)
    requires prefix <= text
    ensures Contains(text, phrase) <==> Contains(prefix, phrase) || OccursPast(text, phrase, |prefix|)
  {
    if Contains(prefix, phrase) {
      ContainsInLonger(prefix, text, phrase);
    }
    if Contains(text, phrase) && !OccursPast(text, phrase, |prefix|) {
      var i: nat :| 0 <= i <= |text| && OccursAt(text, phrase, i);
      assert prefix[i..i + |phrase|] == text[i..i + |phrase|];
      assert OccursAt(prefix, phrase, i);
    }
  }

  /** A phrase found in a text is found behind anything. */
  lemma ContainsInSuffix(front: string, text: string, phrase: string)
    requires Contains(text, phrase)
    ensures Contains(front + text, phrase)
  {
    var i: nat :| 0 <= i <= |text| && OccursAt(text, phrase, i);
    var whole := front + text;
    assert whole[|front| + i..|front| + i + |phrase|] == text[i..i + |phrase|];
    assert OccursAt(whole, phrase, |front| + i);
  }

  lemma LowerOfLonger(prefix: string, text: string)
    requires prefix <= text
    ensures Lower(prefix) <= Lower(text)
  {
  }

  /** What str.strip() removes. */
  predicate IsSpace(c: char) {
    c == ' ' || '\t' <= c <= '\r' || '\U{1c}' <= c <= '\U{1f}'
  }

  function Strip(s: string): string {
    if s != "" && IsSpace(s[0]) then Strip(s[1..])
    else if s != "" && IsSpace(s[|s| - 1]) then Strip(s[..|s| - 1])
    else s
  }

  predicate AllSpace(s: string) {
    forall i | 0 <= i < |s| :: IsSpace(s[i])
  }

  /** s is m between two stretches of white space. */
  ghost predicate Surrounds(s: string, m: string) {
    exists a, b :: AllSpace(a) && AllSpace(b) && s == a + m + b
  }

  lemma OneSpaceMore(s: string, m: string, c: char)
    requires Surrounds(s, m) && IsSpace(c)
    ensures Surrounds([c] + s, m) && Surrounds(s + [c], m)
  {
    var a, b :| AllSpace(a) && AllSpace(b) && s == a + m + b;
    assert AllSpace([c] + a) && [c] + s == ([c] + a) + m + b;
    assert AllSpace(b + [c]) && s + [c] == a + m + (b + [c]);
  }

  /** The stripped text is what is left between the white space at the ends. */
  lemma {:induction false} StripIsMiddle(s: string)
    ensures Surrounds(s, Strip(s))
    ensures Strip(s) == "" || (!IsSpace(Strip(s)[0]) && !IsSpace(Strip(s)[|Strip(s)| - 1]))
    decreases |s|
  {
    hide Surrounds;
    if s != "" && IsSpace(s[0]) {
      StripIsMiddle(s[1..]);
      OneSpaceMore(s[1..], Strip(s), s[0]);
      assert s == [s[0]] + s[1..];
    } else if s != "" && IsSpace(s[|s| - 1]) {
      StripIsMiddle(s[..|s| - 1]);
      OneSpaceMore(s[..|s| - 1], Strip(s), s[|s| - 1]);
      assert s == s[..|s| - 1] + [s[|s| - 1]];
    } else {
      NothingAround(s);
    }
  }

  lemma NothingAround(s: string)
    ensures Surrounds(s, s)
  {
    assert AllSpace("") && s == "" + s + "";
  }
}
