/** The date printer and the date reader, which live in different files and should undo each other.
    The reader's three regular expressions are matched by word runs; ScanIsMatch ties that scanner to
    the expressions' own meaning. */
module DateText {
  import opened Wrappers
  import opened Calendar
  import opened IsoText
  import opened Text

  // ---- Printing ----

  function MonthName(k: nat): (name: string)
    requires k < 12
    ensures name != ""
  {
    match k
    case 0 => "January" case 1 => "February" case 2 => "March" case 3 => "April"
    case 4 => "May" case 5 => "June" case 6 => "July" case 7 => "August"
    case 8 => "September" case 9 => "October" case 10 => "November" case 11 => "December"
  }

  /** An integer in an f-string. */
  function Decimal(n: nat): (s: string)
    ensures AllDigits(s) && s != ""
  {
    if n < 10 then [DigitChar(n)] else Decimal(n / 10) + [DigitChar(n % 10)]
  }

  function Printed(d: Date): string
    requires Valid(d)
  {
    Decimal(d.day) + [' '] + MonthName(d.month - 1) + [' '] + Decimal(d.year)
  }

  /** _fmt_date: a text that is no ISO date is printed as it stands. */
  function Fmt(s: string): string {
    if s == "" then "[DATE NOT PROVIDED]"
    else
      match ParseIso(s)
      case None => s
      case Some(d) => PrintParse(s); Printed(d)
  }

  // ---- The regular expressions ----

  /** \w, which \b separates from everything else */
  predicate IsWord(c: char) {
    'a' <= c <= 'z' || 'A' <= c <= 'Z' || IsDigit(c) || c == '_'
  }

  predicate AllWord(s: string) {
    forall i | 0 <= i < |s| :: IsWord(s[i])
  }

  /** \d{least,most}, or an English month in any case */
  datatype Part = Digits(least: nat, most: nat) | Month

  datatype Pattern = Pattern(first: Part, second: Part, third: Part, slashes: bool)

  const ISO_PATTERN := Pattern(Digits(4, 4), Digits(1, 2), Digits(1, 2), false)
  const WORDED_PATTERN := Pattern(Digits(1, 2), Month, Digits(4, 4), true)
  const NUMERIC_PATTERN := Pattern(Digits(1, 2), Digits(1, 2), Digits(4, 4), true)
  const DATE_PATTERNS: seq<Pattern> := [ISO_PATTERN, WORDED_PATTERN, NUMERIC_PATTERN]

  /** `-`, or any of `/`, blank and `-` */
  predicate Separates(p: Pattern, c: char) {
    c == '-' || (p.slashes && (c == '/' || c == ' '))
  }

  /** _MONTH_MAP.get(w.lower()), counted from 0 */
  function MonthNumber(w: string, k: nat := 0): (r: Option<nat>)
    ensures r.Some? ==> k <= r.value < 12
    decreases 12 - k
  {
    if k >= 12 then None
    else if Lower(w) == Lower(MonthName(k)) then Some(k)
    else MonthNumber(w, k + 1)
  }

  predicate InPart(part: Part, w: string) {
    match part
    case Digits(least, most) => least <= |w| <= most && AllDigits(w)
    case Month => MonthNumber(w).Some?
  }

  /** What a match captured: three groups and the separators between them. */
  datatype Groups = Groups(first: string, sep1: char, second: string, sep2: char, third: string)

  function Matched(g: Groups): string {
    g.first + [g.sep1] + g.second + [g.sep2] + g.third
  }

  predicate InLanguage(p: Pattern, g: Groups) {
    && InPart(p.first, g.first) && InPart(p.second, g.second) && InPart(p.third, g.third)
    && Separates(p, g.sep1) && Separates(p, g.sep2)
  }

  /** \b at a place whose right side (or left side, for `end`) is a word character */
  predicate WordStarts(s: string, i: nat)
    requires i <= |s|
  {
    i == 0 || !IsWord(s[i - 1])
  }

  predicate WordEnds(s: string, i: nat)
    requires i <= |s|
  {
    i == |s| || !IsWord(s[i])
  }

  /** The expression matches s at i with these groups. */
  predicate MatchesAt(p: Pattern, s: string, i: nat, g: Groups) {
    && InLanguage(p, g)
    && i + |Matched(g)| <= |s|
    && s[i..i + |Matched(g)|] == Matched(g)
    && WordStarts(s, i) && WordEnds(s, i + |Matched(g)|)
  }

  // ---- Scanning for a match ----

  /** Where the run of word characters at i ends. */
  function RunEnd(s: string, i: nat): (j: nat)
    requires i <= |s|
    ensures i <= j <= |s| && AllWord(s[i..j]) && WordEnds(s, j)
    decreases |s| - i
  {
    if i < |s| && IsWord(s[i]) then RunEnd(s, i + 1) else i
  }

  lemma {:induction false} RunEndUnique(s: string, i: nat, j: nat)
    requires i <= j <= |s| && AllWord(s[i..j]) && WordEnds(s, j)
    ensures RunEnd(s, i) == j
    decreases j - i
  {
    if i < j {
      assert s[i] == s[i..j][0];
      assert s[i + 1..j] == s[i..j][1..];
      RunEndUnique(s, i + 1, j);
    }
  }

  function ScanAt(p: Pattern, s: string, i: nat): Option<Groups>
    requires i <= |s|
  {
    if !WordStarts(s, i) then None
    else
      var a := RunEnd(s, i);
      if a >= |s| then None
      else
        var b := RunEnd(s, a + 1);
        if b >= |s| then None
        else
          var c := RunEnd(s, b + 1);
          var g := Groups(s[i..a], s[a], s[a + 1..b], s[b], s[b + 1..c]);
          if InLanguage(p, g) then Some(g) else None
  }

  predicate DigitRange(part: Part) {
    part.Digits? ==> part.least >= 1
  }

  predicate WellFormed(p: Pattern) {
    DigitRange(p.first) && DigitRange(p.second) && DigitRange(p.third)
  }

  lemma {:induction false} MonthLetters(k: nat)
    requires k < 12
    ensures forall i | 0 <= i < |MonthName(k)| :: IsWord(MonthName(k)[i]) && !IsDigit(MonthName(k)[i])
  {
  }

  lemma WordOfLower(v: string, w: string)
    requires Lower(v) == Lower(w)
    ensures |v| == |w|
    ensures forall i | 0 <= i < |v| :: IsWord(v[i]) == IsWord(w[i]) && IsDigit(v[i]) == IsDigit(w[i])
  {
    forall i | 0 <= i < |v|
      ensures IsWord(v[i]) == IsWord(w[i]) && IsDigit(v[i]) == IsDigit(w[i])
    {
      assert LowerChar(v[i]) == Lower(v)[i] == Lower(w)[i] == LowerChar(w[i]);
    }
  }

  lemma {:induction false} MonthFound(w: string, k: nat)
    requires MonthNumber(w, k).Some?
    ensures Lower(w) == Lower(MonthName(MonthNumber(w, k).value))
    decreases 12 - k
  {
    hide MonthName, Lower;
    if Lower(w) != Lower(MonthName(k)) {
      MonthFound(w, k + 1);
    }
  }

  lemma MonthIsLetters(w: string)
    requires MonthNumber(w).Some?
    ensures w != "" && !IsDigit(w[0]) && forall i | 0 <= i < |w| :: IsWord(w[i]) && !IsDigit(w[i])
  {
    hide MonthName, Lower, MonthNumber, IsWord, IsDigit;
    MonthFound(w, 0);
    var k := MonthNumber(w).value;
    WordOfLower(w, MonthName(k));
    MonthLetters(k);
  }

  lemma PartIsWord(part: Part, w: string)
    requires DigitRange(part) && InPart(part, w)
    ensures w != "" && AllWord(w)
  {
    if part.Month? {
      MonthIsLetters(w);
    }
  }

  /** The scanner finds exactly what the expression matches, so a match at a place is unique. */
  lemma ScanIsMatch(p: Pattern, s: string, i: nat, g: Groups)
    requires WellFormed(p) && i <= |s|
    ensures ScanAt(p, s, i) == Some(g) <==> MatchesAt(p, s, i, g)
  {
    if MatchesAt(p, s, i, g) {
      MatchIsScanned(p, s, i, g);
    }
    if ScanAt(p, s, i) == Some(g) {
      ScannedMatches(p, s, i, g);
    }
  }

  lemma SplitAround(s: string, i: nat, a: nat, c: nat)
    requires i <= a < c <= |s|
    ensures s[i..c] == s[i..a] + [s[a]] + s[a + 1..c]
  {
  }

  /** Where the groups of a text lie. */
  lemma GroupsLie(s: string, i: nat, a: nat, b: nat, c: nat, g: Groups)
    requires i <= a < b < c <= |s|
    requires a == i + |g.first| && b == a + 1 + |g.second| && c == b + 1 + |g.third|
    ensures s[i..c] == Matched(g)
            <==> s[i..a] == g.first && s[a] == g.sep1 && s[a + 1..b] == g.second && s[b] == g.sep2
                 && s[b + 1..c] == g.third
  {
    var m := Matched(g);
    SplitAround(s, i, b, c);
    SplitAround(s, i, a, b);
    if s[i..c] == m {
      assert s[i..a] == s[i..c][..a - i] == m[..a - i] == g.first;
      assert s[a] == s[i..c][a - i] == m[a - i] == g.sep1;
      assert s[a + 1..b] == s[i..c][a + 1 - i..b - i] == m[a + 1 - i..b - i] == g.second;
      assert s[b] == s[i..c][b - i] == m[b - i] == g.sep2;
      assert s[b + 1..c] == s[i..c][b + 1 - i..] == m[b + 1 - i..] == g.third;
    }
  }

  lemma ScannedMatches(p: Pattern, s: string, i: nat, g: Groups)
    requires WellFormed(p) && i <= |s| && ScanAt(p, s, i) == Some(g)
    ensures MatchesAt(p, s, i, g)
  {
    hide InPart, Matched, AllWord;
    var a := RunEnd(s, i);
    var b := RunEnd(s, a + 1);
    var c := RunEnd(s, b + 1);
    PartIsWord(p.third, g.third);
    GroupsLie(s, i, a, b, c, g);
    assert |Matched(g)| == c - i by {
      MatchedLength(g);
    }
  }

  lemma MatchedLength(g: Groups)
    ensures |Matched(g)| == |g.first| + |g.second| + |g.third| + 2
  {
  }

  lemma MatchIsScanned(p: Pattern, s: string, i: nat, g: Groups)
    requires WellFormed(p) && MatchesAt(p, s, i, g)
    ensures ScanAt(p, s, i) == Some(g)
  {
    hide InPart, RunEnd, Matched, AllWord;
    PartIsWord(p.first, g.first);
    PartIsWord(p.second, g.second);
    PartIsWord(p.third, g.third);
    MatchedLength(g);
    var a := i + |g.first|;
    var b := a + 1 + |g.second|;
    var c := b + 1 + |g.third|;
    GroupsLie(s, i, a, b, c, g);
    RunEndUnique(s, i, a);
    RunEndUnique(s, a + 1, b);
    RunEndUnique(s, b + 1, c);
  }

  /** pattern.search: the leftmost match at or after i */
  function Search(p: Pattern, s: string, i: nat := 0): Option<Groups>
    requires i <= |s|
    decreases |s| - i
  {
    if ScanAt(p, s, i).Some? then ScanAt(p, s, i)
    else if i == |s| then None
    else Search(p, s, i + 1)
  }

  lemma {:induction false} SearchFinds(p: Pattern, s: string, i: nat)
    requires WellFormed(p) && i <= |s|
    ensures Search(p, s, i) == None <==> forall j, g | i <= j <= |s| :: !MatchesAt(p, s, j, g)
    ensures Search(p, s, i).Some? ==>
              exists j | i <= j <= |s| :: MatchesAt(p, s, j, Search(p, s, i).value)
                                          && forall k, g | i <= k < j :: !MatchesAt(p, s, k, g)
    decreases |s| - i
  {
    hide MatchesAt, ScanAt;
    forall g ensures ScanAt(p, s, i) == Some(g) <==> MatchesAt(p, s, i, g) {
      ScanIsMatch(p, s, i, g);
    }
    if ScanAt(p, s, i).Some? {
      assert MatchesAt(p, s, i, ScanAt(p, s, i).value);
    } else if i < |s| {
      SearchFinds(p, s, i + 1);
      if Search(p, s, i).Some? {
        var g' := Search(p, s, i + 1).value;
        var j :| i + 1 <= j <= |s| && MatchesAt(p, s, j, g') && forall k, g | i + 1 <= k < j :: !MatchesAt(p, s, k, g);
        forall k, g | i <= k < j ensures !MatchesAt(p, s, k, g) {
        }
      }
    }
  }

  // ---- _normalise_date ----

  function Zfill2(w: string): string {
    if |w| == 0 then "00" else if |w| == 1 then ['0'] + w else w
  }

  function MonthDigits(w: string): string {
    match MonthNumber(w)
    case None => "??"
    case Some(k) => Pad(k + 1, 2)
  }

  function Rebuilt(g: Groups): string {
    if MonthNumber(g.first).Some? || MonthNumber(g.second).Some? || MonthNumber(g.third).Some? then
      g.third + ['-'] + MonthDigits(g.second) + ['-'] + Zfill2(g.first)
    else if |g.third| == 4 then
      g.third + ['-'] + Zfill2(g.second) + ['-'] + Zfill2(g.first)
    else
      g.first + ['-'] + Zfill2(g.second) + ['-'] + Zfill2(g.third)
  }

  /** What the patterns from k on make of a stripped text. */
  function ByPattern(s: string, k: nat): Option<string>
    decreases |DATE_PATTERNS| - k
  {
    if k >= |DATE_PATTERNS| then None
    else
      match Search(DATE_PATTERNS[k], s)
      case Some(g) => Some(Rebuilt(g))
      case None => ByPattern(s, k + 1)
  }

  function Normalised(raw: string): Option<string> {
    ByPattern(Strip(raw), 0)
  }

  method NormaliseDate(raw: string) returns (r: Option<string>)
    ensures r == Normalised(raw)
  {
    var s := Strip(raw);
    for k := 0 to |DATE_PATTERNS|
      invariant Normalised(raw) == ByPattern(s, k)
    {
      var m := Search(DATE_PATTERNS[k], s);
      if m.Some? {
        return Some(Rebuilt(m.value));
      }
    }
    r := None;
  }
}
