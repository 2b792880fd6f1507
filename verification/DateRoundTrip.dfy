/** What the date printer and the date reader do to each other, over every date and every text. */
module DateRoundTrip {
  import opened Wrappers
  import opened Calendar
  import opened IsoText
  import opened Text
  import opened DateText

  // ---- Searching ----

  lemma SearchHit(p: Pattern, s: string, g: Groups)
    requires WellFormed(p) && MatchesAt(p, s, 0, g)
    ensures Search(p, s) == Some(g)
  {
    ScanIsMatch(p, s, 0, g);
  }

  lemma SearchMiss(p: Pattern, s: string)
    requires WellFormed(p) && forall j, g | 0 <= j <= |s| :: !MatchesAt(p, s, j, g)
    ensures Search(p, s) == None
  {
    SearchFinds(p, s, 0);
  }

  lemma StripNothing(s: string)
    requires s != "" && !IsSpace(s[0]) && !IsSpace(s[|s| - 1])
    ensures Strip(s) == s
  {
  }

  /** The parts of a match, where they lie in the text. */
  lemma MatchLies(p: Pattern, s: string, i: nat, g: Groups)
    requires MatchesAt(p, s, i, g)
    ensures var a := i + |g.first|; var b := a + 1 + |g.second|; var c := b + 1 + |g.third|;
            && c <= |s| && s[i..a] == g.first && s[a] == g.sep1 && s[a + 1..b] == g.second
            && s[b] == g.sep2 && s[b + 1..c] == g.third
  {
    var a := i + |g.first|;
    var b := a + 1 + |g.second|;
    MatchedLength(g);
    hide Matched;
    GroupsLie(s, i, a, b, b + 1 + |g.third|, g);
  }

  lemma WholeMatches(p: Pattern, g: Groups)
    requires InLanguage(p, g)
    ensures MatchesAt(p, Matched(g), 0, g)
  {
    assert Matched(g)[0..|Matched(g)|] == Matched(g);
  }

  lemma DigitsNoMonth(w: string)
    requires AllDigits(w)
    ensures MonthNumber(w) == None
  {
    if MonthNumber(w).Some? {
      MonthIsLetters(w);
      assert false;
    }
  }

  predicate IsDate(p: Pattern) {
    p == ISO_PATTERN || p == WORDED_PATTERN || p == NUMERIC_PATTERN
  }

  // ---- ISO texts are fixed points ----

  function IsoGroups(s: string): Groups
    requires IsoShape(s)
  {
    Groups(s[..4], '-', s[5..7], '-', s[8..])
  }

  lemma IsoTextIsFixed(s: string)
    requires IsoShape(s)
    ensures Normalised(s) == Some(s)
  {
    var g := IsoGroups(s);
    assert Matched(g) == s;
    WholeMatches(ISO_PATTERN, g);
    SearchHit(ISO_PATTERN, s, g);
    assert s[0] == s[..4][0] && s[9] == s[8..][1];
    hide Search, MatchesAt, InPart;
    StripNothing(s);
    DigitsNoMonth(g.first);
    DigitsNoMonth(g.second);
    DigitsNoMonth(g.third);
    assert DATE_PATTERNS[0] == ISO_PATTERN;
  }

  lemma DashedIsIso(y: string, m: string, d: string)
    requires |y| == 4 && |m| == 2 && |d| == 2 && AllDigits(y) && AllDigits(m) && AllDigits(d)
    ensures IsoShape(y + ['-'] + m + ['-'] + d)
  {
    var s := y + ['-'] + m + ['-'] + d;
    assert s[..4] == y && s[5..7] == m && s[8..] == d;
  }

  lemma RebuiltIsIso(p: Pattern, g: Groups)
    requires IsDate(p) && InLanguage(p, g)
    ensures IsoShape(Rebuilt(g))
  {
    hide IsoShape;
    hide MonthNumber;
    if p == WORDED_PATTERN {
      DigitsNoMonth(g.first);
      DigitsNoMonth(g.third);
      DashedIsIso(g.third, MonthDigits(g.second), Zfill2(g.first));
    } else {
      DigitsNoMonth(g.first);
      DigitsNoMonth(g.second);
      DigitsNoMonth(g.third);
      if p == NUMERIC_PATTERN {
        DashedIsIso(g.third, Zfill2(g.second), Zfill2(g.first));
      } else {
        DashedIsIso(g.first, Zfill2(g.second), Zfill2(g.third));
      }
    }
  }

  lemma SearchInLanguage(p: Pattern, s: string)
    requires WellFormed(p) && Search(p, s).Some?
    ensures InLanguage(p, Search(p, s).value)
  {
    hide InLanguage;
    SearchFinds(p, s, 0);
  }

  lemma {:induction false} ByPatternIsIso(s: string, k: nat)
    ensures ByPattern(s, k).Some? ==> IsoShape(ByPattern(s, k).value)
    decreases |DATE_PATTERNS| - k
  {
    hide Rebuilt, IsoShape, InLanguage, Search;
    if k < |DATE_PATTERNS| {
      var p := DATE_PATTERNS[k];
      if Search(p, s).Some? {
        SearchInLanguage(p, s);
        RebuiltIsIso(p, Search(p, s).value);
      } else {
        ByPatternIsIso(s, k + 1);
      }
    }
  }

  /** The reader's results are exactly the ISO-shaped texts, whether or not they name a date. */
  lemma ResultsAreIsoTexts(v: string)
    ensures (exists raw :: Normalised(raw) == Some(v)) <==> IsoShape(v)
  {
    if IsoShape(v) {
      IsoTextIsFixed(v);
    }
    forall raw | Normalised(raw) == Some(v) ensures IsoShape(v) {
      ByPatternIsIso(Strip(raw), 0);
    }
  }

  /** Reading what was read changes nothing. */
  lemma ReadingIsIdempotent(raw: string)
    ensures Normalised(raw).Some? ==> Normalised(Normalised(raw).value) == Normalised(raw)
  {
    ByPatternIsIso(Strip(raw), 0);
    if Normalised(raw).Some? {
      hide ByPattern, Strip, IsoShape;
      IsoTextIsFixed(Normalised(raw).value);
    }
  }

  // ---- Printed dates ----

  lemma {:induction false} DecimalIsPad(n: nat, width: nat)
    requires width >= 1 && n < Pow10(width) && (width == 1 || n >= Pow10(width - 1))
    ensures Decimal(n) == Pad(n, width)
  {
    if width > 1 {
      assert n / 10 < Pow10(width - 1);
      DecimalIsPad(n / 10, width - 1);
    } else {
      assert Pad(n, 0) == "";
    }
  }

  lemma DayText(day: nat)
    requires day < 100
    ensures Zfill2(Decimal(day)) == Pad(day, 2) && 1 <= |Decimal(day)| <= 2
  {
    Widths();
    if day < 10 {
      DecimalIsPad(day, 1);
      assert Pad(day, 2) == Pad(day / 10, 1) + [DigitChar(day)];
      assert Pad(0, 1) == Pad(0, 0) + ['0'];
    } else {
      DecimalIsPad(day, 2);
    }
  }

  lemma YearText(year: nat)
    requires 1 <= year <= 9999
    ensures year >= 1000 ==> Decimal(year) == Pad(year, 4)
    ensures year < 1000 ==> 1 <= |Decimal(year)| <= 3
  {
    Widths();
    if year >= 1000 {
      DecimalIsPad(year, 4);
    } else if year >= 100 {
      DecimalIsPad(year, 3);
    } else {
      DayText(year);
    }
  }

  lemma {:induction false} MonthReads(k: nat)
    requires k < 12
    ensures MonthNumber(MonthName(k)) == Some(k)
  {
    MonthReadsFrom(k, 0);
  }

  lemma {:induction false} MonthReadsFrom(k: nat, from: nat)
    requires from <= k < 12
    ensures MonthNumber(MonthName(k), from) == Some(k)
    decreases k - from
  {
    hide MonthName, Lower;
    if from < k {
      MonthsDiffer(k, from);
      MonthReadsFrom(k, from + 1);
    }
  }

  lemma SameLetters(v: string, w: string)
    ensures Lower(v) == Lower(w) && |v| >= 3 ==>
              && |v| == |w| && LowerChar(v[0]) == LowerChar(w[0]) && LowerChar(v[1]) == LowerChar(w[1])
              && LowerChar(v[2]) == LowerChar(w[2])
  {
    if Lower(v) == Lower(w) && |v| >= 3 {
      assert |Lower(v)| == |v| && |Lower(w)| == |w|;
      assert LowerChar(v[0]) == Lower(v)[0] && LowerChar(v[1]) == Lower(v)[1] && LowerChar(v[2]) == Lower(v)[2];
    }
  }

  /** The first three letters and the length tell the months apart in any case. */
  lemma MonthsDiffer(k: nat, from: nat)
    requires from < k < 12
    ensures Lower(MonthName(k)) != Lower(MonthName(from))
  {
    hide Lower;
    SameLetters(MonthName(k), MonthName(from));
  }

  function PrintedGroups(d: Date): Groups
    requires Valid(d)
  {
    Groups(Decimal(d.day), ' ', MonthName(d.month - 1), ' ', Decimal(d.year))
  }

  lemma PrintedNoDash(d: Date, i: nat)
    requires Valid(d) && i < |Printed(d)|
    ensures Printed(d)[i] != '-'
  {
    hide MonthName, Decimal;
    MonthLetters(d.month - 1);
    var a := |Decimal(d.day)|;
    var b := a + 1 + |MonthName(d.month - 1)|;
    if a < i < b {
      assert Printed(d)[i] == MonthName(d.month - 1)[i - a - 1];
    }
  }

  lemma IsoMatchHasDash(s: string, j: nat, g: Groups)
    requires MatchesAt(ISO_PATTERN, s, j, g)
    ensures exists i | 0 <= i < |s| :: s[i] == '-'
  {
    MatchLies(ISO_PATTERN, s, j, g);
    assert s[j + |g.first|] == '-';
  }

  lemma NoDashNoIso(s: string)
    requires forall i | 0 <= i < |s| :: s[i] != '-'
    ensures Search(ISO_PATTERN, s) == None
  {
    hide MatchesAt;
    forall j, g | 0 <= j <= |s| ensures !MatchesAt(ISO_PATTERN, s, j, g) {
      if MatchesAt(ISO_PATTERN, s, j, g) {
        IsoMatchHasDash(s, j, g);
      }
    }
    SearchMiss(ISO_PATTERN, s);
  }

  lemma PrintedIsRead(d: Date)
    requires Valid(d) && d.year >= 1000
    ensures Normalised(Printed(d)) == Some(Iso(d))
  {
    hide Decimal, MonthName, MonthNumber;
    var g := PrintedGroups(d);
    var s := Printed(d);
    assert s == Matched(g);
    DayText(d.day);
    YearText(d.year);
    MonthReads(d.month - 1);
    WholeMatches(WORDED_PATTERN, g);
    SearchHit(WORDED_PATTERN, s, g);
    forall i | 0 <= i < |s| ensures s[i] != '-' { PrintedNoDash(d, i); }
    NoDashNoIso(s);
    PrintedEnds(d);
    StripNothing(s);
    assert DATE_PATTERNS[0] == ISO_PATTERN && DATE_PATTERNS[1] == WORDED_PATTERN;
    assert ByPattern(s, 0) == ByPattern(s, 1) == Some(Rebuilt(g));
    RebuiltWorded(d);
  }

  lemma PrintedEnds(d: Date)
    requires Valid(d)
    ensures var s := Printed(d); s != "" && IsDigit(s[0]) && IsDigit(s[|s| - 1])
  {
    assert Printed(d)[0] == Decimal(d.day)[0];
    assert Printed(d)[|Printed(d)| - 1] == Decimal(d.year)[|Decimal(d.year)| - 1];
  }

  lemma RebuiltWorded(d: Date)
    requires Valid(d) && d.year >= 1000
    ensures Rebuilt(PrintedGroups(d)) == Iso(d)
  {
    hide Decimal, MonthName, MonthNumber, Pad, Zfill2;
    MonthReads(d.month - 1);
    assert MonthDigits(MonthName(d.month - 1)) == Pad(d.month, 2);
    hide MonthDigits;
    DayText(d.day);
    YearText(d.year);
    var y, m, day := Pad(d.year, 4), Pad(d.month, 2), Pad(d.day, 2);
    assert y + ['-'] + m + ['-'] + day == y + ("-" + (m + ("-" + day)));
  }

  // ---- Years before 1000 ----

  predicate FourDigits(s: string, k: nat) {
    k + 4 <= |s| && AllDigits(s[k..k + 4])
  }

  lemma MatchHasFourDigits(p: Pattern, s: string, i: nat, g: Groups)
    requires IsDate(p) && MatchesAt(p, s, i, g)
    ensures exists k: nat :: FourDigits(s, k)
  {
    hide MonthNumber;
    MatchLies(p, s, i, g);
    if p == ISO_PATTERN {
      assert FourDigits(s, i);
    } else {
      assert FourDigits(s, i + |g.first| + |g.second| + 2);
    }
  }

  lemma NonDigitBreaks(s: string, k: nat, i: nat)
    requires k <= i < k + 4 && i < |s| && !IsDigit(s[i])
    ensures !FourDigits(s, k)
  {
    if k + 4 <= |s| {
      assert s[k..k + 4][i - k] == s[i];
    }
  }

  lemma ShortYearHasNoFourDigits(d: Date, k: nat)
    requires Valid(d) && d.year < 1000
    ensures !FourDigits(Printed(d), k)
  {
    hide Decimal, MonthName, FourDigits;
    DayText(d.day);
    YearText(d.year);
    MonthLetters(d.month - 1);
    var s := Printed(d);
    var a := |Decimal(d.day)|;
    var b := a + 1 + |MonthName(d.month - 1)|;
    assert s[a] == ' ' && s[b] == ' ';
    if k <= a {
      NonDigitBreaks(s, k, a);
    } else if k < b {
      assert s[k] == MonthName(d.month - 1)[k - a - 1];
      NonDigitBreaks(s, k, k);
    } else if k == b {
      NonDigitBreaks(s, k, b);
    } else {
      assert |s| <= b + 4;
      TooLate(s, k);
    }
  }

  lemma TooLate(s: string, k: nat)
    requires k + 4 > |s|
    ensures !FourDigits(s, k)
  {
  }

  lemma {:induction false} NoFourDigitsNoDate(s: string, k: nat)
    requires forall j: nat :: !FourDigits(s, j)
    ensures ByPattern(s, k) == None
    decreases |DATE_PATTERNS| - k
  {
    if k < |DATE_PATTERNS| {
      var p := DATE_PATTERNS[k];
      hide FourDigits, MatchesAt;
      forall j, g | 0 <= j <= |s| ensures !MatchesAt(p, s, j, g) {
        if MatchesAt(p, s, j, g) {
          MatchHasFourDigits(p, s, j, g);
        }
      }
      SearchMiss(p, s);
      NoFourDigitsNoDate(s, k + 1);
    }
  }

  /** Printing and reading give every ISO date back, except that the year is printed without its
      leading zeros: a year below 1000 is not read at all. */
  lemma PrintThenRead(s: string)
    requires ParseIso(s).Some?
    ensures Normalised(Fmt(s)) == if s[0] != '0' then Some(s) else None
  {
    var d := ParseIso(s).value;
    PrintParse(s);
    FirstDigit(d);
    hide Printed, ParseIso, Normalised, Iso;
    if d.year >= 1000 {
      PrintedIsRead(d);
    } else {
      ShortYearIsNotRead(d);
    }
  }

  lemma FirstDigit(d: Date)
    requires Valid(d)
    ensures Iso(d)[0] != '0' <==> d.year >= 1000
  {
    var y: nat := d.year;
    PadFirst(y, 3);
    PadFirst(y / 10, 2);
    PadFirst(y / 10 / 10, 1);
    assert Pad(y / 10 / 10 / 10, 1) == Pad(y / 10 / 10 / 10 / 10, 0) + [DigitChar(y / 10 / 10 / 10 % 10)];
    assert y / 10 / 10 / 10 == y / 1000;
    assert Iso(d)[0] == Pad(y, 4)[0] == DigitChar(y / 1000);
  }

  lemma PadFirst(n: nat, width: nat)
    requires width >= 1
    ensures Pad(n, width + 1)[0] == Pad(n / 10, width)[0]
  {
  }

  lemma ShortYearIsNotRead(d: Date)
    requires Valid(d) && d.year < 1000
    ensures Normalised(Printed(d)) == None
  {
    hide Printed;
    PrintedEnds(d);
    StripNothing(Printed(d));
    forall k: nat ensures !FourDigits(Printed(d), k) { ShortYearHasNoFourDigits(d, k); }
    NoFourDigitsNoDate(Printed(d), 0);
  }

  // ---- Day, month and year in digits ----

  /** Any text of the numeric pattern is read day first. */
  lemma NumericIsRead(g: Groups)
    requires InLanguage(NUMERIC_PATTERN, g)
    ensures Normalised(Matched(g)) == Some(g.third + ['-'] + Zfill2(g.second) + ['-'] + Zfill2(g.first))
  {
    NumericIsFirst(g);
    DigitsNoMonth(g.first);
    DigitsNoMonth(g.second);
    DigitsNoMonth(g.third);
    hide FirstMatch, ByPattern, Matched;
    ByPatternRebuilds(Strip(Matched(g)), 0);
  }

  lemma IsoMatchStarts(s: string, j: nat, h: Groups)
    requires MatchesAt(ISO_PATTERN, s, j, h)
    ensures FourDigits(s, j) && j + 4 < |s|
  {
    MatchLies(ISO_PATTERN, s, j, h);
  }

  lemma NumericIsNotIso(g: Groups)
    requires InLanguage(NUMERIC_PATTERN, g)
    ensures Search(ISO_PATTERN, Matched(g)) == None
  {
    hide MonthNumber, MatchesAt, FourDigits;
    var s := Matched(g);
    var a := |g.first|;
    var b := a + 1 + |g.second|;
    assert s[a] == g.sep1 && s[b] == g.sep2;
    forall j, h | 0 <= j <= |s| ensures !MatchesAt(ISO_PATTERN, s, j, h) {
      if j <= a {
        NonDigitBreaks(s, j, a);
      } else if j <= b {
        NonDigitBreaks(s, j, b);
      }
      if MatchesAt(ISO_PATTERN, s, j, h) {
        IsoMatchStarts(s, j, h);
      }
    }
    SearchMiss(ISO_PATTERN, s);
  }

  predicate Letter(c: char) {
    IsWord(c) && !IsDigit(c)
  }

  lemma WordedMatchHasLetter(s: string, j: nat, h: Groups)
    requires MatchesAt(WORDED_PATTERN, s, j, h)
    ensures exists i | 0 <= i < |s| :: Letter(s[i])
  {
    hide MonthNumber;
    MatchLies(WORDED_PATTERN, s, j, h);
    MonthIsLetters(h.second);
    var k := j + |h.first| + 1;
    assert s[k] == s[k..k + |h.second|][0] == h.second[0];
  }

  lemma NumericIsNotWorded(g: Groups)
    requires InLanguage(NUMERIC_PATTERN, g)
    ensures Search(WORDED_PATTERN, Matched(g)) == None
  {
    hide MonthNumber, MatchesAt;
    var s := Matched(g);
    assert forall i | 0 <= i < |s| :: !Letter(s[i]);
    forall j, h | 0 <= j <= |s| ensures !MatchesAt(WORDED_PATTERN, s, j, h) {
      if MatchesAt(WORDED_PATTERN, s, j, h) {
        WordedMatchHasLetter(s, j, h);
      }
    }
    SearchMiss(WORDED_PATTERN, s);
  }

  function NumericGroups(d: Date, sep: char): Groups
    requires Valid(d)
  {
    Groups(Pad(d.day, 2), sep, Pad(d.month, 2), sep, Pad(d.year, 4))
  }

  /** Every date written 01/04/2026, 01-04-2026 or 01 04 2026 is read as that date. */
  lemma NumericDatesAreRead(d: Date, sep: char)
    requires Valid(d) && Separates(NUMERIC_PATTERN, sep)
    ensures Normalised(Matched(NumericGroups(d, sep))) == Some(Iso(d))
  {
    hide Pad, Matched, Normalised, MonthNumber, Separates;
    NumericIsRead(NumericGroups(d, sep));
    DashesJoin(Pad(d.year, 4), Pad(d.month, 2), Pad(d.day, 2));
  }

  lemma DashesJoin(y: string, m: string, d: string)
    ensures y + ['-'] + m + ['-'] + d == y + ("-" + (m + ("-" + d)))
  {
  }

  // ---- When a reading is a date ----

  /** The pattern that reads a stripped text and what it captures: of the patterns from k on, the first
      that matches anywhere, at its leftmost match. */
  ghost function FirstMatch(s: string, k: nat): (m: Option<(Pattern, Groups)>)
    ensures m.Some? ==> IsDate(m.value.0) && InLanguage(m.value.0, m.value.1)
    decreases |DATE_PATTERNS| - k
  {
    if k >= |DATE_PATTERNS| then None
    else
      match Search(DATE_PATTERNS[k], s)
      case Some(g) => SearchInLanguage(DATE_PATTERNS[k], s); Some((DATE_PATTERNS[k], g))
      case None => FirstMatch(s, k + 1)
  }

  /** The day the captured groups name. */
  function Meant(p: Pattern, g: Groups): Date
    requires IsDate(p) && InLanguage(p, g)
  {
    if p == WORDED_PATTERN then Date(ToNat(g.third), MonthNumber(g.second).value + 1, ToNat(g.first))
    else if p == NUMERIC_PATTERN then Date(ToNat(g.third), ToNat(g.second), ToNat(g.first))
    else Date(ToNat(g.first), ToNat(g.second), ToNat(g.third))
  }

  lemma ZfillKeepsValue(w: string)
    requires AllDigits(w) && 1 <= |w| <= 2
    ensures |Zfill2(w)| == 2 && AllDigits(Zfill2(w)) && ToNat(Zfill2(w)) == ToNat(w)
  {
    if |w| == 1 {
      assert Zfill2(w)[..1] == "0" && "0"[..0] == "" && w[..0] == "";
    }
  }

  lemma DashedParses(y: string, m: string, d: string)
    requires |y| == 4 && |m| == 2 && |d| == 2 && AllDigits(y) && AllDigits(m) && AllDigits(d)
    ensures var date := Date(ToNat(y), ToNat(m), ToNat(d));
            ParseIso(y + ['-'] + m + ['-'] + d) == if Valid(date) then Some(date) else None
  {
    var s := y + ['-'] + m + ['-'] + d;
    assert s[..4] == y && s[5..7] == m && s[8..] == d;
    assert s[4] == '-' && s[7] == '-';
    hide ToNat;
  }

  lemma RebuiltReads(p: Pattern, g: Groups)
    requires IsDate(p) && InLanguage(p, g)
    ensures ParseIso(Rebuilt(g)) == if Valid(Meant(p, g)) then Some(Meant(p, g)) else None
  {
    hide MonthNumber, ToNat, ParseIso, Valid, Zfill2;
    if p == WORDED_PATTERN {
      DigitsNoMonth(g.first);
      DigitsNoMonth(g.third);
      ZfillKeepsValue(g.first);
      Widths();
      PadToNat(MonthNumber(g.second).value + 1, 2);
      DashedParses(g.third, MonthDigits(g.second), Zfill2(g.first));
    } else {
      DigitsNoMonth(g.first);
      DigitsNoMonth(g.second);
      DigitsNoMonth(g.third);
      ZfillKeepsValue(g.second);
      if p == NUMERIC_PATTERN {
        ZfillKeepsValue(g.first);
        DashedParses(g.third, Zfill2(g.second), Zfill2(g.first));
      } else {
        ZfillKeepsValue(g.third);
        DashedParses(g.first, Zfill2(g.second), Zfill2(g.third));
      }
    }
  }

  lemma {:induction false} ByPatternRebuilds(s: string, k: nat)
    ensures ByPattern(s, k) == match FirstMatch(s, k) case None => None case Some(m) => Some(Rebuilt(m.1))
    decreases |DATE_PATTERNS| - k
  {
    hide Rebuilt, Search;
    if k < |DATE_PATTERNS| && Search(DATE_PATTERNS[k], s) == None {
      ByPatternRebuilds(s, k + 1);
    }
  }

  /** For every text: it is read exactly when a pattern matches, and the reading is a date exactly when the
      captured day exists in the calendar, and then it is that day. The reader itself checks no calendar. */
  lemma ReadingIsDateExactlyWhen(raw: string)
    ensures match FirstMatch(Strip(raw), 0)
            case None => Normalised(raw) == None
            case Some((p, g)) =>
              && Normalised(raw).Some?
              && ParseIso(Normalised(raw).value) == if Valid(Meant(p, g)) then Some(Meant(p, g)) else None
  {
    hide Rebuilt, Valid, Meant, ParseIso, FirstMatch, ByPattern;
    ByPatternRebuilds(Strip(raw), 0);
    if FirstMatch(Strip(raw), 0).Some? {
      var m := FirstMatch(Strip(raw), 0).value;
      RebuiltReads(m.0, m.1);
    }
  }

  lemma NumericIsFirst(g: Groups)
    requires InLanguage(NUMERIC_PATTERN, g)
    ensures FirstMatch(Strip(Matched(g)), 0) == Some((NUMERIC_PATTERN, g))
  {
    var s := Matched(g);
    NumericIsNotIso(g);
    NumericIsNotWorded(g);
    WholeMatches(NUMERIC_PATTERN, g);
    SearchHit(NUMERIC_PATTERN, s, g);
    assert s[0] == g.first[0] && s[|s| - 1] == g.third[3];
    StripNothing(s);
    hide Search, MatchesAt, Strip, Matched, InLanguage;
    assert DATE_PATTERNS[0] == ISO_PATTERN && DATE_PATTERNS[1] == WORDED_PATTERN && DATE_PATTERNS[2] == NUMERIC_PATTERN;
    assert FirstMatch(s, 0) == FirstMatch(s, 1) == FirstMatch(s, 2);
  }

  /** So every numeric text of an impossible day is read, as a text that is no date. */
  lemma NumericReadingIsDateExactlyWhen(g: Groups)
    requires InLanguage(NUMERIC_PATTERN, g)
    ensures Normalised(Matched(g)).Some?
    ensures ParseIso(Normalised(Matched(g)).value).Some?
            <==> Valid(Date(ToNat(g.third), ToNat(g.second), ToNat(g.first)))
  {
    hide Normalised, Matched, FirstMatch, ParseIso, ToNat, Valid;
    NumericIsRead(g);
    NumericIsFirst(g);
    ReadingIsDateExactlyWhen(Matched(g));
  }

  /** The 99th of the 99th month is read as 2025-99-99. */
  lemma ImpossibleDatesAreRead()
    ensures Normalised("99/99/2025") == Some("2025-99-99") && ParseIso("2025-99-99") == None
  {
    var g := Groups("99", '/', "99", '/', "2025");
    assert Matched(g) == "99/99/2025";
    assert g.third + ['-'] + Zfill2(g.second) + ['-'] + Zfill2(g.first) == "2025-99-99";
    hide Normalised, ParseIso, Matched, Valid;
    NumericIsRead(g);
    NumericReadingIsDateExactlyWhen(g);
    NoSuchDay(ToNat("2025"));
  }

  lemma NoSuchDay(year: nat)
    ensures !Valid(Date(year, ToNat("99"), ToNat("99")))
  {
    assert ToNat("99"[..1]) == 9;
    assert ToNat("99") == 99;
  }
}
