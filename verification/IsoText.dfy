/** Zero-padded ISO dates (the extended calendar-date form of ISO 8601:2004, section 4.1.2.2) as
    text: printing, parsing, and the order of the strings. */
module IsoText {
  import opened Wrappers
  import opened Calendar

  predicate IsDigit(c: char) {
    '0' <= c <= '9'
  }

  predicate AllDigits(s: string) {
    forall i | 0 <= i < |s| :: IsDigit(s[i])
  }

  function DigitChar(n: nat): char
    requires n < 10
  {
    '0' + n as char
  }

  function DigitValue(c: char): nat
    requires IsDigit(c)
  {
    (c - '0') as nat
  }

  function Pow10(width: nat): nat {
    if width == 0 then 1 else 10 * Pow10(width - 1)
  }

  /** f"{n:0{width}d}" for numbers that fit. */
  function Pad(n: nat, width: nat): (s: string)
    ensures |s| == width && AllDigits(s)
  {
    if width == 0 then "" else Pad(n / 10, width - 1) + [DigitChar(n % 10)]
  }

  function ToNat(s: string): nat
    requires AllDigits(s)
  {
    if s == "" then 0 else ToNat(s[..|s| - 1]) * 10 + DigitValue(s[|s| - 1])
  }

  lemma {:induction false} PadToNat(n: nat, width: nat)
    requires n < Pow10(width)
    ensures ToNat(Pad(n, width)) == n
  {
    if width > 0 {
      PadToNat(n / 10, width - 1);
      assert Pad(n, width)[..width - 1] == Pad(n / 10, width - 1);
    }
  }

  lemma LastDigit(s: string)
    requires AllDigits(s) && s != ""
    ensures var front, last := s[..|s| - 1], s[|s| - 1];
            && AllDigits(front) && IsDigit(last) && s == front + [last]
            && ToNat(s) == ToNat(front) * 10 + DigitValue(last)
  {
  }

  lemma {:induction false} ToNatPad(s: string)
    requires AllDigits(s)
    ensures ToNat(s) < Pow10(|s|) && Pad(ToNat(s), |s|) == s
  {
    if s != "" {
      hide Pow10, Pad, ToNat, DigitChar, DigitValue;
      LastDigit(s);
      var front, last := s[..|s| - 1], s[|s| - 1];
      ToNatPad(front);
      PadOneMore(ToNat(front), DigitValue(last), |front|);
      DigitOfValue(last);
    }
  }

  lemma DigitOfValue(c: char)
    requires IsDigit(c)
    ensures DigitChar(DigitValue(c)) == c
  {
  }

  lemma PadOneMore(n: nat, digit: nat, width: nat)
    requires digit < 10 && n < Pow10(width)
    ensures n * 10 + digit < Pow10(width + 1)
    ensures Pad(n * 10 + digit, width + 1) == Pad(n, width) + [DigitChar(digit)]
  {
    SplitDigit(n, digit);
  }

  lemma SplitDigit(n: nat, digit: nat)
    requires digit < 10
    ensures (n * 10 + digit) / 10 == n && (n * 10 + digit) % 10 == digit
  {
  }

  // ---- Python's order of strings ----

  predicate LexLess(s: string, t: string)
    decreases |s|
  {
    t != "" && (s == "" || s[0] < t[0] || (s[0] == t[0] && LexLess(s[1..], t[1..])))
  }

  lemma {:induction false} LexConcat(a: string, b: string, c: string, d: string)
    requires |a| == |c|
    ensures LexLess(a + b, c + d) <==> LexLess(a, c) || (a == c && LexLess(b, d))
    decreases |a|
  {
    if a == "" {
      assert a + b == b && c + d == d;
    } else {
      LexConcat(a[1..], b, c[1..], d);
      assert (a + b)[1..] == a[1..] + b && (c + d)[1..] == c[1..] + d;
      assert a == c <==> a[0] == c[0] && a[1..] == c[1..] by {
        assert a == [a[0]] + a[1..] && c == [c[0]] + c[1..];
      }
    }
  }

  lemma PadSplit(n: nat, width: nat)
    requires n < Pow10(width + 1)
    ensures n / 10 < Pow10(width) && Pad(n, width + 1) == Pad(n / 10, width) + [DigitChar(n % 10)]
  {
  }

  /** Texts of one length with a digit behind. */
  lemma DigitBehind(s: string, t: string, a: nat, b: nat)
    requires |s| == |t| && a < 10 && b < 10
    ensures LexLess(s + [DigitChar(a)], t + [DigitChar(b)]) <==> LexLess(s, t) || (s == t && a < b)
    ensures s + [DigitChar(a)] == t + [DigitChar(b)] <==> s == t && a == b
  {
    var x, y := [DigitChar(a)], [DigitChar(b)];
    assert x[1..] == "" && y[1..] == "";
    LexConcat(s, x, t, y);
    assert (s + x)[..|s|] == s && (t + y)[..|t|] == t && (s + x)[|s|] == x[0] && (t + y)[|t|] == y[0];
  }

  lemma SplitOrder(m: nat, n: nat)
    ensures m < n <==> m / 10 < n / 10 || (m / 10 == n / 10 && m % 10 < n % 10)
    ensures m == n <==> m / 10 == n / 10 && m % 10 == n % 10
  {
  }

  /** Numbers of the same width compare as text the way they compare as numbers. */
  lemma {:induction false} PadOrder(m: nat, n: nat, width: nat)
    requires m < Pow10(width) && n < Pow10(width)
    ensures LexLess(Pad(m, width), Pad(n, width)) <==> m < n
    ensures Pad(m, width) == Pad(n, width) <==> m == n
  {
    if width > 0 {
      hide Pow10, Pad, LexLess, DigitChar;
      PadSplit(m, width - 1);
      PadSplit(n, width - 1);
      PadOrder(m / 10, n / 10, width - 1);
      DigitBehind(Pad(m / 10, width - 1), Pad(n / 10, width - 1), m % 10, n % 10);
      SplitOrder(m, n);
    }
  }

  // ---- isoformat() and fromisoformat() ----

  function Iso(d: Date): (s: string)
    requires Valid(d)
    ensures |s| == 10
  {
    Pad(d.year, 4) + ("-" + (Pad(d.month, 2) + ("-" + Pad(d.day, 2))))
  }

  predicate IsoShape(s: string) {
    |s| == 10 && AllDigits(s[..4]) && s[4] == '-' && AllDigits(s[5..7]) && s[7] == '-' && AllDigits(s[8..])
  }

  /** date.fromisoformat on the YYYY-MM-DD form; anything else raises. */
  function ParseIso(s: string): Option<Date> {
    if !IsoShape(s) then None
    else
      var d := Date(ToNat(s[..4]), ToNat(s[5..7]), ToNat(s[8..]));
      if Valid(d) then Some(d) else None
  }

  lemma Widths()
    ensures Pow10(2) == 100 && Pow10(4) == 10000
  {
    assert Pow10(1) == 10 && Pow10(3) == 10 * Pow10(2);
  }

  lemma IsoParts(d: Date)
    requires Valid(d)
    ensures IsoShape(Iso(d))
    ensures Iso(d)[..4] == Pad(d.year, 4) && Iso(d)[5..7] == Pad(d.month, 2) && Iso(d)[8..] == Pad(d.day, 2)
  {
  }

  /** Printing and parsing undo each other: on dates, and on every text that parses. */
  lemma ParsePrint(d: Date)
    requires Valid(d)
    ensures ParseIso(Iso(d)) == Some(d)
  {
    Widths();
    IsoParts(d);
    PadToNat(d.year, 4);
    PadToNat(d.month, 2);
    PadToNat(d.day, 2);
  }

  lemma PrintParse(s: string)
    requires ParseIso(s).Some?
    ensures Valid(ParseIso(s).value) && Iso(ParseIso(s).value) == s
  {
    ToNatPad(s[..4]);
    ToNatPad(s[5..7]);
    ToNatPad(s[8..]);
    assert s == s[..4] + (s[4..5] + (s[5..7] + (s[7..8] + s[8..])));
  }

  /** For all years 1 to 9999, string order is calendar order. */
  lemma StringOrderIsDateOrder(a: Date, b: Date)
    requires Valid(a) && Valid(b)
    ensures LexLess(Iso(a), Iso(b)) <==> Ordinal(a) < Ordinal(b)
    ensures Iso(a) == Iso(b) <==> a == b
  {
    Widths();
    PadOrder(a.year, b.year, 4);
    PadOrder(a.month, b.month, 2);
    PadOrder(a.day, b.day, 2);
    var da, db := Pad(a.day, 2), Pad(b.day, 2);
    var ma, mb := Pad(a.month, 2), Pad(b.month, 2);
    LexConcat("-", da, "-", db);
    LexConcat(ma, "-" + da, mb, "-" + db);
    LexConcat("-", ma + ("-" + da), "-", mb + ("-" + db));
    LexConcat(Pad(a.year, 4), "-" + (ma + ("-" + da)), Pad(b.year, 4), "-" + (mb + ("-" + db)));
    DashIsNotLess();
    BeforeIsSmallerOrdinal(a, b);
    if Iso(a) == Iso(b) {
      ParsePrint(a);
      ParsePrint(b);
    }
  }

  lemma DashIsNotLess()
    ensures !LexLess("-", "-")
  {
    assert "-"[1..] == "";
  }
}
