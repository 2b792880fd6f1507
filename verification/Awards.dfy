/** The statutory redundancy payment and the basic award for unfair dismissal, over the reals and
    before rounding to pence. */
module Awards {

  datatype Bands = Bands(under22: real, from22: real, from41: real)

  datatype Rules = Rules(qualifyingYears: real, maxYears: int, cap: real, bands: Bands)

  predicate Ordered(b: Bands) {
    0.0 <= b.under22 <= b.from22 <= b.from41
  }

  /** The bands of section 162 of the Employment Rights Act 1996. */
  const STATUTORY := Bands(0.5, 1.0, 1.5)

  function Multiplier(b: Bands, age: int): real {
    if age >= 41 then b.from41 else if age >= 22 then b.from22 else b.under22
  }

  function Min(x: real, y: real): real {
    if x <= y then x else y
  }

  function MinInt(x: int, y: int): int {
    if x <= y then x else y
  }

  /** int() of a float: towards zero */
  function Truncated(x: real): int {
    if x >= 0.0 then x.Floor else -((-x).Floor)
  }

  function Clamp(x: int, n: nat): (r: nat)
    ensures r <= n && (0 <= x <= n ==> r == x)
  {
    if x < 0 then 0 else if x > n then n else x
  }

  /** Of the last n years, how many were worked at 41 or over, and at 22 or over. */
  function YearsFrom41(age: int, n: nat): nat {
    Clamp(age - 40, n)
  }

  function YearsFrom22(age: int, n: nat): nat {
    Clamp(age - 21, n)
  }

  /** The weeks for n years up to an age, band by band. */
  function Weeks(b: Bands, age: int, n: nat): real {
    YearsFrom41(age, n) as real * b.from41
    + (YearsFrom22(age, n) - YearsFrom41(age, n)) as real * b.from22
    + (n - YearsFrom22(age, n)) as real * b.under22
  }

  lemma WeeksOfOneMoreYear(b: Bands, age: int, n: nat)
    ensures Weeks(b, age, n + 1) == Weeks(b, age, n) + Multiplier(b, age - n)
  {
    var from41 := YearsFrom41(age, n + 1) - YearsFrom41(age, n);
    var from22 := YearsFrom22(age, n + 1) - YearsFrom22(age, n);
    assert from41 == if age - n >= 41 then 1 else 0;
    assert from22 == if age - n >= 22 then 1 else 0;
    OneMore(YearsFrom41(age, n), from41, b.from41);
    OneMore(YearsFrom22(age, n) - YearsFrom41(age, n), from22 - from41, b.from22);
    OneMore(n - YearsFrom22(age, n), 1 - from22, b.under22);
  }

  lemma OneMore(count: int, more: int, x: real)
    requires more == 0 || more == 1
    ensures (count + more) as real * x == count as real * x + if more == 1 then x else 0.0
  {
    assert (count + more) as real == count as real + more as real;
  }

  /** Only the years counted make weeks; none when the count is not positive. */
  method RedundancyWeeks(b: Bands, age: int, years: int) returns (weeks: real)
    ensures weeks == Weeks(b, age, if years < 0 then 0 else years)
  {
    weeks := 0.0;
    var offset := 0;
    while offset < years
      invariant 0 <= offset && (offset <= years || offset == 0)
      invariant weeks == Weeks(b, age, offset)
    {
      WeeksOfOneMoreYear(b, age, offset);
      var ageInYear := age - offset;
      if ageInYear >= 41 {
        weeks := weeks + b.from41;
      } else if ageInYear >= 22 {
        weeks := weeks + b.from22;
      } else {
        weeks := weeks + b.under22;
      }
      offset := offset + 1;
    }
  }

  /** None when the qualifying period is not met. */
  datatype Award = NotQualified | Award(years: int, amount: real)

  function CountedYears(r: Rules, service: real): (n: nat) {
    var n := MinInt(Truncated(service), r.maxYears);
    if n < 0 then 0 else n
  }

  method RedundancyPayment(r: Rules, service: real, age: int, weeklyPay: real) returns (award: Award)
    ensures award == NotQualified <==> service < r.qualifyingYears
    ensures award.Award? ==>
              award.years == MinInt(Truncated(service), r.maxYears)
              && award.amount == Weeks(r.bands, age, CountedYears(r, service)) * Min(weeklyPay, r.cap)
  {
    if service < r.qualifyingYears {
      return NotQualified;
    }
    var years := MinInt(Truncated(service), r.maxYears);
    var pay := Min(weeklyPay, r.cap);
    var weeks := RedundancyWeeks(r.bands, age, years);
    award := Award(years, weeks * pay);
  }

  /** The basic award before its floor: one multiplier, that of the age at dismissal, for every year. */
  function BasicBeforeFloor(age: int, years: int, weeklyPay: real, cap: real): real {
    years as real * Multiplier(STATUTORY, age) * Min(weeklyPay, cap)
  }

  // ---- How the weeks grow ----

  lemma {:induction false} ServiceNeverHurts(b: Bands, age: int, n: nat, more: nat)
    requires Ordered(b) && n <= more
    ensures Weeks(b, age, n) <= Weeks(b, age, more)
    decreases more - n
  {
    hide Weeks;
    if n < more {
      WeeksOfOneMoreYear(b, age, n);
      ServiceNeverHurts(b, age, n + 1, more);
    }
  }

  lemma {:induction false} AgeNeverHurts(b: Bands, age: int, older: int, n: nat)
    requires Ordered(b) && age <= older
    ensures Weeks(b, age, n) <= Weeks(b, older, n)
  {
    if n > 0 {
      hide Weeks;
      WeeksOfOneMoreYear(b, age, n - 1);
      WeeksOfOneMoreYear(b, older, n - 1);
      AgeNeverHurts(b, age, older, n - 1);
    }
  }

  /** An older or longer-serving employee on no less pay is never paid less. */
  lemma PaymentIsMonotone(r: Rules, age: int, older: int, service: real, longer: real, pay: real, more: real)
    requires Ordered(r.bands) && r.cap >= 0.0 && age <= older && service <= longer && 0.0 <= pay <= more
    ensures Weeks(r.bands, age, CountedYears(r, service)) * Min(pay, r.cap)
            <= Weeks(r.bands, older, CountedYears(r, longer)) * Min(more, r.cap)
  {
    hide Weeks;
    var m, n := CountedYears(r, service), CountedYears(r, longer);
    ServiceNeverHurts(r.bands, age, m, n);
    AgeNeverHurts(r.bands, age, older, n);
    ServiceNeverHurts(r.bands, age, 0, m);
    assert Weeks(r.bands, age, 0) == 0.0 by { NoYears(r.bands, age); }
    ProductGrows(Weeks(r.bands, age, m), Weeks(r.bands, older, n), Min(pay, r.cap), Min(more, r.cap));
  }

  lemma NoYears(b: Bands, age: int)
    ensures Weeks(b, age, 0) == 0.0
  {
  }

  lemma ProductGrows(x: real, y: real, u: real, v: real)
    requires 0.0 <= x <= y && 0.0 <= u <= v
    ensures x * u <= y * v
  {
    assert x * u <= y * u;
    assert y * u <= y * v;
  }

  // ---- Against the basic award ----

  predicate StrictlyOrdered(b: Bands) {
    0.0 <= b.under22 < b.from22 < b.from41
  }

  /** n years in bands never make more weeks than n years at the last age's multiplier, and make
      as many exactly when the first of them is in the same band as the last. */
  lemma {:induction false} BandsNeverExceedOneMultiplier(b: Bands, age: int, n: nat)
    requires StrictlyOrdered(b)
    ensures Weeks(b, age, n) <= n as real * Multiplier(b, age)
    ensures Weeks(b, age, n) == n as real * Multiplier(b, age)
            <==> n == 0 || Multiplier(b, age - n + 1) == Multiplier(b, age)
  {
    hide Weeks;
    if n > 1 {
      hide Multiplier;
      WeeksOfOneMoreYear(b, age, n - 1);
      BandsNeverExceedOneMultiplier(b, age, n - 1);
      OneMore(n - 1, 1, Multiplier(b, age));
      LastBandIsHighest(b, age - n + 1, age - n + 2, age);
    } else {
      NoYears(b, age);
      WeeksOfOneMoreYear(b, age, 0);
    }
  }

  lemma LastBandIsHighest(b: Bands, early: int, mid: int, age: int)
    requires StrictlyOrdered(b) && early <= mid <= age
    ensures Multiplier(b, early) <= Multiplier(b, age)
    ensures Multiplier(b, early) == Multiplier(b, age) ==> Multiplier(b, mid) == Multiplier(b, age)
  {
  }

  /** On equal years and capped pay, the redundancy payment in the statutory bands is at most the
      basic award before its floor; they are equal exactly when nothing is paid for or the counted
      years lie in one band. */
  lemma RedundancyIsAtMostBasic(age: int, n: nat, weeklyPay: real, cap: real)
    requires weeklyPay >= 0.0 && cap >= 0.0
    ensures var redundancy := Weeks(STATUTORY, age, n) * Min(weeklyPay, cap);
            var basic := BasicBeforeFloor(age, n, weeklyPay, cap);
            && redundancy <= basic
            && (redundancy == basic
                <==> n == 0 || Min(weeklyPay, cap) == 0.0
                     || Multiplier(STATUTORY, age - n + 1) == Multiplier(STATUTORY, age))
  {
    hide Weeks;
    BandsNeverExceedOneMultiplier(STATUTORY, age, n);
    var w, m, pay := Weeks(STATUTORY, age, n), n as real * Multiplier(STATUTORY, age), Min(weeklyPay, cap);
    Scaled(w, m, pay);
  }

  lemma Scaled(w: real, m: real, pay: real)
    requires w <= m && pay >= 0.0
    ensures w * pay <= m * pay
    ensures w * pay == m * pay <==> pay == 0.0 || w == m
  {
    assert m * pay - w * pay == (m - w) * pay;
  }
}
