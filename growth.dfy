/** Compound growth of an investment in whole 30-day months. A date is a
    timestamp in whole seconds; money is an exact real (the source uses
    binary floats). */
module Growth {
  import opened Registry

  /** `b` raised to a natural power. */
  function Pow(b: real, n: nat): real
  {
    if n == 0 then 1.0 else b * Pow(b, n - 1)
  }

  lemma {:induction false} PowNonZero(b: real, n: nat)
    requires b != 0.0
    ensures Pow(b, n) != 0.0
  {
    if n > 0 {
      PowNonZero(b, n - 1);
    }
  }

  lemma {:induction false} PowAdd(b: real, m: nat, n: nat)
    ensures Pow(b, m + n) == Pow(b, m) * Pow(b, n)
  {
    if m > 0 {
      PowAdd(b, m - 1, n);
      assert Pow(b, m + n) == b * Pow(b, (m - 1) + n);
    }
  }

  /** Python's `float ** int`: a negative exponent divides, and raising zero
      to a negative exponent is a ZeroDivisionError. */
  function Power(b: real, e: int): (r: Result<real>)
    ensures r.Failure? <==> e < 0 && b == 0.0
    ensures r.Failure? ==> r.error == ZeroToNegativePower
    ensures e >= 0 ==> r == Success(Pow(b, e))
    ensures e < 0 && b != 0.0 ==> r.value * Pow(b, -e) == 1.0
  {
    if e >= 0 then Success(Pow(b, e))
    else if b == 0.0 then Failure(ZeroToNegativePower)
    else
      PowNonZero(b, -e);
      Success(1.0 / Pow(b, -e))
  }

  const SECONDS_PER_DAY: int := 86400
  const DAYS_PER_MONTH: int := 30

  /** A span of `n` days, in seconds. */
  function Days(n: int): int
  {
    n * SECONDS_PER_DAY
  }

  /** Spans of days add up. */
  lemma DaysAdd(a: int, b: int)
    ensures Days(a) + Days(b) == Days(a + b)
  {
  }

  /** The whole days in a span are determined by the bounds it lies
      between. */
  lemma DaysFloor(span: int, q: int)
    requires Days(q) <= span < Days(q + 1)
    ensures span / SECONDS_PER_DAY == q
  {
  }

  /** The same for whole months in a count of days. */
  lemma MonthsFloor(days: int, q: int)
    requires DAYS_PER_MONTH * q <= days < DAYS_PER_MONTH * (q + 1)
    ensures days / DAYS_PER_MONTH == q
  {
  }

  /** `(to - from).days`: a `timedelta` counts whole days rounded down, so
      the count is negative when `to` comes before `from`. Dafny's `/`
      rounds down whenever the divisor is positive, as Python's `//` does. */
  function ElapsedDays(from: int, to: int): (r: int)
    ensures Days(r) <= to - from < Days(r + 1)
  {
    (to - from) / SECONDS_PER_DAY
  }

  /** `(to - from).days // 30`: whole 30-day months from `from` to `to`,
      rounded down. */
  function ElapsedMonths(from: int, to: int): (r: int)
    ensures DAYS_PER_MONTH * r <= ElapsedDays(from, to) < DAYS_PER_MONTH * (r + 1)
    ensures Days(DAYS_PER_MONTH * r) <= to - from < Days(DAYS_PER_MONTH * (r + 1))
    ensures r < 0 <==> to < from
  {
    ElapsedDays(from, to) / DAYS_PER_MONTH
  }

  /** `principal * (1 + rate) ** months`, the growth formula shared by the
      valuation of an investment and the projection of the future report. */
  function Grow(principal: real, rate: real, months: int): (r: Result<real>)
    ensures r.Failure? <==> months < 0 && rate == -1.0
    ensures r.Failure? ==> r.error == ZeroToNegativePower
    ensures months >= 0 ==> r.Success? && r.value == principal * Pow(1.0 + rate, months)
    ensures months < 0 && rate != -1.0 ==>
      r.Success? && r.value * Pow(1.0 + rate, -months) == principal
  {
    var g := Power(1.0 + rate, months);
    if g.Failure? then Failure(g.error) else Success(principal * g.value)
  }

  /** The value on `date` of `principal` bought on `purchased` at `rate`
      per month. */
  function Value(principal: real, rate: real, purchased: int, date: int): (r: Result<real>)
    ensures r.Failure? <==> rate == -1.0 && date < purchased
    ensures date >= purchased ==>
      r.Success? && r.value == principal * Pow(1.0 + rate, ElapsedMonths(purchased, date))
  {
    Grow(principal, rate, ElapsedMonths(purchased, date))
  }

  /** Less than 30 days after the purchase the value is the principal. */
  lemma ValueWithinFirstMonth(principal: real, rate: real, purchased: int, date: int)
    requires purchased <= date < purchased + Days(30)
    ensures Value(principal, rate, purchased, date).Success?
    ensures Value(principal, rate, purchased, date).value == principal
  {
    assert ElapsedMonths(purchased, date) == 0;
  }

  /** 180 days are six whole months. */
  lemma ValueAfterSixMonths(principal: real, rate: real, purchased: int)
    ensures Value(principal, rate, purchased, purchased + Days(180)).Success?
    ensures Value(principal, rate, purchased, purchased + Days(180)).value
         == principal * Pow(1.0 + rate, 6)
  {
    assert ElapsedMonths(purchased, purchased + Days(180)) == 6;
  }

  /** Whole months compound: waiting `m` more months multiplies the value
      by `(1 + rate) ** m`. */
  lemma ValueCompounds(principal: real, rate: real, purchased: int, date: int, m: nat)
    requires purchased <= date
    ensures Value(principal, rate, purchased, date + Days(30 * m)).Success?
    ensures Value(principal, rate, purchased, date + Days(30 * m)).value
         == Value(principal, rate, purchased, date).value * Pow(1.0 + rate, m)
  {
    var k := ElapsedMonths(purchased, date);
    var d := ElapsedDays(purchased, date);
    DaysAdd(d, 30 * m);
    DaysAdd(d + 1, 30 * m);
    DaysFloor(date + Days(30 * m) - purchased, d + 30 * m);
    MonthsFloor(d + 30 * m, k + m);
    assert ElapsedMonths(purchased, date + Days(30 * m)) == k + m;
    PowAdd(1.0 + rate, k, m);
  }

  /** A zero principal is worth nothing on every date where the value is
      defined; it is undefined only where the exponent is negative and the
      base `1 + rate` is zero. */
  lemma ZeroPrincipalIsWorthless(rate: real, purchased: int, date: int)
    ensures Value(0.0, rate, purchased, date).Failure? <==> rate == -1.0 && date < purchased
    ensures Value(0.0, rate, purchased, date).Success? ==>
      Value(0.0, rate, purchased, date).value == 0.0
  {
  }

  /** The figures of the investment tests: 1000 at 5% per month after 180
      days, and 1000 at 1% per month after 60 days. */
  lemma Examples(purchased: int)
    ensures Value(1000.0, 0.05, purchased, purchased + Days(180)) == Success(1340.095640625)
    ensures Value(1000.0, 0.01, purchased, purchased + Days(60)) == Success(1020.1)
  {
    ValueAfterSixMonths(1000.0, 0.05, purchased);
    assert ElapsedMonths(purchased, purchased + Days(60)) == 2;
  }
}
