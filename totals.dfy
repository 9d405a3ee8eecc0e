/** The figures derived from a client's holdings: net worth and the
    projected net worth of the future-value report. An account enters as
    its balance and an investment as a `Holding`, the three fields its value
    depends on. */
module Totals {
  import opened Registry
  import opened Growth

  datatype Holding = Holding(principal: real, rate: real, purchased: int)

  /** `calculate_value(date)` of an investment with these fields. */
  function ValueOf(h: Holding, date: int): Result<real>
  {
    Value(h.principal, h.rate, h.purchased, date)
  }

  function Sum(s: seq<real>): real
  {
    if s == [] then 0.0 else Sum(s[..|s| - 1]) + s[|s| - 1]
  }

  lemma {:induction false} SumAppend(a: seq<real>, b: seq<real>)
    ensures Sum(a + b) == Sum(a) + Sum(b)
  {
    if b != [] {
      var c := b[..|b| - 1];
      assert (a + b)[..|a + b| - 1] == a + c;
      SumAppend(a, c);
    } else {
      assert a + b == a;
    }
  }

  /** Changing one entry changes the sum by the difference. */
  lemma {:induction false} SumUpdate(s: seq<real>, i: nat, v: real)
    requires i < |s|
    ensures Sum(s[i := v]) == Sum(s) - s[i] + v
  {
    if i < |s| - 1 {
      assert s[i := v][..|s| - 1] == s[..|s| - 1][i := v];
      SumUpdate(s[..|s| - 1], i, v);
    } else {
      assert s[i := v][..|s| - 1] == s[..|s| - 1];
    }
  }

  /** Python's `sum` over values that may each raise: the first failure is
      raised, otherwise the total. */
  function SumAll(rs: seq<Result<real>>): Result<real>
  {
    if rs == [] then Success(0.0)
    else
      var init := SumAll(rs[..|rs| - 1]);
      var last := rs[|rs| - 1];
      if init.Failure? then init
      else if last.Failure? then last
      else Success(init.value + last.value)
  }

  lemma {:induction false} SumAllFails(rs: seq<Result<real>>)
    ensures SumAll(rs).Failure? <==> exists i :: 0 <= i < |rs| && rs[i].Failure?
  {
    if rs != [] {
      var init := rs[..|rs| - 1];
      SumAllFails(init);
      assert forall i :: 0 <= i < |init| ==> init[i] == rs[i];
    }
  }

  /** Replacing one defined summand by another changes the total by the
      difference. */
  lemma {:induction false} SumAllUpdate(rs: seq<Result<real>>, j: nat, x: Result<real>)
    requires j < |rs| && SumAll(rs).Success? && rs[j].Success? && x.Success?
    ensures SumAll(rs[j := x]).Success?
    ensures SumAll(rs[j := x]).value == SumAll(rs).value - rs[j].value + x.value
  {
    var init := rs[..|rs| - 1];
    SumAllFails(rs);
    SumAllFails(init);
    if j < |rs| - 1 {
      assert rs[j := x][..|rs| - 1] == init[j := x];
      assert init[j] == rs[j];
      SumAllUpdate(init, j, x);
    } else {
      assert rs[j := x][..|rs| - 1] == init;
    }
  }

  /** `sum(investment.calculate_value(date) for investment in ...)`. */
  function TotalValue(hs: seq<Holding>, date: int): Result<real>
  {
    SumAll(seq(|hs|, i requires 0 <= i < |hs| => ValueOf(hs[i], date)))
  }

  /** `get_net_worth`: the balances plus the investments' current values. */
  function NetWorth(balances: seq<real>, hs: seq<Holding>, now: int): Result<real>
  {
    var v := TotalValue(hs, now);
    if v.Failure? then v else Success(Sum(balances) + v.value)
  }

  /** Net worth is defined exactly when every investment can be valued. */
  lemma NetWorthFails(balances: seq<real>, hs: seq<Holding>, now: int)
    ensures NetWorth(balances, hs, now).Failure? <==>
      exists i :: 0 <= i < |hs| && hs[i].rate == -1.0 && now < hs[i].purchased
  {
    var rs := seq(|hs|, i requires 0 <= i < |hs| => ValueOf(hs[i], now));
    SumAllFails(rs);
    forall i | 0 <= i < |hs|
      ensures rs[i].Failure? <==> hs[i].rate == -1.0 && now < hs[i].purchased
    {
      assert rs[i] == Value(hs[i].principal, hs[i].rate, hs[i].purchased, now);
    }
  }

  /** A new account starts at balance zero and leaves net worth unchanged. */
  lemma NewAccountKeepsNetWorth(balances: seq<real>, hs: seq<Holding>, now: int)
    ensures NetWorth(balances + [0.0], hs, now) == NetWorth(balances, hs, now)
  {
    SumAppend(balances, [0.0]);
  }

  /** A new investment adds its value to net worth. */
  lemma NewInvestmentAddsValue(balances: seq<real>, hs: seq<Holding>, h: Holding, now: int)
    requires NetWorth(balances, hs, now).Success? && ValueOf(h, now).Success?
    ensures NetWorth(balances, hs + [h], now).Success?
    ensures NetWorth(balances, hs + [h], now).value
         == NetWorth(balances, hs, now).value + ValueOf(h, now).value
  {
    var rs := seq(|hs|, i requires 0 <= i < |hs| => ValueOf(hs[i], now));
    var rs' := seq(|hs + [h]|, i requires 0 <= i < |hs + [h]| => ValueOf((hs + [h])[i], now));
    assert rs'[..|rs'| - 1] == rs;
  }

  /** Selling investment `j` into account `i`: the account gains the
      investment's value and the principal becomes zero, so net worth at the
      moment of the sale does not change. */
  lemma SaleKeepsNetWorth(balances: seq<real>, hs: seq<Holding>, i: nat, j: nat, now: int)
    requires i < |balances| && j < |hs|
    requires NetWorth(balances, hs, now).Success?
    ensures ValueOf(hs[j], now).Success?
    ensures NetWorth(balances[i := balances[i] + ValueOf(hs[j], now).value],
                     hs[j := hs[j].(principal := 0.0)], now)
         == NetWorth(balances, hs, now)
  {
    var rs := seq(|hs|, k requires 0 <= k < |hs| => ValueOf(hs[k], now));
    var sold := hs[j := hs[j].(principal := 0.0)];
    var rs' := seq(|sold|, k requires 0 <= k < |sold| => ValueOf(sold[k], now));
    SumAllFails(rs);
    assert rs[j] == ValueOf(hs[j], now);
    var v := ValueOf(hs[j], now).value;
    ZeroPrincipalIsWorthless(hs[j].rate, hs[j].purchased, now);
    assert rs' == rs[j := Success(0.0)];
    SumAllUpdate(rs, j, Success(0.0));
    SumUpdate(balances, i, balances[i] + v);
  }

  /** `sum(investment.initial_amount * (1 + rate) ** months for ...)`. */
  function FutureTotal(hs: seq<Holding>, months: int): Result<real>
  {
    SumAll(seq(|hs|, i requires 0 <= i < |hs| => Grow(hs[i].principal, hs[i].rate, months)))
  }

  /** Projecting over a negative number of months fails exactly when some
      investment's base `1 + rate` is zero. */
  lemma FutureTotalFails(hs: seq<Holding>, months: int)
    ensures FutureTotal(hs, months).Failure? <==>
      months < 0 && exists i :: 0 <= i < |hs| && hs[i].rate == -1.0
  {
    var rs := seq(|hs|, i requires 0 <= i < |hs| => Grow(hs[i].principal, hs[i].rate, months));
    SumAllFails(rs);
    assert forall i :: 0 <= i < |hs| ==> rs[i] == Grow(hs[i].principal, hs[i].rate, months);
  }

  /** The projected net worth of the future-value report, as written: the
      net worth now plus every investment's principal grown over the whole
      months from `now` to `future`. The report grows the principals (for
      its list of projected values) before it computes the net worth, so a
      failure of the growth is the one raised. The figure exceeds the
      intended one by the current value of the investments: each
      investment is counted twice. */
  function ProjectedNetWorth(balances: seq<real>, hs: seq<Holding>, now: int, future: int): (r: Result<real>)
    ensures r.Failure? <==>
      exists i :: 0 <= i < |hs| && hs[i].rate == -1.0 && (future < now || now < hs[i].purchased)
    ensures r.Success? ==>
      && CorrectedProjectedNetWorth(balances, hs, now, future).Success?
      && TotalValue(hs, now).Success?
      && r.value == CorrectedProjectedNetWorth(balances, hs, now, future).value + TotalValue(hs, now).value
  {
    var months := ElapsedMonths(now, future);
    var f := FutureTotal(hs, months);
    var w := NetWorth(balances, hs, now);
    FutureTotalFails(hs, months);
    NetWorthFails(balances, hs, now);
    if f.Failure? then f else if w.Failure? then w else Success(w.value + f.value)
  }

  /** The projected net worth as evidently intended: the balances plus the
      projected investment values, each investment counted once. */
  function CorrectedProjectedNetWorth(balances: seq<real>, hs: seq<Holding>, now: int, future: int): (r: Result<real>)
    ensures r.Failure? <==> future < now && exists i :: 0 <= i < |hs| && hs[i].rate == -1.0
  {
    var months := ElapsedMonths(now, future);
    var f := FutureTotal(hs, months);
    FutureTotalFails(hs, months);
    if f.Failure? then f else Success(Sum(balances) + f.value)
  }

  /** One investment of 1000 at 0% and no accounts: projected to today the
      report shows 2000, while the net worth is 1000. */
  lemma DoubleCountExample()
    ensures NetWorth([], [Holding(1000.0, 0.0, 0)], 0) == Success(1000.0)
    ensures ProjectedNetWorth([], [Holding(1000.0, 0.0, 0)], 0, 0) == Success(2000.0)
    ensures CorrectedProjectedNetWorth([], [Holding(1000.0, 0.0, 0)], 0, 0) == Success(1000.0)
  {
    var hs := [Holding(1000.0, 0.0, 0)];
    var g := Grow(1000.0, 0.0, 0);
    assert g.value == 1000.0 * Pow(1.0, 0) == 1000.0;
    assert g == Success(1000.0);
    assert ElapsedMonths(0, 0) == 0;
    assert seq(|hs|, i requires 0 <= i < |hs| => ValueOf(hs[i], 0)) == [g];
    assert seq(|hs|, i requires 0 <= i < |hs| => Grow(hs[i].principal, hs[i].rate, 0)) == [g];
    assert SumAll([g]) == Success(1000.0);
  }

  /** For investments bought now, the corrected projection is exactly the
      net worth on the future date. */
  lemma CorrectedIsFutureNetWorth(balances: seq<real>, hs: seq<Holding>, now: int, future: int)
    requires forall i :: 0 <= i < |hs| ==> hs[i].purchased == now
    ensures CorrectedProjectedNetWorth(balances, hs, now, future) == NetWorth(balances, hs, future)
  {
    assert seq(|hs|, i requires 0 <= i < |hs| => Grow(hs[i].principal, hs[i].rate, ElapsedMonths(now, future)))
        == seq(|hs|, i requires 0 <= i < |hs| => ValueOf(hs[i], future));
  }

  /** The end-to-end example: a balance of 2000 and 1000 invested at 1% per
      month 60 days ago make a net worth of 3020.10. */
  lemma NetWorthExample(now: int)
    ensures NetWorth([2000.0], [Holding(1000.0, 0.01, now - Days(60))], now) == Success(3020.1)
  {
    var hs := [Holding(1000.0, 0.01, now - Days(60))];
    Examples(now - Days(60));
    var v := ValueOf(hs[0], now);
    assert v == Success(1020.1);
    assert seq(|hs|, i requires 0 <= i < |hs| => ValueOf(hs[i], now)) == [v];
    assert SumAll([v]) == Success(1020.1);
    assert Sum([2000.0]) == 2000.0;
  }
}
