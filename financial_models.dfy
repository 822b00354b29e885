/** The valuation models of `backend/financial_models.py`: a discounted-cash-flow value with a
    Gordon-growth terminal value, and four price multiples. Python's `/` raises on a zero divisor
    and `free_cash_flows[-1]` raises on an empty list; both are `Err` results here. */
module Valuation {
  import opened Common
  import FM = FinancialMetrics

  /** The default `terminal_growth`. */
  const DefaultTerminalGrowth: real := 0.02

  /** `x ** n` for a natural exponent. */
  function Pow(x: real, n: nat): real {
    if n == 0 then 1.0 else x * Pow(x, n - 1)
  }

  /** A power with a positive exponent is zero exactly when its base is. */
  lemma {:induction false} PowIsZero(x: real, n: nat)
    requires n >= 1
    ensures Pow(x, n) == 0.0 <==> x == 0.0
  {
    if n > 1 {
      PowIsZero(x, n - 1);
    }
  }

  /** A power of a positive base is positive. */
  lemma {:induction false} PowPositive(x: real, n: nat)
    requires x > 0.0
    ensures Pow(x, n) > 0.0
  {
    if n > 0 {
      PowPositive(x, n - 1);
    }
  }

  lemma {:induction false} PowOfOne(n: nat)
    ensures Pow(1.0, n) == 1.0
  {
    if n > 0 {
      PowOfOne(n - 1);
    }
  }

  /** Σ_{i=1..n} cf_i / (1 + r)^i over the cash flows `cfs`, numbered from 1. */
  function DiscountedSum(cfs: seq<real>, r: real): real
    requires 1.0 + r != 0.0
    decreases |cfs|
  {
    if |cfs| == 0 then 0.0
    else
      PowIsZero(1.0 + r, |cfs|);
      DiscountedSum(cfs[..|cfs| - 1], r) + cfs[|cfs| - 1] / Pow(1.0 + r, |cfs|)
  }

  function Sum(xs: seq<real>): real
    decreases |xs|
  {
    if |xs| == 0 then 0.0 else Sum(xs[..|xs| - 1]) + xs[|xs| - 1]
  }

  /** At a zero discount rate the discounted sum is the plain sum of the cash flows. */
  lemma {:induction false} UndiscountedSum(cfs: seq<real>)
    ensures DiscountedSum(cfs, 0.0) == Sum(cfs)
    decreases |cfs|
  {
    if |cfs| > 0 {
      UndiscountedSum(cfs[..|cfs| - 1]);
      PowOfOne(|cfs|);
    }
  }

  /** Discounting at a rate above -100% keeps non-negative cash flows non-negative. */
  lemma {:induction false} DiscountedSumNonNegative(cfs: seq<real>, r: real)
    requires r > -1.0
    requires forall i :: 0 <= i < |cfs| ==> cfs[i] >= 0.0
    ensures DiscountedSum(cfs, r) >= 0.0
    decreases |cfs|
  {
    if |cfs| > 0 {
      DiscountedSumNonNegative(cfs[..|cfs| - 1], r);
      PowPositive(1.0 + r, |cfs|);
    }
  }

  /** Gordon growth: the value at the end of the forecast of `last` growing by `g` for ever. */
  function TerminalValue(last: real, r: real, g: real): (tv: real)
    requires r != g
    ensures tv * (r - g) == last * (1.0 + g)
  {
    last * (1.0 + g) / (r - g)
  }

  /** `calculate_dcf(free_cash_flows, discount_rate, growth_rate, terminal_growth)`, with the loop
      stopping at the first zero discount factor and the terminal value needing the last flow. */
  function Dcf(cfs: seq<real>, r: real, g: real): (v: Result<real>)
    ensures v.Ok? <==> |cfs| > 0 && 1.0 + r != 0.0 && r != g
    ensures |cfs| == 0 ==> v == Err(IndexOutOfRange)
    ensures |cfs| > 0 && (1.0 + r == 0.0 || r == g) ==> v == Err(ZeroDivision)
  {
    if |cfs| > 0 && 1.0 + r == 0.0 then Err(ZeroDivision)
    else if |cfs| == 0 then Err(IndexOutOfRange)
    else if r == g then Err(ZeroDivision)
    else
      PowIsZero(1.0 + r, |cfs|);
      Ok(DiscountedSum(cfs, r) + TerminalValue(cfs[|cfs| - 1], r, g) / Pow(1.0 + r, |cfs|))
  }

  /** The DCF value is the discounted forecast plus the terminal value discounted over the
      whole forecast. */
  lemma DcfSplitsIntoForecastAndTerminal(cfs: seq<real>, r: real, g: real)
    requires Dcf(cfs, r, g).Ok?
    ensures (Dcf(cfs, r, g).value - DiscountedSum(cfs, r)) * Pow(1.0 + r, |cfs|) * (r - g)
         == cfs[|cfs| - 1] * (1.0 + g)
  {
    var n := |cfs|;
    PowIsZero(1.0 + r, n);
    var tv := TerminalValue(cfs[n - 1], r, g);
    var discounted := tv / Pow(1.0 + r, n);
    assert discounted * Pow(1.0 + r, n) == tv;
    assert Dcf(cfs, r, g).value - DiscountedSum(cfs, r) == discounted;
  }

  /** `calculate_dcf`: `growth_rate` is accepted and never used. */
  method CalculateDcf(freeCashFlows: seq<real>, discountRate: real, growthRate: real, terminalGrowth: real)
    returns (result: Result<real>)
    ensures result == Dcf(freeCashFlows, discountRate, terminalGrowth)
  {
    var dcf := 0.0;
    var i := 1;
    while i <= |freeCashFlows|
      invariant 1 <= i <= |freeCashFlows| + 1
      invariant 1.0 + discountRate != 0.0 || i == 1
      invariant i > 1 ==> dcf == DiscountedSum(freeCashFlows[..i - 1], discountRate)
      invariant i == 1 ==> dcf == 0.0
    {
      var factor := Pow(1.0 + discountRate, i);
      PowIsZero(1.0 + discountRate, i);
      if factor == 0.0 {
        return Err(ZeroDivision);
      }
      assert freeCashFlows[..i][..i - 1] == freeCashFlows[..i - 1];
      dcf := dcf + freeCashFlows[i - 1] / factor;
      i := i + 1;
    }
    if |freeCashFlows| == 0 {
      return Err(IndexOutOfRange);
    }
    assert freeCashFlows[..i - 1] == freeCashFlows;
    if discountRate - terminalGrowth == 0.0 {
      return Err(ZeroDivision);
    }
    var terminalValue := freeCashFlows[|freeCashFlows| - 1] * (1.0 + terminalGrowth) / (discountRate - terminalGrowth);
    var factor := Pow(1.0 + discountRate, |freeCashFlows|);
    PowIsZero(1.0 + discountRate, |freeCashFlows|);
    assert dcf == DiscountedSum(freeCashFlows, discountRate);
    assert terminalValue == TerminalValue(freeCashFlows[|freeCashFlows| - 1], discountRate, terminalGrowth);
    dcf := dcf + terminalValue / factor;
    return Ok(dcf);
  }

  /** `calculate_dcf` called without `terminal_growth`, which then defaults to 2%. */
  method CalculateDcfWithDefaultGrowth(freeCashFlows: seq<real>, discountRate: real, growthRate: real)
    returns (result: Result<real>)
    ensures result == Dcf(freeCashFlows, discountRate, DefaultTerminalGrowth)
    ensures result.Ok? <==> |freeCashFlows| > 0 && discountRate != -1.0 && discountRate != 0.02
  {
    result := CalculateDcf(freeCashFlows, discountRate, growthRate, DefaultTerminalGrowth);
  }

  /** With the default terminal growth, a forecast discounted at exactly 2% divides by zero in
      the Gordon formula. */
  lemma DefaultGrowthRejectsTwoPercent(cfs: seq<real>)
    requires |cfs| > 0
    ensures Dcf(cfs, 0.02, DefaultTerminalGrowth) == Err(ZeroDivision)
  {
  }

  /** `calculate_pe_ratio(price, earnings_per_share)`. */
  function PeRatio(price: real, earningsPerShare: real): (r: Result<real>)
    ensures r.Ok? <==> earningsPerShare != 0.0
    ensures r.Err? ==> r.fault == ZeroDivision
    ensures r.Ok? ==> r.value * earningsPerShare == price
  {
    Div(price, earningsPerShare)
  }

  /** `calculate_pb_ratio(price, book_value_per_share)`. */
  function PbRatio(price: real, bookValuePerShare: real): (r: Result<real>)
    ensures r.Ok? <==> bookValuePerShare != 0.0
    ensures r.Err? ==> r.fault == ZeroDivision
    ensures r.Ok? ==> r.value * bookValuePerShare == price
  {
    Div(price, bookValuePerShare)
  }

  /** `calculate_peg_ratio(pe_ratio, earnings_growth_rate)`. */
  function PegRatio(peRatio: real, earningsGrowthRate: real): (r: Result<real>)
    ensures r.Ok? <==> earningsGrowthRate != 0.0
    ensures r.Err? ==> r.fault == ZeroDivision
    ensures r.Ok? ==> r.value * earningsGrowthRate == peRatio
  {
    Div(peRatio, earningsGrowthRate)
  }

  /** `calculate_ev_ebitda(enterprise_value, ebitda)`. */
  function EvEbitda(enterpriseValue: real, ebitda: real): (r: Result<real>)
    ensures r.Ok? <==> ebitda != 0.0
    ensures r.Err? ==> r.fault == ZeroDivision
    ensures r.Ok? ==> r.value * ebitda == enterpriseValue
  {
    Div(enterpriseValue, ebitda)
  }

  /** The PEG of a P/E multiple, times growth and earnings per share, gives back the price. */
  lemma PegOfPe(price: real, eps: real, growth: real)
    requires eps != 0.0 && growth != 0.0
    ensures PegRatio(PeRatio(price, eps).value, growth).Ok?
    ensures PegRatio(PeRatio(price, eps).value, growth).value * growth * eps == price
  {
    var pe := PeRatio(price, eps).value;
    var peg := PegRatio(pe, growth).value;
    assert peg * growth == pe;
  }

  /** The P/E and P/B multiples of the same price relate as book value to earnings. */
  lemma PeOverPb(price: real, eps: real, bvps: real)
    requires eps != 0.0 && bvps != 0.0
    ensures PeRatio(price, eps).value * eps == PbRatio(price, bvps).value * bvps
  {
  }

  /** The P/E the stock calculator reports is the P/E multiple of its own earnings per share. */
  lemma PeAgreesWithCalculator(incomeStatement: Dict, bs: Dict, cashFlow: Dict, stockPrice: real)
    requires FM.StockPerformance(incomeStatement, bs, cashFlow, stockPrice).Ok?
    requires "price_to_earnings_ratio" in FM.StockPerformance(incomeStatement, bs, cashFlow, stockPrice).value
    ensures bs["outstanding_shares"] != 0.0
    ensures
      var m := FM.StockPerformance(incomeStatement, bs, cashFlow, stockPrice).value;
      PeRatio(stockPrice, m["earnings_per_share"].n) == Ok(m["price_to_earnings_ratio"].n)
  {
    var m := FM.StockPerformance(incomeStatement, bs, cashFlow, stockPrice).value;
    var eps := m["earnings_per_share"].n;
    EqualAfterScaling(PeRatio(stockPrice, eps).value, m["price_to_earnings_ratio"].n, eps);
  }
}
