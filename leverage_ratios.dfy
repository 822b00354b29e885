/** The leverage endpoints (`app/endpoints/ratios/leverage_ratios.py`): debt ratio, solvency ratio
    and leverage from the latest balance sheet. Only the debt ratio runs inside a blanket
    `except Exception`; the other two let their HTTPExceptions through unchanged. */
module LeverageRatios {
  import opened Common
  import opened Models
  import FM = FinancialMetrics

  const ZeroTotalAssets: Fault := HttpError(400, Message("Total assets are zero, cannot calculate ratio"))
  const ZeroTotalEquity: Fault := HttpError(400, Message("Total equity is zero, cannot calculate ratio"))

  // GET /debt-ratio/{ticker}
  function GetDebtRatio(ticker: string, sheets: seq<BalanceSheet>): (r: Result<RatioResponse>)
    ensures |sheets| == 0 ==> r == Err(Internal(BalanceSheetNotFound))
    ensures |sheets| > 0 && sheets[0].totalAssets == 0.0 ==> r == Err(Internal(ZeroTotalAssets))
    ensures r.Ok? <==> |sheets| > 0 && sheets[0].totalAssets != 0.0
    ensures r.Ok? ==>
      && Answers(r, ticker, "Debt Ratio", sheets[0].calendarDate)
      && RatioOf(r) * sheets[0].totalAssets == sheets[0].totalLiabilities
  {
    CatchAll(
      if |sheets| == 0 then Err(BalanceSheetNotFound)
      else if sheets[0].totalAssets == 0.0 then Err(ZeroTotalAssets)
      else Ok(Answer(ticker, "Debt Ratio", sheets[0].totalLiabilities / sheets[0].totalAssets, sheets[0].calendarDate)))
  }

  // GET /solvency-ratio/{ticker}
  function GetSolvencyRatio(ticker: string, sheets: seq<BalanceSheet>): (r: Result<RatioResponse>)
    ensures |sheets| == 0 ==> r == Err(BalanceSheetNotFound)
    ensures |sheets| > 0 && sheets[0].totalAssets == 0.0 ==> r == Err(ZeroTotalAssets)
    ensures r.Ok? <==> |sheets| > 0 && sheets[0].totalAssets != 0.0
    ensures r.Ok? ==>
      && Answers(r, ticker, "Solvency Ratio", sheets[0].calendarDate)
      && RatioOf(r) * sheets[0].totalAssets == sheets[0].shareholdersEquity
  {
    if |sheets| == 0 then Err(BalanceSheetNotFound)
    else if sheets[0].totalAssets == 0.0 then Err(ZeroTotalAssets)
    else Ok(Answer(ticker, "Solvency Ratio", sheets[0].shareholdersEquity / sheets[0].totalAssets, sheets[0].calendarDate))
  }

  // GET /leverage/{ticker}
  function GetLeverage(ticker: string, sheets: seq<BalanceSheet>): (r: Result<RatioResponse>)
    ensures |sheets| == 0 ==> r == Err(BalanceSheetNotFound)
    ensures |sheets| > 0 && sheets[0].shareholdersEquity == 0.0 ==> r == Err(ZeroTotalEquity)
    ensures r.Ok? <==> |sheets| > 0 && sheets[0].shareholdersEquity != 0.0
    ensures r.Ok? ==>
      && Answers(r, ticker, "Leverage", sheets[0].calendarDate)
      && RatioOf(r) * sheets[0].shareholdersEquity == sheets[0].totalAssets
  {
    if |sheets| == 0 then Err(BalanceSheetNotFound)
    else if sheets[0].shareholdersEquity == 0.0 then Err(ZeroTotalEquity)
    else Ok(Answer(ticker, "Leverage", sheets[0].totalAssets / sheets[0].shareholdersEquity, sheets[0].calendarDate))
  }

  /** Leverage is the reciprocal of the solvency ratio. */
  lemma SolvencyTimesLeverage(ticker: string, sheets: seq<BalanceSheet>)
    requires GetSolvencyRatio(ticker, sheets).Ok? && GetLeverage(ticker, sheets).Ok?
    ensures RatioOf(GetSolvencyRatio(ticker, sheets)) * RatioOf(GetLeverage(ticker, sheets)) == 1.0
  {
    FM.ReciprocalProduct(RatioOf(GetSolvencyRatio(ticker, sheets)), RatioOf(GetLeverage(ticker, sheets)),
                         sheets[0].totalAssets, sheets[0].shareholdersEquity);
  }

  /** On a balance sheet that balances (assets = liabilities + equity), the debt and solvency
      ratios are complementary shares of the assets. */
  lemma DebtAndSolvencyPartitionAssets(ticker: string, sheets: seq<BalanceSheet>)
    requires GetDebtRatio(ticker, sheets).Ok?
    requires sheets[0].totalAssets == sheets[0].totalLiabilities + sheets[0].shareholdersEquity
    ensures GetSolvencyRatio(ticker, sheets).Ok?
    ensures RatioOf(GetDebtRatio(ticker, sheets)) + RatioOf(GetSolvencyRatio(ticker, sheets)) == 1.0
  {
    var debt := RatioOf(GetDebtRatio(ticker, sheets));
    var solvency := RatioOf(GetSolvencyRatio(ticker, sheets));
    var assets := sheets[0].totalAssets;
    assert debt * assets == sheets[0].totalLiabilities;
    assert solvency * assets == sheets[0].shareholdersEquity;
    assert (debt + solvency) * assets == debt * assets + solvency * assets;
    EqualAfterScaling(debt + solvency, 1.0, assets);
  }
}
