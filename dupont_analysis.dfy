/** The DuPont endpoints (`backend/api/endpoints/ratios/dupont_analysis.py`): sales margin, asset
    turnover and leverage, the three factors of return on equity. None of them catches
    exceptions. Asset turnover checks the income statements before the balance sheets; leverage
    reads only the balance sheet and is dated with it.

    `revenues` is the latest income statement's `revenues` and `totalEquity` the latest balance
    sheet's `total_equity`, amounts the statement records do not declare. */
module DupontAnalysis {
  import opened Common
  import opened Models
  import FM = FinancialMetrics
  import ProfitabilityRatios

  const ZeroSales: Fault := HttpError(400, Message("Sales are zero, cannot calculate ratio"))
  const ZeroTotalAssets: Fault := HttpError(400, Message("Total assets are zero, cannot calculate ratio"))
  const ZeroEquity: Fault := HttpError(400, Message("Equity is zero, cannot calculate ratio"))

  // GET /sales-margin/{ticker}
  function GetSalesMargin(ticker: string, statements: seq<IncomeStatement>, revenues: real): (r: Result<RatioResponse>)
    ensures |statements| == 0 ==> r == Err(IncomeStatementNotFound)
    ensures |statements| > 0 && revenues == 0.0 ==> r == Err(ZeroSales)
    ensures r.Ok? <==> |statements| > 0 && revenues != 0.0
    ensures r.Ok? ==>
      && Answers(r, ticker, "Sales Margin", statements[0].calendarDate)
      && RatioOf(r) * revenues == statements[0].netIncome
  {
    if |statements| == 0 then Err(IncomeStatementNotFound)
    else if revenues == 0.0 then Err(ZeroSales)
    else Ok(Answer(ticker, "Sales Margin", statements[0].netIncome / revenues, statements[0].calendarDate))
  }

  // GET /asset-turnover/{ticker}
  function GetAssetTurnover(ticker: string, sheets: seq<BalanceSheet>, statements: seq<IncomeStatement>, revenues: real)
    : (r: Result<RatioResponse>)
    ensures IncomeStatementFirst(sheets, statements).Err? ==> r == Err(IncomeStatementFirst(sheets, statements).fault)
    ensures |sheets| > 0 && |statements| > 0 && sheets[0].totalAssets == 0.0 ==> r == Err(ZeroTotalAssets)
    ensures r.Ok? <==> |sheets| > 0 && |statements| > 0 && sheets[0].totalAssets != 0.0
    ensures r.Ok? ==>
      && Answers(r, ticker, "Asset Turnover", statements[0].calendarDate)
      && RatioOf(r) * sheets[0].totalAssets == revenues
  {
    var latest :- IncomeStatementFirst(sheets, statements);
    if latest.balance.totalAssets == 0.0 then Err(ZeroTotalAssets)
    else Ok(Answer(ticker, "Asset Turnover", revenues / latest.balance.totalAssets, latest.income.calendarDate))
  }

  // GET /leverage/{ticker}
  function GetLeverage(ticker: string, sheets: seq<BalanceSheet>, totalEquity: real): (r: Result<RatioResponse>)
    ensures |sheets| == 0 ==> r == Err(BalanceSheetNotFound)
    ensures |sheets| > 0 && totalEquity == 0.0 ==> r == Err(ZeroEquity)
    ensures r.Ok? <==> |sheets| > 0 && totalEquity != 0.0
    ensures r.Ok? ==>
      && Answers(r, ticker, "Leverage", sheets[0].calendarDate)
      && RatioOf(r) * totalEquity == sheets[0].totalAssets
  {
    if |sheets| == 0 then Err(BalanceSheetNotFound)
    else if totalEquity == 0.0 then Err(ZeroEquity)
    else Ok(Answer(ticker, "Leverage", sheets[0].totalAssets / totalEquity, sheets[0].calendarDate))
  }

  /** The DuPont identity across endpoints: when all three factors are defined their product is
      net income over equity, which is what the return-on-equity endpoint answers. */
  lemma FactorsMultiplyToReturnOnEquity(ticker: string, sheets: seq<BalanceSheet>, statements: seq<IncomeStatement>,
                                        revenues: real, totalEquity: real)
    requires GetSalesMargin(ticker, statements, revenues).Ok?
    requires GetAssetTurnover(ticker, sheets, statements, revenues).Ok?
    requires GetLeverage(ticker, sheets, totalEquity).Ok?
    ensures ProfitabilityRatios.GetReturnOnEquity(ticker, sheets, statements, totalEquity).Ok?
    ensures RatioOf(GetSalesMargin(ticker, statements, revenues))
            * RatioOf(GetAssetTurnover(ticker, sheets, statements, revenues))
            * RatioOf(GetLeverage(ticker, sheets, totalEquity))
         == RatioOf(ProfitabilityRatios.GetReturnOnEquity(ticker, sheets, statements, totalEquity))
  {
    var m := RatioOf(GetSalesMargin(ticker, statements, revenues));
    var t := RatioOf(GetAssetTurnover(ticker, sheets, statements, revenues));
    var l := RatioOf(GetLeverage(ticker, sheets, totalEquity));
    var roe := RatioOf(ProfitabilityRatios.GetReturnOnEquity(ticker, sheets, statements, totalEquity));
    FM.QuotientChain(statements[0].netIncome, revenues, sheets[0].totalAssets, totalEquity, m, t, l);
    EqualAfterScaling(m * t * l, roe, totalEquity);
  }
}
