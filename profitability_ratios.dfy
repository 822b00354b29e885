/** The profitability endpoints (`app/endpoints/ratios/profitability_ratios.py`): sales margin,
    return on assets and return on equity. All three run inside a blanket `except Exception`,
    so every error, their own 404s and 400s included, reaches the client as a 500. Results are
    dated with the income statement's calendar date.

    The endpoints read `revenues` from the income statement and `total_equity` from the balance
    sheet, amounts the statement records do not declare; they are parameters here. */
module ProfitabilityRatios {
  import opened Common
  import opened Models
  import AM = AnalysisMetrics

  const ZeroSales: Fault := HttpError(400, Message("Sales are zero, cannot calculate ratio"))
  const ZeroTotalAssets: Fault := HttpError(400, Message("Total assets are zero, cannot calculate ratio"))
  const ZeroEquity: Fault := HttpError(400, Message("Equity is zero, cannot calculate ratio"))

  // GET /sales-margin/{ticker}
  function GetSalesMargin(ticker: string, statements: seq<IncomeStatement>, revenues: real): (r: Result<RatioResponse>)
    ensures |statements| == 0 ==> r == Err(Internal(IncomeStatementNotFound))
    ensures |statements| > 0 && revenues == 0.0 ==> r == Err(Internal(ZeroSales))
    ensures r.Ok? <==> |statements| > 0 && revenues != 0.0
    ensures r.Ok? ==>
      && Answers(r, ticker, "Sales Margin", statements[0].calendarDate)
      && RatioOf(r) * revenues == statements[0].netIncome
  {
    CatchAll(
      if |statements| == 0 then Err(IncomeStatementNotFound)
      else if revenues == 0.0 then Err(ZeroSales)
      else Ok(Answer(ticker, "Sales Margin", statements[0].netIncome / revenues, statements[0].calendarDate)))
  }

  // GET /return-on-assets/{ticker}
  function GetReturnOnAssets(ticker: string, sheets: seq<BalanceSheet>, statements: seq<IncomeStatement>)
    : (r: Result<RatioResponse>)
    ensures IncomeStatementFirst(sheets, statements).Err? ==> r == Err(Internal(IncomeStatementFirst(sheets, statements).fault))
    ensures |sheets| > 0 && |statements| > 0 && sheets[0].totalAssets == 0.0 ==> r == Err(Internal(ZeroTotalAssets))
    ensures r.Ok? <==> |sheets| > 0 && |statements| > 0 && sheets[0].totalAssets != 0.0
    ensures r.Ok? ==>
      && Answers(r, ticker, "Return on Assets (ROA)", statements[0].calendarDate)
      && RatioOf(r) * sheets[0].totalAssets == statements[0].netIncome
  {
    CatchAll(
      var latest :- IncomeStatementFirst(sheets, statements);
      if latest.balance.totalAssets == 0.0 then Err(ZeroTotalAssets)
      else Ok(Answer(ticker, "Return on Assets (ROA)", latest.income.netIncome / latest.balance.totalAssets,
                     latest.income.calendarDate)))
  }

  // GET /return-on-equity/{ticker}: `totalEquity` is the latest balance sheet's `total_equity`
  function GetReturnOnEquity(ticker: string, sheets: seq<BalanceSheet>, statements: seq<IncomeStatement>, totalEquity: real)
    : (r: Result<RatioResponse>)
    ensures IncomeStatementFirst(sheets, statements).Err? ==> r == Err(Internal(IncomeStatementFirst(sheets, statements).fault))
    ensures |sheets| > 0 && |statements| > 0 && totalEquity == 0.0 ==> r == Err(Internal(ZeroEquity))
    ensures r.Ok? <==> |sheets| > 0 && |statements| > 0 && totalEquity != 0.0
    ensures r.Ok? ==>
      && Answers(r, ticker, "Return on Equity (ROE)", statements[0].calendarDate)
      && RatioOf(r) * totalEquity == statements[0].netIncome
  {
    CatchAll(
      var latest :- IncomeStatementFirst(sheets, statements);
      if totalEquity == 0.0 then Err(ZeroEquity)
      else Ok(Answer(ticker, "Return on Equity (ROE)", latest.income.netIncome / totalEquity, latest.income.calendarDate)))
  }

  /** On a request body carrying the same amounts, the three endpoints answer exactly the values of
      the total_equity-based `calculate_profitability_ratios`. */
  lemma EndpointsAgreeWithCalculator(ticker: string, sheets: seq<BalanceSheet>, statements: seq<IncomeStatement>,
                                     incomeStatement: Dict, bs: Dict)
    requires AM.Profitability(incomeStatement, bs).Ok? && |sheets| > 0 && |statements| > 0
    requires statements[0].netIncome == incomeStatement["net_income"]
    requires sheets[0].totalAssets == bs["total_assets"]
    ensures GetSalesMargin(ticker, statements, incomeStatement["revenues"]).Ok?
    ensures RatioOf(GetSalesMargin(ticker, statements, incomeStatement["revenues"]))
         == AM.Profitability(incomeStatement, bs).value["sales_margin"]
    ensures RatioOf(GetReturnOnAssets(ticker, sheets, statements))
         == AM.Profitability(incomeStatement, bs).value["return_on_assets"]
    ensures GetReturnOnEquity(ticker, sheets, statements, bs["total_equity"]).Ok?
    ensures RatioOf(GetReturnOnEquity(ticker, sheets, statements, bs["total_equity"]))
         == AM.Profitability(incomeStatement, bs).value["return_on_equity"]
  {
    var m := AM.Profitability(incomeStatement, bs).value;
    EqualAfterScaling(RatioOf(GetSalesMargin(ticker, statements, incomeStatement["revenues"])), m["sales_margin"],
                      incomeStatement["revenues"]);
    EqualAfterScaling(RatioOf(GetReturnOnAssets(ticker, sheets, statements)), m["return_on_assets"], bs["total_assets"]);
    EqualAfterScaling(RatioOf(GetReturnOnEquity(ticker, sheets, statements, bs["total_equity"])), m["return_on_equity"],
                      bs["total_equity"]);
  }
}
