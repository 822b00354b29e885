/** The stock-performance endpoints (`app/api/endpoints/ratios/stock_performance.py`): earnings
    and dividends per share, the P/E ratio, market value and market value added. None of them
    catches exceptions. The per-share ratios check the income statements before the balance
    sheets and are dated with the income statement; market value and MVA read only the balance
    sheet and are dated with it.

    The amounts `shares_outstanding` and `total_equity` of the latest balance sheet and
    `dividends` of the latest income statement are not declared by the statement records, and
    the current stock price comes from a price fetcher; all four are parameters here. */
module StockPerformanceRatios {
  import opened Common
  import opened Models
  import AM = AnalysisMetrics

  const ZeroSharesForEps: Fault := HttpError(400, Message("Number of outstanding shares is zero, cannot calculate EPS"))
  const ZeroSharesForDps: Fault := HttpError(400, Message("Number of outstanding shares is zero, cannot calculate DPS"))
  const ZeroEarnings: Fault := HttpError(400, Message("Earnings per share is zero, cannot calculate P/E ratio"))
  const ZeroSharesForMarketValue: Fault :=
    HttpError(400, Message("Number of outstanding shares is zero, cannot calculate market value"))

  // GET /earnings-per-share/{ticker}
  function GetEarningsPerShare(ticker: string, sheets: seq<BalanceSheet>, statements: seq<IncomeStatement>,
                               sharesOutstanding: real): (r: Result<RatioResponse>)
    ensures IncomeStatementFirst(sheets, statements).Err? ==> r == Err(IncomeStatementFirst(sheets, statements).fault)
    ensures |sheets| > 0 && |statements| > 0 && sharesOutstanding == 0.0 ==> r == Err(ZeroSharesForEps)
    ensures r.Ok? <==> |sheets| > 0 && |statements| > 0 && sharesOutstanding != 0.0
    ensures r.Ok? ==>
      && Answers(r, ticker, "Earnings Per Share (EPS)", statements[0].calendarDate)
      && RatioOf(r) * sharesOutstanding == statements[0].netIncome
  {
    var latest :- IncomeStatementFirst(sheets, statements);
    if sharesOutstanding == 0.0 then Err(ZeroSharesForEps)
    else Ok(Answer(ticker, "Earnings Per Share (EPS)", latest.income.netIncome / sharesOutstanding, latest.income.calendarDate))
  }

  // GET /dividends-per-share/{ticker}
  function GetDividendsPerShare(ticker: string, sheets: seq<BalanceSheet>, statements: seq<IncomeStatement>,
                                sharesOutstanding: real, dividends: real): (r: Result<RatioResponse>)
    ensures IncomeStatementFirst(sheets, statements).Err? ==> r == Err(IncomeStatementFirst(sheets, statements).fault)
    ensures |sheets| > 0 && |statements| > 0 && sharesOutstanding == 0.0 ==> r == Err(ZeroSharesForDps)
    ensures r.Ok? <==> |sheets| > 0 && |statements| > 0 && sharesOutstanding != 0.0
    ensures r.Ok? ==>
      && Answers(r, ticker, "Dividends Per Share (DPS)", statements[0].calendarDate)
      && RatioOf(r) * sharesOutstanding == dividends
  {
    var latest :- IncomeStatementFirst(sheets, statements);
    if sharesOutstanding == 0.0 then Err(ZeroSharesForDps)
    else Ok(Answer(ticker, "Dividends Per Share (DPS)", dividends / sharesOutstanding, latest.income.calendarDate))
  }

  // GET /pe-ratio/{ticker}
  function GetPriceEarningsRatio(ticker: string, sheets: seq<BalanceSheet>, statements: seq<IncomeStatement>,
                                 sharesOutstanding: real, stockPrice: real): (r: Result<RatioResponse>)
    ensures IncomeStatementFirst(sheets, statements).Err? ==> r == Err(IncomeStatementFirst(sheets, statements).fault)
    ensures |sheets| > 0 && |statements| > 0 && sharesOutstanding == 0.0 ==> r == Err(ZeroSharesForEps)
    ensures |sheets| > 0 && |statements| > 0 && sharesOutstanding != 0.0 && statements[0].netIncome == 0.0 ==>
      r == Err(ZeroEarnings)
    ensures r.Ok? <==> |sheets| > 0 && |statements| > 0 && sharesOutstanding != 0.0 && statements[0].netIncome != 0.0
    ensures r.Ok? ==>
      && Answers(r, ticker, "Price-to-Earnings (P/E) Ratio", statements[0].calendarDate)
      && RatioOf(r) * statements[0].netIncome == stockPrice * sharesOutstanding
  {
    var latest :- IncomeStatementFirst(sheets, statements);
    if sharesOutstanding == 0.0 then Err(ZeroSharesForEps)
    else
      var eps := latest.income.netIncome / sharesOutstanding;
      if eps == 0.0 then Err(ZeroEarnings)
      else Ok(Answer(ticker, "Price-to-Earnings (P/E) Ratio", stockPrice / eps, latest.income.calendarDate))
  }

  // GET /market-value/{ticker}
  function GetMarketValue(ticker: string, sheets: seq<BalanceSheet>, sharesOutstanding: real, stockPrice: real)
    : (r: Result<RatioResponse>)
    ensures |sheets| == 0 ==> r == Err(BalanceSheetNotFound)
    ensures |sheets| > 0 && sharesOutstanding == 0.0 ==> r == Err(ZeroSharesForMarketValue)
    ensures r.Ok? <==> |sheets| > 0 && sharesOutstanding != 0.0
    ensures r.Ok? ==>
      && Answers(r, ticker, "Market Value", sheets[0].calendarDate)
      && RatioOf(r) == stockPrice * sharesOutstanding
  {
    if |sheets| == 0 then Err(BalanceSheetNotFound)
    else if sharesOutstanding == 0.0 then Err(ZeroSharesForMarketValue)
    else Ok(Answer(ticker, "Market Value", stockPrice * sharesOutstanding, sheets[0].calendarDate))
  }

  // GET /market-value-added/{ticker}
  function GetMarketValueAdded(ticker: string, sheets: seq<BalanceSheet>, sharesOutstanding: real, totalEquity: real,
                               stockPrice: real): (r: Result<RatioResponse>)
    ensures |sheets| == 0 ==> r == Err(BalanceSheetNotFound)
    ensures |sheets| > 0 && sharesOutstanding == 0.0 ==> r == Err(ZeroSharesForMarketValue)
    ensures r.Ok? <==> |sheets| > 0 && sharesOutstanding != 0.0
    ensures r.Ok? ==>
      && Answers(r, ticker, "Market Value Added (MVA)", sheets[0].calendarDate)
      && GetMarketValue(ticker, sheets, sharesOutstanding, stockPrice).Ok?
      && RatioOf(r) == RatioOf(GetMarketValue(ticker, sheets, sharesOutstanding, stockPrice)) - totalEquity
  {
    if |sheets| == 0 then Err(BalanceSheetNotFound)
    else if sharesOutstanding == 0.0 then Err(ZeroSharesForMarketValue)
    else
      var marketValue := stockPrice * sharesOutstanding;
      Ok(Answer(ticker, "Market Value Added (MVA)", marketValue - totalEquity, sheets[0].calendarDate))
  }

  /** The P/E ratio is the price over the EPS endpoint's value: it is defined exactly when EPS is
      defined and non-zero, and then P/E × EPS is the price. */
  lemma PriceEarningsTimesEarningsPerShare(ticker: string, sheets: seq<BalanceSheet>, statements: seq<IncomeStatement>,
                                           sharesOutstanding: real, stockPrice: real)
    ensures GetPriceEarningsRatio(ticker, sheets, statements, sharesOutstanding, stockPrice).Ok? <==>
      GetEarningsPerShare(ticker, sheets, statements, sharesOutstanding).Ok?
      && RatioOf(GetEarningsPerShare(ticker, sheets, statements, sharesOutstanding)) != 0.0
    ensures GetPriceEarningsRatio(ticker, sheets, statements, sharesOutstanding, stockPrice).Ok? ==>
      RatioOf(GetPriceEarningsRatio(ticker, sheets, statements, sharesOutstanding, stockPrice))
      * RatioOf(GetEarningsPerShare(ticker, sheets, statements, sharesOutstanding)) == stockPrice
  {
    var eps := GetEarningsPerShare(ticker, sheets, statements, sharesOutstanding);
    if eps.Ok? {
      var e := RatioOf(eps);
      var ni := statements[0].netIncome;
      assert e * sharesOutstanding == ni;
      assert e == 0.0 <==> ni == 0.0;
      if ni != 0.0 {
        var pe := RatioOf(GetPriceEarningsRatio(ticker, sheets, statements, sharesOutstanding, stockPrice));
        assert pe * ni == stockPrice * sharesOutstanding;
        assert (pe * e) * sharesOutstanding == pe * ni;
        EqualAfterScaling(pe * e, stockPrice, sharesOutstanding);
      }
    }
  }

  /** On a request body carrying the same amounts, the endpoints answer the values of the
      total_equity-based `calculate_stock_performance_ratios`. */
  lemma EndpointsAgreeWithCalculator(ticker: string, sheets: seq<BalanceSheet>, statements: seq<IncomeStatement>,
                                     incomeStatement: Dict, bs: Dict, stockPrice: real)
    requires AM.StockPerformance(incomeStatement, bs, stockPrice).Ok? && |sheets| > 0 && |statements| > 0
    requires bs["shares_outstanding"] != 0.0 && statements[0].netIncome == incomeStatement["net_income"]
    ensures var m := AM.StockPerformance(incomeStatement, bs, stockPrice).value;
      var shares := bs["shares_outstanding"];
      && GetEarningsPerShare(ticker, sheets, statements, shares).Ok?
      && Num(RatioOf(GetEarningsPerShare(ticker, sheets, statements, shares))) == m["earnings_per_share"]
      && GetDividendsPerShare(ticker, sheets, statements, shares, AM.DividendsOrZero(incomeStatement)).Ok?
      && Num(RatioOf(GetDividendsPerShare(ticker, sheets, statements, shares, AM.DividendsOrZero(incomeStatement))))
         == m["dividends_per_share"]
      && Num(RatioOf(GetMarketValue(ticker, sheets, shares, stockPrice))) == m["market_value"]
      && Num(RatioOf(GetMarketValueAdded(ticker, sheets, shares, bs["total_equity"], stockPrice))) == m["market_value_added"]
  {
    var m := AM.StockPerformance(incomeStatement, bs, stockPrice).value;
    var shares := bs["shares_outstanding"];
    EqualAfterScaling(RatioOf(GetEarningsPerShare(ticker, sheets, statements, shares)), m["earnings_per_share"].n, shares);
    EqualAfterScaling(RatioOf(GetDividendsPerShare(ticker, sheets, statements, shares, AM.DividendsOrZero(incomeStatement))),
                      m["dividends_per_share"].n, shares);
  }
}
