/** The EBITDA endpoint (`backend/api/endpoints/ratios/ebitda_ratios.py`). It takes EBIT itself for
    EBITDA, with no depreciation or amortisation added back, and runs inside a blanket
    `except Exception`, so its 404 and 400 reach the client as a 500. */
module EbitdaRatios {
  import opened Common
  import opened Models
  import AM = AnalysisMetrics

  const ZeroRevenue: Fault := HttpError(400, Message("Revenue is zero, cannot calculate ratio"))

  // GET /ebitda-margin/{ticker}
  function GetEbitdaMargin(ticker: string, statements: seq<IncomeStatement>): (r: Result<RatioResponse>)
    ensures |statements| == 0 ==> r == Err(Internal(IncomeStatementNotFound))
    ensures |statements| > 0 && statements[0].revenue == 0.0 ==> r == Err(Internal(ZeroRevenue))
    ensures r.Ok? <==> |statements| > 0 && statements[0].revenue != 0.0
    ensures r.Ok? ==>
      && Answers(r, ticker, "EBITDA Margin", statements[0].calendarDate)
      && RatioOf(r) * statements[0].revenue == statements[0].ebit
  {
    CatchAll(
      if |statements| == 0 then Err(IncomeStatementNotFound)
      else if statements[0].revenue == 0.0 then Err(ZeroRevenue)
      else
        var ebitda := statements[0].ebit;
        Ok(Answer(ticker, "EBITDA Margin", ebitda / statements[0].revenue, statements[0].calendarDate)))
  }

  /** The endpoint answers the EBITDA margin of the total_equity-based calculator for a request
      body carrying the same EBIT and revenue. */
  lemma EndpointAgreesWithCalculator(ticker: string, statements: seq<IncomeStatement>, incomeStatement: Dict)
    requires AM.Ebitda(incomeStatement).Ok? && |statements| > 0
    requires statements[0].ebit == incomeStatement["ebit"] && statements[0].revenue == incomeStatement["revenue"]
    ensures GetEbitdaMargin(ticker, statements).Ok?
    ensures RatioOf(GetEbitdaMargin(ticker, statements)) == AM.Ebitda(incomeStatement).value["ebitda_margin"]
  {
    EqualAfterScaling(RatioOf(GetEbitdaMargin(ticker, statements)), AM.Ebitda(incomeStatement).value["ebitda_margin"],
                      statements[0].revenue);
  }
}
