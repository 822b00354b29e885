/** The economic-value endpoints (`app/endpoints/ratios/economic_value.py`): economic margin and
    economic value added. Both check for zero equity before they check that a cost of equity was
    supplied (it has no default), and both run inside a blanket `except Exception`, so every
    error reaches the client as a 500. Results are dated with the income statement's date.

    `totalEquity` is the latest balance sheet's `total_equity`, an amount the record does not
    declare. */
module EconomicValueRatios {
  import opened Common
  import opened Models
  import AM = AnalysisMetrics

  const ZeroEquity: Fault := HttpError(400, Message("Total equity is zero, cannot calculate ROE"))
  const MarginNeedsKe: Fault := HttpError(400, Message("Cost of equity (Ke) is required to calculate Economic Margin"))
  const EvaNeedsKe: Fault := HttpError(400, Message("Cost of equity (Ke) is required to calculate EVA"))

  // GET /economic-margin/{ticker}
  function GetEconomicMargin(ticker: string, sheets: seq<BalanceSheet>, statements: seq<IncomeStatement>,
                             totalEquity: real, costOfEquity: Option<real>): (r: Result<RatioResponse>)
    ensures IncomeStatementFirst(sheets, statements).Err? ==> r == Err(Internal(IncomeStatementFirst(sheets, statements).fault))
    ensures |sheets| > 0 && |statements| > 0 && totalEquity == 0.0 ==> r == Err(Internal(ZeroEquity))
    ensures |sheets| > 0 && |statements| > 0 && totalEquity != 0.0 && costOfEquity.None? ==> r == Err(Internal(MarginNeedsKe))
    ensures r.Ok? <==> |sheets| > 0 && |statements| > 0 && totalEquity != 0.0 && costOfEquity.Some?
    ensures r.Ok? ==>
      && Answers(r, ticker, "Economic Margin", statements[0].calendarDate)
      && (RatioOf(r) + costOfEquity.value) * totalEquity == statements[0].netIncome
  {
    CatchAll(
      var latest :- IncomeStatementFirst(sheets, statements);
      if totalEquity == 0.0 then Err(ZeroEquity)
      else
        var roe := latest.income.netIncome / totalEquity;
        if costOfEquity.None? then Err(MarginNeedsKe)
        else Ok(Answer(ticker, "Economic Margin", roe - costOfEquity.value, latest.income.calendarDate)))
  }

  // GET /economic-value-added/{ticker}
  function GetEconomicValueAdded(ticker: string, sheets: seq<BalanceSheet>, statements: seq<IncomeStatement>,
                                 totalEquity: real, costOfEquity: Option<real>): (r: Result<RatioResponse>)
    ensures IncomeStatementFirst(sheets, statements).Err? ==> r == Err(Internal(IncomeStatementFirst(sheets, statements).fault))
    ensures |sheets| > 0 && |statements| > 0 && totalEquity == 0.0 ==> r == Err(Internal(ZeroEquity))
    ensures |sheets| > 0 && |statements| > 0 && totalEquity != 0.0 && costOfEquity.None? ==> r == Err(Internal(EvaNeedsKe))
    ensures r.Ok? <==> |sheets| > 0 && |statements| > 0 && totalEquity != 0.0 && costOfEquity.Some?
    ensures r.Ok? ==> Answers(r, ticker, "Economic Value Added (EVA)", statements[0].calendarDate)
  {
    CatchAll(
      var latest :- IncomeStatementFirst(sheets, statements);
      if totalEquity == 0.0 then Err(ZeroEquity)
      else
        var roe := latest.income.netIncome / totalEquity;
        if costOfEquity.None? then Err(EvaNeedsKe)
        else Ok(Answer(ticker, "Economic Value Added (EVA)", (roe - costOfEquity.value) * totalEquity,
                       latest.income.calendarDate)))
  }

  /** EVA is residual income, net income less the equity charge, and it is the economic margin
      applied to the equity. */
  lemma EconomicValueAddedIsResidualIncome(ticker: string, sheets: seq<BalanceSheet>, statements: seq<IncomeStatement>,
                                           totalEquity: real, costOfEquity: Option<real>)
    requires GetEconomicValueAdded(ticker, sheets, statements, totalEquity, costOfEquity).Ok?
    ensures RatioOf(GetEconomicValueAdded(ticker, sheets, statements, totalEquity, costOfEquity))
         == statements[0].netIncome - costOfEquity.value * totalEquity
    ensures GetEconomicMargin(ticker, sheets, statements, totalEquity, costOfEquity).Ok?
    ensures RatioOf(GetEconomicValueAdded(ticker, sheets, statements, totalEquity, costOfEquity))
         == RatioOf(GetEconomicMargin(ticker, sheets, statements, totalEquity, costOfEquity)) * totalEquity
  {
    var roe := statements[0].netIncome / totalEquity;
    var ke := costOfEquity.value;
    assert roe * totalEquity == statements[0].netIncome;
    calc {
      (roe - ke) * totalEquity;
      roe * totalEquity - ke * totalEquity;
      statements[0].netIncome - ke * totalEquity;
    }
  }

  /** The endpoints agree with the total_equity-based `calculate_economic_value_ratios` on a
      request body carrying the same amounts and cost of equity. */
  lemma EndpointsAgreeWithCalculator(ticker: string, sheets: seq<BalanceSheet>, statements: seq<IncomeStatement>,
                                     incomeStatement: Dict, bs: Dict, costOfEquity: real)
    requires AM.EconomicValue(incomeStatement, bs, costOfEquity).Ok? && |sheets| > 0 && |statements| > 0
    requires statements[0].netIncome == incomeStatement["net_income"]
    ensures GetEconomicMargin(ticker, sheets, statements, bs["total_equity"], Some(costOfEquity)).Ok?
    ensures RatioOf(GetEconomicMargin(ticker, sheets, statements, bs["total_equity"], Some(costOfEquity)))
         == AM.EconomicValue(incomeStatement, bs, costOfEquity).value["economic_margin"]
    ensures RatioOf(GetEconomicValueAdded(ticker, sheets, statements, bs["total_equity"], Some(costOfEquity)))
         == AM.EconomicValue(incomeStatement, bs, costOfEquity).value["economic_value_added"]
  {
    var m := AM.EconomicValue(incomeStatement, bs, costOfEquity).value;
    var equity := bs["total_equity"];
    var margin := RatioOf(GetEconomicMargin(ticker, sheets, statements, equity, Some(costOfEquity)));
    assert (margin + costOfEquity) * equity == (m["economic_margin"] + costOfEquity) * equity;
    EqualAfterScaling(margin + costOfEquity, m["economic_margin"] + costOfEquity, equity);
    EconomicValueAddedIsResidualIncome(ticker, sheets, statements, equity, Some(costOfEquity));
  }
}
