/** The ratio calculators of the `FinancialMetrics` class in `app/agents/financial_analysis_agent.py`,
    the revision whose equity base is the balance sheet's `total_equity`.

    Its `calculate_liquidity_ratios` and `calculate_efficiency_ratios` are the same code as in
    `app/agents/financial_metrics.py`, so they are `FinancialMetrics.Liquidity` and
    `FinancialMetrics.Efficiency`; the calculators below are the ones this revision changes. */
module AnalysisMetrics {
  import opened Common
  import FinancialMetrics

  // ---------------------------------------------------------------------------------------
  // calculate_profitability_ratios

  function Profitability(incomeStatement: Dict, bs: Dict): (r: Result<map<string, real>>)
    ensures r.Ok? <==>
      && {"net_income", "revenues"} <= incomeStatement.Keys
      && {"total_assets", "total_equity"} <= bs.Keys
      && incomeStatement["revenues"] != 0.0 && bs["total_assets"] != 0.0 && bs["total_equity"] != 0.0
    ensures r.Err? ==> r.fault == ZeroDivision || r.fault.KeyMissing?
    ensures r.Ok? ==>
      var netIncome := incomeStatement["net_income"];
      && r.value.Keys == {"sales_margin", "return_on_assets", "return_on_equity"}
      && r.value["sales_margin"] * incomeStatement["revenues"] == netIncome
      && r.value["return_on_assets"] * bs["total_assets"] == netIncome
      && r.value["return_on_equity"] * bs["total_equity"] == netIncome
  {
    var netIncome :- Get(incomeStatement, "net_income");
    var revenues :- Get(incomeStatement, "revenues");
    var margin :- Div(netIncome, revenues);
    var assets :- Get(bs, "total_assets");
    var roa :- Div(netIncome, assets);
    var equity :- Get(bs, "total_equity");
    var roe :- Div(netIncome, equity);
    Ok(map["sales_margin" := margin, "return_on_assets" := roa, "return_on_equity" := roe])
  }

  // ---------------------------------------------------------------------------------------
  // calculate_ebitda_ratios: this revision takes EBIT for EBITDA, with no depreciation term

  function Ebitda(incomeStatement: Dict): (r: Result<map<string, real>>)
    ensures r.Ok? <==> {"ebit", "revenue"} <= incomeStatement.Keys && incomeStatement["revenue"] != 0.0
    ensures r.Err? ==> r.fault == ZeroDivision || r.fault.KeyMissing?
    ensures r.Ok? ==>
      && r.value.Keys == {"ebitda_margin"}
      && r.value["ebitda_margin"] * incomeStatement["revenue"] == incomeStatement["ebit"]
  {
    var ebit :- Get(incomeStatement, "ebit");
    var revenue :- Get(incomeStatement, "revenue");
    var margin :- Div(ebit, revenue);
    Ok(map["ebitda_margin" := margin])
  }

  /** Leaving out depreciation and amortisation: when both revisions read the same revenue and it
      is positive, this revision's EBITDA margin falls short of the other's by exactly D&A / revenue. */
  lemma EbitdaMarginOmitsDepreciation(incomeStatement: Dict, cashFlow: Dict)
    requires Ebitda(incomeStatement).Ok? && FinancialMetrics.Ebitda(incomeStatement, cashFlow).Ok?
    requires incomeStatement["revenues"] == incomeStatement["revenue"]
    ensures Ebitda(incomeStatement).value["ebitda_margin"]
         == FinancialMetrics.Ebitda(incomeStatement, cashFlow).value["ebitda_margin"]
            - cashFlow["depreciation_and_amortization"] / incomeStatement["revenue"]
  {
    var here := Ebitda(incomeStatement).value["ebitda_margin"];
    var there := FinancialMetrics.Ebitda(incomeStatement, cashFlow).value["ebitda_margin"];
    var rev := incomeStatement["revenue"];
    var da := cashFlow["depreciation_and_amortization"];
    assert there * rev == incomeStatement["ebit"] + da;
    assert (there - da / rev) * rev == here * rev;
  }

  // ---------------------------------------------------------------------------------------
  // calculate_dupont_ratios

  function Dupont(incomeStatement: Dict, bs: Dict): (r: Result<map<string, real>>)
    ensures r.Ok? <==>
      && {"net_income", "revenues"} <= incomeStatement.Keys
      && {"total_assets", "total_equity"} <= bs.Keys
      && incomeStatement["revenues"] != 0.0 && bs["total_assets"] != 0.0 && bs["total_equity"] != 0.0
    ensures r.Err? ==> r.fault == ZeroDivision || r.fault.KeyMissing?
    ensures r.Ok? ==>
      && r.value.Keys == {"sales_margin", "asset_turnover", "leverage"}
      && r.value["sales_margin"] * incomeStatement["revenues"] == incomeStatement["net_income"]
      && r.value["asset_turnover"] * bs["total_assets"] == incomeStatement["revenues"]
      && r.value["leverage"] * bs["total_equity"] == bs["total_assets"]
  {
    var netIncome :- Get(incomeStatement, "net_income");
    var revenues :- Get(incomeStatement, "revenues");
    var margin :- Div(netIncome, revenues);
    var assets :- Get(bs, "total_assets");
    var turnover :- Div(revenues, assets);
    var equity :- Get(bs, "total_equity");
    var leverage :- Div(assets, equity);
    Ok(map["sales_margin" := margin, "asset_turnover" := turnover, "leverage" := leverage])
  }

  /** The DuPont identity with the total_equity base: the DuPont ratios exist exactly when the
      profitability ratios do, and their product is profitability's return_on_equity. */
  lemma DupontIsReturnOnEquity(incomeStatement: Dict, bs: Dict)
    ensures Dupont(incomeStatement, bs).Ok? <==> Profitability(incomeStatement, bs).Ok?
    ensures Dupont(incomeStatement, bs).Ok? ==>
      var d := Dupont(incomeStatement, bs).value;
      d["sales_margin"] * d["asset_turnover"] * d["leverage"] == Profitability(incomeStatement, bs).value["return_on_equity"]
  {
    if Dupont(incomeStatement, bs).Ok? {
      var d := Dupont(incomeStatement, bs).value;
      var e := bs["total_equity"];
      FinancialMetrics.QuotientChain(incomeStatement["net_income"], incomeStatement["revenues"], bs["total_assets"], e,
                                     d["sales_margin"], d["asset_turnover"], d["leverage"]);
      assert (d["sales_margin"] * d["asset_turnover"] * d["leverage"]) * e
          == Profitability(incomeStatement, bs).value["return_on_equity"] * e;
    }
  }

  // ---------------------------------------------------------------------------------------
  // calculate_economic_value_ratios

  function EconomicValue(incomeStatement: Dict, bs: Dict, costOfEquity: real): (r: Result<map<string, real>>)
    ensures r.Ok? <==> "net_income" in incomeStatement && "total_equity" in bs && bs["total_equity"] != 0.0
    ensures r.Err? ==> r.fault == ZeroDivision || r.fault.KeyMissing?
    ensures r.Ok? ==>
      && r.value.Keys == {"economic_margin", "economic_value_added"}
      && (r.value["economic_margin"] + costOfEquity) * bs["total_equity"] == incomeStatement["net_income"]
      && r.value["economic_value_added"] == r.value["economic_margin"] * bs["total_equity"]
  {
    var netIncome :- Get(incomeStatement, "net_income");
    var equity :- Get(bs, "total_equity");
    var roe :- Div(netIncome, equity);
    var economicMargin := roe - costOfEquity;
    Ok(map["economic_margin" := economicMargin, "economic_value_added" := economicMargin * equity])
  }

  /** EVA is residual income, net_income - cost_of_equity * total_equity; and where the
      profitability ratios also exist, the economic margin is their ROE less the cost of equity. */
  lemma EconomicValueIsResidualIncome(incomeStatement: Dict, bs: Dict, costOfEquity: real)
    requires EconomicValue(incomeStatement, bs, costOfEquity).Ok?
    ensures EconomicValue(incomeStatement, bs, costOfEquity).value["economic_value_added"]
         == incomeStatement["net_income"] - costOfEquity * bs["total_equity"]
    ensures Profitability(incomeStatement, bs).Ok? ==>
      EconomicValue(incomeStatement, bs, costOfEquity).value["economic_margin"]
      == Profitability(incomeStatement, bs).value["return_on_equity"] - costOfEquity
  {
    var e := EconomicValue(incomeStatement, bs, costOfEquity).value;
    var equity := bs["total_equity"];
    calc {
      e["economic_value_added"];
      e["economic_margin"] * equity;
      (e["economic_margin"] + costOfEquity) * equity - costOfEquity * equity;
      incomeStatement["net_income"] - costOfEquity * equity;
    }
    if Profitability(incomeStatement, bs).Ok? {
      var roe := Profitability(incomeStatement, bs).value["return_on_equity"];
      assert (e["economic_margin"] + costOfEquity) * equity == roe * equity;
    }
  }

  // ---------------------------------------------------------------------------------------
  // calculate_leverage_ratios

  function Leverage(bs: Dict): (r: Result<map<string, real>>)
    ensures r.Ok? <==>
      && {"total_liabilities", "total_assets", "shareholders_equity"} <= bs.Keys
      && bs["total_assets"] != 0.0 && bs["shareholders_equity"] != 0.0
    ensures r.Err? ==> r.fault == ZeroDivision || r.fault.KeyMissing?
    ensures r.Ok? ==>
      && r.value.Keys == {"debt_ratio", "solvency_ratio", "leverage"}
      && r.value["debt_ratio"] * bs["total_assets"] == bs["total_liabilities"]
      && r.value["solvency_ratio"] * bs["total_assets"] == bs["shareholders_equity"]
      && r.value["leverage"] * bs["shareholders_equity"] == bs["total_assets"]
  {
    var liabilities :- Get(bs, "total_liabilities");
    var assets :- Get(bs, "total_assets");
    var debt :- Div(liabilities, assets);
    var equity :- Get(bs, "shareholders_equity");
    var leverage :- Div(assets, equity);
    Ok(map["debt_ratio" := debt, "solvency_ratio" := equity / assets, "leverage" := leverage])
  }

  /** Leverage is the reciprocal of solvency. */
  lemma SolvencyTimesLeverage(bs: Dict)
    requires Leverage(bs).Ok?
    ensures Leverage(bs).value["solvency_ratio"] * Leverage(bs).value["leverage"] == 1.0
  {
    var m := Leverage(bs).value;
    FinancialMetrics.ReciprocalProduct(m["solvency_ratio"], m["leverage"], bs["total_assets"], bs["shareholders_equity"]);
  }

  // ---------------------------------------------------------------------------------------
  // calculate_stock_performance_ratios

  /** `income_statement.get("dividends", 0)`. */
  function DividendsOrZero(incomeStatement: Dict): (d: real)
    ensures "dividends" !in incomeStatement ==> d == 0.0
    ensures "dividends" in incomeStatement ==> d == incomeStatement["dividends"]
  {
    if "dividends" in incomeStatement then incomeStatement["dividends"] else 0.0
  }

  function StockPerformance(incomeStatement: Dict, bs: Dict, stockPrice: real): (r: Result<map<string, Value>>)
    ensures r.Ok? <==> {"shares_outstanding", "total_equity"} <= bs.Keys && "net_income" in incomeStatement
    ensures r.Err? ==> r.fault.KeyMissing?
    ensures r.Ok? && bs["shares_outstanding"] == 0.0 ==> r.value == map["error" := Text(FinancialMetrics.ZeroSharesMessage)]
    ensures r.Ok? && bs["shares_outstanding"] != 0.0 ==>
      var shares := bs["shares_outstanding"];
      && r.value.Keys == FinancialMetrics.StockKeys
                         + (if incomeStatement["net_income"] != 0.0 then {"price_to_earnings_ratio"} else {})
      && (forall k :: k in r.value ==> r.value[k].Num?)
      && r.value["earnings_per_share"].n * shares == incomeStatement["net_income"]
      && r.value["dividends_per_share"].n * shares == DividendsOrZero(incomeStatement)
      && r.value["market_value"].n == stockPrice * shares
      && r.value["market_value_added"].n == r.value["market_value"].n - bs["total_equity"]
      && ("price_to_earnings_ratio" in r.value ==>
            r.value["price_to_earnings_ratio"].n * r.value["earnings_per_share"].n == stockPrice)
  {
    var shares :- Get(bs, "shares_outstanding");
    var netIncome :- Get(incomeStatement, "net_income");
    var equity :- Get(bs, "total_equity");
    var dividends := DividendsOrZero(incomeStatement);
    if shares == 0.0 then
      Ok(map["error" := Text(FinancialMetrics.ZeroSharesMessage)])
    else
      var eps := netIncome / shares;
      var marketValue := stockPrice * shares;
      var result := map[
        "earnings_per_share" := Num(eps),
        "dividends_per_share" := Num(dividends / shares),
        "market_value" := Num(marketValue),
        "market_value_added" := Num(marketValue - equity)];
      if eps != 0.0 then Ok(result["price_to_earnings_ratio" := Num(stockPrice / eps)]) else Ok(result)
  }

  /** Without a `dividends` entry the dividends per share are zero. */
  lemma AbsentDividendsGiveZeroDps(incomeStatement: Dict, bs: Dict, stockPrice: real)
    requires StockPerformance(incomeStatement, bs, stockPrice).Ok?
    requires "dividends" !in incomeStatement && bs["shares_outstanding"] != 0.0
    ensures StockPerformance(incomeStatement, bs, stockPrice).value["dividends_per_share"] == Num(0.0)
  {
    var v := StockPerformance(incomeStatement, bs, stockPrice).value["dividends_per_share"];
    assert v.n * bs["shares_outstanding"] == 0.0;
  }
}
