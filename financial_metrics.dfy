/** The ratio calculators of `app/agents/financial_metrics.py`, the revision whose equity base is
    `total_assets + total_liabilities`.

    Each calculator reads its statements as dicts and returns a dict literal of divisions. A
    missing key raises a KeyError and a zero denominator a ZeroDivisionError, so a calculator
    either returns every one of its ratios or raises; the operands are read in Python's order
    (left to right, entry by entry), so the failure returned is the first one Python hits. */
module FinancialMetrics {
  import opened Common

  // ---------------------------------------------------------------------------------------
  // calculate_liquidity_ratios

  function Liquidity(bs: Dict): (r: Result<map<string, real>>)
    ensures r.Ok? <==>
      && {"current_assets", "current_liabilities", "inventory", "cash_and_equivalents"} <= bs.Keys
      && bs["current_liabilities"] != 0.0
    ensures r.Err? ==> r.fault == ZeroDivision || r.fault.KeyMissing?
    ensures r.Ok? ==>
      var cl := bs["current_liabilities"];
      && r.value.Keys == {"current_ratio", "acid_test_ratio", "defensive_interval_ratio"}
      && r.value["current_ratio"] * cl == bs["current_assets"]
      && r.value["defensive_interval_ratio"] * cl == bs["cash_and_equivalents"]
      && r.value["acid_test_ratio"] == r.value["current_ratio"] - bs["inventory"] / cl
  {
    var ca :- Get(bs, "current_assets");
    var cl :- Get(bs, "current_liabilities");
    var current :- Div(ca, cl);
    var inventory :- Get(bs, "inventory");
    var cash :- Get(bs, "cash_and_equivalents");
    // current_liabilities is already known to be non-zero: the later divisions cannot fail
    Ok(map["current_ratio" := current,
           "acid_test_ratio" := (ca - inventory) / cl,
           "defensive_interval_ratio" := cash / cl])
  }

  // ---------------------------------------------------------------------------------------
  // calculate_ebitda_ratios

  function Ebitda(incomeStatement: Dict, cashFlow: Dict): (r: Result<map<string, real>>)
    ensures r.Ok? <==>
      && {"ebit", "revenues"} <= incomeStatement.Keys
      && "depreciation_and_amortization" in cashFlow
      && incomeStatement["revenues"] != 0.0
    ensures r.Err? ==> r.fault == ZeroDivision || r.fault.KeyMissing?
    ensures r.Ok? ==>
      && r.value.Keys == {"ebitda", "ebitda_margin"}
      && r.value["ebitda"] == incomeStatement["ebit"] + cashFlow["depreciation_and_amortization"]
      && r.value["ebitda_margin"] * incomeStatement["revenues"] == r.value["ebitda"]
  {
    var ebit :- Get(incomeStatement, "ebit");
    var da :- Get(cashFlow, "depreciation_and_amortization");
    var revenues :- Get(incomeStatement, "revenues");
    var margin :- Div(ebit + da, revenues);
    Ok(map["ebitda" := ebit + da, "ebitda_margin" := margin])
  }

  // ---------------------------------------------------------------------------------------
  // calculate_leverage_ratios

  function Leverage(bs: Dict): (r: Result<map<string, real>>)
    ensures r.Ok? <==>
      && {"total_liabilities", "total_assets", "shareholders_equity"} <= bs.Keys
      && bs["total_assets"] != 0.0
      && bs["total_liabilities"] + bs["shareholders_equity"] != 0.0
    ensures r.Err? ==> r.fault == ZeroDivision || r.fault.KeyMissing?
    ensures r.Ok? ==>
      var base := bs["total_liabilities"] + bs["shareholders_equity"];
      && r.value.Keys == {"debt_ratio", "solvency_ratio", "leverage"}
      && r.value["debt_ratio"] * bs["total_assets"] == bs["total_liabilities"]
      && r.value["solvency_ratio"] * bs["total_assets"] == base
      && r.value["leverage"] * base == bs["total_assets"]
  {
    var liabilities :- Get(bs, "total_liabilities");
    var assets :- Get(bs, "total_assets");
    var debt :- Div(liabilities, assets);
    var equity :- Get(bs, "shareholders_equity");
    var leverage :- Div(assets, liabilities + equity);
    Ok(map["debt_ratio" := debt, "solvency_ratio" := (liabilities + equity) / assets, "leverage" := leverage])
  }

  /** Solvency and leverage are reciprocal: their product is exactly 1. */
  lemma SolvencyTimesLeverage(bs: Dict)
    requires Leverage(bs).Ok?
    ensures Leverage(bs).value["solvency_ratio"] * Leverage(bs).value["leverage"] == 1.0
  {
    var m := Leverage(bs).value;
    var s, l := m["solvency_ratio"], m["leverage"];
    var a := bs["total_assets"];
    var b := bs["total_liabilities"] + bs["shareholders_equity"];
    assert s * a == b && l * b == a;
    ReciprocalProduct(s, l, a, b);
  }

  /** Two quotients x = b/a and y = a/b multiply to 1. */
  lemma ReciprocalProduct(x: real, y: real, a: real, b: real)
    requires a != 0.0 && b != 0.0 && x * a == b && y * b == a
    ensures x * y == 1.0
  {
    assert (x * y) * (a * b) == (x * a) * (y * b);
    assert a * b != 0.0;
  }

  // ---------------------------------------------------------------------------------------
  // calculate_efficiency_ratios

  /** The four turnovers `calculate_efficiency_ratios` computes before building its dict. */
  datatype Turnovers = Turnovers(inventory: real, receivables: real, payables: real, assets: real)

  function EfficiencyTurnovers(incomeStatement: Dict, bs: Dict): (r: Result<Turnovers>)
    ensures r.Ok? <==>
      && {"cost_of_revenue", "revenue", "revenues"} <= incomeStatement.Keys
      && {"inventory", "trade_and_non_trade_receivables", "trade_and_non_trade_payables", "total_assets"} <= bs.Keys
      && bs["inventory"] != 0.0 && bs["trade_and_non_trade_receivables"] != 0.0
      && bs["trade_and_non_trade_payables"] != 0.0 && bs["total_assets"] != 0.0
    ensures r.Err? ==> r.fault == ZeroDivision || r.fault.KeyMissing?
    ensures r.Ok? ==>
      && r.value.inventory * bs["inventory"] == incomeStatement["cost_of_revenue"]
      && r.value.receivables * bs["trade_and_non_trade_receivables"] == incomeStatement["revenue"]
      && r.value.payables * bs["trade_and_non_trade_payables"] == incomeStatement["cost_of_revenue"]
      && r.value.assets * bs["total_assets"] == incomeStatement["revenues"]
  {
    var cogs :- Get(incomeStatement, "cost_of_revenue");
    var inventory :- Get(bs, "inventory");
    var inventoryTurnover :- Div(cogs, inventory);
    var revenue :- Get(incomeStatement, "revenue");
    var receivables :- Get(bs, "trade_and_non_trade_receivables");
    var receivablesTurnover :- Div(revenue, receivables);
    var payables :- Get(bs, "trade_and_non_trade_payables");
    var payablesTurnover :- Div(cogs, payables);
    var revenues :- Get(incomeStatement, "revenues");
    var assets :- Get(bs, "total_assets");
    var assetTurnover :- Div(revenues, assets);
    Ok(Turnovers(inventoryTurnover, receivablesTurnover, payablesTurnover, assetTurnover))
  }

  function Efficiency(incomeStatement: Dict, bs: Dict): (r: Result<map<string, real>>)
    ensures r.Ok? <==>
      && EfficiencyTurnovers(incomeStatement, bs).Ok?
      && incomeStatement["cost_of_revenue"] != 0.0 && incomeStatement["revenue"] != 0.0
    ensures r.Err? ==> r.fault == ZeroDivision || r.fault.KeyMissing?
    ensures r.Ok? ==>
      var t := EfficiencyTurnovers(incomeStatement, bs).value;
      && r.value.Keys == {"inventory_turnover", "stock_retention_period", "accounts_receivable_turnover",
                          "collection_period", "accounts_payable_turnover", "payment_period", "asset_turnover"}
      && r.value["inventory_turnover"] == t.inventory
      && r.value["accounts_receivable_turnover"] == t.receivables
      && r.value["accounts_payable_turnover"] == t.payables
      && r.value["asset_turnover"] == t.assets
      && r.value["stock_retention_period"] * t.inventory == 365.0
      && r.value["collection_period"] * t.receivables == 365.0
      && r.value["payment_period"] * t.payables == 365.0
  {
    var t :- EfficiencyTurnovers(incomeStatement, bs);
    var retention :- Div(365.0, t.inventory);
    var collection :- Div(365.0, t.receivables);
    // payables turnover is cost_of_revenue / payables, non-zero once the inventory turnover is
    Ok(map[
      "inventory_turnover" := t.inventory,
      "stock_retention_period" := retention,
      "accounts_receivable_turnover" := t.receivables,
      "collection_period" := collection,
      "accounts_payable_turnover" := t.payables,
      "payment_period" := 365.0 / t.payables,
      "asset_turnover" := t.assets])
  }

  // ---------------------------------------------------------------------------------------
  // calculate_profitability_ratios

  function Profitability(incomeStatement: Dict, bs: Dict): (r: Result<map<string, real>>)
    ensures r.Ok? <==>
      && {"net_income", "revenues"} <= incomeStatement.Keys
      && {"total_assets", "total_liabilities"} <= bs.Keys
      && incomeStatement["revenues"] != 0.0 && bs["total_assets"] != 0.0
      && bs["total_assets"] + bs["total_liabilities"] != 0.0
    ensures r.Err? ==> r.fault == ZeroDivision || r.fault.KeyMissing?
    ensures r.Ok? ==>
      var netIncome := incomeStatement["net_income"];
      && r.value.Keys == {"sales_margin", "return_on_assets", "return_on_equity"}
      && r.value["sales_margin"] * incomeStatement["revenues"] == netIncome
      && r.value["return_on_assets"] * bs["total_assets"] == netIncome
      && r.value["return_on_equity"] * (bs["total_assets"] + bs["total_liabilities"]) == netIncome
  {
    var netIncome :- Get(incomeStatement, "net_income");
    var revenues :- Get(incomeStatement, "revenues");
    var margin :- Div(netIncome, revenues);
    var assets :- Get(bs, "total_assets");
    var roa :- Div(netIncome, assets);
    var liabilities :- Get(bs, "total_liabilities");
    var roe :- Div(netIncome, assets + liabilities);
    Ok(map["sales_margin" := margin, "return_on_assets" := roa, "return_on_equity" := roe])
  }

  // ---------------------------------------------------------------------------------------
  // calculate_dupont_ratios

  function Dupont(incomeStatement: Dict, bs: Dict): (r: Result<map<string, real>>)
    ensures r.Ok? <==>
      && {"net_income", "revenues"} <= incomeStatement.Keys
      && {"total_assets", "total_liabilities"} <= bs.Keys
      && incomeStatement["revenues"] != 0.0 && bs["total_assets"] != 0.0
      && bs["total_liabilities"] + bs["total_assets"] != 0.0
    ensures r.Err? ==> r.fault == ZeroDivision || r.fault.KeyMissing?
    ensures r.Ok? ==>
      && r.value.Keys == {"sales_margin", "asset_turnover", "leverage"}
      && r.value["sales_margin"] * incomeStatement["revenues"] == incomeStatement["net_income"]
      && r.value["asset_turnover"] * bs["total_assets"] == incomeStatement["revenues"]
      && r.value["leverage"] * (bs["total_liabilities"] + bs["total_assets"]) == bs["total_assets"]
  {
    var netIncome :- Get(incomeStatement, "net_income");
    var revenues :- Get(incomeStatement, "revenues");
    var margin :- Div(netIncome, revenues);
    var assets :- Get(bs, "total_assets");
    var turnover :- Div(revenues, assets);
    var liabilities :- Get(bs, "total_liabilities");
    var leverage :- Div(assets, liabilities + assets);
    Ok(map["sales_margin" := margin, "asset_turnover" := turnover, "leverage" := leverage])
  }

  /** The product of three reals that are quotients, cancelled: (n/r) * (r/a) * (a/e) = n/e. */
  lemma QuotientChain(n: real, r: real, a: real, e: real, m: real, t: real, l: real)
    requires r != 0.0 && a != 0.0 && e != 0.0
    requires m * r == n && t * a == r && l * e == a
    ensures (m * t * l) * e == n
  {
    calc {
      (m * t * l) * e;
      m * t * (l * e);
      m * (t * a);
      m * r;
    }
  }

  /** The DuPont identity: whenever the DuPont ratios exist, so do the profitability ratios, and
      sales_margin * asset_turnover * leverage is profitability's return_on_equity. */
  lemma DupontIsReturnOnEquity(incomeStatement: Dict, bs: Dict)
    requires Dupont(incomeStatement, bs).Ok?
    ensures Profitability(incomeStatement, bs).Ok?
    ensures var d := Dupont(incomeStatement, bs).value;
      d["sales_margin"] * d["asset_turnover"] * d["leverage"] == Profitability(incomeStatement, bs).value["return_on_equity"]
  {
    var d := Dupont(incomeStatement, bs).value;
    var p := Profitability(incomeStatement, bs).value;
    var e := bs["total_assets"] + bs["total_liabilities"];
    QuotientChain(incomeStatement["net_income"], incomeStatement["revenues"], bs["total_assets"], e,
                  d["sales_margin"], d["asset_turnover"], d["leverage"]);
    assert (d["sales_margin"] * d["asset_turnover"] * d["leverage"]) * e == p["return_on_equity"] * e;
  }

  // ---------------------------------------------------------------------------------------
  // calculate_economic_value_ratios

  function EconomicValue(incomeStatement: Dict, bs: Dict, costOfEquity: real): (r: Result<map<string, real>>)
    ensures r.Ok? <==> Dupont(incomeStatement, bs).Ok?
    ensures r.Err? ==> r.Err? && r.fault == Dupont(incomeStatement, bs).fault
    ensures r.Ok? ==>
      var d := Dupont(incomeStatement, bs).value;
      && r.value.Keys == {"economic_margin", "economic_value_added"}
      && r.value["economic_margin"] == d["sales_margin"] * d["asset_turnover"] * d["leverage"] - costOfEquity
      && r.value["economic_value_added"] == r.value["economic_margin"] * (bs["total_assets"] + bs["total_liabilities"])
  {
    var netIncome :- Get(incomeStatement, "net_income");
    var revenues :- Get(incomeStatement, "revenues");
    var margin :- Div(netIncome, revenues);
    var assets :- Get(bs, "total_assets");
    var turnover :- Div(revenues, assets);
    var liabilities :- Get(bs, "total_liabilities");
    var leverage :- Div(assets, liabilities + assets);
    var roe := margin * turnover * leverage;
    var economicMargin := roe - costOfEquity;
    Ok(map["economic_margin" := economicMargin,
           "economic_value_added" := economicMargin * (assets + liabilities)])
  }

  /** Economic margin is profitability's ROE less the cost of equity, and EVA is the residual
      income net_income - cost_of_equity * (total_assets + total_liabilities). */
  lemma EconomicValueIsResidualIncome(incomeStatement: Dict, bs: Dict, costOfEquity: real)
    requires EconomicValue(incomeStatement, bs, costOfEquity).Ok?
    ensures Profitability(incomeStatement, bs).Ok?
    ensures var e := EconomicValue(incomeStatement, bs, costOfEquity).value;
      && e["economic_margin"] == Profitability(incomeStatement, bs).value["return_on_equity"] - costOfEquity
      && e["economic_value_added"]
         == incomeStatement["net_income"] - costOfEquity * (bs["total_assets"] + bs["total_liabilities"])
  {
    DupontIsReturnOnEquity(incomeStatement, bs);
    var e := EconomicValue(incomeStatement, bs, costOfEquity).value;
    var roe := Profitability(incomeStatement, bs).value["return_on_equity"];
    var base := bs["total_assets"] + bs["total_liabilities"];
    calc {
      e["economic_value_added"];
      (roe - costOfEquity) * base;
      roe * base - costOfEquity * base;
      incomeStatement["net_income"] - costOfEquity * base;
    }
  }

  // ---------------------------------------------------------------------------------------
  // calculate_stock_performance_ratios

  const ZeroSharesMessage := "Cannot calculate ratios - outstanding shares is zero"

  /** The five stock-performance keys, the last of which is added only for non-zero EPS. */
  const StockKeys: set<string> := {"earnings_per_share", "dividends_per_share", "market_value", "market_value_added"}

  function StockPerformance(incomeStatement: Dict, bs: Dict, cashFlow: Dict, stockPrice: real): (r: Result<map<string, Value>>)
    ensures r.Ok? <==>
      && {"outstanding_shares", "total_assets", "total_liabilities"} <= bs.Keys
      && "net_income" in incomeStatement && "dividends_and_other_cash_distributions" in cashFlow
    ensures r.Err? ==> r.fault.KeyMissing?
    ensures r.Ok? && bs["outstanding_shares"] == 0.0 ==> r.value == map["error" := Text(ZeroSharesMessage)]
    ensures r.Ok? && bs["outstanding_shares"] != 0.0 ==>
      var shares := bs["outstanding_shares"];
      && r.value.Keys == StockKeys + (if incomeStatement["net_income"] != 0.0 then {"price_to_earnings_ratio"} else {})
      && (forall k :: k in r.value ==> r.value[k].Num?)
      && r.value["earnings_per_share"].n * shares == incomeStatement["net_income"]
      && r.value["dividends_per_share"].n * shares == cashFlow["dividends_and_other_cash_distributions"]
      && r.value["market_value"].n == stockPrice * shares
      && r.value["market_value_added"].n
         == r.value["market_value"].n - (bs["total_assets"] + bs["total_liabilities"])
      && ("price_to_earnings_ratio" in r.value ==>
            r.value["price_to_earnings_ratio"].n * r.value["earnings_per_share"].n == stockPrice)
  {
    var shares :- Get(bs, "outstanding_shares");
    var netIncome :- Get(incomeStatement, "net_income");
    var assets :- Get(bs, "total_assets");
    var liabilities :- Get(bs, "total_liabilities");
    var dividends :- Get(cashFlow, "dividends_and_other_cash_distributions");
    if shares == 0.0 then
      Ok(map["error" := Text(ZeroSharesMessage)])
    else
      var eps := netIncome / shares;
      var marketValue := stockPrice * shares;
      var result := map[
        "earnings_per_share" := Num(eps),
        "dividends_per_share" := Num(dividends / shares),
        "market_value" := Num(marketValue),
        "market_value_added" := Num(marketValue - (assets + liabilities))];
      if eps != 0.0 then Ok(result["price_to_earnings_ratio" := Num(stockPrice / eps)]) else Ok(result)
  }
}
