/** `GET /grouped` (`app/endpoints/metrics.py`): runs the eight calculators of
    `FinancialMetrics` over the request's three statement dicts and returns their results
    grouped by category. The list of groups is built element by element, so the first
    calculator that raises ends the request with its exception. */
module GroupedMetricsEndpoint {
  import opened Common
  import opened MetricSchemas
  import FM = FinancialMetrics

  /** The defaults of the `stock_price` and `cost_of_equity` query parameters. */
  const DefaultStockPrice: real := 0.0
  const DefaultCostOfEquity: real := 0.0

  /** Every calculator returns a dict for these statements. */
  predicate CalculatorsSucceed(bs: Dict, incomeStatement: Dict, cashFlow: Dict, stockPrice: real, costOfEquity: real) {
    && FM.Liquidity(bs).Ok?
    && FM.Ebitda(incomeStatement, cashFlow).Ok?
    && FM.Leverage(bs).Ok?
    && FM.Efficiency(incomeStatement, bs).Ok?
    && FM.Profitability(incomeStatement, bs).Ok?
    && FM.Dupont(incomeStatement, bs).Ok?
    && FM.EconomicValue(incomeStatement, bs, costOfEquity).Ok?
    && FM.StockPerformance(incomeStatement, bs, cashFlow, stockPrice).Ok?
  }

  /** The first seven groups from the dicts their calculators returned, in list order: the
      first calculator that raised decides the error. */
  function AccountingGroups(liquidity: Result<map<string, real>>, ebitda: Result<map<string, real>>,
                            leverage: Result<map<string, real>>, efficiency: Result<map<string, real>>,
                            profitability: Result<map<string, real>>, dupont: Result<map<string, real>>,
                            economic: Result<map<string, real>>)
    : (r: Result<seq<MetricGroup>>)
    ensures r.Ok? <==>
      liquidity.Ok? && ebitda.Ok? && leverage.Ok? && efficiency.Ok? && profitability.Ok? && dupont.Ok? && economic.Ok?
    ensures liquidity.Err? ==> r == Err(liquidity.fault)
    ensures liquidity.Ok? && ebitda.Err? ==> r == Err(ebitda.fault)
    ensures liquidity.Ok? && ebitda.Ok? && leverage.Err? ==> r == Err(leverage.fault)
    ensures liquidity.Ok? && ebitda.Ok? && leverage.Ok? && efficiency.Err? ==> r == Err(efficiency.fault)
    ensures liquidity.Ok? && ebitda.Ok? && leverage.Ok? && efficiency.Ok? && profitability.Err? ==>
      r == Err(profitability.fault)
    ensures liquidity.Ok? && ebitda.Ok? && leverage.Ok? && efficiency.Ok? && profitability.Ok? && dupont.Err? ==>
      r == Err(dupont.fault)
    ensures (liquidity.Ok? && ebitda.Ok? && leverage.Ok? && efficiency.Ok? && profitability.Ok? && dupont.Ok?
             && economic.Err?) ==> r == Err(economic.fault)
    ensures r.Ok? ==>
      && |r.value| == 7
      && (forall i :: 0 <= i < 7 ==> r.value[i].category == AllCategories[i])
      && r.value[0].metrics == liquidity.value
      && r.value[1].metrics == ebitda.value
      && r.value[2].metrics == leverage.value
      && r.value[3].metrics == efficiency.value
      && r.value[4].metrics == profitability.value
      && r.value[5].metrics == dupont.value
      && r.value[6].metrics == economic.value
  {
    var l :- liquidity;
    var e :- ebitda;
    var v :- leverage;
    var f :- efficiency;
    var p :- profitability;
    var d :- dupont;
    var c :- economic;
    Ok([MetricGroup(MetricCategory.Liquidity, l),
        MetricGroup(MetricCategory.Ebitda, e),
        MetricGroup(MetricCategory.Leverage, v),
        MetricGroup(MetricCategory.Efficiency, f),
        MetricGroup(MetricCategory.Profitability, p),
        MetricGroup(MetricCategory.Dupont, d),
        MetricGroup(MetricCategory.EconomicValue, c)])
  }

  /** The seven accounting groups for these statements. */
  function Accounting(bs: Dict, incomeStatement: Dict, cashFlow: Dict, costOfEquity: real): (r: Result<seq<MetricGroup>>)
    ensures r.Ok? ==> |r.value| == 7 && forall i :: 0 <= i < 7 ==> r.value[i].category == AllCategories[i]
  {
    AccountingGroups(FM.Liquidity(bs), FM.Ebitda(incomeStatement, cashFlow), FM.Leverage(bs),
                     FM.Efficiency(incomeStatement, bs), FM.Profitability(incomeStatement, bs),
                     FM.Dupont(incomeStatement, bs), FM.EconomicValue(incomeStatement, bs, costOfEquity))
  }

  /** The response from the accounting groups and the stock calculator's dict, which must
      validate as `Dict[str, float]` like the others. */
  function Assemble(accounting: Result<seq<MetricGroup>>, stock: Result<map<string, Value>>): (r: Result<GroupedMetrics>)
    requires accounting.Ok? ==>
      |accounting.value| == 7 && forall i :: 0 <= i < 7 ==> accounting.value[i].category == AllCategories[i]
    ensures r.Ok? <==> accounting.Ok? && stock.Ok? && forall k :: k in stock.value ==> stock.value[k].Num?
    ensures accounting.Err? ==> r == Err(accounting.fault)
    ensures accounting.Ok? && stock.Err? ==> r == Err(stock.fault)
    ensures accounting.Ok? && stock.Ok? && r.Err? ==> r.fault == ValidationFailed
    ensures r.Ok? ==>
      var g := r.value.groups;
      && |g| == 8
      && g[..7] == accounting.value
      && (forall i :: 0 <= i < |g| ==> g[i].category == AllCategories[i])
      && g[7].metrics.Keys == stock.value.Keys
      && forall k :: k in stock.value ==> stock.value[k] == Num(g[7].metrics[k])
  {
    var groups :- accounting;
    var metrics :- stock;
    var group :- MakeMetricGroup(MetricCategory.StockPerformance, metrics);
    assert (groups + [group])[..7] == groups;
    Ok(GroupedMetrics(groups + [group]))
  }

  function GetGroupedMetrics(bs: Dict, incomeStatement: Dict, cashFlow: Dict, stockPrice: real, costOfEquity: real)
    : (r: Result<GroupedMetrics>)
    ensures r.Ok? ==>
      var g := r.value.groups;
      && |g| == |AllCategories|
      && (forall i :: 0 <= i < |g| ==> g[i].category == AllCategories[i])
      && Accounting(bs, incomeStatement, cashFlow, costOfEquity).Ok?
      && g[..7] == Accounting(bs, incomeStatement, cashFlow, costOfEquity).value
  {
    Assemble(Accounting(bs, incomeStatement, cashFlow, costOfEquity),
             FM.StockPerformance(incomeStatement, bs, cashFlow, stockPrice))
  }

  /** The last group holds the stock calculator's numbers under the same keys. */
  lemma StockGroupIsStockCalculator(bs: Dict, incomeStatement: Dict, cashFlow: Dict, stockPrice: real, costOfEquity: real)
    requires GetGroupedMetrics(bs, incomeStatement, cashFlow, stockPrice, costOfEquity).Ok?
    ensures FM.StockPerformance(incomeStatement, bs, cashFlow, stockPrice).Ok?
    ensures var g := GetGroupedMetrics(bs, incomeStatement, cashFlow, stockPrice, costOfEquity).value.groups;
      var stock := FM.StockPerformance(incomeStatement, bs, cashFlow, stockPrice).value;
      && g[7].metrics.Keys == stock.Keys
      && forall k :: k in stock ==> stock[k] == Num(g[7].metrics[k])
  {
  }

  /** The endpoint answers exactly when every calculator returns and the company has shares
      outstanding; the zero-shares dict of the stock calculator holds a message, which
      `Dict[str, float]` refuses, and otherwise the first calculator to raise decides the error. */
  lemma GroupedMetricsSucceeds(bs: Dict, incomeStatement: Dict, cashFlow: Dict, stockPrice: real, costOfEquity: real)
    ensures var r := GetGroupedMetrics(bs, incomeStatement, cashFlow, stockPrice, costOfEquity);
      && (r.Ok? <==> CalculatorsSucceed(bs, incomeStatement, cashFlow, stockPrice, costOfEquity)
                     && bs["outstanding_shares"] != 0.0)
      && (CalculatorsSucceed(bs, incomeStatement, cashFlow, stockPrice, costOfEquity) && r.Err? ==>
            r.fault == ValidationFailed)
      && (FM.Liquidity(bs).Err? ==> r == Err(FM.Liquidity(bs).fault))
      && (FM.Liquidity(bs).Ok? && FM.Ebitda(incomeStatement, cashFlow).Err? ==>
            r == Err(FM.Ebitda(incomeStatement, cashFlow).fault))
  {
    var stock := FM.StockPerformance(incomeStatement, bs, cashFlow, stockPrice);
    if stock.Ok? && bs["outstanding_shares"] == 0.0 {
      assert !stock.value["error"].Num?;
    }
  }

  /** With the default query parameters the market value is zero, the economic margin is
      exactly the return on equity of the profitability group, and EVA is the net income. */
  lemma DefaultsReduceToAccountingValues(bs: Dict, incomeStatement: Dict, cashFlow: Dict)
    requires GetGroupedMetrics(bs, incomeStatement, cashFlow, DefaultStockPrice, DefaultCostOfEquity).Ok?
    ensures var g := GetGroupedMetrics(bs, incomeStatement, cashFlow, DefaultStockPrice, DefaultCostOfEquity).value.groups;
      && "market_value" in g[7].metrics && g[7].metrics["market_value"] == 0.0
      && "economic_margin" in g[6].metrics && "return_on_equity" in g[4].metrics
      && g[6].metrics["economic_margin"] == g[4].metrics["return_on_equity"]
      && "economic_value_added" in g[6].metrics && "net_income" in incomeStatement
      && g[6].metrics["economic_value_added"] == incomeStatement["net_income"]
  {
    var g := GetGroupedMetrics(bs, incomeStatement, cashFlow, DefaultStockPrice, DefaultCostOfEquity).value.groups;
    GroupedMetricsSucceeds(bs, incomeStatement, cashFlow, DefaultStockPrice, DefaultCostOfEquity);
    StockGroupIsStockCalculator(bs, incomeStatement, cashFlow, DefaultStockPrice, DefaultCostOfEquity);
    var stock := FM.StockPerformance(incomeStatement, bs, cashFlow, DefaultStockPrice).value;
    assert stock["market_value"] == Num(g[7].metrics["market_value"]);
    FM.EconomicValueIsResidualIncome(incomeStatement, bs, DefaultCostOfEquity);
    assert g[4] == g[..7][4] && g[6] == g[..7][6];
  }
}
