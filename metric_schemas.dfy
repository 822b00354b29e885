/** The response schema of the grouped-metrics endpoint (`app/schemas/financial_metrics.py`):
    a string enum of the eight ratio categories and the pydantic models that group ratios by it. */
module MetricSchemas {
  import opened Common

  datatype MetricCategory =
    | Liquidity | Ebitda | Leverage | Efficiency | Profitability | Dupont | EconomicValue | StockPerformance

  /** The categories in declaration order, which is also the order the endpoint lists its groups. */
  const AllCategories: seq<MetricCategory> :=
    [Liquidity, Ebitda, Leverage, Efficiency, Profitability, Dupont, EconomicValue, StockPerformance]

  /** The string value of each member, which is how a category travels in JSON. */
  function WireValue(c: MetricCategory): string {
    match c
    case Liquidity => "liquidity"
    case Ebitda => "ebitda"
    case Leverage => "leverage"
    case Efficiency => "efficiency"
    case Profitability => "profitability"
    case Dupont => "dupont"
    case EconomicValue => "economic_value"
    case StockPerformance => "stock_performance"
  }

  /** The name each member is declared under. */
  function MemberName(c: MetricCategory): string {
    match c
    case Liquidity => "LIQUIDITY"
    case Ebitda => "EBITDA"
    case Leverage => "LEVERAGE"
    case Efficiency => "EFFICIENCY"
    case Profitability => "PROFITABILITY"
    case Dupont => "DUPONT"
    case EconomicValue => "ECONOMIC_VALUE"
    case StockPerformance => "STOCK_PERFORMANCE"
  }

  /** Each member's value is its declared name in lower case. */
  lemma WireValueIsLowerMemberName(c: MetricCategory)
    ensures WireValue(c) == LowerString(MemberName(c))
  {
    match c
    case Liquidity => LowerUpperWord("LIQUIDITY", "liquidity");
    case Ebitda => LowerUpperWord("EBITDA", "ebitda");
    case Leverage => LowerUpperWord("LEVERAGE", "leverage");
    case Efficiency => LowerUpperWord("EFFICIENCY", "efficiency");
    case Profitability => LowerUpperWord("PROFITABILITY", "profitability");
    case Dupont => LowerUpperWord("DUPONT", "dupont");
    case EconomicValue => LowerUpperWord("ECONOMIC_VALUE", "economic_value");
    case StockPerformance => LowerUpperWord("STOCK_PERFORMANCE", "stock_performance");
  }

  /** A lower-case word is the lower case of the word that agrees with it up to case. */
  lemma LowerUpperWord(upper: string, lower: string)
    requires |upper| == |lower|
    requires forall i :: 0 <= i < |upper| ==> Lower(upper[i]) == lower[i]
    ensures LowerString(upper) == lower
  {
  }

  /** `MetricCategory(s)`: the member whose value is `s`, or a validation failure. */
  function ParseCategory(s: string): (r: Result<MetricCategory>)
    ensures r.Ok? ==> WireValue(r.value) == s
    ensures r.Err? ==> r.fault == ValidationFailed && forall c :: WireValue(c) != s
  {
    if s == "liquidity" then Ok(Liquidity)
    else if s == "ebitda" then Ok(Ebitda)
    else if s == "leverage" then Ok(Leverage)
    else if s == "efficiency" then Ok(Efficiency)
    else if s == "profitability" then Ok(Profitability)
    else if s == "dupont" then Ok(Dupont)
    else if s == "economic_value" then Ok(EconomicValue)
    else if s == "stock_performance" then Ok(StockPerformance)
    else
      assert forall c :: WireValue(c) != s;
      Err(ValidationFailed)
  }

  /** Every category survives the trip to JSON and back. */
  lemma CategoryRoundTrip(c: MetricCategory)
    ensures ParseCategory(WireValue(c)) == Ok(c)
  {
    match c
    case Liquidity =>
    case Ebitda =>
    case Leverage =>
    case Efficiency =>
    case Profitability =>
    case Dupont =>
    case EconomicValue =>
    case StockPerformance =>
  }

  /** No two members share a value. */
  lemma WireValueInjective(c: MetricCategory, d: MetricCategory)
    ensures WireValue(c) == WireValue(d) ==> c == d
  {
    CategoryRoundTrip(c);
    CategoryRoundTrip(d);
  }

  /** `AllCategories` lists every member exactly once. */
  lemma AllCategoriesEnumerates(c: MetricCategory)
    ensures c in AllCategories
    ensures forall i, j :: 0 <= i < j < |AllCategories| ==> AllCategories[i] != AllCategories[j]
  {
  }

  datatype MetricGroup = MetricGroup(category: MetricCategory, metrics: map<string, real>)

  datatype GroupedMetrics = GroupedMetrics(groups: seq<MetricGroup>)

  /** `MetricGroup(category=..., metrics=d)` where the calculator's dict may hold any JSON scalar:
      `Dict[str, float]` accepts it only when every value is a number. */
  function MakeMetricGroup(category: MetricCategory, metrics: map<string, Value>): (r: Result<MetricGroup>)
    ensures r.Ok? <==> forall k :: k in metrics ==> metrics[k].Num?
    ensures r.Err? ==> r.fault == ValidationFailed
    ensures r.Ok? ==>
      && r.value.category == category
      && r.value.metrics.Keys == metrics.Keys
      && forall k :: k in metrics ==> metrics[k] == Num(r.value.metrics[k])
  {
    if forall k :: k in metrics ==> metrics[k].Num? then
      Ok(MetricGroup(category, map k | k in metrics :: metrics[k].n))
    else
      Err(ValidationFailed)
  }
}
