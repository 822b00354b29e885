/** The statement records of `models.py` and the ratio response record.

    Each record is a pydantic model: building one from a payload checks that every
    required field is present with the right type, turns every absent optional field
    into `None`, and silently drops every key the record does not declare. `Parse*`
    model that validation over a payload of JSON scalars. Dates are kept as the
    ISO text the upstream API sends. */
module Models {
  import opened Common

  type Date = string

  /** A JSON object as the upstream API sends it (or keyword arguments of a constructor). */
  type Payload = map<string, Value>

  /** The declared fields of a record, by how pydantic treats them. */
  datatype Schema = Schema(texts: set<string>, numbers: set<string>, optionals: set<string>)

  /** Payload `p` validates against schema `s`: required text and number fields are present
      with that type, and optional number fields are absent, null or a number. */
  predicate Conforms(p: Payload, s: Schema) {
    && (forall k :: k in s.texts ==> k in p && p[k].Text?)
    && (forall k :: k in s.numbers ==> k in p && p[k].Num?)
    && (forall k :: k in s.optionals && k in p ==> !p[k].Text?)
  }

  function TextAt(p: Payload, k: string): string {
    if k in p && p[k].Text? then p[k].s else ""
  }

  /** The value an `Optional[float]` field takes: absent and null both give `None`. */
  function NumberAt(p: Payload, k: string): Option<real> {
    if k in p && p[k].Num? then Some(p[k].n) else None
  }

  function RequiredAt(p: Payload, k: string): real {
    if k in p && p[k].Num? then p[k].n else 0.0
  }

  const HeaderTexts: set<string> := {"ticker", "calendar_date", "report_period", "period", "currency"}

  // ---------------------------------------------------------------------------------------
  // IncomeStatementModel

  datatype IncomeStatement = IncomeStatement(
    ticker: string, calendarDate: Date, reportPeriod: Date, period: string, currency: string,
    revenue: real,
    costOfRevenue: real,
    grossProfit: real,
    operatingExpense: real,
    sellingGeneralAndAdministrativeExpenses: Option<real>,
    researchAndDevelopment: Option<real>,
    operatingIncome: real,
    interestExpense: Option<real>,
    ebit: real,
    incomeTaxExpense: Option<real>,
    netIncomeDiscontinuedOperations: Option<real>,
    netIncomeNonControllingInterests: Option<real>,
    netIncome: real,
    netIncomeCommonStock: Option<real>,
    preferredDividendsImpact: Option<real>,
    consolidatedIncome: real,
    earningsPerShare: real,
    earningsPerShareDiluted: Option<real>,
    dividendsPerCommonShare: Option<real>,
    weightedAverageShares: real,
    weightedAverageSharesDiluted: Option<real>)

  const IncomeSchema := Schema(
    HeaderTexts,
    {"revenue", "cost_of_revenue", "gross_profit", "operating_expense", "operating_income", "ebit",
     "net_income", "consolidated_income", "earnings_per_share", "weighted_average_shares"},
    {"selling_general_and_administrative_expenses", "research_and_development", "interest_expense",
     "income_tax_expense", "net_income_discontinued_operations", "net_income_non_controlling_interests",
     "net_income_common_stock", "preferred_dividends_impact", "earnings_per_share_diluted",
     "dividends_per_common_share", "weighted_average_shares_diluted"})

  /** `IncomeStatementModel(**p)`. */
  function ParseIncomeStatement(p: Payload): (r: Result<IncomeStatement>)
    ensures r.Ok? <==> Conforms(p, IncomeSchema)
    ensures r.Err? ==> r.fault == ValidationFailed
    ensures r.Ok? ==> IncomeSchema.numbers <= p.Keys
    ensures r.Ok? ==> r.value.ticker == p["ticker"].s && r.value.calendarDate == p["calendar_date"].s
    ensures r.Ok? ==> && p["revenue"] == Num(r.value.revenue)
                      && p["cost_of_revenue"] == Num(r.value.costOfRevenue)
                      && p["gross_profit"] == Num(r.value.grossProfit)
                      && p["operating_expense"] == Num(r.value.operatingExpense)
                      && p["operating_income"] == Num(r.value.operatingIncome)
                      && p["ebit"] == Num(r.value.ebit)
                      && p["net_income"] == Num(r.value.netIncome)
                      && p["consolidated_income"] == Num(r.value.consolidatedIncome)
                      && p["earnings_per_share"] == Num(r.value.earningsPerShare)
                      && p["weighted_average_shares"] == Num(r.value.weightedAverageShares)
    ensures r.Ok? ==> && r.value.sellingGeneralAndAdministrativeExpenses == NumberAt(p, "selling_general_and_administrative_expenses")
                      && r.value.researchAndDevelopment == NumberAt(p, "research_and_development")
                      && r.value.interestExpense == NumberAt(p, "interest_expense")
                      && r.value.incomeTaxExpense == NumberAt(p, "income_tax_expense")
                      && r.value.netIncomeDiscontinuedOperations == NumberAt(p, "net_income_discontinued_operations")
                      && r.value.netIncomeNonControllingInterests == NumberAt(p, "net_income_non_controlling_interests")
                      && r.value.netIncomeCommonStock == NumberAt(p, "net_income_common_stock")
                      && r.value.preferredDividendsImpact == NumberAt(p, "preferred_dividends_impact")
                      && r.value.earningsPerShareDiluted == NumberAt(p, "earnings_per_share_diluted")
                      && r.value.dividendsPerCommonShare == NumberAt(p, "dividends_per_common_share")
                      && r.value.weightedAverageSharesDiluted == NumberAt(p, "weighted_average_shares_diluted")
  {
    if !Conforms(p, IncomeSchema) then Err(ValidationFailed)
    else Ok(IncomeStatement(
      TextAt(p, "ticker"), TextAt(p, "calendar_date"), TextAt(p, "report_period"),
      TextAt(p, "period"), TextAt(p, "currency"),
      RequiredAt(p, "revenue"),
      RequiredAt(p, "cost_of_revenue"),
      RequiredAt(p, "gross_profit"),
      RequiredAt(p, "operating_expense"),
      NumberAt(p, "selling_general_and_administrative_expenses"),
      NumberAt(p, "research_and_development"),
      RequiredAt(p, "operating_income"),
      NumberAt(p, "interest_expense"),
      RequiredAt(p, "ebit"),
      NumberAt(p, "income_tax_expense"),
      NumberAt(p, "net_income_discontinued_operations"),
      NumberAt(p, "net_income_non_controlling_interests"),
      RequiredAt(p, "net_income"),
      NumberAt(p, "net_income_common_stock"),
      NumberAt(p, "preferred_dividends_impact"),
      RequiredAt(p, "consolidated_income"),
      RequiredAt(p, "earnings_per_share"),
      NumberAt(p, "earnings_per_share_diluted"),
      NumberAt(p, "dividends_per_common_share"),
      RequiredAt(p, "weighted_average_shares"),
      NumberAt(p, "weighted_average_shares_diluted")))
  }

  /** Every key the schema declares; pydantic ignores the others. */
  function Declared(s: Schema): set<string> {
    s.texts + s.numbers + s.optionals
  }

  /** Setting a key schema `s` does not declare changes neither whether a payload conforms
      nor what any declared field reads. */
  lemma UndeclaredKeyUnseen(p: Payload, k: string, v: Value, s: Schema)
    requires k !in Declared(s)
    ensures Conforms(p[k := v], s) == Conforms(p, s)
    ensures forall j :: j in Declared(s) ==>
      && TextAt(p[k := v], j) == TextAt(p, j)
      && NumberAt(p[k := v], j) == NumberAt(p, j)
      && RequiredAt(p[k := v], j) == RequiredAt(p, j)
  {
    var q := p[k := v];
    assert forall j :: j in Declared(s) ==> (j in q <==> j in p) && (j in p ==> q[j] == p[j]);
  }

  /** A key `IncomeStatementModel` does not declare (such as `revenues` or `dividends`) leaves the
      parsed record unchanged: its value is not kept anywhere. */
  lemma IncomeIgnoresUndeclared(p: Payload, k: string, v: Value)
    requires k !in Declared(IncomeSchema)
    ensures ParseIncomeStatement(p[k := v]) == ParseIncomeStatement(p)
  {
    UndeclaredKeyUnseen(p, k, v, IncomeSchema);
  }

  // ---------------------------------------------------------------------------------------
  // BalanceSheetModel

  datatype BalanceSheet = BalanceSheet(
    ticker: string, calendarDate: Date, reportPeriod: Date, period: string, currency: string,
    totalAssets: real,
    currentAssets: Option<real>,
    cashAndEquivalents: Option<real>,
    inventory: Option<real>,
    currentInvestments: Option<real>,
    tradeAndNonTradeReceivables: Option<real>,
    nonCurrentAssets: Option<real>,
    propertyPlantAndEquipment: Option<real>,
    goodwillAndIntangibleAssets: Option<real>,
    investments: Option<real>,
    nonCurrentInvestments: Option<real>,
    outstandingShares: Option<real>,
    taxAssets: Option<real>,
    totalLiabilities: real,
    currentLiabilities: Option<real>,
    currentDebt: Option<real>,
    tradeAndNonTradePayables: Option<real>,
    deferredRevenue: Option<real>,
    depositLiabilities: Option<real>,
    nonCurrentLiabilities: Option<real>,
    nonCurrentDebt: Option<real>,
    taxLiabilities: Option<real>,
    shareholdersEquity: real,
    retainedEarnings: Option<real>,
    accumulatedOtherComprehensiveIncome: Option<real>,
    totalDebt: Option<real>)

  const BalanceSchema := Schema(
    HeaderTexts,
    {"total_assets", "total_liabilities", "shareholders_equity"},
    {"current_assets", "cash_and_equivalents", "inventory", "current_investments",
     "trade_and_non_trade_receivables", "non_current_assets", "property_plant_and_equipment",
     "goodwill_and_intangible_assets", "investments", "non_current_investments", "outstanding_shares",
     "tax_assets", "current_liabilities", "current_debt", "trade_and_non_trade_payables",
     "deferred_revenue", "deposit_liabilities", "non_current_liabilities", "non_current_debt",
     "tax_liabilities", "retained_earnings", "accumulated_other_comprehensive_income", "total_debt"})

  /** `BalanceSheetModel(**p)`. */
  function ParseBalanceSheet(p: Payload): (r: Result<BalanceSheet>)
    ensures r.Ok? <==> Conforms(p, BalanceSchema)
    ensures r.Err? ==> r.fault == ValidationFailed
    ensures r.Ok? ==> BalanceSchema.numbers <= p.Keys
    ensures r.Ok? ==> r.value.ticker == p["ticker"].s && r.value.calendarDate == p["calendar_date"].s
    ensures r.Ok? ==> && p["total_assets"] == Num(r.value.totalAssets)
                      && p["total_liabilities"] == Num(r.value.totalLiabilities)
                      && p["shareholders_equity"] == Num(r.value.shareholdersEquity)
    ensures r.Ok? ==> && r.value.currentAssets == NumberAt(p, "current_assets")
                      && r.value.cashAndEquivalents == NumberAt(p, "cash_and_equivalents")
                      && r.value.currentLiabilities == NumberAt(p, "current_liabilities")
                      && r.value.inventory == NumberAt(p, "inventory")
                      && r.value.tradeAndNonTradeReceivables == NumberAt(p, "trade_and_non_trade_receivables")
                      && r.value.tradeAndNonTradePayables == NumberAt(p, "trade_and_non_trade_payables")
                      && r.value.outstandingShares == NumberAt(p, "outstanding_shares")
  {
    if !Conforms(p, BalanceSchema) then Err(ValidationFailed)
    else Ok(BalanceSheet(
      TextAt(p, "ticker"), TextAt(p, "calendar_date"), TextAt(p, "report_period"),
      TextAt(p, "period"), TextAt(p, "currency"),
      RequiredAt(p, "total_assets"),
      NumberAt(p, "current_assets"),
      NumberAt(p, "cash_and_equivalents"),
      NumberAt(p, "inventory"),
      NumberAt(p, "current_investments"),
      NumberAt(p, "trade_and_non_trade_receivables"),
      NumberAt(p, "non_current_assets"),
      NumberAt(p, "property_plant_and_equipment"),
      NumberAt(p, "goodwill_and_intangible_assets"),
      NumberAt(p, "investments"),
      NumberAt(p, "non_current_investments"),
      NumberAt(p, "outstanding_shares"),
      NumberAt(p, "tax_assets"),
      RequiredAt(p, "total_liabilities"),
      NumberAt(p, "current_liabilities"),
      NumberAt(p, "current_debt"),
      NumberAt(p, "trade_and_non_trade_payables"),
      NumberAt(p, "deferred_revenue"),
      NumberAt(p, "deposit_liabilities"),
      NumberAt(p, "non_current_liabilities"),
      NumberAt(p, "non_current_debt"),
      NumberAt(p, "tax_liabilities"),
      RequiredAt(p, "shareholders_equity"),
      NumberAt(p, "retained_earnings"),
      NumberAt(p, "accumulated_other_comprehensive_income"),
      NumberAt(p, "total_debt")))
  }

  /** A key `BalanceSheetModel` does not declare (such as `total_equity` or `shares_outstanding`)
      leaves the parsed record unchanged. */
  lemma BalanceIgnoresUndeclared(p: Payload, k: string, v: Value)
    requires k !in Declared(BalanceSchema)
    ensures ParseBalanceSheet(p[k := v]) == ParseBalanceSheet(p)
  {
    UndeclaredKeyUnseen(p, k, v, BalanceSchema);
  }

  // ---------------------------------------------------------------------------------------
  // CashFlowStatementModel

  datatype CashFlowStatement = CashFlowStatement(
    ticker: string, calendarDate: Date, reportPeriod: Date, period: string, currency: string,
    netCashFlowFromOperations: real,
    depreciationAndAmortization: Option<real>,
    shareBasedCompensation: Option<real>,
    netCashFlowFromInvesting: real,
    capitalExpenditure: Option<real>,
    businessAcquisitionsAndDisposals: Option<real>,
    investmentAcquisitionsAndDisposals: Option<real>,
    netCashFlowFromFinancing: real,
    issuanceOrRepaymentOfDebtSecurities: Option<real>,
    issuanceOrPurchaseOfEquityShares: Option<real>,
    dividendsAndOtherCashDistributions: Option<real>,
    changeInCashAndEquivalents: real,
    effectOfExchangeRateChanges: Option<real>)

  const CashFlowSchema := Schema(
    HeaderTexts,
    {"net_cash_flow_from_operations", "net_cash_flow_from_investing", "net_cash_flow_from_financing",
     "change_in_cash_and_equivalents"},
    {"depreciation_and_amortization", "share_based_compensation", "capital_expenditure",
     "business_acquisitions_and_disposals", "investment_acquisitions_and_disposals",
     "issuance_or_repayment_of_debt_securities", "issuance_or_purchase_of_equity_shares",
     "dividends_and_other_cash_distributions", "effect_of_exchange_rate_changes"})

  /** `CashFlowStatementModel(**p)`. */
  function ParseCashFlowStatement(p: Payload): (r: Result<CashFlowStatement>)
    ensures r.Ok? <==> Conforms(p, CashFlowSchema)
    ensures r.Err? ==> r.fault == ValidationFailed
    ensures r.Ok? ==> CashFlowSchema.numbers <= p.Keys
    ensures r.Ok? ==> && p["net_cash_flow_from_operations"] == Num(r.value.netCashFlowFromOperations)
                      && p["net_cash_flow_from_investing"] == Num(r.value.netCashFlowFromInvesting)
                      && p["net_cash_flow_from_financing"] == Num(r.value.netCashFlowFromFinancing)
                      && p["change_in_cash_and_equivalents"] == Num(r.value.changeInCashAndEquivalents)
    ensures r.Ok? ==> && r.value.depreciationAndAmortization == NumberAt(p, "depreciation_and_amortization")
                      && r.value.dividendsAndOtherCashDistributions == NumberAt(p, "dividends_and_other_cash_distributions")
  {
    if !Conforms(p, CashFlowSchema) then Err(ValidationFailed)
    else Ok(CashFlowStatement(
      TextAt(p, "ticker"), TextAt(p, "calendar_date"), TextAt(p, "report_period"),
      TextAt(p, "period"), TextAt(p, "currency"),
      RequiredAt(p, "net_cash_flow_from_operations"),
      NumberAt(p, "depreciation_and_amortization"),
      NumberAt(p, "share_based_compensation"),
      RequiredAt(p, "net_cash_flow_from_investing"),
      NumberAt(p, "capital_expenditure"),
      NumberAt(p, "business_acquisitions_and_disposals"),
      NumberAt(p, "investment_acquisitions_and_disposals"),
      RequiredAt(p, "net_cash_flow_from_financing"),
      NumberAt(p, "issuance_or_repayment_of_debt_securities"),
      NumberAt(p, "issuance_or_purchase_of_equity_shares"),
      NumberAt(p, "dividends_and_other_cash_distributions"),
      RequiredAt(p, "change_in_cash_and_equivalents"),
      NumberAt(p, "effect_of_exchange_rate_changes")))
  }

  // ---------------------------------------------------------------------------------------
  // RatioResponse

  /** The unit every single-ratio endpoint returns. `ratio_value` is optional (default `None`),
      `date` is required, and there is no `error` field. */
  datatype RatioResponse = RatioResponse(ticker: string, ratioName: string, ratioValue: Option<real>, date: Date)

  /** `RatioResponse(ticker=..., ratio_name=..., ratio_value=..., date=...)`; any further keyword
      argument (such as `error=...`) is dropped by pydantic and so is not a parameter here. */
  function MakeRatioResponse(ticker: Value, ratioName: Value, ratioValue: Value, date: Value): (r: Result<RatioResponse>)
    ensures r.Ok? <==> ticker.Text? && ratioName.Text? && !ratioValue.Text? && date.Text?
    ensures r.Err? ==> r.fault == ValidationFailed
    ensures r.Ok? ==> && r.value.ticker == ticker.s && r.value.ratioName == ratioName.s && r.value.date == date.s
                      && (r.value.ratioValue.Some? <==> ratioValue.Num?)
                      && (ratioValue.Num? ==> r.value.ratioValue.value == ratioValue.n)
  {
    if ticker.Text? && ratioName.Text? && !ratioValue.Text? && date.Text? then
      Ok(RatioResponse(ticker.s, ratioName.s, if ratioValue.Num? then Some(ratioValue.n) else None, date.s))
    else
      Err(ValidationFailed)
  }

  /** A ratio endpoint's successful answer: the echoed ticker, the ratio's display name, its value and date. */
  function Answer(ticker: string, ratioName: string, value: real, date: Date): (r: RatioResponse)
    ensures MakeRatioResponse(Text(ticker), Text(ratioName), Num(value), Text(date)) == Ok(r)
  {
    RatioResponse(ticker, ratioName, Some(value), date)
  }

  /** `r` is a successful ratio response for `ticker` named `name`, dated `date`, with a value. */
  predicate Answers(r: Result<RatioResponse>, ticker: string, name: string, date: Date) {
    && r.Ok? && r.value.ticker == ticker && r.value.ratioName == name && r.value.date == date
    && r.value.ratioValue.Some?
  }

  /** The ratio value of a successful response. */
  function RatioOf(r: Result<RatioResponse>): real
    requires r.Ok? && r.value.ratioValue.Some?
  {
    r.value.ratioValue.value
  }

  const BalanceSheetNotFound: Fault := HttpError(404, Message("Balance sheet data not found"))
  const IncomeStatementNotFound: Fault := HttpError(404, Message("Income statement data not found"))

  /** The latest balance sheet and income statement an endpoint works from. */
  datatype Latest = Latest(balance: BalanceSheet, income: IncomeStatement)

  /** The two emptiness checks of an endpoint that tests the balance sheets first. */
  function BalanceSheetFirst(sheets: seq<BalanceSheet>, statements: seq<IncomeStatement>): (r: Result<Latest>)
    ensures |sheets| == 0 ==> r == Err(BalanceSheetNotFound)
    ensures |sheets| > 0 && |statements| == 0 ==> r == Err(IncomeStatementNotFound)
    ensures r.Ok? <==> |sheets| > 0 && |statements| > 0
    ensures r.Ok? ==> r.value == Latest(sheets[0], statements[0])
  {
    if |sheets| == 0 then Err(BalanceSheetNotFound)
    else if |statements| == 0 then Err(IncomeStatementNotFound)
    else Ok(Latest(sheets[0], statements[0]))
  }

  /** The two emptiness checks of an endpoint that tests the income statements first. */
  function IncomeStatementFirst(sheets: seq<BalanceSheet>, statements: seq<IncomeStatement>): (r: Result<Latest>)
    ensures |statements| == 0 ==> r == Err(IncomeStatementNotFound)
    ensures |statements| > 0 && |sheets| == 0 ==> r == Err(BalanceSheetNotFound)
    ensures r.Ok? <==> |sheets| > 0 && |statements| > 0
    ensures r.Ok? ==> r.value == Latest(sheets[0], statements[0])
  {
    if |statements| == 0 then Err(IncomeStatementNotFound)
    else if |sheets| == 0 then Err(BalanceSheetNotFound)
    else Ok(Latest(sheets[0], statements[0]))
  }
}
