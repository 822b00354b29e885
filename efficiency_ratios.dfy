/** The efficiency endpoints (`app/endpoints/ratios/efficiency_ratios.py`): turnovers and the
    matching 365-day periods from the latest balance sheet and income statement. None of them
    catches exceptions, so each 404 and 400 reaches the client as raised, and every success is
    dated with the income statement's calendar date. */
module EfficiencyRatios {
  import opened Common
  import opened Models

  const ZeroInventory: Fault := HttpError(400, Message("Inventory is zero, cannot calculate ratio"))
  const ZeroReceivables: Fault := HttpError(400, Message("Accounts receivable is zero, cannot calculate ratio"))
  const NoPayables: Fault := HttpError(400, Message("Accounts payable is zero or not available, cannot calculate ratio"))
  const ZeroTotalAssets: Fault := HttpError(400, Message("Total assets are zero, cannot calculate ratio"))

  const DaysPerYear: real := 365.0

  /** `cost_of_revenue / inventory` once `inventory == 0` has been rejected. */
  function InventoryTurnover(latest: Latest): (r: Result<real>)
    requires !IsZero(latest.balance.inventory)
    ensures r.Ok? <==> latest.balance.inventory.Some?
    ensures r.Err? ==> r.fault == NoneOperand
    ensures r.Ok? ==> r.value * latest.balance.inventory.value == latest.income.costOfRevenue
  {
    OptionalQuotient(Some(latest.income.costOfRevenue), latest.balance.inventory)
  }

  /** `revenue / trade_and_non_trade_receivables` once a zero receivable has been rejected. */
  function ReceivablesTurnover(latest: Latest): (r: Result<real>)
    requires !IsZero(latest.balance.tradeAndNonTradeReceivables)
    ensures r.Ok? <==> latest.balance.tradeAndNonTradeReceivables.Some?
    ensures r.Err? ==> r.fault == NoneOperand
    ensures r.Ok? ==> r.value * latest.balance.tradeAndNonTradeReceivables.value == latest.income.revenue
  {
    OptionalQuotient(Some(latest.income.revenue), latest.balance.tradeAndNonTradeReceivables)
  }

  /** `accounts_payable is None or accounts_payable == 0`, the payables guard. */
  predicate NoPayablesReported(bs: BalanceSheet) {
    bs.tradeAndNonTradePayables.None? || bs.tradeAndNonTradePayables.value == 0.0
  }

  // GET /inventory-turnover/{ticker}
  function GetInventoryTurnover(ticker: string, sheets: seq<BalanceSheet>, statements: seq<IncomeStatement>)
    : (r: Result<RatioResponse>)
    ensures BalanceSheetFirst(sheets, statements).Err? ==> r == Err(BalanceSheetFirst(sheets, statements).fault)
    ensures |sheets| > 0 && |statements| > 0 && IsZero(sheets[0].inventory) ==> r == Err(ZeroInventory)
    ensures |sheets| > 0 && |statements| > 0 && sheets[0].inventory.None? ==> r == Err(NoneOperand)
    ensures r.Ok? <==> |sheets| > 0 && |statements| > 0 && sheets[0].inventory.Some? && sheets[0].inventory.value != 0.0
    ensures r.Ok? ==>
      && Answers(r, ticker, "Inventory Turnover", statements[0].calendarDate)
      && RatioOf(r) * sheets[0].inventory.value == statements[0].costOfRevenue
  {
    var latest :- BalanceSheetFirst(sheets, statements);
    if IsZero(latest.balance.inventory) then Err(ZeroInventory)
    else
      var turnover :- InventoryTurnover(latest);
      Ok(Answer(ticker, "Inventory Turnover", turnover, latest.income.calendarDate))
  }

  // GET /stock-retention-period/{ticker}: a zero cost of revenue passes the guard and then
  // divides 365 by a zero turnover
  function GetStockRetentionPeriod(ticker: string, sheets: seq<BalanceSheet>, statements: seq<IncomeStatement>)
    : (r: Result<RatioResponse>)
    ensures BalanceSheetFirst(sheets, statements).Err? ==> r == Err(BalanceSheetFirst(sheets, statements).fault)
    ensures |sheets| > 0 && |statements| > 0 && IsZero(sheets[0].inventory) ==> r == Err(ZeroInventory)
    ensures |sheets| > 0 && |statements| > 0 && sheets[0].inventory.None? ==> r == Err(NoneOperand)
    ensures (|sheets| > 0 && |statements| > 0 && sheets[0].inventory.Some? && sheets[0].inventory.value != 0.0
             && statements[0].costOfRevenue == 0.0) ==> r == Err(ZeroDivision)
    ensures r.Ok? <==>
      |sheets| > 0 && |statements| > 0 && sheets[0].inventory.Some? && sheets[0].inventory.value != 0.0
      && statements[0].costOfRevenue != 0.0
    ensures r.Ok? ==>
      && Answers(r, ticker, "Stock Retention Period", statements[0].calendarDate)
      && RatioOf(r) * statements[0].costOfRevenue == DaysPerYear * sheets[0].inventory.value
  {
    var latest :- BalanceSheetFirst(sheets, statements);
    if IsZero(latest.balance.inventory) then Err(ZeroInventory)
    else
      var turnover :- InventoryTurnover(latest);
      var period :- Div(DaysPerYear, turnover);
      Ok(Answer(ticker, "Stock Retention Period", period, latest.income.calendarDate))
  }

  // GET /accounts-receivable-turnover/{ticker}
  function GetReceivablesTurnover(ticker: string, sheets: seq<BalanceSheet>, statements: seq<IncomeStatement>)
    : (r: Result<RatioResponse>)
    ensures BalanceSheetFirst(sheets, statements).Err? ==> r == Err(BalanceSheetFirst(sheets, statements).fault)
    ensures |sheets| > 0 && |statements| > 0 && IsZero(sheets[0].tradeAndNonTradeReceivables) ==> r == Err(ZeroReceivables)
    ensures |sheets| > 0 && |statements| > 0 && sheets[0].tradeAndNonTradeReceivables.None? ==> r == Err(NoneOperand)
    ensures r.Ok? <==>
      |sheets| > 0 && |statements| > 0
      && sheets[0].tradeAndNonTradeReceivables.Some? && sheets[0].tradeAndNonTradeReceivables.value != 0.0
    ensures r.Ok? ==>
      && Answers(r, ticker, "Accounts Receivable Turnover", statements[0].calendarDate)
      && RatioOf(r) * sheets[0].tradeAndNonTradeReceivables.value == statements[0].revenue
  {
    var latest :- BalanceSheetFirst(sheets, statements);
    if IsZero(latest.balance.tradeAndNonTradeReceivables) then Err(ZeroReceivables)
    else
      var turnover :- ReceivablesTurnover(latest);
      Ok(Answer(ticker, "Accounts Receivable Turnover", turnover, latest.income.calendarDate))
  }

  // GET /collection-period/{ticker}
  function GetCollectionPeriod(ticker: string, sheets: seq<BalanceSheet>, statements: seq<IncomeStatement>)
    : (r: Result<RatioResponse>)
    ensures BalanceSheetFirst(sheets, statements).Err? ==> r == Err(BalanceSheetFirst(sheets, statements).fault)
    ensures |sheets| > 0 && |statements| > 0 && IsZero(sheets[0].tradeAndNonTradeReceivables) ==> r == Err(ZeroReceivables)
    ensures |sheets| > 0 && |statements| > 0 && sheets[0].tradeAndNonTradeReceivables.None? ==> r == Err(NoneOperand)
    ensures (|sheets| > 0 && |statements| > 0
             && sheets[0].tradeAndNonTradeReceivables.Some? && sheets[0].tradeAndNonTradeReceivables.value != 0.0
             && statements[0].revenue == 0.0) ==> r == Err(ZeroDivision)
    ensures r.Ok? <==>
      |sheets| > 0 && |statements| > 0
      && sheets[0].tradeAndNonTradeReceivables.Some? && sheets[0].tradeAndNonTradeReceivables.value != 0.0
      && statements[0].revenue != 0.0
    ensures r.Ok? ==>
      && Answers(r, ticker, "Collection Period", statements[0].calendarDate)
      && RatioOf(r) * statements[0].revenue == DaysPerYear * sheets[0].tradeAndNonTradeReceivables.value
  {
    var latest :- BalanceSheetFirst(sheets, statements);
    if IsZero(latest.balance.tradeAndNonTradeReceivables) then Err(ZeroReceivables)
    else
      var turnover :- ReceivablesTurnover(latest);
      var period :- Div(DaysPerYear, turnover);
      Ok(Answer(ticker, "Collection Period", period, latest.income.calendarDate))
  }

  // GET /accounts-payable-turnover/{ticker}: purchases are estimated by the cost of revenue
  function GetPayablesTurnover(ticker: string, sheets: seq<BalanceSheet>, statements: seq<IncomeStatement>)
    : (r: Result<RatioResponse>)
    ensures BalanceSheetFirst(sheets, statements).Err? ==> r == Err(BalanceSheetFirst(sheets, statements).fault)
    ensures |sheets| > 0 && |statements| > 0 && NoPayablesReported(sheets[0]) ==> r == Err(NoPayables)
    ensures r.Ok? <==> |sheets| > 0 && |statements| > 0 && !NoPayablesReported(sheets[0])
    ensures r.Ok? ==>
      && Answers(r, ticker, "Accounts Payable Turnover", statements[0].calendarDate)
      && RatioOf(r) * sheets[0].tradeAndNonTradePayables.value == statements[0].costOfRevenue
  {
    var latest :- BalanceSheetFirst(sheets, statements);
    if NoPayablesReported(latest.balance) then Err(NoPayables)
    else
      var turnover := latest.income.costOfRevenue / latest.balance.tradeAndNonTradePayables.value;
      Ok(Answer(ticker, "Accounts Payable Turnover", turnover, latest.income.calendarDate))
  }

  // GET /payment-period/{ticker}
  function GetPaymentPeriod(ticker: string, sheets: seq<BalanceSheet>, statements: seq<IncomeStatement>)
    : (r: Result<RatioResponse>)
    ensures BalanceSheetFirst(sheets, statements).Err? ==> r == Err(BalanceSheetFirst(sheets, statements).fault)
    ensures |sheets| > 0 && |statements| > 0 && NoPayablesReported(sheets[0]) ==> r == Err(NoPayables)
    ensures (|sheets| > 0 && |statements| > 0 && !NoPayablesReported(sheets[0])
             && statements[0].costOfRevenue == 0.0) ==> r == Err(ZeroDivision)
    ensures r.Ok? <==>
      |sheets| > 0 && |statements| > 0 && !NoPayablesReported(sheets[0]) && statements[0].costOfRevenue != 0.0
    ensures r.Ok? ==>
      && Answers(r, ticker, "Payment Period", statements[0].calendarDate)
      && RatioOf(r) * statements[0].costOfRevenue == DaysPerYear * sheets[0].tradeAndNonTradePayables.value
  {
    var latest :- BalanceSheetFirst(sheets, statements);
    if NoPayablesReported(latest.balance) then Err(NoPayables)
    else
      var turnover := latest.income.costOfRevenue / latest.balance.tradeAndNonTradePayables.value;
      var period :- Div(DaysPerYear, turnover);
      Ok(Answer(ticker, "Payment Period", period, latest.income.calendarDate))
  }

  // GET /asset-turnover/{ticker}: `revenues` is the statement's `revenues` amount
  function GetAssetTurnover(ticker: string, sheets: seq<BalanceSheet>, statements: seq<IncomeStatement>, revenues: real)
    : (r: Result<RatioResponse>)
    ensures BalanceSheetFirst(sheets, statements).Err? ==> r == Err(BalanceSheetFirst(sheets, statements).fault)
    ensures |sheets| > 0 && |statements| > 0 && sheets[0].totalAssets == 0.0 ==> r == Err(ZeroTotalAssets)
    ensures r.Ok? <==> |sheets| > 0 && |statements| > 0 && sheets[0].totalAssets != 0.0
    ensures r.Ok? ==>
      && Answers(r, ticker, "Asset Turnover", statements[0].calendarDate)
      && RatioOf(r) * sheets[0].totalAssets == revenues
  {
    var latest :- BalanceSheetFirst(sheets, statements);
    if latest.balance.totalAssets == 0.0 then Err(ZeroTotalAssets)
    else Ok(Answer(ticker, "Asset Turnover", revenues / latest.balance.totalAssets, latest.income.calendarDate))
  }

  /** The stock retention period is 365 days over the inventory turnover: when the period is
      defined so is the turnover, and their product is 365. */
  lemma StockRetentionTimesTurnover(ticker: string, sheets: seq<BalanceSheet>, statements: seq<IncomeStatement>)
    requires GetStockRetentionPeriod(ticker, sheets, statements).Ok?
    ensures GetInventoryTurnover(ticker, sheets, statements).Ok?
    ensures RatioOf(GetStockRetentionPeriod(ticker, sheets, statements)) * RatioOf(GetInventoryTurnover(ticker, sheets, statements))
         == DaysPerYear
  {
    PeriodTimesTurnover(RatioOf(GetStockRetentionPeriod(ticker, sheets, statements)),
                        RatioOf(GetInventoryTurnover(ticker, sheets, statements)),
                        statements[0].costOfRevenue, sheets[0].inventory.value);
  }

  /** The collection period is 365 days over the receivables turnover. */
  lemma CollectionTimesTurnover(ticker: string, sheets: seq<BalanceSheet>, statements: seq<IncomeStatement>)
    requires GetCollectionPeriod(ticker, sheets, statements).Ok?
    ensures GetReceivablesTurnover(ticker, sheets, statements).Ok?
    ensures RatioOf(GetCollectionPeriod(ticker, sheets, statements)) * RatioOf(GetReceivablesTurnover(ticker, sheets, statements))
         == DaysPerYear
  {
    PeriodTimesTurnover(RatioOf(GetCollectionPeriod(ticker, sheets, statements)),
                        RatioOf(GetReceivablesTurnover(ticker, sheets, statements)),
                        statements[0].revenue, sheets[0].tradeAndNonTradeReceivables.value);
  }

  /** The payment period is 365 days over the payables turnover. */
  lemma PaymentTimesTurnover(ticker: string, sheets: seq<BalanceSheet>, statements: seq<IncomeStatement>)
    requires GetPaymentPeriod(ticker, sheets, statements).Ok?
    ensures GetPayablesTurnover(ticker, sheets, statements).Ok?
    ensures RatioOf(GetPaymentPeriod(ticker, sheets, statements)) * RatioOf(GetPayablesTurnover(ticker, sheets, statements))
         == DaysPerYear
  {
    PeriodTimesTurnover(RatioOf(GetPaymentPeriod(ticker, sheets, statements)),
                        RatioOf(GetPayablesTurnover(ticker, sheets, statements)),
                        statements[0].costOfRevenue, sheets[0].tradeAndNonTradePayables.value);
  }

  /** From period * flow = 365 * stock and turnover * stock = flow, period * turnover = 365. */
  lemma PeriodTimesTurnover(period: real, turnover: real, flow: real, stock: real)
    requires flow != 0.0 && stock != 0.0
    requires period * flow == DaysPerYear * stock && turnover * stock == flow
    ensures period * turnover == DaysPerYear
  {
    assert (period * turnover) * stock == period * flow;
    EqualAfterScaling(period * turnover, DaysPerYear, stock);
  }
}
