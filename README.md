# Financial-ratio engine of ai-fund-fastapi, modelled in Dafny

The repository re-exposes financial statements fetched from an upstream data API and computes
standard ratios from them. This project models its ratio engine:

- the statement records and the ratio response of `models.py`, including how pydantic
  validates them (`Models`);
- the two revisions of the dict-based `FinancialMetrics` calculators:
  - `app/agents/financial_metrics.py`, whose equity base is `total_assets + total_liabilities`
    (`FinancialMetrics`);
  - `app/agents/financial_analysis_agent.py`, whose equity base is `total_equity`
    (`AnalysisMetrics`);
- the grouped-metrics endpoint and its response schema (`GroupedMetricsEndpoint`, `MetricSchemas`);
- every single-ratio endpoint:
  - liquidity, leverage and efficiency (`LiquidityRatios`, `LeverageRatios`, `EfficiencyRatios`);
  - profitability, economic value and stock performance (`ProfitabilityRatios`,
    `EconomicValueRatios`, `StockPerformanceRatios`);
  - the backend copies of DuPont and EBITDA (`DupontAnalysis`, `EbitdaRatios`);
- the `/all-ratios` aggregation loop (`AllRatiosEndpoint`);
- the valuation models of `backend/financial_models.py`: DCF and the price multiples (`Valuation`).

Every Python exception is an `Err` carrying the `Fault` Python would raise (`Common`):
- a `fastapi.HTTPException` with its status and detail;
- `ZeroDivisionError`;
- a `TypeError` from arithmetic on `None`;
- `KeyError`, `IndexError`;
- a pydantic `ValidationError`.

Each operation checks its guards in the source's order, so a result states which error wins. A
blanket `except Exception` re-raises as a 500 whose detail wraps the original error; the model
calls that `Internal`. Amounts are real numbers.

Points where the code behaves in a way a reader might not expect:

- A zero denominator in a calculator raises for the whole dict. No ratio gets an error marker of
  its own.
- The grouped-metrics endpoint fails as a whole when any calculator raises. It also fails when the
  stock calculator returns its `{"error": ...}` dict, which a `Dict[str, float]` field rejects.
- Only one period is computed per request.
- The two calculator revisions differ: solvency, leverage, return on equity and economic value use
  different denominators. EBITDA adds back depreciation in one revision and not in the other. Both
  revisions are modelled as written, and the DuPont identity is proved for each with its own
  equity base.
- The EBITDA endpoint takes EBIT itself for EBITDA.

## Model

| member | source | states |
|---|---|---|
| Common.CatchAll | app/endpoints/ratios/liquidity_ratios.py:33-34 | any error of the guarded block, HTTP 404/400 included, becomes a 500 whose detail wraps it; a result passes through unchanged |
| Common.Div | app/agents/financial_metrics.py:9 | a float division answers exactly when the divisor is non-zero, and the quotient times the divisor is the dividend; otherwise a ZeroDivisionError |
| Common.OptionalQuotient | app/endpoints/ratios/liquidity_ratios.py:25 | dividing two optional fields, once a zero divisor is ruled out, answers exactly when both are present, with quotient times divisor equal to the dividend; a None operand is a TypeError |
| Common.OptionalDifference | app/endpoints/ratios/liquidity_ratios.py:55 | subtracting two optional fields answers exactly when both are present, and the difference plus the subtrahend is the minuend; a None operand is a TypeError |
| Common.Get | app/agents/financial_metrics.py:8-11 | a dict lookup yields the stored value, or a KeyError naming the missing key |
| Common.Number | app/endpoints/ratios/liquidity_ratios.py:25 | arithmetic on an optional field yields its value, or a TypeError when it is None |
| Models.Conforms | models.py:17-43 | (definition) pydantic's acceptance rule: every required text and number field is present with that type, and every optional number is absent, null or a number; the parse functions are Ok exactly when it holds |
| Models.ParseIncomeStatement | models.py:17-43 | a payload is accepted exactly when every required field is present with its type and no optional field holds text; the record carries the payload's amounts, absent optionals become None |
| Models.IncomeIgnoresUndeclared | models.py:17-43 | a key the income-statement model does not declare (such as `revenues` or `dividends`) does not change the parsed record |
| Models.ParseBalanceSheet | models.py:48-79 | same acceptance rule for balance sheets; the record carries the required amounts and the optional ones the endpoints read |
| Models.BalanceIgnoresUndeclared | models.py:48-79 | `total_equity` and `shares_outstanding`, undeclared, do not reach the parsed balance sheet |
| Models.ParseCashFlowStatement | models.py:84-102 | same acceptance rule for cash-flow statements |
| Models.MakeRatioResponse | models.py:146-150 | a ratio response needs text ticker, name and date, and a number or null value; anything else, a null date included, is a validation error |
| Models.Answer | models.py:146-150 | a computed ratio always makes a valid response carrying that ratio |
| Models.BalanceSheetFirst | app/endpoints/ratios/efficiency_ratios.py:15-22 | an empty balance-sheet list gives the balance-sheet 404 before the income statements are looked at; otherwise the latest of each |
| Models.IncomeStatementFirst | app/endpoints/ratios/profitability_ratios.py:45-51 | the income-statement 404 comes first; otherwise the latest of each |
| FinancialMetrics.Liquidity | app/agents/financial_metrics.py:7-12 | defined exactly when the four keys exist and current liabilities are non-zero; the three ratios share that denominator and the acid test is the current ratio less inventory per liability |
| FinancialMetrics.Ebitda | app/agents/financial_metrics.py:14-18 | EBITDA is EBIT plus depreciation and amortisation, and the margin times `revenues` is EBITDA |
| FinancialMetrics.Leverage | app/agents/financial_metrics.py:20-25 | debt ratio and solvency over total assets, leverage over liabilities plus equity; defined exactly when both denominators are non-zero |
| FinancialMetrics.SolvencyTimesLeverage | app/agents/financial_metrics.py:23-24 | solvency times leverage is exactly 1 |
| FinancialMetrics.EfficiencyTurnovers | app/agents/financial_metrics.py:28-31 | the four turnovers, each defined by its denominator and failing on the first zero or missing key |
| FinancialMetrics.Efficiency | app/agents/financial_metrics.py:27-41 | seven entries; each period times its turnover is 365 |
| FinancialMetrics.Profitability | app/agents/financial_metrics.py:43-48 | sales margin, ROA and ROE over total assets plus total liabilities, each times its denominator giving net income |
| FinancialMetrics.Dupont | app/agents/financial_metrics.py:50-55 | sales margin, asset turnover and leverage as quotients of their operands |
| FinancialMetrics.DupontIsReturnOnEquity | app/agents/financial_metrics.py:43-55 | whenever the DuPont ratios exist, their product is profitability's return on equity |
| FinancialMetrics.EconomicValue | app/agents/financial_metrics.py:57-74 | defined exactly when the DuPont ratios are; margin is their product less the cost of equity, EVA the margin times the equity base |
| FinancialMetrics.EconomicValueIsResidualIncome | app/agents/financial_metrics.py:57-74 | the margin is profitability's ROE less the cost of equity, and EVA is net income less the equity charge |
| FinancialMetrics.StockPerformance | app/agents/financial_metrics.py:76-108 | zero shares give only the error entry; otherwise EPS, DPS, market value and MVA, and the P/E key exactly when net income is non-zero |
| AnalysisMetrics.Profitability | app/agents/financial_analysis_agent.py:18-23 | ROE over `total_equity`; each ratio times its denominator is net income |
| AnalysisMetrics.Ebitda | app/agents/financial_analysis_agent.py:25-28 | the EBITDA margin is EBIT over revenue, defined exactly when revenue is non-zero |
| AnalysisMetrics.EbitdaMarginOmitsDepreciation | app/agents/financial_analysis_agent.py:25-28 | on the same revenue, this margin falls short of the other revision's by depreciation per unit of revenue |
| AnalysisMetrics.Dupont | app/agents/financial_analysis_agent.py:30-35 | leverage is total assets over total equity |
| AnalysisMetrics.DupontIsReturnOnEquity | app/agents/financial_analysis_agent.py:18-35 | DuPont and profitability are defined together, and the DuPont product is the ROE |
| AnalysisMetrics.EconomicValue | app/agents/financial_analysis_agent.py:37-50 | defined exactly when net income and a non-zero `total_equity` exist; margin is ROE less the cost of equity |
| AnalysisMetrics.EconomicValueIsResidualIncome | app/agents/financial_analysis_agent.py:43-45 | EVA is net income less cost of equity times total equity, and the margin is profitability's ROE less that cost |
| AnalysisMetrics.Leverage | app/agents/financial_analysis_agent.py:69-74 | debt and solvency over total assets, leverage over shareholders' equity |
| AnalysisMetrics.SolvencyTimesLeverage | app/agents/financial_analysis_agent.py:72-73 | solvency times leverage is exactly 1 |
| AnalysisMetrics.DividendsOrZero | app/agents/financial_analysis_agent.py:85 | absent dividends count as 0 |
| AnalysisMetrics.StockPerformance | app/agents/financial_analysis_agent.py:76-109 | zero shares give only the error entry; otherwise EPS, DPS, market value, MVA over `total_equity`, and P/E only for non-zero EPS |
| AnalysisMetrics.AbsentDividendsGiveZeroDps | app/agents/financial_analysis_agent.py:85-94 | without a dividends entry the dividends per share are 0 |
| MetricSchemas.ParseCategory | app/schemas/financial_metrics.py:5-13 | a wire string parses to the category with that value, and is rejected only when no category has it |
| MetricSchemas.CategoryRoundTrip | app/schemas/financial_metrics.py:5-13 | every category parses back from its own value |
| MetricSchemas.WireValueIsLowerMemberName | app/schemas/financial_metrics.py:5-13 | each member's value is its declared name in lower case |
| MetricSchemas.WireValueInjective | app/schemas/financial_metrics.py:5-13 | no two categories share a value |
| MetricSchemas.AllCategoriesEnumerates | app/schemas/financial_metrics.py:5-13 | the category list holds every member once |
| MetricSchemas.MakeMetricGroup | app/schemas/financial_metrics.py:15-17 | a group is valid exactly when every metric is a number, and then holds those numbers under the same keys |
| GroupedMetricsEndpoint.AccountingGroups | app/endpoints/metrics.py:17-45 | the seven groups exist exactly when each calculator returns; the first failure in list order decides the error; each group has its category and its calculator's dict |
| GroupedMetricsEndpoint.Accounting | app/endpoints/metrics.py:17-45 | the seven accounting groups of a request, when they exist, come in the order the category enumeration lists them |
| GroupedMetricsEndpoint.Assemble | app/endpoints/metrics.py:46-54 | the response exists exactly when the groups do and the stock dict holds only numbers; otherwise a validation error |
| GroupedMetricsEndpoint.GetGroupedMetrics | app/endpoints/metrics.py:8-54 | eight groups in category declaration order, the first seven being the accounting groups |
| GroupedMetricsEndpoint.StockGroupIsStockCalculator | app/endpoints/metrics.py:46-51 | the last group holds the stock calculator's numbers |
| GroupedMetricsEndpoint.GroupedMetricsSucceeds | app/endpoints/metrics.py:8-54 | the endpoint answers exactly when every calculator returns and shares are non-zero; zero shares give a validation error |
| GroupedMetricsEndpoint.DefaultsReduceToAccountingValues | app/endpoints/metrics.py:13-14 | with the default price and cost of equity, market value is 0, economic margin equals ROE and EVA equals net income |
| LiquidityRatios.GetCurrentRatio | app/endpoints/ratios/liquidity_ratios.py:7-34 | no sheet gives a 500 wrapping the 404; zero liabilities a 500 wrapping the 400; success is the ratio dated with the sheet |
| LiquidityRatios.GetAcidTest | app/endpoints/ratios/liquidity_ratios.py:36-64 | same guards; the ratio times current liabilities is current assets less inventory |
| LiquidityRatios.GetDefensiveInterval | app/endpoints/ratios/liquidity_ratios.py:66-94 | same guards; the ratio times current liabilities is cash |
| LiquidityRatios.AcidTestIsCurrentLessInventory | app/endpoints/ratios/liquidity_ratios.py:55 | the acid test is the current ratio less inventory per liability |
| LiquidityRatios.EndpointsAgreeWithCalculator | app/endpoints/ratios/liquidity_ratios.py:7-94 | on the same amounts the endpoints answer the calculator's three ratios |
| LeverageRatios.GetDebtRatio | app/endpoints/ratios/leverage_ratios.py:7-34 | 404 and zero-assets 400 both reach the client as 500; success is liabilities over assets |
| LeverageRatios.GetSolvencyRatio | app/endpoints/ratios/leverage_ratios.py:36-60 | 404 and 400 surface unchanged; success is equity over assets |
| LeverageRatios.GetLeverage | app/endpoints/ratios/leverage_ratios.py:62-86 | zero equity gives 400; success is assets over equity |
| LeverageRatios.SolvencyTimesLeverage | app/endpoints/ratios/leverage_ratios.py:53-79 | where both are defined, solvency times leverage is 1 |
| LeverageRatios.DebtAndSolvencyPartitionAssets | app/endpoints/ratios/leverage_ratios.py:7-60 | on a balanced sheet, debt ratio plus solvency ratio is 1 |
| EfficiencyRatios.InventoryTurnover | app/endpoints/ratios/efficiency_ratios.py:27-30 | cost of revenue over inventory, or a TypeError when inventory is absent |
| EfficiencyRatios.ReceivablesTurnover | app/endpoints/ratios/efficiency_ratios.py:92-95 | revenue over receivables, or a TypeError when they are absent |
| EfficiencyRatios.GetInventoryTurnover | app/endpoints/ratios/efficiency_ratios.py:7-37 | balance-sheet 404 first, then income 404, zero-inventory 400; success dated with the income statement |
| EfficiencyRatios.GetStockRetentionPeriod | app/endpoints/ratios/efficiency_ratios.py:39-70 | same guards; a zero cost of revenue passes them and is a division error; success is 365 over the turnover |
| EfficiencyRatios.GetReceivablesTurnover | app/endpoints/ratios/efficiency_ratios.py:72-102 | zero receivables give 400; success is revenue over receivables |
| EfficiencyRatios.GetCollectionPeriod | app/endpoints/ratios/efficiency_ratios.py:104-135 | zero revenue is a division error; success is 365 over the receivables turnover |
| EfficiencyRatios.GetPayablesTurnover | app/endpoints/ratios/efficiency_ratios.py:137-168 | payables None or 0 give 400; success is cost of revenue over payables |
| EfficiencyRatios.GetPaymentPeriod | app/endpoints/ratios/efficiency_ratios.py:170-202 | same guard; zero cost of revenue is a division error; success is 365 over the turnover |
| EfficiencyRatios.GetAssetTurnover | app/endpoints/ratios/efficiency_ratios.py:204-234 | zero total assets give 400; success is sales over total assets |
| EfficiencyRatios.StockRetentionTimesTurnover | app/endpoints/ratios/efficiency_ratios.py:7-70 | stock retention period times inventory turnover is 365 |
| EfficiencyRatios.CollectionTimesTurnover | app/endpoints/ratios/efficiency_ratios.py:72-135 | collection period times receivables turnover is 365 |
| EfficiencyRatios.PaymentTimesTurnover | app/endpoints/ratios/efficiency_ratios.py:137-202 | payment period times payables turnover is 365 |
| ProfitabilityRatios.GetSalesMargin | app/endpoints/ratios/profitability_ratios.py:7-34 | 404 and zero-sales 400 become 500; the margin times sales is net income |
| ProfitabilityRatios.GetReturnOnAssets | app/endpoints/ratios/profitability_ratios.py:36-68 | income 404 before balance 404, zero assets 400, all as 500; ROA times assets is net income |
| ProfitabilityRatios.GetReturnOnEquity | app/endpoints/ratios/profitability_ratios.py:70-102 | same order; ROE times total equity is net income |
| ProfitabilityRatios.EndpointsAgreeWithCalculator | app/endpoints/ratios/profitability_ratios.py:7-102 | on the same amounts the endpoints answer the total-equity calculator's three ratios |
| EconomicValueRatios.GetEconomicMargin | app/endpoints/ratios/economic_value.py:8-46 | zero equity is checked before the missing cost of equity; all errors as 500; margin plus cost of equity, times equity, is net income |
| EconomicValueRatios.GetEconomicValueAdded | app/endpoints/ratios/economic_value.py:48-86 | same guards and error order, with the EVA message |
| EconomicValueRatios.EconomicValueAddedIsResidualIncome | app/endpoints/ratios/economic_value.py:72-77 | EVA is net income less the equity charge, and the margin times equity |
| EconomicValueRatios.EndpointsAgreeWithCalculator | app/endpoints/ratios/economic_value.py:8-86 | the endpoints answer the total-equity calculator's margin and EVA |
| StockPerformanceRatios.GetEarningsPerShare | app/api/endpoints/ratios/stock_performance.py:7-36 | zero shares give 400; EPS times shares is net income |
| StockPerformanceRatios.GetDividendsPerShare | app/api/endpoints/ratios/stock_performance.py:38-67 | zero shares give 400; DPS times shares is dividends |
| StockPerformanceRatios.GetPriceEarningsRatio | app/api/endpoints/ratios/stock_performance.py:69-104 | zero shares, then zero EPS, give 400; P/E times net income is price times shares |
| StockPerformanceRatios.GetMarketValue | app/api/endpoints/ratios/stock_performance.py:106-131 | balance sheet only; market value is price times shares |
| StockPerformanceRatios.GetMarketValueAdded | app/api/endpoints/ratios/stock_performance.py:133-160 | MVA is market value less total equity |
| StockPerformanceRatios.PriceEarningsTimesEarningsPerShare | app/api/endpoints/ratios/stock_performance.py:89-97 | P/E times EPS is the price |
| StockPerformanceRatios.EndpointsAgreeWithCalculator | app/api/endpoints/ratios/stock_performance.py:7-160 | the endpoints answer the total-equity stock calculator's values |
| DupontAnalysis.GetSalesMargin | backend/api/endpoints/ratios/dupont_analysis.py:7-31 | income 404, zero-sales 400 unwrapped; margin times sales is net income |
| DupontAnalysis.GetAssetTurnover | backend/api/endpoints/ratios/dupont_analysis.py:33-62 | income 404 before balance 404, zero assets 400; turnover times assets is sales; dated with the income statement |
| DupontAnalysis.GetLeverage | backend/api/endpoints/ratios/dupont_analysis.py:64-89 | zero equity gives 400; leverage times equity is total assets; dated with the balance sheet |
| DupontAnalysis.FactorsMultiplyToReturnOnEquity | backend/api/endpoints/ratios/dupont_analysis.py:7-89 | the three factors multiply to the return on equity the profitability endpoint answers |
| EbitdaRatios.GetEbitdaMargin | backend/api/endpoints/ratios/ebitda_ratios.py:7-35 | 404 and zero-revenue 400 become 500; margin times revenue is EBIT |
| EbitdaRatios.EndpointAgreesWithCalculator | backend/api/endpoints/ratios/ebitda_ratios.py:25-26 | the endpoint answers the total-equity revision's EBITDA margin |
| AllRatiosEndpoint.Dispatch | app/endpoints/ratios/ratios.py:39-44 | (definition) the three efficiency names get both lists, `get_ebitda_margin` only the income statements, every other name only the balance sheets; `CallUsesDispatchedInputs` proves the calls follow it |
| AllRatiosEndpoint.Call | app/endpoints/ratios/ratios.py:38-44 | (definition) each of the ten functions is awaited with the lists `Dispatch` chooses; stated by `CallUsesDispatchedInputs` |
| AllRatiosEndpoint.CallUsesDispatchedInputs | app/endpoints/ratios/ratios.py:39-44 | the efficiency functions get both lists, EBITDA only the income statements, the rest only the balance sheets |
| AllRatiosEndpoint.ReplaceAll | app/endpoints/ratios/ratios.py:50 | `str.replace` by a replacement as long as the pattern keeps the length of the text |
| AllRatiosEndpoint.ErrorName | app/endpoints/ratios/ratios.py:50 | (definition) drop `get_`, turn underscores into spaces, title-case; its properties are stated by `ErrorNameIsTitledWords` and `AcidTestErrorName` |
| AllRatiosEndpoint.ReplaceCharPointwise | app/endpoints/ratios/ratios.py:50 | replacing one character by another changes exactly its occurrences |
| AllRatiosEndpoint.ReplaceAbsent | app/endpoints/ratios/ratios.py:50 | replacing a pattern that does not occur changes nothing |
| AllRatiosEndpoint.Title | app/endpoints/ratios/ratios.py:50 | title casing keeps length, letters and case-insensitive content |
| AllRatiosEndpoint.TitleIdempotent | app/endpoints/ratios/ratios.py:50 | title casing a title-cased string changes nothing |
| AllRatiosEndpoint.ErrorNameIsTitledWords | app/endpoints/ratios/ratios.py:50 | an error-entry name has no underscore, is in title case, and has a space wherever the name without `get_` had an underscore |
| AllRatiosEndpoint.AcidTestErrorName | app/endpoints/ratios/ratios.py:50 | `get_acid_test` gives "Acid Test" |
| AllRatiosEndpoint.EntryFor | app/endpoints/ratios/ratios.py:38-54 | a result is kept, an HTTPException becomes an entry with the display name and detail, anything else escapes |
| AllRatiosEndpoint.EntriesFor | app/endpoints/ratios/ratios.py:37-54 | the intended loop over any list of functions answers one entry per function, and an HTTPException never ends it |
| AllRatiosEndpoint.AllRatios | app/endpoints/ratios/ratios.py:14-56 | the intended endpoint answers ten entries, or fails only with an exception that is not an HTTPException |
| AllRatiosEndpoint.AbortPersists | app/endpoints/ratios/ratios.py:37-46 | once a call escapes the handler, the loop's outcome is that error |
| AllRatiosEndpoint.EntriesForStep | app/endpoints/ratios/ratios.py:37-54 | one more call extends the entries by its own entry, or ends the loop with its exception |
| AllRatiosEndpoint.GetAllRatios | app/endpoints/ratios/ratios.py:14-56 | the loop yields the intended entry list |
| AllRatiosEndpoint.EntriesForSpec | app/endpoints/ratios/ratios.py:37-56 | one entry per function in order exactly when no call escapes; otherwise the first escaping call decides |
| AllRatiosEndpoint.AllRatiosAnswersEveryFunction | app/endpoints/ratios/ratios.py:24-56 | ten entries in list order; each is the ratio, or the error entry named after its function |
| AllRatiosEndpoint.NoBalanceSheetsSurvived | app/endpoints/ratios/ratios.py:24-35 | without balance sheets each of the ten calls answers or raises an HTTPException, and the acid test raises the wrapped 404 |
| AllRatiosEndpoint.NoBalanceSheetsGiveErrorEntries | app/endpoints/ratios/ratios.py:24-56 | with no balance sheet the intended endpoint lists ten entries, the second being "Acid Test" with the wrapped 404 |
| AllRatiosEndpoint.EntryAsWritten | app/endpoints/ratios/ratios.py:46-54 | as written, an HTTPException leads to a validation error, since the date is null |
| AllRatiosEndpoint.EntriesAsWrittenFor | app/endpoints/ratios/ratios.py:37-54 | the loop as written answers one response per function, and what ends it is never an HTTPException (a validation error included) |
| AllRatiosEndpoint.AllRatiosAsWritten | app/endpoints/ratios/ratios.py:14-56 | `get_all_ratios` as written answers ten responses, or fails with an exception that is not an HTTPException |
| AllRatiosEndpoint.AsWrittenKeepsOnlyComputed | app/endpoints/ratios/ratios.py:37-56 | as written, the endpoint answers only when every ratio is computed, and then answers the intended list; one error entry makes it a validation error |
| AllRatiosEndpoint.NoBalanceSheetsAbortAsWritten | app/endpoints/ratios/ratios.py:48-54 | with no balance sheet the intended endpoint answers but the code as written fails validation |
| Valuation.DiscountedSum | backend/financial_models.py:5-7 | (definition) the loop's sum of each flow over (1 + r) to the power of its 1-based position; stated by `UndiscountedSum`, `DiscountedSumNonNegative` and `CalculateDcf` |
| Valuation.UndiscountedSum | backend/financial_models.py:6-7 | at a zero rate the discounted sum is the plain sum |
| Valuation.DiscountedSumNonNegative | backend/financial_models.py:6-7 | above a -100% rate, non-negative flows discount to a non-negative sum |
| Valuation.TerminalValue | backend/financial_models.py:8 | Gordon growth: terminal value times (r - g) is the last flow grown once |
| Valuation.Dcf | backend/financial_models.py:4-10 | defined exactly for a non-empty list, a rate other than -100% and r != g; an empty list is an IndexError, the others division errors |
| Valuation.DcfSplitsIntoForecastAndTerminal | backend/financial_models.py:8-9 | the value less the discounted forecast, re-compounded over n periods, is the terminal value |
| Valuation.CalculateDcf | backend/financial_models.py:4-10 | the loop computes `Dcf`; `growth_rate` is never used |
| Valuation.CalculateDcfWithDefaultGrowth | backend/financial_models.py:4 | without `terminal_growth` the value is the DCF at 2% terminal growth, defined exactly for a non-empty list and a rate other than -100% and 2% |
| Valuation.DefaultGrowthRejectsTwoPercent | backend/financial_models.py:4-8 | with the default terminal growth, a 2% discount rate divides by zero |
| Valuation.PeRatio | backend/financial_models.py:12-13 | P/E times EPS is the price; zero EPS is a division error |
| Valuation.PbRatio | backend/financial_models.py:15-16 | P/B times book value per share is the price |
| Valuation.PegRatio | backend/financial_models.py:18-19 | PEG times growth is the P/E |
| Valuation.EvEbitda | backend/financial_models.py:21-22 | the multiple times EBITDA is the enterprise value |
| Valuation.PegOfPe | backend/financial_models.py:12-19 | PEG of the P/E, times growth and EPS, is the price |
| Valuation.PeOverPb | backend/financial_models.py:12-16 | P/E times EPS equals P/B times book value per share |
| Valuation.PeAgreesWithCalculator | backend/financial_models.py:12-13 | the stock calculator's P/E is this P/E of its own EPS |

## Left out

- HTTP fetching is outside the model. That covers `Depends(financials.get_...)`, the upstream API, `period` and `limit`. The endpoints take the fetched lists as parameters.
- The LLM agent (`FinancialAnalysisAgent`, `financial_metrics_agent.py`) is outside the model. It is framework configuration and network calls.
- Float arithmetic is modelled as exact real arithmetic. Rounding, overflow, `inf` and `nan` are not modelled, and equalities such as "solvency times leverage is 1" hold exactly only in the model.
- Undeclared attributes are parameters:
  - The endpoints read `revenues`, `total_equity`, `shares_outstanding` and `dividends` from records that do not declare them. These values are plain parameters of the endpoint functions.
  - With the `models.py` records as written, each such read raises an AttributeError. Inside a blanket `except`, that becomes a 500.
- The dict calculators (`FinancialMetrics`, `AnalysisMetrics`, the grouped-metrics endpoint) take their untyped request bodies as maps to numbers. A body holding `null` or text for a key the calculators read, which Python rejects with a TypeError in the arithmetic, cannot be expressed; a missing key is modelled.
- Dates are ISO text. pydantic's parsing of `date` values is not modelled.
- Error details are structured. The model keeps `AnErrorOccurred(fault)` instead of the rendered string `"An error occurred: ..."`.
- pydantic's coercions are not modelled. Coercing numeric strings to floats and ints to floats is left out; a text value where a number is required is a validation error.
- The DuPont and EBITDA backend endpoints and the stock-performance endpoints (`app/api/endpoints/ratios/stock_performance.py`) import `RatioResponse` and the statement models from `backend/models.py`. That file does not define them, so importing those modules fails. `DupontAnalysis`, `EbitdaRatios` and `StockPerformanceRatios` use the `models.py` records instead.
- `app/endpoints/ratios/ebitda_ratios.py`, which `ratios.py` imports, is not part of this model. The all-ratios loop calls the backend EBITDA endpoint, whose signature matches the call.
- `str.title()` is modelled for ASCII letters only. Other characters count as uncased.
- numpy and pandas are imported by `backend/financial_models.py` but never used.

## Findings

| source | as written | input that shows it | evidently intended | confidence | as-written member | corrected member |
|---|---|---|---|---|---|---|
| app/endpoints/ratios/ratios.py:48-54 | an HTTPException from one ratio builds `RatioResponse(..., date=None, error=...)`; `date` is required and there is no `error` field, so building the entry raises a validation error outside the `try`, and the whole request fails | ticker with an empty balance-sheet list: the current-ratio call raises a 500, and the error entry fails validation | one error entry per failed ratio, with its display name and error text, and the other ratios still listed | not executed | AllRatiosEndpoint.NoBalanceSheetsAbortAsWritten | AllRatiosEndpoint.AllRatiosAnswersEveryFunction |
