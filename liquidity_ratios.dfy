/** The liquidity endpoints (`app/endpoints/ratios/liquidity_ratios.py`): current ratio, acid test
    and defensive interval from the latest balance sheet.

    Each endpoint runs its whole body inside `try: ... except Exception`, and an HTTPException is an
    Exception, so even the endpoint's own 404 and 400 reach the client as a 500 whose detail quotes
    them. */
module LiquidityRatios {
  import opened Common
  import opened Models
  import FM = FinancialMetrics

  const ZeroCurrentLiabilities: Fault := HttpError(400, Message("Current liabilities are zero, cannot calculate ratio"))

  /** `current_liabilities == 0`, the guard all three endpoints share. */
  predicate NoCurrentLiabilities(bs: BalanceSheet) {
    IsZero(bs.currentLiabilities)
  }

  // GET /current-ratio/{ticker}
  function GetCurrentRatio(ticker: string, sheets: seq<BalanceSheet>): (r: Result<RatioResponse>)
    ensures |sheets| == 0 ==> r == Err(Internal(BalanceSheetNotFound))
    ensures |sheets| > 0 && NoCurrentLiabilities(sheets[0]) ==> r == Err(Internal(ZeroCurrentLiabilities))
    ensures r.Ok? <==>
      |sheets| > 0 && sheets[0].currentAssets.Some? && sheets[0].currentLiabilities.Some?
      && sheets[0].currentLiabilities.value != 0.0
    ensures r.Err? ==> r.fault.IsHttp() && r.fault.status == 500
    ensures r.Ok? ==>
      && Answers(r, ticker, "Current Ratio", sheets[0].calendarDate)
      && RatioOf(r) * sheets[0].currentLiabilities.value == sheets[0].currentAssets.value
  {
    CatchAll(
      if |sheets| == 0 then Err(BalanceSheetNotFound)
      else if NoCurrentLiabilities(sheets[0]) then Err(ZeroCurrentLiabilities)
      else
        var ratio :- OptionalQuotient(sheets[0].currentAssets, sheets[0].currentLiabilities);
        Ok(Answer(ticker, "Current Ratio", ratio, sheets[0].calendarDate)))
  }

  // GET /acid-test/{ticker}
  function GetAcidTest(ticker: string, sheets: seq<BalanceSheet>): (r: Result<RatioResponse>)
    ensures |sheets| == 0 ==> r == Err(Internal(BalanceSheetNotFound))
    ensures |sheets| > 0 && NoCurrentLiabilities(sheets[0]) ==> r == Err(Internal(ZeroCurrentLiabilities))
    ensures r.Ok? <==>
      |sheets| > 0 && sheets[0].currentAssets.Some? && sheets[0].inventory.Some?
      && sheets[0].currentLiabilities.Some? && sheets[0].currentLiabilities.value != 0.0
    ensures r.Err? ==> r.fault.IsHttp() && r.fault.status == 500
    ensures r.Ok? ==>
      && Answers(r, ticker, "Acid Test Ratio", sheets[0].calendarDate)
      && RatioOf(r) * sheets[0].currentLiabilities.value == sheets[0].currentAssets.value - sheets[0].inventory.value
  {
    CatchAll(
      if |sheets| == 0 then Err(BalanceSheetNotFound)
      else if NoCurrentLiabilities(sheets[0]) then Err(ZeroCurrentLiabilities)
      else
        var quick :- OptionalDifference(sheets[0].currentAssets, sheets[0].inventory);
        var ratio :- OptionalQuotient(Some(quick), sheets[0].currentLiabilities);
        Ok(Answer(ticker, "Acid Test Ratio", ratio, sheets[0].calendarDate)))
  }

  // GET /defensive-interval/{ticker}
  function GetDefensiveInterval(ticker: string, sheets: seq<BalanceSheet>): (r: Result<RatioResponse>)
    ensures |sheets| == 0 ==> r == Err(Internal(BalanceSheetNotFound))
    ensures |sheets| > 0 && NoCurrentLiabilities(sheets[0]) ==> r == Err(Internal(ZeroCurrentLiabilities))
    ensures r.Ok? <==>
      |sheets| > 0 && sheets[0].cashAndEquivalents.Some? && sheets[0].currentLiabilities.Some?
      && sheets[0].currentLiabilities.value != 0.0
    ensures r.Err? ==> r.fault.IsHttp() && r.fault.status == 500
    ensures r.Ok? ==>
      && Answers(r, ticker, "Defensive Interval Ratio", sheets[0].calendarDate)
      && RatioOf(r) * sheets[0].currentLiabilities.value == sheets[0].cashAndEquivalents.value
  {
    CatchAll(
      if |sheets| == 0 then Err(BalanceSheetNotFound)
      else if NoCurrentLiabilities(sheets[0]) then Err(ZeroCurrentLiabilities)
      else
        var ratio :- OptionalQuotient(sheets[0].cashAndEquivalents, sheets[0].currentLiabilities);
        Ok(Answer(ticker, "Defensive Interval Ratio", ratio, sheets[0].calendarDate)))
  }

  /** The acid test is the current ratio less inventory per unit of current liabilities. */
  lemma AcidTestIsCurrentLessInventory(ticker: string, sheets: seq<BalanceSheet>)
    requires GetAcidTest(ticker, sheets).Ok?
    ensures GetCurrentRatio(ticker, sheets).Ok?
    ensures RatioOf(GetAcidTest(ticker, sheets))
         == RatioOf(GetCurrentRatio(ticker, sheets)) - sheets[0].inventory.value / sheets[0].currentLiabilities.value
  {
    var cl := sheets[0].currentLiabilities.value;
    var acid := RatioOf(GetAcidTest(ticker, sheets));
    var current := RatioOf(GetCurrentRatio(ticker, sheets));
    var perInventory := sheets[0].inventory.value / cl;
    assert perInventory * cl == sheets[0].inventory.value;
    assert (current - perInventory) * cl == current * cl - perInventory * cl;
    assert acid * cl == (current - perInventory) * cl;
    EqualAfterScaling(acid, current - perInventory, cl);
  }

  /** The endpoints agree with the dict-based calculator `calculate_liquidity_ratios` on a
      request body carrying the same balance-sheet amounts. */
  lemma EndpointsAgreeWithCalculator(ticker: string, sheets: seq<BalanceSheet>, bs: Dict)
    requires FM.Liquidity(bs).Ok? && |sheets| > 0
    requires sheets[0].currentAssets == Some(bs["current_assets"])
    requires sheets[0].currentLiabilities == Some(bs["current_liabilities"])
    requires sheets[0].inventory == Some(bs["inventory"])
    requires sheets[0].cashAndEquivalents == Some(bs["cash_and_equivalents"])
    ensures GetCurrentRatio(ticker, sheets).Ok? && GetAcidTest(ticker, sheets).Ok?
    ensures GetDefensiveInterval(ticker, sheets).Ok?
    ensures RatioOf(GetCurrentRatio(ticker, sheets)) == FM.Liquidity(bs).value["current_ratio"]
    ensures RatioOf(GetAcidTest(ticker, sheets)) == FM.Liquidity(bs).value["acid_test_ratio"]
    ensures RatioOf(GetDefensiveInterval(ticker, sheets)) == FM.Liquidity(bs).value["defensive_interval_ratio"]
  {
    var m := FM.Liquidity(bs).value;
    var cl := bs["current_liabilities"];
    EqualAfterScaling(RatioOf(GetCurrentRatio(ticker, sheets)), m["current_ratio"], cl);
    EqualAfterScaling(RatioOf(GetDefensiveInterval(ticker, sheets)), m["defensive_interval_ratio"], cl);
    AcidTestIsCurrentLessInventory(ticker, sheets);
  }
}
