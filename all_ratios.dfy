/** The aggregate endpoint `GET /all-ratios/{ticker}` (`app/endpoints/ratios/ratios.py`): it calls
    ten single-ratio endpoints in a fixed order on the same statements and collects one entry per
    call. A call that raises an HTTPException is meant to leave an error entry named after the
    function; any other exception is not caught and aborts the whole request.

    As written, the error entry is `RatioResponse(..., ratio_value=None, date=None, error=...)`,
    and `RatioResponse` requires a date and declares no `error` field, so building the entry
    itself raises a validation error: the first failing ratio aborts the request.
    `AllRatiosAsWritten` models that code; `AllRatios` and the loop `GetAllRatios` model the
    evidently intended endpoint, whose error entries keep the ratio's name and the error. */
module AllRatiosEndpoint {
  import opened Common
  import opened Models
  import LiquidityRatios
  import EbitdaRatios
  import LeverageRatios
  import EfficiencyRatios

  // ---------------------------------------------------------------------------------------
  // The ten endpoints and how each is called

  datatype RatioFunction =
    | CurrentRatio | AcidTest | DefensiveInterval | EbitdaMargin | DebtRatio | SolvencyRatio
    | Leverage | InventoryTurnover | StockRetentionPeriod | AccountsReceivableTurnover

  /** The list `ratio_functions`, in call order. */
  const RatioFunctions: seq<RatioFunction> := [
    CurrentRatio, AcidTest, DefensiveInterval, EbitdaMargin, DebtRatio, SolvencyRatio,
    Leverage, InventoryTurnover, StockRetentionPeriod, AccountsReceivableTurnover]

  /** The function's `__name__`. */
  function FunctionName(f: RatioFunction): string {
    match f
    case CurrentRatio => "get_current_ratio"
    case AcidTest => "get_acid_test"
    case DefensiveInterval => "get_defensive_interval"
    case EbitdaMargin => "get_ebitda_margin"
    case DebtRatio => "get_debt_ratio"
    case SolvencyRatio => "get_solvency_ratio"
    case Leverage => "get_leverage"
    case InventoryTurnover => "get_inventory_turnover"
    case StockRetentionPeriod => "get_stock_retention_period"
    case AccountsReceivableTurnover => "get_accounts_receivable_turnover"
  }

  /** Which statement lists a call passes on. */
  datatype Inputs = BalanceAndIncome | IncomeOnly | BalanceOnly

  /** The dispatch on `func.__name__`. */
  function Dispatch(name: string): Inputs {
    if name in ["get_inventory_turnover", "get_stock_retention_period", "get_accounts_receivable_turnover"] then
      BalanceAndIncome
    else if name == "get_ebitda_margin" then IncomeOnly
    else BalanceOnly
  }

  /** `await func(ticker, period, limit, ...)` with the lists `Dispatch` chooses. The EBITDA
      endpoint is the one of `backend/api/endpoints/ratios/ebitda_ratios.py`. */
  function Call(f: RatioFunction, ticker: string, sheets: seq<BalanceSheet>, statements: seq<IncomeStatement>)
    : Result<RatioResponse>
  {
    match f
    case CurrentRatio => LiquidityRatios.GetCurrentRatio(ticker, sheets)
    case AcidTest => LiquidityRatios.GetAcidTest(ticker, sheets)
    case DefensiveInterval => LiquidityRatios.GetDefensiveInterval(ticker, sheets)
    case EbitdaMargin => EbitdaRatios.GetEbitdaMargin(ticker, statements)
    case DebtRatio => LeverageRatios.GetDebtRatio(ticker, sheets)
    case SolvencyRatio => LeverageRatios.GetSolvencyRatio(ticker, sheets)
    case Leverage => LeverageRatios.GetLeverage(ticker, sheets)
    case InventoryTurnover => EfficiencyRatios.GetInventoryTurnover(ticker, sheets, statements)
    case StockRetentionPeriod => EfficiencyRatios.GetStockRetentionPeriod(ticker, sheets, statements)
    case AccountsReceivableTurnover => EfficiencyRatios.GetReceivablesTurnover(ticker, sheets, statements)
  }

  /** Each call depends on exactly the lists the dispatch passes it. */
  lemma CallUsesDispatchedInputs(f: RatioFunction, ticker: string, sheets: seq<BalanceSheet>, sheets': seq<BalanceSheet>,
                                 statements: seq<IncomeStatement>, statements': seq<IncomeStatement>)
    ensures Dispatch(FunctionName(f)) == IncomeOnly ==>
      Call(f, ticker, sheets, statements) == Call(f, ticker, sheets', statements)
    ensures Dispatch(FunctionName(f)) == BalanceOnly ==>
      Call(f, ticker, sheets, statements) == Call(f, ticker, sheets, statements')
    ensures Dispatch(FunctionName(f)) == IncomeOnly <==> f == EbitdaMargin
    ensures Dispatch(FunctionName(f)) == BalanceAndIncome <==>
      f in {InventoryTurnover, StockRetentionPeriod, AccountsReceivableTurnover}
  {
    var name := FunctionName(f);
    var efficiency := ["get_inventory_turnover", "get_stock_retention_period", "get_accounts_receivable_turnover"];
    assert name in efficiency <==> f in {InventoryTurnover, StockRetentionPeriod, AccountsReceivableTurnover} by {
      if name in efficiency {
        var k :| 0 <= k < 3 && efficiency[k] == name;
        assert k == 0 || k == 1 || k == 2;
      }
    }
  }

  // ---------------------------------------------------------------------------------------
  // The display name of an error entry: `name.replace('get_', '').replace('_', ' ').title()`

  /** Python `s.replace(pat, rep)`: every non-overlapping occurrence, scanning left to right. */
  function ReplaceAll(s: string, pat: string, rep: string): (r: string)
    requires |pat| > 0
    ensures |rep| == |pat| ==> |r| == |s|
    decreases |s|
  {
    if |s| < |pat| then s
    else if s[..|pat|] == pat then rep + ReplaceAll(s[|pat|..], pat, rep)
    else [s[0]] + ReplaceAll(s[1..], pat, rep)
  }

  /** Replacing one character by another maps each position on its own. */
  lemma {:induction false} ReplaceCharPointwise(s: string, a: char, b: char)
    ensures |ReplaceAll(s, [a], [b])| == |s|
    ensures forall i :: 0 <= i < |s| ==> ReplaceAll(s, [a], [b])[i] == (if s[i] == a then b else s[i])
  {
    if |s| > 0 {
      ReplaceCharPointwise(s[1..], a, b);
      assert s[..1] == [s[0]];
    }
  }

  /** A pattern whose first character does not occur leaves the text unchanged. */
  lemma {:induction false} ReplaceAbsent(s: string, pat: string, rep: string)
    requires |pat| > 0 && pat[0] !in s
    ensures ReplaceAll(s, pat, rep) == s
  {
    if |s| >= |pat| {
      assert s[..|pat|][0] == s[0];
      ReplaceAbsent(s[1..], pat, rep);
    }
  }

  /** Python `s.title()`: a cased character following a cased one becomes lower case, any other
      becomes upper case. */
  function Title(s: string): (r: string)
    ensures |r| == |s|
    ensures forall i :: 0 <= i < |s| ==> Lower(r[i]) == Lower(s[i]) && IsCased(r[i]) == IsCased(s[i])
  {
    seq(|s|, i requires 0 <= i < |s| => if i > 0 && IsCased(s[i - 1]) then Lower(s[i]) else Upper(s[i]))
  }

  /** Title case is a fixed point of `title()`. */
  lemma TitleIdempotent(s: string)
    ensures Title(Title(s)) == Title(s)
  {
    var t := Title(s);
    forall i | 0 <= i < |s|
      ensures Title(t)[i] == t[i]
    {
      if i > 0 && IsCased(s[i - 1]) {
        assert IsCased(t[i - 1]);
      } else {
        assert !(i > 0 && IsCased(t[i - 1]));
      }
    }
  }

  /** `func.__name__.replace('get_', '').replace('_', ' ').title()`. */
  function ErrorName(name: string): string {
    Title(ReplaceAll(ReplaceAll(name, "get_", ""), "_", " "))
  }

  /** An error name is in title case and has a space wherever the function name had an
      underscore (after the prefix is dropped), and no underscore at all. */
  lemma ErrorNameIsTitledWords(name: string)
    ensures '_' !in ErrorName(name)
    ensures Title(ErrorName(name)) == ErrorName(name)
    ensures var base := ReplaceAll(name, "get_", "");
      && |ErrorName(name)| == |base|
      && forall i :: 0 <= i < |base| && base[i] == '_' ==> ErrorName(name)[i] == ' '
  {
    var base := ReplaceAll(name, "get_", "");
    ReplaceCharPointwise(base, '_', ' ');
    var spaced := ReplaceAll(base, "_", " ");
    assert "_" == ['_'] && " " == [' '];
    TitleIdempotent(spaced);
    forall i | 0 <= i < |ErrorName(name)|
      ensures ErrorName(name)[i] != '_'
    {
      assert Lower(ErrorName(name)[i]) == Lower(spaced[i]);
    }
  }

  /** The error entry for the acid test is called "Acid Test". */
  lemma AcidTestErrorName()
    ensures ErrorName(FunctionName(AcidTest)) == "Acid Test"
  {
    var rest := "acid_test";
    assert "get_acid_test"[..4] == "get_" && "get_acid_test"[4..] == rest;
    ReplaceAbsent(rest, "get_", "");
    assert ReplaceAll("get_acid_test", "get_", "") == rest;
    SpacedAcidTest();
    TitledAcidTest();
  }

  lemma SpacedAcidTest()
    ensures ReplaceAll("acid_test", "_", " ") == "acid test"
  {
    ReplaceCharPointwise("acid_test", '_', ' ');
    assert "_" == ['_'] && " " == [' '];
  }

  lemma TitledAcidTest()
    ensures Title("acid test") == "Acid Test"
  {
    var t := Title("acid test");
    assert t[0] == 'A' && t[1] == 'c' && t[2] == 'i' && t[3] == 'd' && t[4] == ' ';
    assert t[5] == 'T' && t[6] == 'e' && t[7] == 's' && t[8] == 't';
  }

  // ---------------------------------------------------------------------------------------
  // The intended endpoint

  /** One element of the intended response list: a ratio, or the failed ratio's display name
      and the detail of its HTTPException (`ratio_value` and `date` being `None`). */
  datatype RatioEntry =
    | Computed(response: RatioResponse)
    | Failed(ticker: string, ratioName: string, error: Detail)

  /** One loop iteration: keep a ratio, turn an HTTPException into an error entry, and let any
      other exception escape. */
  function EntryFor(f: RatioFunction, ticker: string, call: Result<RatioResponse>): (r: Result<RatioEntry>)
    ensures r.Ok? <==> call.Ok? || call.fault.IsHttp()
    ensures r.Err? ==> r.fault == call.fault
    ensures call.Ok? ==> r == Ok(Computed(call.value))
    ensures call.Err? && call.fault.IsHttp() ==> r == Ok(Failed(ticker, ErrorName(FunctionName(f)), call.fault.detail))
  {
    match call
    case Ok(response) => Ok(Computed(response))
    case Err(fault) =>
      if fault.IsHttp() then Ok(Failed(ticker, ErrorName(FunctionName(f)), fault.detail)) else Err(fault)
  }

  /** What calling each ratio function gives. The loop below is stated for any such outcome, so
      that its proofs do not depend on what the ten endpoints compute. */
  type Outcomes = RatioFunction -> Result<RatioResponse>

  /** The outcomes of the ten endpoints for one request. */
  function Calls(ticker: string, sheets: seq<BalanceSheet>, statements: seq<IncomeStatement>): Outcomes {
    f => Call(f, ticker, sheets, statements)
  }

  /** The loop over `fs`: the entries in order, or the first exception no entry catches. */
  function EntriesFor(fs: seq<RatioFunction>, ticker: string, calls: Outcomes): (r: Result<seq<RatioEntry>>)
    ensures r.Ok? ==> |r.value| == |fs|
    ensures r.Err? ==> !r.fault.IsHttp()
    decreases |fs|
  {
    if |fs| == 0 then Ok([])
    else
      var entries :- EntriesFor(fs[..|fs| - 1], ticker, calls);
      var f := fs[|fs| - 1];
      var entry :- EntryFor(f, ticker, calls(f));
      Ok(entries + [entry])
  }

  /** The intended `get_all_ratios`: an HTTPException raised by a ratio never ends the request. */
  function AllRatios(ticker: string, sheets: seq<BalanceSheet>, statements: seq<IncomeStatement>)
    : (r: Result<seq<RatioEntry>>)
    ensures r.Ok? ==> |r.value| == |RatioFunctions|
    ensures r.Err? ==> !r.fault.IsHttp()
  {
    EntriesFor(RatioFunctions, ticker, Calls(ticker, sheets, statements))
  }

  /** Once a prefix of the calls has aborted, the whole loop aborts with the same exception. */
  lemma {:induction false} AbortPersists(fs: seq<RatioFunction>, n: nat, ticker: string, calls: Outcomes)
    requires n <= |fs| && EntriesFor(fs[..n], ticker, calls).Err?
    ensures EntriesFor(fs, ticker, calls) == EntriesFor(fs[..n], ticker, calls)
    decreases |fs|
  {
    if n < |fs| {
      assert fs[..|fs| - 1][..n] == fs[..n];
      AbortPersists(fs[..|fs| - 1], n, ticker, calls);
    } else {
      assert fs[..n] == fs;
    }
  }

  /** One more call extends the entries by its entry, or ends the loop with its exception. */
  lemma EntriesForStep(fs: seq<RatioFunction>, i: nat, ticker: string, calls: Outcomes, entries: seq<RatioEntry>)
    requires i < |fs| && EntriesFor(fs[..i], ticker, calls) == Ok(entries)
    ensures var e := EntryFor(fs[i], ticker, calls(fs[i]));
      EntriesFor(fs[..i + 1], ticker, calls) == if e.Ok? then Ok(entries + [e.value]) else Err(e.fault)
  {
    assert fs[..i + 1][..i] == fs[..i];
  }

  /** `get_all_ratios`: the loop over `ratio_functions`. */
  method GetAllRatios(ticker: string, sheets: seq<BalanceSheet>, statements: seq<IncomeStatement>)
    returns (r: Result<seq<RatioEntry>>)
    ensures r == AllRatios(ticker, sheets, statements)
  {
    ghost var calls := Calls(ticker, sheets, statements);
    var ratios: seq<RatioEntry> := [];
    var i := 0;
    while i < |RatioFunctions|
      invariant 0 <= i <= |RatioFunctions|
      invariant EntriesFor(RatioFunctions[..i], ticker, calls) == Ok(ratios)
    {
      var func := RatioFunctions[i];
      var ratio := Call(func, ticker, sheets, statements);
      assert ratio == calls(func);
      var entry := EntryFor(func, ticker, ratio);
      EntriesForStep(RatioFunctions, i, ticker, calls, ratios);
      if entry.Err? {
        AbortPersists(RatioFunctions, i + 1, ticker, calls);
        return Err(entry.fault);
      }
      ratios := ratios + [entry.value];
      i := i + 1;
    }
    assert RatioFunctions[..i] == RatioFunctions;
    return Ok(ratios);
  }

  /** A call the loop survives: it returns, or it raises an HTTPException. */
  predicate Survives(f: RatioFunction, ticker: string, calls: Outcomes) {
    EntryFor(f, ticker, calls(f)).Ok?
  }

  /** The loop answers one entry per call, in call order, exactly when every call survives;
      otherwise the first call that does not survive decides the exception. */
  lemma {:induction false} EntriesForSpec(fs: seq<RatioFunction>, ticker: string, calls: Outcomes)
    ensures EntriesFor(fs, ticker, calls).Ok? <==> forall i :: 0 <= i < |fs| ==> Survives(fs[i], ticker, calls)
    ensures EntriesFor(fs, ticker, calls).Ok? ==>
      && |EntriesFor(fs, ticker, calls).value| == |fs|
      && forall i :: 0 <= i < |fs| ==>
           EntryFor(fs[i], ticker, calls(fs[i])) == Ok(EntriesFor(fs, ticker, calls).value[i])
    ensures EntriesFor(fs, ticker, calls).Err? ==>
      exists i :: && 0 <= i < |fs| && !Survives(fs[i], ticker, calls)
                  && (forall j :: 0 <= j < i ==> Survives(fs[j], ticker, calls))
                  && EntriesFor(fs, ticker, calls).fault == calls(fs[i]).fault
    decreases |fs|
  {
    if |fs| > 0 {
      var init := fs[..|fs| - 1];
      EntriesForSpec(init, ticker, calls);
      assert forall i :: 0 <= i < |init| ==> init[i] == fs[i];
      var r := EntriesFor(fs, ticker, calls);
      if EntriesFor(init, ticker, calls).Err? {
        var i :| && 0 <= i < |init| && !Survives(init[i], ticker, calls)
                 && (forall j :: 0 <= j < i ==> Survives(init[j], ticker, calls))
                 && EntriesFor(init, ticker, calls).fault == calls(init[i]).fault;
        assert !Survives(fs[i], ticker, calls);
      } else if !Survives(fs[|fs| - 1], ticker, calls) {
        var i := |fs| - 1;
        assert forall j :: 0 <= j < i ==> Survives(fs[j], ticker, calls);
        assert r.fault == calls(fs[i]).fault;
      }
    }
  }

  /** The intended endpoint answers ten entries in the order of `ratio_functions` unless some
      call raises an exception other than an HTTPException; a failed ratio keeps its display
      name and its error. */
  lemma AllRatiosAnswersEveryFunction(ticker: string, sheets: seq<BalanceSheet>, statements: seq<IncomeStatement>)
    ensures AllRatios(ticker, sheets, statements).Ok? <==>
      forall i :: 0 <= i < 10 ==>
        var call := Call(RatioFunctions[i], ticker, sheets, statements);
        call.Ok? || call.fault.IsHttp()
    ensures AllRatios(ticker, sheets, statements).Ok? ==>
      && |AllRatios(ticker, sheets, statements).value| == 10
      && forall i :: 0 <= i < 10 ==>
           var entry := AllRatios(ticker, sheets, statements).value[i];
           var call := Call(RatioFunctions[i], ticker, sheets, statements);
           && (call.Ok? ==> entry == Computed(call.value))
           && (call.Err? ==> entry == Failed(ticker, ErrorName(FunctionName(RatioFunctions[i])), call.fault.detail))
  {
    var calls := Calls(ticker, sheets, statements);
    EntriesForSpec(RatioFunctions, ticker, calls);
    assert forall i :: 0 <= i < 10 ==> calls(RatioFunctions[i]) == Call(RatioFunctions[i], ticker, sheets, statements);
  }

  /** With no balance sheet every call fails with an HTTPException, which the intended endpoint
      reports entry by entry. */
  lemma NoBalanceSheetsGiveErrorEntries(ticker: string, statements: seq<IncomeStatement>)
    ensures AllRatios(ticker, [], statements).Ok?
    ensures |AllRatios(ticker, [], statements).value| == 10
    ensures AllRatios(ticker, [], statements).value[1] == Failed(ticker, "Acid Test", AnErrorOccurred(BalanceSheetNotFound))
  {
    forall i | 0 <= i < 10
      ensures var call := Call(RatioFunctions[i], ticker, [], statements); call.Ok? || call.fault.IsHttp()
    {
      NoBalanceSheetsSurvived(RatioFunctions[i], ticker, statements);
    }
    AllRatiosAnswersEveryFunction(ticker, [], statements);
    AcidTestErrorName();
  }

  /** Without balance sheets a call either answers (EBITDA reads only income statements) or
      raises an HTTPException; the liquidity and leverage ones raise the wrapped 404. */
  lemma NoBalanceSheetsSurvived(f: RatioFunction, ticker: string, statements: seq<IncomeStatement>)
    ensures var call := Call(f, ticker, [], statements); call.Ok? || call.fault.IsHttp()
    ensures f == AcidTest ==> Call(f, ticker, [], statements) == Err(Internal(BalanceSheetNotFound))
  {
    match f
    case CurrentRatio =>
    case AcidTest =>
    case DefensiveInterval =>
    case EbitdaMargin =>
    case DebtRatio =>
    case SolvencyRatio =>
    case Leverage =>
    case InventoryTurnover =>
    case StockRetentionPeriod =>
    case AccountsReceivableTurnover =>
  }

  // ---------------------------------------------------------------------------------------
  // The code as written

  /** One loop iteration as written: the error entry is built as a `RatioResponse` with a null
      date (the `error` keyword is dropped by pydantic). */
  function EntryAsWritten(f: RatioFunction, ticker: string, call: Result<RatioResponse>): (r: Result<RatioResponse>)
    ensures call.Ok? ==> r == call
    ensures call.Err? && !call.fault.IsHttp() ==> r == Err(call.fault)
    ensures call.Err? && call.fault.IsHttp() ==> r == Err(ValidationFailed)
  {
    match call
    case Ok(_) => call
    case Err(fault) =>
      if fault.IsHttp() then MakeRatioResponse(Text(ticker), Text(ErrorName(FunctionName(f))), Null, Null)
      else Err(fault)
  }

  function EntriesAsWrittenFor(fs: seq<RatioFunction>, ticker: string, calls: Outcomes): (r: Result<seq<RatioResponse>>)
    ensures r.Ok? ==> |r.value| == |fs|
    ensures r.Err? ==> !r.fault.IsHttp()
    decreases |fs|
  {
    if |fs| == 0 then Ok([])
    else
      var ratios :- EntriesAsWrittenFor(fs[..|fs| - 1], ticker, calls);
      var f := fs[|fs| - 1];
      var ratio :- EntryAsWritten(f, ticker, calls(f));
      Ok(ratios + [ratio])
  }

  /** `get_all_ratios` as written. */
  function AllRatiosAsWritten(ticker: string, sheets: seq<BalanceSheet>, statements: seq<IncomeStatement>)
    : (r: Result<seq<RatioResponse>>)
    ensures r.Ok? ==> |r.value| == |RatioFunctions|
    ensures r.Err? ==> !r.fault.IsHttp()
  {
    EntriesAsWrittenFor(RatioFunctions, ticker, Calls(ticker, sheets, statements))
  }

  /** The code as written answers only when every ratio is computed, and then it answers what
      the intended endpoint does; a single error entry of the intended endpoint makes it fail
      with a validation error instead. */
  lemma {:induction false} AsWrittenKeepsOnlyComputed(fs: seq<RatioFunction>, ticker: string, calls: Outcomes)
    ensures EntriesAsWrittenFor(fs, ticker, calls).Ok? <==> forall i :: 0 <= i < |fs| ==> calls(fs[i]).Ok?
    ensures EntriesAsWrittenFor(fs, ticker, calls).Ok? ==>
      && EntriesFor(fs, ticker, calls).Ok?
      && |EntriesFor(fs, ticker, calls).value| == |fs|
      && |EntriesAsWrittenFor(fs, ticker, calls).value| == |fs|
      && forall i :: 0 <= i < |fs| ==>
           EntriesFor(fs, ticker, calls).value[i] == Computed(EntriesAsWrittenFor(fs, ticker, calls).value[i])
    ensures (EntriesFor(fs, ticker, calls).Ok? && exists i :: 0 <= i < |fs| && calls(fs[i]).Err?) ==>
      EntriesAsWrittenFor(fs, ticker, calls) == Err(ValidationFailed)
    decreases |fs|
  {
    if |fs| > 0 {
      var init := fs[..|fs| - 1];
      var last := fs[|fs| - 1];
      AsWrittenKeepsOnlyComputed(init, ticker, calls);
      assert forall i :: 0 <= i < |init| ==> init[i] == fs[i];
      EntriesForSpec(fs, ticker, calls);
      EntriesForSpec(init, ticker, calls);
      if EntriesFor(fs, ticker, calls).Ok? && exists i :: 0 <= i < |fs| && calls(fs[i]).Err? {
        if forall i :: 0 <= i < |init| ==> calls(init[i]).Ok? {
          assert calls(last).Err?;
          assert Survives(last, ticker, calls);
        } else {
          var i :| 0 <= i < |init| && calls(init[i]).Err?;
          assert EntriesFor(init, ticker, calls).Ok?;
        }
      }
    }
  }

  /** The counterexample: with no balance sheet the intended endpoint lists ten error entries,
      while the code as written fails outright with a validation error, at its first entry. */
  lemma NoBalanceSheetsAbortAsWritten(ticker: string, statements: seq<IncomeStatement>)
    ensures AllRatios(ticker, [], statements).Ok?
    ensures AllRatiosAsWritten(ticker, [], statements) == Err(ValidationFailed)
  {
    NoBalanceSheetsGiveErrorEntries(ticker, statements);
    var calls := Calls(ticker, [], statements);
    assert calls(RatioFunctions[0]).Err?;
    AsWrittenKeepsOnlyComputed(RatioFunctions, ticker, calls);
  }
}
