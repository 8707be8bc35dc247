/**
 * The top-3 backtest setup (`2jin3huice.py`): the previous trading day's three
 * 2-streak stocks with the largest sealed funds, handed to the strategy through
 * the global parameter registry, and the strategy's buy/sell rule.
 *
 * The market-data source, `calc_target_shares` and the backtest engine are not
 * modelled: the pool is an input, the share count a function given by the caller.
 */
module TopThreeBacktest {
  import opened Wrappers
  import opened Seqs
  import opened LimitUp

  /** `head(3)`. */
  const TopCount: nat := 3
  /** `ctx.hold_bars` on a buy. */
  const HoldBars: int := 100

  /** How the script ends before the backtest. */
  datatype Selection = NoLimitUpData | NoTwoStreak | Selected(top: seq<Row>)

  /** Lines 71-84: stop on an empty pool or no 2-streak rows, else the top three by sealed funds. */
  function SelectTopThree(snapshot: Frame): Selection {
    if IsEmpty(snapshot) then NoLimitUpData
    else
      var consecutive := FilterStreak(snapshot, 2);
      if consecutive == [] then NoTwoStreak
      else Selected(Take(SortBy(consecutive, BySealedFundsDesc), TopCount))
  }

  /** `top_3_stocks['代码'].tolist()`. */
  function Codes(rows: seq<Row>): (r: seq<Code>)
    ensures |r| == |rows|
    ensures forall k :: 0 <= k < |rows| ==> r[k] == rows[k].code
  {
    seq(|rows|, k requires 0 <= k < |rows| => rows[k].code)
  }

  /**
   * The selection stops exactly on an empty pool or an empty 2-streak set, and
   * otherwise is a top three: between one and three 2-streak rows, as many as
   * there are up to three, in non-increasing sealed funds, and no 2-streak row
   * left out has strictly larger sealed funds than one selected.
   */
  lemma SelectTopThreeIsTop(snapshot: Frame)
    ensures SelectTopThree(snapshot).NoLimitUpData? <==> IsEmpty(snapshot)
    ensures SelectTopThree(snapshot).NoTwoStreak? <==> !IsEmpty(snapshot) && FilterStreak(snapshot, 2) == []
    ensures SelectTopThree(snapshot).Selected? ==>
      var top, consecutive := SelectTopThree(snapshot).top, FilterStreak(snapshot, 2);
      && 1 <= |top| <= TopCount
      && |top| == (if |consecutive| < TopCount then |consecutive| else TopCount)
      && multiset(top) <= multiset(consecutive)
      && SortedBy(top, BySealedFundsDesc)
      && forall x, y :: x in top && y in multiset(consecutive) - multiset(top) ==> y.sealedFunds <= x.sealedFunds
  {
    var consecutive := FilterStreak(snapshot, 2);
    if !IsEmpty(snapshot) && consecutive != [] {
      var sorted := SortBy(consecutive, BySealedFundsDesc);
      SealedFundsOrder();
      SortBySorted(consecutive, BySealedFundsDesc);
      TopOfSorted(sorted, consecutive, TopCount, BySealedFundsDesc);
    }
  }

  /** Values held by the parameter registry. */
  datatype ParamValue = IntParam(n: int) | TextParam(s: string) | CodesParam(codes: seq<Code>)

  const SelectedStocksKey := "selected_stocks"
  const PercentKey := "percent"
  const StopProfitKey := "stop_profit_pct"

  /** The global `pb.param` registry. */
  class ParamRegistry {
    var entries: map<string, ParamValue>

    /** The four parameters registered at the top of the script. */
    constructor ()
      ensures entries == map[
        "stock_code" := TextParam("600000"),
        PercentKey := IntParam(1),
        "stop_loss_pct" := IntParam(10),
        StopProfitKey := IntParam(10)]
    {
      entries := map[
        "stock_code" := TextParam("600000"),
        PercentKey := IntParam(1),
        "stop_loss_pct" := IntParam(10),
        StopProfitKey := IntParam(10)];
    }

    /** `pb.param(name=...)`: the registered value, or None. */
    function Get(name: string): (v: Option<ParamValue>)
      reads this
      ensures v.Some? <==> name in entries
      ensures v.Some? ==> v.value == entries[name]
    {
      if name in entries then Some(entries[name]) else None
    }

    /** `pb.param(name=..., value=...)`: registers or replaces one value, nothing else changes. */
    method Set(name: string, value: ParamValue)
      modifies this
      ensures entries == old(entries)[name := value]
    {
      entries := entries[name := value];
    }
  }

  /** Truthiness of `selected_stocks`: a non-empty list of codes. */
  predicate HasSelection(v: Option<ParamValue>) {
    v.Some? && v.value.CodesParam? && |v.value.codes| > 0
  }

  /** An open long position (`ctx.long_pos()` when not None). */
  datatype Position = Position(shares: int)

  /** In the sell branch without a position, `pos.shares` raises on None. */
  datatype StrategyError = NoPositionToSell

  /** The fields of pybroker's `ExecContext` the strategy reads and writes. */
  class ExecContext {
    const longPos: Option<Position>
    var buyShares: Option<int>
    var holdBars: Option<int>
    var selectedStock: Option<Code>
    var sellShares: Option<int>
    var stopProfitPct: Option<ParamValue>

    constructor (longPos: Option<Position>)
      ensures this.longPos == longPos
      ensures buyShares.None? && holdBars.None? && selectedStock.None?
      ensures sellShares.None? && stopProfitPct.None?
    {
      this.longPos := longPos;
      buyShares, holdBars, selectedStock := None, None, None;
      sellShares, stopProfitPct := None, None;
    }
  }

  /**
   * `buy_with_stop_loss`. With no position and a non-empty selection: buy the
   * target share count for `percent`, hold 100 bars, pick the first selected
   * code. Otherwise: sell the whole position and set the stop-profit
   * percentage, which raises (changing nothing) when there is no position.
   */
  method BuyWithStopLoss(ctx: ExecContext, params: ParamRegistry, calcTargetShares: Option<ParamValue> -> int)
    returns (r: Outcome<StrategyError>)
    modifies ctx
    ensures var selected := params.Get(SelectedStocksKey);
      if ctx.longPos.None? && HasSelection(selected) then
        && r == Pass
        && ctx.buyShares == Some(calcTargetShares(params.Get(PercentKey)))
        && ctx.holdBars == Some(HoldBars)
        && ctx.selectedStock == Some(selected.value.codes[0])
        && ctx.sellShares == old(ctx.sellShares) && ctx.stopProfitPct == old(ctx.stopProfitPct)
      else if ctx.longPos.Some? then
        && r == Pass
        && ctx.sellShares == Some(ctx.longPos.value.shares)
        && ctx.stopProfitPct == params.Get(StopProfitKey)
        && ctx.buyShares == old(ctx.buyShares) && ctx.holdBars == old(ctx.holdBars)
        && ctx.selectedStock == old(ctx.selectedStock)
      else
        && r == Fail(NoPositionToSell)
        && ctx.buyShares == old(ctx.buyShares) && ctx.holdBars == old(ctx.holdBars)
        && ctx.selectedStock == old(ctx.selectedStock)
        && ctx.sellShares == old(ctx.sellShares) && ctx.stopProfitPct == old(ctx.stopProfitPct)
  {
    var selectedStocks := params.Get(SelectedStocksKey);
    var pos := ctx.longPos;
    if pos.None? && HasSelection(selectedStocks) {
      ctx.buyShares := Some(calcTargetShares(params.Get(PercentKey)));
      ctx.holdBars := Some(HoldBars);
      ctx.selectedStock := Some(selectedStocks.value.codes[0]);
      return Pass;
    } else {
      if pos.None? {
        return Fail(NoPositionToSell);
      }
      ctx.sellShares := Some(pos.value.shares);
      ctx.stopProfitPct := params.Get(StopProfitKey);
      return Pass;
    }
  }

  /**
   * Lines 71-95: select the top three, publish their codes as `selected_stocks`
   * and hand the same codes to the strategy as its symbols.
   */
  method ConfigureBacktest(snapshot: Frame, params: ParamRegistry) returns (selection: Selection, symbols: seq<Code>)
    modifies params
    ensures selection == SelectTopThree(snapshot)
    ensures selection.Selected? ==>
      && symbols == Codes(selection.top)
      && params.entries == old(params.entries)[SelectedStocksKey := CodesParam(symbols)]
      && HasSelection(params.Get(SelectedStocksKey))
    ensures !selection.Selected? ==> symbols == [] && params.entries == old(params.entries)
  {
    selection := SelectTopThree(snapshot);
    if !selection.Selected? {
      return selection, [];
    }
    SelectTopThreeIsTop(snapshot);
    params.Set(SelectedStocksKey, CodesParam(Codes(selection.top)));
    symbols := Codes(selection.top);
  }
}
