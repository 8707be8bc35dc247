/**
 * The daily 2-to-3 screen (`2jin3.py`, `main`): the previous trading day's
 * 2-streak stocks, ordered by sealed funds, then today's quote of each one,
 * finally ordered by today's percent change.
 *
 * The pool and the quotes are inputs: `snapshot` is the pool of the previous
 * trading day and `quotes` holds the `value` column each `stock_bid_ask_em`
 * call returns; a code missing from `quotes` is a call that raised.
 */
module TwoToThreeScreen {
  import opened Wrappers
  import opened Seqs
  import opened LimitUp

  /** A cell of the quote table's `value` column: a number, or anything `pd.to_numeric` rejects. */
  datatype Cell = Num(n: int) | NonNumeric

  /** Row positions of the quote table that the screen reads. */
  const ChangePctRow: nat := 22
  const TurnoverRateRow: nat := 26
  const VolumeRatioRow: nat := 27

  /** `current_data`: percent change (`涨跌幅`), turnover rate (`换手率`) and volume ratio (`量比`). */
  datatype CurrentData = CurrentData(changePct: Option<Cell>, turnoverRate: Option<Cell>, volumeRatio: Option<Cell>)

  function CellAt(quote: seq<Cell>, row: nat): Option<Cell> {
    if |quote| > row then Some(quote[row]) else None
  }

  /** Each field is the cell at its row when the table is long enough, and missing otherwise. */
  function CurrentDataOf(quote: seq<Cell>): (d: CurrentData)
    ensures d.changePct.Some? <==> |quote| > ChangePctRow
    ensures d.turnoverRate.Some? <==> |quote| > TurnoverRateRow
    ensures d.volumeRatio.Some? <==> |quote| > VolumeRatioRow
    ensures d.changePct.Some? ==> d.changePct.value == quote[ChangePctRow]
    ensures d.turnoverRate.Some? ==> d.turnoverRate.value == quote[TurnoverRateRow]
    ensures d.volumeRatio.Some? ==> d.volumeRatio.value == quote[VolumeRatioRow]
  {
    CurrentData(CellAt(quote, ChangePctRow), CellAt(quote, TurnoverRateRow), CellAt(quote, VolumeRatioRow))
  }

  /** An entry of `stock_info`. */
  datatype StockInfo = StockInfo(code: Code, name: string, changePct: Option<Cell>)

  /** The entry a candidate gives: none when its quote raised or came back empty. */
  function InfoFor(row: Row, quotes: map<Code, seq<Cell>>): Option<StockInfo> {
    if row.code !in quotes || |quotes[row.code]| == 0 then None
    else Some(StockInfo(row.code, row.name, CurrentDataOf(quotes[row.code]).changePct))
  }

  function HasQuote(quotes: map<Code, seq<Cell>>): Row -> bool {
    (row: Row) => InfoFor(row, quotes).Some?
  }

  /**
   * `stock_info` after the loop over `candidates`: one entry per candidate with a
   * quote, in candidate order; candidates without a quote are skipped. The
   * k-th entry is the info of the k-th candidate that has a quote.
   */
  function CollectInfo(candidates: seq<Row>, quotes: map<Code, seq<Cell>>): (r: seq<StockInfo>)
    ensures |r| == |Filter(candidates, HasQuote(quotes))|
    ensures var f := Filter(candidates, HasQuote(quotes));
      forall k :: 0 <= k < |f| ==> InfoFor(f[k], quotes) == Some(r[k])
    ensures forall e :: e in r ==> exists k :: 0 <= k < |candidates| && InfoFor(candidates[k], quotes) == Some(e)
    ensures forall k :: 0 <= k < |candidates| && InfoFor(candidates[k], quotes).Some? ==> InfoFor(candidates[k], quotes).value in r
  {
    if candidates == [] then []
    else
      var last := candidates[|candidates| - 1];
      var before := candidates[..|candidates| - 1];
      assert candidates == before + [last];
      FilterSnoc(before, last, HasQuote(quotes));
      var rest := CollectInfo(before, quotes);
      match InfoFor(last, quotes)
      case None => rest
      case Some(e) => rest + [e]
  }

  /** A `stock_info` entry after `pd.to_numeric(..., errors='coerce')`. */
  datatype Ranked = Ranked(code: Code, name: string, changePct: Option<int>)

  function ToNumeric(c: Option<Cell>): Option<int> {
    match c
    case Some(Num(n)) => Some(n)
    case _ => None
  }

  function Coerce(info: seq<StockInfo>): (r: seq<Ranked>)
    ensures |r| == |info|
    ensures forall k :: 0 <= k < |info| ==>
      r[k].code == info[k].code && r[k].name == info[k].name
      && (r[k].changePct.Some? <==> info[k].changePct.Some? && info[k].changePct.value.Num?)
      && (r[k].changePct.Some? ==> r[k].changePct.value == info[k].changePct.value.n)
  {
    seq(|info|, k requires 0 <= k < |info| => Ranked(info[k].code, info[k].name, ToNumeric(info[k].changePct)))
  }

  /**
   * After coercion, the k-th entry belongs to the k-th candidate with a
   * non-empty quote: same code and name, and its percent change is the number
   * in row 22 of that quote, or missing when the table has no row 22 or the
   * cell is not numeric.
   */
  lemma RankedFromQuote(candidates: seq<Row>, quotes: map<Code, seq<Cell>>)
    ensures var f, ranked := Filter(candidates, HasQuote(quotes)), Coerce(CollectInfo(candidates, quotes));
      && |ranked| == |f|
      && forall k :: 0 <= k < |f| ==>
        && f[k].code in quotes && |quotes[f[k].code]| > 0
        && ranked[k].code == f[k].code && ranked[k].name == f[k].name
        && (ranked[k].changePct.Some? <==> |quotes[f[k].code]| > ChangePctRow && quotes[f[k].code][ChangePctRow].Num?)
        && (ranked[k].changePct.Some? ==> quotes[f[k].code][ChangePctRow] == Num(ranked[k].changePct.value))
  {
  }

  /** Ascending percent change, missing values last (pandas sorts NaN to the end). */
  predicate ByChangeAsc(a: Ranked, b: Ranked) {
    match (a.changePct, b.changePct)
    case (Some(x), Some(y)) => x <= y
    case (Some(_), None) => true
    case (None, Some(_)) => false
    case (None, None) => true
  }

  lemma ChangeAscOrder()
    ensures TotalPreorder(ByChangeAsc)
  {
  }

  /** How `main` ends. */
  datatype ScreenOutcome =
    | NoLimitUpData
    | NoTwoStreak
    | Screened(candidates: seq<Row>, info: seq<StockInfo>, ranked: seq<Ranked>)

  /** The quote loop of `main`: appends one entry per candidate whose quote arrived, in candidate order. */
  method CollectStockInfo(sorted: seq<Row>, quotes: map<Code, seq<Cell>>) returns (stockInfo: seq<StockInfo>)
    ensures stockInfo == CollectInfo(sorted, quotes)
  {
    stockInfo := [];
    var k := 0;
    while k < |sorted|
      invariant 0 <= k <= |sorted|
      invariant stockInfo == CollectInfo(sorted[..k], quotes)
    {
      var stockCode, stockName := sorted[k].code, sorted[k].name;
      assert sorted[..k + 1][..k] == sorted[..k];
      if stockCode !in quotes {
        k := k + 1;
        continue;
      }
      var stockData := quotes[stockCode];
      if |stockData| == 0 {
        k := k + 1;
        continue;
      }
      var current := CurrentDataOf(stockData);
      stockInfo := stockInfo + [StockInfo(stockCode, stockName, current.changePct)];
      k := k + 1;
    }
    assert sorted[..k] == sorted;
  }

  /** `main` with the pool and the quote calls as inputs and the printing left out. */
  method Screen(snapshot: Frame, quotes: map<Code, seq<Cell>>) returns (out: ScreenOutcome)
    ensures out.NoLimitUpData? <==> IsEmpty(snapshot)
    ensures out.NoTwoStreak? <==> !IsEmpty(snapshot) && FilterStreak(snapshot, 2) == []
    ensures out.Screened? ==>
      && out.candidates == SortBy(FilterStreak(snapshot, 2), BySealedFundsDesc)
      && out.info == CollectInfo(out.candidates, quotes)
      && out.ranked == SortBy(Coerce(out.info), ByChangeAsc)
    ensures out.Screened? ==>
      && out.candidates != []
      && SortedBy(out.candidates, BySealedFundsDesc)
      && multiset(out.candidates) == multiset(FilterStreak(snapshot, 2))
      && |out.info| <= |out.candidates|
      && SortedBy(out.ranked, ByChangeAsc)
      && multiset(out.ranked) == multiset(Coerce(out.info))
  {
    if IsEmpty(snapshot) {
      return NoLimitUpData;
    }
    var consecutive := FilterStreak(snapshot, 2);
    if consecutive == [] {
      return NoTwoStreak;
    }
    var sorted := SortBy(consecutive, BySealedFundsDesc);
    SealedFundsOrder();
    SortBySorted(consecutive, BySealedFundsDesc);
    assert |sorted| == |consecutive| by {
      assert |multiset(sorted)| == |multiset(consecutive)|;
    }
    var stockInfo := CollectStockInfo(sorted, quotes);
    var ranked := if stockInfo != [] then SortBy(Coerce(stockInfo), ByChangeAsc) else [];
    ChangeAscOrder();
    SortBySorted(Coerce(stockInfo), ByChangeAsc);
    return Screened(sorted, stockInfo, ranked);
  }
}
