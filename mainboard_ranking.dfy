/**
 * The mainboard ranking (`daban.py`, `main`): today's market quotes without the
 * stocks already at limit-up, the ten mainboard (code starting with '6') stocks
 * with the largest percent change and the ten with the largest turnover.
 *
 * Today's pool and the market snapshot are inputs.
 */
module MainboardRanking {
  import opened Wrappers
  import opened Seqs
  import opened LimitUp

  /** A row of `stock_zh_a_spot_em`; percent change (`涨跌幅`) and turnover (`成交额`) may be NaN. */
  datatype Quote = Quote(code: Code, name: string, changePct: Option<int>, turnover: Option<int>)

  /** `head(10)`. */
  const TopCount: nat := 10

  /** `str.startswith('6')`. */
  predicate IsMainboard(code: Code) {
    |code| > 0 && code[0] == '6'
  }

  function NotIn(ztCodes: seq<Code>): Quote -> bool {
    (q: Quote) => q.code !in ztCodes
  }

  function MainboardQuote(): Quote -> bool {
    (q: Quote) => IsMainboard(q.code)
  }

  /** Larger first, NaN last (pandas sorts NaN to the end whatever the direction). */
  predicate DescNaNLast(a: Option<int>, b: Option<int>) {
    match (a, b)
    case (Some(x), Some(y)) => x >= y
    case (Some(_), None) => true
    case (None, Some(_)) => false
    case (None, None) => true
  }

  predicate ByChangeDesc(a: Quote, b: Quote) {
    DescNaNLast(a.changePct, b.changePct)
  }

  predicate ByTurnoverDesc(a: Quote, b: Quote) {
    DescNaNLast(a.turnover, b.turnover)
  }

  lemma RankingOrders()
    ensures TotalPreorder(ByChangeDesc) && TotalPreorder(ByTurnoverDesc)
  {
  }

  /** `non_zt_stocks`: the market rows whose code is not in today's pool, in market order. */
  function NonLimitUp(ztCodes: seq<Code>, market: seq<Quote>): seq<Quote> {
    Filter(market, NotIn(ztCodes))
  }

  /** `sorted[sorted['代码'].str.startswith('6')].head(10)` for one ranking. */
  function TopMainboard(pool: seq<Quote>, le: (Quote, Quote) -> bool): seq<Quote> {
    Take(Filter(SortBy(pool, le), MainboardQuote()), TopCount)
  }

  /** Both outputs of `main`. */
  datatype Board = Board(byChange: seq<Quote>, byTurnover: seq<Quote>)

  function RankMainboard(ztCodes: seq<Code>, market: seq<Quote>): Board {
    var nonZt := NonLimitUp(ztCodes, market);
    Board(TopMainboard(nonZt, ByChangeDesc), TopMainboard(nonZt, ByTurnoverDesc))
  }

  /** The stocks either list ranks: mainboard stocks of the market that are not at limit-up. */
  function Eligible(ztCodes: seq<Code>, market: seq<Quote>): seq<Quote> {
    Filter(NonLimitUp(ztCodes, market), MainboardQuote())
  }

  /**
   * One ranking is a top ten of the eligible stocks: as many as there are up to
   * ten, drawn from them, in ranking order, and no eligible stock left out ranks
   * strictly above one selected.
   */
  lemma TopMainboardIsTop(ztCodes: seq<Code>, market: seq<Quote>, le: (Quote, Quote) -> bool)
    requires TotalPreorder(le)
    ensures var top, eligible := TopMainboard(NonLimitUp(ztCodes, market), le), Eligible(ztCodes, market);
      && |top| == (if |eligible| < TopCount then |eligible| else TopCount)
      && multiset(top) <= multiset(eligible)
      && SortedBy(top, le)
      && forall x, y :: x in top && y in multiset(eligible) - multiset(top) ==> le(x, y)
  {
    var nonZt := NonLimitUp(ztCodes, market);
    var sorted := SortBy(nonZt, le);
    SortBySorted(nonZt, le);
    FilterSorted(sorted, MainboardQuote(), le);
    FilterCounts(sorted, MainboardQuote());
    FilterCounts(nonZt, MainboardQuote());
    var filtered := Filter(sorted, MainboardQuote());
    var eligible := Eligible(ztCodes, market);
    assert forall x :: multiset(filtered)[x] == multiset(eligible)[x];
    assert multiset(filtered) == multiset(eligible);
    TopOfSorted(filtered, eligible, TopCount, le);
  }

  /**
   * What `main` prints: two lists of at most ten mainboard stocks taken from the
   * market, none of them in today's limit-up pool, each a top ten of the
   * eligible stocks by its own key, largest first.
   */
  lemma RankMainboardCorrect(ztCodes: seq<Code>, market: seq<Quote>)
    ensures var board, eligible := RankMainboard(ztCodes, market), Eligible(ztCodes, market);
      && (forall q :: q in board.byChange + board.byTurnover ==>
            q.code !in ztCodes && IsMainboard(q.code) && q in market)
      && |board.byChange| <= TopCount && |board.byTurnover| <= TopCount
      && SortedBy(board.byChange, ByChangeDesc) && SortedBy(board.byTurnover, ByTurnoverDesc)
      && (forall x, y :: x in board.byChange && y in multiset(eligible) - multiset(board.byChange) ==>
            DescNaNLast(x.changePct, y.changePct))
      && (forall x, y :: x in board.byTurnover && y in multiset(eligible) - multiset(board.byTurnover) ==>
            DescNaNLast(x.turnover, y.turnover))
  {
    var board, eligible := RankMainboard(ztCodes, market), Eligible(ztCodes, market);
    RankingOrders();
    TopMainboardIsTop(ztCodes, market, ByChangeDesc);
    TopMainboardIsTop(ztCodes, market, ByTurnoverDesc);
    EligibleMeans(ztCodes, market);
    DrawnFrom(board.byChange, eligible);
    DrawnFrom(board.byTurnover, eligible);
    forall x, y | x in board.byChange && y in multiset(eligible) - multiset(board.byChange)
      ensures DescNaNLast(x.changePct, y.changePct)
    {
      assert ByChangeDesc(x, y);
    }
    forall x, y | x in board.byTurnover && y in multiset(eligible) - multiset(board.byTurnover)
      ensures DescNaNLast(x.turnover, y.turnover)
    {
      assert ByTurnoverDesc(x, y);
    }
  }

  lemma EligibleMeans(ztCodes: seq<Code>, market: seq<Quote>)
    ensures forall q :: q in Eligible(ztCodes, market) <==> q in market && q.code !in ztCodes && IsMainboard(q.code)
  {
    FilterCounts(NonLimitUp(ztCodes, market), MainboardQuote());
    FilterCounts(market, NotIn(ztCodes));
  }

  lemma DrawnFrom(top: seq<Quote>, pool: seq<Quote>)
    requires multiset(top) <= multiset(pool)
    ensures forall q :: q in top ==> q in pool
  {
    forall q | q in top ensures q in pool {
      assert q in multiset(top);
    }
  }
}
