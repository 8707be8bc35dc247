/**
 * The daily limit-up pool (`stock_zt_pool_em`) as a table: the rows the three
 * streak scripts read, and the streak filter each of them defines.
 */
module LimitUp {
  import opened Wrappers
  import opened Seqs

  /** A stock code (`代码`), e.g. "600000". */
  type Code = string

  /** A trading day as the pool fetcher expects it, e.g. "20241203". */
  type Day = string

  /**
   * One row of the pool. `streak` is the `连板数` cell (None when the cell is
   * NaN); `sealedFunds` is `封板资金`, compared only, so an integer key; the
   * remaining columns are carried along unchanged.
   */
  datatype Row = Row(
    code: Code,
    name: string,
    streak: Option<int>,
    sealedFunds: int,
    burstCount: int,
    limitStats: string)

  /**
   * A fetched pool. `hasStreakColumn` says whether the `连板数` column exists;
   * a frame built from nothing (`pd.DataFrame()`) has no columns at all.
   */
  datatype Frame = Frame(hasStreakColumn: bool, rows: seq<Row>)

  /** `pd.DataFrame()`: no columns and no rows. */
  const NoColumns: Frame := Frame(false, [])

  /** `df.empty`. */
  predicate IsEmpty(f: Frame) {
    |f.rows| == 0
  }

  function StreakIs(target: int): Row -> bool {
    (r: Row) => r.streak == Some(target)
  }

  /**
   * `filter_consecutive_zt_stocks`: the rows whose streak equals `target`, in
   * frame order; nothing at all when the streak column is missing.
   */
  function FilterStreak(f: Frame, target: int): (r: seq<Row>)
    ensures |r| <= |f.rows|
    ensures !f.hasStreakColumn || IsEmpty(f) ==> r == []
  {
    if f.hasStreakColumn then Filter(f.rows, StreakIs(target)) else []
  }

  /**
   * The filter is exact: a row is kept iff the streak column exists and the row's
   * streak is `target`, and a kept row is kept as often as it occurs.
   */
  lemma FilterStreakExact(f: Frame, target: int)
    ensures forall x :: x in FilterStreak(f, target) <==> f.hasStreakColumn && x in f.rows && x.streak == Some(target)
    ensures forall x :: multiset(FilterStreak(f, target))[x] ==
                        if f.hasStreakColumn && x.streak == Some(target) then multiset(f.rows)[x] else 0
  {
    FilterCounts(f.rows, StreakIs(target));
  }

  /** Ordering by sealed funds (`封板资金`), largest first. */
  predicate BySealedFundsDesc(a: Row, b: Row) {
    a.sealedFunds >= b.sealedFunds
  }

  lemma SealedFundsOrder()
    ensures TotalPreorder(BySealedFundsDesc)
  {
  }
}
