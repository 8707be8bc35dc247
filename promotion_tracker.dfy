/**
 * The two-to-three promotion tracker (`process_date_range`): for each pair of
 * adjacent trading days it takes the day's 2-streak stocks and labels each
 * one by whether the next day lists the same code with streak 3.
 *
 * The calendar and the pool fetcher are inputs: `days` is the ordered list of
 * trading days and `fetch` holds the pool each day returns; a day missing
 * from `fetch` is a fetch that raised.
 */
module PromotionTracker {
  import opened Wrappers
  import opened Seqs
  import opened LimitUp

  /** A row of the day's pool stamped with its observation day (`2连板日期`). */
  datatype Record = Record(stock: Row, twoStreakDate: Day)

  /** The promoted (`successful_stocks`) and not-promoted (`unsuccessful_stocks`) lists. */
  datatype Tables = Tables(successful: seq<Record>, unsuccessful: seq<Record>)

  /**
   * A non-empty next-day pool without the `连板数` column makes the membership
   * test raise a KeyError that nothing catches: the whole run stops.
   */
  datatype TrackError = MissingStreakColumn(day: Day)

  /** `get_zt_stocks_by_day`: a fetch that raises reads as a frame without columns. */
  function GetZtStocksByDay(fetch: map<Day, Frame>, day: Day): (f: Frame)
    ensures day in fetch ==> f == fetch[day]
    ensures day !in fetch ==> IsEmpty(f) && !f.hasStreakColumn
  {
    if day in fetch then fetch[day] else NoColumns
  }

  function SnapshotOf(days: seq<Day>, fetch: map<Day, Frame>, i: int): Frame
    requires 0 <= i < |days|
  {
    GetZtStocksByDay(fetch, days[i])
  }

  /** Stamps every row with the observation day, keeping row order. */
  function Stamp(rows: seq<Row>, day: Day): (r: seq<Record>)
    ensures |r| == |rows|
    ensures forall k :: 0 <= k < |rows| ==> r[k] == Record(rows[k], day)
  {
    seq(|rows|, k requires 0 <= k < |rows| => Record(rows[k], day))
  }

  function PromotionOf(code: Code): Row -> bool {
    (r: Row) => r.code == code && r.streak == Some(3)
  }

  /** `is_successful`: the next-day rows with this code and streak 3 are not empty. */
  predicate Promoted(next: Frame, code: Code)
  {
    Filter(next.rows, PromotionOf(code)) != []
  }

  lemma PromotedMeans(next: Frame, code: Code)
    ensures Promoted(next, code) <==> exists r :: r in next.rows && r.code == code && r.streak == Some(3)
  {
    var hits := Filter(next.rows, PromotionOf(code));
    FilterCounts(next.rows, PromotionOf(code));
    if hits != [] {
      assert hits[0] in hits;
    }
  }

  function PromotedIn(next: Frame): Record -> bool {
    (x: Record) => Promoted(next, x.stock.code)
  }

  function NotPromotedIn(next: Frame): Record -> bool {
    (x: Record) => !Promoted(next, x.stock.code)
  }

  /** The records one pair contributes, split by label, each list in row order. */
  function Classify(candidates: seq<Row>, next: Frame, day: Day): Tables {
    var stamped := Stamp(candidates, day);
    Tables(Filter(stamped, PromotedIn(next)), Filter(stamped, NotPromotedIn(next)))
  }

  /** Labelling one more candidate appends its record to exactly one list. */
  lemma ClassifySnoc(candidates: seq<Row>, j: nat, next: Frame, day: Day)
    requires j < |candidates|
    ensures var before, after, x := Stamp(candidates[..j], day), Stamp(candidates[..j + 1], day), Record(candidates[j], day);
      if Promoted(next, candidates[j].code) then
        && Filter(after, PromotedIn(next)) == Filter(before, PromotedIn(next)) + [x]
        && Filter(after, NotPromotedIn(next)) == Filter(before, NotPromotedIn(next))
      else
        && Filter(after, PromotedIn(next)) == Filter(before, PromotedIn(next))
        && Filter(after, NotPromotedIn(next)) == Filter(before, NotPromotedIn(next)) + [x]
  {
    var before, x := Stamp(candidates[..j], day), Record(candidates[j], day);
    assert Stamp(candidates[..j + 1], day) == before + [x];
    FilterSnoc(before, x, PromotedIn(next));
    FilterSnoc(before, x, NotPromotedIn(next));
    assert Filter(before, PromotedIn(next)) + [] == Filter(before, PromotedIn(next));
    assert Filter(before, NotPromotedIn(next)) + [] == Filter(before, NotPromotedIn(next));
  }

  /** What the loop body does with pair (i, i + 1). */
  datatype Step = Skip | Emit(tables: Tables) | Abort(error: TrackError)

  function PairStep(days: seq<Day>, fetch: map<Day, Frame>, i: nat): Step
    requires i + 1 < |days|
  {
    var current := SnapshotOf(days, fetch, i);
    if IsEmpty(current) then Skip
    else
      var candidates := FilterStreak(current, 2);
      if candidates == [] then Skip
      else
        var next := SnapshotOf(days, fetch, i + 1);
        if IsEmpty(next) then Skip
        else if !next.hasStreakColumn then Abort(MissingStreakColumn(days[i + 1]))
        else Emit(Classify(candidates, next, days[i]))
  }

  /** `range(len(trading_days) - 1)`: empty when there are fewer than two days. */
  function PairCount(days: seq<Day>): nat {
    if |days| == 0 then 0 else |days| - 1
  }

  /** The lists after the first `n` pairs, or the error that stopped the run. */
  function TrackUpTo(days: seq<Day>, fetch: map<Day, Frame>, n: nat): Result<Tables, TrackError>
    requires n <= PairCount(days)
  {
    if n == 0 then Ok(Tables([], []))
    else
      match TrackUpTo(days, fetch, n - 1)
      case Err(e) => Err(e)
      case Ok(t) =>
        match PairStep(days, fetch, n - 1)
        case Skip => Ok(t)
        case Abort(e) => Err(e)
        case Emit(u) => Ok(Tables(t.successful + u.successful, t.unsuccessful + u.unsuccessful))
  }

  function Track(days: seq<Day>, fetch: map<Day, Frame>): Result<Tables, TrackError> {
    TrackUpTo(days, fetch, PairCount(days))
  }

  /**
   * The inner loop of `process_date_range`: labels every 2-streak row of the
   * current day against the next day's pool and appends it to one of the lists.
   */
  method AppendLabelled(
    twoLimitUp: seq<Row>, currentDay: Day, nextDay: Day, nextDayZt: Frame,
    successful0: seq<Record>, unsuccessful0: seq<Record>)
    returns (r: Result<Tables, TrackError>)
    requires twoLimitUp != []
    ensures !nextDayZt.hasStreakColumn ==> r == Err(MissingStreakColumn(nextDay))
    ensures nextDayZt.hasStreakColumn ==>
      var added := Classify(twoLimitUp, nextDayZt, currentDay);
      r == Ok(Tables(successful0 + added.successful, unsuccessful0 + added.unsuccessful))
  {
    var successful, unsuccessful := successful0, unsuccessful0;
    var j := 0;
    while j < |twoLimitUp|
      invariant 0 <= j <= |twoLimitUp|
      invariant j > 0 ==> nextDayZt.hasStreakColumn
      invariant successful == successful0 + Filter(Stamp(twoLimitUp[..j], currentDay), PromotedIn(nextDayZt))
      invariant unsuccessful == unsuccessful0 + Filter(Stamp(twoLimitUp[..j], currentDay), NotPromotedIn(nextDayZt))
    {
      var stock := twoLimitUp[j];
      if !nextDayZt.hasStreakColumn {
        return Err(MissingStreakColumn(nextDay));
      }
      var isSuccessful := Promoted(nextDayZt, stock.code);
      var stockData := Record(stock, currentDay);
      ghost var promotedBefore := Filter(Stamp(twoLimitUp[..j], currentDay), PromotedIn(nextDayZt));
      ghost var notPromotedBefore := Filter(Stamp(twoLimitUp[..j], currentDay), NotPromotedIn(nextDayZt));
      ClassifySnoc(twoLimitUp, j, nextDayZt, currentDay);
      if isSuccessful {
        successful := successful + [stockData];
        assert successful == successful0 + (promotedBefore + [stockData]);
      } else {
        unsuccessful := unsuccessful + [stockData];
        assert unsuccessful == unsuccessful0 + (notPromotedBefore + [stockData]);
      }
      j := j + 1;
    }
    assert twoLimitUp[..j] == twoLimitUp;
    return Ok(Tables(successful, unsuccessful));
  }

  /** `process_date_range` without the CSV output. */
  method ProcessDateRange(tradingDays: seq<Day>, fetch: map<Day, Frame>) returns (r: Result<Tables, TrackError>)
    ensures r == Track(tradingDays, fetch)
  {
    var successful: seq<Record> := [];
    var unsuccessful: seq<Record> := [];
    var i := 0;
    while i < |tradingDays| - 1
      invariant 0 <= i <= PairCount(tradingDays)
      invariant TrackUpTo(tradingDays, fetch, i) == Ok(Tables(successful, unsuccessful))
    {
      var currentDay := tradingDays[i];
      var nextDay := tradingDays[i + 1];
      var stockZt := GetZtStocksByDay(fetch, currentDay);
      if IsEmpty(stockZt) {
        i := i + 1;
        continue;
      }
      var twoLimitUp := FilterStreak(stockZt, 2);
      if twoLimitUp == [] {
        i := i + 1;
        continue;
      }
      var nextDayZt := GetZtStocksByDay(fetch, nextDay);
      if IsEmpty(nextDayZt) {
        i := i + 1;
        continue;
      }
      var labelled := AppendLabelled(twoLimitUp, currentDay, nextDay, nextDayZt, successful, unsuccessful);
      if labelled.Err? {
        ErrPersists(tradingDays, fetch, i + 1, PairCount(tradingDays));
        return labelled;
      }
      successful, unsuccessful := labelled.value.successful, labelled.value.unsuccessful;
      i := i + 1;
    }
    return Ok(Tables(successful, unsuccessful));
  }

  /** Once a pair has raised, the run's result is that error. */
  lemma {:induction false} ErrPersists(days: seq<Day>, fetch: map<Day, Frame>, n: nat, m: nat)
    requires n <= m <= PairCount(days)
    requires TrackUpTo(days, fetch, n).Err?
    ensures TrackUpTo(days, fetch, m) == TrackUpTo(days, fetch, n)
  {
    if n < m {
      ErrPersists(days, fetch, n, m - 1);
    }
  }
}

/** What the tracker promises about the lists it builds. */
module PromotionTrackerProperties {
  import opened Wrappers
  import opened Seqs
  import opened LimitUp
  import opened PromotionTracker

  /**
   * One pair: every candidate is stamped with the day and lands in exactly one
   * list, the promoted list holding exactly those the next day lists with streak 3.
   */
  lemma ClassifyPartitions(candidates: seq<Row>, next: Frame, day: Day)
    ensures var t := Classify(candidates, next, day);
      && multiset(t.successful) + multiset(t.unsuccessful) == multiset(Stamp(candidates, day))
      && (forall x :: x in t.successful <==> x.twoStreakDate == day && x.stock in candidates && Promoted(next, x.stock.code))
      && (forall x :: x in t.unsuccessful <==> x.twoStreakDate == day && x.stock in candidates && !Promoted(next, x.stock.code))
  {
    var stamped := Stamp(candidates, day);
    FilterSplit(stamped, PromotedIn(next), NotPromotedIn(next));
    FilterCounts(stamped, PromotedIn(next));
    FilterCounts(stamped, NotPromotedIn(next));
    forall x ensures x in stamped <==> x.twoStreakDate == day && x.stock in candidates {
      if x in stamped {
        var k :| 0 <= k < |stamped| && stamped[k] == x;
      }
      if x.twoStreakDate == day && x.stock in candidates {
        var k :| 0 <= k < |candidates| && candidates[k] == x.stock;
        assert stamped[k] == x;
      }
    }
  }

  /**
   * Reference definition of what pair (i, i + 1) should contribute: every 2-streak
   * row of day i, unless day i + 1's pool is empty (then no label can be decided).
   */
  function Observed(days: seq<Day>, fetch: map<Day, Frame>, i: nat): seq<Record>
    requires i + 1 < |days|
  {
    if IsEmpty(SnapshotOf(days, fetch, i + 1)) then []
    else Stamp(FilterStreak(SnapshotOf(days, fetch, i), 2), days[i])
  }

  function ObservedUpTo(days: seq<Day>, fetch: map<Day, Frame>, n: nat): seq<Record>
    requires n <= PairCount(days)
  {
    if n == 0 then [] else ObservedUpTo(days, fetch, n - 1) + Observed(days, fetch, n - 1)
  }

  /** What one step adds is exactly what the reference says the pair contributes. */
  lemma StepMatchesObserved(days: seq<Day>, fetch: map<Day, Frame>, i: nat)
    requires i + 1 < |days|
    ensures PairStep(days, fetch, i).Skip? ==> Observed(days, fetch, i) == []
    ensures PairStep(days, fetch, i).Emit? ==>
      var u := PairStep(days, fetch, i).tables;
      multiset(u.successful) + multiset(u.unsuccessful) == multiset(Observed(days, fetch, i))
  {
    var candidates := FilterStreak(SnapshotOf(days, fetch, i), 2);
    ClassifyPartitions(candidates, SnapshotOf(days, fetch, i + 1), days[i]);
  }

  /** The promoted and the not-promoted lists together hold exactly the observed 2-streak rows. */
  lemma {:induction false} TablesPartitionObserved(days: seq<Day>, fetch: map<Day, Frame>, n: nat)
    requires n <= PairCount(days)
    requires TrackUpTo(days, fetch, n).Ok?
    ensures var t := TrackUpTo(days, fetch, n).value;
      multiset(t.successful) + multiset(t.unsuccessful) == multiset(ObservedUpTo(days, fetch, n))
  {
    if n > 0 {
      var i := n - 1;
      assert TrackUpTo(days, fetch, i).Ok?;
      TablesPartitionObserved(days, fetch, i);
      StepMatchesObserved(days, fetch, i);
      var t0 := TrackUpTo(days, fetch, i).value;
      var t := TrackUpTo(days, fetch, n).value;
      var step := PairStep(days, fetch, i);
      assert ObservedUpTo(days, fetch, n) == ObservedUpTo(days, fetch, i) + Observed(days, fetch, i);
      if step.Skip? {
        assert t == t0;
      } else {
        assert step.Emit?;
        assert t.successful == t0.successful + step.tables.successful;
        assert t.unsuccessful == t0.unsuccessful + step.tables.unsuccessful;
      }
    }
  }

  /**
   * `x` was emitted by pair (i, i + 1) with label `promoted`: it is a 2-streak row
   * of day i stamped with day i, and day i + 1's pool (non-empty, with a streak
   * column) does or does not list its code with streak 3.
   */
  ghost predicate LabelledAt(days: seq<Day>, fetch: map<Day, Frame>, i: int, x: Record, promoted: bool) {
    && 0 <= i && i + 1 < |days|
    && x.twoStreakDate == days[i]
    && x.stock in FilterStreak(SnapshotOf(days, fetch, i), 2)
    && !IsEmpty(SnapshotOf(days, fetch, i + 1))
    && SnapshotOf(days, fetch, i + 1).hasStreakColumn
    && Promoted(SnapshotOf(days, fetch, i + 1), x.stock.code) == promoted
  }

  /** Unfolds one step of the run. */
  lemma TrackStep(days: seq<Day>, fetch: map<Day, Frame>, n: nat)
    requires 0 < n <= PairCount(days)
    requires TrackUpTo(days, fetch, n).Ok?
    ensures TrackUpTo(days, fetch, n - 1).Ok?
    ensures var t0, t, step := TrackUpTo(days, fetch, n - 1).value, TrackUpTo(days, fetch, n).value, PairStep(days, fetch, n - 1);
      && (step.Skip? || step.Emit?)
      && (step.Skip? ==> t == t0)
      && (step.Emit? ==> t == Tables(t0.successful + step.tables.successful, t0.unsuccessful + step.tables.unsuccessful))
  {
  }

  /** The records one emitting pair adds carry its label. */
  lemma EmitLabelled(days: seq<Day>, fetch: map<Day, Frame>, i: nat)
    requires i + 1 < |days|
    requires PairStep(days, fetch, i).Emit?
    ensures var u := PairStep(days, fetch, i).tables;
      && (forall x :: x in u.successful ==> LabelledAt(days, fetch, i, x, true))
      && (forall x :: x in u.unsuccessful ==> LabelledAt(days, fetch, i, x, false))
  {
    var candidates := FilterStreak(SnapshotOf(days, fetch, i), 2);
    ClassifyPartitions(candidates, SnapshotOf(days, fetch, i + 1), days[i]);
  }

  /** Every emitted record comes from a 2-streak row of an observation day and carries that pair's label. */
  lemma {:induction false} RecordsAreLabelled(days: seq<Day>, fetch: map<Day, Frame>, n: nat)
    requires n <= PairCount(days)
    requires TrackUpTo(days, fetch, n).Ok?
    ensures var t := TrackUpTo(days, fetch, n).value;
      && (forall x :: x in t.successful ==> exists i :: 0 <= i < n && LabelledAt(days, fetch, i, x, true))
      && (forall x :: x in t.unsuccessful ==> exists i :: 0 <= i < n && LabelledAt(days, fetch, i, x, false))
  {
    if n > 0 {
      var i := n - 1;
      TrackStep(days, fetch, n);
      RecordsAreLabelled(days, fetch, i);
      var t := TrackUpTo(days, fetch, n).value;
      var t0 := TrackUpTo(days, fetch, i).value;
      var step := PairStep(days, fetch, i);
      if step.Emit? {
        EmitLabelled(days, fetch, i);
        forall x | x in t.successful ensures exists k :: 0 <= k < n && LabelledAt(days, fetch, k, x, true) {
          if x !in t0.successful {
            assert x in step.tables.successful;
            assert LabelledAt(days, fetch, i, x, true);
          }
        }
        forall x | x in t.unsuccessful ensures exists k :: 0 <= k < n && LabelledAt(days, fetch, k, x, false) {
          if x !in t0.unsuccessful {
            assert x in step.tables.unsuccessful;
            assert LabelledAt(days, fetch, i, x, false);
          }
        }
      }
    }
  }

  /** The trading calendar lists each day once. */
  ghost predicate DistinctDays(days: seq<Day>) {
    forall i, j :: 0 <= i < j < |days| ==> days[i] != days[j]
  }

  /** With a duplicate-free calendar the pair and the label of a record are determined by its day. */
  lemma LabelUnique(days: seq<Day>, fetch: map<Day, Frame>, i: int, x: Record, b: bool)
    requires DistinctDays(days)
    requires LabelledAt(days, fetch, i, x, b)
    ensures forall j, c :: LabelledAt(days, fetch, j, x, c) ==> j == i && c == b
  {
    forall j, c | LabelledAt(days, fetch, j, x, c) ensures j == i && c == b {
      assert days[j] == days[i];
    }
  }

  /** With a duplicate-free calendar no record is in both lists. */
  lemma TablesDisjoint(days: seq<Day>, fetch: map<Day, Frame>)
    requires DistinctDays(days)
    requires Track(days, fetch).Ok?
    ensures var t := Track(days, fetch).value;
      forall x :: x in t.successful ==> x !in t.unsuccessful
  {
    var n := PairCount(days);
    var t := Track(days, fetch).value;
    RecordsAreLabelled(days, fetch, n);
    forall x | x in t.successful ensures x !in t.unsuccessful {
      var i :| 0 <= i < n && LabelledAt(days, fetch, i, x, true);
      LabelUnique(days, fetch, i, x, true);
    }
  }

  /**
   * The label is the promotion test, both ways: a 2-streak row of day i whose next
   * day's pool is non-empty is in the promoted list iff day i + 1 lists its code
   * with streak 3, and in the not-promoted list otherwise.
   */
  lemma PromotedIff(days: seq<Day>, fetch: map<Day, Frame>, i: nat, row: Row)
    requires DistinctDays(days)
    requires Track(days, fetch).Ok?
    requires i + 1 < |days|
    requires row in FilterStreak(SnapshotOf(days, fetch, i), 2)
    requires !IsEmpty(SnapshotOf(days, fetch, i + 1))
    ensures var t := Track(days, fetch).value;
      var next := SnapshotOf(days, fetch, i + 1);
      && (Record(row, days[i]) in t.successful <==> Promoted(next, row.code))
      && (Record(row, days[i]) in t.unsuccessful <==> !Promoted(next, row.code))
  {
    var n := PairCount(days);
    var t := Track(days, fetch).value;
    var x := Record(row, days[i]);
    ObservedHolds(days, fetch, i, row);
    TablesPartitionObserved(days, fetch, n);
    assert x in multiset(ObservedUpTo(days, fetch, n));
    assert x in multiset(t.successful) + multiset(t.unsuccessful);
    RecordsAreLabelled(days, fetch, n);
    if x in t.successful {
      var j :| 0 <= j < n && LabelledAt(days, fetch, j, x, true);
      LabelUnique(days, fetch, j, x, true);
    } else {
      assert x !in multiset(t.successful);
      assert x in multiset(t.unsuccessful);
      assert x in t.unsuccessful;
      var j :| 0 <= j < n && LabelledAt(days, fetch, j, x, false);
      LabelUnique(days, fetch, j, x, false);
    }
  }

  /** A 2-streak row of an observation day with a non-empty next-day pool is in the reference. */
  lemma ObservedHolds(days: seq<Day>, fetch: map<Day, Frame>, i: nat, row: Row)
    requires i + 1 < |days|
    requires row in FilterStreak(SnapshotOf(days, fetch, i), 2)
    requires !IsEmpty(SnapshotOf(days, fetch, i + 1))
    ensures Record(row, days[i]) in ObservedUpTo(days, fetch, PairCount(days))
  {
    ObservedAt(days, fetch, i, row);
    ObservedPrefix(days, fetch, i + 1, PairCount(days));
    InPrefix(ObservedUpTo(days, fetch, i + 1), ObservedUpTo(days, fetch, PairCount(days)), Record(row, days[i]));
  }

  lemma ObservedAt(days: seq<Day>, fetch: map<Day, Frame>, i: nat, row: Row)
    requires i + 1 < |days|
    requires row in FilterStreak(SnapshotOf(days, fetch, i), 2)
    requires !IsEmpty(SnapshotOf(days, fetch, i + 1))
    ensures Record(row, days[i]) in ObservedUpTo(days, fetch, i + 1)
  {
    var candidates := FilterStreak(SnapshotOf(days, fetch, i), 2);
    var k :| 0 <= k < |candidates| && candidates[k] == row;
    var observed := Observed(days, fetch, i);
    assert observed == Stamp(candidates, days[i]);
    assert observed[k] == Record(row, days[i]);
    assert ObservedUpTo(days, fetch, i + 1) == ObservedUpTo(days, fetch, i) + observed;
  }

  lemma InPrefix<T>(a: seq<T>, b: seq<T>, x: T)
    requires a <= b && x in a
    ensures x in b
  {
    var k :| 0 <= k < |a| && a[k] == x;
    assert b[k] == x;
  }

  lemma {:induction false} ObservedPrefix(days: seq<Day>, fetch: map<Day, Frame>, m: nat, n: nat)
    requires m <= n <= PairCount(days)
    ensures ObservedUpTo(days, fetch, m) <= ObservedUpTo(days, fetch, n)
  {
    if m < n {
      ObservedPrefix(days, fetch, m, n - 1);
    }
  }

  /**
   * The run stops with an error iff some pair has 2-streak candidates and a
   * non-empty next-day pool without a streak column.
   */
  lemma {:induction false} AbortIff(days: seq<Day>, fetch: map<Day, Frame>, n: nat)
    requires n <= PairCount(days)
    ensures TrackUpTo(days, fetch, n).Err? <==>
      exists i :: 0 <= i < n && FilterStreak(SnapshotOf(days, fetch, i), 2) != []
        && !IsEmpty(SnapshotOf(days, fetch, i + 1)) && !SnapshotOf(days, fetch, i + 1).hasStreakColumn
  {
    if n > 0 {
      AbortIff(days, fetch, n - 1);
    }
  }

  /** Records are only appended: the lists after `n` pairs are prefixes of the lists after `m >= n` pairs. */
  lemma {:induction false} EarlierRecordsKept(days: seq<Day>, fetch: map<Day, Frame>, n: nat, m: nat)
    requires n <= m <= PairCount(days)
    requires TrackUpTo(days, fetch, m).Ok?
    ensures TrackUpTo(days, fetch, n).Ok?
    ensures TrackUpTo(days, fetch, n).value.successful <= TrackUpTo(days, fetch, m).value.successful
    ensures TrackUpTo(days, fetch, n).value.unsuccessful <= TrackUpTo(days, fetch, m).value.unsuccessful
  {
    if n < m {
      EarlierRecordsKept(days, fetch, n, m - 1);
    }
  }

  /**
   * A pool fetch that raised (`get_zt_stocks_by_day` returning an empty frame)
   * skips both pairs the day belongs to: as current day it has no 2-streak
   * rows, as next day its pool is empty. Neither pair changes the lists or
   * stops the run.
   */
  lemma FailedFetchSkips(days: seq<Day>, fetch: map<Day, Frame>, i: nat)
    requires i < |days|
    requires days[i] !in fetch
    ensures i + 1 < |days| ==> PairStep(days, fetch, i).Skip?
    ensures i + 1 < |days| ==> TrackUpTo(days, fetch, i + 1) == TrackUpTo(days, fetch, i)
    ensures i > 0 ==> PairStep(days, fetch, i - 1).Skip?
    ensures i > 0 ==> TrackUpTo(days, fetch, i) == TrackUpTo(days, fetch, i - 1)
  {
  }

  /**
   * A pair whose day has no 2-streak rows (an empty or failed pool included) or
   * whose next day's pool is empty or failed contributes nothing, and the pairs
   * after it are still processed: no record carries that day.
   */
  lemma SkippedPairEmitsNothing(days: seq<Day>, fetch: map<Day, Frame>, i: nat)
    requires DistinctDays(days)
    requires Track(days, fetch).Ok?
    requires i + 1 < |days|
    requires FilterStreak(SnapshotOf(days, fetch, i), 2) == [] || IsEmpty(SnapshotOf(days, fetch, i + 1))
    ensures TrackUpTo(days, fetch, i + 1) == TrackUpTo(days, fetch, i)
    ensures var t := Track(days, fetch).value;
      forall x :: x in t.successful + t.unsuccessful ==> x.twoStreakDate != days[i]
  {
    var n := PairCount(days);
    var t := Track(days, fetch).value;
    RecordsAreLabelled(days, fetch, n);
    forall x | x in t.successful + t.unsuccessful ensures x.twoStreakDate != days[i] {
      var b := x in t.successful;
      var j :| 0 <= j < n && LabelledAt(days, fetch, j, x, b);
      assert j != i;
    }
    EarlierRecordsKept(days, fetch, i + 1, n);
  }

  /**
   * Only days 0 .. |days| - 2 are observation days: fewer than two days yield
   * two empty lists, and no record carries the last day.
   */
  lemma LastDayNeverObserved(days: seq<Day>, fetch: map<Day, Frame>)
    ensures |days| < 2 ==> Track(days, fetch) == Ok(Tables([], []))
    ensures DistinctDays(days) && Track(days, fetch).Ok? ==>
      var t := Track(days, fetch).value;
      forall x :: x in t.successful + t.unsuccessful ==> x.twoStreakDate != days[|days| - 1]
  {
    if DistinctDays(days) && Track(days, fetch).Ok? {
      var n := PairCount(days);
      var t := Track(days, fetch).value;
      RecordsAreLabelled(days, fetch, n);
      forall x | x in t.successful + t.unsuccessful ensures x.twoStreakDate != days[|days| - 1] {
        var b := x in t.successful;
        var j :| 0 <= j < n && LabelledAt(days, fetch, j, x, b);
      }
    }
  }
}
