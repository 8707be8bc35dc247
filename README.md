# Limit-up streak screens — a Dafny model

This project models the streak logic of a small set of A-share screening
scripts. They all read the daily limit-up pool (`stock_zt_pool_em`): one row
per stock that closed at its price limit that day, with its code (`代码`),
name (`名称`), consecutive limit-up count (`连板数`, the *streak*) and sealed
funds (`封板资金`).

- `getdata.py` is the promotion tracker. For each pair of adjacent trading
  days it takes the first day's 2-streak stocks and labels each one. A stock
  is *promoted* when the next day's pool lists its code with streak 3, and
  *not promoted* otherwise. The labelled rows are collected in two lists.
- `2jin3.py` takes the previous day's 2-streak stocks, orders them by sealed
  funds, reads each one's quote, and orders the result by today's percent
  change.
- `2jin3huice.py` picks the three 2-streak stocks with the largest sealed
  funds. It publishes their codes through the global parameter registry and
  runs a buy/sell rule on them.
- `daban.py` drops today's limit-up stocks from the market snapshot. It then
  lists the ten mainboard stocks (code starting with `6`) with the largest
  percent change and the ten with the largest turnover.

Files and modules:

- `wrappers.dfy` (`Wrappers`): `Option`, `Result` and `Outcome`.
- `seqs.dfy` (`Seqs`): the table operations the scripts use. `Filter` is a
  boolean mask, `Take` is `head(k)` and `SortBy` is `sort_values`. It also
  holds the lemmas that a sort gives a sorted permutation and that the first
  `k` of any sorted arrangement form a top-k.
- `limit_up.dfy` (`LimitUp`): the pool's rows and frames, and the streak
  filter that all three streak scripts define (`filter_consecutive_zt_stocks`).
- `promotion_tracker.dfy` (`PromotionTracker`, `PromotionTrackerProperties`):
  `getdata.py`.
- `two_to_three_screen.dfy` (`TwoToThreeScreen`): `2jin3.py`.
- `top_three_backtest.dfy` (`TopThreeBacktest`): `2jin3huice.py`.
- `mainboard_ranking.dfy` (`MainboardRanking`): `daban.py`.

How the model represents the inputs and the data:

- The collaborators become inputs. The trading calendar is a sequence of
  days. The pool fetcher is a map from day to frame, and a day missing from
  the map is a fetch that raised. The quote fetcher is a map from code to
  the quote table's `value` column, and a code missing from that map is a
  call that raised.
- A frame records whether its `连板数` column exists. `pd.DataFrame()` has
  neither columns nor rows. A streak cell may be NaN, which the model writes
  as `None`.
- Money and percent values are only ever compared. The model keeps them as
  integer keys, and NaN keys sort last in both directions, as in pandas.
- `sort_values` is not stable, so the order it gives equal keys is not part
  of the model. `Seqs.SortBy` is one particular sort. Every ranking lemma is
  stated for any sorted permutation, or only uses sortedness and the
  permutation property.

Behaviour taken from the code:

- In `getdata.py`, a failed or empty pool skips the pair, and the run goes on
  with the next pair (lines 16-20 and 44-59).
- In `getdata.py`, a next-day pool that is non-empty but has no `连板数`
  column makes the test at lines 67-70 raise a KeyError. Nothing catches it,
  so the whole run stops. The model returns `Err(MissingStreakColumn(day))`.
- In `2jin3huice.py`, the sell branch reads `pos.shares` when there is no
  position (lines 55-56). That raises. The model returns
  `Fail(NoPositionToSell)` and changes nothing.

Behaviour kept as the code has it, though a reader might expect otherwise:

- Duplicate codes within one day are not reported as an integrity error.
  Each row is labelled on its own.
- A missing streak column on the next day is fatal rather than local to the
  pair.
- A missing streak column on the current day reads as "no 2-streak rows".

The lemmas that need to tell one pair from another assume a duplicate-free
calendar (`DistinctDays`): `TablesDisjoint`, `PromotedIff`,
`SkippedPairEmitsNothing` and the second half of `LastDayNeverObserved`. The
exchange calendar is strictly increasing, so this always holds. Without it,
one record stamped with a repeated day could be labelled by two different
next days.

## Model

| member | source | states |
|---|---|---|
| `LimitUp.FilterStreak` | getdata.py:23-28 | A missing streak column, or an empty frame, yields no rows, and the result is never longer than the frame. `2jin3.py:21-26` and `2jin3huice.py:39-43` are the same filter with target 2. |
| `LimitUp.FilterStreakExact` | getdata.py:25-26 | A row is kept iff the streak column exists and the row's streak equals the target. A kept row is kept exactly as often as it occurs. |
| `PromotionTrackerProperties.FailedFetchSkips` | getdata.py:14-20 | A day whose pool fetch raised (`GetZtStocksByDay` reads it as an empty frame without columns) skips both pairs it belongs to. As the current day it has no 2-streak rows, and as the next day its pool is empty. Neither pair changes the lists or stops the run. |
| `PromotionTracker.PromotedMeans` | getdata.py:67-70 | `is_successful` holds iff the next day's pool has a row with the same code and streak exactly 3. |
| `PromotionTracker.AppendLabelled` | getdata.py:62-77 | Without a next-day streak column the loop raises. Otherwise it appends each candidate's stamped record, in row order, to the promoted list when promoted and to the other list when not. |
| `PromotionTracker.ProcessDateRange` | getdata.py:31-77 | The loop over `range(len(trading_days) - 1)` gives exactly the result of the pairwise specification `Track`, error included. |
| `PromotionTracker.ErrPersists` | getdata.py:67-70 | Once a pair has raised, later pairs do not change the outcome: the run ends with that error. |
| `PromotionTrackerProperties.ClassifyPartitions` | getdata.py:62-77 | Within one pair, every stamped candidate lands in exactly one list. A record is in the promoted list iff it is stamped with the day, comes from a candidate and is promoted; likewise the other list with "not promoted". |
| `PromotionTrackerProperties.StepMatchesObserved` | getdata.py:44-59 | A skipped pair has nothing to contribute. An emitting pair adds exactly the reference's observed rows, split between the two lists. |
| `PromotionTrackerProperties.TablesPartitionObserved` | getdata.py:37-77 | Together the two lists hold, as a multiset, exactly the 2-streak rows of every pair whose next day's pool is non-empty, each stamped with its day. |
| `PromotionTrackerProperties.RecordsAreLabelled` | getdata.py:50-77 | Every promoted record is a 2-streak row of some observation day i, stamped (`Stamp`, the `2连板日期` column) with day i, and day i+1 lists its code with streak 3. Every not-promoted record is the same except that day i+1 does not list it. Day i+1's pool is non-empty in both cases. |
| `PromotionTrackerProperties.TablesDisjoint` | getdata.py:74-77 | With a duplicate-free calendar, no record is in both lists. |
| `PromotionTrackerProperties.PromotedIff` | getdata.py:67-77 | Take a 2-streak row of day i whose next-day pool is non-empty. Its record is in the promoted list iff day i+1 has the code with streak 3, and in the not-promoted list iff it does not. |
| `PromotionTrackerProperties.AbortIff` | getdata.py:56-70 | The run ends in an error iff some pair has 2-streak candidates and a non-empty next-day pool without a streak column. |
| `PromotionTrackerProperties.EarlierRecordsKept` | getdata.py:74-77 | Records are only appended: the lists after n pairs are prefixes of the lists after any later pair. |
| `PromotionTrackerProperties.SkippedPairEmitsNothing` | getdata.py:44-59 | A pair is skipped when its day has no 2-streak rows (an empty or failed pool included) or its next day's pool is empty or failed. A skipped pair changes nothing, no record carries its day, and the rest of the run still proceeds. |
| `PromotionTrackerProperties.LastDayNeverObserved` | getdata.py:37-39 | Fewer than two days give two empty lists, and no record is stamped with the last trading day. |
| `TwoToThreeScreen.CollectInfo` | 2jin3.py:59-81 | The entries are, in order, the infos of the candidates whose quote arrived non-empty: the k-th entry belongs to the k-th such candidate, so each appears once per occurrence. Every entry comes from such a candidate, and every such candidate's entry is present. |
| `TwoToThreeScreen.CollectStockInfo` | 2jin3.py:59-81 | The loop with its two skips (empty quote, raised call) builds exactly `CollectInfo` of the candidates, in candidate order. |
| `TwoToThreeScreen.RankedFromQuote` | 2jin3.py:59-86 | After `to_numeric(errors='coerce')` (`Coerce`), the k-th entry belongs to the k-th candidate with a non-empty quote and keeps its code and name. Its percent change (`CurrentDataOf`, `loc[22, 'value']`) is the number n exactly when the quote has more than 22 rows and cell 22 is n; it is missing when the table is shorter or the cell is not numeric. |
| `TwoToThreeScreen.Screen` | 2jin3.py:37-87 | `main` stops on an empty pool and stops on an empty 2-streak set. Otherwise the candidates are the 2-streak rows, non-empty and sorted by sealed funds descending. The stock info has at most as many entries as there are candidates. The final table is a permutation of the coerced info, in ascending percent change with missing values last. |
| `TopThreeBacktest.SelectTopThreeIsTop` | 2jin3huice.py:71-84 | The script stops exactly on an empty pool or empty 2-streak set. Otherwise it selects between one and three 2-streak rows: all of them if there are fewer than three. The selection is in non-increasing sealed funds, and no 2-streak row left out has strictly larger sealed funds than a selected one. |
| `TopThreeBacktest.ParamRegistry.constructor` | 2jin3huice.py:18-21 | The registry starts with `stock_code` = "600000", `percent` = 1, `stop_loss_pct` = 10 and `stop_profit_pct` = 10. |
| `TopThreeBacktest.ParamRegistry.Set` | 2jin3huice.py:91 | Registering a value replaces that one entry and leaves every other entry unchanged. |
| `TopThreeBacktest.BuyWithStopLoss` | 2jin3huice.py:46-58 | With no position and a non-empty selection: buy the target shares for `percent`, hold 100 bars, pick the first selected code. With a position: sell all its shares and set the stop-profit percentage from the registry. Every registry read (`ParamRegistry.Get`) gives the registered value, or None when the name was never registered. With neither: it raises and changes nothing. |
| `TopThreeBacktest.ConfigureBacktest` | 2jin3huice.py:71-95 | After a selection, `selected_stocks` and the strategy's symbols are both the top-three codes (`Codes`, `tolist()`), one per selected row in row order, and the registry then holds a non-empty selection. Nothing else in the registry changes. On an early stop the registry is unchanged. |
| `MainboardRanking.EligibleMeans` | daban.py:25-34 | A stock is eligible iff it is in the market list, its code is not in today's limit-up pool, and its code starts with `6`. |
| `MainboardRanking.TopMainboardIsTop` | daban.py:31-34 | A ranking holds as many eligible stocks as there are, up to ten, in ranking order. No eligible stock left out ranks strictly above a selected one. |
| `MainboardRanking.RankMainboardCorrect` | daban.py:25-44 | Both lists come from the market list. They contain no limit-up code and only mainboard codes, and each has at most ten stocks. The first is non-increasing in percent change and the second in turnover, each with NaN last. Each is a top ten of the eligible stocks by its own key. |

## Left out

- The trading calendar (`get_trading_days`, getdata.py:7-11) and `get_previous_trading_day` in `2jin3.py` and `2jin3huice.py`. These depend on a calendar library and on the wall clock, so the calendar is an input sequence of days.
- The network calls `stock_zt_pool_em`, `stock_bid_ask_em` and `stock_zh_a_spot_em`. They are inputs. Each day's pool is read from one map, so the model assumes the two fetches of the same day in `getdata.py` return the same frame.
- The uncaught fetch exception on the pool in `2jin3.py` and `2jin3huice.py`. Those scripts take the pool as a given frame.
- In `daban.py`, the KeyError raised when today's pool has no `代码` column. The limit-up codes are taken as a given list.
- Writing the two CSV files (getdata.py:80-81), and all printing.
- The pybroker backtest run and its metrics dump (2jin3huice.py:94-203). `ConfigureBacktest` stops at the symbols handed to `add_execution`.
- `calc_target_shares`. It depends on cash and prices that the model does not have, so the share count is a function the caller supplies.
- `yuce.py`: technical indicators, gradient-boosted training, attribution and plotting. These are floating-point numerics carried out by foreign libraries.
- `qiangshibankuai.py`. It only sorts and prints two network results.
- Floating-point money and percent values. The model keeps them as integer keys because the scripts only compare them.
- The order among equal sort keys, because pandas' default sort is not stable.
- `TopThreeBacktest.BuyWithStopLoss`: only a non-empty list of codes counts as a truthy `selected_stocks`. The script never stores any other kind of value under that name.
- `TwoToThreeScreen.CurrentDataOf`: reads the quote table by position. This equals `loc[22, 'value']` only because the table has the default integer index.
- Sealed funds (`封板资金`) are never NaN in the model: `Row.sealedFunds` is a plain integer, so the sealed-funds sorts in `2jin3.py` and `2jin3huice.py` have no missing-value case.
- `TwoToThreeScreen.InfoFor` reads one quote per code: a code that occurs twice among the candidates gets the same answer both times, whereas `2jin3.py` calls `stock_bid_ask_em` again (line 61) and could get a different table or a raised call the second time.
