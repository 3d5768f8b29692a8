# Order lifecycle of a thinkorswim/Schwab trading bot, in Dafny

This project models the core of a Python trading bot. It covers the following parts:

- **The live/paper engine (`ApiTrader`).** It turns strategy signals into broker orders and queues each order under its (Trader, Symbol, Strategy) key. It polls the queue against the broker and resolves each fill into an open position or a closed record. Orders the broker refuses go to the rejected and canceled audit stores.
- **The order builder.** It fills one broker order record and one queue record, field by field, across calls.
- **The OCO and strategy tasks.** These read the children of an OCO order, watch those children, add strategies and resize positions.
- **The legacy task loop.** It covers the sleep rule, the stale-order sweep, the once-a-day history records, expiry sells and the once-per-minute latches.
- **The simulated trader.**
- **The checks and helpers of the Schwab API client.**

Modules:

- **Shared modules.**
  - `Wrappers`, `Numeric`, `Text` and `OrderedDict` hold options and results, decimal rounding on reals, Python string operations, and insertion-ordered dicts.
  - `Records` holds the documents of the Mongo collections.
- **The live/paper engine.**
  - `Lifecycle` states each step of the engine as a function on a snapshot of the collections (`Db`). The same module holds the invariants these steps keep.
  - `Engine.ApiTrader` is the engine object. Each method is proved equal to its `Lifecycle` function.
- **The order builder.**
  - `OrderBuilding` holds the builder specification.
  - `OrderBuilding.OrderBuilder` is the object. It has two mutable records.
- **The OCO and strategy tasks.** `ApiTasks` holds the pure parts of the task mixin.
- **The legacy task loop.** `LegacyTasks` holds the rules as functions, and the `LegacyTasks.LegacyTasks` class holds the state those rules update.
- **The simulated trader.** `SimTrading` holds the specification functions and the `SimTrader` class.
- **The Schwab API client.** `SchwabClient` holds the constructor checks, the token decision, the retry loop and the parameter helpers.

How the model represents the source:

- **Collections.**
  - The keyed Mongo collections are maps keyed by (Trader, Symbol, Strategy).
  - The rejected, canceled and closed stores are append-only sequences.
  - The order in which a cursor returns documents is an explicit sequence.
- **Inputs.**
  - Broker replies, quotes, the clock, the random paper id and the token checks are parameters.
  - The forbidden symbols are also a parameter. In the source, `symbol not in <cursor>` compares a string with documents and never matches, so the source behaves like the model run with an empty set.
- **Exceptions.** An exception that `exception_handler` would swallow becomes a `Stopped` run or a failed outcome. In both cases the writes made before the failing line are kept.
- **Builder fields.** The order builder keeps the fields a call does not overwrite. Two lemmas show the effect:
  - `StaleBracket`: an OCO bracket outlives its order.
  - `StaleExit`: an `Exit_Price` outlives its close.
- **The EQUITY path.** The builder reads `Pre_Symbol` unconditionally (api_trader/order_builder.py:70). A trade without option fields therefore ends in `Raised` before any quote is taken.

## Model

| member | source | states |
|---|---|---|
| Numeric.Trunc | api_trader/order_builder.py:142-143 | `int(x)` truncates toward zero: the result is within one of x, on x's side of zero |
| Numeric.Round | api_trader/__init__.py:309 | `round(x, d)` has at most d decimals and lies within half a unit of x |
| Numeric.RoundIdempotent | api_trader/__init__.py:309 | rounding a value that already has d decimals returns it unchanged |
| Numeric.RoundMonotone | sim_trader/__init__.py:104-106 | rounding preserves order |
| Numeric.FillPrice | api_trader/__init__.py:309 | a fill price of at least 1 is rounded to cents and stays at least 1; below 1 it is rounded to four places; both stay within half a unit |
| Text.Split | api_trader/__init__.py:187 | `str.split(sep)` yields at least one piece, and no piece contains sep |
| Text.LastSegment | api_trader/__init__.py:187 | `split("/")[-1]` contains no "/" |
| Text.SplitAppend | api_trader/__init__.py:187 | splitting `a + sep + b` splits a and b separately |
| Text.SplitNoSep | api_trader/__init__.py:187 | a word without sep splits into itself |
| Text.SplitJoin | schwabdev/api.py:209 | splitting a join of sep-free items gives the items back |
| Text.LastSegmentAfter | api_trader/__init__.py:187 | the last segment of `a + "/" + b` is b when b has no "/" |
| Text.Strip | tasks/__init__.py:64 | `strip()` never lengthens, leaves no white space at either end (Python's `isspace` set, Unicode spaces included), and keeps every non-space character's presence |
| Text.StripLeft | tasks/__init__.py:64 | the result is a suffix of the input, and only white space (Python's `isspace` set) was dropped |
| Text.StripRight | tasks/__init__.py:64 | the result is a prefix of the input, and only white space (Python's `isspace` set) was dropped |
| Text.StripUnchanged | tasks/__init__.py:64 | a string without spaces at either end is left unchanged |
| Text.ParseInt | api_trader/__init__.py:187 | `int(s)` succeeds only on non-empty text, and is non-negative when the text starts with a digit |
| Text.DecimalString | api_trader/__init__.py:187 | the decimal digits of n: non-empty and all digits |
| Text.DecimalStringValue | api_trader/__init__.py:187 | the digits of n read back as n |
| Text.ParseDecimalString | api_trader/__init__.py:187 | `int(str(n)) == n`, so parsing inverts printing |
| Text.LexLessAsymmetric | tasks/__init__.py:230 | Python's string `<` never holds both ways |
| OrderedDict.Keys | schwabdev/api.py:186 | `list(d.keys())`: one key per entry, in insertion order |
| OrderedDict.Get | schwabdev/api.py:187 | lookup is None exactly for absent keys, and otherwise returns a stored pair |
| OrderedDict.Put | api_trader/tasks.py:143 | `d[k] = v` makes k map to v and leaves every other key's value as it was |
| OrderedDict.PutKeys | api_trader/tasks.py:143 | assigning an existing key keeps the key order; a new key goes last |
| OrderedDict.PutUnique | api_trader/tasks.py:143 | assignment keeps keys unique |
| OrderedDict.Remove | schwabdev/api.py:188 | `del d[k]` removes at most one entry, and nothing when k is absent |
| OrderedDict.RemoveAt | schwabdev/api.py:188 | deleting a key that occurs once removes exactly that entry and keeps the rest in order |
| OrderedDict.GetAt | schwabdev/api.py:187 | the first entry under a key is the one lookup returns |
| ApiTasks.ChildEntryOf | api_trader/tasks.py:143-148 | a child's entry exists exactly when the fields it reads are present. Side is the first leg's instruction and Order_Status the child's status. Exit_Type is STOP LOSS exactly when stopPrice is present, and Exit_Price is then stopPrice, otherwise price |
| ApiTasks.CollectChildren | api_trader/tasks.py:141-148 | the loop succeeds exactly when every child is readable |
| ApiTasks.CollectUnique | api_trader/tasks.py:141-148 | the collected dict has unique keys |
| ApiTasks.CollectKeys | api_trader/tasks.py:141-148 | the collected keys are exactly those already there plus the children's order ids, and there are at most that many |
| ApiTasks.ExtractOCOChildren | api_trader/tasks.py:129-150 | extraction succeeds exactly when the order has a child list and every child is readable |
| ApiTasks.OrderIds | api_trader/tasks.py:143 | the children's orderIds, in order |
| ApiTasks.CollectOnePerChild | api_trader/tasks.py:141-148 | with distinct new ids, the keys are the old keys followed by the children's ids, in order |
| ApiTasks.ExtractOnePerChild | api_trader/tasks.py:139-150 | with distinct ids, there is exactly one entry per child, keyed by its orderId, in child order |
| ApiTasks.CollectKeeps | api_trader/tasks.py:141-148 | an id that no child carries keeps its old entry |
| ApiTasks.CollectEntry | api_trader/tasks.py:143-148 | a child's id maps to that child's entry unless a later child reuses the id |
| ApiTasks.ExtractEntry | api_trader/tasks.py:143-148 | in the extracted dict, each child's id maps to the entry read from that child |
| ApiTasks.NewStrategy | api_trader/tasks.py:160-167 | a new strategy is active, STANDARD, size 500, LONG, with the given name, asset type and account |
| ApiTasks.AddStrategy | api_trader/tasks.py:153-175 | the upsert matches on the name alone. It never changes an existing strategy, and it adds the default document only for an unknown name |
| ApiTasks.PositionSizeFor | api_trader/tasks.py:50 | `int(liq * percent / 100)` is non-negative for non-negative inputs |
| ApiTasks.Rebalance | api_trader/tasks.py:40-58 | a missing liquidation value changes nothing. Otherwise every strategy of the account gets the new size and the other strategies stay as they were |
| ApiTasks.TenPercentAtMostFull | api_trader/tasks.py:47-50 | the shadowed 10% size never exceeds the engine's 100% size |
| OrderBuilding.BuildPrice | api_trader/order_builder.py:124-132 | an OCO build uses the bid; otherwise the ask for BUY, BUY_TO_OPEN and BUY_TO_CLOSE, and the bid for any other side |
| OrderBuilding.AssetTypeOf | api_trader/order_builder.py:80 | OPTION exactly when Pre_Symbol is present, EQUITY exactly when it is absent |
| OrderBuilding.DurationFor | api_trader/order_builder.py:85 | GOOD_TILL_CANCEL exactly for EQUITY, and DAY otherwise |
| OrderBuilding.PySliceFrom | api_trader/order_builder.py:70-74 | Python's `s[start:]`, including negative starts and starts before the beginning |
| OrderBuilding.StrikeSlice | api_trader/order_builder.py:70-74 | the strike slice `[-3:]` is the last three characters of a long enough string, and the whole string otherwise |
| OrderBuilding.OpenQuantity | api_trader/order_builder.py:140-143 | the opening quantity is the largest whole number of units the budget (size, or size/100 for options) pays for at the unrounded price |
| OrderBuilding.InverseInstruction | api_trader/order_builder.py:195-209 | only BUY_TO_OPEN, BUY, SELL and SELL_TO_OPEN have an exit instruction. The exit is on the opposite side, a `*_TO_CLOSE` side exactly for the option opening sides and an equity side exactly for BUY and SELL; together these fix BUY_TO_OPEN→SELL_TO_CLOSE, BUY→SELL, SELL→BUY, SELL_TO_OPEN→BUY_TO_CLOSE |
| OrderBuilding.StandardSpec | api_trader/order_builder.py:61-182 | a successful build leaves a complete queue record that describes the signal, with the leg quantity equal to Qty. Without option fields it raises and writes nothing. With a quote, the price is the chosen quote rounded to cents. The bracket, orderId, status and mode survive from earlier calls |
| OrderBuilding.MakeBracket | api_trader/order_builder.py:221-264 | both exits carry the exit instruction and the quantity; the take-profit is at round(p·TP, 2) and the stop at round(p·SL, 2) |
| OrderBuilding.OcoSpec | api_trader/order_builder.py:184-266 | a built OCO order is a TRIGGER with a bracket. Its side has an inverse, and its price is the bid rounded to cents. Both exits carry the inverse instruction and the record's Qty, at the take-profit and stop-loss multiples of the price |
| OrderBuilding.OpenBuild | api_trader/order_builder.py:138-162 | an opening build succeeds exactly when the strategy is active and the quantity is positive. It then records that quantity, the size and the entry at the unrounded price; otherwise it returns (None, None) |
| OrderBuilding.CloseBuild | api_trader/order_builder.py:165-179 | a closing build copies Qty, the entry price and date, and Position_Size from the position, with Exit_Price at the quote; it raises without a position |
| OrderBuilding.DescribedOrder | api_trader/order_builder.py:63-119 | a quoted build is a DAY OPTION order with the signal's side and putCall, and its record names the signal and strategy |
| OrderBuilding.StaleBracket | api_trader/order_builder.py:61-182 | a standard build after an OCO build still carries the TRIGGER type and the old bracket |
| OrderBuilding.StaleExit | api_trader/order_builder.py:61-182 | an opening build after a close still carries the old Exit_Price |
| OrderBuilding.OrderBuilder.constructor | api_trader/order_builder.py:25-59 | the builder starts from the initial order and record |
| OrderBuilding.OrderBuilder.StandardOrder | api_trader/order_builder.py:61-182 | the fields written in place and the outcome are exactly `StandardSpec` |
| OrderBuilding.OrderBuilder.OCOOrder | api_trader/order_builder.py:184-266 | the fields written in place and the outcome are exactly `OcoSpec` |
| Lifecycle.KeyedDropOrRestatus | api_trader/__init__.py:263-293 | dropping a queue entry or changing its status keeps every document under its own key |
| Lifecycle.GrowsTrans | api_trader/__init__.py:263-293 | "only appends" composes across steps |
| Lifecycle.Decide | api_trader/__init__.py:477-504 | CLOSE is chosen exactly for an open position with (BUY,SHORT), (SELL,LONG), (SELL_TO_CLOSE,LONG) or (BUY_TO_CLOSE,SHORT). OPEN is chosen exactly without a position, for a non-forbidden symbol, with (BUY,LONG), (SELL,SHORT), (SELL_TO_OPEN,SHORT) or (BUY_TO_OPEN,LONG) |
| Lifecycle.DecideTradesConsistently | api_trader/__init__.py:480-504 | a close trades against the position type and an open trades with it |
| Lifecycle.LocationOrderIdOf | api_trader/__init__.py:187 | a Location ending in "/n" yields order id n |
| Lifecycle.EntryOf | api_trader/__init__.py:190-199 | the queued document carries the record's symbol, strategy, side, direction, Qty, order id, status and mode, with this account |
| Lifecycle.SetOnto | api_trader/__init__.py:205-209 | `$set` writes every field of the record, and the optional fields it lacks keep their old values |
| Lifecycle.QueueSpec | api_trader/__init__.py:203-212 | the upsert adds or updates exactly the (Trader, Symbol, Strategy) key. No other entry changes, so there is one entry per key |
| Lifecycle.BuildFor | api_trader/__init__.py:146-155 | an unknown order type builds nothing, a successful build is complete and describes the signal, and id and status survive |
| Lifecycle.SendSpec | api_trader/__init__.py:131-200 | the outcome is TokenInvalid exactly when the token check fails, UnknownOrderType exactly for an unknown order type, NotBuilt exactly when the build does not complete. After a build, a Live reply other than 200/201 is Rejected; a Live 200/201 reply is Queued exactly when Location yields an id, and a paper order is always Queued. A failed token check changes nothing. A Live reply other than 200/201 appends exactly one rejection and queues nothing. A queued Live id is the integer after the last "/" of Location. A paper id lies in [-999999999, -100000000]. The queued entry is QUEUED with the mode and direction, and no other queue entry changes |
| Lifecycle.SendTouches | api_trader/__init__.py:131-200 | a send changes only the queue and the rejected store, and only appends to the latter |
| Lifecycle.QueueKeepsInv | api_trader/__init__.py:203-212 | queueing this account's entry keeps the invariant when its direction agrees with the open position |
| Lifecycle.SendKeepsInv | api_trader/__init__.py:131-200 | a send whose direction agrees with the open position keeps the invariant |
| Lifecycle.FromEntry | api_trader/__init__.py:299-317 | `pushOrder` reads symbol, strategy, account, direction, Qty and option fields from a queue entry |
| Lifecycle.FromPosition | api_trader/tasks.py:101-103 | a position can be pushed only when it carries Side and Direction, which the stored position lacks |
| Lifecycle.FillOf | api_trader/__init__.py:302-307 | with an activity collection, the fill is the first execution price and `int(quantity)`; otherwise it is the order price and the queued Qty |
| Lifecycle.Dequeue | api_trader/__init__.py:409-415 | `delete_one` with the account filter removes the key only when the entry belongs to this account |
| Lifecycle.PushSpec | api_trader/__init__.py:296-416 | no fill changes nothing. OPEN adds a position with the fill's shares at FillPrice and dequeues the key. CLOSE copies Qty and the entry from the open position, deletes it, appends one closed record at FillPrice and dequeues the key |
| Lifecycle.PushResolves | api_trader/__init__.py:296-416 | a push that changes anything removes the key from the queue. The key is then open exactly for an OPEN push; no other key is touched and the audit stores are unchanged |
| Lifecycle.PushKeepsInv | api_trader/__init__.py:296-416 | a push keeps the invariant |
| Lifecycle.UpdateStep | api_trader/__init__.py:226-293 | on "error", `pushOrder` runs with the Entry_Price (open) or Exit_Price (close), Assumed when Live and Reliable when Paper. An id mismatch changes nothing. FILLED pushes the order. CANCELED or REJECTED deletes the entry and appends one audit record. Any other status only rewrites Order_Status |
| Lifecycle.UpdateStepKeeps | api_trader/__init__.py:226-293 | each polled entry keeps the invariant and only appends to the audit stores |
| Lifecycle.UpdateStatusSpec | api_trader/__init__.py:215-224 | a failed token check leaves every collection unchanged |
| Lifecycle.UpdateRunKeeps | api_trader/__init__.py:232-293 | the poll loop keeps the invariant |
| Lifecycle.UpdateStatusKeeps | api_trader/__init__.py:215-293 | `updateStatus` keeps the invariant and only appends |
| Lifecycle.FindStrategy | api_trader/__init__.py:462-465 | the strategy lookup matches both the name and this account |
| Lifecycle.Merge | api_trader/__init__.py:508 | `{**row, **open_position}`: without a position the row is unchanged; with one the position's fields win |
| Lifecycle.RowStep | api_trader/__init__.py:443-511 | a row may insert its strategy, and stops the run exactly when the strategy still cannot be found. A row with no decision (`RowDecision`: strategy missing, key already queued, or `Decide` gives nothing) changes nothing but the strategies; a row with a decided direction sends it, ending in `SendSpec`'s world for the merged row and its strategy; a key the row newly queues carries the decided direction |
| Lifecycle.QueuedRowSendsNothing | api_trader/__init__.py:455-477 | a key that already has a queue entry sends nothing: at most its strategy is added |
| Lifecycle.RowStepKeeps | api_trader/__init__.py:443-511 | each row keeps the invariant and only appends |
| Lifecycle.RowsRunKeeps | api_trader/__init__.py:442-511 | the row loop keeps the invariant |
| Lifecycle.RunTraderSpec | api_trader/__init__.py:429-431 | a failed token check leaves the collections and the builder unchanged |
| Lifecycle.RunTraderKeeps | api_trader/__init__.py:422-511 | `runTrader` keeps the invariant and never removes a closed, rejected or canceled record |
| Lifecycle.SetChildStatus | api_trader/tasks.py:122-124 | only the one position's child status changes |
| Lifecycle.ChildStep | api_trader/tasks.py:95-124 | FILLED pushes the position. CANCELED or REJECTED appends one audit record to the matching store. Any other status rewrites only that child's status. A missing reply or status stops the run |
| Lifecycle.OcoStep | api_trader/tasks.py:88-95 | positions that are not OCO are skipped, and an OCO position without children stops the run |
| Lifecycle.ChildStepKeeps | api_trader/tasks.py:95-124 | each child keeps the invariant and only appends |
| Lifecycle.KeyedChildStatus | api_trader/tasks.py:122-124 | a child status update keeps every document under its key |
| Lifecycle.ChildRunKeeps | api_trader/tasks.py:95-124 | the child loop keeps the invariant |
| Lifecycle.OcoRunKeeps | api_trader/tasks.py:91-124 | the position loop keeps the invariant |
| Lifecycle.CheckOcoKeeps | api_trader/tasks.py:83-124 | `checkOCOtriggers` keeps the invariant and only appends |
| Engine.ApiTrader.constructor | api_trader/__init__.py:26-57 | the engine starts with the given collections and a fresh builder wired to the option formatter and the TP/SL multiples |
| Engine.ApiTrader.QueueOrder | api_trader/__init__.py:203-212 | the queue becomes `QueueSpec` of the old queue |
| Engine.ApiTrader.SendOrder | api_trader/__init__.py:131-200 | the collections, the builder's records and the outcome are exactly `SendSpec` |
| Engine.ApiTrader.Place | api_trader/__init__.py:158-199 | placement and queueing after a successful build |
| Engine.ApiTrader.PushOrder | api_trader/__init__.py:296-416 | the collections become `PushSpec` of the old ones |
| Engine.ApiTrader.PollEntry | api_trader/__init__.py:232-293 | one loop iteration is `UpdateStep` |
| Engine.ApiTrader.UpdateStatus | api_trader/__init__.py:215-293 | the loop leaves the collections equal to `UpdateStatusSpec` |
| Engine.ApiTrader.AddNewStrategy | api_trader/tasks.py:153-175 | the strategies become `AddStrategy` of the old ones, and nothing else changes |
| Engine.ApiTrader.UpdateAccountBalance | api_trader/__init__.py:102-125 | the strategies become `Rebalance` at 100%, and nothing else changes |
| Engine.ApiTrader.TradeRow | api_trader/__init__.py:443-511 | one row is `RowStep` |
| Engine.ApiTrader.RunTrader | api_trader/__init__.py:422-511 | the loop ends in `RunTraderSpec`; the invariant is kept and the audit stores only grow |
| Engine.ApiTrader.CheckChild | api_trader/tasks.py:95-124 | one child id is `ChildStep` |
| Engine.ApiTrader.CheckPosition | api_trader/tasks.py:91-124 | one position is `OcoStep` |
| Engine.ApiTrader.CheckOCOTriggers | api_trader/tasks.py:83-124 | the nested loops end in `CheckOcoSpec`; the invariant is kept and the audit stores only grow |
| LegacyTasks.SelectSleep | tasks/__init__.py:219-232 | 60 exactly when the time string is > "20:00" or < "04:00", or the day is Sat or Sun; 5 otherwise |
| LegacyTasks.TwoDigits | tasks/__init__.py:228 | a zero-padded two-digit field |
| LegacyTasks.ClockString | tasks/__init__.py:228 | "%H:%M:%S" is eight characters |
| LegacyTasks.LateByHour | tasks/__init__.py:230 | `tm > "20:00"` holds exactly from hour 20 on |
| LegacyTasks.EarlyByHour | tasks/__init__.py:230 | `tm < "04:00"` holds exactly before hour 4 |
| LegacyTasks.ShortSleepWindow | tasks/__init__.py:219-232 | the short sleep applies exactly on weekdays from 04:00:00 to 19:59:59 |
| LegacyTasks.DatetimeSplit | tasks/__init__.py:59-64 | both halves of the split stamp contain no space |
| LegacyTasks.StripSubword | tasks/__init__.py:64 | stripping a space-free word keeps it space-free |
| LegacyTasks.DatetimeSplitJoin | tasks/__init__.py:59-64 | splitting "date hour" gives back date and hour |
| LegacyTasks.RemoveFirst | tasks/__init__.py:168-169 | `list.remove` drops one occurrence; on a list without duplicates it removes x entirely and keeps the rest |
| LegacyTasks.SweepStep | tasks/__init__.py:131-169 | a stale order (over 2h old, BUY or BUY_TO_OPEN, with an id, not REJECTED/CANCELED/FILLED) whose cancel returns 200/201 appends one CANCELED record and leaves the queue; otherwise neither changes. The symbol is in the no-id list exactly when its order is over 10 minutes old without an id, and no duplicates arise |
| LegacyTasks.SweepRunKeeps | tasks/__init__.py:116-170 | the sweep keeps the no-id list free of duplicates, only appends records, and only removes queue keys |
| LegacyTasks.SweepKeepsLiveOrders | tasks/__init__.py:137-157 | a key none of whose orders qualifies for cancelling stays queued |
| LegacyTasks.RecordOnce | tasks/__init__.py:67-83 | the history gets a record for the (Date, Trader, id_token) day, gains at most one record, keeps the old ones, and keeps one record per day |
| LegacyTasks.RecordOnceIdempotent | tasks/__init__.py:76-83 | a second insert on the same day changes nothing, whatever the new amount |
| LegacyTasks.ProfitLossAppend | tasks/__init__.py:96-105 | the day's P/L of two lists is the sum of their P/Ls |
| LegacyTasks.ProfitLossOtherDays | tasks/__init__.py:100-105 | positions sold on other days contribute nothing |
| LegacyTasks.ExpirationSells | tasks/__init__.py:172-194 | every order issued is SELL_TO_CLOSE for an OPTION whose expiry minus one day is today |
| LegacyTasks.ExpirationSellsExactly | tasks/__init__.py:182-194 | a sell is issued for every expiring option position, and for no other |
| LegacyTasks.AddStrategyStub | tasks/__init__.py:197-206 | an unknown strategy gets size 1 and Active; existing strategies stay as they were |
| LegacyTasks.Latch | tasks/__init__.py:242-255 | the flag becomes "this minute matches", and the task fires exactly on a matching minute that was not already latched |
| LegacyTasks.Firings | tasks/__init__.py:234-255 | one firing decision per loop pass |
| LegacyTasks.FiresAtStretchStart | tasks/__init__.py:242-255 | a task fires exactly at the first pass of each run of matching minutes |
| LegacyTasks.FiresOncePerStretch | tasks/__init__.py:242-255 | between two firings there is a non-matching pass |
| LegacyTasks.LegacyTasks.constructor | tasks/__init__.py:8-18 | the host's queue, cancel records, strategies and both history collections are kept as they are; only the no-id list starts empty and both latches start down |
| LegacyTasks.LegacyTasks.KillQueueOrder | tasks/__init__.py:116-170 | the queue, the records and the no-id list become `SweepRun`; nothing else changes |
| LegacyTasks.LegacyTasks.BalanceHistory | tasks/__init__.py:67-83 | the balance history becomes `RecordOnce`; nothing else changes |
| LegacyTasks.LegacyTasks.DayProfitLoss | tasks/__init__.py:95-105 | the loop's total is `ProfitLoss`, the sum of (sell − buy)·qty over positions sold that day |
| LegacyTasks.LegacyTasks.ProfitLossHistory | tasks/__init__.py:85-113 | the P/L history becomes `RecordOnce` of the day's P/L; nothing else changes |
| LegacyTasks.LegacyTasks.SellOptionsAtExpiration | tasks/__init__.py:172-194 | the loop issues exactly `ExpirationSells` |
| LegacyTasks.LegacyTasks.UpdateStrategiesObject | tasks/__init__.py:197-206 | the strategies become `AddStrategyStub`; nothing else changes |
| LegacyTasks.LegacyTasks.Pass | tasks/__init__.py:236-255 | each flag becomes "the minute matches". Expiry sells, and the balance and P/L records, happen only when the latch fires; the sweep stores are untouched |
| SimTrading.FindOpen | sim_trader/__init__.py:158-159 | `find_one` returns the first open position for (Symbol, Strategy), and none exactly when there is none |
| SimTrading.Rov | sim_trader/__init__.py:104-115 | ROV has at most two decimals |
| SimTrading.RovBreakEven | sim_trader/__init__.py:104-115 | selling at the purchase price gives ROV 0 |
| SimTrading.RovGain | sim_trader/__init__.py:104-115 | selling at or above the purchase price never gives a negative ROV |
| SimTrading.Buy | sim_trader/__init__.py:54-84 | a BUY with a quote appends one position for the row with Qty 1 at the quoted price; it keeps one position per key when none was open; it never touches closed records |
| SimTrading.Sell | sim_trader/__init__.py:86-142 | a SELL with a quote appends one closed record, with Qty, Buy_Price and Buy_Date from the position and ROV from `Rov`. The open list becomes `DeleteAt` of the first match, or stays as it was when nothing matches, and keeps one position per key; without a quote nothing changes |
| SimTrading.DeleteKeepsOne | sim_trader/__init__.py:132-133 | deleting a position keeps one per key, and its key is then no longer open |
| SimTrading.RowStep | sim_trader/__init__.py:150-179 | positions are added only by BUY of a non-forbidden symbol that is not yet open, and closed records only by SELL with a position. Conversely, such a BUY is exactly `Buy` at the symbol's quote and such a SELL is exactly `Sell` of the first open match; TEST_TSLA_OCO with a position raises and stops the run; every other row changes nothing. One position per key is kept |
| SimTrading.SimRunKeeps | sim_trader/__init__.py:144-183 | a run keeps one open position per key and never removes a closed record |
| SimTrading.SimTrader.constructor | sim_trader/__init__.py:13-19 | the trader works on the existing contents of its two persistent collections |
| SimTrading.SimTrader.BuyOrder | sim_trader/__init__.py:54-84 | the collections become `Buy` of the old ones |
| SimTrading.SimTrader.SellOrder | sim_trader/__init__.py:86-142 | the collections become `Sell` of the old ones |
| SimTrading.SimTrader.TradeRow | sim_trader/__init__.py:152-179 | one row is `RowStep` |
| SimTrading.SimTrader.RunTrader | sim_trader/__init__.py:144-183 | the loop ends in `SimRun`, and one position per key is kept |
| SchwabClient.Configure | schwabdev/api.py:28-45 | the checks run in order and the first one that fails is raised. Success means no check fails, and the configuration holds the four arguments |
| SchwabClient.ConfiguredShape | schwabdev/api.py:36-45 | an accepted configuration has a 32-character key, a 16-character secret, an https callback not ending in "/", a tokens file not ending in "/", and a positive timeout |
| SchwabClient.Seconds | schwabdev/api.py:99-100 | `timedelta.seconds` lies in [0, 86400) |
| SchwabClient.Decide | schwabdev/api.py:95-103 | refresh exactly when forced or the refresh token is at least 6 days old. Otherwise access exactly when the access token's age has days ≥ 1 or seconds > 1739 |
| SchwabClient.DecideByElapsed | schwabdev/api.py:95-103 | in elapsed seconds: refresh exactly when forced or at least 518400 s have passed; access exactly when not that and at least 1740 s have passed |
| SchwabClient.OAuthForm | schwabdev/api.py:151-161 | only authorization_code and refresh_token are accepted, each with its own form fields; any other grant type raises |
| SchwabClient.FirstOk | schwabdev/api.py:111-113 | the first ok reply among three attempts, or none when all three fail |
| SchwabClient.FilterNone | schwabdev/api.py:185-189 | exactly the pairs whose value is not None remain |
| SchwabClient.FilterNoneIdempotent | schwabdev/api.py:185-189 | filtering twice equals filtering once |
| SchwabClient.FilterNoneUnique | schwabdev/api.py:185-189 | filtering keeps keys unique |
| SchwabClient.FormatList | schwabdev/api.py:205-211 | None gives None, and a string gives itself |
| SchwabClient.FormatListSplits | schwabdev/api.py:208-209 | a joined list of comma-free items splits back into those items |
| SchwabClient.Client.constructor | schwabdev/api.py:62-69 | the client adopts the stored tokens and their issue times |
| SchwabClient.Client.UpdateAccessToken | schwabdev/api.py:109-127 | at most three attempts, stopping at the first ok reply, whose tokens are adopted with the access time now. When all three fail, nothing changes |
| SchwabClient.Client.UpdateTokens | schwabdev/api.py:95-103 | the action taken is `Decide` on the stored issue times, and only the access path changes state: it adopts the first ok reply's tokens with the access time `now` and the file's refresh time, and a missing token file or three failed replies leave the client unchanged |
| SchwabClient.ParamsParser | schwabdev/api.py:185-189 | the in-place deletion loop leaves exactly `FilterNone` of the parameters |
| SchwabClient.ParserStep | schwabdev/api.py:186-188 | one loop step deletes the current key exactly when its value is None |

## Left out

- Network and broker I/O are not modelled. This covers the HTTP endpoint wrappers of the client, `placeOrder`/`getSpecificOrder`/`cancel_order` and the quote calls. Their replies are inputs, and the engine's placed order is its output.
- Token-file JSON I/O is not modelled. The stored tokens are an input (`TokenFile`), and the file write after a refresh is not modelled.
- SchwabClient.Client.UpdateTokens: the refresh-token path is an interactive browser/`input` flow, so state is left unchanged on that path.
- SchwabClient.Client.constructor: the path for a missing token file is not modelled, nor is the constructor's trailing `update_tokens` call. A caller invokes `UpdateTokens` itself.
- Threads, `time.sleep` and the `while self.isAlive` loops are not modelled. `LegacyTasks.LegacyTasks.Pass` models one pass of the task loop, and the KeyError that ends the loop is left out.
- The background token refresher thread is not modelled.
- Logging, push notifications and the strategy-result email are left out.
- `refreshAccountSummary` is not modelled. The liquidation value it stores is the input of `UpdateAccountBalance`.
- The legacy `updateAccountBalance` and `ensure_valid_token` of the task loop are not modelled. The token check inside `killQueueOrder` is folded into the cancel-status input.
- `checkOCOpapertriggers` is not modelled, since its action is `pass`.
- `testCustomOrder` is not modelled. Its call in the simulated trader has the wrong arity, so that row stops the run; this is what `SimTrading.RowStep` models.
- The order of Mongo cursors is unspecified, so it is an explicit sequence parameter. Each call also reads the clock once (`now`), and microseconds are not modelled.
- Numeric.Round: prices are exact reals, and rounding is half-up decimal rounding. IEEE float error and banker's rounding are not modelled.
- Lifecycle.PushSpec: the retried insert after a Mongo write error is not modelled, since the model's stores never fail a write. Likewise the retried `delete_one` of a close is not modelled, because in the model the position found under the key is always the one deleted.
- Text.ParseInt: only an optional sign and ASCII digits are accepted. Python's `int()` also accepts `_` between digits and other Unicode decimal digits; the parsed text is the tail of a broker URL, which carries neither.
- LegacyTasks.SweepStep: the legacy `Tasks` mixin in tasks/__init__.py has no host class among the sources of this model. It uses `self.other`, `self.placeOrder` and `self.id_token`, and calls `self.logger.INFO`/`ERROR`. The model assumes a host on which these all exist and return normally. On a logger with only the lower-case `info`/`error` methods (as the engine's logger is used in api_trader/__init__.py), the cancel's log call would end the sweep after the first cancel, and the no-id alert would raise before the symbol is appended; the model does not capture that.
- LegacyTasks.LegacyTasks.KillQueueOrder: runs on the same assumed host as `SweepStep` (a cancel store `other`, an `id_token`, and `INFO`/`ERROR` logging that returns normally).
- LegacyTasks.LegacyTasks.SellOptionsAtExpiration: assumes a host whose `placeOrder` exists and returns normally; its order is the output, as with the other broker calls.
- Lifecycle.RowStep: the forbidden-symbol collection is a set parameter. The source behaves as if it were empty, because it tests a string against documents.
- `OptionSymbol(...).build()` comes from a library that is not part of this model. It is an opaque formatter function given to the builder.
- Users other than this trader and account are not modelled. The collections hold one trader's documents, and the Trader filters are identities.
