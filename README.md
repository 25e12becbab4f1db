# cs28 betting core in Dafny

This project models the core of a "sum of three draws" betting service. Each
round draws three numbers; bets name the exact sum (0..27) or one of six
named selections: big, small, odd, even, extreme big, extreme small. The
project models four things:

- the **ingest path**. The collector reads a draw from the feed object and
  upserts the round row with its derived fields (sum, big/small, odd/even,
  extreme). It publishes the round to the cache's history list (deduplicated
  by issue code, newest first, at most 200 entries) and last result. It then
  writes the next round's current-issue hash. A second job recomputes that
  hash's `allow_bet` flag as time passes.
- **bet placement**. A bet is placed against an open round. The stake total
  moves from the wallet's `available` to `frozen`, and the order, its items
  and a ledger entry are written in one transaction.
- **settlement**. The hit rule, half-up payout rounding and settlement of one
  order are modelled, along with the periodic batch. The batch reads up to
  200 settleable orders and settles each one whose round has a sum. Each
  order reads the clock inside its own transaction, so the batch takes one
  clock reading per row.
- **start-up**. This covers the default lottery row, and the warm-up that
  rebuilds the history list and last result from the stored rounds.

Money is in whole cents, odds in whole ten-thousandths, and times in whole
seconds. The relational store is the class `Store.Db`:

- Append-only tables are sequences: `orders`, `order_item` and
  `wallet_ledger`. The row with id k sits at index k - 1.
- Keyed tables are maps.

The key-value cache is the class `Store.Cache`. Each service is a method on
these objects. Its postcondition ties the new state to a pure function of
the old state, and lemmas prove what the service promises about that
function.

The model keeps two divergences of the source visible:

- **Two extreme bands.** Ingest stores the extreme label with the band
  >= 24 / <= 3 (`app/services/issue_service.py:15`). Settlement pays extreme
  selections on >= 23 / <= 4 (`app/tasks/settlement.py:173-176`).
  `IssueService.ExtremeBandsDiverge` proves that the two disagree on exactly
  the sums 23 and 4.
- **Two wallet models.** Placement debits `WalletAccount.available` and
  raises `frozen` (`app/services/bet_service.py:45-48`). Settlement credits
  `User.balance` (`app/tasks/settlement.py:270-272`), writes no ledger entry
  and never releases `frozen`. `Settlement.SettleOneOrder` states that it
  leaves the wallet and ledger tables unchanged.

In both places the model follows the code, not a reconciled design. A
reconciled design would have one canonical extreme band, and settlement
crediting the available balance with a payout ledger entry.

Close times follow the code too. The code computes the close time as
`open_time - (lock_ahead_seconds or 3)`, so a negative stored lock-ahead puts
the close after the open. `IssueService.CloseBeforeOpen` states this.

## Model

| member | source | states |
|---|---|---|
| Common.Strip | app/tasks/settlement.py:161 | str.strip(): the result neither starts nor ends with whitespace and is no longer than the input |
| Common.StripIsSlice | app/tasks/settlement.py:161 | the result is a slice of the input with only whitespace cut off either end; together with Strip's own contract this fixes the result |
| Common.NatToStringRoundTrip | app/tasks/scheduler.py:124 | int(str(n)) == n for natural n: the decimal numeral written by str() reads back as n |
| Common.ParseIntOfIntToString | app/tasks/scheduler.py:71 | int() of str(i) is i for every integer, negative ones included |
| Common.JoinSplit | app/tasks/scheduler.py:71 | joining the parts of s.split(sep) with sep gives s back |
| Common.SplitJoin | app/tasks/scheduler.py:71 | splitting a join of separator-free parts gives exactly those parts |
| Common.ParseThreeOfJoin | app/tasks/settlement.py:147-149 | a text "a,b,c" (any further comma-separated parts ignored) reads as the three integers (a, b, c) |
| Common.RoundHalfUp | app/tasks/settlement.py:36-37 | quantize with ROUND_HALF_UP: the result is the integer nearest n / d, halves rounded away from zero |
| Common.RoundHalfUpExact | app/tasks/settlement.py:267 | q2 of an amount already in whole cents is that amount |
| Common.OrDefault | app/services/issue_service.py:23 | Python "x or d" on a nullable integer: None and 0 give d, any other value (negative too) is kept |
| Common.Take | app/services/issue_service.py:33 | s[:n]: a prefix of s of length min(n, len(s)) |
| Settlement.ExactSelectionHits | app/tasks/settlement.py:160-163 | a numeric selection str(n) wins exactly when n equals the drawn sum |
| Settlement.BigRule | app/tasks/settlement.py:165-166 | "big" wins exactly on sums >= 14 |
| Settlement.SmallRule | app/tasks/settlement.py:167-168 | "small" wins exactly on sums <= 13 |
| Settlement.OddRule | app/tasks/settlement.py:169-170 | "odd" wins exactly on odd sums |
| Settlement.EvenRule | app/tasks/settlement.py:171-172 | "even" wins exactly on even sums |
| Settlement.ExtremeBigRule | app/tasks/settlement.py:173-174 | "extreme big" wins exactly on sums >= 23 |
| Settlement.ExtremeSmallRule | app/tasks/settlement.py:175-176 | "extreme small" wins exactly on sums <= 4 |
| Settlement.BigSmallRules | app/tasks/settlement.py:164-168 | big and small partition every sum: exactly one of them wins |
| Settlement.OddEvenRules | app/tasks/settlement.py:169-172 | odd and even partition every sum: exactly one of them wins |
| Settlement.ExtremeRules | app/tasks/settlement.py:173-176 | the two extreme bands never both win |
| Settlement.UnknownSelectionNeverHits | app/tasks/settlement.py:177 | a selection that is neither a numeral nor a named selection (after strip) never wins |
| Settlement.Payout | app/tasks/settlement.py:252 | a win of q2(stake * odds) is non-negative for non-negative stake and odds |
| Settlement.PayoutIsNearestCent | app/tasks/settlement.py:252 | the payout is within half a cent of stake * odds, halves rounded up |
| Settlement.PayoutExact | app/tasks/settlement.py:252 | when stake * odds is a whole number of cents the payout is exactly that |
| Settlement.SumFromCode | app/tasks/settlement.py:142-151 | the "x,y,z" lookup yields a sum exactly when the first three comma-separated parts read as integers |
| Settlement.SumFromCodeOfNumbers | app/tasks/settlement.py:143-149 | the lookup on "a,b,c" yields a + b + c |
| Settlement.EvaluateItem | app/tasks/settlement.py:238-260 | an evaluated item is settled and keeps its order, selection, stake, odds and play |
| Settlement.EvaluateItemOnce | app/tasks/settlement.py:238-260 | an unsettled item is stamped with now and becomes a hit with the payout when the hit rule holds, otherwise a miss with 0; a settled item is left as it is, so evaluation is idempotent across sums and times; the win it records is the amount it adds to the total |
| Settlement.SettleItemsAt | app/tasks/settlement.py:216-260 | settling an order evaluates exactly the items of that order and leaves every other item row unchanged |
| Settlement.ReentryTotalStable | app/tasks/settlement.py:239-245 | re-settling items already settled, against any sum, gives the same total: no double credit on re-entry |
| Settlement.OrderWinNonNegative | app/tasks/settlement.py:235-263 | with non-negative stakes, odds and recorded wins the order's total win is non-negative |
| Settlement.NoItemsNoWin | app/tasks/settlement.py:216-221 | an order without items has no win and no item is touched |
| Settlement.SettleOrderSkips | app/tasks/settlement.py:190-196 | a missing order, or one not in status 1 or 3, is left alone and yields no details |
| Settlement.SettleOrderOnce | app/tasks/settlement.py:194-196 | once settled, settling the same order again (any sum, any time) changes nothing: no double payout |
| Settlement.SettleOrderVoids | app/tasks/settlement.py:199-233 | a missing user or an order without items sets status 9, with no item or balance change |
| Settlement.SettleOrderPays | app/tasks/settlement.py:235-287 | status 4 if the total win is positive else 5, win recorded, items evaluated, the user's balance raised by exactly the positive total, other users unchanged, details reported |
| Settlement.SettleOrderFrame | app/tasks/settlement.py:190-274 | settling one order changes no other order and no item of another order |
| Settlement.SettleItem | app/tasks/settlement.py:240-260 | one item: the evaluated row and the amount it adds to the total |
| Settlement.SettleOrderItems | app/tasks/settlement.py:235-260 | the item loop returns the items table with every item of the order evaluated and every other item as it was, and the order's total win |
| Settlement.SettleOneOrder | app/tasks/settlement.py:184-287 | the new orders, items and users tables and the details are those of one settlement; wallets, ledger and rounds are untouched |
| Settlement.SettlementScenario | app/tasks/settlement.py:238-272 | sum 24: big 10.00 at 1.98 wins 19.80, exact "7" 5.00 at 26.00 loses; the order is paid 19.80 with status 4, the balance rises by 19.80, and the details report a win of 19.80 |
| Settlement.SettleOnlyOrder | app/tasks/settlement.py:262-272 | a settleable order with items and a positive total win: status 4, the win recorded, the items evaluated, the user credited exactly the total, and the details returned |
| Settlement.SettleableIds | app/tasks/settlement.py:300-303 | the ids of exactly the orders in status 1 or 3, strictly ascending |
| Settlement.Candidates | app/tasks/settlement.py:300-306 | the read phase returns at most 200 rows |
| Settlement.CandidateIds | app/tasks/settlement.py:300-306 | row i is the i-th settleable order id |
| Settlement.CandidatesAreSettleable | app/tasks/settlement.py:300-306 | every row read is a settleable order with that order's own round |
| Settlement.CandidatesAscend | app/tasks/settlement.py:303 | the rows come by strictly ascending order id |
| Settlement.CandidatesAreOldest | app/tasks/settlement.py:303-304 | a settleable order left out by the limit has a larger id than every row taken |
| Settlement.SettleBatchFrame | app/tasks/settlement.py:320-344 | the batch leaves every order it did not read unchanged |
| Settlement.SettleBatchWaits | app/tasks/settlement.py:321-324 | an order whose round has no sum yet is left unchanged by the batch |
| Settlement.SettleBatchSettles | app/tasks/settlement.py:320-330 | every order read whose round has a sum is not settleable after the batch (settled now, or not settleable before) |
| Settlement.SettleBatchRow | app/tasks/settlement.py:320-330 | the row an order read ends with is the one settling it gives, at its own clock reading, in the state the earlier rows leave; those rows leave the order as it was |
| Settlement.ResolveRounds | app/tasks/settlement.py:310-317 | every round named by a row is looked up, once, to its sum |
| Settlement.SettleRows | app/tasks/settlement.py:319-331 | the write phase leaves the books as the batch over the rows, each row settled at its own clock reading with the sum looked up once; wallets, ledger and rounds untouched |
| Settlement.SettleOrdersOnce | app/tasks/settlement.py:293-344 | one cycle leaves the books as the batch over the candidate rows, row i settled at the clock reading clock(i) taken inside its own transaction; wallets, ledger and rounds untouched |
| IssueService.CalcFields | app/services/issue_service.py:11-16 | the sum is n1 + n2 + n3 and the labels take values in {1,2}, {1,2} and {0,1,2} |
| IssueService.SumInRange | app/services/issue_service.py:12 | three numbers 0..9 sum to 0..27 |
| IssueService.BigSmallLabelAgrees | app/services/issue_service.py:13 | the stored big/small label is 1 exactly when settlement pays "big" and 2 exactly when it pays "small" |
| IssueService.OddEvenLabelAgrees | app/services/issue_service.py:14 | the stored odd/even label is 1 exactly when settlement pays "odd" and 2 exactly when it pays "even" |
| IssueService.ExtremeLabelImpliesHit | app/services/issue_service.py:15 | a stored extreme label implies that settlement pays that extreme |
| IssueService.ExtremeBandsDiverge | app/services/issue_service.py:15 | stored as "neither" but paid as an extreme exactly on sums 23 and 4 |
| IssueService.DrawnIssueFields | app/services/issue_service.py:20-44 | the round row has its key, status 3, the numbers with their derived fields, and raw_json is the prefix of the input of length min(len, 255) |
| IssueService.CloseBeforeOpen | app/services/issue_service.py:23 | the stored close time is the open time minus the effective lock-ahead (3 seconds when the lottery has none or 0), so it precedes the open time exactly when that lock-ahead is positive |
| IssueService.UpsertIssueFromResult | app/services/issue_service.py:18-47 | with the lottery present the round's row becomes the drawn row (insert or overwrite alike), otherwise nothing is written; rows stay keyed by round |
| IssueService.RemoveValue | app/services/issue_service.py:68 | LREM 0: every entry equal to the value is gone, all others stay |
| IssueService.MatchingIn | app/services/issue_service.py:65-70 | the removals queued are exactly the entries carrying the issue code |
| IssueService.RemoveValuesIsWithout | app/services/issue_service.py:64-71 | running the queued removals one after another removes all queued values at once |
| IssueService.DedupeShortList | app/services/issue_service.py:61-71 | on a list of at most 200 entries the dedupe pass removes exactly the entries of the round and keeps the rest in order |
| IssueService.PushHistory | app/services/issue_service.py:74-76 | the new list has 1 to 200 entries with the new payload at the head |
| IssueService.OtherRoundsSubsequence | app/services/issue_service.py:61-71 | dropping one round's entries keeps issue codes distinct |
| IssueService.PushHistoryKeepsRoundsUnique | app/services/issue_service.py:50-78 | from at most 200 entries with distinct rounds: at most 200, new payload first, no other entry of its round, other rounds in previous order, rounds distinct |
| IssueService.SetRedisAfterIssue | app/services/issue_service.py:50-78 | the history list becomes the pushed list and the last result the payload; the current-issue hash is untouched |
| IssueService.AllowBetText | app/services/issue_service.py:88 | allow_bet is written "1" or "0" |
| IssueService.AllowBetTextRoundTrip | app/services/issue_service.py:88 | "1" exactly when betting is allowed, "0" exactly when not |
| IssueService.MergeHash | app/services/issue_service.py:90 | HSET mapping: given fields overwrite, other fields stay, keys are the union |
| IssueService.MergeRewritesOne | app/services/issue_service.py:90 | writing the same fields again with one changed changes only that field |
| IssueService.CurrentIssueFieldsFlag | app/services/issue_service.py:83-89 | the fields for two flags differ only in allow_bet |
| IssueService.CurrentIssueReadBack | app/services/issue_service.py:82-90 | the hash then holds the lottery, the issue code, both times readable back, and allow_bet "1" exactly when allowed |
| IssueService.SetCurrentIssueCache | app/services/issue_service.py:82-90 | the lottery's hash is merged with the five fields; history and last result untouched |
| Scheduler.FirstTruthy | app/tasks/scheduler.py:60-65 | "a or b or ...": the value under the first key, in order, that holds a truthy value; none exactly when no key does |
| Scheduler.FirstTruthyHead | app/tasks/scheduler.py:61 | a truthy value under the first key is the one read |
| Scheduler.FieldText | app/tasks/scheduler.py:48-59 | the text of the first truthy value, and empty exactly when no key holds a truthy value |
| Scheduler.ParseDraw | app/tasks/scheduler.py:47-82 | a draw read has a non-empty issue code taken from the feed and the three numbers of its numbers text |
| Scheduler.ParseDrawOfFeed | app/tasks/scheduler.py:47-82 | a feed object with issue code, "a,b,c" numbers and a fixed-format open time reads back as exactly that draw |
| Scheduler.ParseDrawNeedsThreeNumbers | app/tasks/scheduler.py:70-73 | without three readable integers no draw is read |
| Scheduler.NextIssueCode | app/tasks/scheduler.py:123-125 | a numeric code is followed by the numeral of its value plus one, any other code is kept |
| Scheduler.NextIssueCodeOfNumber | app/tasks/scheduler.py:123-125 | the code after str(n) is str(n + 1) |
| Scheduler.NextRoundTimes | app/tasks/scheduler.py:117-120 | a positive lock-ahead closes the next round before it opens; when the period exceeds the lock-ahead (210 and 3 by default) it also closes after the round just drawn |
| Scheduler.ReadFeed | app/tasks/scheduler.py:47-82 | the collector's parsing steps compute the draw ParseDraw describes |
| Scheduler.PublishDraw | app/tasks/scheduler.py:84-132 | publishes exactly when the lottery exists: round row, history, last result and next current-issue hash as specified; else nothing changes |
| Scheduler.CollectorJob | app/tasks/scheduler.py:38-135 | a feed object that does not read as a draw changes nothing; otherwise the draw is published |
| Scheduler.RefreshRewrites | app/tasks/scheduler.py:146-157 | a hash holding readable times is rewritten with allow_bet computed at time now |
| Scheduler.RefreshOnlyMovesAllowBet | app/tasks/scheduler.py:138-157 | on a hash the collector wrote, a refresh changes only allow_bet, to "1" exactly when now is before the close |
| Scheduler.RefreshAfterPublishIsIdle | app/tasks/scheduler.py:117-157 | a refresh at the same instant as the collector's write of the next round leaves the hash unchanged |
| Scheduler.RefreshToleratesBadHash | app/tasks/scheduler.py:146-160 | a missing or unreadable time leaves the hash as it is |
| Scheduler.RefreshCurrentIssueJob | app/tasks/scheduler.py:138-160 | the lottery's hash becomes the refreshed hash; a missing hash stays missing |
| BetService.WalletOf | app/services/bet_service.py:16-22 | a user without a wallet row gets one with all zeros |
| BetService.EnsureWallet | app/services/bet_service.py:16-22 | returns the user's wallet row, inserting the all-zero one when missing; an existing row is unchanged |
| BetService.TotalStakeAtLeastItems | app/services/bet_service.py:38 | a valid bet's total is at least one cent per item |
| BetService.Debited | app/services/bet_service.py:45-48 | the total moves from available to frozen (their sum unchanged) and the version goes up by one |
| BetService.DebitKeepsBalancesNonNegative | app/services/bet_service.py:42-48 | an admitted bet leaves available non-negative and raises frozen |
| BetService.SecondBetRefused | app/services/bet_service.py:41-48 | with 10.00 available, of two 8.00 bets placed in turn only the first is admitted |
| BetService.ItemRowsAt | app/services/bet_service.py:63-74 | each item row belongs to the order, is unsettled and copies its item's play, selection, odds and stake |
| BetService.OrderTotalIsItemStakes | app/services/bet_service.py:38-74 | the order's total equals the sum of its item rows' stakes |
| BetService.PlacedOrderIsSettleable | app/services/bet_service.py:51-90 | a placed order is in a settleable status with items, so settlement evaluates it rather than voiding it |
| BetService.InsertItems | app/services/bet_service.py:63-74 | the items table grows by exactly the bet's item rows, in bet order |
| BetService.PlaceBet | app/services/bet_service.py:24-92 | rejects a missing round, a closed round or insufficient funds, with nothing changed; otherwise debits the wallet and appends the pending order, its items and the ledger entry |
| Bootstrap.WithDefaultLotteryProperties | app/services/bootstrap_service.py:16-30 | the lottery is then present; an existing row is kept; a created row has lock-ahead 3 and status 1; a second call changes nothing |
| Bootstrap.EnsureDefaultLottery | app/services/bootstrap_service.py:16-30 | the lottery table gains the default row only when the code is missing, and the row for the code is returned |
| Bootstrap.Payloads | app/services/bootstrap_service.py:55-62 | entry i is the history payload of row i |
| Bootstrap.PushRows | app/services/bootstrap_service.py:51-66 | after the delete and one push per row, the list is the rows' payloads in reverse order, and the last payload pushed is returned |
| Bootstrap.WarmupRedisFromDb | app/services/bootstrap_service.py:33-69 | history becomes the payloads in reverse row order (key deleted if none); the last result becomes the last row's payload |
| Bootstrap.WarmupListsStartHistory | app/services/bootstrap_service.py:41-66 | both warm-ups leave a list of at most 200 entries naming no round twice, so the invariant the incremental push keeps holds from the start |
| Bootstrap.PushedListHead | app/services/bootstrap_service.py:64-69 | the list head and the last result are the last row read; the list end is the first |
| Bootstrap.WarmupLoadsOldest | app/services/bootstrap_service.py:41-46 | with rounds at 100 and 200 and limit 1 the query as written loads only the older round, which lands at the head |
| Bootstrap.WarmupRedisFromDbNewest | app/main.py:63-64 | the corrected warm-up: history becomes the payloads of the rows newest first, last result the newest |
| Bootstrap.NewestWarmupHeadIsLatest | app/services/bootstrap_service.py:64 | with a drawn round and limit >= 1 the head opens no earlier than any drawn round of the lottery, loaded or not |
| Bootstrap.NewestWarmupLoadsLatest | app/main.py:63 | on the two-round example the corrected warm-up loads the round opened at 200 |

## Left out

- Floating point and `Decimal`: money is whole cents, odds whole ten-thousandths. A stake below one cent, or odds with more than four decimals, cannot be expressed.
- Payout: `float(win_amt)` and `float(q2(...))` conversions are not modelled; amounts stay exact.
- The ORM, sessions, row locks and transactions: every service call is one atomic step. A raised exception is modelled as a rejection or as "nothing written". Settlement's per-order try/except in `settle_orders_once` is not modelled: in the model no single order's settlement raises.
- HTTP and authentication: the HTTP fetch of the feed (`fetch_jnd28_result`), the routers, and authentication.
- APScheduler registration, intervals and overlap policy (`start_scheduler`).
- `init_db` (table creation).
- The feed object is given as a map of scalar JSON values. Nested lists, dicts and floats in the feed are not modelled, and neither is JSON encoding of `raw_json` (it is a parameter).
- Time: clocks (`datetime.now`, `utcnow`) are parameters. Date-time parsing and formatting (`strptime`, `fromisoformat`, `strftime`) are the abstract functions of `Common.TimeCodec`. Time zones are not modelled.
- Redis key TTLs (`expire 3600`) are not modelled.
- `str.isdigit` and `int()` are restricted to ASCII digits: Unicode digits that Python accepts are treated as non-digits.
- `get_open_sum`: the model-discovery reflection (`_choose_open_model`) and the `sum_value` and `n1+n2+n3` branches are not modelled; the batch takes the lookup as a function `resolve` from round to optional sum. The "x,y,z" branch is `Settlement.SumFromCode`.
- The settlement details omit `user_name`, which is display text only.
- Bound checks of the database column types (TINYINT numbers and status, Numeric precision) are not modelled.
- Cancellation, idempotency keys, a house odds lookup and payout ledger entries are not part of this model. The code has no idempotency keys or odds lookup in placement, and settlement writes no payout ledger entry.
- `Bootstrap.WarmupRedisFromDb`: the SQL query is not executed. Its result is a parameter constrained by `Bootstrap.OldestDrawn` (eligible rows, ascending open time, oldest ones when the limit cuts).
- The frozen amount a bet moves is never released or consumed: settlement credits `User.balance` and does not touch `WalletAccount`. The model keeps this as written and proves no invariant linking the two balances.

## Findings

| source | as written | input that shows it | evidently intended | confidence | as-written member | corrected member |
|---|---|---|---|---|---|---|
| app/services/bootstrap_service.py:41-46 | The warm-up selects drawn rounds by ascending open time with `LIMIT limit`. That is the oldest `limit` rounds. The comment at line 64 and the start-up call at app/main.py:63-64 intend the most recent rounds, newest at the head of the history. | Two drawn rounds opened at 100 and 200 and limit 1: only the round at 100 is loaded. It becomes the head of the history and the last result, while the round at 200 is stored and drawn. | Select by descending open time, so the newest rounds are loaded. Push them from oldest to newest, so the newest is at the head and in the last result. | not executed | Bootstrap.WarmupLoadsOldest | Bootstrap.NewestWarmupHeadIsLatest |
