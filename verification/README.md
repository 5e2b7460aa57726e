# Paper-trading bot: a verified model

A bot places binary-market bets for several (strategy, asset) pairs, each with its own paper
bankroll.  One coroutine per pair looks for trades, one resolver settles or voids them, and all of
them share one database whose calls are several awaited statements each.  Around that sit a
backtest engine, its statistics, the price feeds and their indicators, and a few rate limits and
queues.  This project models those parts and proves what they guarantee.

## How it is laid out

* `Ledger` holds the tables and every write as functions; `Store` is the database object, updated
  in place and proved against them.
* `Interleaving` cuts the storage calls into their statements and says which schedules are
  harmless, and exactly when an overlapping one loses money.
* `Streaks`, `Sizing`, `Windows`, `Risk`, `Settlement` and `Execution` are the parts of one order's
  life; `Protocol` puts bots, resolver and clock into one state machine in which anything may happen
  between two awaits of an order; `Guarantees`, `Booking`, `Quota`, `Positions`, `Overlaps`, `Growth`
  and `Orders` hold the theorems about all its runs, and `Resolving` shows the resolver object's loop
  to be one of them.
* `Statements` drops the assumption that a storage call is one step: bots and resolver interleave
  statement by statement, same-pair overlaps included.  `Losses` says to the cent what that costs,
  `Clashes` which moves cost it, and `EveryStatement` lifts the other theorems to it.
* `Metrics`, `MonteCarlo`, `Indicators` and `Backtest` are the replay and its statistics.
* `Consensus`, `Adx`, `Candles`, `FeedWindows`, `Broker`, `TokenBuckets` and `SlidingLog` are the
  streaming parts; `Recency`, `Sorting`, `Rounding` and `Common` are shared.

Objects whose methods update fields are classes, with the full history as a ghost field where the
claim is about the history.  Loops are loops, proved against a function of the inputs.  What such a
function means is told a second time, without it, by a predicate over the raw data whose name says
so (`Told`, `ClosedAsDue`, `Accepted`, `IsPercentile`, ...), and the operations ensure that too.

## Where the code does less than one might expect

* **Two settlements of one row.**  The storage call has no guard; settling a closed row pays it
  again unless it was void or had paid nothing (`Ledger.ResolveConservesExactlyWhen`).  That it
  never happens is a property of the resolver loop (`Guarantees.SettledOnce`, `Resolving.PassSettlesOnce`).
* **Voided trades keep the stake.**  Their profit is recorded as zero but the stake is not given
  back, so the balance law needs a term for it (`Ledger.NaiveLawExactlyWhen`).
* **Overlapping calls on one pair.**  A pair's bot and the resolver can overlap, and one of the two
  writes is then undone unless its amount is zero (`Interleaving.SettleInsideLost`,
  `PlaceInsideLost`, `FeeInsideSettlementLost`; `FeeInsideLost` is the same for two calls one bot
  never overlaps).  Accounts stay above minus one gas price and at most at their peak all the same
  (`Statements.AfloatForever`).  The books of a pair are broken exactly by clashes: a payout written
  while its bot has read the balance and not yet written it, or a stake or gas taken while the
  resolver has read the account and not yet written it (`Clashes.BooksSafeExactlyWhen`).  A run
  that forgets an order's gas exists (`Losses.GasCanBeForgotten`).
* **Three open trades per asset** is what the exposure check allows only if check and insert are
  not interleaved (`Positions.NeverMoreThanThree`).  Two permitted bots that overlap go from two to
  four in one run (`Overlaps.OverlapReachesFour`); with the limit below two thirds and bots able to
  trade, the cap holds over all runs exactly when the asset has at most one bot
  (`Growth.CapHoldsExactlyWhen`).  From a limit of one half on an even book is never refused, so two
  bots reach any number (`Growth.EvenBookGrowsWithoutBound`).  The configured
  `max_same_direction_per_asset` is logged and never enforced (src/bot/execution/risk.py:98-111).
* **Halts are permanent.**  The cooldown of the circuit breaker is described as a pause, but with
  nothing open the streak can never end, so it trips again for ever (`Guarantees.HaltedForever`,
  `EveryStatement.HaltedForever`).  A settlement already under way may still write the account
  (`EveryStatement.PendingWriteMoves`).
* **Bucket 0 is a sentinel** in the candle builder, so a run of ticks in it is never closed
  (`Candles.NoCandleLostExactlyWhen`).
* **The backtest floor** of minus one gas fee depends on rounding.  From starts in whole millionths
  all replays keep it exactly when the gas price rounds down to a millionth
  (`Backtest.FloorHoldsExactlyWhen`), from any start exactly when it is an even number of millionths
  (`FloorFromAnyStartExactlyWhen`); to within a millionth they always do (`ReplayFloorAlways`).
  Re-pricing stored trades does not have it, because a negative bankroll bets a negative amount
  (`Backtest.RepriceFloorExactlyWhen`).  Bankroll and profits add up only if the starting amount is
  a whole number of millionths (`Backtest.BankrollExplainedExactlyWhen`).
* **Monte Carlo says little.**  Every shuffle ends on the same equity and Sharpe ratio, so the
  probabilities are 0 or 1 and only the drawdown figures carry information (`MonteCarlo.Run`).
  Its returns are described as mirroring the metrics'; they differ for a trade that tied nothing up.
* **RSI** of a market that does not move is 100 live and 50 in the backtest
  (`Indicators.LevelsAgreeExactlyWhen`).
* **ADX** needs two prices more than its period, not one as the first guard suggests: with exactly
  one more the second guard returns 0.
* **Outlier detection** lets a tick past its threshold go exactly when most exchanges quote one and
  the same price (`Consensus.UnflaggedExactlyWhen`), and a refused second primary adapter stays in
  the list (`Consensus.ExchangeManager.AddAdapter`).
* **The feed's two-minute figures** are those of the latest event: nothing is trimmed or recomputed
  until the next one arrives.

## Conventions

Amounts, prices and times are exact reals; `round(x, n)` is rounding to n places, ties to even.
Trade ids are positions in the trades table, counted from 0.  A clock is a parameter of every
operation that reads one.  Square roots and strategies are arbitrary functions.  Answers of the
outside world (markets, prices, VPN state, delivery of a message, shuffled orders) are parameters.

## Model

| member | source | states |
|---|---|---|
| Ledger.ResolveConservesExactlyWhen | src/bot/storage/database.py:242-268 | Settling a row keeps the pair's books balanced if and only if the row was open, voided, or had been closed for exactly nothing: the storage call itself does not guard against settling twice |
| Ledger.ResolveConservesOthers | src/bot/storage/database.py:242-268 | A settlement leaves every other pair's books balanced |
| Ledger.ReserveConserves | src/bot/storage/database.py:203-240 | Reserving moves the stake from the balance into the open trades, refusal included |
| Ledger.DeductConserves | src/bot/storage/database.py:193-201 | A fee is accounted on its own pair and on no other |
| Ledger.VoidConserves | src/bot/storage/database.py:544-568 | Voiding an open trade keeps the law with the stakes of voided trades in it |
| Ledger.NaiveLawExactlyWhen | src/bot/storage/database.py:563-568 | The law without the voided stakes holds if and only if no trade of the pair was voided, because a void never gives the stake back |
| Store.Database.SeedBankroll | src/bot/storage/database.py:159-168 | Every combination of strategy and asset ends with an account; accounts that existed are untouched |
| Store.Database.DeductFee | src/bot/storage/database.py:193-201 | The in-place update is the specified one |
| Store.Database.ReserveAndInsertTrade | src/bot/storage/database.py:203-240 | Succeeds if and only if the account exists and covers the stake; then the row is appended and its id returned, otherwise nothing changes |
| Store.Database.ResolveTrade | src/bot/storage/database.py:242-268 | Row, balance and peak afterwards, unknown ids ignored |
| Store.Database.MoveToDeadLetter | src/bot/storage/database.py:544-568 | The row is copied as it stood and voided; no balance changes |
| Store.OpenIds | src/bot/storage/database.py:270-282 | Exactly the ids of rows without outcome, each once |
| Store.StaleIds | src/bot/storage/database.py:532-542 | Exactly the open rows older than the cutoff, each once |
| Streaks.RecentIsNewest | src/bot/storage/database.py:314-323 | The rows the streak query returns lie at strictly falling positions, and every resolved row of the pair it leaves out lies before them all |
| Streaks.RecentCount | src/bot/storage/database.py:314-323 | It returns n rows, or all resolved rows of the pair when there are fewer |
| Streaks.NewestUnique | src/bot/storage/database.py:314-323 | There is only one such choice of positions |
| Streaks.StreakIsRecent | src/bot/storage/database.py:314-323 | The streak query finds n losses if and only if, from some position in the table on, exactly n rows of the pair are resolved and all of them lost |
| Interleaving.SerialEquivalence | src/bot/storage/database.py:193-268 | Any statement-level schedule in which calls on one pair never overlap ends with the tables of the calls run whole, each call begun exactly once |
| Interleaving.KeepTracks | src/bot/storage/database.py:193-268 | One statement of a call keeps the relation between the real tables and the serial ones for every other call under way |
| Interleaving.NextAhead | src/bot/storage/database.py:203-268 | Each later statement of a placement, settlement or void leaves the tables exactly as far ahead of the serial ones as its stage says |
| Interleaving.Uninterrupted | src/bot/storage/database.py:193-268 | The statements of a call run without interruption are the call |
| Interleaving.FeeInsideLost | src/bot/storage/database.py:193-219 | A fee charged between a placement's read and its write is explained by some serial order if and only if it is zero |
| Interleaving.SettleInsideLost | src/bot/storage/database.py:210-268 | A settlement inside a placement is lost unless it pays back nothing: an if-and-only-if |
| Interleaving.PlaceInsideLost | src/bot/storage/database.py:203-268 | A placement inside a settlement is kept without being paid for, unless it was free: an if-and-only-if |
| Interleaving.FeeInsideSettlementLost | src/bot/storage/database.py:193-268 | Gas charged between the resolver's read of an account and its write of it is explained by some serial order if and only if it is zero |
| Sizing.SizeInBand | src/bot/execution/sizer.py:40-71 | After cent rounding the size lies in the band, for any statistics, bankroll and configuration |
| Sizing.FullKellyIsEdge | src/bot/execution/sizer.py:62-62 | The Kelly expression is the edge over the risk |
| Sizing.FractionCancels | src/bot/execution/sizer.py:62-71 | The Kelly fraction cancels: only its sign can reach the size |
| Sizing.SizeFollowsEdge | src/bot/execution/sizer.py:40-71 | The size never falls when the win rate rises or the average entry falls, and exceeds the minimum only with a positive edge |
| Sizing.SizeWithinBankroll | src/bot/execution/sizer.py:40-71 | With percentages of at most 201/202 the size on a bankroll of at least a dollar is at least ten cents and at most the bankroll |
| Sizing.CentsAffordExactlyWhen | src/bot/execution/sizer.py:43-45 | A share rounded to cents fits every bankroll of a dollar or more if and only if the percentage is at most 201/202, the bound SizeWithinBankroll asks of the configuration |
| Sizing.RollingStatsInRange | src/bot/storage/database.py:294-312 | Win rate and average entry over the last n resolved rows are proportions |
| Sizing.StatsTold | src/bot/storage/database.py:294-312 | The statistics are counted over the newest n resolved rows of the pair: their number, the share that won, the mean entry; without rows 0, 0 and one half |
| Sizing.MoreWinsNeverShrink | src/bot/execution/sizer.py:40-71 | Turning a lost row of the table into a won one never lowers the size, whichever row it is |
| Sizing.WarmupSize | src/bot/execution/sizer.py:47-52 | With too few resolved rows the size is the default share, kept between the smallest and the largest size |
| Sizing.SmallestTold | src/bot/execution/sizer.py:43-44 | The smallest size is the minimum share to the cent, and not below ten cents |
| Sizing.LargestTold | src/bot/execution/sizer.py:45-45 | The largest size is the maximum share to the cent, and not below the smallest |
| Sizing.SizeIsProportional | src/bot/execution/sizer.py:58-71 | After warm-up: the smallest size without an edge, the largest from an edge of a tenth on, and in between the size is as far between the two as the edge is between nothing and a tenth, to the cent |
| Windows.KeysMatchMarketWindows | src/bot/execution/executor.py:47-52 | Two moments share a tracker key if and only if they share a market window |
| Windows.KeyStartsMarketWindow | src/bot/market/finder.py:44-47 | The key's own start is the start of the market window |
| Windows.WindowHoldsNow | src/bot/market/finder.py:44-47 | The window of a moment holds it, starts on a whole multiple of its length, and lasts a quarter of an hour for SOL and five minutes for the others |
| Windows.CleanupUnseen | src/bot/execution/executor.py:54-60 | Forgetting stale keys changes no later answer |
| Windows.RecordCounts | src/bot/execution/executor.py:67-73 | Recording adds one to the pair's current window and changes no other count asked for later |
| Windows.WindowTracker.CanPlace | src/bot/execution/executor.py:62-65 | True if and only if the current window has room |
| Windows.WindowTracker.Cleanup | src/bot/execution/executor.py:54-60 | Up to 500 keys all stay; beyond that exactly the keys of windows current for some asset stay, with their counts |
| Windows.WindowTracker.Record | src/bot/execution/executor.py:67-73 | The new map and the returned count; the key just written survives the cleanup |
| Risk.PortfolioWithout | src/bot/execution/risk.py:66-71 | The portfolio sums do not depend on the order the accounts are read in |
| Risk.RiskManager.CheckDrawdown | src/bot/execution/risk.py:41-85 | Allowed if and only if neither the pair nor the asset's portfolio is at its drawdown limit |
| Risk.DrawdownExactlyWhen | src/bot/execution/risk.py:41-85 | The check passes if and only if the pair has not fallen from its peak by the disabling share and all accounts of the asset together have not fallen from their added peaks by the pausing share |
| Risk.RiskManager.CheckCorrelation | src/bot/execution/risk.py:89-128 | Allowed if and only if fewer than three bets of the asset are open, or neither side has more than its share of them, counted in the table |
| Risk.CorrelationExactlyWhen | src/bot/execution/risk.py:89-128 | The same of the check as the protocol makes it |
| Risk.RiskManager.CheckCircuitBreaker | src/bot/execution/risk.py:132-178 | Allowed if and only if no cooldown is running and there is no table position from which on exactly N rows of the pair are resolved, all lost; a running cooldown stays, a streak starts one of the configured length, otherwise the pair has none; other pairs keep theirs |
| Risk.CooldownSpansWindows | src/bot/execution/risk.py:160-178 | A pause ends exactly the configured number of market windows later, whatever the asset's window length |
| Risk.RiskManager.CheckAll | src/bot/execution/risk.py:29-39 | All three checks; a refusal before the breaker leaves the cooldowns alone |
| Settlement.LossPaysNothing | src/bot/execution/resolver.py:234-251 | What a settlement returns to the account is never negative and is zero if and only if the bet lost |
| Settlement.GroupByMarket | src/bot/execution/resolver.py:76-81 | Every open trade with a market is listed once under it, and nothing else is |
| Settlement.SettleListConserves | src/bot/execution/resolver.py:92-99 | Settling a duplicate-free list of open trades keeps every pair's books balanced |
| Settlement.SettleListRows | src/bot/execution/resolver.py:92-99 | Each listed row is closed once with its own numbers, every other row is untouched |
| Settlement.Resolver.ResolveCycle | src/bot/execution/resolver.py:71-134 | Every open row ends as its market's answer tells: won and lost bets by side, with the profit in terms of entry, size and fee, or still open; all other rows are as before, every pair's books still balance and peaks follow balances |
| Settlement.SettledAsDue | src/bot/execution/resolver.py:193-251 | A fetched market that names a resolution, or else a closed one whose first price, or failing that second, of at least two is 0.99 or more, decides an open row: a bet on the side that won gets the rest of a dollar on its size less the fee, the other loses its stake; without either the row stays open |
| Settlement.Resolver.DlqCycle | src/bot/execution/resolver.py:136-161 | Exactly the stale open trades are voided and copied; no balance changes; the books with voided stakes still balance |
| Protocol.TidyStep | src/bot/main.py:514-530 | Every step of the concurrent machine keeps rows sane, one open listing per pending item and orders below their budget |
| Protocol.OrderWithinBudget | src/bot/execution/executor.py:176-201 | Whatever the market answers, the stake is less than the balance the order was sized on |
| Protocol.NeverRefused | src/bot/execution/executor.py:222-242 | An order that reaches the storage layer is never refused for lack of money |
| Protocol.SolventStep | src/bot/execution/executor.py:137-245 | Every step keeps every balance above minus one gas price and at most its peak |
| Guarantees.HealthyForever | src/bot/main.py:514-530 | With every storage call taken as one step: each reachable state of bots, resolver and clock is solvent, balanced on every account, within its window caps and has only open work pending |
| Guarantees.HealthyAtStart | src/bot/storage/database.py:159-168 | A freshly seeded system is such a state |
| Guarantees.ConservationStep | src/bot/storage/database.py:193-268 | Balance, open stakes, voided stakes and gas add up to the seed plus the profits, after every step |
| Guarantees.ChargesStep | src/bot/execution/executor.py:222-245 | Gas is taken once for each order booked and at no other step |
| Guarantees.SettledOnce | src/bot/execution/resolver.py:71-161 | Over any run a row with an outcome is never written again; a polled list is distinct and open there by the step's guard, and Resolving shows the loop's own list to be so |
| Guarantees.PeakIsHighestHeld | src/bot/storage/database.py:260-267 | With calls taken whole: over any run the stored peak is the largest balance ever held |
| Guarantees.CountsStep | src/bot/execution/executor.py:62-73 | With calls taken whole: no window exceeds its order cap although check and record are separate steps and the window may roll between them |
| Guarantees.HaltedForever | src/bot/execution/risk.py:48-178 | With calls taken whole: when the newest N resolved rows of the pair are lost, or at the disabling drawdown, with nothing open, no later step of any run touches the pair; an expired cooldown only trips the breaker again |
| Guarantees.RunIsSerial | src/bot/main.py:514-530 | A run of the machine leaves the tables its storage calls leave one after another |
| Guarantees.ScheduleConserves | src/bot/storage/database.py:193-268 | For an overlap-free statement schedule whose calls are those of a run: balance law, solvency and peak hold in its tables |
| Resolving.ResolverPass | src/bot/execution/resolver.py:60-161 | One pass of the loop, settlement and dead letters on the shared tables, ends where the protocol's steps end: poll of the list it worked through, one settlement each, time, sweep, one void each, rest |
| Resolving.PassSettlesOnce | src/bot/execution/resolver.py:71-161 | A row settled in a pass keeps that outcome and profit, and a row that had an outcome keeps it, through the rest of the pass and any later run |
| Statements.AfloatForever | src/bot/storage/database.py:193-268 | However the statements of bots and resolver interleave, same-pair overlaps included: every balance stays above minus one gas price and at most its peak, no order is refused, peaks never fall, a closed row is never rewritten |
| Statements.MoveKeeps | src/bot/storage/database.py:193-268 | Each single statement keeps this, because only the pair's bot lowers its balance and only the resolver pays in or writes a peak |
| Statements.RunIsDriven | src/bot/main.py:514-530 | Every run with calls taken whole is also a run of statements |
| Losses.BooksBalanceExactlyWhen | src/bot/storage/database.py:193-268 | After any interleaving of statements, a pair with nothing half done has balanced books if and only if what placements undid equals what settlements undid, move by move totals of the run; Clashes names the moves |
| Losses.MoveHolds | src/bot/storage/database.py:193-268 | One statement changes what a pair is worth by the gas it takes and by what its absolute write undoes, and by nothing else; what is undone is never negative |
| Losses.GasCanBeForgotten | src/bot/execution/executor.py:137-245 | From a seeded system in which a bot may place one order on a market with an id, there is a run of statements that charges its gas and leaves the account without the charge, so the books are off exactly when gas is not free |
| Clashes.BooksSafeExactlyWhen | src/bot/storage/database.py:203-268 | A clash is a move that writes a pair's account while the other side is between its read and its write of it. A run is at none of its moves able to finish, without a further clash, into books of the pair that are off, if and only if no clash of the run moves money |
| Clashes.ClashFreeConserves | src/bot/storage/database.py:193-268 | A run of statements without a clash on a pair undoes nothing: with nothing half done its books balance, overlapping calls or not |
| Clashes.BooksAndClashes | src/bot/storage/database.py:203-268 | With no call on the pair under way: something was undone if and only if some clash moved money, and the books balance if and only if clashes raised the account by as much as they lowered it |
| Clashes.HarmUnbalances | src/bot/storage/database.py:203-268 | After harmless moves, a clash that moves money leads to unbalanced books once the calls under way finish |
| EveryStatement.CountsForever | src/bot/execution/executor.py:62-73 | Under any interleaving of statements no window exceeds its order cap |
| EveryStatement.OrderlyForever | src/bot/execution/executor.py:167-196 | Under any interleaving of statements a bot that does not scale in never holds two open bets on one market, and no bet was written above its price limit |
| EveryStatement.HaltedForever | src/bot/execution/risk.py:48-178 | Under any interleaving of statements a halt with nothing open is for good, once no call on the pair is under way |
| EveryStatement.PendingWriteMoves | src/bot/storage/database.py:255-267 | A settlement that has read the account still writes it after a halt, and changes it if and only if the pair spent something since the read or the trade pays something |
| EveryStatement.PeakIsHighestHeld | src/bot/storage/database.py:255-267 | Under any interleaving of statements the stored peak is the largest balance ever held |
| Positions.ThreeBlockedExactlyWhen | src/bot/execution/risk.py:113-117 | Three open trades are refused a fourth however they are split, if and only if the limit is below two thirds |
| Positions.EvenBookNeverBlocks | src/bot/execution/risk.py:113-117 | An evenly split book of any size passes from a limit of one half on, and fails below it |
| Positions.NeverMoreThanThree | src/bot/execution/risk.py:89-128 | With calls taken whole and check and insert one at a time per asset, no run has more than three trades of it open |
| Positions.SingleBotAlone | src/bot/main.py:514-528 | An asset with one bot meets that condition by itself |
| Overlaps.OverlapReachesFour | src/bot/execution/executor.py:137-245 | From any sound state with two open trades, two idle bots of the asset that are each permitted an order get both orders in when they overlap: one run ends with four |
| Overlaps.OverlapAddsTwo | src/bot/execution/executor.py:137-245 | Whatever is open, two permitted bots that overlap add two |
| Growth.CapHoldsExactlyWhen | src/bot/execution/risk.py:89-128 | With the limit below two thirds and bots able to trade, an asset never has more than three open trades over all runs from a seeded system if and only if it has at most one bot |
| EveryStatement.NeverMoreThanThree | src/bot/execution/risk.py:89-128 | Under any interleaving of statements, with check and insert one at a time per asset, no more than three trades of it are open |
| EveryStatement.CapHoldsExactlyWhen | src/bot/execution/risk.py:89-128 | With the limit below two thirds and bots able to trade, no interleaving of statements from a seeded system has more than three open trades of an asset if and only if it has at most one bot |
| Growth.EvenBookGrowsWithoutBound | src/bot/execution/risk.py:113-117 | With a limit of one half or more two bots reach 2k open trades for every k, from a seed large enough |
| Growth.RoundRests | src/bot/execution/executor.py:137-245 | After a round of two overlapping bots each side has one more open trade and both may go on |
| Orders.OrderlyForever | src/bot/execution/executor.py:167-196 | With calls taken whole: a bot that does not scale in never holds two open bets on one market, and no bet was ever written above its price limit |
| Orders.OrderlyStep | src/bot/execution/executor.py:167-242 | Each step keeps that, the stages between check and insert included |
| Orders.OrderlyAtStart | src/bot/storage/database.py:159-168 | A freshly seeded system satisfies both |
| Execution.Executor.Execute | src/bot/execution/executor.py:99-274 | An id comes back if and only if every check passes on the tables the call starts from: a signal, the tunnel, a dollar, room in the window, not too late in it, the three risk checks, a market not held yet, a slipped price between 0 and 1 and within the side's limit, and the stake in the account; then the row, the stake and the gas are exactly that order's, and otherwise neither tables nor counters have changed |
| Execution.ScriptDecides | src/bot/execution/executor.py:99-274 | The same of the protocol's script: it books exactly the accepted orders |
| Execution.RegimeShrinksSize | src/bot/execution/executor.py:198-201 | The size of the order is the Kelly size, halved in a volatile market and cut by a fifth in a ranging one for TURBO strategies, then not below a dollar |
| Booking.OnlyCheckedOrdersAreBooked | src/bot/execution/executor.py:124-242 | In any run a booked order of a pair has six earlier steps of that pair behind it, in order: a start with the tunnel up and a dollar, room and time in the window, drawdown, exposure and breaker checks each passed in the state they were made in, and the pricing the row carries |
| Quota.QuotaForever | src/bot/execution/executor.py:62-73 | In every reachable state no market window has more rows of a bot in the table than its cap |
| Quota.QuotaAtStart | src/bot/storage/database.py:159-168 | A freshly seeded system satisfies what that needs |
| Execution.Executor.PriceTheOrder | src/bot/execution/executor.py:162-201 | Market, idempotency, price and guard decide the order as the protocol says |
| Execution.GivenUp | src/bot/execution/executor.py:124-196 | A refused check ends the order: the remaining stages do nothing |
| Metrics.BuildEquityCurve | src/bot/backtest/metrics.py:83-92 | Point k of the curve is the start plus the first k profits |
| Metrics.DrawdownIsWorstFall | src/bot/backtest/metrics.py:95-103 | A number is the running-peak drawdown if and only if it is the greatest fall between any two moments in order |
| Metrics.PeakIsDeepestExactlyWhen | src/bot/backtest/metrics.py:105-108 | The running peak gives the deepest proportional fall at a point if and only if the point is not negative or no lower positive level came before |
| Metrics.ShareIsDeepestFall | src/bot/backtest/metrics.py:95-110 | On a curve that is never negative the reported share is the deepest proportional fall |
| Metrics.DrawdownCurveTop | src/bot/backtest/metrics.py:182-190 | The plotted curve peaks at the reported share |
| Metrics.ConsecutiveStreaks | src/bot/backtest/metrics.py:157-172 | The loop returns the lengths of the longest runs of wins and of losses |
| Metrics.TotalIsEquityChangeExactlyWhen | src/bot/backtest/metrics.py:30-32 | The reported total is the change in equity if and only if the losing trades lost on balance |
| Metrics.ExpectancyIsAverage | src/bot/backtest/metrics.py:34-40 | Expectancy, built from four averages, is the average profit per trade |
| Metrics.SharpeIgnoresOrder | src/bot/backtest/metrics.py:125-139 | The Sharpe ratio only depends on which returns occurred |
| Metrics.VarianceIsSpread | src/bot/backtest/metrics.py:125-139 | n - 1 variances are the squares of the returns less n squares of the mean, and n means are their sum |
| Metrics.SharpeIsMeanOverDeviation | src/bot/backtest/metrics.py:125-139 | A ratio over a positive deviation gives the mean back and has its sign |
| Metrics.SideCounted | src/bot/backtest/metrics.py:22-28 | Wins and losses are counted over exactly the trades that ended that way |
| Metrics.SideSummed | src/bot/backtest/metrics.py:30-31 | Gross profit and loss add the profits of exactly those trades |
| MonteCarlo.Replay | src/bot/backtest/monte_carlo.py:110-130 | The online loop ends on the curve's end, its worst fall and the returns in shuffled order |
| MonteCarlo.EquityIgnoresOrder | src/bot/backtest/monte_carlo.py:110-130 | Every shuffle ends on the same equity |
| MonteCarlo.ShuffleDrawdownBounds | src/bot/backtest/monte_carlo.py:110-132 | In every shuffle the drawdown is at least the net loss and at most the sum of all losses |
| MonteCarlo.WorstOrderIsReached | src/bot/backtest/monte_carlo.py:110-132 | Playing all losers first is a shuffle that loses exactly the sum of all losses |
| MonteCarlo.Run | src/bot/backtest/monte_carlo.py:47-161 | Whatever the shuffles: equity and Sharpe percentiles coincide with the plain values, both probabilities are 0 or 1, and the median and 95th percentile of the drawdowns are those, by counting, of the shuffled curves' worst falls, so the first never exceeds the second |
| MonteCarlo.ReturnsAgreeExactlyWhen | src/bot/backtest/monte_carlo.py:92-98 | The analysis takes the same per-trade returns as the metrics if and only if every trade tied something up or made nothing |
| MonteCarlo.ReturnTold | src/bot/backtest/monte_carlo.py:92-98 | A return times what the trade tied up is its profit; of a trade that tied nothing up it is the profit itself here and zero in the metrics |
| MonteCarlo.SharpeIsTheBacktests | src/bot/backtest/monte_carlo.py:155-157 | If every trade tied something up, each reported Sharpe figure is the backtest's own |
| Sorting.SortedUnique | src/bot/backtest/monte_carlo.py:147-157 | There is one sorted arrangement of given values |
| Sorting.PercentileBounds | src/bot/backtest/monte_carlo.py:147-157 | A percentile lies within any bounds of the values |
| Sorting.PercentileExactlyWhen | src/bot/backtest/monte_carlo.py:147-157 | A number is the q-th percentile if and only if it lies the right part of the way between two neighbouring ranks, a rank being told by how many values lie below and above |
| Sorting.PercentileMonotone | src/bot/backtest/monte_carlo.py:147-157 | A larger q never gives a smaller percentile |
| Indicators.RsiOfPrefix | src/bot/backtest/data_provider.py:175-190 | Histories that agree through bar i have the same index there |
| Indicators.BandOfPrefix | src/bot/backtest/data_provider.py:152-172 | Histories that agree through bar i have the same band there |
| Indicators.RsiBounds | src/bot/feeds/rsi_feed.py:53-70 | Live and backtest index are between 0 and 100 after rounding |
| Indicators.StrengthIsShare | src/bot/feeds/rsi_feed.py:66-70 | The index is the rises' share of all movement |
| Indicators.LevelsAgreeExactlyWhen | src/bot/backtest/data_provider.py:181-187 | Live and backtest index agree before rounding if and only if the window has both a rise and a fall |
| Indicators.LiveRsiTold | src/bot/feeds/rsi_feed.py:53-70 | Before rounding the live index departs from 50 as the net change does from the way gone over the window |
| Indicators.RsiFollowsPrice | src/bot/feeds/rsi_feed.py:53-70 | It is not below 50 if the price has not fallen over the window, and not above if it has |
| Indicators.GenerateRsi | src/bot/backtest/data_provider.py:175-190 | Each element from the period on is the rises' share of the movement in its window, a missing side counting as a tiny one; the earlier ones are empty |
| Indicators.GenerateBollinger | src/bot/backtest/data_provider.py:152-172 | Each element is the mean of its window and that many deviations to either side, to the cent; the first ones are empty |
| Indicators.BandOrdered | src/bot/backtest/data_provider.py:165-171 | Lower, middle and upper band keep their order after rounding |
| Indicators.RsiFeed.GetRsi | src/bot/feeds/rsi_feed.py:53-70 | There is an answer if and only if more closes than the period are kept, and it is told by the net change and the way gone over the last of the 30 closes kept of everything ever fed |
| Backtest.ReplaySnapshots | src/bot/backtest/engine.py:344-462 | Every trade is the strategy's signal on its bar, wins if and only if the next price lies on the signalled side, and records entry, bet, profit and bankroll as the ask, the costs and the trades before it tell; every bar without a trade was skipped, unaffordable or refused |
| Backtest.BeforeIsTold | src/bot/backtest/engine.py:370-462 | The same after any number of bars, with what the engine carries from bar to bar: the bankroll and the last fifty outcomes |
| Backtest.BetIsStaked | src/bot/backtest/engine.py:113-165 | The bet: three hundredths of the bankroll and not below ten cents, or the win rate's edge within one and ten hundredths, to four places and never more than the bankroll |
| Backtest.RisingHistoryAlwaysWins | src/bot/backtest/engine.py:167-188 | Where prices only rise, a strategy that never bets on NO wins every trade |
| Backtest.NoLookAhead | src/bot/backtest/engine.py:367-462 | Histories that agree through bar i give the same state, signal, entry and bet there, indicator series included |
| Backtest.PrefixReplaysPrefix | src/bot/backtest/engine.py:367-462 | Replaying a prefix of the history yields a prefix of the trades |
| Backtest.BankrollExplainedExactlyWhen | src/bot/backtest/engine.py:430-439 | Once there is a trade, bankroll equals start plus profits if and only if the start is a whole number of millionths |
| Backtest.EquityCurveEndsAtBankroll | src/bot/backtest/engine.py:555-580 | Under that condition the reported equity curve ends on the engine's bankroll |
| Backtest.ReplayFloorAlways | src/bot/backtest/engine.py:391-439 | For every gas price and start that are not negative no replay takes the bankroll more than a millionth below minus one gas fee |
| Backtest.FloorHoldsExactlyWhen | src/bot/backtest/engine.py:391-439 | For a gas price: no replay of any history, strategy and configuration with a start in whole millionths goes below minus one gas fee, if and only if the price rounds down to a millionth |
| Backtest.FloorFromAnyStartExactlyWhen | src/bot/backtest/engine.py:391-439 | The same from any start that is not negative, if and only if the price is a whole, even number of millionths |
| Backtest.TradeFloor | src/bot/backtest/engine.py:410-435 | One trade on a start in whole millionths keeps the floor if and only if the bankroll was not negative or the trade lost, for every price that rounds down |
| Backtest.RuinIsFinal | src/bot/backtest/engine.py:391-394 | Below one hundredth of the start no trade is ever made again |
| Backtest.BetSign | src/bot/backtest/engine.py:410-425 | A bankroll that is not negative bets between nothing and all of it; a negative one always bets exactly itself |
| Backtest.SimulateFromDbRecords | src/bot/backtest/engine.py:464-553 | One trade per record with the record's side and outcome, and entry, bet, profit and bankroll as the costs and the trades before it tell |
| Backtest.RepriceFloorExactlyWhen | src/bot/backtest/engine.py:485-515 | With a start in whole millionths and a gas price that rounds down, re-pricing keeps the floor at a trade if and only if the account was not negative before it or the trade lost |
| Backtest.RepriceFloorPrices | src/bot/backtest/engine.py:485-515 | The gas prices for which that holds of all re-pricings from starts in whole millionths are exactly those that round down |
| Backtest.RepriceFloorAlways | src/bot/backtest/engine.py:485-515 | For every gas price and start: the same cases keep the floor to within a millionth, and a win of a negative account always breaks it |
| Backtest.RepriceBreaksFloor | src/bot/backtest/engine.py:485-515 | A loss to the last cent followed by a win takes the re-priced account below the floor |
| Rounding.RoundsToNearest | src/bot/backtest/engine.py:222-225 | Rounding to a whole number takes the nearest one, and the even one half way; no other number does |
| Consensus.MajorityHoldsMedian | src/bot/feeds/exchange_manager.py:115-124 | If more than half of the prices lie in a band, so does the median |
| Consensus.MedianExactlyWhen | src/bot/feeds/exchange_manager.py:115-124 | A number is the median if and only if it lies half way between the two values with as many below the one as above the other |
| Consensus.HalfDoesNotHoldMedian | src/bot/feeds/exchange_manager.py:115-124 | Exactly half is not enough: the others can drag the median out |
| Consensus.AtMostHalfFlagged | src/bot/feeds/exchange_manager.py:133-160 | From one deviation up the detector flags at most half of the ticks, rounded down |
| Consensus.HalfStandExactlyWhen | src/bot/feeds/exchange_manager.py:133-160 | It does so for all ticks if and only if sigma times 1.4826 is at least one |
| Consensus.TypicalNeverFlagged | src/bot/feeds/exchange_manager.py:145-160 | A flagged tick is further from the median than the typical deviation, which is then positive |
| Consensus.OutliersIgnoreOrder | src/bot/feeds/exchange_manager.py:133-160 | Another adapter order flags the same ticks |
| Consensus.AgreementHidesOutliers | src/bot/feeds/exchange_manager.py:145-160 | If most exchanges quote exactly one price nobody is flagged, however far off the rest are; the two rows below give the converse |
| Consensus.MadZeroExactlyWhen | src/bot/feeds/exchange_manager.py:145-153 | The typical deviation is zero if and only if more than half of the prices are one and the same |
| Consensus.UnflaggedExactlyWhen | src/bot/feeds/exchange_manager.py:145-160 | A tick past the threshold goes unflagged if and only if more than half of the prices are one and the same |
| Consensus.ExchangeManager.AddAdapter | src/bot/feeds/exchange_manager.py:60-70 | The primary is the first primary ever added; a second one is refused, yet has joined the list by then |
| Consensus.ExchangeManager.GetAllTicks | src/bot/feeds/exchange_manager.py:105-113 | Exactly the ticks of the adapters that answered with a positive price, in adapter order |
| Consensus.ExchangeManager.GetMedianPrice | src/bot/feeds/exchange_manager.py:115-124 | A price exists if and only if some tick is usable; it is the median by counting, positive, and lies in every band that holds a majority |
| Consensus.ExchangeManager.DetectOutliers | src/bot/feeds/exchange_manager.py:133-160 | Of two usable ticks or more, those further from the median than sigma typical deviations, both told by counting; at most half of them from one deviation up |
| Adx.MovesWithinRange | src/bot/strategies/regime.py:113-135 | A bar moves one way only, and no further than its true range |
| Adx.WilderSmooth | src/bot/strategies/regime.py:165-177 | The array the loop fills is the recurrence, and short data is returned as it is |
| Adx.SmoothKeepsOrder | src/bot/strategies/regime.py:165-177 | Two series that together stay under a third do so after smoothing |
| Adx.SmoothKeepsBounds | src/bot/strategies/regime.py:165-177 | Smoothing stays within any bounds of the data |
| Adx.DirectionsWithinHundred | src/bot/strategies/regime.py:137-152 | The directional indicators are not negative and share at most 100 |
| Adx.IndexBounds | src/bot/strategies/regime.py:100-162 | The index is between 0 and 100 for every price array and period |
| Adx.SteadyRiseIsHundred | src/bot/strategies/regime.py:100-162 | Prices that rise at every step score exactly 100 as soon as there is data |
| Adx.BlindToDirection | src/bot/strategies/regime.py:100-162 | Mirrored prices have the same index |
| Adx.ComputeAdx | src/bot/strategies/regime.py:100-162 | The array computation returns the index the closes tell: Wilder averages of how far each close goes past the two before it and of the changes, their relative difference, and its average; both early exits included |
| Adx.SmoothedIsWilder | src/bot/strategies/regime.py:165-177 | The smoothing is Wilder's: the average of the first period, then one part in the period towards each next value |
| Adx.IndexIsTold | src/bot/strategies/regime.py:100-162 | The index in terms of the closes alone |
| TokenBuckets.BurstBound | src/bot/dashboard/security.py:32-40 | Between any two calls at most a full bucket plus what accrued meanwhile is let through |
| TokenBuckets.BurstReached | src/bot/dashboard/security.py:32-40 | A burst at one instant gets exactly the whole tokens in the bucket |
| TokenBuckets.PatientNeverRefusedExactlyWhen | src/bot/dashboard/security.py:26-40 | A caller who waits one token's time between calls is never refused if and only if a bucket can hold one token |
| TokenBuckets.TokenBucket.Allow | src/bot/dashboard/security.py:32-40 | The in-place update is the specified one, along the whole history of calls |
| SlidingLog.AppendThinExactlyWhen | src/bot/notifications/telegram.py:61-69 | One more send keeps every limit + 1 sends over a minute apart if and only if fewer than the limit lie in the last minute |
| SlidingLog.WindowHoldsAtMost | src/bot/notifications/telegram.py:61-69 | Then no minute ever holds more than the limit |
| SlidingLog.TelegramNotifier.Send | src/bot/notifications/telegram.py:53-89 | Let through if and only if enabled and fewer than the limit of all sends lie in the last minute; a refusal means exactly the limit do |
| Recency.Trim | src/bot/feeds/binance_ws.py:213-215 | Trimming from the front leaves exactly the recent entries of the full history |
| FeedWindows.AssetFeed.HandleAggTrade | src/bot/feeds/binance_ws.py:217-239 | While trades arrive in time order: the volume of the last two minutes of the whole history, a buy adding its dollars and a sell taking them off, the oldest price in that span, and the move since |
| FeedWindows.NetVolumeOf | src/bot/feeds/binance_ws.py:217-239 | One more trade moves the net volume by its dollars, up for a buyer and down for a seller, unless it is too old |
| FeedWindows.OneSidedVolume | src/bot/feeds/binance_ws.py:217-239 | Buyers alone give a positive volume, sellers alone a negative one |
| FeedWindows.AssetFeed.HandleForceOrder | src/bot/feeds/binance_ws.py:257-273 | While liquidations arrive in time order: the dollars of each side over the last two minutes of the whole history |
| FeedWindows.LiquidatedOf | src/bot/feeds/binance_ws.py:257-273 | One more liquidation adds its dollars to its own side and to no other, unless it is too old |
| FeedWindows.TradeFigures | src/bot/feeds/binance_ws.py:217-239 | Sums and oldest price of the two windows, told from the full history |
| Broker.SentFaithful | src/bot/dashboard/ws_broker.py:146-166 | Queueing, full queue or not, keeps the queue a suffix of what was sent and read + queued + dropped equal to sent |
| Broker.TookFaithful | src/bot/dashboard/ws_broker.py:172-183 | Reading takes the oldest queued message and keeps the same account |
| Broker.LosslessExactlyWhen | src/bot/dashboard/ws_broker.py:127-196 | Read and queued together are all that was sent, in order, if and only if nothing was dropped |
| Broker.WSBroker.AddClient | src/bot/dashboard/ws_broker.py:73-80 | A client that registers again starts over on all channels |
| Broker.WSBroker.RemoveClient | src/bot/dashboard/ws_broker.py:82-87 | The client's channels, queue and history are gone, everyone else's untouched; an unknown client changes nothing |
| Broker.WSBroker.Subscribe | src/bot/dashboard/ws_broker.py:100-107 | Only known channels are added, and they are what is returned |
| Broker.WSBroker.Unsubscribe | src/bot/dashboard/ws_broker.py:109-116 | Only known channels are removed, and they are what is returned |
| Broker.WSBroker.Publish | src/bot/dashboard/ws_broker.py:127-166 | Every subscriber and nobody else gets the message; the result is their number; an unknown channel changes nothing |
| Broker.WSBroker.GetMessage | src/bot/dashboard/ws_broker.py:172-183 | The oldest queued message, or none if and only if there is none |
| Broker.WSBroker.Drain | src/bot/dashboard/ws_broker.py:185-196 | Exactly the queue, in order, and the read record grows by it |
| Broker.WSBroker.GetSnapshot | src/bot/dashboard/ws_broker.py:202-204 | Exactly the last message of every channel published on, one each |
| Candles.CandleBuilder.Update | src/bot/strategies/multi_tf.py:71-88 | The closes are the last maxlen closes of the whole tick history |
| Candles.NoCandleLostExactlyWhen | src/bot/strategies/multi_tf.py:71-88 | The closes are the last prices of all completed runs if and only if no run in bucket 0 was ever completed |
| Candles.ClosesAre | src/bot/strategies/multi_tf.py:71-88 | The closes are, in order, the prices of exactly the ticks followed by one in another bucket, bucket 0 excepted |
| Candles.BucketHolds | src/bot/strategies/multi_tf.py:71-73 | A bucket starts a whole number of intervals from 0 and holds its moment |
| Candles.Ema | src/bot/strategies/multi_tf.py:30-43 | The list the loop builds is the recurrence |
| Candles.EmaRule | src/bot/strategies/multi_tf.py:30-43 | period + 1 averages are two new values and period - 1 averages before it, from the first value on |
| Candles.EmaBounds | src/bot/strategies/multi_tf.py:30-43 | The average stays within any bounds of the values so far |
| Candles.TrendIsLastAgainstAverage | src/bot/strategies/multi_tf.py:125-136 | The trend is up, or down, if and only if the newest close is at least three thresholds above, or below, the average before it |
| Candles.OneWayTicksNeverOpposed | src/bot/strategies/multi_tf.py:71-183 | Prices that never fall are never a down trend and always confirm BUY_YES, whatever the timing of the ticks; and the mirror image |
| Candles.AssetTrend.Update | src/bot/strategies/multi_tf.py:139-145 | Both builders see the same ticks; a price that is not positive is none |
| Candles.AssetTrend.GetTrend | src/bot/strategies/multi_tf.py:147-159 | The trend of everything ever fed, at either resolution |
| Candles.AssetTrend.IsConfirmed | src/bot/strategies/multi_tf.py:161-183 | The verdict on everything ever fed, with the one-way guarantees |

## Left out

- HTTP, WebSocket and exchange clients, market lookup, the VPN probe and message delivery: their answers are parameters.
- SQL text, schema, commits, the PostgreSQL twin and recovery after a crash: tables are sequences and maps.
- Floating-point rounding: arithmetic is over reals, with the roundings the code asks for written out.
- Random generation: snapshots and shuffles are arbitrary inputs.
- Reports, dashboard routes, metrics export, logging, risk-event and price-history tables.
- Runtime parameter updates and manual overrides: the configuration is fixed for a run.
- Strategy thresholds, regime selection, composite scores, walk-forward splits: a strategy is a function of the current bar and its indicators.
- The Sortino ratio, profit factor and recovery factor: expressions without a law of their own.
- Live Bollinger bands: the same shape as the backtest's with another divisor.
- The reason text and resolution columns of a dead letter, the indicator columns of a trade, and the confidence and time of a simulated one (its bar stands for the time).
- Protocol.Step: each storage call and each risk check is one step, so a check reads the tables at one moment; within a call the statements interleave in Interleaving, Statements and Losses.
- Protocol.PriceOrder: reads the open trades, the rolling statistics, the market and the price at one moment, where the code awaits between them.
- Execution.Executor.Execute: one clock value serves a whole order, where the code reads the time again after each await.
- Guarantees.HealthyForever: takes storage calls whole; Statements.AfloatForever, Clashes.BooksSafeExactlyWhen and EveryStatement say what is left without that.
- Guarantees.ScheduleConserves: assumes that the schedule's calls are those of a run, in its order; Clashes.ClashFreeConserves does not.
- Statements.Drive: one bot per pair and one resolver, as main starts them; risk checks and pricing are single moves there too.
- Interleaving.SerialEquivalence: is stated for schedules stopped when no call is half done, and takes a void as done when its dead letter is written.
- Risk.RiskManager.CheckCircuitBreaker: reads the clock once, where the code may read it again when it starts a cooldown.
- Settlement.InferResolution: prices that cannot be parsed arrive as missing.
- Windows.KeysMatchMarketWindows: an asset outside the three traded ones has no market window in the code; here it has the tracker's five minutes.
- Candles.AssetTrend and FeedWindows.AssetFeed: one object per asset stands for the dictionaries keyed by asset.
- Broker.WSBroker.GetMessage: a wait is modelled by its outcome, a message or a timeout.
- Broker.WSBroker.Drain: takes the queue through a local variable and stores it back once, which no other coroutine can tell apart.
- Adx.ComputeAdx: the series between the two smoothings are arrays built element by element where the code uses whole-array expressions.
