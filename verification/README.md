# Verified model of the FEDR decision and accounting engine

FEDR looks for arbitrage between exchanges, decision by decision: it sizes a trade, prices both legs, subtracts every
cost it knows, asks a stack of guards, and keeps books on what happened. This project models that engine in Dafny and
proves what its parts promise each other. Money is exact (`real`); every guard, limit, state change and constant
follows the Python code.

`dafny verify dfyconfig.toml` checks everything.

## How it is organised

| files | what they hold |
|---|---|
| `Walking`, `Slippage`, `LargestSize`, `Stress`, `QuoteWalks`, `OrderBook` | Order books: greedy walks by base and by quote, consumption in place, stressed books, the size within a slippage limit. `OrderBook` is the mutable class; the others are the laws of the functions it is proved against. |
| `ProfitGuard`, `ProfitTheorems`, `NetProfit`, `CostMonotone`, `FreeLoan`, `Pools`, `Accounting` | The twenty-component cost sheets, the profit rule, the same profit as one formula, how the rule answers to costs, the constant-product pool whose quotes it judges, and realised results. |
| `SlippageGuard`, `GasGuard`, `Experience`, `RiskEngine`, `Sizing`, `Opportunities`, `Approval`, `CheaperMarket`, `FrictionlessTrade` | The other guards, learning, sizing, one evaluation through all of them, what an approval says, what an evaluation makes of two markets of which one is dearer, and what it reduces to without costs. |
| `LiveGating` | Settings, the two live activations and restarts. |
| `Breakers`, `EmergencyStop`, `RollingWindows`, `HealthTracker` | Safety state that has to agree with its stored copy or with a full log. |
| `Inventory`, `Ledger`, `CarryPosition`, `PositionManager`, `FlashLoan` | Reservations, paper balances, carry positions and flash-loan settlement. |
| `Money`, `Logs`, `Settings`, `Wrappers` | Decimal helpers, capped logs, the settings the rules read, `Option` and `Result`. |

Objects that Python updates in place are classes here, and their loops are loops; each method is proved against a pure
function of the old state, and the laws are lemmas about those functions. Clocks, random ids, venue answers, database
rows and the answers of a market at a given size are parameters.

What the code does not enforce is a `requires`: positive book prices, non-negative fees, stress and worst-case
multipliers of at least 1, slippage tiers that tighten with size, a clock that does not run backwards.

## Where the code and its descriptions differ

The model follows the code in each case, and the named lemma gives the exact condition or the case in point.

- The search for the size within a slippage limit returns whole levels only, not the largest size
  (`LargestSize.MaxSizeIsLargestIff`, `LargestSize.MaxSizeNotLargest`).
- The identity "gross minus attributed costs equals executable net" is exact for adverse quotes paid once; price
  improvement makes the left side smaller (`ProfitTheorems.ExecutionIdentity`).
- The conservative gas fallback adds a reason, so a trade that uses it is always blocked
  (`CostMonotone.UnknownCostsBlock`).
- A dearer DEX fee can improve the worst case (`CostMonotone.DexFeeRaisesWorstCaseIff`,
  `CostMonotone.DearerPoolLooksBetter`), and a loan that becomes free is blocked by its ROI of 0
  (`CostMonotone.FreeGasLocks`, `FreeLoans.ApprovedLoanLocks`).
- Fee variance counts a DEX swap fee the fills already contain (`Accounting.PlainDecompositionIff`).
- The priority fee is charged twice on every chain: the estimate contains it already, on EVM chains because the gas price
  is base fee plus priority (`GasGuards.PriorityChargedOnceIff`, `GasGuards.MergedPriorityOnceIff`).
- A note that a size was capped blocks a scanned trade (`Opportunities.EvaluateScanned`), while on a flash-loan ladder it
  is only listed (`Opportunities.EvaluateLadder`).
- The small live test needs a selected route, and no operation selects one (`LiveGating.SmallTestApprovesNothing`; with a
  route it can approve, `FrictionlessTrade.SmallTestCanApprove`).
- A breaker on the selling chain is not looked up where the purchase is on another chain
  (`Opportunities.SellingChainIgnoredIff`).
- Breakers scoped `strategy:carry` block nothing (`Opportunities.CarryBreakerChangesNothing`).
- A closing attempt that fills a part and neither leg to 99.9% leaves the position open at its full size, so the next one
  can sell and buy back more than the position (`CarryPositions.NextOrderSafeIff`, `PositionManagers.OvertradesNextIff`,
  `PositionManagers.TradesTwice`).
- The paper ledger keeps one collateral bucket for all shorts of a venue, and any buy-back empties it: a gain is right only
  for a short that was alone in it and is bought back whole (`Ledgers.ShortRoundTripIff`, `Ledgers.SharedCollateral`,
  `Ledgers.PartialBuyBack`; what a close then books against what it earned, `PositionManagers.BookedIsEarnedIff`).
- An exception from submitting a closing order keeps the reservation and leaves the position closing
  (`PositionManagers.PositionManager.TryClose`).
- Flash loans are always settled at 0.05%, although the guard knows cheaper providers (`FlashLoans.LoanFeesAgreeIff`).
- A failed fill costs a route a buffer that shrinks by a fifth per filled trade and never reaches 0
  (`Experience.FailureLeavesPenalty`).
- A venue that goes from degraded to down lowers the risk score, though the trade is then refused
  (`RiskEngines.WorseVenueScoresLessIff`).

Two limits of an interface that no present caller runs into:

- A count over a long window can miss what a shorter one pruned (`RollingWindows.MixedWindowsSafeIff`). Every counter is
  used with one window: `backend/fedr/engine/execution/executor.py:203`, `:286` and `:380`, `backend/fedr/app.py:569` and
  `:624`.
- A request that names one asset of one venue twice can over-commit it (`Inventories.GrantKeepsCommittedIff`). The requests
  at `backend/fedr/engine/execution/executor.py:307` and `backend/fedr/engine/positions.py:288` name each venue and asset
  once; a perpetual route asks for the quote asset twice, on two venues (`backend/fedr/engine/execution/executor.py:134`).

## Model

| member | source | states |
|---|---|---|
| Money.FloorToStepBelow | backend/fedr/core/money.py:58-62 | Rounding a size down to the exchange step never enlarges it and loses less than one step; a step of 0 or less loses nothing. |
| Money.FloorToStepGrid | backend/fedr/core/money.py:58-62 | The rounded size is a whole number k of steps with k*step <= value < (k+1)*step. |
| Money.FloorToStepLargest | backend/fedr/core/money.py:58-62 | No larger whole number of steps is at most the value. |
| Walking.TakenFills | backend/fedr/marketdata/orderbook.py:113-156 | A walk fills the request or the whole depth, whichever is smaller. |
| Walking.TakenAll | backend/fedr/marketdata/orderbook.py:113-156 | A request of at least the depth takes every level at its own price. |
| Walking.TakenLevels | backend/fedr/marketdata/orderbook.py:113-156 | The levels a walk touches are the shortest prefix of the book deep enough for the request. |
| Walking.GreedyIsOptimal | backend/fedr/marketdata/orderbook.py:113-156 | Among all ways to take the same base from the levels, the greedy walk pays least on BUY and receives most on SELL. |
| Walking.GreedyIsAllocation | backend/fedr/marketdata/orderbook.py:113-156 | The walk is itself one of those ways, so the bound is met. |
| Walking.TakenComposes | backend/fedr/marketdata/orderbook.py:113-156 | Walking x+y takes and pays what walking x and then, on the consumed book, y does. |
| Walking.ConsumedComposes | backend/fedr/marketdata/orderbook.py:237-248 | Consuming x and then y leaves the same book as consuming x+y. |
| Walking.ConsumedBook | backend/fedr/marketdata/orderbook.py:237-248 | Consuming keeps the book sorted and positive and removes exactly min(x, depth). |
| Walking.ConsumedSuffix | backend/fedr/marketdata/orderbook.py:237-248 | What is left are the last levels of the book at unchanged prices, with positive amounts. |
| Slippage.VwapMonotone | backend/fedr/marketdata/orderbook.py:113-156 | The average price of a longer walk is never better, across levels and inside them, on both sides. |
| Slippage.SlipMonotone | backend/fedr/marketdata/orderbook.py:113-156 | Slippage never falls as the walk grows. |
| Slippage.SlipNonNeg | backend/fedr/marketdata/orderbook.py:113-156 | On a sorted book slippage is never negative, and is 0 inside the first level. |
| Slippage.WalkReports | backend/fedr/marketdata/orderbook.py:113-156 | Within the depth a walk fills completely and reports the true average price and slippage. |
| Slippage.MaxSizeIsSafe | backend/fedr/marketdata/orderbook.py:199-219 | Every size up to the result fills completely and stays within the slippage limit. |
| Slippage.MaxSizeStopsRight | backend/fedr/marketdata/orderbook.py:199-219 | The early stop is complete: every whole-level prefix within the result qualifies and no longer one does. |
| LargestSize.MaxSizeIsLargestIff | backend/fedr/marketdata/orderbook.py:199-219 | The result is the largest size within the limit, as documented, if and only if the limit is negative, the whole book is within it, or some whole-level prefix meets it exactly. |
| LargestSize.MaxSizeNotLargest | backend/fedr/marketdata/orderbook.py:199-219 | A two-level book where a larger size than the result is within the limit. |
| LargestSize.RoomInNextLevel | backend/fedr/marketdata/orderbook.py:199-219 | While the limit is not met exactly, a size strictly inside the next level averages exactly the limit. |
| LargestSize.ExactLimitIsLargest | backend/fedr/marketdata/orderbook.py:199-219 | Once the limit is met exactly, anything more of a worse level breaks it. |
| Stress.ThinnedBook | backend/fedr/marketdata/orderbook.py:221-235 | A stressed book stays sorted and positive, with the same prices. |
| Stress.ThinnedTaken | backend/fedr/marketdata/orderbook.py:221-235 | Walking a stressed book at x is walking the original at m*x, scaled back by m. |
| Stress.StressNeverHelps | backend/fedr/marketdata/orderbook.py:221-235 | With a multiplier of at least 1, stress never lowers slippage. |
| Stress.ThinnedFills | backend/fedr/marketdata/orderbook.py:221-235 | A stressed walk fills no more than the original one, and both average what their filled amounts cost. |
| QuoteWalks.SpentIsMin | backend/fedr/marketdata/orderbook.py:158-197 | A quote walk spends the smaller of the amount and the value of the book. |
| QuoteWalks.WalkAfterQuote | backend/fedr/marketdata/orderbook.py:158-197 | Walking the base a quote walk bought trades the same base and quote over the same levels. |
| QuoteWalks.QuoteAfterWalk | backend/fedr/marketdata/orderbook.py:158-197 | Spending what a walk paid trades the same base and quote over the same levels. |
| QuoteWalks.QuoteWalkThenWalk | backend/fedr/marketdata/orderbook.py:113-197 | As reported results: same quote, base, levels, average and last price after a quote walk and a walk back. |
| QuoteWalks.WalkThenQuoteWalk | backend/fedr/marketdata/orderbook.py:113-197 | As reported results: a quote walk of what a walk paid returns min(x, depth). |
| QuoteWalks.WalkReport | backend/fedr/marketdata/orderbook.py:113-156 | A whole report: how much fills, full exactly when the book is not empty and deep enough, average and slippage by their products with amount and top price (0 where nothing filled), the first and the last price, the depth. |
| QuoteWalks.QuoteWalkReport | backend/fedr/marketdata/orderbook.py:158-197 | The same for a quote walk: what it spends, and full exactly when the side is worth the request. |
| OrderBooks.SortedLevelsKeep | backend/fedr/marketdata/orderbook.py:51-74 | Normalising raw levels sorts them best first and keeps, price by price, exactly the displayed levels. |
| OrderBooks.SortedLevelsPositive | backend/fedr/marketdata/orderbook.py:51-74 | Every displayed level has a positive amount. |
| OrderBooks.DisplayedAsOften | backend/fedr/marketdata/orderbook.py:51-74 | A level with a positive amount is displayed as often as it was sent, any other never. |
| OrderBooks.DisplayedAre | backend/fedr/marketdata/orderbook.py:51-74 | In the order they were sent: what is displayed of two lists is what is displayed of each. |
| OrderBooks.OrderBook.FromRaw | backend/fedr/marketdata/orderbook.py:51-74 | Both sides of a book from raw data are the normalised levels; the book is valid. |
| OrderBooks.OrderBook.Walk | backend/fedr/marketdata/orderbook.py:113-156 | The loop computes exactly the walk of its side; the book is unchanged. |
| OrderBooks.OrderBook.WalkQuote | backend/fedr/marketdata/orderbook.py:158-197 | The loop computes exactly the quote walk of its side. |
| OrderBooks.OrderBook.MaxSizeWithinSlippage | backend/fedr/marketdata/orderbook.py:199-219 | The loop computes the accepted whole-level depth. |
| OrderBooks.OrderBook.ApplyStress | backend/fedr/marketdata/orderbook.py:221-235 | The stressed copy divides every amount by the multiplier and leaves the original alone. |
| OrderBooks.OrderBook.Consume | backend/fedr/marketdata/orderbook.py:237-248 | In-place consumption leaves the consumed side and does not touch the other side; validity is kept. |
| OrderBooks.ConsumeThenWalk | backend/fedr/marketdata/orderbook.py:113-156 | On a real book, consume then walk adds up to one longer walk. |
| ProfitGuards.CostBreakdown.Charge | backend/fedr/engine/profit_guard.py:283-338 | One leg is added to a sheet in the fields its side says, and nowhere else. |
| ProfitGuards.AttributeLeg | backend/fedr/engine/profit_guard.py:283-338 | One leg is charged to both sheets as the attribution defines, and reports whether its fee is unknown. |
| ProfitGuards.CheckQuotes | backend/fedr/engine/profit_guard.py:71-88 | No objection exactly when sizes agree, both legs fill and both quotes are fresh. |
| ProfitGuards.ApplyGas | backend/fedr/engine/profit_guard.py:109-125 | Gas, fallback and priority fee on both sheets; an objection or an unknown cost exactly as the gas policy says. |
| ProfitGuards.ApplyTransfers | backend/fedr/engine/profit_guard.py:127-146 | Transfer fees, funding and the repetition of execution costs for round trips. |
| ProfitGuards.ApplyAllowances | backend/fedr/engine/profit_guard.py:148-178 | Allowances and reserves, atomic or not, and the safety buffer with the learned extra. |
| ProfitGuards.ApplyFlashLoan | backend/fedr/engine/profit_guard.py:180-201 | Loan fee and MEV reserve; no objection exactly when simulation, atomicity and both loan limits hold. |
| ProfitGuards.CheckThresholds | backend/fedr/engine/profit_guard.py:209-256 | No objection exactly when net profit, worst case, ROI, gas share, profit after gas and profit to gas clear their floors. |
| ProfitGuards.FillSheets | backend/fedr/engine/profit_guard.py:97-207 | The filled sheets are the twenty expected and the twenty worst-case costs. |
| ProfitGuards.Assess | backend/fedr/engine/profit_guard.py:60-279 | All reported numbers follow the cost definitions, SAFE exactly when the whole profit rule holds, a reason for every refusal, and the zero-size answer. |
| ProfitTheorems.LegAttributionExact | backend/fedr/engine/profit_guard.py:283-338 | Swap fee, impact and slippage of a leg add up to its adverse deviation, whatever the quote claims. |
| ProfitTheorems.ExecutionIdentity | backend/fedr/engine/profit_guard.py:6-13 | Gross minus attributed costs never exceeds the executable net, and equals it exactly for adverse quotes paid once. |
| ProfitTheorems.ExecutionIdentityFails | backend/fedr/engine/profit_guard.py:102-103 | A quote better than its reference breaks the documented identity, on the safe side. |
| ProfitTheorems.WorstNeverBeatsExpected | backend/fedr/engine/profit_guard.py:100-207 | Each of the twenty worst-case costs is at least the expected one, hence worst-case profit is at most expected profit. |
| ProfitTheorems.ExecutionWorse | backend/fedr/engine/profit_guard.py:283-338 | The execution costs of the worst case are at least the expected ones, repetition and stress included. |
| NetProfits.NetIs | backend/fedr/engine/profit_guard.py:90-207 | Expected net and worst case of every case equal one formula on quotes, settings and gas, without the cost sheets: executed legs per round, lost maker discounts, chain costs, transfers, funding and what is held back. |
| NetProfits.LegsOnSheet | backend/fedr/engine/profit_guard.py:103-107 | Line by line of the expected sheet: trading fees, lost maker discounts, swap fees, impact and slippage from the shortfall of each leg, once per round. |
| NetProfits.RestOfSheet | backend/fedr/engine/profit_guard.py:109-201 | Likewise gas, priority fee, transfers, funding, allowances, reserves and buffer, each the percentage of its own setting. |
| NetProfits.WorstOfSheet | backend/fedr/engine/profit_guard.py:100-207 | Each worst-case line as its own multiple of the expected one, with stressed gas, loan tolerance and stressed funding. |
| NetProfits.BookTradeNet | backend/fedr/engine/profit_guard.py:90-207 | For two taker legs on order books, traded once: sale less fee, less purchase and fee, less the sum of buffer, learned extra, haircut and the four allowances in percent of the purchase; and its stressed counterpart. |
| NetProfits.LoanTradeNet | backend/fedr/engine/profit_guard.py:90-207 | For a loan between two pools: the executed difference less gas, priority fee, loan fee, half the stressed gas, and buffer and MEV reserve on the purchase. |
| NetProfits.CapitalIs | backend/fedr/engine/profit_guard.py:181-195 | Capital required is the executed purchase with its fees per round, and for a loan its gas; and exactly when a cost counts as unknown. |
| NetProfits.SafeIff | backend/fedr/engine/profit_guard.py:71-256 | SAFE spelled out in quotes, settings and that formula: quotes allow the trade, every fee is known, gas and loan are accepted, and all six floors are cleared. |
| CostMonotone.DearerNeverUnlocks | backend/fedr/engine/profit_guard.py:174-256 | With capital required and non-negative floors, raising fees, gas, transfers, funding or the learned buffer never turns BLOCKED into SAFE; left out are the two fee rises that can lower a cost, whose exact conditions are below. |
| CostMonotone.CheaperStaysSafeIff | backend/fedr/engine/profit_guard.py:174-256 | Of two such cases the cheaper one is SAFE with the dearer one if and only if it needs capital or no return on it is asked for. |
| CostMonotone.CostsMono | backend/fedr/engine/profit_guard.py:100-207 | Both sheets rise: fees with the maker adjustment, execution costs together, and each other component; all twenty where only a fee changed. |
| CostMonotone.CapitalMono | backend/fedr/engine/profit_guard.py:181-190 | So does the capital required. |
| CostMonotone.ThresholdsMono | backend/fedr/engine/profit_guard.py:209-256 | The floors, the ROI and the profit to gas ratio included, are monotone in profit, capital and gas. |
| CostMonotone.LearningOnlyRemoves | backend/fedr/engine/profit_guard.py:174-178 | Whatever is SAFE with a learned buffer is SAFE without it. |
| CostMonotone.UnknownCostsBlock | backend/fedr/engine/profit_guard.py:109-125 | An unknown cost or unknown gas always blocks, under the conservative fallback too. |
| CostMonotone.NoCapitalBlocks | backend/fedr/engine/profit_guard.py:181-256 | A trade that needs no capital reports a ROI of 0, so a positive ROI floor blocks it. |
| CostMonotone.FreeGasLocks | backend/fedr/engine/profit_guard.py:181-256 | Any fee-free flash loan is BLOCKED once its gas is free, whatever it was before: where monotonicity stops. |
| FreeLoans.ApprovedLoanLocks | backend/fedr/engine/profit_guard.py:181-256 | A loan between two pools that is SAFE at a gas cost of $0.12, and BLOCKED with nothing changed but free gas. |
| CostMonotone.DexFeeImprovesIff | backend/fedr/engine/profit_guard.py:298-316 | Raising the fee of any DEX leg lowers its worst-case cost if and only if fees are stressed less than slippage, the rise is real, and the old fee did not fill the deviation. |
| CostMonotone.DexFeeRaisesWorstCaseIff | backend/fedr/engine/profit_guard.py:298-316 | The worst-case profit of a purchase from a pool rises with the fee of the pool under exactly that condition. |
| CostMonotone.DearerPoolLooksBetter | backend/fedr/config/schema.py:62-63 | With the shipped multipliers 1.25 and 2.0 a pool at 0.5% looks better than one at 0.3%. |
| CostMonotone.MakerFeeFallsIff | backend/fedr/engine/profit_guard.py:317-338 | Raising a maker fee towards the taker fee makes its leg cheaper if and only if it is a sale below its reference, or the quote names the fee itself. |
| Pools.BuyKeepsProduct | backend/fedr/sim/synthetic.py:119-154 | A purchase preserves the product of the reserves on net input. |
| Pools.SellKeepsProduct | backend/fedr/sim/synthetic.py:119-154 | So does a sale. |
| Pools.RoundTripLoses | backend/fedr/sim/synthetic.py:119-154 | Buying any amount and selling it back always loses. |
| Pools.BuyQuoted | backend/fedr/sim/synthetic.py:119-154 | The purchase price is the spot price raised by impact and fee, and the reported impact is the true one. |
| Pools.SellQuoted | backend/fedr/sim/synthetic.py:119-154 | The sale price is the spot price lowered by impact and fee, and the reported impact is the true one. |
| Pools.PoolBuyAttribution | backend/fedr/engine/profit_guard.py:296-310 | On a pool purchase the guard attributes the full fee and full impact, and the residual is ref*f(f+i)/(1-f). |
| Pools.PoolSellAttribution | backend/fedr/engine/profit_guard.py:296-310 | On a pool sale fee and capped impact explain the deviation and the residual is 0. |
| Pools.RefusedIff | backend/fedr/sim/synthetic.py:119-154 | A purchase is refused if and only if it is worth a quarter of the liquidity or more at spot; a sale never is. |
| Pools.LegOfPool | backend/fedr/sim/synthetic.py:119-154 | What the guard is told of a pool leg; the impact of a purchase from liquidity and spot alone. |
| Accounting.ComputeOutcome | backend/fedr/engine/accounting.py:35-76 | The computed outcome field by field, and the failure on a record without events. |
| Accounting.ApplyOutcome | backend/fedr/engine/accounting.py:79-86 | Figures are written to the record; final states keep their status, others become filled exactly when nothing is unmatched. |
| Accounting.PredictionErrorDecomposes | backend/fedr/engine/accounting.py:35-76 | For any fully filled two-leg trade the prediction error is the three variances minus all reserves, plus the twice-counted swap fee, minus the ignored price improvement. |
| Accounting.PlainDecompositionIff | backend/fedr/engine/accounting.py:35-76 | The plain decomposition holds if and only if those two corrections cancel. |
| Accounting.BookTradeDecomposes | backend/fedr/engine/accounting.py:35-76 | For a taker trade between two order books on adverse quotes the error is the variances minus allowances and buffer. |
| Accounting.SafeTradeRealisesMinimum | backend/fedr/engine/accounting.py:35-76 | A SAFE trade whose variances stay within what was held back realises at least the required minimum. |
| Accounting.HedgeNeutralisesIff | backend/fedr/engine/accounting.py:35-76 | A hedge leaves nothing unmatched exactly when it trades the imbalance. |
| Accounting.NetIsReceived | backend/fedr/engine/accounting.py:35-76 | The net of any trade, hedged or not, is what each leg received by its own side less fees and all gas; every variance against the estimate by subtraction. |
| Accounting.FeesAddUp | backend/fedr/engine/accounting.py:46-60 | The fees of an outcome are those of all legs at the rate of the trade; no funding is booked. |
| Accounting.HedgedSale | backend/fedr/engine/accounting.py:35-76 | A hedge that sells the rest of a purchase leaves nothing unmatched, matches all of it, and adds its value less its fee and gas. |
| Accounting.MatchedAndUnmatched | backend/fedr/engine/accounting.py:35-76 | Without a hedge, matched and unmatched base make up the larger leg. |
| Accounting.MissingLeg | backend/fedr/engine/accounting.py:35-76 | Where one leg never came about, nothing is matched and all of the other is unmatched; unpriced legs have no slippage. |
| Experience.ExperienceEngine.Record | backend/fedr/engine/experience.py:63-115 | One observation updates exactly its route, and the cached statistic is that of the whole history. |
| Experience.ExperienceEngine.Update | backend/fedr/engine/experience.py:63-115 | The running averages, the fill reliability and the clamped buffer, field by field. |
| Experience.ExperienceEngine.ExtraBufferPct | backend/fedr/engine/experience.py:55-61 | From three samples on exactly the learned buffer, at most the current cap; 0 before and while learning is off. |
| Experience.ReliabilityRange | backend/fedr/engine/experience.py:63-115 | Over every history reliability is in [0,1], and 1 exactly while everything filled. |
| Experience.ErrorWithin | backend/fedr/engine/experience.py:63-115 | The error average stays within any bounds the observed errors respect. |
| Experience.BufferRange | backend/fedr/engine/experience.py:63-115 | Over every history the buffer is in [0, cap], and 0 exactly when nothing went wrong. |
| Experience.NoMissNoBuffer | backend/fedr/engine/experience.py:63-115 | A route that always fills and never does worse than estimated has no buffer. |
| Experience.FailureLeavesPenalty | backend/fedr/engine/experience.py:63-115 | The unreliability one failed fill leaves shrinks by exactly a fifth per filled trade; m trades later it still costs at least 0.02*0.8^m percent, unless the cap is lower. |
| Experience.SteadyMissIsLearned | backend/fedr/engine/experience.py:63-115 | A route that always fills and always misses by the same share of its notional learns exactly that share, up to the cap. |
| Experience.SteadyCostsAreLearned | backend/fedr/engine/experience.py:63-115 | Likewise for slippage, fees, gas and latency, each in its own average. |
| Experience.ShareOfNotional | backend/fedr/engine/experience.py:63-75 | A miss is measured in percent of the notional, and of one dollar where that is not positive. |
| GasGuards.GasBaseline.Update | backend/fedr/engine/gas_guard.py:43-51 | The baseline of the chain moves the configured share of the way to the sample, never beyond it; other chains keep theirs. |
| GasGuards.Assess | backend/fedr/engine/gas_guard.py:93-160 | Expected, stressed and priority cost, the regime, the unknown-snapshot answer, and passing exactly when every fee and cost ceiling and the regime allow it. |
| GasGuards.EstimatesSane | backend/fedr/engine/gas_guard.py:67-77 | From non-negative fees: 0 <= expected <= stress and priority >= 0. |
| GasGuards.MergedSound | backend/fedr/engine/opportunity.py:524-539 | A merged assessment stays sane, passes only if every leg does and takes the worst regime of a leg. |
| GasGuards.MergedSplits | backend/fedr/engine/opportunity.py:524-539 | Merging two groups adds their numbers, joins their reasons in order, and keeps the worse regime. |
| GasGuards.RegimeMonotone | backend/fedr/engine/gas_guard.py:79-91 | A higher gas price never lands in a calmer regime. |
| GasGuards.RegimeIff | backend/fedr/engine/gas_guard.py:79-91 | Each regime by comparing the price with its multiple of the baseline, the most severe first; NORMAL without a positive baseline. |
| GasGuards.EstimateIs | backend/fedr/engine/gas_guard.py:67-77 | Estimate and priority fee of either chain family as products of prices, units and native price, with the defaults for missing compute units. |
| GasGuards.FeesWithinIff | backend/fedr/engine/gas_guard.py:124-141 | The bid is within its ceilings exactly when no fee check of its chain family objects. |
| GasGuards.CostsWithinIff | backend/fedr/engine/gas_guard.py:142-147 | The cost ceilings hold exactly for at most the (overridden) maximum and at most its share of a positive gross; the stress check, scaled alike on both sides, refuses nothing more. |
| GasGuards.PriorityChargedOnceIff | backend/fedr/engine/profit_guard.py:114-122 | What the sheet charges for gas is the transactions of the legs plus their priority fee once more, on both chain families, so it is their cost if and only if that fee is 0. |
| GasGuards.MergedPriorityOnceIff | backend/fedr/engine/profit_guard.py:114-122 | For legs on several chains: the charge is what their transactions cost if and only if no leg pays a priority fee. |
| SlippageGuards.LimitFor | backend/fedr/engine/slippage_guard.py:16-35 | The tightest of default, asset, venue, route and tier limit. |
| SlippageGuards.TierLimitFor | backend/fedr/engine/slippage_guard.py:25-35 | The first fitting tier in threshold order; above all of them the tightest. |
| SlippageGuards.TiersTightenIff | backend/fedr/engine/slippage_guard.py:25-35 | Larger trades always get the same or a tighter tier limit if and only if the reachable tiers are non-increasing. |
| SlippageGuards.LimitShrinks | backend/fedr/engine/slippage_guard.py:16-35 | With such tiers the whole limit tightens with size. |
| SlippageGuards.TierLimitIs | backend/fedr/engine/slippage_guard.py:25-35 | In configured order and without sorting: the first of the smallest tiers that fit, the tightest above all, none without tiers. |
| SlippageGuards.LimitIsTightest | backend/fedr/engine/slippage_guard.py:16-35 | The limit is at most every limit that applies, and is one of them. |
| Sizing.PickSize | backend/fedr/engine/opportunity.py:129-192 | The least of target, depth and inventory limits rounded down; a note exactly when something capped it. |
| Sizing.ApplyCap | backend/fedr/engine/opportunity.py:156-190 | One limit applied to the running size leaves the least so far, with a note exactly when it bound. |
| Sizing.PickedBelow | backend/fedr/engine/opportunity.py:129-192 | A positive size is within the target and every limit. |
| Sizing.FitsIff | backend/fedr/engine/opportunity.py:129-188 | A size is at most the least of target and caps exactly when it is worth at most the target, each cached book is deep enough within the slippage limit, and quote, base or collateral are there. |
| Sizing.PickedOnGrid | backend/fedr/engine/opportunity.py:189-192 | The picked size is a whole number of exchange steps, and fits if it is positive. |
| Sizing.PickedIsLargest | backend/fedr/engine/opportunity.py:129-192 | No larger whole number of steps fits. |
| Sizing.UncappedIff | backend/fedr/engine/opportunity.py:143-192 | Nothing capped the size exactly when the target is positive and fits whole. |
| Sizing.SizePassesSlippageGuard | backend/fedr/engine/opportunity.py:146-160 | The picked size fills on every cached book and passes the slippage guard at its own notional. |
| Sizing.SizeFitsCapitalAndBase | backend/fedr/engine/opportunity.py:162-190 | It stays within the maximum trade size, the usable capital, and the base or collateral held. |
| Sizing.QuoteBalanceSuffices | backend/fedr/engine/opportunity.py:164-166 | The quote balance covers price and fee whenever average*(1+fee)*0.98 is at most the sizing price. |
| Sizing.AffordableCoveredIff | backend/fedr/engine/opportunity.py:164-166 | At the affordable size that condition is exact. |
| RiskEngines.Assess | backend/fedr/engine/risk_engine.py:41-219 | Passes exactly when every limit holds and the score, bounded to 0..100, is acceptable; otherwise gives reasons. |
| RiskEngines.PassesIff | backend/fedr/engine/risk_engine.py:61-218 | A trade passes exactly when small test, limits, exposures, balances, gas reserves, health, combined slippage and score allow it. |
| RiskEngines.LimitsIff | backend/fedr/engine/risk_engine.py:88-122 | Each hard limit, daily loss included, on the numbers themselves. |
| RiskEngines.ExposureIff | backend/fedr/engine/risk_engine.py:125-154 | Capital, venue, chain and asset exposure as products with the total, and what passes without any capital. |
| RiskEngines.BalancesIff | backend/fedr/engine/risk_engine.py:157-183 | Quote with fee, and base or (halved under leverage) collateral, must be known and enough; a loan needs none. |
| RiskEngines.VenuesIff | backend/fedr/engine/risk_engine.py:184-199 | Gas reserve and health of a leg: healthy, or degraded where that is allowed. |
| RiskEngines.ScoreIs | backend/fedr/engine/risk_engine.py:129-214 | The score component by component, bounded to 0..100. |
| RiskEngines.RiskierPassesIff | backend/fedr/engine/risk_engine.py:61-219 | Raising exposures, slippage, quote age, gas, loan, needs or losses, or lowering balances and venue health, never turns a refusal into a pass; the cheaper of two such trades passes with the riskier one if and only if it reaches the minimum size. |
| RiskEngines.RiskierScoresHigher | backend/fedr/engine/risk_engine.py:129-216 | The score never falls with such a rise, unless a degraded venue of the trade goes down altogether. |
| RiskEngines.WorseVenueScoresLessIff | backend/fedr/engine/risk_engine.py:190-199 | Worse health of a venue costs points exactly when a degraded venue that may be used goes down: 15 before, none after. |
| RiskEngines.CapitalConserved | backend/fedr/engine/risk_engine.py:221-236 | Usable and reserved capital add up to the total exactly when the reserves do not exceed it; the emergency reserve is taken first and the inventory share of the rest. |
| Opportunities.AssessCase | backend/fedr/engine/opportunity.py:271-407 | SAFE exactly when there was no earlier objection and profit, simulation, slippage, age, breakers, stop, pause, risk and gas regime are all clear. |
| Opportunities.EvaluateSize | backend/fedr/engine/opportunity.py:230-255 | A size below the minimum is priced at the minimum and never SAFE. |
| Opportunities.PricedSizeIs | backend/fedr/engine/opportunity.py:230-234 | The size that is priced: the given one from the minimum on, else the whole millionths of the minimum, or the size itself where that is larger. |
| Opportunities.EvaluateScanned | backend/fedr/engine/opportunity.py:227-255 | A scanned, prefunded route is SAFE exactly when nothing capped its size and everything is clear at it. |
| Opportunities.TryRung | backend/fedr/engine/opportunity.py:211-222 | One rung of the loan ladder is taken exactly when it is stronger than the best so far. |
| Opportunities.EvaluateLadder | backend/fedr/engine/opportunity.py:207-226 | The earliest strongest loan size wins, SAFE before worst-case profit; sizing notes are listed without changing the decision. |
| Opportunities.RungsAre | backend/fedr/engine/opportunity.py:195-217 | The rungs are exactly the five parts of the largest size, 2% below and rounded to a millionth, that reach the minimum and can be quoted. |
| Opportunities.LadderWinner | backend/fedr/engine/opportunity.py:218-226 | The winning rung is SAFE where any is, has the best worst case among its like, and is the earliest of equal ones. |
| Opportunities.Evaluate | backend/fedr/engine/opportunity.py:197-255 | Nothing without a price; whatever is SAFE passes every guard at the size it carries. |
| Opportunities.SizedTradePassesItsChecks | backend/fedr/engine/opportunity.py:129-192 | End to end: a picked size between two cached books fills, passes both slippage checks and the balance checks of the risk engine, within the maximum size. |
| Opportunities.HaltedIsNeverClear | backend/fedr/engine/opportunity.py:347-358 | While the emergency stop or a global breaker is on, no evaluation is SAFE. |
| Opportunities.ClearOfBreakersIff | backend/fedr/engine/opportunity.py:347-354 | SAFE exactly when SAFE without breakers and no breaker has scope "global", either venue, the strategy, the pair or the looked-up chain. |
| Opportunities.SellingChainIgnoredIff | backend/fedr/engine/opportunity.py:348-353 | A breaker on the chain of the sale leaves a SAFE trade SAFE if and only if the purchase is on another chain. |
| Approvals.ApprovalIff | backend/fedr/engine/opportunity.py:271-377 | The whole approval, with the questions put to the profit guard and the risk engine written out. |
| Approvals.ShownProfit | backend/fedr/engine/opportunity.py:322-341 | The profits an opportunity shows are those of the net formula on that question, and nothing for a size of nothing. |
| Approvals.ApprovedBookTradeEarns | backend/fedr/engine/opportunity.py:271-377 | An approved trade between two order books, executed as quoted, earns the minimum profit plus everything held back in percent of the purchase. |
| Opportunities.SmallTestBounds | backend/fedr/engine/risk_engine.py:61-85 | SAFE in the small live test means at most $25, the chosen strategy and route, and no loan. |
| Opportunities.ClearIsProfitable | backend/fedr/engine/opportunity.py:322-376 | SAFE means both profit floors are met within the size limits. |
| Opportunities.CarryScopeConcernsNothing | backend/fedr/engine/circuit_breakers.py:57-76 | A breaker scoped "strategy:carry" concerns no evaluation of any strategy. |
| Opportunities.CarryBreakerChangesNothing | backend/fedr/engine/positions.py:159-171 | So tripping it changes no decision, carry strategies included. |
| Opportunities.AnnotateAlternatives | backend/fedr/engine/opportunity.py:432-463 | Each opportunity that is not the winner of its pair and route is blocked, in place; winners are untouched. |
| Opportunities.OneSafePerRoute | backend/fedr/engine/opportunity.py:432-463 | Afterwards at most one opportunity per pair and route is SAFE, the strongest, and a route that had one keeps one. |
| Opportunities.SameRouteIff | backend/fedr/engine/opportunity.py:433-435 | Two opportunities compete if and only if pair and both quoted venues agree, for names without the separators. |
| Opportunities.RouteWinner | backend/fedr/engine/opportunity.py:436-446 | The winner of a route: SAFE first, then worst case, then expected profit, then the earlier one. |
| CheaperMarkets.CheaperStaysClearIff | backend/fedr/engine/opportunity.py:271-407 | Through the whole guard stack: what is approved at higher fees, gas, funding or learned buffer, with worse books and venues, is approved in the cheaper market if and only if it needs capital there or no return is asked for. |
| FrictionlessTrade.SmallTestCanApprove | backend/fedr/engine/risk_engine.py:61-85 | With a route selected a plain $10 trade passes every guard in the small live test: the missing route is what blocks it. |
| LiveGating.App.Start | backend/fedr/app.py:140-153 | A start reads the stored settings or defaults, reverts a live mode without activation and environment gate, and saves. |
| LiveGating.App.UpdateSettings | backend/fedr/app.py:813-863 | The merged settings, the refused entry into LIVE, deactivation on leaving it, and no change on refusal. |
| LiveGating.App.ApiPutSettings | backend/fedr/api/routes/settings.py:56-68 | The settings route refuses any live field but the two review marks. |
| LiveGating.App.ActivateLive | backend/fedr/app.py:866-895 | Activation needs phrase and checklist; it enters LIVE in the small test, in shadow mode, without auto-execution. |
| LiveGating.App.ActivateFullLive | backend/fedr/app.py:897-929 | The second activation needs its phrase, an active LIVE, and a filled small trade or an explicit waiver. |
| LiveGating.App.DeactivateLive | backend/fedr/app.py:931-934 | Deactivation leaves PAPER and no activation. |
| LiveGating.OnlyReadyActivates | backend/fedr/app.py:866-880 | An activation is granted exactly for its phrase, the environment gate, both review marks and the rest of the checklist; else nothing changes. |
| LiveGating.ActivationChanges | backend/fedr/app.py:866-895 | A granted activation sets LIVE, small test, shadow mode and no auto-execution, and changes no other setting. |
| LiveGating.PatchSets | backend/fedr/app.py:813-863 | An accepted patch sets what it names and nothing else; leaving LIVE ends the activation; a refused one changes nothing. |
| LiveGating.StageAndExitChange | backend/fedr/app.py:897-934 | What promotion and deactivation change, field by field. |
| LiveGating.StartFinds | backend/fedr/app.py:140-153 | What a start makes of a stored document, and when it reverts the mode. |
| LiveGating.LiveIsAlwaysGated | backend/fedr/app.py:147-153 | Over every run from any stored document, LIVE implies activation and environment gate, and the store equals memory. |
| LiveGating.FullStageIff | backend/fedr/app.py:866-929 | The stage is full if and only if a second activation happened that no activation followed (or it was full at the start and nothing was activated since). |
| LiveGating.LiveSinceActivation | backend/fedr/app.py:813-934 | LIVE is entered by an activation only, and has been on ever since it. |
| LiveGating.ArmedByPatch | backend/fedr/app.py:813-934 | Over every run: LIVE with shadow mode off, or with auto-execution on, only after an accepted patch since the last activation set that. |
| LiveGating.SafeBeforePromotionIsSmall | backend/fedr/engine/risk_engine.py:61-85 | Over every run, whatever is SAFE in LIVE before the second activation is at most $25, on the selected strategy and route, without a loan. |
| LiveGating.RouteUnchanged | backend/fedr/app.py:813-934 | No operation ever changes the small-test route or strategy. |
| LiveGating.SmallTestApprovesNothing | backend/fedr/engine/risk_engine.py:74-80 | So from any start in the small test whose settings name no route nothing at all is approved in LIVE before the second activation. |
| LiveGating.FirstStartSelectsNoRoute | backend/fedr/app.py:140-153 | A first start without a document is such a start. |
| Inventories.InventoryManager.UpdateBalances | backend/fedr/engine/inventory.py:45-59 | The lines of one venue become exactly the reported balances; other venues and all reservations stay. |
| Inventories.InventoryManager.Reserve | backend/fedr/engine/inventory.py:73-80 | Granted exactly when each need alone is available; a refusal changes nothing, a grant stores the request under its id. |
| Inventories.InventoryManager.Release | backend/fedr/engine/inventory.py:82-84 | Exactly the reservation of that id is gone. |
| Inventories.InventoryManager.ReserveThenRelease | backend/fedr/engine/inventory.py:73-84 | Under a fresh id, reserve and release restore everything. |
| Inventories.CoveredIff | backend/fedr/engine/inventory.py:61-80 | A request is granted exactly when every positive amount fits beside what is reserved of a known balance. |
| Inventories.DropUndoesPut | backend/fedr/engine/inventory.py:73-84 | Releasing a fresh reservation gives back the very same reservations. |
| Inventories.ReservedPut | backend/fedr/engine/inventory.py:67-71 | A stored request contributes its sum per key and replaces what its id held. |
| Inventories.NeverMoreCommitted | backend/fedr/engine/inventory.py:61-84 | Over every run of requests with distinct keys, a key never has more reserved than its balance or than it had at the start. |
| Inventories.NoOverCommitment | backend/fedr/engine/inventory.py:61-84 | So from covered balances no key is ever over-committed, and available plus reserved equals the balance. |
| Inventories.GrantKeepsCommittedIff | backend/fedr/engine/inventory.py:73-80 | Storing a request keeps the balances covered if and only if its sum per key fits beside the others. |
| Inventories.DuplicateKeysOverCommit | backend/fedr/engine/inventory.py:73-80 | A granted request naming one key twice reserves more than the balance. |
| Inventories.Execute | backend/fedr/engine/inventory.py:61-84 | The manager executes any run as specified. |
| Ledgers.PaperLedger.Adjust | backend/fedr/connectors/paper/ledger.py:49-57 | The free balance moves by the amount, or is refused below zero when that is not allowed. |
| Ledgers.PaperLedger.Reserve | backend/fedr/connectors/paper/ledger.py:59-66 | Free moves to used exactly when enough is free. |
| Ledgers.PaperLedger.Release | backend/fedr/connectors/paper/ledger.py:68-74 | At most what is used moves back to free. |
| Ledgers.PaperLedger.SettleFill | backend/fedr/connectors/paper/ledger.py:76-104 | A fill exchanges quote and base on exactly two accounts; the payment comes from the used balance if it was reserved and from the free one if not. |
| Ledgers.PaperLedger.SettlePerp | backend/fedr/connectors/paper/ledger.py:106-129 | Opening moves quote into the collateral bucket, closing returns all of it with the booked profit. |
| Ledgers.MovesFrom | backend/fedr/connectors/paper/ledger.py:68-104 | A reserved payment comes out of what is held alone, any other out of the free balance; a release keeps the total and nothing held goes below zero. |
| Ledgers.ShortMoves | backend/fedr/connectors/paper/ledger.py:106-129 | A short takes what is held first and the rest with the fee from the free balance; a buy-back leaves what is held alone. |
| Ledgers.SaleConserves | backend/fedr/connectors/paper/ledger.py:59-104 | Reserve, sell a part, release the rest: exactly the sold part is gone and nothing stays reserved. |
| Ledgers.ShortRoundTripIff | backend/fedr/connectors/paper/ledger.py:106-129 | A buy-back of a part of a short is booked with the rest of the entry and all other shorts of the bucket as profit; the gain is the part's own if and only if the bucket was empty and the whole short is bought back. |
| Ledgers.FillsConserve | backend/fedr/connectors/paper/ledger.py:106-129 | Over every run of shorts and buy-backs, whole or partial, total plus bucket gains exactly what was sold short less what was bought back and the fees. |
| Ledgers.TotalIsEarnedIff | backend/fedr/connectors/paper/ledger.py:106-129 | So the total shows what was earned if and only if the bucket holds what it held before. |
| Ledgers.PartialBuyBack | backend/fedr/engine/execution/paper_executor.py:84-95 | On the real ledger: a 60% buy-back at 90 of one short at 100 shows a gain of 46 where 6 were earned, and empties the bucket. |
| Ledgers.SharedCollateral | backend/fedr/connectors/paper/ledger.py:106-129 | With two shorts in a bucket, closing the first books the entry notional of the second as profit until that one closes. |
| CarryPositions.NetIsBasisChange | backend/fedr/engine/positions.py:338-346 | Realised net is size times the fall of the price basis, plus funding, less fees. |
| CarryPositions.NetIgnoresParallelShift | backend/fedr/engine/positions.py:338-346 | A parallel move of both prices changes nothing. |
| CarryPositions.Position.MarkedNet | backend/fedr/engine/positions.py:128-157 | A mark values the position at best bid and ask, or at its entry prices without them. |
| CarryPositions.LiquidationExitIff | backend/fedr/engine/positions.py:141-146 | The distance to liquidation is below a minimum exactly when the price exceeds 190/(100+minimum) of the entry. |
| CarryPositions.Streak | backend/fedr/engine/positions.py:183-190 | The negative streak is the length of the negative suffix of settled rates. |
| CarryPositions.Position.AccrueFunding | backend/fedr/engine/positions.py:173-191 | Collected funding stays the sum of all payments ever settled although the kept history is cut to 200. |
| CarryPositions.CollectedSplits | backend/fedr/engine/positions.py:173-191 | Funding over two stretches adds up, each period paying its rate of size times the perpetual price, or the entry price without one. |
| CarryPositions.Position.AccrueIfDue | backend/fedr/engine/positions.py:235-260 | A settlement happens exactly when an interval has passed and the provider answers; an unknown rate moves the clock only. |
| CarryPositions.Position.AccrualsFitIn | backend/fedr/engine/positions.py:235-260 | The number of accruals, with a known rate or without, times the interval is at most the time since opening. |
| CarryPositions.SpacedCount | backend/fedr/engine/positions.py:235-260 | Settlements an interval apart fit in the elapsed time. |
| PositionManagers.NothingAfterAFullLeg | backend/fedr/engine/positions.py:272-411 | After an attempt that filled a leg to 99.9% or got lost no order is ever sent again; it closed the position exactly when both legs filled that much. |
| PositionManagers.AttemptRecords | backend/fedr/engine/positions.py:272-352 | Which attempt each answer makes, what it traded, and 99.9% of the size as the mark of a complete leg. |
| PositionManagers.OnlyFillsSettle | backend/fedr/engine/execution/paper_executor.py:77-99 | An order that filled nothing settles nothing; any other pays its fills less its fee. |
| CarryPositions.TradedAtMostOnce | backend/fedr/engine/positions.py:272-411 | Over all closing attempts a position sells, and buys back, at most its size, provided the attempts that left it open traded nothing on that side. |
| CarryPositions.NextOrderSafeIff | backend/fedr/engine/positions.py:278-352 | On either side: whatever the next full-size order trades, the total stays within the size if and only if no earlier attempt traded anything there. |
| PositionManagers.OvertradesNextIff | backend/fedr/engine/positions.py:349-385 | An attempt leaves the position open to an order that can sell, or buy back, more than the position if and only if it traded something on that side and neither leg filled to 99.9%. |
| PositionManagers.TradesTwice | backend/fedr/engine/positions.py:272-411 | 60% of both legs, then a full close: 1.6 times the size is sold and paid for on the perpetual account, or the position stays open where less base than that was there. |
| PositionManagers.BookedIsEarnedIff | backend/fedr/engine/positions.py:354-383 | What the ledger earns by a close, entry costs and funding aside, differs from the booked profit by what was not filled and by what the bucket held beyond the entry; for whole fills they agree if and only if it held exactly the entry notional of this position. |
| PositionManagers.PositionManager.ReserveClose | backend/fedr/engine/positions.py:285-302 | The close holds its base; a refusing inventory is ignored, a refusing paper ledger ends the attempt with nothing held. |
| PositionManagers.PositionManager.ReleaseClose | backend/fedr/engine/positions.py:413-418 | The close reservation and the unsold part in the ledger are released. |
| PositionManagers.PositionManager.SubmitClose | backend/fedr/engine/positions.py:303-352 | What quoting and submitting leave: reservations released on every path but an exception from submitting. |
| PositionManagers.PositionManager.Settle | backend/fedr/engine/positions.py:347-399 | Both legs filled: booked and closed; otherwise open or closing, and the breaker. |
| PositionManagers.PositionManager.TryClose | backend/fedr/engine/positions.py:272-411 | One attempt, whatever it runs into: status, exact reservations, exact base, quote and perpetual accounts, realised net, booked profit and breaker. |
| PositionManagers.PositionManager.Close | backend/fedr/engine/positions.py:272-411 | Keeps the invariant of all positions ever opened; the position leaves exactly when both legs fill 99.9%; base in the ledger plus base sold over all attempts stays the same, exceptions included. |
| PositionManagers.PositionManager.Monitor | backend/fedr/engine/positions.py:207-233 | Positions due to exit are tried once, all others, closing ones included, are left alone; nothing under a stop or global breaker unless flattening; after an exception the rest of the list is untouched. |
| PositionManagers.PositionManager.CloseAll | backend/fedr/engine/positions.py:262-269 | Every open position is tried once, closing ones never; after an exception the rest of the list is untouched. |
| PositionManagers.PositionManager.Wanted | backend/fedr/engine/positions.py:207-227 | An emergency stop (unless flattening) or a global breaker suspends automatic exits. |
| PositionManagers.PositionManager.WantedIs | backend/fedr/engine/positions.py:195-227 | With nothing stopped or tripped, an exit is wanted exactly when one of the five conditions holds on prices, streak and clock, and the first of them is the reason. |
| PositionManagers.PositionManager.NoteAnomaly | backend/fedr/engine/positions.py:159-171 | An abnormal funding rate trips exactly the carry breaker. |
| PositionManagers.CarryBreakerIsOn | backend/fedr/engine/positions.py:159-171 | After such a trip a breaker of scope "strategy:carry" with that reason is on, whatever was on before. |
| PositionManagers.PositionManager.AccrueDueFunding | backend/fedr/engine/positions.py:235-260 | Exactly the due positions settle once, the others are unchanged, and the count is theirs. |
| PositionManagers.PositionManager.OpenFromOpportunity | backend/fedr/engine/positions.py:66-125 | A position opens exactly when the rate is not anomalous and both legs filled, and the invariant is kept. |
| FlashLoans.FlashLoanEngine.Simulate | backend/fedr/engine/flashloan.py:118-163 | The paper simulation passes exactly when loans are on for the chain and the profit reaches the minimum. |
| FlashLoans.FlashLoanEngine.SettlePaper | backend/fedr/engine/flashloan.py:297-371 | Both legs booked as filled; the wallet gains the profit less the gas that can be priced, and no other account changes. |
| FlashLoans.FlashLoanEngine.SettleAndBook | backend/fedr/engine/flashloan.py:262-293 | The realised net is added to the day and equals the USD gain of the wallet if and only if gas could be priced or was 0. |
| FlashLoans.FlashLoanEngine.Execute | backend/fedr/engine/flashloan.py:228-295 | A stop, disabled loans, a lost venue or any objection aborts with nothing changed; a settled loan was SAFE at its size and is booked as above. |
| FlashLoans.BookedNet | backend/fedr/engine/accounting.py:35-76 | The outcome of a settlement is the atomic profit in USD less gas, with nothing unmatched. |
| FlashLoans.SettledFigures | backend/fedr/engine/flashloan.py:297-371 | In numbers: sale less 1.0005 times the purchase at the quote price (1 where unknown), less the expected gas; both legs whole, at their quotes. |
| FlashLoans.BookedGasIsExpected | backend/fedr/engine/flashloan.py:297-371 | The gas a settlement books is the expected gas of the guard, without the priority fee it also took off. |
| FlashLoans.SettledCreditsMinimum | backend/fedr/engine/flashloan.py:138-163 | With required simulation every SAFE, hence every settled loan credits at least the configured minimum before gas. |
| FlashLoans.LoanFeesAgreeIff | backend/fedr/engine/opportunity.py:39 | Guard and settlement charge the same loan fee exactly for providers at 0.05% or an empty loan. |
| Breakers.KeyInjective | backend/fedr/engine/circuit_breakers.py:81 | A dictionary key determines scope and reason. |
| Breakers.Blocks | backend/fedr/engine/circuit_breakers.py:57-76 | Blocks exactly when an active breaker concerns the venue, chain, strategy or symbol, or is global. |
| Breakers.CircuitBreakerManager.TrippedIffBlocked | backend/fedr/engine/circuit_breakers.py:52-76 | A scope is tripped exactly when something blocks the operation of that scope: of none, or of a venue. |
| Breakers.Repo.SaveBreakers | backend/fedr/db/repo.py:455-472 | Afterwards the active rows are exactly the given breakers; old rows are deactivated, none deleted. |
| Breakers.CircuitBreakerManager.Trip | backend/fedr/engine/circuit_breakers.py:78-92 | A new breaker is added; an existing one only gets the new detail; memory and table agree. |
| Breakers.CircuitBreakerManager.Reset | backend/fedr/engine/circuit_breakers.py:94-103 | Exactly the matching breakers go, they are counted, and memory and table agree. |
| Breakers.CircuitBreakerManager.Restore | backend/fedr/engine/circuit_breakers.py:105-107 | Loaded breakers are put in by key, in order. |
| Breakers.Restart | backend/fedr/engine/circuit_breakers.py:105-107 | A restart on the same table brings back exactly the breakers that were active. |
| Breakers.Execute | backend/fedr/engine/circuit_breakers.py:78-107 | Any interleaving of trips, resets and restarts follows the specified run. |
| Breakers.ActiveIffOutstanding | backend/fedr/engine/circuit_breakers.py:78-107 | A breaker is active after a run if and only if a trip of it was not followed by a matching reset; one per key. |
| Breakers.FirstTripTimeKept | backend/fedr/engine/circuit_breakers.py:78-92 | A breaker in memory carries the time of the trip that created it. |
| EmergencyStops.EmergencyStop.Activate | backend/fedr/engine/emergency_stop.py:38-73 | The flag, the global breaker and the saved document are set together. |
| EmergencyStops.EmergencyStop.Release | backend/fedr/engine/emergency_stop.py:75-82 | The flag, the manual breakers and the document are cleared together. |
| EmergencyStops.RestartStop | backend/fedr/engine/emergency_stop.py:84-89 | A restart is stopped exactly when the document says so. |
| EmergencyStops.CrashDuringActivation | backend/fedr/engine/emergency_stop.py:38-73 | A crash before the document is saved still restarts halted. |
| EmergencyStops.CrashDuringRelease | backend/fedr/engine/emergency_stop.py:75-82 | A crash before the document is saved restarts stopped. |
| EmergencyStops.ExecuteStops | backend/fedr/engine/emergency_stop.py:38-89 | Over any run with restarts and breaker resets the stop holds from activation to release. |
| RollingWindows.DequeIsCutLog | backend/fedr/engine/circuit_breakers.py:110-123 | Whatever windows were mixed, the deque is the full log cut at the latest edge used. |
| RollingWindows.FixedWindowExact | backend/fedr/engine/circuit_breakers.py:110-123 | With one fixed window any interleaving of record and count reports the window of the unpruned log. |
| RollingWindows.MixedWindowsSafeIff | backend/fedr/engine/circuit_breakers.py:110-123 | With mixed windows a count is right, whichever calls record an event, if and only if no call was made after its own edge and before the latest one. |
| RollingWindows.LatestEdgeIsSafe | backend/fedr/engine/circuit_breakers.py:110-123 | So it is right whenever no other call used a later edge. |
| RollingWindows.MixedWindowsMiss | backend/fedr/engine/circuit_breakers.py:110-123 | A longer count that misses an event a shorter one dropped. |
| RollingWindows.RollingCounters.Record | backend/fedr/engine/circuit_breakers.py:110-116 | An event is added, expired ones pruned, and the count returned; other counters are unchanged. |
| RollingWindows.RollingCounters.Count | backend/fedr/engine/circuit_breakers.py:118-123 | The same without an event. |
| RollingWindows.RollingCounters.RecordAndCheck | backend/fedr/engine/circuit_breakers.py:125-138 | The breaker trips exactly when the count reaches the threshold. |
| HealthTrackers.WorstOfIsWorst | backend/fedr/connectors/base.py:166-172 | The combined verdict is at least as severe as each one and is one of them. |
| HealthTrackers.WorstOfOrder | backend/fedr/connectors/base.py:166-172 | It does not depend on the order. |
| HealthTrackers.CapKeepsThresholds | backend/fedr/connectors/base.py:51-86 | A cap never changes whether a recent count reaches a threshold up to the cap; the code caps at 200 and compares with 3 and 10. |
| HealthTrackers.CapLosesCounts | backend/fedr/connectors/base.py:51-86 | With more recent events than the cap, the capped deque reports only the cap. |
| HealthTrackers.HealthTracker.RecordError | backend/fedr/connectors/base.py:70-72 | The capped deque stays the newest 200 of everything recorded. |
| HealthTrackers.HealthTracker.RecordOrder | backend/fedr/connectors/base.py:73-78 | Likewise for orders and their failures. |
| HealthTrackers.HealthTracker.Classify | backend/fedr/connectors/base.py:96-163 | The verdict of the capped deques is the verdict of the uncapped logs. |
| HealthTrackers.VerdictIff | backend/fedr/connectors/base.py:96-147 | When a venue is blocked, unhealthy, healthy, and otherwise degraded, on flags, ages, drift, latency and counts. |

## Left out

- Decimal rounding to 34 digits and the float arithmetic of the simulator: amounts are exact reals.
- Reasons, explanations and audit entries as text: reasons are tags, and only their presence decides.
- Timestamps, symbols and ids on books, quotes and records that no modelled rule reads.
- Interleaving inside one operation: every locked or awaited method is one step; crashes inside activation and release of
  the emergency stop are modelled.
- The exchange, Gateway, web3 and RPC connectors and the on-chain branches of the flash-loan engine: foreign calls.
- The executor behind `submit_leg`: its answer, or its exception, is an input of a closing attempt.
- The API routes besides the settings filter, authentication, events and the user interface.
- Market-data quality, rebalancing, reconciliation, shadow recording and the clock: mostly single-branch facts.
- Loading positions, balances and learned statistics from the database; breaker history and the conversion of its
  timestamps; notifications.
- Risk profiles: a patch states the sections it results in.
- Candidate generation, ranking by age and persistence of opportunities.
- Accounting.BookTradeDecomposes: does not cover legs with a fee given in quote or maker legs as a plain sum, because that
  fee is scaled neither by size nor by rate; Accounting.PredictionErrorDecomposes covers them in general form.
- CostMonotone.DearerNeverUnlocks: leaves out two rises that can lower a cost: a DEX fee where fees are stressed less than
  slippage (exactly when, CostMonotone.DexFeeImprovesIff), and a discounted maker fee on a sale below its reference or
  beside a fee the quote names (CostMonotone.MakerFeeFallsIff).
- CostMonotone.CostsMono: leaves out the same two rises.
- CheaperMarkets.CheaperStaysClearIff: leaves out the same two rises; sizes and quotes are the same in both markets.
- PositionManagers.PositionManager.Close: asks for an open position, which each of its callers checks first.
- PositionManagers.PositionManager.TryClose: asks for an open position like Close; the base account is exact for an executor
  that sells at most what was ordered (`backend/fedr/engine/execution/paper_executor.py:86`) from an account with nothing
  negative in use; where submitting raised, the buy-back counts as not settled.
- PositionManagers.PositionManager.OpenFromOpportunity: takes what the paired executor filled as an input.
- Accounting.ComputeOutcome: takes the quoted price of a leg as a number or nothing; records hold it as text, so that any
  price written there, 0 included, counts as present.
- Breakers.Restart: leaves out the conversion of a stored trip time through a float timestamp.
- Breakers.FirstTripTimeKept: leaves out the same conversion.
- EmergencyStops.EmergencyStop.Activate: leaves out cancelling open orders and reconciling afterwards.
- LiveGating.App.UpdateSettings: takes the sections a chosen risk profile results in.
- Opportunities.AssessCase: takes the gas assessment as given, GasGuards.Assess and GasGuards.MergedSound say how it arises.
- Inventories.InventoryManager.UpdateBalances: keeps the free balance of a line only; targets, minimums and USD values
  are display data here.
