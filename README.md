# Swap aggregator for MultiversX: a verified model

This project models the core of a small swap aggregator for the MultiversX chain.

- **Rate aggregator** (`findBestSwapRate`, `calculateBestSwap`). It reads three venue prices: xExchange, Pulsar Money and MultiversX. For trades above one unit it refines the MultiversX unit price from an amount-based estimate. It takes the MultiversX swap fee off that price only, then ranks the three entries by descending price with a stable sort. It reports the best venue, the two savings percentages, and the amount out at the best price.
- **Two-venue comparison** (`findBestRate`). An older selector: xExchange against Pulsar Money, with ties going to Pulsar Money.
- **Swap service** (`getBestSwapRate`, `executeSwap`, `estimateSwap`).
  - It computes the slippage floor (`minAmountOut`).
  - It dispatches on the best venue's name to that venue's transaction builder.
  - It builds the success record, and wraps every failure under a fixed message prefix.
- **MultiversX payload builders** (`swapOnMultiversX`, `addLiquidity`, `removeLiquidity`). Each builds a transaction record: the `value` field, the fixed receiver, gas limit and chain ID, and the base64-encoded `@`-separated instruction string. For non-EGLD input, the swap's data is replaced by an `ESDTTransfer@…` instruction.

Modules, one file each:

- `Common` (`common.dfy`): `Result`, `Option`, and `JsNumber`, which stands for a JavaScript number after an unguarded division.
- `PriceFeeds` (`price_feeds.dfy`): the feed answers one call sees.
- `BestSwapRate` (`best_swap_rate.dfy`): the aggregator.
- `ComparePrices` (`compare_prices.dfy`): the two-venue comparison.
- `MultiversXContract` (`multiversx_contract.dfy`): the payload builders.
- `SwapService` (`swap_service.dfy`): the swap service.

How the model is built:

- **Prices and amounts** are exact `real`s.
- **External calls** appear as the values they answer with. These are the HTTP feeds, the SDK's address parsing, `TokenTransfer`, base64, `Number.prototype.toString`, `Transaction.getHash` and the xExchange/Pulsar builders. A throwing call is an `Err` carrying its message.
- **The sort** in `findBestSwapRate` is in place, so it is modelled as such.
  - `BestSwapRate.SortByPriceDescending` sorts an `array<PriceEntry>` by insertion.
  - It is proved equal to the reference stable sort `BestSwapRate.RankPrices`.
  - `BestSwapRate.FindBestSwapRate`, which fills the three-slot array and sorts it, is proved equal to the function `BestSwapRate.RateSearch`. All the aggregator's properties are stated about that function.
- **Ranking order.** `RankPrices` is shown to be sorted, to be a permutation, and to be stable: equal prices keep the order xExchange, Pulsar Money, MultiversX. It is also the only list with those properties (`RankPricesCharacterized`).
- **Instruction strings** are modelled as `Join` of their fields on `@`. `Split` undoes `Join` when no field contains `@` (`MultiversXContract.SplitJoin`). So a contract that decodes the data field and splits it gets back exactly the fields the builder was given.

Where the code and the written design disagree, the model follows the code:

- **No per-venue exclusion.** The three feeds are awaited together in `Promise.all`, so one failing feed fails the whole rate search. No venue is dropped while the others go on.
- **Any feed failure is fatal.** A failing fee lookup, or a failing amount estimate for a trade above one unit, fails the search with "Falha ao encontrar melhor taxa de swap". Neither falls back to the unit price.
- **The refinement applies regardless of the winner.** It and the fee always apply to the MultiversX entry, whichever venue ends up best.
- **The savings divisions are unguarded.** A zero second-best or worst price gives JavaScript's Infinity or NaN, modelled by `JsNumber`.

## Model

| member | source | states |
|---|---|---|
| Common.JsDivide | src/utils/bestSwapRate.js:48-49 | the savings division: a finite quotient for a non-zero divisor; +Infinity, -Infinity or NaN by the sign of the dividend for a zero divisor |
| Common.JsScale | src/utils/bestSwapRate.js:48-49 | the `* 100` of a savings figure: finite values are scaled, Infinity and NaN pass through |
| BestSwapRate.InsertByPrice | src/utils/bestSwapRate.js:40 | one insertion step of the stable sort keeps the entries (multiset) and adds exactly one |
| BestSwapRate.RankPrices | src/utils/bestSwapRate.js:40 | the reference sort returns a permutation of its input of the same length |
| BestSwapRate.RankPricesSorted | src/utils/bestSwapRate.js:40 | the ranking is in non-increasing order of price (what the comparator `b.price - a.price` asks for) |
| BestSwapRate.RankPricesStable | src/utils/bestSwapRate.js:32-40 | for input in registration order, the ranking puts a higher price first and breaks price ties by registration order (stable `Array.prototype.sort`) |
| BestSwapRate.RankedPermutationUnique | src/utils/bestSwapRate.js:40 | two permutations of one list that are both ranked by (price desc, registration asc) are equal, so the sorted order is fully determined |
| BestSwapRate.RankPricesCharacterized | src/utils/bestSwapRate.js:32-40 | any ranked permutation of a list in registration order is exactly the reference sort's output |
| BestSwapRate.RankedHeadIsMaximum | src/utils/bestSwapRate.js:40-45 | the head of the ranking of three entries is one of them, and its price is the maximum of the three and at least every entry's price |
| BestSwapRate.InsertIntoSorted | src/utils/bestSwapRate.js:40 | one pass of the in-place insertion sort: the prefix `a[..i+1]` becomes the stable insertion of `a[i]` into the sorted prefix; the rest of the array is unchanged |
| BestSwapRate.SortByPriceDescending | src/utils/bestSwapRate.js:40 | the in-place sort leaves the array equal to the reference stable sort of its old contents |
| BestSwapRate.OpenGap | src/utils/bestSwapRate.js:40 | the element shifting inside one pass of `prices.sort`: the entries of lower price than the one being inserted move up one slot, the gap lands after the last entry with a price at least its own, and everything outside the pass is unchanged |
| BestSwapRate.MultiversXUnitPrice | src/utils/bestSwapRate.js:20-25 | a trade of at most one unit keeps the unit price feed; a larger trade uses a unit price that, times the amount, gives the estimate; it fails exactly when the estimate does |
| BestSwapRate.FeeAdjusted | src/utils/bestSwapRate.js:28-29 | definition of the price net of the swap fee; its properties are in `BestSwapRate.FeeAdjustedBounds` |
| BestSwapRate.EffectivePrices | src/utils/bestSwapRate.js:14-36 | definition of the three-entry list in registration order; its shape is in `BestSwapRate.EffectivePricesShape` and its use in `BestSwapRate.RateSearchUnfold` |
| BestSwapRate.EffectivePricesShape | src/utils/bestSwapRate.js:32-36 | a built list has three entries: xExchange at its feed, then Pulsar Money at its feed, then MultiversX |
| BestSwapRate.SavingsPercent | src/utils/bestSwapRate.js:48-49 | definition of one savings figure through `Common.JsDivide` and `Common.JsScale`; its bounds are in `BestSwapRate.SummarizeSavings` |
| BestSwapRate.Summarize | src/utils/bestSwapRate.js:43-50 | definition of the returned record from the sorted list; its properties are in `BestSwapRate.BestIsMaximum` and `BestSwapRate.SummarizeSavings` |
| BestSwapRate.FeeAdjustedBounds | src/utils/bestSwapRate.js:28-29 | the fee deduction: a zero fee leaves the price unchanged, a fee in [0, 100] keeps a non-negative price in [0, price], and a positive fee strictly lowers a positive price |
| BestSwapRate.RateSearch | src/utils/bestSwapRate.js:11-56 | the rate search succeeds exactly when the two venue feeds, the MultiversX price, the estimate (only for trades above one unit) and the fee all answer; every failure is reported as "Falha ao encontrar melhor taxa de swap" |
| BestSwapRate.FindBestSwapRate | src/utils/bestSwapRate.js:11-56 | the imperative search (array of three entries, in-place sort, summary) returns exactly the value of the functional model |
| BestSwapRate.QuoteOf | src/utils/bestSwapRate.js:67-76 | the quote's amount out is the trade size times the best price; every field of the rate and the trade size and tokens are carried over unchanged |
| BestSwapRate.CalculateBestSwap | src/utils/bestSwapRate.js:65-77 | the quote succeeds exactly when the rate search does, is the rate applied to the trade on success, and propagates the search's message on failure |
| BestSwapRate.SummarizeSavings | src/utils/bestSwapRate.js:47-50 | for a sorted list of three positive prices both savings are finite, the saving against the second best is non-negative, and the saving against the worst is at least it |
| BestSwapRate.RateSearchUnfold | src/utils/bestSwapRate.js:14-46 | a successful search summarizes the ranking of [xExchange at its feed, Pulsar Money at its feed, MultiversX at its refined unit price net of the fee] |
| BestSwapRate.AllPricesAreTheThreeVenues | src/utils/bestSwapRate.js:32-36 | `allPrices` has exactly three entries and is a permutation of the three venues at their computed prices; only the MultiversX price is net of the fee |
| BestSwapRate.RankedAndStable | src/utils/bestSwapRate.js:32-40 | sorting a list in registration order gives non-increasing prices, with equal prices in registration order |
| BestSwapRate.AllPricesSortedAndStable | src/utils/bestSwapRate.js:32-46 | the reported `allPrices` is sorted by descending price and ties keep xExchange before Pulsar Money before MultiversX |
| BestSwapRate.BestIsMaximum | src/utils/bestSwapRate.js:43-46 | `bestPlatform`/`bestPrice` are the first entry of `allPrices`, that entry is one of the three computed venues, and its price is the maximum of the three |
| BestSwapRate.SavingsBounds | src/utils/bestSwapRate.js:47-50 | with all effective prices positive, `vsSecondBest >= 0` and `vsWorst >= vsSecondBest`, both finite |
| BestSwapRate.EstimateOnlyForLargeTrades | src/utils/bestSwapRate.js:21-25 | for a trade of at most one unit the amount-based estimate is never used: replacing its answers changes nothing |
| BestSwapRate.QuoteBeatsEveryEntry | src/utils/bestSwapRate.js:67 | with a non-negative trade, the amount out at the best price is at least the trade times any listed price |
| BestSwapRate.BestSwapBeatsEveryVenue | src/utils/bestSwapRate.js:65-72 | a successful quote for a non-negative trade gives at least what any venue in `allPrices` would give |
| BestSwapRate.RankMultiversXFirst | src/utils/bestSwapRate.js:32-40 | when MultiversX beats xExchange, which beats Pulsar Money, the ranking is MultiversX, xExchange, Pulsar Money |
| BestSwapRate.WorkedExample | src/utils/bestSwapRate.js:11-51 | xExchange 1.02, Pulsar Money 1.00, MultiversX 1.05 with a 2% fee: MultiversX wins at 1.029, the ranking is MultiversX, xExchange, Pulsar Money, and the saving against the second best is 0.9/1.02 percent |
| ComparePrices.FindBestRate | src/utils/comparePrices.js:3-11 | succeeds exactly when both feeds answer; the xExchange error surfaces first, then the Pulsar error; the best price is the larger of the two; xExchange is named iff its price is strictly greater (ties go to Pulsar Money); the price reported is the named venue's |
| ComparePrices.Max | src/utils/comparePrices.js:9 | `Math.max` of two finite numbers: at least both arguments and equal to one of them |
| MultiversXContract.SplitJoin | src/contracts/multiversx.js:23-38 | splitting an `@`-joined instruction at `@` gives back its fields, when no field contains `@` |
| MultiversXContract.SwapCallIsJoin | src/contracts/multiversx.js:23-26 | the swap instruction is "swap", tokenIn, tokenOut, amountIn and minAmountOut joined by `@` |
| MultiversXContract.EsdtTransferCallIsJoin | src/contracts/multiversx.js:33-37 | the ESDT-transfer instruction is "ESDTTransfer", the transfer, tokenOut and minAmountOut joined by `@` |
| MultiversXContract.AddLiquidityCallIsJoin | src/contracts/multiversx.js:64-67 | the add-liquidity instruction is "addLiquidity", tokenA, tokenB, amountA and amountB joined by `@` |
| MultiversXContract.RemoveLiquidityCallIsJoin | src/contracts/multiversx.js:93-96 | the remove-liquidity instruction is "removeLiquidity", tokenA, tokenB and liquidityAmount joined by `@` |
| MultiversXContract.NewSwapTransaction | src/contracts/multiversx.js:18-28 | definition of the swap transaction before any `setData`; its fields are stated in `MultiversXContract.SwapOnMultiversX` |
| MultiversXContract.SwapOnMultiversX | src/contracts/multiversx.js:15-46 | succeeds exactly when both addresses parse and, for non-EGLD input, the token transfer is formed; `value` is the amount for EGLD and "0" otherwise; fixed receiver, sender, gas 10,000,000, chain "T"; data is the encoded swap call for EGLD, and for other tokens only the data is replaced, by the encoded ESDT transfer; every failure is "Falha ao criar transação de swap" |
| MultiversXContract.AddLiquidity | src/contracts/multiversx.js:57-76 | succeeds exactly when both addresses parse; `value` is amountA if tokenA is EGLD, else amountB if tokenB is EGLD, else "0"; gas 15,000,000; data encodes the add-liquidity call; failure message is the add-liquidity one |
| MultiversXContract.RemoveLiquidity | src/contracts/multiversx.js:86-105 | succeeds exactly when both addresses parse; `value` is always "0"; gas 10,000,000; data encodes the remove-liquidity call; failure message is the remove-liquidity one |
| MultiversXContract.SwapPayloadFields | src/contracts/multiversx.js:18-39 | decoding and splitting a swap payload's data gives ["swap", tokenIn, tokenOut, amountIn, minAmountOut] for EGLD input and ["ESDTTransfer", transfer, tokenOut, minAmountOut] otherwise |
| MultiversXContract.AddLiquidityPayloadFields | src/contracts/multiversx.js:59-69 | decoding and splitting an add-liquidity payload's data gives ["addLiquidity", tokenA, tokenB, amountA, amountB] |
| MultiversXContract.RemoveLiquidityPayloadFields | src/contracts/multiversx.js:88-98 | decoding and splitting a remove-liquidity payload's data gives ["removeLiquidity", tokenA, tokenB, liquidityAmount] |
| SwapService.GetBestSwapRate | src/services/swapService.js:17-19 | the service's quote is `calculateBestSwap`'s, failure message included |
| SwapService.Slippage | src/services/swapService.js:30 | an omitted tolerance is the default 0.5 percent; a given one is used as it is |
| SwapService.MinAmountOut | src/services/swapService.js:36 | definition of the floor; its properties are in `SwapService.MinAmountOutBounds`, `SwapService.MinAmountOutExact`, `SwapService.MinAmountOutMonotone` and `SwapService.FloorDeterminesTolerance` |
| SwapService.Dispatch | src/services/swapService.js:41-66 | xExchange and Pulsar Money go to their builders with the amount and user; MultiversX goes to `swapOnMultiversX` with the tokens, the stringified amount and floor, and the user, then to the hash; any other name fails with "Plataforma de swap não suportada" |
| SwapService.ExecuteSwap | src/services/swapService.js:30-83 | every failure starts with "Falha ao executar swap: "; a failed quote gives that prefix plus the rate-search message; otherwise the dispatch error is wrapped, or the receipt is status "success" with the hash, the quote's venue and amount out, the echoed trade and the computed floor |
| SwapService.EstimateSwap | src/services/swapService.js:92-107 | succeeds exactly when the quote does; reports the best venue, the amount out, `vsSecondBest` as the price impact and `allPrices`; a failure is "Falha ao estimar swap: " plus the rate-search message |
| SwapService.DefaultSlippage | src/services/swapService.js:30 | an omitted tolerance is 0.5 percent: the floor is 0.995 times the estimate |
| SwapService.MinAmountOutBounds | src/services/swapService.js:36 | with a non-negative estimate and tolerance the floor is at most the estimate, and it is non-negative for a tolerance up to 100 |
| SwapService.MinAmountOutExact | src/services/swapService.js:36 | for a positive estimate the floor equals the estimate iff the tolerance is zero |
| SwapService.MinAmountOutMonotone | src/services/swapService.js:36 | a larger tolerance gives a lower or equal floor |
| SwapService.FloorDeterminesTolerance | src/services/swapService.js:36 | for a non-zero estimate two tolerances giving the same floor are equal |
| SwapService.QuoteNamesKnownPlatform | src/services/swapService.js:42-66 | every successful quote names xExchange, Pulsar Money or MultiversX |
| SwapService.UnsupportedPlatformUnreachable | src/services/swapService.js:42-66 | from `executeSwap` the dispatch always reaches one of the three builders, never the unsupported-venue branch |
| SwapService.ExecuteSwapSucceeds | src/services/swapService.js:30-78 | when the quote succeeds and every builder, the address checks, the token transfer and the hash succeed, `executeSwap` succeeds |
| SwapService.NoBuilderOnFailedQuote | src/services/swapService.js:33-42 | after a failed quote the outcome does not depend on any builder: no builder is reached |
| SwapService.QuoteAmountNonNegative | src/utils/bestSwapRate.js:43-46 | with a non-negative trade and a non-negative xExchange price the quoted amount out is non-negative (the best price is at least the xExchange price) |
| SwapService.ReceiptMatchesEstimate | src/services/swapService.js:68-78 | a receipt is "success", agrees with `estimateSwap` on venue and amount out, echoes the trade, and (non-negative trade, xExchange price and tolerance) has its floor at most the estimate and non-negative up to 100 percent |
| SwapService.MultiversXReceiptPayload | src/services/swapService.js:53-61 | on the MultiversX venue with EGLD input, the hashed transaction carries the amount as value and its decoded data splits into the swap call with the tokens, the amount and exactly the floor the receipt reports |
| SwapService.PriceImpactNonNegative | src/services/swapService.js:97-101 | with all effective prices positive, the price impact reported is finite and non-negative |
| SwapService.SlippageWorkedExample | src/services/swapService.js:33-36 | 100 units at best price 1.029 with the default tolerance give an estimate of 102.9 and a floor of 102.3855 |

## Left out

- HTTP feeds (src/api/index.js, src/api/multiversx.js) are not modelled as clients. Each call is the value it answers with, in `PriceFeeds.Feeds`. The xExchange and Pulsar feeds ignore their token arguments, so each is a single value.
- Concurrency of `Promise.all` is not modelled. The three feeds are read in sequence, and the result does not depend on the order they complete in.
- The xExchange and Pulsar builders (src/contracts/index.js:4-27) are opaque calls in `SwapService.Venues`, each answering a hash text or an error. They would sign and send through a wallet, which is external I/O. As written, each one builds its `data` from `tokenIn` and `tokenOut`, which are not declared in that file (src/contracts/index.js:7 and :20). So every call throws a ReferenceError before any I/O. The xExchange and Pulsar Money branches of `executeSwap` therefore always end in "Falha ao executar swap: tokenIn is not defined". The opaque call includes that outcome, but the model does not force it.
- SwapService.ExecuteSwapSucceeds: its requires that the xExchange and Pulsar Money builders succeed is never met by the program as written (see the line above). Only the MultiversX branch can succeed.
- The SDK is not modelled. `new Address` (an address check that can fail), `TokenTransfer.fungibleFromAmount` (a transfer that can fail) and base64 are abstract functions in `MultiversXContract.Sdk`. `getHash` is the abstract `txHash` in `SwapService.Venues`. Addresses are kept as the text they were parsed from.
- The `Transaction` constructor and `setData` are assumed never to throw. `setData` is a plain replacement of the record's `data` field. The constructor's own argument checks are not modelled.
- MultiversXContract.SwapOnMultiversX: "succeeds exactly when" holds only under the assumption above. A failure of the `Transaction` constructor or of `setData` is not modelled, though either would give the same message "Falha ao criar transação de swap".
- MultiversXContract.AddLiquidity: "succeeds exactly when" holds only under the same assumption about the `Transaction` constructor.
- MultiversXContract.RemoveLiquidity: "succeeds exactly when" holds only under the same assumption about the `Transaction` constructor.
- IEEE-754 floating point is not modelled. Amounts and prices are exact reals, so rounding, signed zeros, NaN inputs from the feeds, and the sort comparator returning NaN are outside the model. Division by zero in the savings is modelled.
- `Number.prototype.toString` is an abstract `showNumber` function.
- An omitted `amountIn` is not modelled; the model always takes `amountIn` as a real number. In JavaScript a default parameter also applies when `undefined` is passed explicitly. So `calculateBestSwap(tokenIn, tokenOut)` (src/utils/bestSwapRate.js:65-66) runs the rate search with amountIn 1. Then line 67 computes `amountOut` as `undefined * bestPrice`, which is NaN, and line 71 echoes `amountIn: undefined`. The service reaches the same path when its caller omits the amount (src/services/swapService.js:18 and :33).
- Left out as side effects: `new Date().toISOString()` timestamps on the quote and the receipt, `console.error` logging on the error paths, and the exported singleton instance of the service.
- vite.config.js is build configuration, not behaviour.
- eliza-multiversx-plugin-fork/src/index.ts is plugin registration whose action files are not part of this model.
- SwapService.MultiversXReceiptPayload: states the decoded payload only for EGLD input. The non-EGLD payload is covered by MultiversXContract.SwapPayloadFields for the same arguments.
