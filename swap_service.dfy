/** The swap service: quotes a trade on the best venue, computes the slippage floor, hands the
    trade to the chosen venue's transaction builder and reports the outcome. */
module SwapService {
  import opened Common
  import opened PriceFeeds
  import opened BestSwapRate
  import opened MultiversXContract

  /** The slippage tolerance, in percent, used when the caller gives none. */
  const DEFAULT_SLIPPAGE: real := 0.5
  const UNSUPPORTED_PLATFORM: string := "Plataforma de swap não suportada"
  const EXECUTE_FAILURE_PREFIX: string := "Falha ao executar swap: "
  const ESTIMATE_FAILURE_PREFIX: string := "Falha ao estimar swap: "

  /** The calls the executor makes besides the quote.
      - `swapOnXExchange(amountIn, userAddress)`, `swapOnPulsar(amountIn, userAddress)`: the
        hash text of the transaction each builder produces, or the message of what it throws.
      - `sdk`: the SDK calls of the MultiversX builder.
      - `showNumber(x)`: `x.toString()`.
      - `txHash(tx)`: `tx.getHash().toString()`, or the message of what it throws. */
  datatype Venues = Venues(
    swapOnXExchange: (real, string) -> Result<string>,
    swapOnPulsar: (real, string) -> Result<string>,
    sdk: Sdk,
    showNumber: real -> string,
    txHash: Transaction -> Result<string>)

  /** What `executeSwap` returns (the ISO timestamp is not modelled). */
  datatype SwapReceipt = SwapReceipt(
    status: string, txHash: string, platform: string, tokenIn: Token, tokenOut: Token,
    amountIn: real, estimatedAmountOut: real, minAmountOut: real)

  /** What `estimateSwap` returns. */
  datatype SwapEstimate = SwapEstimate(
    bestPlatform: string, estimatedAmountOut: real, priceImpact: JsNumber, allPlatforms: seq<PriceEntry>)

  predicate HasPrefix(s: string, prefix: string)
  {
    |prefix| <= |s| && s[..|prefix|] == prefix
  }

  /** The three names the executor knows how to trade on. */
  predicate KnownPlatform(platform: string)
  {
    platform == XEXCHANGE || platform == PULSAR || platform == MULTIVERSX
  }

  // ---------------------------------------------------------------------------------------
  // Quoting

  /** `getBestSwapRate`: the quote of `calculateBestSwap`, unchanged. */
  function GetBestSwapRate(feeds: Feeds, tokenIn: Token, tokenOut: Token, amountIn: real): (r: Result<SwapQuote>)
    ensures r == CalculateBestSwap(feeds, tokenIn, tokenOut, amountIn)
    ensures r.Err? ==> r.error == BEST_RATE_FAILURE
  {
    CalculateBestSwap(feeds, tokenIn, tokenOut, amountIn)
  }

  /** The tolerance in effect: an omitted argument takes the default. */
  function Slippage(slippageTolerance: Option<real>): (r: real)
    ensures slippageTolerance.Some? ==> r == slippageTolerance.value
    ensures slippageTolerance.None? ==> r == DEFAULT_SLIPPAGE
  {
    match slippageTolerance
    case None => DEFAULT_SLIPPAGE
    case Some(t) => t
  }

  /** The least amount out the trader accepts: the estimate less the tolerance, in percent. */
  function MinAmountOut(amountOut: real, slippageTolerance: real): real
  {
    amountOut * (1.0 - slippageTolerance / 100.0)
  }

  // ---------------------------------------------------------------------------------------
  // Executing

  /** The `switch` on the venue name: each known venue's builder, or the unsupported-venue
      error for any other name. The result is the transaction hash text. */
  function Dispatch(venues: Venues, platform: string, tokenIn: Token, tokenOut: Token, amountIn: real,
                    minAmountOut: real, userAddress: string): (r: Result<string>)
    ensures !KnownPlatform(platform) ==> r == Err(UNSUPPORTED_PLATFORM)
    ensures platform == XEXCHANGE ==> r == venues.swapOnXExchange(amountIn, userAddress)
    ensures platform == PULSAR ==> r == venues.swapOnPulsar(amountIn, userAddress)
    ensures platform == MULTIVERSX ==>
      var built := SwapOnMultiversX(venues.sdk, tokenIn, tokenOut, venues.showNumber(amountIn),
                                    venues.showNumber(minAmountOut), userAddress);
      && (r.Ok? <==> built.Ok? && venues.txHash(built.value).Ok?)
      && (built.Err? ==> r == Err(SWAP_TX_FAILURE))
      && (built.Ok? ==> r == venues.txHash(built.value))
  {
    if platform == XEXCHANGE then
      venues.swapOnXExchange(amountIn, userAddress)
    else if platform == PULSAR then
      venues.swapOnPulsar(amountIn, userAddress)
    else if platform == MULTIVERSX then
      match SwapOnMultiversX(venues.sdk, tokenIn, tokenOut, venues.showNumber(amountIn),
                             venues.showNumber(minAmountOut), userAddress)
      case Err(e) => Err(e)
      case Ok(transaction) => venues.txHash(transaction)
    else
      Err(UNSUPPORTED_PLATFORM)
  }

  /** `executeSwap`: quote, slippage floor, dispatch, receipt. Every failure, of the quote or
      of the venue, is reported under one prefix. */
  function ExecuteSwap(feeds: Feeds, venues: Venues, tokenIn: Token, tokenOut: Token, amountIn: real,
                       userAddress: string, slippageTolerance: Option<real>): (r: Result<SwapReceipt>)
    ensures r.Err? ==> HasPrefix(r.error, EXECUTE_FAILURE_PREFIX)
    ensures CalculateBestSwap(feeds, tokenIn, tokenOut, amountIn).Err? ==>
      r == Err(EXECUTE_FAILURE_PREFIX + BEST_RATE_FAILURE)
    ensures CalculateBestSwap(feeds, tokenIn, tokenOut, amountIn).Ok? ==>
      var quote := CalculateBestSwap(feeds, tokenIn, tokenOut, amountIn).value;
      var minOut := MinAmountOut(quote.amountOut, Slippage(slippageTolerance));
      var hash := Dispatch(venues, quote.bestPlatform, tokenIn, tokenOut, amountIn, minOut, userAddress);
      && (hash.Err? ==> r == Err(EXECUTE_FAILURE_PREFIX + hash.error))
      && (hash.Ok? ==>
            r == Ok(SwapReceipt("success", hash.value, quote.bestPlatform, tokenIn, tokenOut, amountIn,
                                quote.amountOut, minOut)))
  {
    match GetBestSwapRate(feeds, tokenIn, tokenOut, amountIn)
    case Err(e) => Err(EXECUTE_FAILURE_PREFIX + e)
    case Ok(bestSwap) =>
      var minAmountOut := MinAmountOut(bestSwap.amountOut, Slippage(slippageTolerance));
      match Dispatch(venues, bestSwap.bestPlatform, tokenIn, tokenOut, amountIn, minAmountOut, userAddress)
      case Err(e) => Err(EXECUTE_FAILURE_PREFIX + e)
      case Ok(txHash) =>
        Ok(SwapReceipt("success", txHash, bestSwap.bestPlatform, tokenIn, tokenOut, amountIn,
                       bestSwap.amountOut, minAmountOut))
  }

  /** `estimateSwap`: the quote's best venue, amount out, saving against the second best venue
      (reported as the price impact) and full ranking. */
  function EstimateSwap(feeds: Feeds, tokenIn: Token, tokenOut: Token, amountIn: real): (r: Result<SwapEstimate>)
    ensures r.Ok? <==> CalculateBestSwap(feeds, tokenIn, tokenOut, amountIn).Ok?
    ensures r.Err? ==> r.error == ESTIMATE_FAILURE_PREFIX + BEST_RATE_FAILURE
    ensures r.Ok? ==>
      var quote := CalculateBestSwap(feeds, tokenIn, tokenOut, amountIn).value;
      && r.value.bestPlatform == quote.bestPlatform
      && r.value.estimatedAmountOut == quote.amountOut
      && r.value.priceImpact == quote.savings.vsSecondBest
      && r.value.allPlatforms == quote.allPrices
  {
    match GetBestSwapRate(feeds, tokenIn, tokenOut, amountIn)
    case Err(e) => Err(ESTIMATE_FAILURE_PREFIX + e)
    case Ok(bestSwap) =>
      Ok(SwapEstimate(bestSwap.bestPlatform, bestSwap.amountOut, bestSwap.savings.vsSecondBest, bestSwap.allPrices))
  }

  // ---------------------------------------------------------------------------------------
  // Properties of the slippage floor

  /** An omitted tolerance is a tolerance of half a percent. */
  lemma DefaultSlippage(amountOut: real)
    ensures MinAmountOut(amountOut, Slippage(None)) == MinAmountOut(amountOut, 0.5)
    ensures MinAmountOut(amountOut, Slippage(None)) == amountOut * 0.995
  {
  }

  /** A non-negative tolerance never raises the floor above the estimate; up to 100 percent
      it keeps the floor non-negative. */
  lemma MinAmountOutBounds(amountOut: real, slippageTolerance: real)
    requires amountOut >= 0.0 && slippageTolerance >= 0.0
    ensures MinAmountOut(amountOut, slippageTolerance) <= amountOut
    ensures slippageTolerance <= 100.0 ==> MinAmountOut(amountOut, slippageTolerance) >= 0.0
  {
    assert amountOut * (slippageTolerance / 100.0) >= 0.0;
    assert slippageTolerance <= 100.0 ==> amountOut * (1.0 - slippageTolerance / 100.0) >= 0.0;
  }

  /** For a positive estimate the floor is the estimate exactly when the tolerance is zero. */
  lemma MinAmountOutExact(amountOut: real, slippageTolerance: real)
    requires amountOut > 0.0
    ensures MinAmountOut(amountOut, slippageTolerance) == amountOut <==> slippageTolerance == 0.0
  {
    assert amountOut - MinAmountOut(amountOut, slippageTolerance) == amountOut * (slippageTolerance / 100.0);
    assert amountOut * (slippageTolerance / 100.0) == 0.0 ==> slippageTolerance / 100.0 == 0.0;
  }

  /** A larger tolerance gives a lower floor. */
  lemma MinAmountOutMonotone(amountOut: real, t1: real, t2: real)
    requires amountOut >= 0.0 && t1 <= t2
    ensures MinAmountOut(amountOut, t2) <= MinAmountOut(amountOut, t1)
  {
    assert MinAmountOut(amountOut, t1) - MinAmountOut(amountOut, t2) == amountOut * ((t2 - t1) / 100.0);
  }

  /** For a non-zero estimate the floor determines the tolerance it was computed with. */
  lemma FloorDeterminesTolerance(amountOut: real, t1: real, t2: real)
    requires amountOut != 0.0
    requires MinAmountOut(amountOut, t1) == MinAmountOut(amountOut, t2)
    ensures t1 == t2
  {
    assert amountOut * ((t2 - t1) / 100.0) == MinAmountOut(amountOut, t1) - MinAmountOut(amountOut, t2);
  }

  // ---------------------------------------------------------------------------------------
  // Properties of the executor

  /** A quote always names one of the three venues (the list it ranks holds only those). */
  lemma QuoteNamesKnownPlatform(feeds: Feeds, tokenIn: Token, tokenOut: Token, amountIn: real)
    requires CalculateBestSwap(feeds, tokenIn, tokenOut, amountIn).Ok?
    ensures KnownPlatform(CalculateBestSwap(feeds, tokenIn, tokenOut, amountIn).value.bestPlatform)
  {
    BestIsMaximum(feeds, tokenIn, tokenOut, amountIn);
    RateSearchUnfold(feeds, tokenIn, tokenOut, amountIn);
  }

  /** The unsupported-venue branch cannot be reached from `executeSwap`: whatever the quote,
      the dispatch goes to one of the three builders. */
  lemma UnsupportedPlatformUnreachable(feeds: Feeds, venues: Venues, tokenIn: Token, tokenOut: Token,
                                       amountIn: real, userAddress: string, slippageTolerance: Option<real>)
    requires CalculateBestSwap(feeds, tokenIn, tokenOut, amountIn).Ok?
    ensures
      var quote := CalculateBestSwap(feeds, tokenIn, tokenOut, amountIn).value;
      var minOut := MinAmountOut(quote.amountOut, Slippage(slippageTolerance));
      var hash := Dispatch(venues, quote.bestPlatform, tokenIn, tokenOut, amountIn, minOut, userAddress);
      && KnownPlatform(quote.bestPlatform)
      && (quote.bestPlatform == XEXCHANGE ==> hash == venues.swapOnXExchange(amountIn, userAddress))
      && (quote.bestPlatform == PULSAR ==> hash == venues.swapOnPulsar(amountIn, userAddress))
      && (quote.bestPlatform != XEXCHANGE && quote.bestPlatform != PULSAR ==> quote.bestPlatform == MULTIVERSX)
  {
    QuoteNamesKnownPlatform(feeds, tokenIn, tokenOut, amountIn);
  }

  /** When every builder succeeds, so does `executeSwap` on a successful quote. */
  lemma ExecuteSwapSucceeds(feeds: Feeds, venues: Venues, tokenIn: Token, tokenOut: Token,
                            amountIn: real, userAddress: string, slippageTolerance: Option<real>)
    requires CalculateBestSwap(feeds, tokenIn, tokenOut, amountIn).Ok?
    requires forall a: real, u: string :: venues.swapOnXExchange(a, u).Ok? && venues.swapOnPulsar(a, u).Ok?
    requires forall tx: Transaction :: venues.txHash(tx).Ok?
    requires venues.sdk.isAddress(userAddress) && venues.sdk.isAddress(SWAP_CONTRACT)
    requires forall t: Token, s: string, d: nat :: venues.sdk.tokenTransfer(t, s, d).Ok?
    ensures ExecuteSwap(feeds, venues, tokenIn, tokenOut, amountIn, userAddress, slippageTolerance).Ok?
  {
    var quote := CalculateBestSwap(feeds, tokenIn, tokenOut, amountIn).value;
    var minOut := MinAmountOut(quote.amountOut, Slippage(slippageTolerance));
    QuoteNamesKnownPlatform(feeds, tokenIn, tokenOut, amountIn);
    assert venues.sdk.tokenTransfer(tokenIn, venues.showNumber(amountIn), TOKEN_DECIMALS).Ok?;
    assert SwapOnMultiversX(venues.sdk, tokenIn, tokenOut, venues.showNumber(amountIn),
                            venues.showNumber(minOut), userAddress).Ok?;
  }

  /** A failed quote stops `executeSwap` before any builder is called: the outcome does not
      depend on the builders at all. */
  lemma NoBuilderOnFailedQuote(feeds: Feeds, venues: Venues, otherVenues: Venues, tokenIn: Token,
                               tokenOut: Token, amountIn: real, userAddress: string,
                               slippageTolerance: Option<real>)
    requires CalculateBestSwap(feeds, tokenIn, tokenOut, amountIn).Err?
    ensures ExecuteSwap(feeds, venues, tokenIn, tokenOut, amountIn, userAddress, slippageTolerance)
         == ExecuteSwap(feeds, otherVenues, tokenIn, tokenOut, amountIn, userAddress, slippageTolerance)
  {
  }

  /** For a non-negative trade and a non-negative xExchange price the quoted amount out is
      non-negative: the best price is at least the xExchange price. */
  lemma QuoteAmountNonNegative(feeds: Feeds, tokenIn: Token, tokenOut: Token, amountIn: real)
    requires CalculateBestSwap(feeds, tokenIn, tokenOut, amountIn).Ok?
    requires amountIn >= 0.0 && feeds.xExchangePrice.value >= 0.0
    ensures CalculateBestSwap(feeds, tokenIn, tokenOut, amountIn).value.amountOut >= 0.0
  {
    RateOfPrices(feeds, tokenIn, tokenOut, amountIn);
    EffectivePricesShape(feeds, tokenIn, tokenOut, amountIn);
    var prices := EffectivePrices(feeds, tokenIn, tokenOut, amountIn).value;
    var ranked := RankPrices(prices);
    RankPricesSorted(prices);
    SortedHeadIsMaximum(ranked, prices);
    assert prices[0] in prices;
    QuoteOfNonNegative(RateSearch(feeds, tokenIn, tokenOut, amountIn).value, amountIn, tokenIn, tokenOut);
  }

  lemma QuoteOfNonNegative(rate: BestRate, amountIn: real, tokenIn: Token, tokenOut: Token)
    requires amountIn >= 0.0 && rate.bestPrice >= 0.0
    ensures QuoteOf(rate, amountIn, tokenIn, tokenOut).amountOut >= 0.0
  {
  }

  /** A receipt agrees with the estimate for the same trade, and for a non-negative trade at
      a non-negative xExchange price and tolerance its floor lies between zero (up to 100
      percent) and the estimate. */
  lemma ReceiptMatchesEstimate(feeds: Feeds, venues: Venues, tokenIn: Token, tokenOut: Token,
                               amountIn: real, userAddress: string, slippageTolerance: Option<real>)
    requires ExecuteSwap(feeds, venues, tokenIn, tokenOut, amountIn, userAddress, slippageTolerance).Ok?
    ensures EstimateSwap(feeds, tokenIn, tokenOut, amountIn).Ok?
    ensures
      var receipt := ExecuteSwap(feeds, venues, tokenIn, tokenOut, amountIn, userAddress, slippageTolerance).value;
      var estimate := EstimateSwap(feeds, tokenIn, tokenOut, amountIn).value;
      && receipt.status == "success"
      && receipt.platform == estimate.bestPlatform
      && receipt.estimatedAmountOut == estimate.estimatedAmountOut
      && receipt.tokenIn == tokenIn && receipt.tokenOut == tokenOut && receipt.amountIn == amountIn
      && (amountIn >= 0.0 && feeds.xExchangePrice.value >= 0.0 && Slippage(slippageTolerance) >= 0.0 ==>
            && receipt.minAmountOut <= receipt.estimatedAmountOut
            && (Slippage(slippageTolerance) <= 100.0 ==> receipt.minAmountOut >= 0.0))
  {
    var quote := CalculateBestSwap(feeds, tokenIn, tokenOut, amountIn).value;
    var receipt := ExecuteSwap(feeds, venues, tokenIn, tokenOut, amountIn, userAddress, slippageTolerance).value;
    assert receipt.minAmountOut == MinAmountOut(quote.amountOut, Slippage(slippageTolerance));
    assert receipt.estimatedAmountOut == quote.amountOut;
    if amountIn >= 0.0 && feeds.xExchangePrice.value >= 0.0 && Slippage(slippageTolerance) >= 0.0 {
      QuoteAmountNonNegative(feeds, tokenIn, tokenOut, amountIn);
      MinAmountOutBounds(quote.amountOut, Slippage(slippageTolerance));
    }
  }

  /** On the MultiversX venue the hashed transaction carries, in its decoded data, the tokens,
      the trade size and the very floor the receipt reports. */
  lemma MultiversXReceiptPayload(feeds: Feeds, venues: Venues, decode: string -> string, tokenIn: Token,
                                 tokenOut: Token, amountIn: real, userAddress: string,
                                 slippageTolerance: Option<real>)
    requires ExecuteSwap(feeds, venues, tokenIn, tokenOut, amountIn, userAddress, slippageTolerance).Ok?
    requires CalculateBestSwap(feeds, tokenIn, tokenOut, amountIn).value.bestPlatform == MULTIVERSX
    requires Decodes(venues.sdk, decode)
    requires tokenIn == EGLD
    requires forall x :: NoSeparator(venues.showNumber(x))
    requires NoSeparator(tokenOut)
    ensures
      var receipt := ExecuteSwap(feeds, venues, tokenIn, tokenOut, amountIn, userAddress, slippageTolerance).value;
      var built := SwapOnMultiversX(venues.sdk, tokenIn, tokenOut, venues.showNumber(amountIn),
                                    venues.showNumber(receipt.minAmountOut), userAddress);
      && built.Ok?
      && venues.txHash(built.value) == Ok(receipt.txHash)
      && built.value.value == venues.showNumber(amountIn)
      && Split(decode(built.value.data))
         == ["swap", EGLD, tokenOut, venues.showNumber(amountIn), venues.showNumber(receipt.minAmountOut)]
  {
    var receipt := ExecuteSwap(feeds, venues, tokenIn, tokenOut, amountIn, userAddress, slippageTolerance).value;
    assert NoSeparator(EGLD);
    SwapPayloadFields(venues.sdk, decode, tokenIn, tokenOut, venues.showNumber(amountIn),
                      venues.showNumber(receipt.minAmountOut), userAddress);
  }

  /** With all effective prices positive, the price impact an estimate reports is a finite,
      non-negative percentage. */
  lemma PriceImpactNonNegative(feeds: Feeds, tokenIn: Token, tokenOut: Token, amountIn: real)
    requires EstimateSwap(feeds, tokenIn, tokenOut, amountIn).Ok?
    requires forall e :: e in EffectivePrices(feeds, tokenIn, tokenOut, amountIn).value ==> e.price > 0.0
    ensures EstimateSwap(feeds, tokenIn, tokenOut, amountIn).value.priceImpact.Finite?
    ensures EstimateSwap(feeds, tokenIn, tokenOut, amountIn).value.priceImpact.v >= 0.0
  {
    SavingsBounds(feeds, tokenIn, tokenOut, amountIn);
  }

  /** A worked case: 100 units at a best price of 1.029 with the default tolerance give an
      estimate of 102.9 and a floor of 102.3855. */
  lemma SlippageWorkedExample(feeds: Feeds, venues: Venues, tokenIn: Token, tokenOut: Token, userAddress: string)
    requires ExecuteSwap(feeds, venues, tokenIn, tokenOut, 100.0, userAddress, None).Ok?
    requires CalculateBestSwap(feeds, tokenIn, tokenOut, 100.0).value.bestPrice == 1.029
    ensures ExecuteSwap(feeds, venues, tokenIn, tokenOut, 100.0, userAddress, None).value.estimatedAmountOut == 102.9
    ensures ExecuteSwap(feeds, venues, tokenIn, tokenOut, 100.0, userAddress, None).value.minAmountOut == 102.3855
  {
    var quote := CalculateBestSwap(feeds, tokenIn, tokenOut, 100.0).value;
    assert quote.amountOut == 100.0 * 1.029;
    assert MinAmountOut(102.9, Slippage(None)) == 102.3855;
  }
}
