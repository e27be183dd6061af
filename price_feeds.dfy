/** The HTTP price feeds the aggregator reads, as the values they answer with.
    Each answer is either a number or a thrown error; nothing about the transport is modelled. */
module PriceFeeds {
  import opened Common

  /** The answers of the five feeds for one call of the aggregator.
      - `xExchangePrice`, `pulsarPrice`: `getXExchangePrice` and `getPulsarPrice` always query the
        fixed EGLD-USDC pair and ignore their token arguments, so each is one value.
      - `multiversXPrice(tokenIn, tokenOut)`: `getMultiversXPrice`, the unit rate of the pair.
      - `swapEstimate(tokenIn, tokenOut, amountIn)`: `getSwapEstimate`, the total amount out.
      - `swapFee(tokenIn, tokenOut)`: `getSwapFee`, a percentage. */
  datatype Feeds = Feeds(
    xExchangePrice: Result<real>,
    pulsarPrice: Result<real>,
    multiversXPrice: (Token, Token) -> Result<real>,
    swapEstimate: (Token, Token, real) -> Result<real>,
    swapFee: (Token, Token) -> Result<real>)
}
