/** The older two-venue comparison (`findBestRate`): xExchange against Pulsar Money. */
module ComparePrices {
  import opened Common
  import opened PriceFeeds
  import BestSwapRate

  datatype TwoVenueRate = TwoVenueRate(bestPlatform: string, bestPrice: real)

  /** `Math.max` on two finite numbers. */
  function Max(a: real, b: real): (r: real)
    ensures r >= a && r >= b
    ensures r == a || r == b
  {
    if a >= b then a else b
  }

  /** `findBestRate`: the two feeds are awaited one after the other and neither is caught, so
      the first failure surfaces with its own message. The token arguments reach feeds that
      ignore them. */
  function FindBestRate(feeds: Feeds, tokenIn: Token, tokenOut: Token): (r: Result<TwoVenueRate>)
    ensures r.Ok? <==> feeds.xExchangePrice.Ok? && feeds.pulsarPrice.Ok?
    ensures feeds.xExchangePrice.Err? ==> r == Err(feeds.xExchangePrice.error)
    ensures feeds.xExchangePrice.Ok? && feeds.pulsarPrice.Err? ==> r == Err(feeds.pulsarPrice.error)
    ensures r.Ok? ==>
      var x, p := feeds.xExchangePrice.value, feeds.pulsarPrice.value;
      // the best price is the larger of the two
      && r.value.bestPrice >= x && r.value.bestPrice >= p
      && (r.value.bestPrice == x || r.value.bestPrice == p)
      // xExchange wins only when strictly better: a tie goes to Pulsar Money
      && (r.value.bestPlatform == BestSwapRate.XEXCHANGE <==> x > p)
      && (r.value.bestPlatform == BestSwapRate.PULSAR <==> x <= p)
      // the price reported is the named venue's own
      && r.value.bestPrice == (if r.value.bestPlatform == BestSwapRate.XEXCHANGE then x else p)
  {
    match feeds.xExchangePrice
    case Err(e) => Err(e)
    case Ok(xExchangePrice) =>
      match feeds.pulsarPrice
      case Err(e) => Err(e)
      case Ok(pulsarPrice) =>
        Ok(TwoVenueRate(
          if xExchangePrice > pulsarPrice then BestSwapRate.XEXCHANGE else BestSwapRate.PULSAR,
          Max(xExchangePrice, pulsarPrice)))
  }
}
