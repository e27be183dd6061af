/** Rate aggregation and ranking across the three venues (`findBestSwapRate`) and the
    amount-out estimate built on it (`calculateBestSwap`). */
module BestSwapRate {
  import opened Common
  import opened PriceFeeds

  const XEXCHANGE: string := "xExchange"
  const PULSAR: string := "Pulsar Money"
  const MULTIVERSX: string := "MultiversX"

  /** The one message `findBestSwapRate` throws, whichever feed failed. */
  const BEST_RATE_FAILURE: string := "Falha ao encontrar melhor taxa de swap"

  /** One element of the `prices` list: a venue and its effective unit price. */
  datatype PriceEntry = PriceEntry(platform: string, price: real)

  /** The two savings percentages of the best venue. */
  datatype Savings = Savings(vsSecondBest: JsNumber, vsWorst: JsNumber)

  /** What `findBestSwapRate` returns. */
  datatype BestRate = BestRate(bestPlatform: string, bestPrice: real, allPrices: seq<PriceEntry>, savings: Savings)

  /** What `calculateBestSwap` returns: the rate spread out, plus the trade it was asked about
      (the ISO timestamp is not modelled). */
  datatype SwapQuote = SwapQuote(
    bestPlatform: string, bestPrice: real, allPrices: seq<PriceEntry>, savings: Savings,
    amountIn: real, amountOut: real, tokenIn: Token, tokenOut: Token)

  // ---------------------------------------------------------------------------------------
  // Ordering of entries

  /** Position of a venue in the list the aggregator builds (unknown names come last). */
  function Registration(platform: string): nat
  {
    if platform == XEXCHANGE then 0
    else if platform == PULSAR then 1
    else if platform == MULTIVERSX then 2
    else 3
  }

  /** Non-increasing by price: what `(a, b) => b.price - a.price` asks of the sort. */
  predicate SortedDesc(s: seq<PriceEntry>)
  {
    forall i, j :: 0 <= i < j < |s| ==> s[i].price >= s[j].price
  }

  /** `a` comes before `b` in a stable descending sort of a list in registration order:
      a higher price first, and equal prices in registration order. */
  predicate RankedBefore(a: PriceEntry, b: PriceEntry)
  {
    a.price > b.price || (a.price == b.price && Registration(a.platform) < Registration(b.platform))
  }

  predicate Ranked(s: seq<PriceEntry>)
  {
    forall i, j :: 0 <= i < j < |s| ==> RankedBefore(s[i], s[j])
  }

  predicate InRegistrationOrder(s: seq<PriceEntry>)
  {
    forall i, j :: 0 <= i < j < |s| ==> Registration(s[i].platform) < Registration(s[j].platform)
  }

  // ---------------------------------------------------------------------------------------
  // The reference stable sort

  /** Inserts `x` into a list sorted by descending price, after every entry whose price is at
      least that of `x`: the step of a stable insertion sort. */
  function InsertByPrice(x: PriceEntry, t: seq<PriceEntry>): (r: seq<PriceEntry>)
    ensures multiset(r) == multiset(t) + multiset{x}
    ensures |r| == |t| + 1
  {
    if t == [] then [x]
    else if t[0].price < x.price then [x] + t
    else
      assert t == [t[0]] + t[1..];
      [t[0]] + InsertByPrice(x, t[1..])
  }

  /** The stable descending sort that `Array.prototype.sort` performs with the comparator
      `b.price - a.price`, written as an insertion sort. */
  function RankPrices(s: seq<PriceEntry>): (r: seq<PriceEntry>)
    ensures multiset(r) == multiset(s)
    ensures |r| == |s|
  {
    if s == [] then []
    else
      assert s == s[..|s| - 1] + [s[|s| - 1]];
      InsertByPrice(s[|s| - 1], RankPrices(s[..|s| - 1]))
  }

  lemma RankedIsSorted(s: seq<PriceEntry>)
    requires Ranked(s)
    ensures SortedDesc(s)
  {
    forall i, j | 0 <= i < j < |s| ensures s[i].price >= s[j].price {
      assert RankedBefore(s[i], s[j]);
    }
  }

  lemma MemberOfInsert(x: PriceEntry, t: seq<PriceEntry>, e: PriceEntry)
    requires e in InsertByPrice(x, t)
    ensures e == x || e in t
  {
    assert e in multiset(InsertByPrice(x, t));
  }

  lemma {:induction false} InsertKeepsSorted(x: PriceEntry, t: seq<PriceEntry>)
    requires SortedDesc(t)
    ensures SortedDesc(InsertByPrice(x, t))
  {
    if t == [] {
    } else if t[0].price < x.price {
    } else {
      var rest := InsertByPrice(x, t[1..]);
      InsertKeepsSorted(x, t[1..]);
      forall k | 0 <= k < |rest| ensures t[0].price >= rest[k].price {
        MemberOfInsert(x, t[1..], rest[k]);
      }
    }
  }

  /** Every output of the sort is sorted by descending price. */
  lemma {:induction false} RankPricesSorted(s: seq<PriceEntry>)
    ensures SortedDesc(RankPrices(s))
  {
    if s != [] {
      RankPricesSorted(s[..|s| - 1]);
      InsertKeepsSorted(s[|s| - 1], RankPrices(s[..|s| - 1]));
    }
  }

  /** A ranked list stays ranked under a new head that is ranked before all its entries. */
  lemma ConsKeepsRanked(h: PriceEntry, rest: seq<PriceEntry>)
    requires Ranked(rest)
    requires forall e :: e in rest ==> RankedBefore(h, e)
    ensures Ranked([h] + rest)
  {
    var r := [h] + rest;
    forall i, j | 0 <= i < j < |r| ensures RankedBefore(r[i], r[j]) {
      assert r[j] == rest[j - 1];
      if i > 0 {
        assert r[i] == rest[i - 1];
      }
    }
  }

  lemma {:induction false} InsertKeepsRanked(x: PriceEntry, t: seq<PriceEntry>)
    requires Ranked(t)
    requires forall e :: e in t ==> Registration(e.platform) < Registration(x.platform)
    ensures Ranked(InsertByPrice(x, t))
  {
    if t == [] {
    } else if t[0].price < x.price {
      RankedIsSorted(t);
      forall e | e in t ensures RankedBefore(x, e) {
        var k :| 0 <= k < |t| && t[k] == e;
        assert t[0].price >= t[k].price;
      }
      ConsKeepsRanked(x, t);
    } else {
      RankedTail(t);
      InsertKeepsRanked(x, t[1..]);
      var rest := InsertByPrice(x, t[1..]);
      forall e | e in rest ensures RankedBefore(t[0], e) {
        MemberOfInsert(x, t[1..], e);
        if e != x {
          var k :| 0 <= k < |t[1..]| && t[1..][k] == e;
          assert RankedBefore(t[0], t[k + 1]);
        }
      }
      ConsKeepsRanked(t[0], rest);
    }
  }

  /** Stability: sorting a list given in registration order keeps equal prices in
      registration order. */
  lemma {:induction false} RankPricesStable(s: seq<PriceEntry>)
    requires InRegistrationOrder(s)
    ensures Ranked(RankPrices(s))
  {
    if s != [] {
      var init, x := s[..|s| - 1], s[|s| - 1];
      RankPricesStable(init);
      forall e | e in RankPrices(init) ensures Registration(e.platform) < Registration(x.platform) {
        assert e in multiset(RankPrices(init));
        assert e in init;
      }
      InsertKeepsRanked(x, RankPrices(init));
    }
  }

  /** `InsertByPrice` places `x` at the boundary between the entries priced at least `x`
      and those priced below it. */
  lemma {:induction false} InsertByPriceAt(x: PriceEntry, t: seq<PriceEntry>, k: nat)
    requires k <= |t|
    requires forall m :: 0 <= m < k ==> t[m].price >= x.price
    requires forall m :: k <= m < |t| ==> t[m].price < x.price
    ensures InsertByPrice(x, t) == t[..k] + [x] + t[k..]
  {
    if t == [] {
    } else if t[0].price < x.price {
      assert k == 0;
    } else {
      assert k > 0;
      var tail := t[1..];
      forall m | 0 <= m < k - 1 ensures tail[m].price >= x.price {
        assert tail[m] == t[m + 1];
      }
      forall m | k - 1 <= m < |tail| ensures tail[m].price < x.price {
        assert tail[m] == t[m + 1];
      }
      InsertByPriceAt(x, tail, k - 1);
      SplitAfterHead(t, x, k);
    }
  }

  lemma SplitAfterHead(t: seq<PriceEntry>, x: PriceEntry, k: nat)
    requires 0 < k <= |t|
    ensures [t[0]] + (t[1..][..k - 1] + [x] + t[1..][k - 1..]) == t[..k] + [x] + t[k..]
  {
    assert [t[0]] + t[1..][..k - 1] == t[..k];
    assert t[1..][k - 1..] == t[k..];
  }

  // ---------------------------------------------------------------------------------------
  // The in-place sort

  /** The shifting loop of one pass: moves the entries of the sorted prefix `a[..i]` that are
      priced strictly below `x` one place up, from the top down, and returns the gap left. */
  method OpenGap(a: array<PriceEntry>, i: nat, x: PriceEntry) returns (j: nat)
    requires i < a.Length
    modifies a
    ensures j <= i
    ensures forall m :: 0 <= m < j ==> a[m] == old(a[m])
    ensures forall m :: j < m <= i ==> a[m] == old(a[m - 1])
    ensures forall m :: i < m < a.Length ==> a[m] == old(a[m])
    ensures forall m :: j <= m < i ==> old(a[m]).price < x.price
    ensures j > 0 ==> old(a[j - 1]).price >= x.price
  {
    j := i;
    while j > 0 && a[j - 1].price < x.price
      invariant j <= i
      invariant forall m :: 0 <= m < j ==> a[m] == old(a[m])
      invariant forall m :: j < m <= i ==> a[m] == old(a[m - 1])
      invariant forall m :: i < m < a.Length ==> a[m] == old(a[m])
      invariant forall m :: j <= m < i ==> old(a[m]).price < x.price
    {
      a[j] := a[j - 1];
      j := j - 1;
    }
  }

  /** One pass of the insertion sort: moves `a[i]` down past the entries of the sorted
      prefix `a[..i]` that are priced strictly below it. */
  method InsertIntoSorted(a: array<PriceEntry>, i: nat)
    requires i < a.Length
    requires SortedDesc(a[..i])
    modifies a
    ensures a[..i + 1] == InsertByPrice(old(a[i]), old(a[..i]))
    ensures a[i + 1..] == old(a[i + 1..])
  {
    ghost var before := a[..];
    var x := a[i];
    var j := OpenGap(a, i, x);
    a[j] := x;
    PassCorrect(before, a[..], i, j);
  }

  /** The effect of one pass, on the array's contents before and after it. */
  lemma PassCorrect(before: seq<PriceEntry>, after: seq<PriceEntry>, i: nat, j: nat)
    requires j <= i < |before| == |after|
    requires SortedDesc(before[..i])
    requires forall m :: 0 <= m < j ==> after[m] == before[m]
    requires after[j] == before[i]
    requires forall m :: j < m <= i ==> after[m] == before[m - 1]
    requires forall m :: i < m < |after| ==> after[m] == before[m]
    requires forall m :: j <= m < i ==> before[m].price < before[i].price
    requires j > 0 ==> before[j - 1].price >= before[i].price
    ensures after[..i + 1] == InsertByPrice(before[i], before[..i])
    ensures after[i + 1..] == before[i + 1..]
  {
    var sorted, x := before[..i], before[i];
    forall m | 0 <= m < j ensures sorted[m].price >= x.price {
      assert sorted[m].price >= sorted[j - 1].price;
    }
    InsertByPriceAt(x, sorted, j);
    ShiftedInsert(after[..i + 1], sorted, x, j);
  }

  /** The array prefix after a pass: the entries before the gap, `x`, then the shifted ones. */
  lemma ShiftedInsert(b: seq<PriceEntry>, sorted: seq<PriceEntry>, x: PriceEntry, j: nat)
    requires |b| == |sorted| + 1 && j <= |sorted|
    requires forall m :: 0 <= m < j ==> b[m] == sorted[m]
    requires b[j] == x
    requires forall m :: j < m < |b| ==> b[m] == sorted[m - 1]
    ensures b == sorted[..j] + [x] + sorted[j..]
  {
    var c := sorted[..j] + [x] + sorted[j..];
    assert |c| == |b|;
    forall m | 0 <= m < |b| ensures b[m] == c[m] {
      if m > j {
        assert c[m] == sorted[j..][m - j - 1];
      }
    }
  }

  /** `prices.sort((a, b) => b.price - a.price)`: a stable insertion sort in place. */
  method SortByPriceDescending(a: array<PriceEntry>)
    modifies a
    ensures a[..] == RankPrices(old(a[..]))
  {
    ghost var original := a[..];
    var i := 0;
    while i < a.Length
      invariant 0 <= i <= a.Length
      invariant a[..i] == RankPrices(original[..i])
      invariant a[i..] == original[i..]
    {
      ghost var current := a[..];
      RankPricesSorted(original[..i]);
      InsertIntoSorted(a, i);
      SortStep(original, current, a[..], i);
      i := i + 1;
    }
    assert a[..] == a[..a.Length];
    assert original == original[..a.Length];
  }

  /** One iteration of the outer loop, on the array's contents: a ranked prefix of `i` entries
      followed by the untouched rest becomes a ranked prefix of `i + 1` entries. */
  lemma SortStep(original: seq<PriceEntry>, current: seq<PriceEntry>, after: seq<PriceEntry>, i: nat)
    requires i < |original| == |current| == |after|
    requires current[..i] == RankPrices(original[..i]) && current[i..] == original[i..]
    requires after[..i + 1] == InsertByPrice(current[i], current[..i])
    requires after[i + 1..] == current[i + 1..]
    ensures after[..i + 1] == RankPrices(original[..i + 1])
    ensures after[i + 1..] == original[i + 1..]
  {
    SuffixStep(original, current, i);
    RankPricesSnoc(original, i);
  }

  lemma SuffixStep(original: seq<PriceEntry>, current: seq<PriceEntry>, i: nat)
    requires i < |original| == |current|
    requires current[i..] == original[i..]
    ensures current[i] == original[i]
    ensures current[i + 1..] == original[i + 1..]
  {
    assert current[i] == current[i..][0];
    assert current[i + 1..] == current[i..][1..];
    assert original[i + 1..] == original[i..][1..];
  }

  /** Ranking one more entry of a list is inserting it into the ranking of the shorter prefix. */
  lemma RankPricesSnoc(original: seq<PriceEntry>, i: nat)
    requires i < |original|
    ensures RankPrices(original[..i + 1]) == InsertByPrice(original[i], RankPrices(original[..i]))
  {
    var done := original[..i + 1];
    assert done[..i] == original[..i];
  }

  // ---------------------------------------------------------------------------------------
  // Aggregation

  /** The MultiversX unit price before the fee: for a trade larger than one unit, the amount
      quoted for the whole trade divided by its size; otherwise the unit-price feed. */
  function MultiversXUnitPrice(feeds: Feeds, tokenIn: Token, tokenOut: Token, amountIn: real, unitPrice: real): (r: Result<real>)
    ensures amountIn <= 1.0 ==> r == Ok(unitPrice)
    ensures amountIn > 1.0 ==> (r.Ok? <==> feeds.swapEstimate(tokenIn, tokenOut, amountIn).Ok?)
    ensures amountIn > 1.0 && r.Ok? ==> r.value * amountIn == feeds.swapEstimate(tokenIn, tokenOut, amountIn).value
  {
    if amountIn > 1.0 then
      match feeds.swapEstimate(tokenIn, tokenOut, amountIn)
      case Ok(total) => Ok(total / amountIn)
      case Err(e) => Err(e)
    else Ok(unitPrice)
  }

  /** A price net of a percentage fee. */
  function FeeAdjusted(price: real, feePercent: real): real
  {
    price * (1.0 - feePercent / 100.0)
  }

  /** A fee never raises a positive price, a zero fee leaves it unchanged, and a fee of at
      most 100% leaves it non-negative. */
  lemma FeeAdjustedBounds(price: real, feePercent: real)
    ensures feePercent == 0.0 ==> FeeAdjusted(price, feePercent) == price
    ensures price >= 0.0 && 0.0 <= feePercent <= 100.0 ==> 0.0 <= FeeAdjusted(price, feePercent) <= price
    ensures price > 0.0 && feePercent > 0.0 ==> FeeAdjusted(price, feePercent) < price
  {
    if price >= 0.0 && 0.0 <= feePercent {
      assert price * (feePercent / 100.0) >= 0.0;
    }
    if price > 0.0 && feePercent > 0.0 {
      assert price * (feePercent / 100.0) > 0.0;
    }
  }

  /** The list the aggregator builds before sorting, in registration order; only the
      MultiversX entry is net of a fee. Any failed feed fails it. */
  function EffectivePrices(feeds: Feeds, tokenIn: Token, tokenOut: Token, amountIn: real): Result<seq<PriceEntry>>
  {
    if feeds.xExchangePrice.Err? || feeds.pulsarPrice.Err? || feeds.multiversXPrice(tokenIn, tokenOut).Err? then
      Err(BEST_RATE_FAILURE)
    else
      match MultiversXUnitPrice(feeds, tokenIn, tokenOut, amountIn, feeds.multiversXPrice(tokenIn, tokenOut).value)
      case Err(_) => Err(BEST_RATE_FAILURE)
      case Ok(unit) =>
        match feeds.swapFee(tokenIn, tokenOut)
        case Err(_) => Err(BEST_RATE_FAILURE)
        case Ok(fee) =>
          Ok([PriceEntry(XEXCHANGE, feeds.xExchangePrice.value),
              PriceEntry(PULSAR, feeds.pulsarPrice.value),
              PriceEntry(MULTIVERSX, FeeAdjusted(unit, fee))])
  }

  /** `((best - other) / other) * 100`, with JavaScript's answer when `other` is zero. */
  function SavingsPercent(best: real, other: real): JsNumber
  {
    JsScale(JsDivide(best - other, other), 100.0)
  }

  /** The record returned for a sorted list of three entries. */
  function Summarize(ranked: seq<PriceEntry>): BestRate
    requires |ranked| == 3
  {
    BestRate(ranked[0].platform, ranked[0].price, ranked,
      Savings(SavingsPercent(ranked[0].price, ranked[1].price),
              SavingsPercent(ranked[0].price, ranked[|ranked| - 1].price)))
  }

  /** `findBestSwapRate` as a function of the feeds' answers. */
  function RateSearch(feeds: Feeds, tokenIn: Token, tokenOut: Token, amountIn: real): (r: Result<BestRate>)
    ensures r.Ok? <==>
      && feeds.xExchangePrice.Ok? && feeds.pulsarPrice.Ok? && feeds.multiversXPrice(tokenIn, tokenOut).Ok?
      && (amountIn > 1.0 ==> feeds.swapEstimate(tokenIn, tokenOut, amountIn).Ok?)
      && feeds.swapFee(tokenIn, tokenOut).Ok?
    ensures r.Err? ==> r.error == BEST_RATE_FAILURE
  {
    match EffectivePrices(feeds, tokenIn, tokenOut, amountIn)
    case Err(e) => Err(e)
    case Ok(prices) => Ok(Summarize(RankPrices(prices)))
  }

  /** `findBestSwapRate`: fetch, refine, fee-adjust, sort in place, summarize. */
  method FindBestSwapRate(feeds: Feeds, tokenIn: Token, tokenOut: Token, amountIn: real) returns (r: Result<BestRate>)
    ensures r == RateSearch(feeds, tokenIn, tokenOut, amountIn)
  {
    var xExchangePrice := feeds.xExchangePrice;
    var pulsarPrice := feeds.pulsarPrice;
    var multiversXPrice := feeds.multiversXPrice(tokenIn, tokenOut);
    if xExchangePrice.Err? || pulsarPrice.Err? || multiversXPrice.Err? {
      return Err(BEST_RATE_FAILURE);
    }
    var multiversXEstimate := multiversXPrice.value;
    if amountIn > 1.0 {
      var estimate := feeds.swapEstimate(tokenIn, tokenOut, amountIn);
      if estimate.Err? {
        return Err(BEST_RATE_FAILURE);
      }
      multiversXEstimate := estimate.value / amountIn;
    }
    var fee := feeds.swapFee(tokenIn, tokenOut);
    if fee.Err? {
      return Err(BEST_RATE_FAILURE);
    }
    assert MultiversXUnitPrice(feeds, tokenIn, tokenOut, amountIn, multiversXPrice.value) == Ok(multiversXEstimate);
    var afterFee := multiversXEstimate * (1.0 - fee.value / 100.0);
    assert afterFee == FeeAdjusted(multiversXEstimate, fee.value);
    var prices := new PriceEntry[3];
    prices[0] := PriceEntry(XEXCHANGE, xExchangePrice.value);
    prices[1] := PriceEntry(PULSAR, pulsarPrice.value);
    prices[2] := PriceEntry(MULTIVERSX, afterFee);
    assert prices[..] == EffectivePrices(feeds, tokenIn, tokenOut, amountIn).value;
    SortByPriceDescending(prices);
    r := Ok(BestRate(prices[0].platform, prices[0].price, prices[..],
      Savings(SavingsPercent(prices[0].price, prices[1].price),
              SavingsPercent(prices[0].price, prices[prices.Length - 1].price))));
  }

  /** The record `calculateBestSwap` builds from a rate: the rate's fields, the trade, and
      the amount out at the best price. */
  function QuoteOf(rate: BestRate, amountIn: real, tokenIn: Token, tokenOut: Token): (q: SwapQuote)
    ensures q.amountOut == amountIn * q.bestPrice
    ensures q.bestPlatform == rate.bestPlatform && q.bestPrice == rate.bestPrice
    ensures q.allPrices == rate.allPrices && q.savings == rate.savings
    ensures q.amountIn == amountIn && q.tokenIn == tokenIn && q.tokenOut == tokenOut
  {
    SwapQuote(rate.bestPlatform, rate.bestPrice, rate.allPrices, rate.savings,
              amountIn, amountIn * rate.bestPrice, tokenIn, tokenOut)
  }

  /** `calculateBestSwap`: the best rate applied to the trade size. A failure of the rate
      search propagates with its message unchanged. */
  function CalculateBestSwap(feeds: Feeds, tokenIn: Token, tokenOut: Token, amountIn: real): (r: Result<SwapQuote>)
    ensures r.Ok? <==> RateSearch(feeds, tokenIn, tokenOut, amountIn).Ok?
    ensures r.Err? ==> r.error == BEST_RATE_FAILURE
    ensures r.Ok? ==> r.value == QuoteOf(RateSearch(feeds, tokenIn, tokenOut, amountIn).value, amountIn, tokenIn, tokenOut)
  {
    match RateSearch(feeds, tokenIn, tokenOut, amountIn)
    case Err(e) => Err(e)
    case Ok(rate) => Ok(QuoteOf(rate, amountIn, tokenIn, tokenOut))
  }

  // ---------------------------------------------------------------------------------------
  // Properties of the aggregation

  lemma RankedHeadsAgree(r: seq<PriceEntry>, q: seq<PriceEntry>)
    requires multiset(r) == multiset(q) && r != []
    requires Ranked(r) && Ranked(q)
    ensures q != [] && r[0] == q[0]
  {
    assert r[0] in multiset(q);
    var i :| 0 <= i < |q| && q[i] == r[0];
    assert q[0] in multiset(r);
    var j :| 0 <= j < |r| && r[j] == q[0];
    assert i != 0 ==> RankedBefore(q[0], r[0]);
    assert j != 0 ==> RankedBefore(r[0], q[0]);
  }

  lemma RankedTail(r: seq<PriceEntry>)
    requires Ranked(r) && r != []
    ensures Ranked(r[1..])
  {
    forall i, j | 0 <= i < j < |r[1..]| ensures RankedBefore(r[1..][i], r[1..][j]) {
      assert RankedBefore(r[i + 1], r[j + 1]);
    }
  }

  /** The stable descending order is the only one: two permutations of each other that are
      both ranked by (price descending, registration ascending) are equal. */
  lemma {:induction false} RankedPermutationUnique(r: seq<PriceEntry>, q: seq<PriceEntry>)
    requires multiset(r) == multiset(q)
    requires Ranked(r) && Ranked(q)
    ensures r == q
    decreases |r|
  {
    if r == [] {
      assert |q| == |multiset(q)| == 0;
    } else {
      RankedHeadsAgree(r, q);
      assert r == [r[0]] + r[1..] && q == [q[0]] + q[1..];
      assert multiset(r[1..]) == multiset(q[1..]) by {
        assert multiset(r[1..]) == multiset(r) - multiset{r[0]};
        assert multiset(q[1..]) == multiset(q) - multiset{q[0]};
      }
      RankedTail(r);
      RankedTail(q);
      RankedPermutationUnique(r[1..], q[1..]);
    }
  }

  /** The sort's output is the one permutation of a list in registration order that is ranked
      by (price descending, registration ascending). */
  lemma RankPricesCharacterized(s: seq<PriceEntry>, r: seq<PriceEntry>)
    requires InRegistrationOrder(s)
    requires multiset(r) == multiset(s) && Ranked(r)
    ensures r == RankPrices(s)
  {
    RankPricesStable(s);
    RankedPermutationUnique(r, RankPrices(s));
  }

  /** The greatest of three prices. */
  function Max3(a: real, b: real, c: real): real
  {
    if a >= b && a >= c then a else if b >= c then b else c
  }

  /** The head of the sorted list is an entry of the input whose price is the greatest. */
  lemma {:induction false} RankedHeadIsMaximum(s: seq<PriceEntry>)
    requires |s| == 3
    ensures RankPrices(s)[0] in s
    ensures RankPrices(s)[0].price == Max3(s[0].price, s[1].price, s[2].price)
    ensures forall e :: e in RankPrices(s) ==> e.price <= RankPrices(s)[0].price
  {
    var r := RankPrices(s);
    RankPricesSorted(s);
    SortedHeadIsMaximum(r, s);
    MaximumOfThree(s, r[0]);
  }

  lemma MaximumOfThree(s: seq<PriceEntry>, m: PriceEntry)
    requires |s| == 3 && m in s
    requires forall e :: e in s ==> e.price <= m.price
    ensures m.price == Max3(s[0].price, s[1].price, s[2].price)
  {
    assert s[0] in s && s[1] in s && s[2] in s;
  }

  /** The head of a sorted permutation is an entry of the list with the greatest price. */
  lemma SortedHeadIsMaximum(r: seq<PriceEntry>, s: seq<PriceEntry>)
    requires SortedDesc(r) && r != [] && multiset(r) == multiset(s)
    ensures r[0] in s
    ensures forall e :: e in s ==> e.price <= r[0].price
    ensures forall e :: e in r ==> e.price <= r[0].price
  {
    assert r[0] in multiset(s);
    forall e | e in s ensures e.price <= r[0].price {
      assert e in multiset(r);
      var k :| 0 <= k < |r| && r[k] == e;
    }
    forall e | e in r ensures e.price <= r[0].price {
      var k :| 0 <= k < |r| && r[k] == e;
    }
  }

  /** Comparing quotients by cross-multiplying, for positive denominators. */
  lemma QuotientsCompare(a: real, b: real, c: real, d: real)
    requires b > 0.0 && d > 0.0 && a * d <= c * b
    ensures a / b <= c / d
  {
    var x, y := a / b, c / d;
    assert x * b == a && y * d == c;
    assert b * d > 0.0;
    assert (x - y) * (b * d) == a * d - c * b;
    assert x > y ==> (x - y) * (b * d) > 0.0;
  }

  /** For a sorted list of positive prices, the savings figures are finite, the saving against
      the second best is not negative, and the saving against the worst is at least as large. */
  lemma {:induction false} SummarizeSavings(ranked: seq<PriceEntry>)
    requires |ranked| == 3 && SortedDesc(ranked)
    requires forall e :: e in ranked ==> e.price > 0.0
    ensures Summarize(ranked).savings.vsSecondBest.Finite?
    ensures Summarize(ranked).savings.vsWorst.Finite?
    ensures Summarize(ranked).savings.vsSecondBest.v >= 0.0
    ensures Summarize(ranked).savings.vsWorst.v >= Summarize(ranked).savings.vsSecondBest.v
  {
    var p0, p1, p2 := ranked[0].price, ranked[1].price, ranked[2].price;
    assert ranked[1] in ranked && ranked[2] in ranked;
    assert p1 > 0.0 && p2 > 0.0 && p0 >= p1 >= p2;
    assert (p0 - p1) * p2 <= (p0 - p2) * p1 by {
      assert p0 * p2 <= p0 * p1;
    }
    QuotientsCompare(p0 - p1, p1, p0 - p2, p2);
    assert (p0 - p1) / p1 >= 0.0;
  }

  /** The refined MultiversX unit price as the source computes it. */
  function RefinedUnit(feeds: Feeds, tokenIn: Token, tokenOut: Token, amountIn: real): real
    requires amountIn > 1.0 ==> feeds.swapEstimate(tokenIn, tokenOut, amountIn).Ok?
    requires feeds.multiversXPrice(tokenIn, tokenOut).Ok?
  {
    if amountIn > 1.0 then feeds.swapEstimate(tokenIn, tokenOut, amountIn).value / amountIn
    else feeds.multiversXPrice(tokenIn, tokenOut).value
  }

  /** A successful run summarizes the ranking of the effective prices. */
  lemma RateOfPrices(feeds: Feeds, tokenIn: Token, tokenOut: Token, amountIn: real)
    requires RateSearch(feeds, tokenIn, tokenOut, amountIn).Ok?
    ensures EffectivePrices(feeds, tokenIn, tokenOut, amountIn).Ok?
    ensures RateSearch(feeds, tokenIn, tokenOut, amountIn).value
         == Summarize(RankPrices(EffectivePrices(feeds, tokenIn, tokenOut, amountIn).value))
  {
  }

  /** The effective prices name the three venues in registration order, the first two at
      their feed prices. */
  lemma EffectivePricesShape(feeds: Feeds, tokenIn: Token, tokenOut: Token, amountIn: real)
    requires EffectivePrices(feeds, tokenIn, tokenOut, amountIn).Ok?
    ensures
      var prices := EffectivePrices(feeds, tokenIn, tokenOut, amountIn).value;
      && |prices| == 3
      && prices[0] == PriceEntry(XEXCHANGE, feeds.xExchangePrice.value)
      && prices[1] == PriceEntry(PULSAR, feeds.pulsarPrice.value)
      && prices[2].platform == MULTIVERSX
  {
  }

  lemma ShapeInRegistrationOrder(prices: seq<PriceEntry>)
    requires |prices| == 3
    requires prices[0].platform == XEXCHANGE && prices[1].platform == PULSAR && prices[2].platform == MULTIVERSX
    ensures InRegistrationOrder(prices)
  {
  }

  /** A successful run is the summary of the sorted list of the three venues in registration
      order: xExchange and Pulsar Money at their feed prices, MultiversX at its refined unit
      price net of the fee. */
  lemma RateSearchUnfold(feeds: Feeds, tokenIn: Token, tokenOut: Token, amountIn: real)
    requires RateSearch(feeds, tokenIn, tokenOut, amountIn).Ok?
    ensures EffectivePrices(feeds, tokenIn, tokenOut, amountIn).Ok?
    ensures
      var prices := EffectivePrices(feeds, tokenIn, tokenOut, amountIn).value;
      && prices == [PriceEntry(XEXCHANGE, feeds.xExchangePrice.value),
                    PriceEntry(PULSAR, feeds.pulsarPrice.value),
                    PriceEntry(MULTIVERSX, FeeAdjusted(RefinedUnit(feeds, tokenIn, tokenOut, amountIn),
                                                       feeds.swapFee(tokenIn, tokenOut).value))]
      && RateSearch(feeds, tokenIn, tokenOut, amountIn).value == Summarize(RankPrices(prices))
  {
  }

  /** The list that is ranked holds exactly the three venues, and only the MultiversX price
      is net of a fee. */
  lemma AllPricesAreTheThreeVenues(feeds: Feeds, tokenIn: Token, tokenOut: Token, amountIn: real)
    requires RateSearch(feeds, tokenIn, tokenOut, amountIn).Ok?
    ensures
      var all := RateSearch(feeds, tokenIn, tokenOut, amountIn).value.allPrices;
      && |all| == 3
      && multiset(all) == multiset{PriceEntry(XEXCHANGE, feeds.xExchangePrice.value),
                                   PriceEntry(PULSAR, feeds.pulsarPrice.value),
                                   PriceEntry(MULTIVERSX, FeeAdjusted(RefinedUnit(feeds, tokenIn, tokenOut, amountIn),
                                                                      feeds.swapFee(tokenIn, tokenOut).value))}
  {
    RateSearchUnfold(feeds, tokenIn, tokenOut, amountIn);
  }

  /** Sorting a list in registration order gives a list sorted by descending price in which
      equal prices keep registration order. */
  lemma RankedAndStable(s: seq<PriceEntry>)
    requires InRegistrationOrder(s)
    ensures SortedDesc(RankPrices(s))
    ensures forall i, j :: 0 <= i < j < |RankPrices(s)| && RankPrices(s)[i].price == RankPrices(s)[j].price ==>
              Registration(RankPrices(s)[i].platform) < Registration(RankPrices(s)[j].platform)
  {
    RankPricesSorted(s);
    RankPricesStable(s);
    var r := RankPrices(s);
    forall i, j | 0 <= i < j < |r| && r[i].price == r[j].price
      ensures Registration(r[i].platform) < Registration(r[j].platform)
    {
      assert RankedBefore(r[i], r[j]);
    }
  }

  /** `allPrices` is sorted by descending price, and equal prices keep the order xExchange,
      Pulsar Money, MultiversX. */
  lemma AllPricesSortedAndStable(feeds: Feeds, tokenIn: Token, tokenOut: Token, amountIn: real)
    requires RateSearch(feeds, tokenIn, tokenOut, amountIn).Ok?
    ensures
      var all := RateSearch(feeds, tokenIn, tokenOut, amountIn).value.allPrices;
      && SortedDesc(all)
      && forall i, j :: 0 <= i < j < |all| && all[i].price == all[j].price ==>
           Registration(all[i].platform) < Registration(all[j].platform)
  {
    RateOfPrices(feeds, tokenIn, tokenOut, amountIn);
    EffectivePricesShape(feeds, tokenIn, tokenOut, amountIn);
    var prices := EffectivePrices(feeds, tokenIn, tokenOut, amountIn).value;
    ShapeInRegistrationOrder(prices);
    RankedAndStable(prices);
  }

  /** The best venue is the head of the ranking; its price is the greatest of the three
      effective prices, and it is that venue's own price. */
  lemma BestIsMaximum(feeds: Feeds, tokenIn: Token, tokenOut: Token, amountIn: real)
    requires RateSearch(feeds, tokenIn, tokenOut, amountIn).Ok?
    ensures
      var rate := RateSearch(feeds, tokenIn, tokenOut, amountIn).value;
      var prices := EffectivePrices(feeds, tokenIn, tokenOut, amountIn).value;
      && |prices| == 3
      && rate.bestPlatform == rate.allPrices[0].platform
      && rate.bestPrice == rate.allPrices[0].price
      && PriceEntry(rate.bestPlatform, rate.bestPrice) in prices
      && rate.bestPrice == Max3(prices[0].price, prices[1].price, prices[2].price)
      && forall e :: e in rate.allPrices ==> e.price <= rate.bestPrice
  {
    RateSearchUnfold(feeds, tokenIn, tokenOut, amountIn);
    RankedHeadIsMaximum(EffectivePrices(feeds, tokenIn, tokenOut, amountIn).value);
  }

  /** With all effective prices positive, neither savings figure is negative and the saving
      against the worst venue is at least the saving against the second best. */
  lemma SavingsBounds(feeds: Feeds, tokenIn: Token, tokenOut: Token, amountIn: real)
    requires RateSearch(feeds, tokenIn, tokenOut, amountIn).Ok?
    requires forall e :: e in EffectivePrices(feeds, tokenIn, tokenOut, amountIn).value ==> e.price > 0.0
    ensures
      var savings := RateSearch(feeds, tokenIn, tokenOut, amountIn).value.savings;
      && savings.vsSecondBest.Finite? && savings.vsWorst.Finite?
      && savings.vsSecondBest.v >= 0.0
      && savings.vsWorst.v >= savings.vsSecondBest.v
  {
    RateSearchUnfold(feeds, tokenIn, tokenOut, amountIn);
    var prices := EffectivePrices(feeds, tokenIn, tokenOut, amountIn).value;
    var ranked := RankPrices(prices);
    RankPricesSorted(prices);
    forall e | e in ranked ensures e.price > 0.0 {
      assert e in multiset(prices);
    }
    SummarizeSavings(ranked);
  }

  /** The amount-based estimate is requested only for trades larger than one unit: otherwise
      its answer does not matter. */
  lemma EstimateOnlyForLargeTrades(feeds: Feeds, tokenIn: Token, tokenOut: Token, amountIn: real,
                                   otherEstimate: (Token, Token, real) -> Result<real>)
    requires amountIn <= 1.0
    ensures RateSearch(feeds.(swapEstimate := otherEstimate), tokenIn, tokenOut, amountIn)
         == RateSearch(feeds, tokenIn, tokenOut, amountIn)
  {
  }

  /** Applying the best price gives at least what any listed venue would give. */
  lemma QuoteBeatsEveryEntry(rate: BestRate, amountIn: real, tokenIn: Token, tokenOut: Token)
    requires amountIn >= 0.0
    requires forall e :: e in rate.allPrices ==> e.price <= rate.bestPrice
    ensures forall e :: e in rate.allPrices ==> amountIn * e.price <= QuoteOf(rate, amountIn, tokenIn, tokenOut).amountOut
  {
    forall e | e in rate.allPrices ensures amountIn * e.price <= amountIn * rate.bestPrice {
      assert amountIn * (rate.bestPrice - e.price) >= 0.0;
    }
  }

  /** The best venue gives the trader at least as much as any other venue would. */
  lemma BestSwapBeatsEveryVenue(feeds: Feeds, tokenIn: Token, tokenOut: Token, amountIn: real)
    requires amountIn >= 0.0
    requires CalculateBestSwap(feeds, tokenIn, tokenOut, amountIn).Ok?
    ensures
      var quote := CalculateBestSwap(feeds, tokenIn, tokenOut, amountIn).value;
      forall e :: e in quote.allPrices ==> amountIn * e.price <= quote.amountOut
  {
    BestIsMaximum(feeds, tokenIn, tokenOut, amountIn);
    QuoteBeatsEveryEntry(RateSearch(feeds, tokenIn, tokenOut, amountIn).value, amountIn, tokenIn, tokenOut);
  }

  /** The ranking when MultiversX beats xExchange, which beats Pulsar Money. */
  lemma RankMultiversXFirst(x: real, p: real, m: real)
    requires m > x > p
    ensures RankPrices([PriceEntry(XEXCHANGE, x), PriceEntry(PULSAR, p), PriceEntry(MULTIVERSX, m)])
         == [PriceEntry(MULTIVERSX, m), PriceEntry(XEXCHANGE, x), PriceEntry(PULSAR, p)]
  {
    var prices := [PriceEntry(XEXCHANGE, x), PriceEntry(PULSAR, p), PriceEntry(MULTIVERSX, m)];
    var ranked := [PriceEntry(MULTIVERSX, m), PriceEntry(XEXCHANGE, x), PriceEntry(PULSAR, p)];
    assert InRegistrationOrder(prices);
    assert multiset(ranked) == multiset(prices);
    assert Ranked(ranked);
    RankPricesCharacterized(prices, ranked);
  }

  /** A worked case: xExchange at 1.02, Pulsar Money at 1.00 and MultiversX at 1.05 with a 2%
      fee, for a trade of at most one unit. MultiversX wins at 1.029, and its saving against
      xExchange is 0.9/1.02 percent (about 0.882). */
  lemma WorkedExample(feeds: Feeds, tokenIn: Token, tokenOut: Token, amountIn: real)
    requires feeds.xExchangePrice == Ok(1.02) && feeds.pulsarPrice == Ok(1.00)
    requires feeds.multiversXPrice(tokenIn, tokenOut) == Ok(1.05)
    requires feeds.swapFee(tokenIn, tokenOut) == Ok(2.0)
    requires amountIn <= 1.0
    ensures RateSearch(feeds, tokenIn, tokenOut, amountIn).Ok?
    ensures
      var rate := RateSearch(feeds, tokenIn, tokenOut, amountIn).value;
      && rate.bestPlatform == MULTIVERSX && rate.bestPrice == 1.029
      && rate.allPrices == [PriceEntry(MULTIVERSX, 1.029), PriceEntry(XEXCHANGE, 1.02), PriceEntry(PULSAR, 1.00)]
      && rate.savings.vsSecondBest == Finite(0.9 / 1.02)
  {
    assert FeeAdjusted(1.05, 2.0) == 1.029;
    RateSearchUnfold(feeds, tokenIn, tokenOut, amountIn);
    RankMultiversXFirst(1.02, 1.00, 1.029);
    assert SavingsPercent(1.029, 1.02) == Finite(0.9 / 1.02);
  }
}
