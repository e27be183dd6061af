/** Transaction payloads for the MultiversX swap contract (`swapOnMultiversX`, `addLiquidity`,
    `removeLiquidity`). The SDK's address parsing, token-transfer formatting and the base64
    encoding of the data field are taken as given functions. */
module MultiversXContract {
  import opened Common

  /** The swap contract every payload is addressed to. */
  const SWAP_CONTRACT: string := "erd1qqqqqqqqqqqqqpgq72l6vl07fkn3alyfq753mcy4nakm0l72396qkcud5x"
  const SWAP_GAS_LIMIT: nat := 10_000_000
  const ADD_LIQUIDITY_GAS_LIMIT: nat := 15_000_000
  const REMOVE_LIQUIDITY_GAS_LIMIT: nat := 10_000_000
  /** The chain identifier of the test network. */
  const CHAIN_ID: string := "T"
  /** The number of decimals passed to `TokenTransfer.fungibleFromAmount`. */
  const TOKEN_DECIMALS: nat := 18

  const SWAP_TX_FAILURE: string := "Falha ao criar transação de swap"
  const ADD_LIQUIDITY_TX_FAILURE: string := "Falha ao criar transação de adição de liquidez"
  const REMOVE_LIQUIDITY_TX_FAILURE: string := "Falha ao criar transação de remoção de liquidez"

  /** The fields the builders give the SDK's `Transaction`; addresses are kept as the text
      they were parsed from. */
  datatype Transaction = Transaction(
    value: string, sender: string, receiver: string, gasLimit: nat, data: string, chainID: string)

  /** The SDK and library calls the builders make.
      - `isAddress(s)`: `new Address(s)` accepts `s` (otherwise it throws).
      - `tokenTransfer(token, amount, decimals)`: the text of
        `TokenTransfer.fungibleFromAmount(token, amount, decimals)`, or the error it throws.
      - `base64(s)`: `Buffer.from(s, 'utf-8').toString('base64')`. */
  datatype Sdk = Sdk(
    isAddress: string -> bool,
    tokenTransfer: (Token, string, nat) -> Result<string>,
    base64: string -> string)

  // ---------------------------------------------------------------------------------------
  // '@'-separated instruction strings

  predicate NoSeparator(s: string)
  {
    '@' !in s
  }

  /** The fields of an instruction string, as the contract reads them: the text between
      consecutive '@' characters. */
  function Split(s: string): (r: seq<string>)
    ensures |r| >= 1
    decreases |s|
  {
    if s == [] then [""]
    else
      var rest := Split(s[1..]);
      if s[0] == '@' then [""] + rest
      else [[s[0]] + rest[0]] + rest[1..]
  }

  /** Fields joined by '@'. */
  function Join(parts: seq<string>): string
    requires |parts| >= 1
  {
    if |parts| == 1 then parts[0] else parts[0] + "@" + Join(parts[1..])
  }

  lemma {:induction false} SplitField(p: string)
    requires NoSeparator(p)
    ensures Split(p) == [p]
    decreases |p|
  {
    if p != [] {
      SplitField(p[1..]);
      assert [p[0]] + p[1..] == p;
    }
  }

  lemma {:induction false} SplitFirstField(p: string, rest: string)
    requires NoSeparator(p)
    ensures Split(p + "@" + rest) == [p] + Split(rest)
    decreases |p|
  {
    var s := p + "@" + rest;
    if p == [] {
      assert s == "@" + rest;
      assert s[1..] == rest;
    } else {
      assert s[1..] == p[1..] + "@" + rest;
      SplitFirstField(p[1..], rest);
      assert [p[0]] + p[1..] == p;
    }
  }

  /** Splitting undoes joining when no field contains the separator. */
  lemma {:induction false} SplitJoin(parts: seq<string>)
    requires |parts| >= 1
    requires forall k :: 0 <= k < |parts| ==> NoSeparator(parts[k])
    ensures Split(Join(parts)) == parts
    decreases |parts|
  {
    if |parts| == 1 {
      SplitField(parts[0]);
    } else {
      SplitJoin(parts[1..]);
      SplitFirstField(parts[0], Join(parts[1..]));
      assert [parts[0]] + parts[1..] == parts;
    }
  }

  /** `swap@tokenIn@tokenOut@amountIn@minAmountOut`. */
  function SwapCall(tokenIn: Token, tokenOut: Token, amountIn: string, minAmountOut: string): string
  {
    "swap" + "@" + tokenIn + "@" + tokenOut + "@" + amountIn + "@" + minAmountOut
  }

  /** `ESDTTransfer@transfer@tokenOut@minAmountOut`. */
  function EsdtTransferCall(transfer: string, tokenOut: Token, minAmountOut: string): string
  {
    "ESDTTransfer" + "@" + transfer + "@" + tokenOut + "@" + minAmountOut
  }

  /** `addLiquidity@tokenA@tokenB@amountA@amountB`. */
  function AddLiquidityCall(tokenA: Token, tokenB: Token, amountA: string, amountB: string): string
  {
    "addLiquidity" + "@" + tokenA + "@" + tokenB + "@" + amountA + "@" + amountB
  }

  /** `removeLiquidity@tokenA@tokenB@liquidityAmount`. */
  function RemoveLiquidityCall(tokenA: Token, tokenB: Token, liquidityAmount: string): string
  {
    "removeLiquidity" + "@" + tokenA + "@" + tokenB + "@" + liquidityAmount
  }

  lemma JoinFour(a: string, b: string, c: string, d: string)
    ensures Join([a, b, c, d]) == a + "@" + b + "@" + c + "@" + d
  {
    assert [c, d][1..] == [d];
    assert Join([c, d]) == c + "@" + d;
    assert [b, c, d][1..] == [c, d];
    assert Join([b, c, d]) == b + "@" + (c + "@" + d);
    assert [a, b, c, d][1..] == [b, c, d];
    assert Join([a, b, c, d]) == a + "@" + (b + "@" + (c + "@" + d));
  }

  lemma JoinFive(a: string, b: string, c: string, d: string, e: string)
    ensures Join([a, b, c, d, e]) == a + "@" + b + "@" + c + "@" + d + "@" + e
  {
    assert [a, b, c, d, e][1..] == [b, c, d, e];
    JoinFour(b, c, d, e);
    assert Join([a, b, c, d, e]) == a + "@" + (b + "@" + c + "@" + d + "@" + e);
  }

  /** Each instruction string is its endpoint name and arguments joined by '@'. */
  lemma SwapCallIsJoin(tokenIn: Token, tokenOut: Token, amountIn: string, minAmountOut: string)
    ensures SwapCall(tokenIn, tokenOut, amountIn, minAmountOut) == Join(["swap", tokenIn, tokenOut, amountIn, minAmountOut])
  {
    JoinFive("swap", tokenIn, tokenOut, amountIn, minAmountOut);
  }

  lemma EsdtTransferCallIsJoin(transfer: string, tokenOut: Token, minAmountOut: string)
    ensures EsdtTransferCall(transfer, tokenOut, minAmountOut) == Join(["ESDTTransfer", transfer, tokenOut, minAmountOut])
  {
    JoinFour("ESDTTransfer", transfer, tokenOut, minAmountOut);
  }

  lemma AddLiquidityCallIsJoin(tokenA: Token, tokenB: Token, amountA: string, amountB: string)
    ensures AddLiquidityCall(tokenA, tokenB, amountA, amountB) == Join(["addLiquidity", tokenA, tokenB, amountA, amountB])
  {
    JoinFive("addLiquidity", tokenA, tokenB, amountA, amountB);
  }

  lemma RemoveLiquidityCallIsJoin(tokenA: Token, tokenB: Token, liquidityAmount: string)
    ensures RemoveLiquidityCall(tokenA, tokenB, liquidityAmount) == Join(["removeLiquidity", tokenA, tokenB, liquidityAmount])
  {
    JoinFour("removeLiquidity", tokenA, tokenB, liquidityAmount);
  }

  // ---------------------------------------------------------------------------------------
  // Builders

  /** The transaction `swapOnMultiversX` constructs first, before any ESDT rewrite. */
  function NewSwapTransaction(sdk: Sdk, tokenIn: Token, tokenOut: Token, amountIn: string,
                              minAmountOut: string, userAddress: string): Transaction
  {
    Transaction(
      value := if tokenIn == EGLD then amountIn else "0",
      sender := userAddress,
      receiver := SWAP_CONTRACT,
      gasLimit := SWAP_GAS_LIMIT,
      data := sdk.base64(SwapCall(tokenIn, tokenOut, amountIn, minAmountOut)),
      chainID := CHAIN_ID)
  }

  /** `swapOnMultiversX`: the native asset travels in the value field; any other token is
      announced by replacing the data with an ESDT transfer instruction. Every failure is
      reported with one fixed message. */
  function SwapOnMultiversX(sdk: Sdk, tokenIn: Token, tokenOut: Token, amountIn: string,
                            minAmountOut: string, userAddress: string): (r: Result<Transaction>)
    ensures r.Ok? <==>
      && sdk.isAddress(userAddress) && sdk.isAddress(SWAP_CONTRACT)
      && (tokenIn != EGLD ==> sdk.tokenTransfer(tokenIn, amountIn, TOKEN_DECIMALS).Ok?)
    ensures r.Err? ==> r.error == SWAP_TX_FAILURE
    ensures r.Ok? ==>
      && r.value.value == (if tokenIn == EGLD then amountIn else "0")
      && r.value.sender == userAddress
      && r.value.receiver == SWAP_CONTRACT
      && r.value.gasLimit == 10_000_000
      && r.value.chainID == "T"
    // non-EGLD input: the first transaction with only its data replaced
    ensures r.Ok? && tokenIn != EGLD ==>
      r.value == NewSwapTransaction(sdk, tokenIn, tokenOut, amountIn, minAmountOut, userAddress).(
        data := sdk.base64(EsdtTransferCall(sdk.tokenTransfer(tokenIn, amountIn, TOKEN_DECIMALS).value, tokenOut, minAmountOut)))
    ensures r.Ok? && tokenIn == EGLD ==>
      r.value == NewSwapTransaction(sdk, tokenIn, tokenOut, amountIn, minAmountOut, userAddress)
  {
    if !sdk.isAddress(userAddress) || !sdk.isAddress(SWAP_CONTRACT) then
      Err(SWAP_TX_FAILURE)
    else
      var transaction := NewSwapTransaction(sdk, tokenIn, tokenOut, amountIn, minAmountOut, userAddress);
      if tokenIn != EGLD then
        match sdk.tokenTransfer(tokenIn, amountIn, TOKEN_DECIMALS)
        case Err(_) => Err(SWAP_TX_FAILURE)
        case Ok(tokenTransfer) =>
          Ok(transaction.(data := sdk.base64(EsdtTransferCall(tokenTransfer, tokenOut, minAmountOut))))
      else
        Ok(transaction)
  }

  /** `addLiquidity`: the EGLD side of the pair, if any, travels in the value field, tokenA
      first. */
  function AddLiquidity(sdk: Sdk, tokenA: Token, tokenB: Token, amountA: string, amountB: string,
                        userAddress: string): (r: Result<Transaction>)
    ensures r.Ok? <==> sdk.isAddress(userAddress) && sdk.isAddress(SWAP_CONTRACT)
    ensures r.Err? ==> r.error == ADD_LIQUIDITY_TX_FAILURE
    ensures r.Ok? ==>
      && (tokenA == EGLD ==> r.value.value == amountA)
      && (tokenA != EGLD && tokenB == EGLD ==> r.value.value == amountB)
      && (tokenA != EGLD && tokenB != EGLD ==> r.value.value == "0")
      && r.value.sender == userAddress
      && r.value.receiver == SWAP_CONTRACT
      && r.value.gasLimit == 15_000_000
      && r.value.data == sdk.base64(AddLiquidityCall(tokenA, tokenB, amountA, amountB))
      && r.value.chainID == "T"
  {
    if !sdk.isAddress(userAddress) || !sdk.isAddress(SWAP_CONTRACT) then
      Err(ADD_LIQUIDITY_TX_FAILURE)
    else
      Ok(Transaction(
        value := if tokenA == EGLD then amountA else (if tokenB == EGLD then amountB else "0"),
        sender := userAddress,
        receiver := SWAP_CONTRACT,
        gasLimit := ADD_LIQUIDITY_GAS_LIMIT,
        data := sdk.base64(AddLiquidityCall(tokenA, tokenB, amountA, amountB)),
        chainID := CHAIN_ID))
  }

  /** `removeLiquidity`: nothing travels in the value field. */
  function RemoveLiquidity(sdk: Sdk, tokenA: Token, tokenB: Token, liquidityAmount: string,
                           userAddress: string): (r: Result<Transaction>)
    ensures r.Ok? <==> sdk.isAddress(userAddress) && sdk.isAddress(SWAP_CONTRACT)
    ensures r.Err? ==> r.error == REMOVE_LIQUIDITY_TX_FAILURE
    ensures r.Ok? ==>
      && r.value.value == "0"
      && r.value.sender == userAddress
      && r.value.receiver == SWAP_CONTRACT
      && r.value.gasLimit == 10_000_000
      && r.value.data == sdk.base64(RemoveLiquidityCall(tokenA, tokenB, liquidityAmount))
      && r.value.chainID == "T"
  {
    if !sdk.isAddress(userAddress) || !sdk.isAddress(SWAP_CONTRACT) then
      Err(REMOVE_LIQUIDITY_TX_FAILURE)
    else
      Ok(Transaction(
        value := "0",
        sender := userAddress,
        receiver := SWAP_CONTRACT,
        gasLimit := REMOVE_LIQUIDITY_GAS_LIMIT,
        data := sdk.base64(RemoveLiquidityCall(tokenA, tokenB, liquidityAmount)),
        chainID := CHAIN_ID))
  }

  // ---------------------------------------------------------------------------------------
  // What the contract reads back

  /** `decode` inverts the SDK's encoding of the data field. */
  ghost predicate Decodes(sdk: Sdk, decode: string -> string)
  {
    forall s :: decode(sdk.base64(s)) == s
  }

  /** Decoding the data of a swap payload and splitting it at '@' gives back the endpoint and
      its arguments: the swap call for EGLD input, the ESDT transfer call otherwise. */
  lemma SwapPayloadFields(sdk: Sdk, decode: string -> string, tokenIn: Token, tokenOut: Token,
                          amountIn: string, minAmountOut: string, userAddress: string)
    requires Decodes(sdk, decode)
    requires SwapOnMultiversX(sdk, tokenIn, tokenOut, amountIn, minAmountOut, userAddress).Ok?
    requires NoSeparator(tokenIn) && NoSeparator(tokenOut) && NoSeparator(amountIn) && NoSeparator(minAmountOut)
    requires tokenIn != EGLD ==> NoSeparator(sdk.tokenTransfer(tokenIn, amountIn, TOKEN_DECIMALS).value)
    ensures
      var fields := Split(decode(SwapOnMultiversX(sdk, tokenIn, tokenOut, amountIn, minAmountOut, userAddress).value.data));
      if tokenIn == EGLD then fields == ["swap", tokenIn, tokenOut, amountIn, minAmountOut]
      else fields == ["ESDTTransfer", sdk.tokenTransfer(tokenIn, amountIn, TOKEN_DECIMALS).value, tokenOut, minAmountOut]
  {
    if tokenIn == EGLD {
      var parts := ["swap", tokenIn, tokenOut, amountIn, minAmountOut];
      SwapCallIsJoin(tokenIn, tokenOut, amountIn, minAmountOut);
      SplitJoin(parts);
    } else {
      var transfer := sdk.tokenTransfer(tokenIn, amountIn, TOKEN_DECIMALS).value;
      var parts := ["ESDTTransfer", transfer, tokenOut, minAmountOut];
      EsdtTransferCallIsJoin(transfer, tokenOut, minAmountOut);
      SplitJoin(parts);
    }
  }

  /** Decoding the data of an add-liquidity payload gives back the pair and both amounts. */
  lemma AddLiquidityPayloadFields(sdk: Sdk, decode: string -> string, tokenA: Token, tokenB: Token,
                                  amountA: string, amountB: string, userAddress: string)
    requires Decodes(sdk, decode)
    requires AddLiquidity(sdk, tokenA, tokenB, amountA, amountB, userAddress).Ok?
    requires NoSeparator(tokenA) && NoSeparator(tokenB) && NoSeparator(amountA) && NoSeparator(amountB)
    ensures Split(decode(AddLiquidity(sdk, tokenA, tokenB, amountA, amountB, userAddress).value.data))
         == ["addLiquidity", tokenA, tokenB, amountA, amountB]
  {
    var parts := ["addLiquidity", tokenA, tokenB, amountA, amountB];
    AddLiquidityCallIsJoin(tokenA, tokenB, amountA, amountB);
    SplitJoin(parts);
  }

  /** Decoding the data of a remove-liquidity payload gives back the pair and the amount. */
  lemma RemoveLiquidityPayloadFields(sdk: Sdk, decode: string -> string, tokenA: Token, tokenB: Token,
                                     liquidityAmount: string, userAddress: string)
    requires Decodes(sdk, decode)
    requires RemoveLiquidity(sdk, tokenA, tokenB, liquidityAmount, userAddress).Ok?
    requires NoSeparator(tokenA) && NoSeparator(tokenB) && NoSeparator(liquidityAmount)
    ensures Split(decode(RemoveLiquidity(sdk, tokenA, tokenB, liquidityAmount, userAddress).value.data))
         == ["removeLiquidity", tokenA, tokenB, liquidityAmount]
  {
    var parts := ["removeLiquidity", tokenA, tokenB, liquidityAmount];
    RemoveLiquidityCallIsJoin(tokenA, tokenB, liquidityAmount);
    SplitJoin(parts);
  }
}
