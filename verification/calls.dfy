/** The six inner call descriptors the signer builds, one per operation, with their fixed
    parameter-type lists. The three swaps declare the executor's `to` and `data`
    parameters but supply values only for the signed prefix. */
module Calls {
  import opened Wrappers
  import opened Abi
  import opened ParamTree

  function Uint256(name: string): ParamType { ParamType(name, "uint256", false) }
  function AddressParam(name: string): ParamType { ParamType(name, "address", false) }

  /** The execution parameters a swap executor appends later: declared, never signed. */
  const SwapExecutionTypes: seq<ParamType> := [AddressParam("to"), ParamType("data", "bytes", false)]

  /** `cancel(bitmapIndex, bit)`, fully signed: a value for each of its two types. */
  function CancelCall(bitmapIndex: Value, bit: Value): (r: FunctionCall)
    ensures r.functionName == "cancel" && Flat(r)
    ensures |r.paramTypes| == |r.params| == 2
    ensures r.paramTypes[0].name == "bitmapIndex" && r.params[0] == bitmapIndex
    ensures r.paramTypes[1].name == "bit" && r.params[1] == bit
  {
    FunctionCall("cancel", [Uint256("bitmapIndex"), Uint256("bit")], [bitmapIndex, bit])
  }

  /** `ethTransfer`, fully signed: five values for five types, the expiry last. */
  function EthTransferCall(bitmapIndex: Value, bit: Value, recipient: Value, amount: Value, expiryBlock: Value)
    : (r: FunctionCall)
    ensures r.functionName == "ethTransfer" && Flat(r)
    ensures |r.paramTypes| == |r.params| == 5
    ensures r.paramTypes[2].name == "recipient" && r.params[2] == recipient
    ensures r.paramTypes[3].name == "amount" && r.params[3] == amount
    ensures r.paramTypes[4] == Uint256("expiryBlock") && r.params[4] == expiryBlock
  {
    FunctionCall("ethTransfer",
      [Uint256("bitmapIndex"), Uint256("bit"), AddressParam("recipient"), Uint256("amount"), Uint256("expiryBlock")],
      [bitmapIndex, bit, recipient, amount, expiryBlock])
  }

  /** `tokenTransfer`, fully signed: six values for six types, the expiry last. */
  function TokenTransferCall(bitmapIndex: Value, bit: Value, token: Value, recipient: Value, amount: Value, expiryBlock: Value)
    : (r: FunctionCall)
    ensures r.functionName == "tokenTransfer" && Flat(r)
    ensures |r.paramTypes| == |r.params| == 6
    ensures r.paramTypes[2].name == "token" && r.params[2] == token
    ensures r.paramTypes[3].name == "recipient" && r.params[3] == recipient
    ensures r.paramTypes[5] == Uint256("expiryBlock") && r.params[5] == expiryBlock
  {
    FunctionCall("tokenTransfer",
      [Uint256("bitmapIndex"), Uint256("bit"), AddressParam("token"), AddressParam("recipient"),
       Uint256("amount"), Uint256("expiryBlock")],
      [bitmapIndex, bit, token, recipient, amount, expiryBlock])
  }

  /** `ethToToken`, partially signed: six trade values, then `to` and `data` without values. */
  function EthToTokenCall(bitmapIndex: Value, bit: Value, token: Value, ethAmount: Value, tokenAmount: Value, expiryBlock: Value)
    : (r: FunctionCall)
    ensures r.functionName == "ethToToken" && SignsOnlyTradePrefix(r) && |r.params| == 6
    ensures r.paramTypes[3].name == "ethAmount" && r.params[3] == ethAmount
    ensures r.paramTypes[4].name == "tokenAmount" && r.params[4] == tokenAmount
    ensures r.paramTypes[5] == Uint256("expiryBlock") && r.params[5] == expiryBlock
  {
    FunctionCall("ethToToken",
      [Uint256("bitmapIndex"), Uint256("bit"), AddressParam("token"), Uint256("ethAmount"),
       Uint256("tokenAmount"), Uint256("expiryBlock")] + SwapExecutionTypes,
      [bitmapIndex, bit, token, ethAmount, tokenAmount, expiryBlock])
  }

  /** `tokenToEth`, partially signed: six trade values, then `to` and `data` without values. */
  function TokenToEthCall(bitmapIndex: Value, bit: Value, token: Value, tokenAmount: Value, ethAmount: Value, expiryBlock: Value)
    : (r: FunctionCall)
    ensures r.functionName == "tokenToEth" && SignsOnlyTradePrefix(r) && |r.params| == 6
    ensures r.paramTypes[3].name == "tokenAmount" && r.params[3] == tokenAmount
    ensures r.paramTypes[4].name == "ethAmount" && r.params[4] == ethAmount
    ensures r.paramTypes[5] == Uint256("expiryBlock") && r.params[5] == expiryBlock
  {
    FunctionCall("tokenToEth",
      [Uint256("bitmapIndex"), Uint256("bit"), AddressParam("token"), Uint256("tokenAmount"),
       Uint256("ethAmount"), Uint256("expiryBlock")] + SwapExecutionTypes,
      [bitmapIndex, bit, token, tokenAmount, ethAmount, expiryBlock])
  }

  /** `tokenToToken`, partially signed: seven trade values, then `to` and `data` without values. */
  function TokenToTokenCall(bitmapIndex: Value, bit: Value, tokenIn: Value, tokenOut: Value,
                            tokenInAmount: Value, tokenOutAmount: Value, expiryBlock: Value): (r: FunctionCall)
    ensures r.functionName == "tokenToToken" && SignsOnlyTradePrefix(r) && |r.params| == 7
    ensures r.paramTypes[2].name == "tokenIn" && r.params[2] == tokenIn
    ensures r.paramTypes[3].name == "tokenOut" && r.params[3] == tokenOut
    ensures r.paramTypes[4].name == "tokenInAmount" && r.params[4] == tokenInAmount
    ensures r.paramTypes[5].name == "tokenOutAmount" && r.params[5] == tokenOutAmount
    ensures r.paramTypes[6] == Uint256("expiryBlock") && r.params[6] == expiryBlock
  {
    FunctionCall("tokenToToken",
      [Uint256("bitmapIndex"), Uint256("bit"), AddressParam("tokenIn"), AddressParam("tokenOut"),
       Uint256("tokenInAmount"), Uint256("tokenOutAmount"), Uint256("expiryBlock")] + SwapExecutionTypes,
      [bitmapIndex, bit, tokenIn, tokenOut, tokenInAmount, tokenOutAmount, expiryBlock])
  }

  /** JavaScript's default parameter `expiryBlock=MAX_UINT_256`: it applies when the
      argument is `undefined`, and only then. */
  function DefaultExpiry(expiryBlock: Value): (r: Value)
    ensures r != Undefined
    ensures expiryBlock == Undefined ==> r == UInt(MaxUint256)
    ensures expiryBlock != Undefined ==> r == expiryBlock
  {
    if expiryBlock == Undefined then UInt(MaxUint256) else expiryBlock
  }

  /** A descriptor with no `calldata` type. */
  predicate Flat(call: FunctionCall)
  {
    forall i :: 0 <= i < |call.paramTypes| ==> !call.paramTypes[i].calldata
  }

  /** A flat descriptor always parses, into one leaf per type holding the value at the
      same index (or `undefined` past the end of the values). */
  lemma FlatParse(encode: FunctionCall -> string, call: FunctionCall)
    requires Flat(call)
    ensures ParseParams(encode, call).Success?
    ensures var tree := ParseParams(encode, call).value;
      |tree| == |call.paramTypes| &&
      forall i :: 0 <= i < |call.paramTypes| ==>
        tree[i] == ParsedParam(call.paramTypes[i].name, call.paramTypes[i].typ, ValueAt(call.params, i), None)
  {
    ParseParamsDefined(encode, call);
    ParseParamsShape(encode, call);
  }

  /** A flat descriptor with a value for every type gives its exact types and values
      back from its parse tree. */
  lemma FlatRoundTrip(encode: FunctionCall -> string, call: FunctionCall)
    requires Flat(call) && |call.params| == |call.paramTypes|
    ensures ParseParams(encode, call).Success?
    ensures Unparse(ParseParams(encode, call).value) == (call.paramTypes, call.params)
  {
    assert Complete(call);
    RoundTrip(encode, call);
  }

  /** Cancel and the transfers are fully signed: every declared parameter has its value,
      so their parse trees give the exact calls back. */
  lemma FullySignedCallsRoundTrip(encode: FunctionCall -> string, bitmapIndex: Value, bit: Value, token: Value,
                                  recipient: Value, amount: Value, expiryBlock: Value)
    ensures var c := CancelCall(bitmapIndex, bit);
      ParseParams(encode, c).Success? && Unparse(ParseParams(encode, c).value) == (c.paramTypes, c.params)
    ensures var c := EthTransferCall(bitmapIndex, bit, recipient, amount, expiryBlock);
      ParseParams(encode, c).Success? && Unparse(ParseParams(encode, c).value) == (c.paramTypes, c.params)
    ensures var c := TokenTransferCall(bitmapIndex, bit, token, recipient, amount, expiryBlock);
      ParseParams(encode, c).Success? && Unparse(ParseParams(encode, c).value) == (c.paramTypes, c.params)
  {
    FlatRoundTrip(encode, CancelCall(bitmapIndex, bit));
    FlatRoundTrip(encode, EthTransferCall(bitmapIndex, bit, recipient, amount, expiryBlock));
    FlatRoundTrip(encode, TokenTransferCall(bitmapIndex, bit, token, recipient, amount, expiryBlock));
  }

  /** The partial-signing split of a swap call: the declared types are the signed trade
      parameters followed by `to` and `data`; the values are exactly the signed ones. */
  predicate SignsOnlyTradePrefix(call: FunctionCall)
  {
    |call.paramTypes| == |call.params| + 2 &&
    call.paramTypes[|call.params|..] == SwapExecutionTypes &&
    Flat(call)
  }

  /** The parse tree of a partially signed call: the signed prefix carries its values,
      the `to` and `data` leaves carry `undefined`. */
  lemma PartialParse(encode: FunctionCall -> string, call: FunctionCall)
    requires SignsOnlyTradePrefix(call)
    ensures ParseParams(encode, call).Success?
    ensures var tree := ParseParams(encode, call).value; var n := |call.params|;
      |tree| == n + 2 &&
      (forall i :: 0 <= i < n ==> tree[i].value == call.params[i]) &&
      tree[n] == ParsedParam("to", "address", Undefined, None) &&
      tree[n + 1] == ParsedParam("data", "bytes", Undefined, None)
  {
    FlatParse(encode, call);
    var n := |call.params|;
    assert call.paramTypes[n] == call.paramTypes[n..][0];
    assert call.paramTypes[n + 1] == call.paramTypes[n..][1];
  }
}
