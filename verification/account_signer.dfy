/** `AccountSigner`: the signing facade. It holds the identity fixed at construction and
    turns each operation into a signed meta delegate call. */
module AccountSigners {
  import opened Wrappers
  import opened Abi
  import opened Collaborators
  import opened Encoding
  import opened ParamTree
  import opened Calls

  /** One entry of `environment.deployments`. */
  datatype Deployment = Deployment(name: string, address: Address)

  datatype Environment = Environment(chainId: nat, deployments: seq<Deployment>)

  /** What every signing operation resolves to. */
  datatype SignedCall = SignedCall(
    message: string,
    signature: string,
    signer: Address,
    accountAddress: Address,
    functionName: string,
    signedParams: seq<ParsedParam>)

  /** The contract-name-to-address table built from the deployments, one assignment per
      deployment in list order. */
  function ContractsTable(deployments: seq<Deployment>): (table: map<string, Address>)
    ensures table == map[] <==> deployments == []
    ensures deployments != [] ==>
      var last := deployments[|deployments| - 1];
      last.name in table && table[last.name] == last.address
  {
    if deployments == [] then map[]
    else
      var last := deployments[|deployments| - 1];
      ContractsTable(deployments[..|deployments| - 1])[last.name := last.address]
  }

  /** A name is in the table exactly when some deployment has it, and it maps to the
      address of the LAST deployment with that name. */
  lemma {:induction false} ContractsTableLookup(deployments: seq<Deployment>, name: string)
    ensures name in ContractsTable(deployments) <==> exists i :: 0 <= i < |deployments| && deployments[i].name == name
    ensures name in ContractsTable(deployments) ==>
      exists i :: 0 <= i < |deployments| && deployments[i].name == name &&
        ContractsTable(deployments)[name] == deployments[i].address &&
        forall j :: i < j < |deployments| ==> deployments[j].name != name
  {
    if deployments != [] {
      var n := |deployments| - 1;
      var init := deployments[..n];
      var last := deployments[n];
      assert ContractsTable(deployments) == ContractsTable(init)[last.name := last.address];
      if last.name == name {
        assert ContractsTable(deployments)[name] == deployments[n].address;
      } else {
        ContractsTableLookup(init, name);
        if name in ContractsTable(init) {
          var i :| 0 <= i < |init| && init[i].name == name &&
            ContractsTable(init)[name] == init[i].address &&
            forall j :: i < j < |init| ==> init[j].name != name;
          assert deployments[i] == init[i];
        } else {
          forall i | 0 <= i < |deployments|
            ensures deployments[i].name != name
          {
            if i < n {
              assert deployments[i] == init[i];
            }
          }
        }
      }
    }
  }

  /** `this.contracts.<name>`, absent when no deployment has that name. */
  function Get(contracts: map<string, Address>, name: string): Option<Address>
  {
    if name in contracts then Some(contracts[name]) else None
  }

  /** `this.contracts.<name>` as a parameter value: an absent name reads as `undefined`. */
  function Contract(contracts: map<string, Address>, name: string): (v: Value)
    ensures v == Undefined <==> name !in contracts
    ensures name in contracts ==> v == Str(contracts[name])
  {
    match Get(contracts, name)
    case Some(address) => Str(address)
    case None => Undefined
  }

  /** The shape the envelope parameter-type tables are used with: the target address,
      then the inner call as `calldata`. */
  predicate EnvelopeTypes(types: seq<ParamType>)
  {
    |types| == 2 && !types[0].calldata && types[1].calldata
  }

  /** Encoding an envelope `[to, call]`: it fails, before anything is signed, exactly when
      the target is `undefined`; otherwise it is the target's text and the call's ABI
      encoding. */
  lemma EnvelopeEncoding(deps: Collaborators, types: seq<ParamType>, to: Value, call: FunctionCall)
    requires EnvelopeTypes(types)
    ensures EncodedParams(deps, types, [to, Nested(call)]) ==
      if to == Undefined then Failure(ParamUndefined(0))
      else Success([deps.toText(to), deps.encodeFunctionCall(call)])
  {
    var params := [to, Nested(call)];
    EncodedParamsMeaning(deps, types, params);
    if to == Undefined {
      assert !Encodable(types, params, 0);
    } else {
      assert Encodable(types, params, 0) && Encodable(types, params, 1);
      var e := EncodedParams(deps, types, params).value;
      assert e == [e[0], e[1]];
    }
  }

  /** The parse tree of an envelope: the target as a leaf, then the encoded inner call
      with the inner call's own tree beneath it. */
  lemma EnvelopeTree(encode: FunctionCall -> string, name: string, types: seq<ParamType>, to: Value, call: FunctionCall)
    requires EnvelopeTypes(types)
    requires ParseParams(encode, call).Success?
    ensures ParseParams(encode, FunctionCall(name, types, [to, Nested(call)])) ==
      Success([ParsedParam(types[0].name, types[0].typ, to, None),
               ParsedParam(types[1].name, types[1].typ, Str(encode(call)),
                           Some(ParsedCall(call.functionName, ParseParams(encode, call).value)))])
  {
    var outer := FunctionCall(name, types, [to, Nested(call)]);
    ParseParamsDefined(encode, outer);
    assert SlotParses(encode, types[1], ValueAt(outer.params, 1));
    ParseParamsShape(encode, outer);
    var tree := ParseParams(encode, outer).value;
    assert EntryFor(encode, types[0], to, tree[0]);
    assert EntryFor(encode, types[1], Nested(call), tree[1]);
    assert tree == [tree[0], tree[1]];
  }

  class AccountSigner {
    const deps: Collaborators
    const accountVersion: string
    const environment: Environment
    const signer: Signer
    const chainId: nat
    const contracts: map<string, Address>
    const accountAddress: Address

    constructor (deps: Collaborators, accountVersion: string, environment: Environment, signer: Signer,
                 accountDeploymentSalt: string)
      ensures this.deps == deps && this.accountVersion == accountVersion
      ensures this.environment == environment && this.signer == signer
      ensures chainId == environment.chainId
      ensures contracts == ContractsTable(environment.deployments)
      ensures accountAddress == deps.computeAccountAddress(
        Get(contracts, "singletonFactory"), Get(contracts, "account"),
        signer.address, environment.chainId, accountDeploymentSalt)
    {
      this.deps := deps;
      this.accountVersion := accountVersion;
      this.environment := environment;
      this.signer := signer;
      this.chainId := environment.chainId;
      var table: map<string, Address> := map[];
      var i := 0;
      while i < |environment.deployments|
        invariant 0 <= i <= |environment.deployments|
        invariant table == ContractsTable(environment.deployments[..i])
      {
        var d := environment.deployments[i];
        assert environment.deployments[..i + 1][..i] == environment.deployments[..i];
        table := table[d.name := d.address];
        i := i + 1;
      }
      assert environment.deployments[..i] == environment.deployments;
      this.contracts := table;
      this.accountAddress := deps.computeAccountAddress(
        Get(table, "singletonFactory"), Get(table, "account"),
        signer.address, environment.chainId, accountDeploymentSalt);
    }

    /** The typed data for a message: the domain is always this instance's account
        version, chain id and account address. */
    function TypedDataFor(functionName: string, paramTypes: seq<ParamType>, encoded: seq<string>): TypedData
    {
      deps.typedDataEIP712(RequestFor(functionName, paramTypes, encoded))
    }

    function RequestFor(functionName: string, paramTypes: seq<ParamType>, encoded: seq<string>): TypedDataRequest
    {
      TypedDataRequest(accountVersion, chainId, accountAddress, functionName, paramTypes, encoded)
    }

    /** What `signFunctionCall` returns, and the signer's request log afterwards, given
        the log before. */
    function Outcome(functionName: string, paramTypes: seq<ParamType>, params: seq<Value>, log: seq<TypedData>)
      : (o: (Result<SignedCall, SignError>, seq<TypedData>))
      // An encoding failure throws before the signer is asked.
      ensures EncodedParams(deps, paramTypes, params).Failure? ==>
        o == (Failure(EncodedParams(deps, paramTypes, params).error), log)
      // Otherwise the signer is asked exactly once, for the typed data of this instance's domain.
      ensures EncodedParams(deps, paramTypes, params).Success? ==>
        o.1 == log + [TypedDataFor(functionName, paramTypes, EncodedParams(deps, paramTypes, params).value)]
      // The result carries the hash, the signer's answer, both addresses, the name and the tree.
      ensures o.0.Success? ==>
        |o.1| == |log| + 1 &&
        o.0.value.message == o.1[|log|].typedDataHash &&
        signer.respond(o.1[|log|], |log|) == Success(o.0.value.signature) &&
        o.0.value.signer == signer.address &&
        o.0.value.accountAddress == accountAddress &&
        o.0.value.functionName == functionName &&
        ParseParams(deps.encodeFunctionCall, FunctionCall(functionName, paramTypes, params)) == Success(o.0.value.signedParams)
      // When encoding, the signer and the parse all succeed, so does the call.
      ensures (EncodedParams(deps, paramTypes, params).Success? &&
               signer.respond(TypedDataFor(functionName, paramTypes, EncodedParams(deps, paramTypes, params).value), |log|).Success? &&
               ParseParams(deps.encodeFunctionCall, FunctionCall(functionName, paramTypes, params)).Success?)
        ==> o.0.Success?
      // A signer failure is passed on unchanged.
      ensures |o.1| == |log| + 1 && signer.respond(o.1[|log|], |log|).Failure? ==>
        o.0 == Failure(SignerFailed(signer.respond(o.1[|log|], |log|).error))
    {
      match EncodedParams(deps, paramTypes, params)
      case Failure(e) => (Failure(e), log)
      case Success(encoded) =>
        var typed := TypedDataFor(functionName, paramTypes, encoded);
        var asked := log + [typed];
        match signer.respond(typed, |log|)
        case Failure(reason) => (Failure(SignerFailed(reason)), asked)
        case Success(signature) =>
          match ParseParams(deps.encodeFunctionCall, FunctionCall(functionName, paramTypes, params))
          case Failure(e) => (Failure(e), asked)
          case Success(tree) =>
            (Success(SignedCall(typed.typedDataHash, signature, signer.address, accountAddress, functionName, tree)), asked)
    }

    method SignCancel(bitmapIndex: Value, bit: Value) returns (r: Result<SignedCall, SignError>)
      modifies signer
      ensures (r, signer.requests) == Outcome("metaDelegateCall", deps.metaDelegateCallSignedParamTypes,
        [Contract(contracts, "cancelVerifier"), Nested(CancelCall(bitmapIndex, bit))], old(signer.requests))
    {
      r := SignMetaDelegateCall(Contract(contracts, "cancelVerifier"), CancelCall(bitmapIndex, bit));
    }

    method SignEthTransfer(bitmapIndex: Value, bit: Value, recipient: Value, amount: Value, expiryBlock: Value)
      returns (r: Result<SignedCall, SignError>)
      modifies signer
      ensures (r, signer.requests) == Outcome("metaDelegateCall", deps.metaDelegateCallSignedParamTypes,
        [Contract(contracts, "transferVerifier"), Nested(EthTransferCall(bitmapIndex, bit, recipient, amount, expiryBlock))],
        old(signer.requests))
    {
      r := SignMetaDelegateCall(Contract(contracts, "transferVerifier"),
        EthTransferCall(bitmapIndex, bit, recipient, amount, expiryBlock));
    }

    method SignTokenTransfer(bitmapIndex: Value, bit: Value, token: Value, recipient: Value, amount: Value,
                             expiryBlock: Value)
      returns (r: Result<SignedCall, SignError>)
      modifies signer
      ensures (r, signer.requests) == Outcome("metaDelegateCall", deps.metaDelegateCallSignedParamTypes,
        [Contract(contracts, "transferVerifier"),
         Nested(TokenTransferCall(bitmapIndex, bit, token, recipient, amount, expiryBlock))],
        old(signer.requests))
    {
      r := SignMetaDelegateCall(Contract(contracts, "transferVerifier"),
        TokenTransferCall(bitmapIndex, bit, token, recipient, amount, expiryBlock));
    }

    /** A swap: the verifier runs first; if it throws, nothing is encoded or signed. */
    function SwapOutcome(check: Check, call: FunctionCall, log: seq<TypedData>)
      : (o: (Result<SignedCall, SignError>, seq<TypedData>))
      ensures check.Fail? ==> o == (Failure(Invalid(check.reason)), log)
      ensures check.Pass? ==> o == Outcome("metaPartialSignedDelegateCall",
        deps.metaPartialSignedDelegateCallSignedParamTypes,
        [Contract(contracts, "limitSwapVerifier"), Nested(call)], log)
    {
      match check
      case Fail(reason) => (Failure(Invalid(reason)), log)
      case Pass =>
        Outcome("metaPartialSignedDelegateCall", deps.metaPartialSignedDelegateCallSignedParamTypes,
          [Contract(contracts, "limitSwapVerifier"), Nested(call)], log)
    }

    method SignEthToTokenSwap(bitmapIndex: Value, bit: Value, token: Value, ethAmount: Value, tokenAmount: Value,
                              expiryBlock: Value)
      returns (r: Result<SignedCall, SignError>)
      modifies signer
      ensures var expiry := DefaultExpiry(expiryBlock);
        (r, signer.requests) == SwapOutcome(deps.verifyEthToTokenSwap(token, ethAmount, tokenAmount, expiry),
          EthToTokenCall(bitmapIndex, bit, token, ethAmount, tokenAmount, expiry), old(signer.requests))
    {
      var expiry := DefaultExpiry(expiryBlock);
      var check := deps.verifyEthToTokenSwap(token, ethAmount, tokenAmount, expiry);
      if check.Fail? {
        return Failure(Invalid(check.reason));
      }
      r := SignMetaPartialSignedDelegateCall(Contract(contracts, "limitSwapVerifier"),
        EthToTokenCall(bitmapIndex, bit, token, ethAmount, tokenAmount, expiry));
    }

    /** The verifier is called with the token address twice and without `tokenAmount`,
        as the source does. */
    method SignTokenToEthSwap(bitmapIndex: Value, bit: Value, token: Value, tokenAmount: Value, ethAmount: Value,
                              expiryBlock: Value)
      returns (r: Result<SignedCall, SignError>)
      modifies signer
      ensures var expiry := DefaultExpiry(expiryBlock);
        (r, signer.requests) == SwapOutcome(deps.verifyTokenToEthSwap(token, token, ethAmount, expiry),
          TokenToEthCall(bitmapIndex, bit, token, tokenAmount, ethAmount, expiry), old(signer.requests))
    {
      var expiry := DefaultExpiry(expiryBlock);
      var check := deps.verifyTokenToEthSwap(token, token, ethAmount, expiry);
      if check.Fail? {
        return Failure(Invalid(check.reason));
      }
      r := SignMetaPartialSignedDelegateCall(Contract(contracts, "limitSwapVerifier"),
        TokenToEthCall(bitmapIndex, bit, token, tokenAmount, ethAmount, expiry));
    }

    method SignTokenToTokenSwap(bitmapIndex: Value, bit: Value, tokenIn: Value, tokenOut: Value,
                                tokenInAmount: Value, tokenOutAmount: Value, expiryBlock: Value)
      returns (r: Result<SignedCall, SignError>)
      modifies signer
      ensures var expiry := DefaultExpiry(expiryBlock);
        (r, signer.requests) == SwapOutcome(
          deps.verifyTokenToTokenSwap(tokenIn, tokenOut, tokenInAmount, tokenOutAmount, expiry),
          TokenToTokenCall(bitmapIndex, bit, tokenIn, tokenOut, tokenInAmount, tokenOutAmount, expiry),
          old(signer.requests))
    {
      var expiry := DefaultExpiry(expiryBlock);
      var check := deps.verifyTokenToTokenSwap(tokenIn, tokenOut, tokenInAmount, tokenOutAmount, expiry);
      if check.Fail? {
        return Failure(Invalid(check.reason));
      }
      r := SignMetaPartialSignedDelegateCall(Contract(contracts, "limitSwapVerifier"),
        TokenToTokenCall(bitmapIndex, bit, tokenIn, tokenOut, tokenInAmount, tokenOutAmount, expiry));
    }

    method SignMetaDelegateCall(toAddress: Value, call: FunctionCall) returns (r: Result<SignedCall, SignError>)
      modifies signer
      ensures (r, signer.requests) == Outcome("metaDelegateCall", deps.metaDelegateCallSignedParamTypes,
        [toAddress, Nested(call)], old(signer.requests))
    {
      r := SignFunctionCall("metaDelegateCall", deps.metaDelegateCallSignedParamTypes, [toAddress, Nested(call)]);
    }

    method SignMetaPartialSignedDelegateCall(toAddress: Value, call: FunctionCall)
      returns (r: Result<SignedCall, SignError>)
      modifies signer
      ensures (r, signer.requests) == Outcome("metaPartialSignedDelegateCall",
        deps.metaPartialSignedDelegateCallSignedParamTypes, [toAddress, Nested(call)], old(signer.requests))
    {
      r := SignFunctionCall("metaPartialSignedDelegateCall", deps.metaPartialSignedDelegateCallSignedParamTypes,
        [toAddress, Nested(call)]);
    }

    method SignFunctionCall(functionName: string, paramTypes: seq<ParamType>, params: seq<Value>)
      returns (r: Result<SignedCall, SignError>)
      modifies signer
      ensures (r, signer.requests) == Outcome(functionName, paramTypes, params, old(signer.requests))
    {
      EncodedParamsMeaning(deps, paramTypes, params);
      var encodedParams: seq<string> := [];
      var i := 0;
      while i < |params|
        invariant 0 <= i <= |params| && |encodedParams| == i
        invariant forall j :: 0 <= j < i ==>
          Encodable(paramTypes, params, j) &&
          encodedParams[j] == if paramTypes[j].calldata then deps.encodeFunctionCall(params[j].call) else deps.toText(params[j])
        invariant signer.requests == old(signer.requests)
      {
        var encoded := EncodeParam(deps, paramTypes, params, i);
        if encoded.Failure? {
          return Failure(encoded.error);
        }
        encodedParams := encodedParams + [encoded.value];
        i := i + 1;
      }
      assert EncodedParams(deps, paramTypes, params).value == encodedParams;
      var typed := TypedDataFor(functionName, paramTypes, encodedParams);
      var signature := SignMessage(typed);
      if signature.Failure? {
        return Failure(SignerFailed(signature.error));
      }
      var tree := ParseParams(deps.encodeFunctionCall, FunctionCall(functionName, paramTypes, params));
      if tree.Failure? {
        return Failure(tree.error);
      }
      r := Success(SignedCall(typed.typedDataHash, signature.value, signer.address, accountAddress, functionName,
        tree.value));
    }

    /** `_signMessage`: one request to the external signer. */
    method SignMessage(typed: TypedData) returns (r: Result<string, string>)
      modifies signer
      ensures signer.requests == old(signer.requests) + [typed]
      ensures r == signer.respond(typed, |old(signer.requests)|)
    {
      r := signer.Sign(typed);
    }
  }

  /** An envelope `[to, call]` signed under a well-shaped type table: an `undefined`
      target throws before the signer is asked; otherwise the signer is asked once, for
      the target's text and the call's encoding, the operation succeeds exactly when the
      signer does, and `signedParams` holds the target, then the encoded call with its
      own tree. */
  lemma EnvelopeOutcome(s: AccountSigner, envelope: string, types: seq<ParamType>, to: Value, call: FunctionCall,
                        log: seq<TypedData>)
    requires EnvelopeTypes(types)
    requires ParseParams(s.deps.encodeFunctionCall, call).Success?
    ensures var o := s.Outcome(envelope, types, [to, Nested(call)], log);
      (to == Undefined ==> o == (Failure(ParamUndefined(0)), log)) &&
      (to != Undefined ==>
        o.1 == log + [s.TypedDataFor(envelope, types, [s.deps.toText(to), s.deps.encodeFunctionCall(call)])] &&
        (o.0.Success? <==> s.signer.respond(o.1[|log|], |log|).Success?) &&
        (o.0.Success? ==>
           o.0.value.signedParams ==
             [ParsedParam(types[0].name, types[0].typ, to, None),
              ParsedParam(types[1].name, types[1].typ, Str(s.deps.encodeFunctionCall(call)),
                          Some(ParsedCall(call.functionName, ParseParams(s.deps.encodeFunctionCall, call).value)))]))
  {
    EnvelopeEncoding(s.deps, types, to, call);
    EnvelopeTree(s.deps.encodeFunctionCall, envelope, types, to, call);
  }

  /** Cancel and the transfers: routed through `metaDelegateCall` to the named verifier
      contract. Without that contract nothing is signed; on success the target is
      `signedParams[0].value`, the encoded inner call is `signedParams[1].value`, and the
      inner tree gives back the inner call exactly. */
  lemma FullySignedRoute(s: AccountSigner, contractName: string, call: FunctionCall, log: seq<TypedData>)
    requires EnvelopeTypes(s.deps.metaDelegateCallSignedParamTypes)
    requires Flat(call) && |call.params| == |call.paramTypes|
    ensures var o := s.Outcome("metaDelegateCall", s.deps.metaDelegateCallSignedParamTypes,
                               [Contract(s.contracts, contractName), Nested(call)], log);
      (contractName !in s.contracts ==> o == (Failure(ParamUndefined(0)), log)) &&
      (o.0.Success? ==>
        o.0.value.functionName == "metaDelegateCall" &&
        contractName in s.contracts &&
        |o.0.value.signedParams| == 2 &&
        o.0.value.signedParams[0].value == Str(s.contracts[contractName]) &&
        o.0.value.signedParams[1].value == Str(s.deps.encodeFunctionCall(call)) &&
        o.0.value.signedParams[1].callData.Some? &&
        o.0.value.signedParams[1].callData.value.functionName == call.functionName &&
        Unparse(o.0.value.signedParams[1].callData.value.params) == (call.paramTypes, call.params))
  {
    FlatRoundTrip(s.deps.encodeFunctionCall, call);
    EnvelopeOutcome(s, "metaDelegateCall", s.deps.metaDelegateCallSignedParamTypes,
                    Contract(s.contracts, contractName), call, log);
  }

  /** The swaps: routed through `metaPartialSignedDelegateCall` to `limitSwapVerifier`.
      Without that contract nothing is signed; on success the inner tree carries the
      signed trade values in order, then `to` and `data` leaves whose value is
      `undefined`. */
  lemma PartiallySignedRoute(s: AccountSigner, call: FunctionCall, log: seq<TypedData>)
    requires EnvelopeTypes(s.deps.metaPartialSignedDelegateCallSignedParamTypes)
    requires SignsOnlyTradePrefix(call)
    ensures var o := s.Outcome("metaPartialSignedDelegateCall", s.deps.metaPartialSignedDelegateCallSignedParamTypes,
                               [Contract(s.contracts, "limitSwapVerifier"), Nested(call)], log);
      ("limitSwapVerifier" !in s.contracts ==> o == (Failure(ParamUndefined(0)), log)) &&
      (o.0.Success? ==>
        var n := |call.params|;
        o.0.value.functionName == "metaPartialSignedDelegateCall" &&
        "limitSwapVerifier" in s.contracts &&
        |o.0.value.signedParams| == 2 &&
        o.0.value.signedParams[0].value == Str(s.contracts["limitSwapVerifier"]) &&
        o.0.value.signedParams[1].value == Str(s.deps.encodeFunctionCall(call)) &&
        o.0.value.signedParams[1].callData.Some? &&
        o.0.value.signedParams[1].callData.value.functionName == call.functionName &&
        var inner := o.0.value.signedParams[1].callData.value.params;
        |inner| == n + 2 &&
        (forall i :: 0 <= i < n ==> inner[i].value == call.params[i]) &&
        inner[n] == ParsedParam("to", "address", Undefined, None) &&
        inner[n + 1] == ParsedParam("data", "bytes", Undefined, None))
  {
    PartialParse(s.deps.encodeFunctionCall, call);
    EnvelopeOutcome(s, "metaPartialSignedDelegateCall", s.deps.metaPartialSignedDelegateCallSignedParamTypes,
                    Contract(s.contracts, "limitSwapVerifier"), call, log);
  }

  /** Signing a cancel: the inner call is `cancel(bitmapIndex, bit)`, both `uint256`. */
  lemma CancelRoute(s: AccountSigner, bitmapIndex: Value, bit: Value, log: seq<TypedData>)
    requires EnvelopeTypes(s.deps.metaDelegateCallSignedParamTypes)
    ensures var o := s.Outcome("metaDelegateCall", s.deps.metaDelegateCallSignedParamTypes,
                               [Contract(s.contracts, "cancelVerifier"), Nested(CancelCall(bitmapIndex, bit))], log);
      o.0.Success? ==>
        "cancelVerifier" in s.contracts &&
        |o.0.value.signedParams| == 2 &&
        o.0.value.signedParams[0].value == Str(s.contracts["cancelVerifier"]) &&
        o.0.value.signedParams[1].callData ==
          Some(ParsedCall("cancel", [ParsedParam("bitmapIndex", "uint256", bitmapIndex, None),
                                     ParsedParam("bit", "uint256", bit, None)]))
  {
    var call := CancelCall(bitmapIndex, bit);
    FlatParse(s.deps.encodeFunctionCall, call);
    var tree := ParseParams(s.deps.encodeFunctionCall, call).value;
    assert tree == [tree[0], tree[1]];
    EnvelopeOutcome(s, "metaDelegateCall", s.deps.metaDelegateCallSignedParamTypes,
                    Contract(s.contracts, "cancelVerifier"), call, log);
  }

  /** An eth-to-token swap signed without an expiry carries MAX_UINT_256 as its expiry,
      and its inner call is `ethToToken`. */
  lemma EthToTokenDefaultExpiry(s: AccountSigner, bitmapIndex: Value, bit: Value, token: Value,
                                ethAmount: Value, tokenAmount: Value, log: seq<TypedData>)
    requires EnvelopeTypes(s.deps.metaPartialSignedDelegateCallSignedParamTypes)
    ensures var call := EthToTokenCall(bitmapIndex, bit, token, ethAmount, tokenAmount, DefaultExpiry(Undefined));
      var o := s.Outcome("metaPartialSignedDelegateCall", s.deps.metaPartialSignedDelegateCallSignedParamTypes,
                         [Contract(s.contracts, "limitSwapVerifier"), Nested(call)], log);
      o.0.Success? ==>
        |o.0.value.signedParams| == 2 &&
        o.0.value.signedParams[1].callData.Some? &&
        o.0.value.signedParams[1].callData.value.functionName == "ethToToken" &&
        |o.0.value.signedParams[1].callData.value.params| == 8 &&
        o.0.value.signedParams[1].callData.value.params[5] == ParsedParam("expiryBlock", "uint256", UInt(MaxUint256), None)
  {
    var call := EthToTokenCall(bitmapIndex, bit, token, ethAmount, tokenAmount, DefaultExpiry(Undefined));
    FlatParse(s.deps.encodeFunctionCall, call);
    EnvelopeOutcome(s, "metaPartialSignedDelegateCall", s.deps.metaPartialSignedDelegateCallSignedParamTypes,
                    Contract(s.contracts, "limitSwapVerifier"), call, log);
  }

  /** Signing the same call twice gives the same message and the same tree; only the
      signature, which comes from the signer, may differ. */
  lemma MessageDeterministic(s: AccountSigner, functionName: string, types: seq<ParamType>, params: seq<Value>,
                             log1: seq<TypedData>, log2: seq<TypedData>)
    ensures var o1 := s.Outcome(functionName, types, params, log1);
      var o2 := s.Outcome(functionName, types, params, log2);
      o1.0.Success? && o2.0.Success? ==>
        o1.1[|log1|] == o2.1[|log2|] &&
        o1.0.value.message == o2.0.value.message &&
        o1.0.value.signedParams == o2.0.value.signedParams &&
        o1.0.value.signer == o2.0.value.signer &&
        o1.0.value.accountAddress == o2.0.value.accountAddress
  {
  }

  /** Domain separation at the builder's input: two instances ask the builder for the
      same typed data only when their account versions, chain ids and account addresses
      all agree. */
  lemma DomainSeparation(s1: AccountSigner, s2: AccountSigner, functionName: string, types: seq<ParamType>,
                         encoded: seq<string>)
    ensures s1.RequestFor(functionName, types, encoded) == s2.RequestFor(functionName, types, encoded) <==>
      s1.accountVersion == s2.accountVersion && s1.chainId == s2.chainId && s1.accountAddress == s2.accountAddress
  {
  }

  /** Full signing leaves nothing out: with an injective encoder, two different inner
      calls give the builder different encoded parameters. */
  lemma FullSigningBindsCall(deps: Collaborators, types: seq<ParamType>, to: Value, c1: FunctionCall, c2: FunctionCall)
    requires EnvelopeTypes(types) && to != Undefined
    requires forall x, y :: deps.encodeFunctionCall(x) == deps.encodeFunctionCall(y) ==> x == y
    requires c1 != c2
    ensures EncodedParams(deps, types, [to, Nested(c1)]).Success?
    ensures EncodedParams(deps, types, [to, Nested(c1)]) != EncodedParams(deps, types, [to, Nested(c2)])
  {
    EnvelopeEncoding(deps, types, to, c1);
    EnvelopeEncoding(deps, types, to, c2);
    assert deps.encodeFunctionCall(c1) != deps.encodeFunctionCall(c2);
    assert [deps.toText(to), deps.encodeFunctionCall(c1)][1] != [deps.toText(to), deps.encodeFunctionCall(c2)][1];
  }
}
