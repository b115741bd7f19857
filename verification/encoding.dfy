/** The loop at the head of `signFunctionCall`: every outer parameter is encoded before
    the typed data is built, a `calldata` one with the ABI encoder and any other one
    with `toString()`. */
module Encoding {
  import opened Wrappers
  import opened Abi
  import opened Collaborators

  /** Whether parameter `i` can be encoded: its type exists, and a `calldata` parameter
      holds a call descriptor while any other one is defined. */
  predicate Encodable(types: seq<ParamType>, params: seq<Value>, i: nat)
    requires i < |params|
  {
    i < |types| && if types[i].calldata then params[i].Nested? else params[i] != Undefined
  }

  /** `encodedParams[i]`, or the exception computing it throws. */
  function EncodeParam(deps: Collaborators, types: seq<ParamType>, params: seq<Value>, i: nat)
    : (r: Result<string, SignError>)
    requires i < |params|
    ensures r.Success? <==> Encodable(types, params, i)
  {
    if i >= |types| then Failure(ParamTypeMissing(i))
    else if types[i].calldata then
      match params[i]
      case Nested(c) => Success(deps.encodeFunctionCall(c))
      case _ => Failure(NotACall(i))
    else if params[i] == Undefined then Failure(ParamUndefined(i))
    else Success(deps.toText(params[i]))
  }

  /** The encodings of `params[from..]`, in order; the first exception wins. */
  function EncodeFrom(deps: Collaborators, types: seq<ParamType>, params: seq<Value>, from: nat)
    : (r: Result<seq<string>, SignError>)
    requires from <= |params|
    ensures r.Success? ==> |r.value| == |params| - from
    decreases |params| - from
  {
    if from == |params| then Success([])
    else
      var head :- EncodeParam(deps, types, params, from);
      var rest :- EncodeFrom(deps, types, params, from + 1);
      Success([head] + rest)
  }

  /** `encodedParams`, or the exception the loop throws. */
  function EncodedParams(deps: Collaborators, types: seq<ParamType>, params: seq<Value>)
    : (r: Result<seq<string>, SignError>)
    ensures r.Success? <==> forall i :: 0 <= i < |params| ==> Encodable(types, params, i)
    ensures r.Success? ==> |r.value| == |params|
  {
    EncodeFromMeaning(deps, types, params, 0);
    EncodeFrom(deps, types, params, 0)
  }

  lemma {:induction false} EncodeFromMeaning(deps: Collaborators, types: seq<ParamType>, params: seq<Value>, from: nat)
    requires from <= |params|
    ensures var e := EncodeFrom(deps, types, params, from);
      (e.Success? <==> forall i :: from <= i < |params| ==> Encodable(types, params, i)) &&
      (e.Success? ==> forall i :: from <= i < |params| ==> e.value[i - from] == EncodeParam(deps, types, params, i).value) &&
      (e.Failure? ==> exists k :: from <= k < |params| && !Encodable(types, params, k) &&
                        e.error == EncodeParam(deps, types, params, k).error &&
                        forall j :: from <= j < k ==> Encodable(types, params, j))
    decreases |params| - from
  {
    if from < |params| {
      EncodeFromMeaning(deps, types, params, from + 1);
    }
  }

  /** Every index of `params` gets exactly one entry: the ABI encoding of the nested call
      when its type is marked `calldata`, its `toString()` otherwise. Encoding fails
      exactly when some index cannot be encoded, and then with the exception of the
      first such index. */
  lemma EncodedParamsMeaning(deps: Collaborators, types: seq<ParamType>, params: seq<Value>)
    ensures EncodedParams(deps, types, params).Success? <==>
      forall i :: 0 <= i < |params| ==> Encodable(types, params, i)
    ensures EncodedParams(deps, types, params).Success? ==>
      var encoded := EncodedParams(deps, types, params).value;
      |encoded| == |params| && |params| <= |types| &&
      forall i :: 0 <= i < |params| ==>
        Encodable(types, params, i) &&
        encoded[i] == if types[i].calldata then deps.encodeFunctionCall(params[i].call) else deps.toText(params[i])
    ensures EncodedParams(deps, types, params).Failure? ==>
      exists k :: 0 <= k < |params| && !Encodable(types, params, k) &&
        EncodedParams(deps, types, params).error == EncodeParam(deps, types, params, k).error &&
        forall j :: 0 <= j < k ==> Encodable(types, params, j)
  {
    EncodeFromMeaning(deps, types, params, 0);
    var e := EncodedParams(deps, types, params);
    if e.Success? {
      if |params| > 0 {
        assert Encodable(types, params, |params| - 1);
      }
      forall i | 0 <= i < |params|
        ensures Encodable(types, params, i)
        ensures e.value[i] == if types[i].calldata then deps.encodeFunctionCall(params[i].call) else deps.toText(params[i])
      {
        assert e.value[i - 0] == EncodeParam(deps, types, params, i).value;
      }
    }
  }
}
