/** `parseParams`: turns a parameter-type list and its values into the navigable tree
    returned as `signedParams`, expanding every `calldata` parameter into its nested call. */
module ParamTree {
  import opened Wrappers
  import opened Abi

  /** The entries for `call.paramTypes[from..]`. The loop runs over the TYPES, so a type
      with no matching value gets `undefined` as its value. A `calldata` entry whose value
      is not a call descriptor fails. The function name of `call` plays no part: the
      source passes only the two lists. */
  function ParseFrom(encode: FunctionCall -> string, call: FunctionCall, from: nat)
    : (r: Result<seq<ParsedParam>, SignError>)
    requires from <= |call.paramTypes|
    ensures r.Success? ==> |r.value| == |call.paramTypes| - from
    decreases call, |call.paramTypes| - from
  {
    if from == |call.paramTypes| then Success([])
    else
      var t := call.paramTypes[from];
      var v := ValueAt(call.params, from);
      var entry :-
        if !t.calldata then Success(ParsedParam(t.name, t.typ, v, None))
        else match v
          case Nested(c) =>
            var sub :- ParseFrom(encode, c, 0);
            Success(ParsedParam(t.name, t.typ, Str(encode(c)), Some(ParsedCall(c.functionName, sub))))
          case _ => Failure(NotACall(from));
      var rest :- ParseFrom(encode, call, from + 1);
      Success([entry] + rest)
  }

  /** `parseParams(call.paramTypes, call.params)`. */
  function ParseParams(encode: FunctionCall -> string, call: FunctionCall): (r: Result<seq<ParsedParam>, SignError>)
    ensures r.Success? ==> |r.value| == |call.paramTypes|
  {
    ParseFrom(encode, call, 0)
  }

  /** What the entry for type `t` and value `v` holds: the type's name and type tag, and
      either the raw value or, for a `calldata` type, the encoded call and the parsed
      nested call. */
  ghost predicate EntryFor(encode: FunctionCall -> string, t: ParamType, v: Value, p: ParsedParam)
  {
    p.name == t.name && p.typ == t.typ &&
    if !t.calldata then
      p.value == v && p.callData == None
    else
      v.Nested? && p.value == Str(encode(v.call)) && p.callData.Some? &&
      p.callData.value.functionName == v.call.functionName &&
      ParseParams(encode, v.call) == Success(p.callData.value.params)
  }

  /** A slot `parseParams` can handle: a `calldata` type needs a nested call that parses. */
  ghost predicate SlotParses(encode: FunctionCall -> string, t: ParamType, v: Value)
  {
    t.calldata ==> v.Nested? && ParseParams(encode, v.call).Success?
  }

  lemma {:induction false} ParseFromShape(encode: FunctionCall -> string, call: FunctionCall, from: nat)
    requires from <= |call.paramTypes|
    requires ParseFrom(encode, call, from).Success?
    ensures forall i :: from <= i < |call.paramTypes| ==>
      EntryFor(encode, call.paramTypes[i], ValueAt(call.params, i), ParseFrom(encode, call, from).value[i - from])
    decreases |call.paramTypes| - from
  {
    if from < |call.paramTypes| {
      ParseFromShape(encode, call, from + 1);
    }
  }

  /** One entry per parameter type, in order, each holding what `EntryFor` says. */
  lemma ParseParamsShape(encode: FunctionCall -> string, call: FunctionCall)
    requires ParseParams(encode, call).Success?
    ensures var tree := ParseParams(encode, call).value;
      |tree| == |call.paramTypes| &&
      forall i :: 0 <= i < |call.paramTypes| ==> EntryFor(encode, call.paramTypes[i], ValueAt(call.params, i), tree[i])
  {
    ParseFromShape(encode, call, 0);
  }

  lemma {:induction false} ParseFromDefined(encode: FunctionCall -> string, call: FunctionCall, from: nat)
    requires from <= |call.paramTypes|
    ensures ParseFrom(encode, call, from).Success? <==>
      forall i :: from <= i < |call.paramTypes| ==> SlotParses(encode, call.paramTypes[i], ValueAt(call.params, i))
    decreases |call.paramTypes| - from
  {
    if from < |call.paramTypes| {
      ParseFromDefined(encode, call, from + 1);
    }
  }

  /** `parseParams` succeeds exactly when every `calldata` slot holds a nested call that
      itself parses; slots without a value are not an error. */
  lemma ParseParamsDefined(encode: FunctionCall -> string, call: FunctionCall)
    ensures ParseParams(encode, call).Success? <==>
      forall i :: 0 <= i < |call.paramTypes| ==> SlotParses(encode, call.paramTypes[i], ValueAt(call.params, i))
  {
    ParseFromDefined(encode, call, 0);
  }

  /** Reads a parsed tree back as the parameter types and values it was built from. */
  function Unparse(tree: seq<ParsedParam>): (r: (seq<ParamType>, seq<Value>))
    ensures |r.0| == |tree| && |r.1| == |tree|
    decreases tree
  {
    if tree == [] then ([], [])
    else
      var p := tree[0];
      var rest := Unparse(tree[1..]);
      match p.callData
      case None =>
        ([ParamType(p.name, p.typ, false)] + rest.0, [p.value] + rest.1)
      case Some(c) =>
        var inner := Unparse(c.params);
        ([ParamType(p.name, p.typ, true)] + rest.0,
         [Nested(FunctionCall(c.functionName, inner.0, inner.1))] + rest.1)
  }

  /** A descriptor with a value for every type, at every level of nesting, and a call
      descriptor in every `calldata` slot. */
  ghost predicate Complete(call: FunctionCall)
    decreases call
  {
    |call.params| == |call.paramTypes| &&
    forall i :: 0 <= i < |call.paramTypes| ==>
      call.paramTypes[i].calldata ==>
        match call.params[i]
        case Nested(c) => Complete(c)
        case _ => false
  }

  lemma {:induction false} RoundTripFrom(encode: FunctionCall -> string, call: FunctionCall, from: nat)
    requires from <= |call.paramTypes|
    requires Complete(call)
    ensures ParseFrom(encode, call, from).Success?
    ensures Unparse(ParseFrom(encode, call, from).value) == (call.paramTypes[from..], call.params[from..])
    decreases call, |call.paramTypes| - from
  {
    if from < |call.paramTypes| {
      var t, v := call.paramTypes[from], call.params[from];
      if t.calldata {
        match v
        case Nested(c) =>
          RoundTripFrom(encode, c, 0);
          assert c.paramTypes[0..] == c.paramTypes && c.params[0..] == c.params;
      }
      RoundTripFrom(encode, call, from + 1);
      var tree := ParseFrom(encode, call, from).value;
      assert tree[1..] == ParseFrom(encode, call, from + 1).value;
      assert call.paramTypes[from..] == [t] + call.paramTypes[from + 1..];
      assert call.params[from..] == [v] + call.params[from + 1..];
    }
  }

  /** Round trip: the tree of a complete descriptor gives back exactly its parameter
      types and values, nested calls included. */
  lemma RoundTrip(encode: FunctionCall -> string, call: FunctionCall)
    requires Complete(call)
    ensures ParseParams(encode, call).Success?
    ensures Unparse(ParseParams(encode, call).value) == (call.paramTypes, call.params)
  {
    RoundTripFrom(encode, call, 0);
    assert call.paramTypes[0..] == call.paramTypes && call.params[0..] == call.params;
  }
}
