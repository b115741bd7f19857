/** The data that flows through the signer: parameter-type lists, call descriptors,
    parameter values and the parsed parameter tree returned to callers. */
module Abi {
  import opened Wrappers

  /** An account or contract address, as the hex text the SDK passes around. */
  type Address = string

  /** One entry of a parameter-type list, `{ name, type, calldata }`.
      An entry written without a `calldata` key has `calldata == false`. */
  datatype ParamType = ParamType(name: string, typ: string, calldata: bool)

  /** A parameter value as a JavaScript caller hands it over: the SDK does not type its
      arguments, so a value may be missing, a string (addresses, decimal amounts), a
      number, or a nested call descriptor. */
  datatype Value =
    | Undefined
    | Str(s: string)
    | UInt(n: nat)
    | Nested(call: FunctionCall)

  /** A call descriptor `{ functionName, paramTypes, params }`. */
  datatype FunctionCall = FunctionCall(functionName: string, paramTypes: seq<ParamType>, params: seq<Value>)

  /** One node of the tree `parseParams` builds: the parameter's name and type, its value,
      and, for a `calldata` parameter, the parsed nested call. */
  datatype ParsedParam = ParsedParam(name: string, typ: string, value: Value, callData: Option<ParsedCall>)

  datatype ParsedCall = ParsedCall(functionName: string, params: seq<ParsedParam>)

  /** Why a signing request fails; each is an exception in the source. */
  datatype SignError =
    | ParamTypeMissing(index: nat)   // paramTypes[i] is undefined, so reading its calldata flag throws
    | ParamUndefined(index: nat)     // params[i] is undefined, so params[i].toString() throws
    | NotACall(index: nat)           // a calldata parameter whose value is no call descriptor
    | Invalid(reason: string)        // a call verifier rejected the swap arguments
    | SignerFailed(reason: string)   // the external signer rejected or failed

  /** `params[i]` in JavaScript: reading past the end gives `undefined`. */
  function ValueAt(params: seq<Value>, i: nat): Value
  {
    if i < |params| then params[i] else Undefined
  }

  /** 2^256 - 1, the default expiry block of the swap operations. */
  const MaxUint256: nat := 0xffff_ffff_ffff_ffff_ffff_ffff_ffff_ffff_ffff_ffff_ffff_ffff_ffff_ffff_ffff_ffff
}
