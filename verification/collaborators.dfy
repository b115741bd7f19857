/** The code the signer calls but does not define: the ABI encoder, the EIP-712 builder,
    the account-address derivation, JavaScript's `toString`, the call verifiers, the two
    envelope parameter-type tables, and the external signer. They are parameters of the
    model, so nothing here is proved about their insides. */
module Collaborators {
  import opened Wrappers
  import opened Abi

  /** What a call verifier decides: it either returns or throws with a reason. */
  datatype Check = Pass | Fail(reason: string)

  /** The argument record of `typedDataEIP712`: the domain (account version, chain id,
      account address) and the message (function name, parameter types, encoded values). */
  datatype TypedDataRequest = TypedDataRequest(
    accountVersion: string,
    chainId: nat,
    accountAddress: Address,
    functionName: string,
    paramTypes: seq<ParamType>,
    params: seq<string>)

  /** What `typedDataEIP712` returns, and what the signer is asked to sign:
      the typed-data document and its EIP-712 hash. */
  datatype TypedData = TypedData(typedData: string, typedDataHash: string)

  datatype Collaborators = Collaborators(
    /** Solidity ABI encoding of a call descriptor, as hex text. */
    encodeFunctionCall: FunctionCall -> string,
    /** EIP-712 ("Typed structured data hashing and signing") document and hash. */
    typedDataEIP712: TypedDataRequest -> TypedData,
    /** CREATE2-style derivation from (singleton factory, account implementation, owner, chain id, salt). */
    computeAccountAddress: (Option<Address>, Option<Address>, Address, nat, string) -> Address,
    /** JavaScript's `toString()` on a defined value. */
    toText: Value -> string,
    verifyEthToTokenSwap: (Value, Value, Value, Value) -> Check,
    verifyTokenToEthSwap: (Value, Value, Value, Value) -> Check,
    verifyTokenToTokenSwap: (Value, Value, Value, Value, Value) -> Check,
    metaDelegateCallSignedParamTypes: seq<ParamType>,
    metaPartialSignedDelegateCallSignedParamTypes: seq<ParamType>)

  /** The external signer: its address, and its answer to the n-th request it receives
      (a signature, or the reason it failed). Every request is recorded, so a caller can
      tell whether the signer was asked at all. */
  class Signer {
    const address: Address
    const respond: (TypedData, nat) -> Result<string, string>
    var requests: seq<TypedData>

    constructor (address: Address, respond: (TypedData, nat) -> Result<string, string>)
      ensures this.address == address && this.respond == respond
      ensures requests == []
    {
      this.address := address;
      this.respond := respond;
      requests := [];
    }

    /** `signer.sign({ typedData, typedDataHash })`. */
    method Sign(request: TypedData) returns (r: Result<string, string>)
      modifies this
      ensures requests == old(requests) + [request]
      ensures r == respond(request, |old(requests)|)
    {
      r := respond(request, |requests|);
      requests := requests + [request];
    }
  }
}
