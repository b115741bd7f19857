# AccountSigner: meta-transaction signing facade

This project models the `AccountSigner` class of the Brink SDK (`src/AccountSigner.js`).
An `AccountSigner` is built once per wallet. It fixes an identity: the account version, the
chain id, a contract-name→address table built from the deployments, and the account address,
which is derived once from the singleton factory, the account implementation, the owner, the
chain id and a salt. It then signs six operations as meta-transactions:

- cancel, eth transfer and token transfer are wrapped in a fully signed `metaDelegateCall`
  to `cancelVerifier` or `transferVerifier`;
- eth→token, token→eth and token→token swaps are first checked by a call verifier. They are then
  wrapped in a partially signed `metaPartialSignedDelegateCall` to `limitSwapVerifier`. The
  executor's `to` and `data` parameters are declared but receive no value.

`signFunctionCall` encodes each outer parameter. A `calldata` parameter goes through the ABI
encoder; any other parameter goes through `toString()`. It builds the EIP-712 typed data
("Typed structured data hashing and signing") for this instance's domain and asks the signer
once. It returns the hash, the signature, both addresses, the function name, and the
`parseParams` tree of the unencoded parameters.

Layout:

- `wrappers.dfy`: `Option` and `Result`.
- `abi.dfy`: parameter types, JavaScript-loose values (`Undefined`, strings, numbers, nested
  calls), call descriptors, the parsed tree, the error kinds, and `MAX_UINT_256`.
- `collaborators.dfy`: the code the class calls but does not define, given as parameters. It
  also holds the external signer, a class that records every request it receives. Its answer
  to the n-th request is a parameter, so the signer may be non-deterministic.
- `encoding.dfy`: the encoding loop of `signFunctionCall`, as a specification function.
- `parse_params.dfy`: `parseParams` and its shape, definedness and round-trip lemmas.
- `calls.dfy`: the six inner call descriptors and the default expiry.
- `account_signer.dfy`: the contracts table, the `AccountSigner` class, and the routing lemmas.

The state-changing methods (`SignCancel` … `SignFunctionCall`) are each proved equal to the
pure `Outcome` / `SwapOutcome` functions. Each pair gives the result and the signer's request
log afterwards. The lemmas are stated about those functions.

Behaviour kept from the code as written:

- `signTokenToEthSwap` hands the verifier `(token, token, ethAmount, expiry)`, so `tokenAmount`
  is never validated.
- `parseParams` walks the parameter TYPES. The swaps' `to` and `data` leaves therefore carry
  `undefined`.
- `parseParams` runs after the signer has answered. A parse failure is reported although the
  signer was already asked.
- The constructor's own code raises nothing for a missing deployment: a missing contract
  reads as `undefined`, and the constructor passes `undefined` on to the address derivation
  (modelled as `None`), which the model treats as total. A sign call whose target
  contract is missing fails while encoding, because `undefined.toString()` throws, before
  the signer is asked.
- Type tags are free strings, as in the code; no closed set of tags is checked.

## Model

| member | source | states |
|---|---|---|
| `AccountSigners.AccountSigner.constructor` | src/AccountSigner.js:22-39 | fields set from the arguments; `contracts` is the table of the deployments; `accountAddress` is derived once from `singletonFactory`, `account`, the signer's address, the chain id and the salt |
| `AccountSigners.ContractsTable` | src/AccountSigner.js:27-31 | the table is empty iff there are no deployments, and the last deployment's name maps to its address |
| `AccountSigners.Contract` | src/AccountSigner.js:51 | a looked-up contract such as `this.contracts.cancelVerifier` is `undefined` iff no deployment has that name, and otherwise that name's address |
| `AccountSigners.ContractsTableLookup` | src/AccountSigner.js:27-31 | a name is in the table iff some deployment has it, and then it maps to the address of the last deployment with that name |
| `Encoding.EncodeParam` | src/AccountSigner.js:175-181 | one parameter encodes iff its type exists and it holds a call (calldata) or is defined (otherwise) |
| `Encoding.EncodedParams` | src/AccountSigner.js:173-182 | the loop completes iff every parameter is encodable, and then yields one entry per parameter |
| `Encoding.EncodedParamsMeaning` | src/AccountSigner.js:173-182 | every index of `params` gets exactly one entry, the ABI encoding for calldata types and `toString()` otherwise; failure iff some index is not encodable, with the first such index's error |
| `ParamTree.ParseFrom` | src/AccountSigner.js:211-230 | on success, one entry per remaining parameter type |
| `ParamTree.ParseParams` | src/AccountSigner.js:211-230 | on success, one tree entry per parameter type of the call |
| `ParamTree.ParseParamsShape` | src/AccountSigner.js:211-227 | one entry per type in order with name and type copied; raw value (or `undefined`) for plain types; encoded call, nested function name and recursive tree for calldata types |
| `ParamTree.ParseParamsDefined` | src/AccountSigner.js:219-227 | `parseParams` succeeds iff every calldata slot holds a nested call that itself parses |
| `ParamTree.RoundTrip` | src/AccountSigner.js:211-230 | for a complete descriptor, reading the tree back gives the exact parameter types and values, nested calls included |
| `Calls.DefaultExpiry` | src/AccountSigner.js:90 | the expiry is never `undefined`; a missing expiry becomes `MAX_UINT_256` and a given expiry is kept unchanged |
| `Calls.CancelCall` | src/AccountSigner.js:42-49 | `cancel` is fully signed: two types, two values, `bitmapIndex` and `bit` in that order |
| `Calls.EthTransferCall` | src/AccountSigner.js:56-66 | `ethTransfer` is fully signed: five types, five values, `recipient` before `amount`, the last being `expiryBlock:uint256` with the given expiry |
| `Calls.TokenTransferCall` | src/AccountSigner.js:73-84 | `tokenTransfer` is fully signed: six types, six values, `token` before `recipient`, the last being `expiryBlock:uint256` with the given expiry |
| `Calls.EthToTokenCall` | src/AccountSigner.js:92-105 | `ethToToken` signs six trade values, `ethAmount` before `tokenAmount` and the expiry last, followed by the unvalued `to:address` and `data:bytes` |
| `Calls.TokenToEthCall` | src/AccountSigner.js:113-126 | `tokenToEth` signs six trade values, `tokenAmount` before `ethAmount` and the expiry last, followed by the unvalued `to:address` and `data:bytes` |
| `Calls.TokenToTokenCall` | src/AccountSigner.js:134-148 | `tokenToToken` signs seven trade values, `tokenIn`, `tokenOut`, `tokenInAmount`, `tokenOutAmount` in that order and the expiry last, followed by the unvalued `to:address` and `data:bytes` |
| `Calls.FlatParse` | src/AccountSigner.js:213-227 | a descriptor without calldata types always parses, into one leaf per type holding the value at that index or `undefined` |
| `Calls.FullySignedCallsRoundTrip` | src/AccountSigner.js:41-88 | the cancel and transfer descriptors give back their exact types and values from their trees |
| `Calls.PartialParse` | src/AccountSigner.js:211-227 | in a partially signed call's tree, the signed prefix carries its values and the `to`/`data` leaves carry `undefined` |
| `AccountSigners.EnvelopeEncoding` | src/AccountSigner.js:154-182 | encoding `[to, call]` fails with `ParamUndefined(0)` iff the target is undefined, and is otherwise the target's text and the call's encoding |
| `AccountSigners.EnvelopeTree` | src/AccountSigner.js:211-227 | the tree of `[to, call]` is a target leaf followed by the encoded call with its own tree |
| `AccountSigners.AccountSigner.Outcome` | src/AccountSigner.js:172-202 | an encoding failure throws without asking the signer; otherwise the signer is asked once for this domain's typed data; the call succeeds when encoding, the signer and the parse all do; on success the result holds the hash, the signer's answer, the signer address, the account address, the function name and the tree |
| `AccountSigners.AccountSigner.SwapOutcome` | src/AccountSigner.js:90-152 | a failed verifier check gives `Invalid` and leaves the signer log untouched; a passing check signs `metaPartialSignedDelegateCall` to `limitSwapVerifier` |
| `AccountSigners.AccountSigner.SignFunctionCall` | src/AccountSigner.js:172-202 | the loop, builder call, signing and assembly are proved equal to `Outcome` |
| `AccountSigners.AccountSigner.SignMessage` | src/AccountSigner.js:204-207 | asks the signer exactly once and returns its answer |
| `Collaborators.Signer.Sign` | src/AccountSigner.js:205 | records the request and returns the signer's answer to it |
| `AccountSigners.AccountSigner.SignMetaDelegateCall` | src/AccountSigner.js:154-161 | signs `metaDelegateCall` with the full-delegate type table and `[toAddress, call]` |
| `AccountSigners.AccountSigner.SignMetaPartialSignedDelegateCall` | src/AccountSigner.js:163-170 | signs `metaPartialSignedDelegateCall` with the partial type table and `[toAddress, call]` |
| `AccountSigners.AccountSigner.SignCancel` | src/AccountSigner.js:41-53 | `cancel(bitmapIndex, bit)` signed as a `metaDelegateCall` to `cancelVerifier` |
| `AccountSigners.AccountSigner.SignEthTransfer` | src/AccountSigner.js:55-70 | `ethTransfer` with 5 parameters signed as a `metaDelegateCall` to `transferVerifier` |
| `AccountSigners.AccountSigner.SignTokenTransfer` | src/AccountSigner.js:72-88 | `tokenTransfer` with 6 parameters signed as a `metaDelegateCall` to `transferVerifier` |
| `AccountSigners.AccountSigner.SignEthToTokenSwap` | src/AccountSigner.js:90-109 | default expiry, `verifyEthToTokenSwap` first, then `ethToToken` partially signed to `limitSwapVerifier` |
| `AccountSigners.AccountSigner.SignTokenToEthSwap` | src/AccountSigner.js:111-130 | default expiry, `verifyTokenToEthSwap(token, token, ethAmount, expiry)` first, then `tokenToEth` partially signed |
| `AccountSigners.AccountSigner.SignTokenToTokenSwap` | src/AccountSigner.js:132-152 | default expiry, `verifyTokenToTokenSwap` first, then `tokenToToken` partially signed |
| `AccountSigners.EnvelopeOutcome` | src/AccountSigner.js:154-202 | an undefined target throws before signing; otherwise the signer is asked once, the call succeeds iff the signer does, and the tree is target then encoded call |
| `AccountSigners.FullySignedRoute` | src/AccountSigner.js:154-161 | cancel and transfers: a missing contract signs nothing; on success `signedParams[0].value` is the contract, `signedParams[1].value` is the encoded call, and the inner tree gives the call back |
| `AccountSigners.PartiallySignedRoute` | src/AccountSigner.js:163-170 | swaps: a missing `limitSwapVerifier` signs nothing; on success the inner tree holds the trade values, then `to`/`data` leaves with `undefined` |
| `AccountSigners.CancelRoute` | src/AccountSigner.js:41-53 | a signed cancel targets `cancelVerifier` and its inner tree is `cancel` with `bitmapIndex` and `bit` as `uint256` |
| `AccountSigners.EthToTokenDefaultExpiry` | src/AccountSigner.js:90-105 | without an expiry, the signed `ethToToken` call carries `MAX_UINT_256` as `expiryBlock` |
| `AccountSigners.MessageDeterministic` | src/AccountSigner.js:184-201 | signing the same call twice gives the same typed data, message and tree; only the signature may differ |
| `AccountSigners.DomainSeparation` | src/AccountSigner.js:184-191 | two instances give the builder the same request iff their account versions, chain ids and account addresses agree |
| `AccountSigners.FullSigningBindsCall` | src/AccountSigner.js:173-182 | with an injective encoder, different inner calls give different encoded parameters |

## Left out

- `typedDataEIP712`, `encodeFunctionCall`, `computeAccountAddress`, `toString()` and the call verifiers live in files outside this model. They are parameters, and nothing is proved about how they work inside (hashing, ABI encoding, CREATE2 derivation, decimal rendering).
- `metaDelegateCallSignedParamTypes` and `metaPartialSignedDelegateCallSignedParamTypes` are parameters. The routing lemmas assume the shape they are used with: two entries, and only the second is `calldata`.
- The ABI encoder, `typedDataEIP712` and `computeAccountAddress` are total functions here and never fail, so the exceptions they can raise are not represented: neither the failure path through `signFunctionCall`, nor a constructor that throws when `singletonFactory` or `account` is missing. `toText` is likewise left unconstrained on `Str`, although JavaScript's `toString()` returns a string unchanged.
- `verifyUpgrade` is imported by the source but no operation calls it.
- The signer is asynchronous in the source. The model has no concurrency, timeouts or retries: one request, one answer.
- A `calldata` parameter whose value is not a call descriptor gives `NotACall`. The source hands such a value to the ABI encoder, whose behaviour on it is not part of this model.
- JavaScript object-key quirks of the contracts table (such as `__proto__` as a deployment name) are not modelled.
- `DomainSeparation`: states distinct builder requests, not distinct hashes, because the EIP-712 hash is a parameter.
- `FullSigningBindsCall`: states distinct encoded parameters under an injective encoder, not distinct hashes, for the same reason.
