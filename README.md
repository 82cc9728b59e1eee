# easy-web3 `Contract` wrapper, modelled in Dafny

The repository has one class, `Contract`. It wraps a web3 contract object, which this model calls the
*instance*. The class stores the contract's bytecode, the last deployment receipt and the last
deployment transaction hash. It builds the send parameters for deployments and state-changing calls.
It turns web3's emitter callbacks into a promise. All of this is modelled here. web3 itself is replaced
by `Web3.Web3Instance`: an object with the ABI it was built from and a mutable `options.address` slot.

Files and modules:

- `js.dfy` (`Js`): JavaScript values, errors, addresses and hashes. `undefined` is `None`.
- `promises.dfy` (`Promises`): a promise that settles at most once (`Settlement`, `Settle`, class
  `Promise`), and the lemma that only the first settlement takes effect.
- `params.dfy` (`Params`): the send-parameter dictionary. `SendParams` states it key by key.
  `BuildSendParams` builds it the way the source does: `from`, then a loop over the keys of `options`,
  then `value` when it is positive.
- `web3.dfy` (`Web3`): the instance object.
- `contract.dfy` (`Contracts`): the `Contract` class. Each web3 callback is a method of the handle that
  receives the promise its closure captured. Each method ties its new state to the pure step functions
  `DeployStep` and `SetStep`.
- `contract_traces.dfy` (`ContractTraces`): lemmas about any sequence of callbacks on one handle.
- `scenarios.dfy` (`ContractScenarios`): a client that walks through a deployment, a `set` call and a
  rebinding, using only the contracts.

Behaviour as the code has it:

- The deploy submit callback has no `return` after `reject(error)`. So `transactionHash` is
  overwritten with the callback's hash argument even when the callback reports an error.
- The deploy `error` handler is `(error) => reject`. It returns the function without calling it. An
  `error` event therefore never settles a deploy promise (`DeployErrorsChangeNothing`). This reads as a
  slip for `reject(error)`; the model keeps the behaviour as written.
- `set` does not store its receipt, unlike the deploy confirmation handler; the model follows the
  code: `set`'s callbacks change only its promise.
- A deploy confirmation reads `this.instance` when it runs. If `setAbi` has replaced the instance in
  the meantime, the new instance receives the address and is the promise's value. The model keeps this,
  because `OnDeployConfirmation` uses the handle's current instance.
- Getters `GetCode`, `GetInstance`, `GetReceipt` and `GetTransactionHash` return the fields, as the
  handle's view `State()` reports them. The other members' contracts are stated through them.

## Model

| member | source | states |
|---|---|---|
| `Contracts.Contract.constructor` | contracts/index.js:10-16 | the new handle has a fresh instance built from the ABI with no address; `GetCode()` is the normalised code; receipt and transaction hash are undefined |
| `Contracts.NormalizedCode` | contracts/index.js:13 | with the Quorum flag the stored code is `"0x"` followed by the given code; without it, the code unchanged |
| `Web3.Web3Instance.constructor` | contracts/index.js:12 | a new web3 contract object remembers its ABI and has no address |
| `Params.SendParams` | contracts/index.js:54-64 | keys are `from`, every key of `options`, and `value` exactly when `value` is defined and positive; `from` is `options.from` when present, else the argument; a positive `value` replaces `options.value`; every other option is copied unchanged; with no positive `value`, a `value` key exists exactly when `options` has one |
| `Params.BuildSendParams` | contracts/index.js:122-132 | the `from`-then-loop-then-`value` construction shared by `deployContract` and `set` yields exactly `SendParams` |
| `Params.GetParams` | contracts/index.js:108-110 | `get` sends a dictionary whose only key is `from` |
| `Params.GetParamsAreBareSendParams` | contracts/index.js:107-112 | `get`'s parameters equal what `set` builds with no options and no value |
| `Promises.OnlyFirstSettlementCounts` | contracts/index.js:65-81 | a pending promise ends in the first settling outcome offered to it; a settled promise never changes |
| `Promises.Promise.constructor` | contracts/index.js:65 | a new promise is pending |
| `Promises.Promise.Resolve` | contracts/index.js:79 | resolving settles a pending promise with the value and leaves a settled one unchanged |
| `Promises.Promise.Reject` | contracts/index.js:71 | rejecting settles a pending promise with the error and leaves a settled one unchanged |
| `Contracts.Contract.GetCode` | contracts/index.js:21-23 | returns the handle's bytecode as normalised at construction |
| `Contracts.Contract.GetInstance` | contracts/index.js:28-30 | returns the handle's current instance, whose address is the handle's address |
| `Contracts.Contract.GetReceipt` | contracts/index.js:35-37 | returns the receipt of the last deploy confirmation, or `None` before any |
| `Contracts.Contract.GetTransactionHash` | contracts/index.js:42-44 | returns the hash of the last deploy submission, or `None` before any |
| `Contracts.DeployOutcome` | contracts/index.js:69-80 | a deploy event settles the promise exactly when it is a submission with an error (rejected with that error) or a confirmation (resolved with the current instance); an `error` event and an error-free submission settle nothing |
| `Contracts.DeployStep` | contracts/index.js:69-80 | one deploy callback keeps code and instance; a submission sets the hash to its argument; a confirmation sets receipt and address from its receipt; other fields keep their values; a pending promise takes the event's outcome and a settled one stays |
| `Contracts.SetOutcome` | contracts/index.js:135-143 | a `set` event settles the promise unless it is an error-free submission: a submit error or an `error` event rejects with that error, a confirmation resolves with its receipt |
| `Contracts.SetStep` | contracts/index.js:135-143 | one `set` callback leaves a settled promise as it is and gives a pending one the event's outcome |
| `Contracts.Contract.DeployContract` | contracts/index.js:53-68 | the deployment request carries the stored code, the arguments and `SendParams`; the returned promise is fresh and pending; the handle is unchanged |
| `Contracts.Contract.OnDeploySubmit` | contracts/index.js:69-74 | the transaction hash becomes the callback's hash argument, with or without an error; an error rejects the promise; nothing else changes |
| `Contracts.Contract.OnDeployConfirmation` | contracts/index.js:76-80 | the receipt becomes the confirmation's receipt and the current instance's address its `contractAddress`; the promise resolves with the current instance unless already settled |
| `Contracts.Contract.OnDeployError` | contracts/index.js:75 | an `error` event changes no handle field and does not settle the promise |
| `Contracts.Contract.Get` | contracts/index.js:107-112 | `get` calls the named function with the arguments and only `from` as parameters; the handle is unchanged |
| `Contracts.Contract.Set` | contracts/index.js:121-135 | `set` sends the named function with the arguments and `SendParams`; the returned promise is fresh and pending; the handle is unchanged |
| `Contracts.Contract.OnSetSubmit` | contracts/index.js:135-139 | a submit error rejects `set`'s promise; the hash is not stored; no handle field changes |
| `Contracts.Contract.OnSetConfirmation` | contracts/index.js:140-142 | a confirmation resolves `set`'s promise with the receipt; the receipt is not stored |
| `Contracts.Contract.OnSetError` | contracts/index.js:143 | an `error` event rejects `set`'s promise; no handle field changes |
| `Contracts.Contract.SetAddress` | contracts/index.js:88-90 | only the current instance's address changes, to the given one |
| `Contracts.Contract.SetAbi` | contracts/index.js:96-98 | the instance is replaced by a fresh one for the new ABI, with no address; code, receipt and hash are unchanged; the old instance is untouched |
| `ContractTraces.RunDeployKeepsCodeAndInstance` | contracts/index.js:69-80 | no deploy callback changes the code or replaces the instance |
| `ContractTraces.LastSubmissionHashWins` | contracts/index.js:69-74 | after any sequence of deploy callbacks, the transaction hash is that of the last submit callback, or the earlier hash if there was none |
| `ContractTraces.LastConfirmationWins` | contracts/index.js:76-78 | after any sequence of deploy callbacks, receipt and address come from the last confirmation; without one both are unchanged |
| `ContractTraces.DeployPromiseSettlesOnce` | contracts/index.js:69-80 | the deploy promise is decided by the first submit error or confirmation; later events cannot change it |
| `ContractTraces.DeployErrorsChangeNothing` | contracts/index.js:75 | any sequence of deploy `error` events leaves handle and promise exactly as they were |
| `ContractTraces.SetPromiseSettlesOnce` | contracts/index.js:134-144 | the `set` promise is decided by the first submit error, confirmation or `error` event; an `error` event on a pending promise rejects it |

## Left out

- web3 itself: `new web3.eth.Contract`, `deploy(...).send`, `methods[name].call/send` and `encodeABI` are foreign code. They are modelled only as the instance's ABI and address slot, and as the `DeployRequest`/`CallRequest` values handed to them. The `web3` constructor argument is not stored.
- `getEncoded`: a pure pass-through to web3's ABI encoding, so there is nothing of the wrapper's own to model.
- `Contracts.Contract.Get`: models only the parameters of the call. The value the call returns comes from web3 over RPC.
- Calling an undeclared function name fails in JavaScript and web3 at run time. That failure is not logic of this file and is not modelled.
- Event timing, confirmation depth, RPC transport, and races between overlapping deploy or `set` calls are asynchronous I/O. Callbacks are modelled as separately invoked sequential methods. Running several promises' callbacks interleaved on one handle is allowed by the methods, but the trace lemmas cover one promise at a time.
- `value` is an optional integer. JavaScript's loose comparison of a non-numeric `value` against `0` is not modelled.
- `options` is modelled as a map from keys to values. An `undefined` or `null` options object is the empty map, since `for...in` over it copies nothing. Inherited enumerable properties are not modelled. Key order is not modelled either: the keys of an object are distinct, so order does not change the result.
- Receipts carry only `contractAddress`. No other receipt field is read by the wrapper. The confirmation number is accepted by the callbacks and ignored, as in the source.
