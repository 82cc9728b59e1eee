/**
 * JavaScript values as they reach the contract wrapper: the entries of an
 * options object, the arguments of a contract call, the error objects and
 * hashes handed to callbacks.
 */
module Js {

  /** `undefined` (or a falsy error) is `None`; anything else is `Some`. */
  datatype Option<T> = None | Some(value: T)

  /** A value stored in a parameter object such as `{from: ..., gas: ...}`. */
  datatype Value =
    | Undefined
    | Null
    | Bool(b: bool)
    | Num(n: int)
    | Str(s: string)

  /** An error object passed to a callback; its contents are never inspected. */
  datatype Error = Error(message: string)

  /** A chain address in its hex text form. */
  type Address = string

  /** A transaction hash in its hex text form. */
  type Hash = string

  /** The JSON text of an ABI; only web3 interprets it. */
  type Abi = string
}
