/**
 * The part of a web3 contract object that the wrapper touches: the ABI it
 * was built from and its mutable `options.address` slot. Method dispatch,
 * deployment and ABI encoding stay inside web3.
 */
module Web3 {
  import opened Js

  class Web3Instance {
    const abi: Abi
    var address: Option<Address>

    /** `new web3.eth.Contract(abi)`: no address is set yet. */
    constructor (abi: Abi)
      ensures this.abi == abi && address == None
    {
      this.abi := abi;
      address := None;
    }
  }
}
