/**
 * The `Contract` wrapper: its fields, the requests it hands to web3, and the
 * callbacks web3 calls back with. Each callback is a method of the handle
 * that receives the promise the closure would have captured.
 */
module Contracts {
  import opened Js
  import opened Promises
  import opened Params
  import opened Web3

  /** A transaction receipt, reduced to the one field the wrapper reads. */
  datatype Receipt = Receipt(contractAddress: Option<Address>)

  /** Every field of a handle, with the address held by its current instance. */
  datatype HandleState = HandleState(
    code: string,
    receipt: Option<Receipt>,
    transactionHash: Option<Hash>,
    instance: Web3Instance,
    address: Option<Address>)

  /** What web3's deploy emitter delivers. */
  datatype DeployEvent =
    | DeploySubmitted(error: Option<Error>, hash: Option<Hash>)
    | DeployConfirmed(confirmationNumber: nat, receipt: Receipt)
    | DeployFailed(reason: Error)

  /** What web3's method-send emitter delivers to `set`. */
  datatype SetEvent =
    | SetSubmitted(error: Option<Error>, hash: Option<Hash>)
    | SetConfirmed(confirmationNumber: nat, receipt: Receipt)
    | SetFailed(reason: Error)

  /** A handle together with the promise of one deployment. */
  datatype DeployView = DeployView(handle: HandleState, promise: Settlement<Web3Instance>)

  /** `{data: code, arguments: args}` and the send parameters of a deployment. */
  datatype DeployRequest = DeployRequest(data: string, arguments: seq<Value>, params: map<string, Value>)

  /** `methods[name](...args)` and the parameters of its `call` or `send`. */
  datatype CallRequest = CallRequest(functionName: string, arguments: seq<Value>, params: map<string, Value>)

  /** The stored bytecode: a `0x` prefix is added for Quorum, nothing otherwise. */
  function NormalizedCode(code: string, isQuorum: bool): (r: string)
    ensures isQuorum ==> |r| == |code| + 2 && r[..2] == "0x" && r[2..] == code
    ensures !isQuorum ==> r == code
  {
    if isQuorum then "0x" + code else code
  }

  /**
   * How a deploy event settles the promise. An `error` event does not: its
   * handler returns `reject` instead of calling it.
   */
  function DeployOutcome(e: DeployEvent, current: Web3Instance): (r: Settlement<Web3Instance>)
    ensures r.Pending? <==> e.DeployFailed? || (e.DeploySubmitted? && e.error.None?)
    ensures r.Resolved? <==> e.DeployConfirmed?
    ensures r.Resolved? ==> r.value == current
    ensures r.Rejected? ==> e.DeploySubmitted? && e.error == Some(r.reason)
  {
    match e
    case DeploySubmitted(err, _) => if err.Some? then Rejected(err.value) else Pending
    case DeployConfirmed(_, _) => Resolved(current)
    case DeployFailed(_) => Pending
  }

  /**
   * One deploy callback: a submission records its hash (even with an
   * error), a confirmation records the receipt and the instance address.
   */
  function DeployStep(v: DeployView, e: DeployEvent): (r: DeployView)
    ensures r.handle.code == v.handle.code && r.handle.instance == v.handle.instance
    ensures r.handle.transactionHash == if e.DeploySubmitted? then e.hash else v.handle.transactionHash
    ensures r.handle.receipt == if e.DeployConfirmed? then Some(e.receipt) else v.handle.receipt
    ensures r.handle.address == if e.DeployConfirmed? then e.receipt.contractAddress else v.handle.address
    ensures !v.promise.Pending? ==> r.promise == v.promise
    ensures v.promise.Pending? ==> r.promise == DeployOutcome(e, v.handle.instance)
  {
    var h := v.handle;
    var promise := Settle(v.promise, DeployOutcome(e, h.instance));
    match e
    case DeploySubmitted(_, hash) => DeployView(h.(transactionHash := hash), promise)
    case DeployConfirmed(_, r) => DeployView(h.(receipt := Some(r), address := r.contractAddress), promise)
    case DeployFailed(_) => DeployView(h, promise)
  }

  /** How a `set` event settles its promise; `set` touches no handle field. */
  function SetOutcome(e: SetEvent): (r: Settlement<Receipt>)
    ensures r.Pending? <==> e.SetSubmitted? && e.error.None?
    ensures e.SetSubmitted? && e.error.Some? ==> r == Rejected(e.error.value)
    ensures e.SetConfirmed? ==> r == Resolved(e.receipt)
    ensures e.SetFailed? ==> r == Rejected(e.reason)
  {
    match e
    case SetSubmitted(err, _) => if err.Some? then Rejected(err.value) else Pending
    case SetConfirmed(_, r) => Resolved(r)
    case SetFailed(err) => Rejected(err)
  }

  /** One `set` callback: it offers its outcome to the promise and nothing else. */
  function SetStep(s: Settlement<Receipt>, e: SetEvent): (r: Settlement<Receipt>)
    ensures !s.Pending? ==> r == s
    ensures s.Pending? ==> r == SetOutcome(e)
  {
    Settle(s, SetOutcome(e))
  }

  class Contract {
    var instance: Web3Instance
    var code: string
    var receipt: Option<Receipt>
    var transactionHash: Option<Hash>

    function State(): (h: HandleState)
      reads this, instance
    {
      HandleState(code, receipt, transactionHash, instance, instance.address)
    }

    /** `new Contract(web3, abi, code, isQuorum)`; web3 itself is not modelled. */
    constructor (abi: Abi, code: string, isQuorum: bool)
      ensures fresh(instance) && instance.abi == abi && instance.address == None
      ensures GetCode() == NormalizedCode(code, isQuorum)
      ensures GetReceipt() == None && GetTransactionHash() == None
    {
      instance := new Web3Instance(abi);
      this.code := NormalizedCode(code, isQuorum);
      receipt := None;
      transactionHash := None;
    }

    /** `getCode`: the bytecode as normalised at construction. */
    function GetCode(): (c: string)
      reads this, instance
      ensures c == State().code
    {
      code
    }

    /** `getInstance`: the current instance, carrying the handle's address. */
    function GetInstance(): (i: Web3Instance)
      reads this, instance
      ensures i == State().instance && i.address == State().address
    {
      instance
    }

    /** `getReceipt`: the receipt of the last deploy confirmation, if any. */
    function GetReceipt(): (r: Option<Receipt>)
      reads this, instance
      ensures r == State().receipt
    {
      receipt
    }

    /** `getTransactionHash`: the hash of the last deploy submission, if any. */
    function GetTransactionHash(): (h: Option<Hash>)
      reads this, instance
      ensures h == State().transactionHash
    {
      transactionHash
    }

    /**
     * `deployContract`: builds the send parameters and a fresh pending
     * promise; the handle changes only when the callbacks below run.
     */
    method DeployContract(args: seq<Value>, from: Value, value: Option<int>, options: map<string, Value>)
      returns (request: DeployRequest, p: Promise<Web3Instance>)
      ensures request.data == code && request.arguments == args
      ensures request.params == SendParams(from, value, options)
      ensures fresh(p) && p.state == Pending
    {
      var params := BuildSendParams(from, value, options);
      request := DeployRequest(code, args, params);
      p := new Promise<Web3Instance>();
    }

    /** The `send` callback of a deployment: rejects on error, records the hash regardless. */
    method OnDeploySubmit(p: Promise<Web3Instance>, error: Option<Error>, hash: Option<Hash>)
      modifies this`transactionHash, p
      ensures DeployView(State(), p.state) == DeployStep(DeployView(old(State()), old(p.state)), DeploySubmitted(error, hash))
      ensures GetTransactionHash() == hash
      ensures error.Some? ==> p.state == Settle(old(p.state), Rejected(error.value))
      ensures error.None? ==> p.state == old(p.state)
    {
      if error.Some? {
        p.Reject(error.value);
      }
      transactionHash := hash;
    }

    /** The `confirmation` handler of a deployment. */
    method OnDeployConfirmation(p: Promise<Web3Instance>, confirmationNumber: nat, r: Receipt)
      modifies this`receipt, instance`address, p
      ensures DeployView(State(), p.state) == DeployStep(DeployView(old(State()), old(p.state)), DeployConfirmed(confirmationNumber, r))
      ensures GetReceipt() == Some(r) && instance.address == r.contractAddress
      ensures p.state == Settle(old(p.state), Resolved(GetInstance()))
    {
      receipt := Some(r);
      instance.address := r.contractAddress;
      p.Resolve(instance);
    }

    /** The `error` handler of a deployment: it returns `reject` without calling it. */
    method OnDeployError(p: Promise<Web3Instance>, e: Error)
      ensures DeployView(State(), p.state) == DeployStep(DeployView(old(State()), old(p.state)), DeployFailed(e))
    {
    }

    /** `get`: the call sends only `from`; the result comes from web3. */
    method Get(functionName: string, args: seq<Value>, from: Value) returns (request: CallRequest)
      ensures request.functionName == functionName && request.arguments == args
      ensures request.params == GetParams(from)
    {
      request := CallRequest(functionName, args, GetParams(from));
    }

    /** `set`: the same send parameters as a deployment, and a fresh pending promise. */
    method Set(functionName: string, args: seq<Value>, from: Value, value: Option<int>, options: map<string, Value>)
      returns (request: CallRequest, p: Promise<Receipt>)
      ensures request.functionName == functionName && request.arguments == args
      ensures request.params == SendParams(from, value, options)
      ensures fresh(p) && p.state == Pending
    {
      var params := BuildSendParams(from, value, options);
      request := CallRequest(functionName, args, params);
      p := new Promise<Receipt>();
    }

    /** The `send` callback of `set`: rejects on error; the hash is not stored. */
    method OnSetSubmit(p: Promise<Receipt>, error: Option<Error>, hash: Option<Hash>)
      modifies p
      ensures p.state == SetStep(old(p.state), SetSubmitted(error, hash))
    {
      if error.Some? {
        p.Reject(error.value);
      }
    }

    /** The `confirmation` handler of `set`: resolves with the receipt, which is not stored. */
    method OnSetConfirmation(p: Promise<Receipt>, confirmationNumber: nat, r: Receipt)
      modifies p
      ensures p.state == SetStep(old(p.state), SetConfirmed(confirmationNumber, r))
    {
      p.Resolve(r);
    }

    /** The `error` handler of `set`: `reject` itself. */
    method OnSetError(p: Promise<Receipt>, e: Error)
      modifies p
      ensures p.state == SetStep(old(p.state), SetFailed(e))
    {
      p.Reject(e);
    }

    /** `setAddress`: overwrites the address slot of the current instance. */
    method SetAddress(address: Option<Address>)
      modifies instance`address
      ensures State() == old(State()).(address := address)
    {
      instance.address := address;
    }

    /** `setAbi`: replaces the instance by a fresh one, which has no address. */
    method SetAbi(abi: Abi)
      modifies this`instance
      ensures fresh(GetInstance()) && GetInstance().abi == abi && GetInstance().address == None
      ensures State() == old(State()).(instance := instance, address := None)
      ensures old(instance).address == old(instance.address)
    {
      instance := new Web3Instance(abi);
    }
  }
}
