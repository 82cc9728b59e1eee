/**
 * A client of the handle, in the way the library is used: what a caller can
 * conclude from the contracts alone.
 */
module ContractScenarios {
  import opened Js
  import opened Promises
  import opened Params
  import opened Web3
  import opened Contracts

  method DeployThenRebind(abi: Abi, other: Abi, deployed: Address, redeployed: Address, h: Hash, e: Error)
  {
    var c := new Contract(abi, "600160005401", true);
    assert c.GetCode() == "0x600160005401";

    var req, p := c.DeployContract([], Str("0xAAA"), Some(0), map["gas" := Num(3000000)]);
    assert req.data == "0x600160005401";
    assert "value" !in req.params && req.params["gas"] == Num(3000000);

    c.OnDeploySubmit(p, None, Some(h));
    c.OnDeployError(p, e);
    assert p.state == Pending && c.GetTransactionHash() == Some(h);

    var r := Receipt(Some(deployed));
    c.OnDeployConfirmation(p, 1, r);
    var first := c.GetInstance();
    assert p.state == Resolved(first) && first.address == Some(deployed);
    assert c.GetReceipt() == Some(r);

    // A second confirmation overwrites the fields but not the settled promise.
    var r2 := Receipt(Some(redeployed));
    c.OnDeployConfirmation(p, 2, r2);
    assert p.state == Resolved(first) && c.GetReceipt() == Some(r2);
    assert first.address == Some(redeployed);

    // `set` leaves the handle alone, whatever its callbacks do.
    var call, q := c.Set("store", [Num(7)], Str("0xAAA"), Some(5), map["value" := Num(1)]);
    assert call.params["value"] == Num(5);
    c.OnSetError(q, e);
    c.OnSetConfirmation(q, 1, r);
    assert q.state == Rejected(e) && c.GetReceipt() == Some(r2);

    // A new ABI drops the address; the resolved instance keeps its own.
    c.SetAbi(other);
    assert c.GetInstance().address == None && c.GetCode() == "0x600160005401";
    assert first.address == Some(redeployed);
    c.SetAddress(Some(deployed));
    assert c.GetInstance().address == Some(deployed);
  }
}
