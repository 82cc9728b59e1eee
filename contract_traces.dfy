/**
 * Sequences of callbacks on one handle: the receipt and address of the last
 * confirmation win, the hash of the last submission wins, and the promise
 * is decided by the first event that settles it.
 */
module ContractTraces {
  import opened Js
  import opened Promises
  import opened Web3
  import opened Contracts

  /** The view after the deploy callbacks `es`, run in order. */
  function RunDeploy(v: DeployView, es: seq<DeployEvent>): (r: DeployView)
    decreases |es|
  {
    if es == [] then v else RunDeploy(DeployStep(v, es[0]), es[1..])
  }

  /** The view of a `set` promise after the callbacks `es`, run in order. */
  function RunSet(s: Settlement<Receipt>, es: seq<SetEvent>): (r: Settlement<Receipt>)
    decreases |es|
  {
    if es == [] then s else RunSet(SetStep(s, es[0]), es[1..])
  }

  function Last<T>(s: seq<T>): (x: T)
    requires s != []
  {
    s[|s| - 1]
  }

  /** The hash arguments of the submission callbacks in `es`, in order. */
  function SubmittedHashes(es: seq<DeployEvent>): (hs: seq<Option<Hash>>)
    decreases |es|
  {
    if es == [] then []
    else (if es[0].DeploySubmitted? then [es[0].hash] else []) + SubmittedHashes(es[1..])
  }

  /** The receipts of the confirmations in `es`, in order. */
  function ConfirmedReceipts(es: seq<DeployEvent>): (rs: seq<Receipt>)
    decreases |es|
  {
    if es == [] then []
    else (if es[0].DeployConfirmed? then [es[0].receipt] else []) + ConfirmedReceipts(es[1..])
  }

  /** What each event of `es` offers to the deploy promise. */
  function DeployOutcomes(es: seq<DeployEvent>, current: Web3Instance): (os: seq<Settlement<Web3Instance>>)
    decreases |es|
  {
    if es == [] then [] else [DeployOutcome(es[0], current)] + DeployOutcomes(es[1..], current)
  }

  /** What each event of `es` offers to the `set` promise. */
  function SetOutcomes(es: seq<SetEvent>): (os: seq<Settlement<Receipt>>)
    decreases |es|
  {
    if es == [] then [] else [SetOutcome(es[0])] + SetOutcomes(es[1..])
  }

  /** No deploy callback changes the bytecode or replaces the instance. */
  lemma {:induction false} RunDeployKeepsCodeAndInstance(v: DeployView, es: seq<DeployEvent>)
    ensures RunDeploy(v, es).handle.code == v.handle.code
    ensures RunDeploy(v, es).handle.instance == v.handle.instance
    decreases |es|
  {
    if es != [] {
      RunDeployKeepsCodeAndInstance(DeployStep(v, es[0]), es[1..]);
    }
  }

  /**
   * The stored transaction hash is the hash of the last submission callback,
   * whether or not that callback carried an error.
   */
  lemma {:induction false} LastSubmissionHashWins(v: DeployView, es: seq<DeployEvent>)
    ensures var hs := SubmittedHashes(es);
      RunDeploy(v, es).handle.transactionHash == if hs == [] then v.handle.transactionHash else Last(hs)
    decreases |es|
  {
    if es != [] {
      LastSubmissionHashWins(DeployStep(v, es[0]), es[1..]);
    }
  }

  /**
   * The stored receipt and the instance address come from the last
   * confirmation; without a confirmation both keep their values.
   */
  lemma {:induction false} LastConfirmationWins(v: DeployView, es: seq<DeployEvent>)
    ensures var rs := ConfirmedReceipts(es);
      var h := RunDeploy(v, es).handle;
      if rs == [] then h.receipt == v.handle.receipt && h.address == v.handle.address
      else h.receipt == Some(Last(rs)) && h.address == Last(rs).contractAddress
    decreases |es|
  {
    if es != [] {
      LastConfirmationWins(DeployStep(v, es[0]), es[1..]);
    }
  }

  lemma {:induction false} RunDeployOffersOutcomes(v: DeployView, es: seq<DeployEvent>)
    ensures RunDeploy(v, es).promise == SettleAll(v.promise, DeployOutcomes(es, v.handle.instance))
    decreases |es|
  {
    if es != [] {
      RunDeployKeepsCodeAndInstance(v, es[..1]);
      RunDeployOffersOutcomes(DeployStep(v, es[0]), es[1..]);
    }
  }

  /**
   * The deploy promise is decided by the first submission error or the first
   * confirmation, whichever comes first; repeated confirmations and later
   * errors cannot change it.
   */
  lemma DeployPromiseSettlesOnce(v: DeployView, es: seq<DeployEvent>)
    ensures RunDeploy(v, es).promise ==
      if v.promise.Pending? then FirstSettled(DeployOutcomes(es, v.handle.instance)) else v.promise
  {
    RunDeployOffersOutcomes(v, es);
    OnlyFirstSettlementCounts(v.promise, DeployOutcomes(es, v.handle.instance));
  }

  /** `error` events of a deployment change no field and settle nothing. */
  lemma {:induction false} DeployErrorsChangeNothing(v: DeployView, es: seq<DeployEvent>)
    requires forall i :: 0 <= i < |es| ==> es[i].DeployFailed?
    ensures RunDeploy(v, es) == v
    decreases |es|
  {
    if es != [] {
      assert DeployStep(v, es[0]) == v;
      DeployErrorsChangeNothing(v, es[1..]);
    }
  }

  lemma {:induction false} RunSetOffersOutcomes(s: Settlement<Receipt>, es: seq<SetEvent>)
    ensures RunSet(s, es) == SettleAll(s, SetOutcomes(es))
    decreases |es|
  {
    if es != [] {
      RunSetOffersOutcomes(SetStep(s, es[0]), es[1..]);
    }
  }

  /**
   * The `set` promise is decided by the first submission error, confirmation
   * or `error` event; an `error` event on a pending promise always rejects it.
   */
  lemma SetPromiseSettlesOnce(s: Settlement<Receipt>, es: seq<SetEvent>)
    ensures RunSet(s, es) == if s.Pending? then FirstSettled(SetOutcomes(es)) else s
    ensures s.Pending? && es != [] && es[0].SetFailed? ==> RunSet(s, es) == Rejected(es[0].reason)
  {
    RunSetOffersOutcomes(s, es);
    OnlyFirstSettlementCounts(s, SetOutcomes(es));
  }
}
