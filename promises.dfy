/**
 * A promise that settles at most once: it starts Pending, and the first
 * call of `resolve` or `reject` decides it; later calls have no effect.
 */
module Promises {
  import opened Js

  datatype Settlement<T> = Pending | Resolved(value: T) | Rejected(reason: Error)

  /**
   * The state after offering `outcome` to a promise in state `s`; offering
   * `Pending` stands for an event that neither resolves nor rejects.
   */
  function Settle<T>(s: Settlement<T>, outcome: Settlement<T>): (r: Settlement<T>)
  {
    if s.Pending? then outcome else s
  }

  /** The state after offering every outcome of `outcomes`, in order. */
  function SettleAll<T>(s: Settlement<T>, outcomes: seq<Settlement<T>>): (r: Settlement<T>)
    decreases |outcomes|
  {
    if outcomes == [] then s else SettleAll(Settle(s, outcomes[0]), outcomes[1..])
  }

  /** The first outcome of `outcomes` that settles, or `Pending` if none does. */
  function FirstSettled<T>(outcomes: seq<Settlement<T>>): (r: Settlement<T>)
    decreases |outcomes|
  {
    if outcomes == [] then Pending
    else if outcomes[0].Pending? then FirstSettled(outcomes[1..])
    else outcomes[0]
  }

  /**
   * Only the first settlement takes effect: a pending promise ends in the
   * first settling outcome offered to it, a settled one never changes.
   */
  lemma {:induction false} OnlyFirstSettlementCounts<T>(s: Settlement<T>, outcomes: seq<Settlement<T>>)
    ensures SettleAll(s, outcomes) == if s.Pending? then FirstSettled(outcomes) else s
    decreases |outcomes|
  {
    if outcomes != [] {
      OnlyFirstSettlementCounts(Settle(s, outcomes[0]), outcomes[1..]);
    }
  }

  /** The caller-visible promise returned by `deployContract` and `set`. */
  class Promise<T> {
    var state: Settlement<T>

    constructor ()
      ensures state == Pending
    {
      state := Pending;
    }

    /** `resolve(v)`: settles with `v` unless the promise is already settled. */
    method Resolve(v: T)
      modifies this
      ensures state == Settle(old(state), Resolved(v))
      ensures old(state).Pending? ==> state == Resolved(v)
      ensures !old(state).Pending? ==> state == old(state)
    {
      if state.Pending? {
        state := Resolved(v);
      }
    }

    /** `reject(e)`: settles with `e` unless the promise is already settled. */
    method Reject(e: Error)
      modifies this
      ensures state == Settle(old(state), Rejected(e))
      ensures old(state).Pending? ==> state == Rejected(e)
      ensures !old(state).Pending? ==> state == old(state)
    {
      if state.Pending? {
        state := Rejected(e);
      }
    }
  }
}
