/** JavaScript promises as values: a promise is pending until its first settlement, which is final. */
module Promises {

  /** The state of a promise; `Rejected` carries the message of the `Error` it was rejected with. */
  datatype State = Pending | Resolved | Rejected(reason: string)

  /**
   * The state after `resolve()` (`s == Resolved`) or `reject(new Error(m))`
   * (`s == Rejected(m)`) is called on a promise in state `p`.
   */
  function Settle(p: State, s: State): (r: State)
    requires s != Pending
    ensures r != Pending
    ensures p != Pending ==> r == p
    ensures p == Pending ==> r == s
  {
    if p == Pending then s else p
  }

  /** The state after a series of calls to `resolve`/`reject`, in the order they were made. */
  function SettleAll(p: State, attempts: seq<State>): (r: State)
    requires forall k :: 0 <= k < |attempts| ==> attempts[k] != Pending
    decreases |attempts|
  {
    if attempts == [] then p else SettleAll(Settle(p, attempts[0]), attempts[1..])
  }

  /** A settled promise ignores every later call to `resolve` or `reject`. */
  lemma {:induction false} SettledIsFinal(p: State, attempts: seq<State>)
    requires p != Pending
    requires forall k :: 0 <= k < |attempts| ==> attempts[k] != Pending
    ensures SettleAll(p, attempts) == p
  {
    if attempts != [] {
      SettledIsFinal(Settle(p, attempts[0]), attempts[1..]);
    }
  }

  /** Of several settlements of a fresh promise, the first one wins. */
  lemma FirstSettlementWins(attempts: seq<State>)
    requires |attempts| > 0
    requires forall k :: 0 <= k < |attempts| ==> attempts[k] != Pending
    ensures SettleAll(Pending, attempts) == attempts[0]
  {
    SettledIsFinal(attempts[0], attempts[1..]);
  }
}
