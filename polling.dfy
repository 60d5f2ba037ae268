/**
 * The readiness check of `inject` (the `wait` promise): every 200 ms the
 * `checkInititalized` callback looks for the script element and for the global
 * `window.cv`, and a budget of 60000 ms is spent 200 ms per failed check.
 */
module Polling {
  import opened Wrappers
  import opened Promises
  import opened Native

  const InitialTimeout: int := 60000
  const Interval: int := 200
  /** InitialTimeout / Interval: the number of checks after which the budget is spent. */
  const MaxChecks: nat := 300

  const FetchError: string := "Could not fetch the script"
  const TimeoutError: string := "Initialization timeout"

  /**
   * One `wait` promise with its closure state: the remaining budget `timeout`,
   * the promise, and whether a `setTimeout` for the next check is pending.
   */
  datatype Poll = Poll(timeout: int, promise: State, scheduled: bool)

  /** `wait()` as called: budget 60000, promise pending, first check scheduled after 200 ms. */
  function Start(): (p: Poll)
  {
    Poll(InitialTimeout, Pending, true)
  }

  /** What one check sees: whether `#script` is set, and the value of `window.cv`. */
  datatype Observation = Observation(scriptPresent: bool, windowCv: Option<CvModule>)

  /**
   * One run of `checkInititalized`: the new poll, and the value it assigns to
   * the wrapper's `cv` field (None when it assigns nothing). The rejection for a
   * missing script does not stop the check, but only a first settlement counts.
   */
  function Check(p: Poll, o: Observation): (r: (Poll, Option<CvModule>))
    ensures r.1 == o.windowCv
    ensures r.0.timeout == if o.windowCv.Some? then p.timeout else p.timeout - Interval
    ensures r.0.scheduled <==> o.windowCv.None? && r.0.timeout > 0
    ensures p.promise != Pending ==> r.0.promise == p.promise
    ensures p.promise == Pending && !o.scriptPresent ==> r.0.promise == Rejected(FetchError)
    ensures p.promise == Pending && o.scriptPresent ==>
      r.0.promise == (if o.windowCv.Some? then Resolved
                      else if r.0.scheduled then Pending
                      else Rejected(TimeoutError))
  {
    var afterScript := if o.scriptPresent then p.promise else Settle(p.promise, Rejected(FetchError));
    if o.windowCv.Some? then
      (Poll(p.timeout, Settle(afterScript, Resolved), false), o.windowCv)
    else
      var t := p.timeout - Interval;
      if t > 0 then (Poll(t, afterScript, true), None)
      else (Poll(t, Settle(afterScript, Rejected(TimeoutError)), false), None)
  }

  /**
   * The whole chain of checks of one `wait()`, where check number k (from 0)
   * sees `obs(k)`. Returns the final poll, the number of checks that ran and
   * the value captured into `cv` by the last one.
   */
  method Wait(obs: nat -> Observation) returns (p: Poll, checks: nat, captured: Option<CvModule>)
    ensures 1 <= checks <= MaxChecks && !p.scheduled
    ensures forall k :: 0 <= k < checks - 1 ==> obs(k).windowCv.None?
    ensures checks < MaxChecks ==> obs(checks - 1).windowCv.Some?
    ensures captured == obs(checks - 1).windowCv
    ensures (forall k :: 0 <= k < MaxChecks ==> obs(k).windowCv.None?) ==> checks == MaxChecks && captured.None?
    ensures forall k :: 0 <= k < MaxChecks && obs(k).windowCv.Some? && (forall j :: 0 <= j < k ==> obs(j).windowCv.None?) ==>
      checks == k + 1 && captured == obs(k).windowCv
    ensures (exists k :: 0 <= k < checks && !obs(k).scriptPresent) ==> p.promise == Rejected(FetchError)
    ensures (forall k :: 0 <= k < checks ==> obs(k).scriptPresent) ==>
      p.promise == if captured.Some? then Resolved else Rejected(TimeoutError)
  {
    p := Start();
    checks := 0;
    captured := None;
    while p.scheduled
      invariant checks <= MaxChecks
      invariant p.scheduled ==> checks < MaxChecks && p.timeout == InitialTimeout - Interval * checks && captured.None?
      invariant p.scheduled ==> forall k :: 0 <= k < checks ==> obs(k).windowCv.None?
      invariant !p.scheduled ==> 1 <= checks && captured == obs(checks - 1).windowCv
      invariant !p.scheduled ==> forall k :: 0 <= k < checks - 1 ==> obs(k).windowCv.None?
      invariant !p.scheduled && checks < MaxChecks ==> obs(checks - 1).windowCv.Some?
      invariant (exists k :: 0 <= k < checks && !obs(k).scriptPresent) ==> p.promise == Rejected(FetchError)
      invariant (forall k :: 0 <= k < checks ==> obs(k).scriptPresent) ==>
        p.promise == if p.scheduled then Pending else if captured.Some? then Resolved else Rejected(TimeoutError)
      decreases MaxChecks - checks
    {
      var step := Check(p, obs(checks));
      p := step.0;
      if step.1.Some? {
        captured := step.1;
      }
      checks := checks + 1;
    }
  }
}
