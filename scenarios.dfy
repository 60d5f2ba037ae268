/**
 * Runs of the loader, driven event by event, with what each run is proved to
 * end in. They use only the contracts of the loader's methods.
 */
module Scenarios {
  import opened Wrappers
  import opened Promises
  import opened Native
  import Polling
  import opened Loader

  /**
   * Two `initialize()` calls before the library loads share one injection and
   * one script element, and both resolve on the first check that sees `window.cv`.
   */
  method SharedInjection(backendAPI: string, loaded: CvModule)
    returns (injections: nat, appended: nat, guardedBefore: bool, first: State, second: State, ready: bool)
    ensures injections == 1 && appended == 1
    ensures guardedBefore
    ensures first == Resolved && second == Resolved && ready
  {
    var w := new OpenCVWrapper(backendAPI);
    var c1 := w.Initialize();
    var c2 := w.Initialize();
    guardedBefore := w.Mat() == Err(NotInitialized) && w.InitializationInProgress();
    w.Tick(0, Some(loaded));
    injections, appended := |w.polls|, w.created;
    first, second := w.calls[c1].state, w.calls[c2].state;
    ready := w.IsInitialized() && !w.InitializationInProgress() && w.Contours().Ok?;
  }

  /**
   * When `window.cv` never appears, exactly 300 checks run and the call is
   * rejected with the timeout error; the wrapper stays uninitialized, and a
   * retry starts a new injection but appends no second script element.
   */
  method TimeoutThenRetry(backendAPI: string)
    returns (checks: nat, outcome: State, ready: bool, injections: nat, appended: nat)
    ensures checks == Polling.MaxChecks
    ensures outcome == Rejected(Polling.TimeoutError) && !ready
    ensures injections == 2 && appended == 1
  {
    var w := new OpenCVWrapper(backendAPI);
    var c := w.Initialize();
    checks := 0;
    while checks < Polling.MaxChecks
      invariant 0 <= checks <= Polling.MaxChecks
      invariant w.Valid() && |w.polls| == 1 && |w.calls| == 1 && w.created == 1 && w.script.Some?
      invariant !w.initialized
      invariant checks < Polling.MaxChecks ==>
        w.polls[0] == Polling.Poll(Polling.InitialTimeout - Polling.Interval * checks, Pending, true)
      invariant checks == Polling.MaxChecks ==> w.polls[0].promise == Rejected(Polling.TimeoutError)
      invariant checks == Polling.MaxChecks ==> !w.polls[0].scheduled
    {
      w.Tick(0, None);
      checks := checks + 1;
    }
    outcome := w.calls[c].state;
    ready := w.IsInitialized();
    var retry := w.Initialize();
    injections, appended := |w.polls|, w.created;
  }

  /**
   * A failed script load makes the next check reject with the fetch error even
   * though `window.cv` is present in that check (the global is still captured).
   * A retry appends exactly one new element and can succeed; a further call
   * after success appends none.
   */
  method FetchErrorThenRetry(backendAPI: string, loaded: CvModule)
    returns (failed: State, captured: Option<CvModule>, retried: State, appended: nat, attached: nat, ready: bool)
    ensures failed == Rejected(Polling.FetchError) && captured == Some(loaded)
    ensures retried == Resolved && ready
    ensures appended == 2 && attached == 1
  {
    var w := new OpenCVWrapper(backendAPI);
    var c1 := w.Initialize();
    w.ScriptError();
    w.Tick(0, Some(loaded));
    failed, captured := w.calls[c1].state, w.cv;
    var c2 := w.Initialize();
    assert c2 == 1 && w.calls[c2].injection == 1;
    w.Tick(1, Some(loaded));
    retried := w.calls[c2].state;
    var c3 := w.Initialize();
    appended, attached := w.created, |w.head|;
    ready := w.IsInitialized();
  }

  /**
   * The `mat` façade holds the library handle of the moment it was built; the
   * `segmentation` façade reads the wrapper's `cv` whenever its factory runs,
   * so it sees a handle captured by a later injection.
   */
  method LateBoundFacades(backendAPI: string, first: CvModule, second: CvModule)
    returns (matCv: CvModule, scissorsCv: Option<CvModule>)
    ensures matCv == first && scissorsCv == Some(second)
  {
    var w := new OpenCVWrapper(backendAPI);
    var c1 := w.Initialize();
    w.Tick(0, Some(first));
    var mat := w.Mat().value;
    var segmentation := w.Segmentation().value;
    var c2 := w.Initialize();
    w.Tick(1, Some(second));
    matCv := mat.cv;
    scissorsCv := segmentation.intelligentScissorsFactory.Cv();
  }
}
