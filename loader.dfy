/**
 * The `OpenCVWrapper` class: injecting the library script, polling for the
 * global it registers, sharing one injection among concurrent `initialize()`
 * calls, and the façade getters guarded by `checkInitialization`.
 *
 * The browser is replaced by explicit events: `Initialize` (a call of
 * `initialize()`), `ScriptError` (the `error` event of the script element) and
 * `Tick` (one 200 ms timer callback of one injection's polling). Promise
 * reactions queued by a settlement run at the end of the tick that caused it,
 * in the order they were registered, before any other event.
 */
module Loader {
  import opened Wrappers
  import opened Promises
  import opened Native
  import Polling
  import ScriptUrl
  import MatOps
  import ContourOps

  const NotInitialized: string := "Need to initialize OpenCV first"
  const ScriptType: string := "text/javascript"

  /** A `<script>` element created by `inject`. */
  datatype ScriptElement = ScriptElement(id: nat, scriptType: string, src: string)

  /** One call of `initialize()`: the injection it awaits and the state of the promise it returned. */
  datatype Call = Call(injection: nat, state: State)

  /** A promise reaction, as the event loop ran it. */
  datatype Reaction =
    | ClearInjection(injection: nat)    // the `.finally` callback: injectionProcess = null
    | Resume(call: nat, outcome: State) // an awaiting `initialize()` continues (or rethrows)

  /**
   * A factory closure over the wrapper itself: it reads `this.cv` each time it
   * runs, not when the getter that built it ran.
   */
  datatype LateBoundFactory = LateBoundFactory(owner: OpenCVWrapper) {
    /** The library handle a factory call passes to the implementation it builds. */
    function Cv(): (c: Option<CvModule>)
      reads owner
    {
      owner.cv
    }
  }

  datatype SegmentationSpace = SegmentationSpace(intelligentScissorsFactory: LateBoundFactory)
  datatype ImgProcSpace = ImgProcSpace(hist: LateBoundFactory)
  /** `trackerMIL`: a factory of trackers and its descriptive fields. */
  datatype TrackerDescription = TrackerDescription(model: LateBoundFactory, name: string, description: string, kind: string)
  datatype TrackingSpace = TrackingSpace(trackerMIL: TrackerDescription)

  /** `el.remove()` on the list of elements in the page head. */
  function Detach(head: seq<ScriptElement>, e: ScriptElement): (r: seq<ScriptElement>)
    ensures forall x :: x in r <==> x in head && x != e
    ensures multiset(r) == multiset(head)[e := 0]
    ensures e !in head ==> r == head
  {
    if head == [] then []
    else
      assert head == [head[0]] + head[1..];
      (if head[0] == e then [] else [head[0]]) + Detach(head[1..], e)
  }

  /** The calls after injection `i` settled with `s`: each call awaiting it takes on `s`. */
  function SettleCalls(calls: seq<Call>, i: nat, s: State): (r: seq<Call>)
    ensures |r| == |calls|
    ensures forall c :: 0 <= c < |calls| ==> r[c] == if calls[c].injection == i then Call(i, s) else calls[c]
  {
    seq(|calls|, c requires 0 <= c < |calls| => if calls[c].injection == i then Call(i, s) else calls[c])
  }

  /** The resumptions, in registration order, of the first `n` calls that await injection `i`. */
  function Resumes(calls: seq<Call>, i: nat, n: nat, s: State): (r: seq<Reaction>)
    requires n <= |calls|
  {
    if n == 0 then []
    else Resumes(calls, i, n - 1, s) + (if calls[n - 1].injection == i then [Resume(n - 1, s)] else [])
  }

  /** Some call of `initialize()` awaits injection `i`. */
  ghost predicate AwaitedBy(calls: seq<Call>, i: nat)
  {
    exists c :: 0 <= c < |calls| && calls[c].injection == i
  }

  /** Some call of `initialize()` has resolved. */
  ghost predicate AnyResolved(calls: seq<Call>)
  {
    exists c :: 0 <= c < |calls| && calls[c].state == Resolved
  }

  /** Every call's promise is in the state of the injection it awaits. */
  ghost predicate Mirrors(calls: seq<Call>, polls: seq<Polling.Poll>)
  {
    forall c :: 0 <= c < |calls| ==>
      calls[c].injection < |polls| && calls[c].state == polls[calls[c].injection].promise
  }

  /**
   * The loader invariant over the promise-related fields: at most one injection
   * is pending and it is the one `injectionProcess` holds; every injection was
   * started by some call; every call is in its injection's state; and the
   * wrapper is initialized exactly when some call has resolved.
   */
  ghost predicate Coherent(inj: Option<nat>, polls: seq<Polling.Poll>, calls: seq<Call>, initialized: bool, cv: Option<CvModule>)
  {
    && (inj.Some? ==> inj.value < |polls|)
    && (forall i :: 0 <= i < |polls| ==> (polls[i].promise == Pending <==> inj == Some(i)))
    && (forall i :: 0 <= i < |polls| ==> AwaitedBy(calls, i))
    && Mirrors(calls, polls)
    && (initialized <==> AnyResolved(calls))
    && (initialized ==> cv.Some?)
  }

  /** A check that leaves its promise's state as it was keeps the invariant. */
  lemma CheckKeepsCoherent(inj: Option<nat>, polls: seq<Polling.Poll>, calls: seq<Call>, initialized: bool,
                           cv: Option<CvModule>, i: nat, q: Polling.Poll, cv': Option<CvModule>)
    requires Coherent(inj, polls, calls, initialized, cv)
    requires i < |polls| && q.promise == polls[i].promise
    requires cv.Some? ==> cv'.Some?
    ensures Coherent(inj, polls[i := q], calls, initialized, cv')
  {
  }

  /** Settling the pending injection `i`, with the reactions run, keeps the invariant. */
  lemma SettleKeepsCoherent(inj: Option<nat>, polls: seq<Polling.Poll>, calls: seq<Call>, initialized: bool,
                            cv: Option<CvModule>, i: nat, q: Polling.Poll, cv': Option<CvModule>)
    requires Coherent(inj, polls, calls, initialized, cv)
    requires i < |polls| && polls[i].promise == Pending && q.promise != Pending
    requires q.promise == Resolved ==> cv'.Some?
    requires cv.Some? ==> cv'.Some?
    ensures Coherent(None, polls[i := q], SettleCalls(calls, i, q.promise), initialized || q.promise == Resolved, cv')
  {
    var polls', calls' := polls[i := q], SettleCalls(calls, i, q.promise);
    forall j | 0 <= j < |polls'| ensures AwaitedBy(calls', j) {
      assert AwaitedBy(calls, j);
      var w :| 0 <= w < |calls| && calls[w].injection == j;
      assert calls'[w].injection == j;
    }
    forall c | 0 <= c < |calls'|
      ensures calls'[c].injection < |polls'| && calls'[c].state == polls'[calls'[c].injection].promise
    {
    }
    if q.promise == Resolved {
      assert AwaitedBy(calls, i);
      var w :| 0 <= w < |calls| && calls[w].injection == i;
      assert calls'[w].state == Resolved;
    } else {
      if AnyResolved(calls') {
        var w :| 0 <= w < |calls'| && calls'[w].state == Resolved;
        assert calls[w].injection != i;
      }
      if AnyResolved(calls) {
        var w :| 0 <= w < |calls| && calls[w].state == Resolved;
        assert calls[w].injection != i;
        assert calls'[w].state == Resolved;
      }
    }
  }

  class OpenCVWrapper {
    /** `core.config.backendAPI`, read once when the module loads. */
    const backendAPI: string

    // The fields of the source class.
    var script: Option<ScriptElement>    // #script
    var initialized: bool
    var cv: Option<CvModule>
    var injectionProcess: Option<nat>    // the in-flight injection, as an index into polls

    // The page and the event loop.
    var head: seq<ScriptElement>         // script elements attached to the document head
    var created: nat                     // script elements created so far
    var polls: seq<Polling.Poll>         // one per call of inject(): its wait() promise and timer
    var calls: seq<Call>                 // one per call of initialize()
    ghost var reactions: seq<Reaction>   // promise reactions run so far, in order

    ghost predicate Valid()
      reads this
    {
      && (script.Some? ==>
            script.value.src == ScriptUrl.Url(backendAPI) && script.value.scriptType == ScriptType
            && script.value.id < created)
      && head == (if script.Some? then [script.value] else [])
      && Coherent(injectionProcess, polls, calls, initialized, cv)
    }

    constructor (backendAPI: string)
      ensures Valid()
      ensures this.backendAPI == backendAPI
      ensures script.None? && !initialized && cv.None? && injectionProcess.None?
      ensures head == [] && created == 0 && polls == [] && calls == [] && reactions == []
    {
      this.backendAPI := backendAPI;
      script := None;
      initialized := false;
      cv := None;
      injectionProcess := None;
      head := [];
      created := 0;
      polls := [];
      calls := [];
      reactions := [];
    }

    /**
     * `inject()` up to its `await`: creates and appends a script element when
     * `#script` is null, then starts `wait()`, whose first check is scheduled.
     * Returns the new injection.
     */
    method Inject() returns (j: nat)
      requires Valid() && injectionProcess.None?
      modifies this`script, this`head, this`created, this`polls
      ensures j == |old(polls)| && polls == old(polls) + [Polling.Start()]
      ensures old(script).Some? ==> script == old(script) && head == old(head) && created == old(created)
      ensures old(script).None? ==>
        && script == Some(ScriptElement(old(created), ScriptType, ScriptUrl.Url(backendAPI)))
        && head == old(head) + [script.value] && created == old(created) + 1
    {
      var url := ScriptUrl.Url(backendAPI);
      if script.None? {
        var element := ScriptElement(created, ScriptType, url);
        created := created + 1;
        script := Some(element);
        head := head + [element];
      }
      j := |polls|;
      polls := polls + [Polling.Start()];
    }

    /**
     * `initialize()` up to its `await`: starts an injection unless one is in
     * flight, then awaits the in-flight one. Returns the new call.
     */
    method Initialize() returns (c: nat)
      requires Valid()
      modifies this`script, this`head, this`created, this`polls, this`injectionProcess, this`calls
      ensures Valid()
      ensures old(injectionProcess).Some? ==>
        injectionProcess == old(injectionProcess) && polls == old(polls) && script == old(script) && created == old(created)
      ensures old(injectionProcess).None? ==>
        injectionProcess == Some(|old(polls)|) && polls == old(polls) + [Polling.Start()]
      ensures old(injectionProcess).None? && old(script).Some? ==> script == old(script) && created == old(created)
      ensures old(injectionProcess).None? && old(script).None? ==>
        script == Some(ScriptElement(old(created), ScriptType, ScriptUrl.Url(backendAPI))) && created == old(created) + 1
      ensures injectionProcess.Some? && c == |old(calls)| && calls == old(calls) + [Call(injectionProcess.value, Pending)]
    {
      if injectionProcess.None? {
        var j := Inject();
        injectionProcess := Some(j);
      }
      c := |calls|;
      calls := calls + [Call(injectionProcess.value, Pending)];
      assert forall i :: 0 <= i < |old(polls)| ==> AwaitedBy(calls, i) by {
        forall i | 0 <= i < |old(polls)| ensures AwaitedBy(calls, i) {
          assert AwaitedBy(old(calls), i);
          var w :| 0 <= w < |old(calls)| && old(calls)[w].injection == i;
          assert calls[w] == old(calls)[w];
        }
      }
      assert AwaitedBy(calls, injectionProcess.value) by { assert calls[c].injection == injectionProcess.value; }
      assert AnyResolved(calls) == AnyResolved(old(calls)) by {
        if AnyResolved(calls) {
          var w :| 0 <= w < |calls| && calls[w].state == Resolved;
          assert w < |old(calls)| && old(calls)[w] == calls[w];
        }
        if AnyResolved(old(calls)) {
          var w :| 0 <= w < |old(calls)| && old(calls)[w].state == Resolved;
          assert calls[w] == old(calls)[w];
        }
      }
    }

    /** The script element's `error` event: its listener removes the element and clears `#script`. */
    method ScriptError()
      requires Valid() && script.Some?
      modifies this`script, this`head
      ensures Valid()
      ensures script.None? && head == []
    {
      var e := script.value;
      assert Detach(head, e) == [] by { assert head == [e]; }
      head := Detach(head, e);
      script := None;
    }

    /**
     * One timer callback of injection `i`. If it settles the injection's
     * promise, the queued reactions run: first the `.finally` that clears
     * `injectionProcess`, then every awaiting `initialize()` in call order, each
     * setting `initialized` when the injection resolved.
     */
    method Tick(i: nat, windowCv: Option<CvModule>)
      requires Valid() && i < |polls| && polls[i].scheduled
      modifies this`polls, this`cv, this`injectionProcess, this`calls, this`initialized, this`reactions
      ensures Valid()
      ensures polls == old(polls)[i := Polling.Check(old(polls[i]), Polling.Observation(script.Some?, windowCv)).0]
      ensures cv == if windowCv.Some? then windowCv else old(cv)
      ensures old(polls[i].promise) == Pending && polls[i].promise != Pending ==>
        && injectionProcess.None?
        && calls == SettleCalls(old(calls), i, polls[i].promise)
        && initialized == (old(initialized) || polls[i].promise == Resolved)
        && reactions == old(reactions) + [ClearInjection(i)] + Resumes(old(calls), i, |old(calls)|, polls[i].promise)
      ensures !(old(polls[i].promise) == Pending && polls[i].promise != Pending) ==>
        && injectionProcess == old(injectionProcess) && calls == old(calls)
        && initialized == old(initialized) && reactions == old(reactions)
    {
      var before := polls[i].promise;
      var step := Polling.Check(polls[i], Polling.Observation(script.Some?, windowCv));
      ghost var polls0, calls0, initialized0, cv0 := polls, calls, initialized, cv;
      polls := polls[i := step.0];
      if step.1.Some? {
        cv := step.1;
      }
      var outcome := step.0.promise;
      if before == Pending && outcome != Pending {
        injectionProcess := None;
        reactions := reactions + [ClearInjection(i)];
        RunReactions(i, outcome);
        SettleKeepsCoherent(Some(i), polls0, calls0, initialized0, cv0, i, step.0, cv);
      } else {
        CheckKeepsCoherent(injectionProcess, polls0, calls0, initialized0, cv0, i, step.0, cv);
      }
    }

    /**
     * The awaiting calls of injection `i` resume in call order once it settled
     * with `outcome`: each takes on the outcome, and a resolved one sets `initialized`.
     */
    method RunReactions(i: nat, outcome: State)
      requires outcome != Pending
      modifies this`calls, this`initialized, this`reactions
      ensures calls == SettleCalls(old(calls), i, outcome)
      ensures initialized == (old(initialized) || (outcome == Resolved && AwaitedBy(old(calls), i)))
      ensures reactions == old(reactions) + Resumes(old(calls), i, |old(calls)|, outcome)
    {
      ghost var calls0 := calls;
      var c := 0;
      while c < |calls|
        invariant 0 <= c <= |calls| == |calls0|
        invariant forall d :: 0 <= d < c ==> calls[d] == SettleCalls(calls0, i, outcome)[d]
        invariant forall d :: c <= d < |calls| ==> calls[d] == calls0[d]
        invariant initialized == (old(initialized) || (outcome == Resolved && exists d :: 0 <= d < c && calls0[d].injection == i))
        invariant reactions == old(reactions) + Resumes(calls0, i, c, outcome)
      {
        if calls[c].injection == i {
          calls := calls[c := Call(i, outcome)];
          if outcome == Resolved {
            initialized := true;
          }
          reactions := reactions + [Resume(c, outcome)];
        }
        c := c + 1;
      }
      assert calls == SettleCalls(calls0, i, outcome);
    }

    /** `checkInitialization()`: throws unless some call of `initialize()` has completed. */
    function CheckInitialization(): (r: Outcome<string>)
      reads this
      requires Valid()
      ensures r == Pass <==> AnyResolved(calls)
      ensures r.Fail? ==> r.error == NotInitialized
    {
      if !initialized then Fail(NotInitialized) else Pass
    }

    /** The `isInitialized` getter. */
    function IsInitialized(): (r: bool)
      reads this
      requires Valid()
      ensures r <==> AnyResolved(calls)
    {
      initialized
    }

    /** The `initializationInProgress` getter. */
    function InitializationInProgress(): (r: bool)
      reads this
      requires Valid()
      ensures r <==> exists i :: 0 <= i < |polls| && polls[i].promise == Pending
    {
      injectionProcess.Some?
    }

    /** The `mat` getter. */
    function Mat(): (r: Result<MatOps.MatSpace, string>)
      reads this
      requires Valid()
      ensures r.Err? <==> !AnyResolved(calls)
      ensures r.Err? ==> r.error == NotInitialized
      ensures r.Ok? ==> cv == Some(r.value.cv)
    {
      match CheckInitialization()
      case Fail(e) => Err(e)
      case Pass => Ok(MatOps.MatSpace(cv.value))
    }

    /** The `matVector` getter. */
    function MatVector(): (r: Result<MatOps.MatVectorSpace, string>)
      reads this
      requires Valid()
      ensures r.Err? <==> !AnyResolved(calls)
      ensures r.Err? ==> r.error == NotInitialized
      ensures r.Ok? ==> cv == Some(r.value.cv)
    {
      match CheckInitialization()
      case Fail(e) => Err(e)
      case Pass => Ok(MatOps.MatVectorSpace(cv.value))
    }

    /** The `contours` getter. */
    function Contours(): (r: Result<ContourOps.ContoursSpace, string>)
      reads this
      requires Valid()
      ensures r.Err? <==> !AnyResolved(calls)
      ensures r.Err? ==> r.error == NotInitialized
      ensures r.Ok? ==> cv == Some(r.value.cv)
    {
      match CheckInitialization()
      case Fail(e) => Err(e)
      case Pass => Ok(ContourOps.ContoursSpace(cv.value))
    }

    /** The `segmentation` getter. */
    function Segmentation(): (r: Result<SegmentationSpace, string>)
      reads this
      requires Valid()
      ensures r.Err? <==> !AnyResolved(calls)
      ensures r.Err? ==> r.error == NotInitialized
      ensures r.Ok? ==> r.value.intelligentScissorsFactory.owner == this && r.value.intelligentScissorsFactory.Cv().Some?
    {
      match CheckInitialization()
      case Fail(e) => Err(e)
      case Pass => Ok(SegmentationSpace(LateBoundFactory(this)))
    }

    /** The `imgproc` getter. */
    function ImgProc(): (r: Result<ImgProcSpace, string>)
      reads this
      requires Valid()
      ensures r.Err? <==> !AnyResolved(calls)
      ensures r.Err? ==> r.error == NotInitialized
      ensures r.Ok? ==> r.value.hist.owner == this && r.value.hist.Cv().Some?
    {
      match CheckInitialization()
      case Fail(e) => Err(e)
      case Pass => Ok(ImgProcSpace(LateBoundFactory(this)))
    }

    /** The `tracking` getter. */
    function Tracking(): (r: Result<TrackingSpace, string>)
      reads this
      requires Valid()
      ensures r.Err? <==> !AnyResolved(calls)
      ensures r.Err? ==> r.error == NotInitialized
      ensures r.Ok? ==> r.value.trackerMIL.model.owner == this && r.value.trackerMIL.model.Cv().Some?
      ensures r.Ok? ==> r.value.trackerMIL.name == "TrackerMIL" && r.value.trackerMIL.kind == "opencv_tracker_mil"
      ensures r.Ok? ==> r.value.trackerMIL.description == "Light client-side model useful to track simple objects"
    {
      match CheckInitialization()
      case Fail(e) => Err(e)
      case Pass =>
        Ok(TrackingSpace(TrackerDescription(LateBoundFactory(this), "TrackerMIL",
          "Light client-side model useful to track simple objects", "opencv_tracker_mil")))
    }
  }
}
