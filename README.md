# OpenCV loader and façade of the CVAT annotation UI, in Dafny

This project models `OpenCVWrapper`, the class in the CVAT web UI that loads the OpenCV.js
library and gives the rest of the UI a narrow interface to it. The class has five jobs:

- It injects one `<script>` element whose `src` comes from the configured backend API address.
- It polls every 200 ms for the global `window.cv`, with a 60000 ms budget.
- It lets concurrent `initialize()` calls share one in-flight injection.
- It guards its façade getters (`mat`, `matVector`, `contours`, `segmentation`, `imgproc`,
  `tracking`) with `checkInitialization`.
- It post-processes a few native calls: pick the longest contour, normalise degenerate
  polygons, map the pixel-format enumeration.

Layout, one module per concern:

- `wrappers.dfy`: `Option`, `Result` and `Outcome`. Thrown errors and `null`/`undefined` are modelled with these.
- `promises.dfy`: a promise is a value `Pending | Resolved | Rejected(msg)`. The first settlement wins.
- `script_url.dfy`: `baseURL` (`backendAPI.slice(0, -7)`) and the script address.
- `polling.dfy`: `Check` is one run of the `checkInititalized` callback. `Wait` is the whole countdown of one `wait()`, written as a loop.
- `native.dfy`: the library's heap of buffer objects. It records which buffers are live, so the model can show which buffers each operation leaves live. `findContours` and the corrected `approxPoly` delete every buffer they create exactly once. The buffers of `mat.empty()`, `matVector.empty()` and `mat.fromData` go to the caller. The code as written leaks `approx` when `matFromArray` throws (see Findings). A ghost log also records every buffer created, in order, with the arguments it was created from.
- `mat_ops.dfy`: `mat.empty`, `matVector.empty`, `mat.fromData` and the `MatType` table.
- `contour_ops.dfy`: `contours.findContours` and `contours.approxPoly`.
- `loader.dfy`: the class `OpenCVWrapper`, driven by explicit events. These are `Initialize` (a call of `initialize()`), `ScriptError` (the element's `error` event) and `Tick(i, windowCv)` (one 200 ms timer callback of injection `i`, seeing `window.cv == windowCv`).
- `scenarios.dfy`: event-by-event runs of the loader, each with its proved outcome.

Each call of `inject()` is kept as a `Poll` record: the state of its `wait()` promise, its
remaining budget, and whether a timer is pending. Each call of `initialize()` is kept as a `Call`
record: the injection it awaits and the state of the promise it returned. The class invariant
(`Loader.Coherent`) says these things:

- At most one injection is pending, and it is the one `injectionProcess` holds.
- Every injection was started by some call.
- Every call is in the state of the injection it awaits, so all concurrent callers see one outcome.
- `initialized` holds exactly when some call has resolved.
- Once `initialized` holds, `cv` holds a library handle.

The class predicate `OpenCVWrapper.Valid` adds `Coherent` to two more facts. The page head holds
exactly the current `#script` element. That element has type "text/javascript" and the script `src`.

When a check settles a promise, the reactions queued on it run before the next event, in the
order they were registered. First the `.finally` clears `injectionProcess`. Then each awaiting
call resumes, and each one that resolved sets `initialized`. A ghost log (`reactions`) records
that order.

In these points the code does something one might not expect, and the model follows the code:

- A failed injection leaves `initialized` as it was. It is not reset to false. Nothing ever resets it.
- Script elements are appended on the first call and again after every `error` event, not only on the first call.
- An `initialize()` call after success is not a no-op. It starts a new injection and a new countdown, whose first check 200 ms later resolves it. It appends no element.
- "Fewer than 3" in `approxPoly` counts list entries. For flat input that means fewer than three numbers.
- An empty flat list is wrapped as `[[]]`. So is an empty nested list, because `Array.isArray(points[0])` is false for both.
- `findContours` returns a list holding one contour. With no contours that list is `[undefined]` (`[None]` here).
- After the ‘Could not fetch the script’ rejection, polling goes on. A later check can still overwrite `cv`.

## Model

| member | source | states |
|---|---|---|
| `Promises.SettledIsFinal` | cvat-ui/src/utils/opencv-wrapper/opencv-wrapper.ts:84-98 | once settled, any series of later resolve/reject calls (`Settle`, folded by `SettleAll`) leaves the promise unchanged |
| `Promises.FirstSettlementWins` | cvat-ui/src/utils/opencv-wrapper/opencv-wrapper.ts:84-98 | of several settlements of a fresh promise the first one is its final state |
| `ScriptUrl.DropLast` | cvat-ui/src/utils/opencv-wrapper/opencv-wrapper.ts:13 | for n > 0, `slice(0, -n)` is the prefix of length max(len - n, 0) |
| `ScriptUrl.BaseUrl` | cvat-ui/src/utils/opencv-wrapper/opencv-wrapper.ts:13 | `baseURL` is the API address minus exactly its last 7 characters, or empty for a shorter address |
| `ScriptUrl.UrlOfApiAddress` | cvat-ui/src/utils/opencv-wrapper/opencv-wrapper.ts:13-67 | for an address origin + 7-character suffix the script `src` (`Url`, the template of line 67) is origin + "/assets/opencv.js" |
| `ScriptUrl.UrlOfShortAddress` | cvat-ui/src/utils/opencv-wrapper/opencv-wrapper.ts:13-67 | an address shorter than 7 characters gives the bare "/assets/opencv.js" |
| `Polling.Check` | cvat-ui/src/utils/opencv-wrapper/opencv-wrapper.ts:83-99 | one check: a missing script rejects with the fetch error first; a present global is captured into `cv` and resolves; otherwise the budget drops by 200 and the check is rescheduled while it stays positive, else the promise rejects with the timeout error; a settled promise is never changed |
| `Polling.Wait` | cvat-ui/src/utils/opencv-wrapper/opencv-wrapper.ts:81-102 | starting from `Start` (a pending promise, budget 60000, the first timer set, lines 81-82 and 101), between 1 and 300 checks run; if the global never appears exactly 300 run and nothing is captured; if it first appears at check k, exactly k+1 run and it is captured; the promise rejects with the fetch error if any check saw no script, else resolves iff the global was seen, else rejects with the timeout error |
| `MatOps.ToCvType` | cvat-ui/src/utils/opencv-wrapper/opencv-wrapper.ts:133-137 | each `MatType` maps to the 8-bit library format with the same channel count (1, 3 or 4) |
| `MatOps.ToCvTypeInjective` | cvat-ui/src/utils/opencv-wrapper/opencv-wrapper.ts:41-45 | distinct `MatType` members map to distinct library formats |
| `MatOps.Empty` | cvat-ui/src/utils/opencv-wrapper/opencv-wrapper.ts:130 | `mat.empty()` creates exactly one new empty buffer, owned by the caller |
| `MatOps.EmptyVector` | cvat-ui/src/utils/opencv-wrapper/opencv-wrapper.ts:149 | `matVector.empty()` creates exactly one new empty vector |
| `MatOps.FromData` | cvat-ui/src/utils/opencv-wrapper/opencv-wrapper.ts:132-141 | the new buffer is built with rows = height, cols = width, the mapped type and the data; a library error propagates and creates nothing |
| `ContourOps.FirstLongest` | cvat-ui/src/utils/opencv-wrapper/opencv-wrapper.ts:171 | the index of a contour no shorter than any other and strictly longer than every earlier one |
| `ContourOps.SortByLengthIsSortedPermutation` | cvat-ui/src/utils/opencv-wrapper/opencv-wrapper.ts:171 | the sort model `SortByLength` (insertion sort by `InsertByLength`, which puts each contour after every one at least as long) orders contours by non-increasing length and is a permutation of its input |
| `ContourOps.SortedHeadIsFirstLongest` | cvat-ui/src/utils/opencv-wrapper/opencv-wrapper.ts:171 | after the stable sort the first element is the earliest contour of greatest length |
| `ContourOps.Longest` | cvat-ui/src/utils/opencv-wrapper/opencv-wrapper.ts:171-172 | the picked contour is one of the inputs, as long as any, and earlier than any other of that length; undefined exactly when there are none |
| `ContourOps.FindContours` | cvat-ui/src/utils/opencv-wrapper/opencv-wrapper.ts:157-173 | returns the one-element list holding the longest collected contour, or the library's error; the buffers created are `hierarchy` and then, on success, one `contours.get(i)` per found contour in order (`Retrieved`); every one of them is deleted exactly once on both paths, so the set of live buffers is unchanged |
| `ContourOps.Degenerate` | cvat-ui/src/utils/opencv-wrapper/opencv-wrapper.ts:176-180 | for fewer than 3 entries (`Count`, the `points.length` of line 177): input for which `IsArrayOfArrays` (line 176) holds comes back as it is, other input wrapped in one list; the coordinates (`Flattened`, `points.flat()`) are unchanged and in order |
| `ContourOps.ShapeMatchesData` | cvat-ui/src/utils/opencv-wrapper/opencv-wrapper.ts:181-185 | `Rows` (the `rows` of line 181) is a whole number exactly when the input is nested or a flat list of even length; `Rows` × `Cols` (`cols = 2`, line 182) equals the number of values `Flattened` (`points.flat()`, line 185) passes to `matFromArray`, for flat input and for nested input of pairs |
| `ContourOps.ReadRows` | cvat-ui/src/utils/opencv-wrapper/opencv-wrapper.ts:188-192 | one `[x, y]` pair per row of `approx`, in row order |
| `ContourOps.ApproxPolyAsWritten` | cvat-ui/src/utils/opencv-wrapper/opencv-wrapper.ts:175-197 | below 3 entries the degenerate result and no buffer created; otherwise the buffer log gains `approx` then `matFromArray(Rows, 2, CV_32FC1, points.flat())`; both are deleted when `matFromArray` succeeds, whatever `approxPolyDP` does, but `approx` stays live when `matFromArray` throws |
| `ContourOps.ApproxPolyLeakExample` | cvat-ui/src/utils/opencv-wrapper/opencv-wrapper.ts:184-185 | flat input [1, 2, 3] with a throwing `matFromArray` leaves exactly one live buffer |
| `ContourOps.ApproxPoly` | cvat-ui/src/utils/opencv-wrapper/opencv-wrapper.ts:175-197 | same results as the source; no buffer below 3 entries or when `matFromArray` throws; otherwise the log gains `matFromArray(Rows, 2, CV_32FC1, points.flat())` then `approx`; the set of live buffers is unchanged on every path |
| `Loader.Detach` | cvat-ui/src/utils/opencv-wrapper/opencv-wrapper.ts:73 | `remove()` takes every occurrence of that element out of the page head and keeps every other element with its multiplicity; a head without it is returned unchanged |
| `Loader.CheckKeepsCoherent` | cvat-ui/src/utils/opencv-wrapper/opencv-wrapper.ts:83-99 | a check that does not settle its promise preserves the loader invariant |
| `Loader.SettleKeepsCoherent` | cvat-ui/src/utils/opencv-wrapper/opencv-wrapper.ts:107-116 | settling the pending injection, clearing `injectionProcess` and resuming its callers preserves the loader invariant for the calls `SettleCalls` gives (each awaiting call takes the outcome), and `initialized` becomes true exactly when it resolved |
| `Loader.OpenCVWrapper.constructor` | cvat-ui/src/utils/opencv-wrapper/opencv-wrapper.ts:53-58 | no script, not initialized, no `cv`, no injection |
| `Loader.OpenCVWrapper.Inject` | cvat-ui/src/utils/opencv-wrapper/opencv-wrapper.ts:66-102 | appends one new element with type "text/javascript" and the script `src` exactly when `#script` is null, and starts a fresh countdown |
| `Loader.OpenCVWrapper.Initialize` | cvat-ui/src/utils/opencv-wrapper/opencv-wrapper.ts:107-114 | while an injection is pending the call joins it and nothing else changes; otherwise exactly one new injection starts and becomes `injectionProcess`; `initialized` and `cv` are unchanged; the invariant is kept |
| `Loader.OpenCVWrapper.ScriptError` | cvat-ui/src/utils/opencv-wrapper/opencv-wrapper.ts:72-75 | the element leaves the page and `#script` becomes null; nothing else changes |
| `Loader.OpenCVWrapper.Tick` | cvat-ui/src/utils/opencv-wrapper/opencv-wrapper.ts:83-116 | the check updates that injection only; a present global is stored in `cv`; on settlement `injectionProcess` is cleared, then the awaiting calls resume in call order (`Resumes`) with the same outcome, and `initialized` becomes true iff it resolved, never false |
| `Loader.OpenCVWrapper.RunReactions` | cvat-ui/src/utils/opencv-wrapper/opencv-wrapper.ts:114-115 | each awaiting call takes the outcome in call order; `initialized` is set iff the outcome is a resolution and someone awaited it |
| `Loader.OpenCVWrapper.CheckInitialization` | cvat-ui/src/utils/opencv-wrapper/opencv-wrapper.ts:60-64 | passes iff some `initialize()` call has resolved, else fails with "Need to initialize OpenCV first" |
| `Loader.OpenCVWrapper.IsInitialized` | cvat-ui/src/utils/opencv-wrapper/opencv-wrapper.ts:118-120 | true iff some `initialize()` call has resolved |
| `Loader.OpenCVWrapper.InitializationInProgress` | cvat-ui/src/utils/opencv-wrapper/opencv-wrapper.ts:122-124 | true iff some injection's promise is still pending |
| `Loader.OpenCVWrapper.Mat` | cvat-ui/src/utils/opencv-wrapper/opencv-wrapper.ts:126-128 | fails with the uninitialized error unless some call resolved; otherwise bound to the captured `cv` |
| `Loader.OpenCVWrapper.MatVector` | cvat-ui/src/utils/opencv-wrapper/opencv-wrapper.ts:145-151 | as `Mat`, for the vector façade |
| `Loader.OpenCVWrapper.Contours` | cvat-ui/src/utils/opencv-wrapper/opencv-wrapper.ts:153-156 | as `Mat`, for the contours façade |
| `Loader.OpenCVWrapper.Segmentation` | cvat-ui/src/utils/opencv-wrapper/opencv-wrapper.ts:201-208 | the same guard; the factory is a closure over the wrapper and reads its `cv` when it runs (line 206) |
| `Loader.OpenCVWrapper.ImgProc` | cvat-ui/src/utils/opencv-wrapper/opencv-wrapper.ts:210-215 | the same guard; `hist` reads the wrapper's `cv` when it runs (line 213) |
| `Loader.OpenCVWrapper.Tracking` | cvat-ui/src/utils/opencv-wrapper/opencv-wrapper.ts:217-227 | the same guard; `model` reads the wrapper's `cv` when it runs (line 221); named "TrackerMIL", described as on line 223, of kind "opencv_tracker_mil" |
| `Scenarios.SharedInjection` | cvat-ui/src/utils/opencv-wrapper/opencv-wrapper.ts:107-116 | two concurrent calls make one injection and one element; a getter fails before the load; both calls resolve on the first check that sees the global |
| `Scenarios.TimeoutThenRetry` | cvat-ui/src/utils/opencv-wrapper/opencv-wrapper.ts:81-116 | with no global, exactly 300 checks run and the call rejects with "Initialization timeout"; the wrapper stays uninitialized; a retry starts a second injection and appends no second element |
| `Scenarios.FetchErrorThenRetry` | cvat-ui/src/utils/opencv-wrapper/opencv-wrapper.ts:72-116 | after the `error` event the next check rejects with "Could not fetch the script" even though the global is present, while still capturing it; the retry appends exactly one element and resolves; a call after success appends none |
| `Scenarios.LateBoundFacades` | cvat-ui/src/utils/opencv-wrapper/opencv-wrapper.ts:126-206 | after a second injection captures a new handle, the `mat` façade still holds the first one (line 128) while the segmentation factory sees the new one (line 206) |

## Left out

- The DOM, `setTimeout` and the promise machinery are replaced by the explicit events `Initialize`, `ScriptError` and `Tick`.
  - A tick's settlement and the microtasks it queues run in that one step.
  - The 200 ms delays are not timed. Only their order counts.
- Whether the script loads, and the value of `window.cv`, come from the environment. They are parameters of `Tick` and of `Polling.Wait`.
- `core.config.backendAPI` is a constructor parameter. The configuration provider is not part of this model.
- The native library is abstract. Its results are parameters of each operation: the contours `cv.findContours` finds, the vertices `cv.approxPolyDP` leaves in `approx`, and whether a call throws. Only creating and deleting buffers is modelled.
- The contents that `cv.findContours` writes into the caller's `contours` vector are not tracked.
- Only `cv.matFromArray` and the main native call (`cv.findContours`, `cv.approxPolyDP`) are modelled as throwing. `get`, `data32S` and `floatAt` are taken not to fail.
- The point coordinates of `approxPoly`, the values read by `floatAt` and the shape and data passed to `matFromArray` are modelled as `real`. Floating-point rounding is not modelled. Counters that only take whole values (the polling budget, contour data from `data32S`, indices) are `int` or `nat`.
- `ScriptUrl.DropLast` counts Unicode scalar values, while `slice(0, -7)` counts UTF-16 code units. The two differ for an address holding a character above U+FFFF.
- The library's pixel-format constants are modelled by depth and channel count, not by their numeric codes.
- `IntelligentScissorsImplementation`, `HistogramEqualizationImplementation` and `TrackerMImplementation` are not part of this model. Their factories are modelled only by the handle they would pass on: `LateBoundFactory.Cv()`, the wrapper's `cv` at the time the factory runs. That each call builds a fresh object is not modelled.
- `threshold` and `closed` (default `true`) of `approxPoly` are only passed to `cv.approxPolyDP`, which is abstract here; the model takes its result as a parameter and does not use them.
- The unhandled rejection of the promise derived by `.finally` at line 110 is not modelled.
- `Loader.OpenCVWrapper.ScriptError` requires a current script element: an `error` event only comes from an attached element. Once the listener has run, `#script` is null, so the `{ once: true }` option needs no separate record.
- `Loader.OpenCVWrapper.Tick` requires that injection's timer to be pending: a callback only runs when it was scheduled.
- `ContourOps.ApproxPoly` is the corrected operation (see Findings). `ContourOps.ApproxPolyAsWritten` models the code as written.
- cvat-core/src/server-response-types.ts, cvat-ui/src/components/common/go-back-button.tsx and tests/cypress/e2e/features/ground_truth_jobs.js are not part of this model. They hold type declarations, UI glue and an end-to-end browser script.

## Findings

| source | as written | input that shows it | evidently intended | confidence | as-written member | corrected member |
|---|---|---|---|---|---|---|
| cvat-ui/src/utils/opencv-wrapper/opencv-wrapper.ts:184-186 | `approx` is created before the `try`, so `approx.delete()` never runs when `cv.matFromArray` throws | flat points `[1, 2, 3]`: `rows` is 1.5 and the library cannot fill a 1×2 matrix with 3 values, so `matFromArray` throws | every intermediate buffer is released on every exit path | medium: the exception depends on the library's behaviour, not executed | `ContourOps.ApproxPolyAsWritten`, `ContourOps.ApproxPolyLeakExample` | `ContourOps.ApproxPoly` |
