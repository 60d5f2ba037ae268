/** The `mat` and `matVector` façades: creating buffers from pixel data or empty. */
module MatOps {
  import opened Wrappers
  import opened Native

  /** The wrapper's own enumeration of the pixel formats it accepts. */
  datatype MatType = MatCV_8UC1 | MatCV_8UC3 | MatCV_8UC4

  /** The `mat` façade, bound to the loaded library. */
  datatype MatSpace = MatSpace(cv: CvModule)

  /** The `matVector` façade, bound to the loaded library. */
  datatype MatVectorSpace = MatVectorSpace(cv: CvModule)

  /** Number of channels the enumeration member names. */
  function Channels(t: MatType): (n: nat)
  {
    match t
    case MatCV_8UC1 => 1
    case MatCV_8UC3 => 3
    case MatCV_8UC4 => 4
  }

  /** The `typeToCVType` table of `fromData`. */
  function ToCvType(t: MatType): (c: CvType)
    ensures c.depth == U8 && c.channels == Channels(t)
    ensures c in {CV_8UC1, CV_8UC3, CV_8UC4}
  {
    match t
    case MatCV_8UC1 => CV_8UC1
    case MatCV_8UC3 => CV_8UC3
    case MatCV_8UC4 => CV_8UC4
  }

  /** Distinct enumeration members map to distinct library formats. */
  lemma ToCvTypeInjective(s: MatType, t: MatType)
    ensures ToCvType(s) == ToCvType(t) <==> s == t
  {
  }

  /** `mat.empty()`: a new empty buffer, owned by the caller. */
  method Empty(heap: Heap) returns (h: nat)
    requires heap.Valid()
    modifies heap
    ensures heap.Valid() && h !in old(heap.mats) && heap.mats == old(heap.mats)[h := EmptyMat]
    ensures heap.log == old(heap.log) + [EmptyMat]
  {
    h := heap.Alloc(EmptyMat);
  }

  /** `matVector.empty()`: a new empty vector of buffers, owned by the caller. */
  method EmptyVector(heap: Heap) returns (h: nat)
    requires heap.Valid()
    modifies heap
    ensures heap.Valid() && h !in old(heap.mats) && heap.mats == old(heap.mats)[h := Native.EmptyVector]
    ensures heap.log == old(heap.log) + [Native.EmptyVector]
  {
    h := heap.Alloc(Native.EmptyVector);
  }

  /**
   * `mat.fromData(width, height, type, data)`: calls `cv.matFromArray` with the
   * height as the row count and the width as the column count. `failure` is the
   * error the library throws, if it throws; it propagates unchanged.
   */
  method FromData(heap: Heap, width: real, height: real, t: MatType, data: seq<real>, failure: Option<string>)
    returns (r: Result<nat, string>)
    requires heap.Valid()
    modifies heap
    ensures heap.Valid()
    ensures failure.Some? ==> r == Err(failure.value) && heap.mats == old(heap.mats) && heap.log == old(heap.log)
    ensures failure.None? ==> r.Ok? && r.value !in old(heap.mats)
    ensures failure.None? ==> heap.mats == old(heap.mats)[r.value := FromArray(height, width, ToCvType(t), data)]
    ensures failure.None? ==> heap.log == old(heap.log) + [FromArray(height, width, ToCvType(t), data)]
  {
    var cvType := ToCvType(t);
    if failure.Some? {
      return Err(failure.value);
    }
    var mat := heap.Alloc(FromArray(height, width, cvType, data));
    r := Ok(mat);
  }
}
