/** The `contours` façade: `findContours` and `approxPoly`. */
module ContourOps {
  import opened Wrappers
  import opened Native

  /** The `contours` façade, bound to the loaded library. */
  datatype ContoursSpace = ContoursSpace(cv: CvModule)

  // ----- Picking the longest contour -----------------------------------------

  /** Contours ordered by non-increasing length. */
  ghost predicate SortedByLength(cs: seq<seq<int>>)
  {
    forall i, j :: 0 <= i < j < |cs| ==> |cs[i]| >= |cs[j]|
  }

  /** Inserts `x` after every element at least as long as `x` (so earlier equals stay first). */
  function InsertByLength(sorted: seq<seq<int>>, x: seq<int>): (r: seq<seq<int>>)
  {
    if sorted == [] || |sorted[0]| < |x| then [x] + sorted
    else [sorted[0]] + InsertByLength(sorted[1..], x)
  }

  /**
   * `cs.sort((a, b) => b.length - a.length)`: the stable sort by non-increasing
   * length that `Array.prototype.sort` performs, written as insertion sort.
   */
  function SortByLength(cs: seq<seq<int>>): (r: seq<seq<int>>)
  {
    if cs == [] then [] else InsertByLength(SortByLength(cs[..|cs| - 1]), cs[|cs| - 1])
  }

  /** The index of the first contour of greatest length. */
  function FirstLongest(cs: seq<seq<int>>): (k: nat)
    requires |cs| > 0
    ensures k < |cs|
    ensures forall j :: 0 <= j < |cs| ==> |cs[j]| <= |cs[k]|
    ensures forall j :: 0 <= j < k ==> |cs[j]| < |cs[k]|
  {
    if |cs| == 1 then 0
    else
      var k := FirstLongest(cs[..|cs| - 1]);
      if |cs[|cs| - 1]| > |cs[k]| then |cs| - 1 else k
  }

  lemma {:induction false} InsertByLengthSorted(sorted: seq<seq<int>>, x: seq<int>)
    requires SortedByLength(sorted)
    ensures SortedByLength(InsertByLength(sorted, x))
    ensures multiset(InsertByLength(sorted, x)) == multiset(sorted) + multiset{x}
    ensures |InsertByLength(sorted, x)| == |sorted| + 1
    ensures forall k :: 0 <= k < |InsertByLength(sorted, x)| ==>
      InsertByLength(sorted, x)[k] == x || InsertByLength(sorted, x)[k] in sorted
  {
    if sorted == [] || |sorted[0]| < |x| {
    } else {
      var rest := InsertByLength(sorted[1..], x);
      InsertByLengthSorted(sorted[1..], x);
      assert sorted == [sorted[0]] + sorted[1..];
      forall k | 0 <= k < |rest| ensures |sorted[0]| >= |rest[k]| {
        if rest[k] != x {
          var m :| 0 <= m < |sorted[1..]| && sorted[1..][m] == rest[k];
          assert sorted[1 + m] == rest[k];
        }
      }
    }
  }

  /** The sort model orders by length and is a permutation of its input. */
  lemma {:induction false} SortByLengthIsSortedPermutation(cs: seq<seq<int>>)
    ensures SortedByLength(SortByLength(cs))
    ensures multiset(SortByLength(cs)) == multiset(cs)
  {
    if cs != [] {
      var init := cs[..|cs| - 1];
      SortByLengthIsSortedPermutation(init);
      InsertByLengthSorted(SortByLength(init), cs[|cs| - 1]);
      assert cs == init + [cs[|cs| - 1]];
    }
  }

  /** After the stable sort, the first element is the first contour of greatest length. */
  lemma {:induction false} SortedHeadIsFirstLongest(cs: seq<seq<int>>)
    requires |cs| > 0
    ensures |SortByLength(cs)| == |cs|
    ensures SortByLength(cs)[0] == cs[FirstLongest(cs)]
  {
    SortByLengthIsSortedPermutation(cs);
    assert |multiset(SortByLength(cs))| == |multiset(cs)|;
    if |cs| > 1 {
      var init := cs[..|cs| - 1];
      SortedHeadIsFirstLongest(init);
      assert init[FirstLongest(init)] == cs[FirstLongest(init)];
    }
  }

  /**
   * `jsContours.sort(...)[0]`: the first contour of greatest length, or
   * `undefined` (None) when there are no contours.
   */
  function Longest(cs: seq<seq<int>>): (r: Option<seq<int>>)
    ensures r.None? <==> cs == []
    ensures r.Some? ==> r.value in cs
    ensures r.Some? ==> forall j :: 0 <= j < |cs| ==> |cs[j]| <= |r.value|
    ensures r.Some? ==> exists k :: 0 <= k < |cs| && cs[k] == r.value && forall j :: 0 <= j < k ==> |cs[j]| < |r.value|
  {
    var sorted := SortByLength(cs);
    if cs == [] then None
    else
      SortedHeadIsFirstLongest(cs);
      Some(sorted[0])
  }

  /** The buffers `contours.get(i)` returns, one per found contour, in order. */
  function Retrieved(vector: nat, found: seq<seq<int>>): (r: seq<MatInfo>)
    ensures |r| == |found|
    ensures forall i :: 0 <= i < |found| ==> r[i] == Element(vector, i, found[i])
  {
    if found == [] then []
    else Retrieved(vector, found[..|found| - 1]) + [Element(vector, |found| - 1, found[|found| - 1])]
  }

  /**
   * `findContours(src, contours)`: runs `cv.findContours` into `contours` with a
   * fresh `hierarchy` buffer, copies every contour out (deleting each retrieved
   * element), deletes `hierarchy` in the `finally`, and returns a one-element
   * list holding the longest contour. `native` is what the library call does:
   * it throws the given error or finds the given contours, in order.
   */
  method FindContours(heap: Heap, src: nat, contours: nat, native: Result<seq<seq<int>>, string>)
    returns (r: Result<seq<Option<seq<int>>>, string>)
    requires heap.Valid()
    modifies heap
    ensures heap.Valid() && heap.mats == old(heap.mats)
    ensures native.Err? ==> heap.log == old(heap.log) + [EmptyMat]
    ensures native.Ok? ==> heap.log == old(heap.log) + [EmptyMat] + Retrieved(contours, native.value)
    ensures native.Err? ==> r == Err(native.error)
    ensures native.Ok? ==> r == Ok([Longest(native.value)])
  {
    var jsContours: seq<seq<int>> := [];
    var hierarchy := heap.Alloc(EmptyMat);
    ghost var withHierarchy := heap.mats;
    if native.Err? {
      heap.Delete(hierarchy);
      assert heap.mats == old(heap.mats);
      return Err(native.error);
    }
    var found := native.value;
    var i := 0;
    while i < |found|
      invariant 0 <= i <= |found|
      invariant heap.Valid() && heap.mats == withHierarchy
      invariant jsContours == found[..i]
      invariant heap.log == old(heap.log) + [EmptyMat] + Retrieved(contours, found[..i])
    {
      assert found[..i + 1][..i] == found[..i];
      var contour := heap.Alloc(Element(contours, i, found[i]));
      jsContours := jsContours + [heap.mats[contour].data32S];
      heap.Delete(contour);
      assert heap.mats == withHierarchy;
      i := i + 1;
    }
    heap.Delete(hierarchy);
    assert heap.mats == old(heap.mats);
    assert jsContours == found;
    r := Ok([Longest(jsContours)]);
  }

  // ----- Polygon approximation -----------------------------------------------

  /** The `points` argument: a flat list `[x0, y0, x1, y1, ...]` or a list of `[x, y]` pairs. */
  datatype Points = Flat(xs: seq<real>) | Nested(ps: seq<seq<real>>)

  /** A vertex of the approximated polygon: `approx.floatAt(row, 0)` and `approx.floatAt(row, 1)`. */
  datatype Vertex = Vertex(x: real, y: real)

  /** `points.length`. */
  function Count(p: Points): (n: nat)
  {
    match p
    case Flat(xs) => |xs|
    case Nested(ps) => |ps|
  }

  /** `Array.isArray(points[0])`: false for an empty list, whichever form it was meant in. */
  predicate IsArrayOfArrays(p: Points)
  {
    p.Nested? && |p.ps| > 0
  }

  function Concat(ps: seq<seq<real>>): (r: seq<real>)
    ensures ps == [] ==> r == []
  {
    if ps == [] then [] else ps[0] + Concat(ps[1..])
  }

  /** `points.flat()`. */
  function Flattened(p: Points): (values: seq<real>)
  {
    match p
    case Flat(xs) => xs
    case Nested(ps) => Concat(ps)
  }

  /**
   * The early return for fewer than three entries: nested input as it is,
   * anything else wrapped in one list.
   */
  function Degenerate(p: Points): (r: seq<seq<real>>)
    requires Count(p) < 3
    ensures Concat(r) == Flattened(p)
    ensures IsArrayOfArrays(p) ==> r == p.ps
    ensures !IsArrayOfArrays(p) ==> |r| == 1
  {
    if IsArrayOfArrays(p) then p.ps
    else
      assert Concat([Flattened(p)]) == Flattened(p) + Concat([]);
      [Flattened(p)]
  }

  /** `rows`: the number of entries for nested input, half of it for flat input. */
  function Rows(p: Points): (r: real)
    ensures IsArrayOfArrays(p) ==> r == Count(p) as real
    ensures !IsArrayOfArrays(p) ==> 2.0 * r == Count(p) as real
  {
    if IsArrayOfArrays(p) then Count(p) as real else Count(p) as real / 2.0
  }

  const Cols: real := 2.0

  /** Every entry of the list is an `[x, y]` pair. */
  ghost predicate AllPairs(ps: seq<seq<real>>)
  {
    forall k :: 0 <= k < |ps| ==> |ps[k]| == 2
  }

  lemma {:induction false} ConcatOfPairs(ps: seq<seq<real>>)
    requires AllPairs(ps)
    ensures |Concat(ps)| == 2 * |ps|
  {
    if ps != [] {
      ConcatOfPairs(ps[1..]);
    }
  }

  /**
   * The row count handed to `cv.matFromArray` is a whole number exactly when the
   * input is nested (or empty) or a flat list of even length; then `Rows` × `Cols`
   * equals the number of values handed over, for flat input and for nested
   * input made of pairs. A flat list of odd length gives a fractional row count.
   */
  lemma ShapeMatchesData(p: Points)
    requires p.Nested? ==> AllPairs(p.ps)
    ensures Rows(p) == Rows(p).Floor as real <==> (p.Flat? ==> |p.xs| % 2 == 0)
    ensures Rows(p) * Cols == |Flattened(p)| as real
  {
    if p.Nested? {
      ConcatOfPairs(p.ps);
    } else if |p.xs| % 2 == 0 {
      assert Rows(p) == (|p.xs| / 2) as real;
    } else {
      assert Rows(p) == (|p.xs| / 2) as real + 0.5;
    }
  }

  /** The result rows: one `[x, y]` pair per row of `approx`. */
  ghost predicate RowsOf(result: seq<seq<real>>, vertices: seq<Vertex>)
  {
    |result| == |vertices| &&
    forall k :: 0 <= k < |vertices| ==> result[k] == [vertices[k].x, vertices[k].y]
  }

  /** The loop that reads `approx` row by row. */
  method ReadRows(vertices: seq<Vertex>) returns (result: seq<seq<real>>)
    ensures RowsOf(result, vertices)
    ensures forall k :: 0 <= k < |result| ==> |result[k]| == 2
  {
    result := [];
    var row := 0;
    while row < |vertices|
      invariant 0 <= row <= |vertices|
      invariant RowsOf(result, vertices[..row])
    {
      result := result + [[vertices[row].x, vertices[row].y]];
      row := row + 1;
    }
    assert vertices[..row] == vertices;
  }

  /**
   * `approxPoly(points, threshold, closed)` as written: `approx` is created
   * before the `try`, so when `cv.matFromArray` throws (`fromArray`) it is never
   * deleted. `native` is what `cv.approxPolyDP` does: it throws the given error
   * or leaves the given vertices in `approx`.
   */
  method ApproxPolyAsWritten(heap: Heap, points: Points, threshold: real, closed: bool,
                             fromArray: Option<string>, native: Result<seq<Vertex>, string>)
    returns (r: Result<seq<seq<real>>, string>)
    requires heap.Valid()
    modifies heap
    ensures heap.Valid()
    ensures Count(points) < 3 ==> r == Ok(Degenerate(points)) && heap.mats == old(heap.mats)
    ensures Count(points) < 3 ==> heap.log == old(heap.log)
    ensures Count(points) >= 3 && fromArray.Some? ==>
      r == Err(fromArray.value) && heap.mats == old(heap.mats)[old(heap.next) := EmptyMat]
    ensures Count(points) >= 3 && fromArray.Some? ==> heap.log == old(heap.log) + [EmptyMat]
    ensures Count(points) >= 3 && fromArray.None? ==>
      heap.log == old(heap.log) + [EmptyMat, FromArray(Rows(points), Cols, CV_32FC1, Flattened(points))]
    ensures Count(points) >= 3 && fromArray.None? ==> heap.mats == old(heap.mats)
    ensures Count(points) >= 3 && fromArray.None? && native.Err? ==> r == Err(native.error)
    ensures Count(points) >= 3 && fromArray.None? && native.Ok? ==> r.Ok? && RowsOf(r.value, native.value)
  {
    if Count(points) < 3 {
      return Ok(Degenerate(points));
    }
    var rows := Rows(points);
    var approx := heap.Alloc(EmptyMat);
    if fromArray.Some? {
      return Err(fromArray.value);
    }
    var contour := heap.Alloc(FromArray(rows, Cols, CV_32FC1, Flattened(points)));
    if native.Err? {
      r := Err(native.error);
    } else {
      var result := ReadRows(native.value);
      r := Ok(result);
    }
    heap.Delete(approx);
    heap.Delete(contour);
    assert heap.mats == old(heap.mats);
  }

  /** With a flat list of odd length the library cannot fill the matrix; the as-written code then leaks `approx`. */
  method ApproxPolyLeakExample() returns (live: nat)
    ensures live == 1
  {
    var heap := new Heap();
    var r := ApproxPolyAsWritten(heap, Flat([1.0, 2.0, 3.0]), 1.0, true, Some("RangeError"), Err("not reached"));
    live := |heap.mats|;
  }

  /**
   * `approxPoly(points, threshold, closed)` with both buffers released on every
   * exit path: `approx` is created only after `cv.matFromArray` has succeeded.
   */
  method ApproxPoly(heap: Heap, points: Points, threshold: real, closed: bool,
                    fromArray: Option<string>, native: Result<seq<Vertex>, string>)
    returns (r: Result<seq<seq<real>>, string>)
    requires heap.Valid()
    modifies heap
    ensures heap.Valid() && heap.mats == old(heap.mats)
    ensures Count(points) < 3 ==> r == Ok(Degenerate(points)) && heap.log == old(heap.log)
    ensures Count(points) >= 3 && fromArray.Some? ==> r == Err(fromArray.value) && heap.log == old(heap.log)
    ensures Count(points) >= 3 && fromArray.None? ==>
      heap.log == old(heap.log) + [FromArray(Rows(points), Cols, CV_32FC1, Flattened(points)), EmptyMat]
    ensures Count(points) >= 3 && fromArray.None? && native.Err? ==> r == Err(native.error)
    ensures Count(points) >= 3 && fromArray.None? && native.Ok? ==> r.Ok? && RowsOf(r.value, native.value)
  {
    if Count(points) < 3 {
      return Ok(Degenerate(points));
    }
    var rows := Rows(points);
    if fromArray.Some? {
      return Err(fromArray.value);
    }
    var contour := heap.Alloc(FromArray(rows, Cols, CV_32FC1, Flattened(points)));
    var approx := heap.Alloc(EmptyMat);
    if native.Err? {
      r := Err(native.error);
    } else {
      var result := ReadRows(native.value);
      r := Ok(result);
    }
    heap.Delete(approx);
    heap.Delete(contour);
    assert heap.mats == old(heap.mats);
  }
}
