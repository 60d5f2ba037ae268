/**
 * The part of the native library the wrapper relies on. The library itself is
 * not modelled: what its calls compute is passed to the wrapper's operations as
 * parameters, and this module only keeps account of the buffer objects
 * (`cv.Mat`, `cv.MatVector`) that are created and must be released with `delete()`.
 */
module Native {

  /** The value of the global `window.cv` once the library has loaded; the model never looks inside it. */
  datatype CvModule = CvModule(id: nat)

  /** Element depth of a buffer: 8-bit unsigned or 32-bit float. */
  datatype Depth = U8 | F32

  /** A pixel format constant of the library, such as `cv.CV_8UC3` (depth U8, 3 channels). */
  datatype CvType = CvType(depth: Depth, channels: nat)

  const CV_8UC1: CvType := CvType(U8, 1)
  const CV_8UC3: CvType := CvType(U8, 3)
  const CV_8UC4: CvType := CvType(U8, 4)
  const CV_32FC1: CvType := CvType(F32, 1)

  /** How a live buffer object was created. */
  datatype MatInfo =
    | EmptyMat                                                      // new cv.Mat()
    | EmptyVector                                                   // new cv.MatVector()
    | FromArray(rows: real, cols: real, typ: CvType, data: seq<real>) // cv.matFromArray(rows, cols, type, data)
    | Element(vector: nat, index: nat, data32S: seq<int>)          // vector.get(index)

  /** The library's heap of buffer objects. */
  class Heap {
    /** The live buffers: created and not yet deleted, by handle. */
    var mats: map<nat, MatInfo>
    /** The handle the next buffer receives. */
    var next: nat
    /** Every buffer created so far, in creation order, with the arguments it was created from. */
    ghost var log: seq<MatInfo>

    ghost predicate Valid()
      reads this
    {
      forall h :: h in mats ==> h < next
    }

    constructor ()
      ensures Valid() && mats == map[] && next == 0 && log == []
    {
      mats := map[];
      next := 0;
      log := [];
    }

    /** Creates a buffer; the caller now owns it and must delete it. */
    method Alloc(info: MatInfo) returns (h: nat)
      requires Valid()
      modifies this
      ensures Valid()
      ensures h == old(next) && h !in old(mats)
      ensures mats == old(mats)[h := info] && next == old(next) + 1
      ensures log == old(log) + [info]
    {
      h := next;
      mats := mats[h := info];
      next := next + 1;
      log := log + [info];
    }

    /** `buffer.delete()`: releases a live buffer; deleting one that is not live is an error of the caller. */
    method Delete(h: nat)
      requires Valid() && h in mats
      modifies this`mats
      ensures Valid()
      ensures mats == old(mats) - {h}
    {
      mats := mats - {h};
    }
  }
}
