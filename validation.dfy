/**
 * The argument checks at the top of rb_store_png (png_ext.c:107-113). They run
 * before the output buffer or any libpng structure exists.
 */
module Validation {
  import opened Words
  import opened Wrappers
  import opened Failures

  /** Line 107: only 8- and 16-bit grayscale samples are accepted. */
  predicate DepthSupported(d: u32)
  {
    d == 8 || d == 16
  }

  /** `w * h * (d / 8)` at line 111, evaluated left to right in `unsigned int`. */
  function RequiredBytes(w: u32, h: u32, d: u32): (r: u32)
    ensures r <= w * h * (d / 8)
  {
    var m := MulU32(w, h);
    MulMonotone(m, w * h, d / 8);
    MulU32(m, d / 8)
  }

  /** Lines 107-113: the depth check first, then the length check against RequiredBytes. */
  function Validate(w: u32, h: u32, d: u32, len: nat): (r: Result<(), EncodeError>)
    ensures r.Success? ==> DepthSupported(d) && len >= RequiredBytes(w, h, d)
    ensures r.Failure? ==> ClassOf(r.error) == ArgumentError
  {
    if !DepthSupported(d) then Failure(InvalidDepth(d))
    else if len < RequiredBytes(w, h, d) then Failure(DataTooShort(RequiredBytes(w, h, d), len))
    else Success(())
  }

  /**
   * The length check of line 111 as evidently intended: against the true product
   * w*h*(d/8), with no 32-bit wrap-around.
   */
  predicate WideCheckPasses(w: u32, h: u32, d: u32, len: nat)
  {
    DepthSupported(d) && len >= w * h * (d / 8)
  }

  /** The intended check is never weaker than the written one, and they agree when the product fits. */
  lemma WideCheckAgrees(w: u32, h: u32, d: u32, len: nat)
    ensures WideCheckPasses(w, h, d, len) ==> Validate(w, h, d, len).Success?
    ensures w * h * (d / 8) < U32Limit ==> (WideCheckPasses(w, h, d, len) <==> Validate(w, h, d, len).Success?)
  {
    if DepthSupported(d) {
      RequiredBytesIsWrappedProduct(w, h, d);
    }
  }

  /** The two 32-bit products of line 111 equal the true product reduced once modulo 2^32. */
  lemma RequiredBytesIsWrappedProduct(w: u32, h: u32, d: u32)
    requires DepthSupported(d)
    ensures RequiredBytes(w, h, d) == (w * h * (d / 8)) % U32Limit
    ensures w * h * (d / 8) < U32Limit ==> RequiredBytes(w, h, d) == w * h * (d / 8)
  {
    ReduceThenScale(w * h, d / 8);
  }

  /** Every depth other than 8 and 16 is rejected, whatever the other arguments. */
  lemma UnsupportedDepthRejected(w: u32, h: u32, d: u32, len: nat)
    requires !DepthSupported(d)
    ensures Validate(w, h, d, len) == Failure(InvalidDepth(d))
    ensures ClassOf(Validate(w, h, d, len).error) == ArgumentError
  {
  }

  /** Accepted iff the depth is supported and the data holds the (32-bit) required byte count. */
  lemma AcceptedIff(w: u32, h: u32, d: u32, len: nat)
    ensures Validate(w, h, d, len).Success? <==> DepthSupported(d) && len >= RequiredBytes(w, h, d)
    ensures DepthSupported(d) && len < RequiredBytes(w, h, d) ==>
      Validate(w, h, d, len) == Failure(DataTooShort(RequiredBytes(w, h, d), len))
  {
  }

  /** Without 32-bit wrap-around, an accepted buffer holds every sample of the image. */
  lemma AcceptedHoldsImage(w: u32, h: u32, d: u32, len: nat)
    requires Validate(w, h, d, len).Success?
    requires w * h * (d / 8) < U32Limit
    ensures len >= w * h * (d / 8)
  {
    RequiredBytesIsWrappedProduct(w, h, d);
  }
}
