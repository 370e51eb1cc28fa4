/**
 * The row-pointer table of store_png_blocking (png_ext.c:67-80): one pointer per
 * image row into the caller's data, each `span` bytes after the previous one.
 * Pointers are modelled as byte offsets into the data string.
 */
module Rows {
  import opened Words
  import opened Validation

  /** Line 71: `span = w * (d / 8)` in `unsigned int`. */
  function Span(w: u32, d: u32): (r: u32)
    ensures r <= RowBytes(w, d)
    ensures RowBytes(w, d) < U32Limit ==> r == RowBytes(w, d)
  {
    MulU32(w, d / 8)
  }

  /** The bytes libpng takes from each row of a grayscale image: w samples of d / 8 bytes. */
  function RowBytes(w: u32, d: u32): nat
  {
    w * (d / 8)
  }

  /** The offsets the table should hold: row i starts i spans after the base. */
  function RowOffsets(base: nat, h: nat, span: nat): seq<nat>
  {
    seq(h, i requires 0 <= i < h => base + i * span)
  }

  /** Lines 70-80: fill `row_pointers[0..h)` by advancing a cursor `span` bytes per row. */
  method RowPointers(base: nat, h: u32, span: u32) returns (rows: array<nat>)
    ensures rows.Length == h
    ensures forall i :: 0 <= i < h ==> rows[i] == base + i * span
    ensures rows[..] == RowOffsets(base, h, span)
  {
    rows := new nat[h];
    var cursor := base;
    var i := 0;
    while i < h
      invariant 0 <= i <= h
      invariant cursor == base + i * span
      invariant forall k :: 0 <= k < i ==> rows[k] == base + k * span
    {
      rows[i] := cursor;
      assert (i + 1) * span == i * span + span;
      i, cursor := i + 1, cursor + span;
    }
  }

  /** With a non-zero span the row offsets strictly increase, so no two rows share a start. */
  lemma RowOffsetsIncrease(base: nat, h: nat, span: nat)
    requires span > 0
    ensures forall i, j :: 0 <= i < j < h ==> RowOffsets(base, h, span)[i] < RowOffsets(base, h, span)[j]
  {
    forall i, j | 0 <= i < j < h
      ensures RowOffsets(base, h, span)[i] < RowOffsets(base, h, span)[j]
    {
      MulStrict(i, j, span);
    }
  }

  /** Consecutive rows are exactly one span apart, the cursor step of line 78. */
  lemma RowOffsetsStep(base: nat, h: nat, span: nat)
    ensures forall i :: 0 < i < h ==> RowOffsets(base, h, span)[i] == RowOffsets(base, h, span)[i - 1] + span
  {
    forall i | 0 < i < h
      ensures RowOffsets(base, h, span)[i] == RowOffsets(base, h, span)[i - 1] + span
    {
      assert i * span == (i - 1) * span + span;
    }
  }

  /**
   * The headline bound: when the check of line 111 passes and w*h*(d/8) does not
   * wrap, every row libpng reads, from its pointer for RowBytes bytes, lies inside
   * the data.
   */
  lemma {:induction false} AcceptedRowsInBounds(w: u32, h: u32, d: u32, len: nat)
    requires Validate(w, h, d, len).Success?
    requires w * h * (d / 8) < U32Limit
    ensures h > 0 ==> Span(w, d) == RowBytes(w, d)
    ensures forall i :: 0 <= i < h ==> RowOffsets(0, h, Span(w, d))[i] + RowBytes(w, d) <= len
  {
    AcceptedHoldsImage(w, h, d, len);
    if h > 0 {
      var k := d / 8;
      var s := w * k;
      assert w * h * k == h * s;
      MulMonotone(1, h, s);
      assert Span(w, d) == s;
      forall i | 0 <= i < h
        ensures RowOffsets(0, h, Span(w, d))[i] + RowBytes(w, d) <= len
      {
        MulMonotone(i + 1, h, s);
        assert (i + 1) * s == i * s + s;
      }
    }
  }

  /**
   * With the intended check every row lies inside the data, whether or not the
   * products wrap: a wrapped `span` is shorter than a row, so rows only overlap.
   */
  lemma {:induction false} WideCheckRowsInBounds(w: u32, h: u32, d: u32, len: nat)
    requires WideCheckPasses(w, h, d, len)
    ensures forall i :: 0 <= i < h ==> RowOffsets(0, h, Span(w, d))[i] + RowBytes(w, d) <= len
  {
    var span, rb := Span(w, d), RowBytes(w, d);
    assert w * h * (d / 8) == h * rb;
    forall i | 0 <= i < h
      ensures RowOffsets(0, h, span)[i] + rb <= len
    {
      MulMonotone(span, rb, i);
      assert i * span <= i * rb;
      MulMonotone(i, h - 1, rb);
      assert (h - 1) * rb + rb == h * rb;
    }
  }

  /**
   * The check of line 111 can pass on wrap-around: 65536 x 65537 8-bit samples need
   * 65536 * 65537 bytes, the 32-bit product is 65536, so 65536 bytes are accepted,
   * and already row 1 starts at the end of the data.
   */
  lemma WrappedCheckAdmitsOverread()
    ensures Validate(65536, 65537, 8, 65536).Success?
    ensures 65536 * 65537 > 65536
    ensures RowOffsets(0, 65537, Span(65536, 8))[1] == 65536
    ensures RowOffsets(0, 65537, Span(65536, 8))[1] + RowBytes(65536, 8) > 65536
  {
    assert MulU32(65536, 65537) == 65536;
    assert RequiredBytes(65536, 65537, 8) == 65536;
  }
}
