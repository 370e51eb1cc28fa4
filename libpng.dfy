/**
 * The part of libpng that rb_store_png and store_png_blocking drive. libpng's own
 * code is not part of this model: each call is given, as an Effect, what it does
 * to the outside world (the warnings and errors it reports through the callbacks,
 * the bytes it hands to write_func, and whether it ends in png_error, which jumps
 * back to the armed setjmp, or in a NULL return). A PngStruct records every call
 * it receives, with its arguments, in the ghost log `calls`.
 */
module Libpng {
  import opened Words
  import opened Diagnostics
  import opened Output

  // Values of the png.h and zlib.h macros passed at png_ext.c:133-138.
  const ColorTypeGray: nat := 0           // PNG_COLOR_TYPE_GRAY
  const InterlaceNone: nat := 0           // PNG_INTERLACE_NONE
  const CompressionTypeDefault: nat := 0  // PNG_COMPRESSION_TYPE_DEFAULT
  const FilterTypeDefault: nat := 0       // PNG_FILTER_TYPE_DEFAULT
  const FilterSub: nat := 0x10            // PNG_FILTER_SUB
  const BestSpeed: int := 1               // Z_BEST_SPEED

  /** The arguments of png_set_IHDR after the two struct pointers. */
  datatype Header = Header(width: u32, height: u32, bitDepth: u32, colorType: nat,
                           interlace: nat, compression: nat, filterType: nat)

  /** One libpng entry point called with its arguments (the struct pointers left implicit). */
  datatype LibCall =
    | CreateWriteStruct
    | CreateInfoStruct
    | SetWriteFn
    | SetIhdr(header: Header)
    | SetFilter(filterMethod: nat, filters: nat)
    | SetCompressionLevel(level: int)
    | WriteInfo
    | SetSwap
    | WriteImage(rows: seq<nat>)
    | WriteEnd
    | DestroyWriteStruct(withInfo: bool)

  /** What a call that writes no image data does: diagnostics, then success or failure. */
  datatype Outcome = Outcome(diagnostics: seq<Diagnostic>, fails: bool)

  /** What any call does: diagnostics, chunks handed to write_func, then success or failure. */
  datatype Effect = Effect(diagnostics: seq<Diagnostic>, chunks: seq<Chunk>, fails: bool)

  function Quiet(o: Outcome): Effect
  {
    Effect(o.diagnostics, [], o.fails)
  }

  /** The behaviour of libpng during one store_png call: one entry per call made there. */
  datatype Behaviour = Behaviour(
    createWrite: Outcome,          // png_create_write_struct, line 117
    createInfo: Outcome,           // png_create_info_struct, line 121
    setWriteFn: Outcome,           // png_set_write_fn, line 131
    setIhdr: Outcome,              // png_set_IHDR, line 133
    setFilter: Outcome,            // png_set_filter, line 137
    setCompressionLevel: Outcome,  // png_set_compression_level, line 138
    writeInfo: Effect,             // png_write_info, line 140
    setSwap: Outcome,              // png_set_swap, line 81
    writeImage: Effect,            // png_write_image, line 82
    writeEnd: Effect,              // png_write_end, line 84
    destroy: Outcome)              // png_destroy_write_struct, line 159

  /** A png_struct: its error pointer (sink of error_func/warn_func) and io pointer (sink of write_func). */
  class PngStruct {
    const errorPtr: ErrorText
    var ioPtr: OutputBuffer?
    ghost var calls: seq<LibCall>

    ghost predicate Valid()
      reads this, errorPtr, ioPtr
    {
      errorPtr.Valid() && (ioPtr != null ==> ioPtr.Valid())
    }

    constructor (errorPtr: ErrorText)
      requires errorPtr.Valid()
      ensures Valid() && this.errorPtr == errorPtr && ioPtr == null
      ensures calls == [CreateWriteStruct]
    {
      this.errorPtr := errorPtr;
      ioPtr := null;
      calls := [CreateWriteStruct];
    }

    /** A libpng call that keeps the write function: record it, then run its effect. */
    method Invoke(c: LibCall, e: Effect) returns (ok: bool)
      requires Valid()
      requires e.chunks != [] ==> ioPtr != null
      modifies this`calls, errorPtr, ioPtr
      ensures Valid() && ioPtr == old(ioPtr)
      ensures calls == old(calls) + [c]
      ensures errorPtr.reports == old(errorPtr.reports) + e.diagnostics
      ensures ioPtr != null ==> ioPtr.chunks == old(ioPtr.chunks) + e.chunks
      ensures ok == !e.fails
    {
      calls := calls + [c];
      errorPtr.ReceiveAll(e.diagnostics);
      if ioPtr != null {
        ioPtr.WriteAll(e.chunks);
      }
      ok := !e.fails;
    }

    /** png_set_write_fn (line 131): from now on write_func appends to `io`. */
    method PngSetWriteFn(io: OutputBuffer, o: Outcome) returns (ok: bool)
      requires Valid() && io.Valid()
      modifies this, errorPtr
      ensures Valid() && ioPtr == io
      ensures calls == old(calls) + [SetWriteFn]
      ensures errorPtr.reports == old(errorPtr.reports) + o.diagnostics
      ensures ok == !o.fails
    {
      calls := calls + [SetWriteFn];
      ioPtr := io;
      errorPtr.ReceiveAll(o.diagnostics);
      ok := !o.fails;
    }

    /** png_destroy_write_struct in a cleanup path (lines 122, 127): releases the structs. */
    method Destroy(withInfo: bool)
      modifies this`calls
      ensures calls == old(calls) + [DestroyWriteStruct(withInfo)]
    {
      calls := calls + [DestroyWriteStruct(withInfo)];
    }
  }

  /** png_create_write_struct (line 117) with `errstr` as error pointer; null when it fails. */
  method PngCreateWriteStruct(errstr: ErrorText, o: Outcome) returns (png: PngStruct?)
    requires errstr.Valid()
    modifies errstr
    ensures errstr.Valid() && errstr.reports == old(errstr.reports) + o.diagnostics
    ensures png == null <==> o.fails
    ensures png != null ==>
      fresh(png) && png.Valid() && png.errorPtr == errstr && png.ioPtr == null
      && png.calls == [CreateWriteStruct]
  {
    errstr.ReceiveAll(o.diagnostics);
    if o.fails {
      png := null;
    } else {
      png := new PngStruct(errstr);
    }
  }
}
