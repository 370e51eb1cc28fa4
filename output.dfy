/**
 * The output string of one store_png call (png_ext.c:53-65): libpng hands each
 * piece of encoded PNG data to write_func, which appends it to one Ruby string.
 */
module Output {
  import opened Words

  /** One buffer libpng passes to write_func (`data` with its `length`). */
  type Chunk = seq<byte>

  /** The chunks laid end to end, in the order they were written. */
  function Concat(cs: seq<Chunk>): seq<byte>
  {
    if cs == [] then [] else Concat(cs[..|cs| - 1]) + cs[|cs| - 1]
  }

  lemma {:induction false} ConcatAppend(a: seq<Chunk>, b: seq<Chunk>)
    ensures Concat(a + b) == Concat(a) + Concat(b)
  {
    if b == [] {
      assert a + b == a;
    } else {
      var init := b[..|b| - 1];
      assert (a + b)[..|a + b| - 1] == a + init;
      ConcatAppend(a, init);
    }
  }

  /**
   * The output buffer `outbuf`, created empty at png_ext.c:115. The ghost `chunks`
   * lists every chunk written so far; Valid ties the bytes to their concatenation.
   */
  class OutputBuffer {
    var bytes: seq<byte>
    ghost var chunks: seq<Chunk>

    ghost predicate Valid()
      reads this
    {
      bytes == Concat(chunks)
    }

    constructor ()
      ensures Valid() && chunks == [] && bytes == []
    {
      bytes := [];
      chunks := [];
    }

    /** write_func (png_ext.c:54-60): append the chunk, never touch what is there. */
    method Write(data: Chunk)
      requires Valid()
      modifies this
      ensures Valid()
      ensures chunks == old(chunks) + [data]
      ensures bytes == old(bytes) + data
    {
      bytes := bytes + data;
      chunks := chunks + [data];
      assert chunks[..|chunks| - 1] == old(chunks);
    }

    /** flush_func (png_ext.c:63-65): nothing to flush in memory. */
    method Flush()
      requires Valid()
      ensures Valid() && bytes == old(bytes) && chunks == old(chunks)
    {
    }

    /** libpng writing several chunks through write_func, in order. */
    method WriteAll(cs: seq<Chunk>)
      requires Valid()
      modifies this
      ensures Valid()
      ensures chunks == old(chunks) + cs
      ensures bytes == old(bytes) + Concat(cs)
      decreases |cs|
    {
      if cs != [] {
        ghost var c0 := chunks;
        Write(cs[0]);
        WriteAll(cs[1..]);
        assert c0 + [cs[0]] + cs[1..] == c0 + cs;
      }
      ConcatAppend(old(chunks), cs);
    }
  }
}
