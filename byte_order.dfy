/**
 * The 16-bit byte swap requested at png_ext.c:81 (png_set_swap). Input samples
 * are little-endian (png_ext.c:89-91); a PNG stores multi-byte samples most
 * significant byte first (section 7.1 of the PNG specification, "Integers and byte
 * order"). The request is specified here as a function on the sample bytes.
 */
module ByteOrder {
  import opened Words

  /** Reverse every pair of bytes; a final odd byte, which no 16-bit row has, is kept. */
  function SwapPairs(s: seq<byte>): (r: seq<byte>)
    ensures |r| == |s|
    ensures forall j :: 0 <= j < |s| - |s| % 2 ==> r[j] == s[if j % 2 == 0 then j + 1 else j - 1]
    ensures |s| % 2 == 1 ==> r[|s| - 1] == s[|s| - 1]
    decreases |s|
  {
    if |s| < 2 then s else [s[1], s[0]] + SwapPairs(s[2..])
  }

  /** The sample values of little-endian byte pairs: low byte first. */
  function LittleEndian16(s: seq<byte>): seq<nat>
    decreases |s|
  {
    if |s| < 2 then [] else [s[0] as nat + 256 * s[1] as nat] + LittleEndian16(s[2..])
  }

  /** The sample values of big-endian byte pairs, as a PNG decoder reads them. */
  function BigEndian16(s: seq<byte>): seq<nat>
    decreases |s|
  {
    if |s| < 2 then [] else [256 * s[0] as nat + s[1] as nat] + BigEndian16(s[2..])
  }

  /** Swapping turns little-endian input into big-endian PNG samples of the same values. */
  lemma {:induction false} SwapMakesBigEndian(s: seq<byte>)
    ensures BigEndian16(SwapPairs(s)) == LittleEndian16(s)
    decreases |s|
  {
    if |s| >= 2 {
      var r := SwapPairs(s);
      assert r[2..] == SwapPairs(s[2..]);
      SwapMakesBigEndian(s[2..]);
    }
  }

  /** Swapping twice restores the bytes. */
  lemma {:induction false} SwapPairsInvolutive(s: seq<byte>)
    ensures SwapPairs(SwapPairs(s)) == s
    decreases |s|
  {
    if |s| >= 2 {
      var r := SwapPairs(s);
      assert r == [s[1], s[0]] + SwapPairs(s[2..]);
      assert r[2..] == SwapPairs(s[2..]);
      SwapPairsInvolutive(s[2..]);
      assert s == [s[0], s[1]] + s[2..];
    }
  }
}
