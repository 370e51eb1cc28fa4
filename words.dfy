/** Machine words of the C extension: bytes of a Ruby string and C `unsigned int`. */
module Words {

  /** 2^32: one more than the largest C `unsigned int`. */
  const U32Limit: int := 0x1_0000_0000

  /** A C `unsigned int` (32 bits on every platform the extension targets). */
  type u32 = x: int | 0 <= x < U32Limit

  /** One byte of a Ruby string. */
  type byte = x: int | 0 <= x < 256

  /** `a * b` on two `unsigned int`s: the product modulo 2^32. */
  function MulU32(a: u32, b: u32): (r: u32)
    ensures r <= a * b
    ensures a * b < U32Limit ==> r == a * b
  {
    var p := a * b;
    assert p >= 0 by {
      MulMonotone(0, a, b);
    }
    ModBelow(p);
    p % U32Limit
  }

  /** Reducing modulo 2^32 never increases a number and leaves a word as it is. */
  lemma ModBelow(p: nat)
    ensures p % U32Limit <= p
    ensures p < U32Limit ==> p % U32Limit == p
  {
  }

  lemma {:induction false} MulMonotone(a: nat, b: nat, c: nat)
    requires a <= b
    ensures a * c <= b * c
  {
    if a < b {
      MulMonotone(a, b - 1, c);
      assert (b - 1) * c + c == b * c;
    }
  }

  lemma MulStrict(a: nat, b: nat, c: nat)
    requires a < b && c > 0
    ensures a * c < b * c
  {
    MulMonotone(a + 1, b, c);
    assert (a + 1) * c == a * c + c;
  }

  /** Reducing modulo 2^32 before multiplying by one or two gives the same word as reducing after. */
  lemma ReduceThenScale(p: nat, k: nat)
    requires k == 1 || k == 2
    ensures ((p % U32Limit) * k) % U32Limit == (p * k) % U32Limit
  {
    if k == 2 {
      var q, r := p / U32Limit, p % U32Limit;
      assert p * 2 == 2 * q * U32Limit + 2 * r;
      if 2 * r < U32Limit {
        ModOfMultiplePlus(2 * q, 2 * r);
      } else {
        assert p * 2 == (2 * q + 1) * U32Limit + (2 * r - U32Limit);
        ModOfMultiplePlus(2 * q + 1, 2 * r - U32Limit);
      }
    }
  }

  /** A multiple of 2^32 plus a word leaves that word as remainder. */
  lemma ModOfMultiplePlus(q: nat, r: nat)
    requires r < U32Limit
    ensures (q * U32Limit + r) % U32Limit == r
  {
    var x := q * U32Limit + r;
    assert (q - x / U32Limit) * U32Limit == x % U32Limit - r;
  }
}
