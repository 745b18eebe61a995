/** Fixed-width unsigned machine words as bounded integers, and the two ways a
    generator derives one width from another: truncation (keep the low-order
    bits of one word) and splicing (two words, the first in the high half). */
module Words {

  const TWO_16: int := 0x1_0000
  const TWO_32: int := 0x1_0000_0000
  const TWO_64: int := 0x1_0000_0000_0000_0000
  const TWO_128: int := 0x1_0000_0000_0000_0000_0000_0000_0000_0000

  type u16 = x: int | 0 <= x < TWO_16
  type u32 = x: int | 0 <= x < TWO_32
  type u64 = x: int | 0 <= x < TWO_64
  type u128 = x: int | 0 <= x < TWO_128

  const MAX_64: u64 := TWO_64 - 1
  const MAX_128: u128 := TWO_128 - 1

  /** `x as u16`: the low 16 bits. */
  function Low16(x: nat): (r: u16)
    ensures x < TWO_16 ==> r == x
  {
    x % TWO_16
  }

  /** `x as u32`: the low 32 bits. */
  function Low32(x: nat): (r: u32)
    ensures x < TWO_32 ==> r == x
  {
    x % TWO_32
  }

  /** `x as u64`: the low 64 bits. */
  function Low64(x: nat): (r: u64)
    ensures x < TWO_64 ==> r == x
  {
    x % TWO_64
  }

  /** `(x >> 64) as u64` for a 128-bit word. */
  function High64(x: u128): (r: u64)
    ensures r * TWO_64 <= x < r * TWO_64 + TWO_64
  {
    x / TWO_64
  }

  /** `u128::from(hi) << 64 | u128::from(lo)`: the halves do not overlap, so the
      shift-or is the sum `hi * 2^64 + lo`. */
  function Splice(hi: u64, lo: u64): (r: u128)
    ensures High64(r) == hi && Low64(r) == lo
  {
    hi * TWO_64 + lo
  }

  /** Every 128-bit word is the splice of its two halves, so splicing loses nothing. */
  lemma SpliceHalves(x: u128)
    ensures Splice(High64(x), Low64(x)) == x
  {
  }

  /** Splicing is injective: different pairs of draws give different 128-bit words. */
  lemma SpliceInjective(h1: u64, l1: u64, h2: u64, l2: u64)
    requires Splice(h1, l1) == Splice(h2, l2)
    ensures h1 == h2 && l1 == l2
  {
  }

  /** Truncating in two steps (128 to 64, then to 16 or 32) keeps the same low bits as
      truncating at once. */
  lemma TruncationComposes(x: u128)
    ensures Low16(Low64(x)) == Low16(x) && Low32(Low64(x)) == Low32(x)
  {
    var q := x / TWO_64;
    assert x == q * TWO_64 + Low64(x);
    assert q * TWO_64 == (q * 0x1_0000_0000_0000) * TWO_16;
    assert q * TWO_64 == (q * 0x1_0000_0000) * TWO_32;
    ModOfMultiplePlus(q * 0x1_0000_0000_0000, TWO_16, Low64(x));
    ModOfMultiplePlus(q * 0x1_0000_0000, TWO_32, Low64(x));
  }

  /** `(k * d + a) % d == a % d`. */
  lemma ModOfMultiplePlus(k: nat, d: int, a: nat)
    requires d > 0
    ensures (k * d + a) % d == a % d
  {
    DivModUnique(k * d + a, d, k + a / d, a % d);
  }

  /** Euclidean division is unique: a quotient and a remainder in range are THE
      quotient and remainder. */
  lemma DivModUnique(a: int, d: int, q: int, r: int)
    requires d > 0 && 0 <= r < d && a == q * d + r
    ensures a / d == q && a % d == r
  {
    var q', r' := a / d, a % d;
    assert a == q' * d + r';
    if q' < q {
      MulMonotone(q' + 1, q, d);
      assert false;
    } else if q < q' {
      MulMonotone(q + 1, q', d);
      assert false;
    }
  }

  /** Multiplying by a non-negative number preserves `<=`. */
  lemma MulMonotone(a: int, b: int, c: int)
    requires a <= b && c >= 0
    ensures a * c <= b * c
  {
    assert b * c - a * c == (b - a) * c;
  }

  /** Rust's test `gen_128_bit_from_64`: draws 1 then 2 splice to 2^64 + 2. */
  lemma SpliceOneTwo()
    ensures Splice(1, 2) == 0x0000_0000_0000_0001_0000_0000_0000_0002
  {
  }
}
