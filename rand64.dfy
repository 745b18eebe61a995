/** Width derivation for generators whose native word is 64 bits: narrower words
    truncate one draw, the 128-bit word splices two. */
module Rand64 {
  import opened Words
  import opened Rand

  /** `rand64::next_u16`: the low 16 bits of one draw. */
  method NextU16(rand: Source64) returns (r: u16)
    modifies rand
    ensures rand.drawn == old(rand.drawn) + 1
    ensures r == Low16(rand.stream(old(rand.drawn)))
  {
    var x := rand.NextU64();
    r := Low16(x);
  }

  /** `rand64::next_u32`: the low 32 bits of one draw. */
  method NextU32(rand: Source64) returns (r: u32)
    modifies rand
    ensures rand.drawn == old(rand.drawn) + 1
    ensures r == Low32(rand.stream(old(rand.drawn)))
  {
    var x := rand.NextU64();
    r := Low32(x);
  }

  /** `rand64::next_u128`: two draws, the first in the high half, the second in the low. */
  method NextU128(rand: Source64) returns (r: u128)
    modifies rand
    ensures rand.drawn == old(rand.drawn) + 2
    ensures High64(r) == rand.stream(old(rand.drawn))
    ensures Low64(r) == rand.stream(old(rand.drawn) + 1)
  {
    var hi := rand.NextU64();
    var lo := rand.NextU64();
    r := Splice(hi, lo);
  }

  /** The source's `gen_128_bit_from_64`: draws 1 then 2 make 2^64 + 2. */
  method SpliceOneThenTwo() returns (r: u128, n: nat)
    ensures r == 0x0000_0000_0000_0001_0000_0000_0000_0002 && n == 2
  {
    var rand := new Source64(k => if k % 2 == 0 then 1 else 2);
    r := NextU128(rand);
    n := rand.drawn;
    SpliceHalves(r);
    SpliceOneTwo();
  }
}
