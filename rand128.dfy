/** Width derivation for generators whose native word is 128 bits: every narrower
    word truncates one draw. */
module Rand128 {
  import opened Words
  import opened Rand

  /** `rand128::next_u16`: the low 16 bits of one draw. */
  method NextU16(rand: Source128) returns (r: u16)
    modifies rand
    ensures rand.drawn == old(rand.drawn) + 1
    ensures r == Low16(rand.stream(old(rand.drawn)))
  {
    var x := rand.NextU128();
    r := Low16(x);
  }

  /** `rand128::next_u32`: the low 32 bits of one draw. */
  method NextU32(rand: Source128) returns (r: u32)
    modifies rand
    ensures rand.drawn == old(rand.drawn) + 1
    ensures r == Low32(rand.stream(old(rand.drawn)))
  {
    var x := rand.NextU128();
    r := Low32(x);
  }

  /** `rand128::next_u64`: the low 64 bits of one draw. */
  method NextU64(rand: Source128) returns (r: u64)
    modifies rand
    ensures rand.drawn == old(rand.drawn) + 1
    ensures r == Low64(rand.stream(old(rand.drawn)))
  {
    var x := rand.NextU128();
    r := Low64(x);
  }

  /** A 128-bit source cycling 5, 6, 7: each narrower call takes one native draw and
      returns it unchanged, since each fits the narrower width. */
  method CyclingSource() returns (a: u16, b: u32, c: u64, ns: seq<nat>)
    ensures a == 5 && b == 6 && c == 7 && ns == [1, 2, 3]
  {
    var rand := new Source128(k => 5 + k % 3);
    a := NextU16(rand);
    var n0 := rand.drawn;
    b := NextU32(rand);
    var n1 := rand.drawn;
    c := NextU64(rand);
    ns := [n0, n1, rand.drawn];
  }
}
