/** The `Rand` trait: a generator that must supply `next_u64`, and gets `next_u128`
    and `next_bool` by default.

    A generator is modelled by what it returns: `stream(k)` is the word its `k`-th
    `next_u64` call returns (counting from 0), and `drawn` counts the calls made so
    far. Every concrete generator of the library (counter, xorshift, splitmix,
    wyrand, the mocks) is one such stream. The default methods are the same in both
    revisions of the library. */
module Rand {
  import opened Words
  import opened Probability

  /** A generator whose native word is 64 bits wide. */
  class Source64 {
    const stream: nat -> u64
    var drawn: nat

    constructor (stream: nat -> u64)
      ensures this.stream == stream && drawn == 0
    {
      this.stream := stream;
      drawn := 0;
    }

    /** `Rand::next_u64`: the next word of the stream; one draw. */
    method NextU64() returns (x: u64)
      modifies this
      ensures drawn == old(drawn) + 1
      ensures x == stream(old(drawn))
    {
      x := stream(drawn);
      drawn := drawn + 1;
    }

    /** `Rand::next_u128` (default): two draws, the first in the high half. */
    method NextU128() returns (r: u128)
      modifies this
      ensures drawn == old(drawn) + 2
      ensures r == Splice(stream(old(drawn)), stream(old(drawn) + 1))
    {
      var hi := NextU64();
      var lo := NextU64();
      r := Splice(hi, lo);
    }

    /** `Rand::next_bool`: one draw compared with the probability's cutoff; `false` for
        p = 0 and `true` for p = 1 whatever the draw (`BoolEndpoints`). */
    method NextBool(p: Probability) returns (b: bool)
      modifies this
      ensures drawn == old(drawn) + 1
      ensures b == BoolFromDraw(BoolCutoff(p), stream(old(drawn)))
      ensures b <==> stream(old(drawn)) < BoolCutoff(p) || BoolCutoff(p) == MAX_64
    {
      var cutoff := BoolCutoff(p);
      var next := NextU64();
      if next == MAX_64 {
        next := MAX_64 - 1;
      }
      b := next < cutoff;
      BoolFromDrawIff(cutoff, stream(drawn - 1));
    }
  }

  /** A generator whose native word is 128 bits wide (the `Rand128` marker trait). */
  class Source128 {
    const stream: nat -> u128
    var drawn: nat

    constructor (stream: nat -> u128)
      ensures this.stream == stream && drawn == 0
    {
      this.stream := stream;
      drawn := 0;
    }

    /** The native `next_u128`: the next word of the stream; one draw. */
    method NextU128() returns (x: u128)
      modifies this
      ensures drawn == old(drawn) + 1
      ensures x == stream(old(drawn))
    {
      x := stream(drawn);
      drawn := drawn + 1;
    }
  }
}
