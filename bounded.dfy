/** The sampling loops of `next_lim`, which both revisions of the library share; the
    revisions differ only in the checks around them (a zero limit, an empty range).

    A rejection loop ends only when the generator eventually yields an acceptable word,
    so each method requires that one exists ahead on the generator's stream
    (`Reaches64`, `Reaches128`); its position bounds the loop. */
module Bounded {
  import opened Words
  import opened Lemire
  import opened Rand

  /** The body of `RandLim<u64>::next_lim` after any zero check: draw `x`, take
      `full = x * lim` in 128 bits; when `low = full as u64` is below `lim`, redraw while
      `low` is below `lim.wrapping_neg() % lim`; return `full >> 64`. For `lim == 0` the
      product is 0, so one draw is made and 0 is returned. */
  method Sample64(rand: Source64, lim: u64) returns (v: u64)
    requires lim > 0 ==> Reaches64(rand.stream, rand.drawn, lim)
    modifies rand
    ensures lim == 0 ==> v == 0 && rand.drawn == old(rand.drawn) + 1
    ensures lim > 0 ==> v < lim && Lim64Outcome(rand.stream, old(rand.drawn), rand.drawn, lim, v)
  {
    ghost var d0 := rand.drawn;
    ghost var w: nat := d0;
    if lim > 0 {
      w :| d0 <= w && Accepts64(rand.stream(w), lim);
    }
    var x := rand.NextU64();
    var full := Full(x, lim);
    var low := Low64(full);
    if low < lim {
      var cutoff := Threshold64(lim);
      while low < cutoff
        invariant d0 < rand.drawn <= w + 1
        invariant x == rand.stream(rand.drawn - 1) && full == Full(x, lim) && low == Low64(full)
        invariant RejectedRun(rand.stream, d0, rand.drawn - 1, lim)
        decreases w + 1 - rand.drawn
      {
        RejectedRunExtend(rand.stream, d0, rand.drawn - 1, lim);
        RejectedRunBefore(rand.stream, d0, rand.drawn, lim, w);
        x := rand.NextU64();
        full := Full(x, lim);
        low := Low64(full);
      }
    } else if lim > 0 {
      FastPathSound(x, lim);
    }
    v := High64(full);
    if lim > 0 {
      assert Accepts64(x, lim) && x == rand.stream(rand.drawn - 1);
      assert v == Candidate(x, lim);
    }
  }

  /** The body of `RandLim<u128>::next_lim` after any zero check: a limit that fits in
      64 bits goes through the 64-bit method (so `lim == 0` makes one draw and gives 0);
      a wider one takes the cutoff path. */
  method Sample128(rand: Source64, lim: u128) returns (v: u128)
    requires lim > 0 ==> Reaches128(rand.stream, rand.drawn, lim)
    modifies rand
    ensures lim == 0 ==> v == 0 && rand.drawn == old(rand.drawn) + 1
    ensures lim > 0 ==> v < lim && Lim128Outcome(rand.stream, old(rand.drawn), rand.drawn, lim, v)
  {
    if lim <= MAX_64 {
      v := Sample64(rand, lim);
    } else {
      v := SampleWide(rand, lim);
    }
  }

  /** The wide branch: draw 128-bit words until one is at most `cutoff_u128(lim)`, and
      return it modulo `lim`. */
  method SampleWide(rand: Source64, lim: u128) returns (v: u128)
    requires lim > MAX_64 && Reaches128(rand.stream, rand.drawn, lim)
    modifies rand
    ensures v < lim && Lim128Outcome(rand.stream, old(rand.drawn), rand.drawn, lim, v)
  {
    ghost var d0 := rand.drawn;
    var cutoff := Cutoff128(lim);
    var x;
    ghost var i;
    x, i := DrawAtMost(rand, cutoff);
    WideOutcome(rand.stream, d0, i, lim);
    v := x % lim;
    OutcomeBelowLimit(rand.stream, d0, rand.drawn, lim, v);
  }

  /** The loop of the wide branch: draw 128-bit words (two draws each) until one is at
      most `cutoff`. The ghost `i` counts the words rejected before it. */
  method DrawAtMost(rand: Source64, cutoff: u128) returns (x: u128, ghost i: nat)
    requires exists j: nat :: PairAt(rand.stream, rand.drawn, j) <= cutoff
    modifies rand
    ensures rand.drawn == old(rand.drawn) + 2 * i + 2
    ensures x == PairAt(rand.stream, old(rand.drawn), i) && x <= cutoff
    ensures PairsAbove(rand.stream, old(rand.drawn), i, cutoff)
  {
    ghost var d0 := rand.drawn;
    ghost var j: nat :| PairAt(rand.stream, d0, j) <= cutoff;
    i := 0;
    x := rand.NextU128();
    while x > cutoff
      invariant i <= j
      invariant rand.drawn == d0 + 2 * i + 2
      invariant x == PairAt(rand.stream, d0, i)
      invariant PairsAbove(rand.stream, d0, i, cutoff)
      decreases j - i
    {
      PairsAboveExtend(rand.stream, d0, i, cutoff);
      PairNext(rand.stream, d0, i, rand.drawn);
      x := rand.NextU128();
      i := i + 1;
    }
  }

  /** The first spliced pair at most the cutoff, found after `i` rejected pairs, is the
      outcome of a wide bounded draw that consumed `2 * i + 2` words. */
  lemma WideOutcome(s: nat -> u64, from: nat, i: nat, lim: u128)
    requires lim > MAX_64
    requires PairAt(s, from, i) <= Cutoff128(lim)
    requires PairsAbove(s, from, i, Cutoff128(lim))
    ensures Lim128Outcome(s, from, from + 2 * i + 2, lim, PairAt(s, from, i) % lim)
  {
    assert (2 * i + 2) / 2 - 1 == i;
  }
}
