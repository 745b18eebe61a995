/** The arithmetic of bounded sampling, shared by both revisions of the library.

    64-bit limits use Lemire's multiply-and-reject method ("Fast Random Integer
    Generation in an Interval", 2019): a draw `x` is multiplied by `lim` in 128
    bits, the high word is the candidate result and the low word decides whether
    the draw falls in the biased region. Limits wider than 64 bits draw a 128-bit
    word and reject it above a cutoff that leaves a whole number of multiples of
    `lim` below it, then reduce modulo `lim`.

    The theorems here are counting facts, not probabilities: for each possible
    result, the accepted draws that produce it are equally many. */
module Lemire {
  import opened Words

  // ---------------------------------------------------------------------------
  // 64-bit limits: multiply and reject

  /** `u128::from(x) * u128::from(lim)`: the product of two words never overflows 128 bits. */
  function Full(x: u64, lim: u64): (r: u128)
    ensures r == x * lim
  {
    MulMonotone(x, MAX_64, lim);
    MulMonotone(lim, MAX_64, MAX_64);
    x * lim
  }

  /** `(full >> 64) as u64`: the candidate result of a draw; always below the limit. */
  function Candidate(x: u64, lim: u64): (r: u64)
    ensures lim > 0 ==> r < lim
    ensures r * TWO_64 <= x * lim < r * TWO_64 + TWO_64
  {
    MulMonotone(x, MAX_64, lim);
    High64(Full(x, lim))
  }

  /** `lim.wrapping_neg() % lim`: how many low words are biased. It is `2^64 mod lim`,
      and less than `lim`. */
  function Threshold64(lim: u64): (t: u64)
    requires lim > 0
    ensures t < lim
    ensures t == TWO_64 % lim
  {
    ModOfMultiplePlus(1, lim, TWO_64 - lim);
    (TWO_64 - lim) % lim
  }

  /** The plain rejection rule: a draw is accepted exactly when the low word of
      `x * lim` is at least the threshold. */
  predicate Accepts64(x: u64, lim: u64)
    requires lim > 0
  {
    Low64(Full(x, lim)) >= Threshold64(lim)
  }

  /** The source's test as written: accept at once when `low >= lim` (the fast path,
      which skips computing the threshold), otherwise loop while `low < threshold`. */
  predicate SourceAccepts64(x: u64, lim: u64)
    requires lim > 0
  {
    var low := Low64(Full(x, lim));
    low >= lim || !(low < Threshold64(lim))
  }

  /** The fast path never changes the outcome: it accepts only draws the plain rule accepts. */
  lemma FastPathSound(x: u64, lim: u64)
    requires lim > 0
    ensures SourceAccepts64(x, lim) <==> Accepts64(x, lim)
    ensures Low64(Full(x, lim)) >= lim ==> Accepts64(x, lim)
  {
  }

  /** When `lim` divides `2^64` (a power of two), no draw is ever rejected. */
  lemma PowerOfTwoNeverRejects(lim: u64, x: u64)
    requires lim > 0 && TWO_64 % lim == 0
    ensures Accepts64(x, lim)
  {
  }

  /** `ceil(a / d)`. */
  function CeilDiv(a: int, d: int): (c: int)
    requires d > 0
    ensures (c - 1) * d < a <= c * d
  {
    (a + d - 1) / d
  }

  /** `x * d >= a` exactly when `x` is at least `ceil(a / d)`. */
  lemma CeilMulIff(x: int, d: int, a: int)
    requires d > 0
    ensures x * d >= a <==> x >= CeilDiv(a, d)
  {
    var c := CeilDiv(a, d);
    if x >= c {
      MulMonotone(c, x, d);
    } else {
      MulMonotone(x, c - 1, d);
    }
  }

  /** Adding `n` multiples of `d` moves the ceiling by exactly `n`. */
  lemma CeilShift(a: int, n: int, d: int)
    requires d > 0
    ensures CeilDiv(a + n * d, d) == CeilDiv(a, d) + n
  {
    var c := CeilDiv(a, d);
    var rem := (a + d - 1) % d;
    assert a + d - 1 == c * d + rem;
    assert (c + n) * d == c * d + n * d;
    DivModUnique(a + n * d + d - 1, d, c + n, rem);
  }

  /** The first draw whose accepted product yields result `r`. */
  function RunStart(lim: u64, r: int): int
    requires lim > 0
  {
    CeilDiv(r * TWO_64 + Threshold64(lim), lim)
  }

  /** Zero bias, as a counting fact: for every result `r < lim`, the draws that are
      accepted AND yield `r` are exactly the `2^64 / lim` consecutive words starting at
      `RunStart(lim, r)`. Every result therefore has the same number of accepted draws. */
  lemma {:induction false} AcceptedRun(lim: u64, r: int, x: u64)
    requires 0 < lim && 0 <= r < lim
    ensures Accepts64(x, lim) && Candidate(x, lim) == r
            <==> RunStart(lim, r) <= x < RunStart(lim, r) + TWO_64 / lim
  {
    var t := Threshold64(lim);
    var n := TWO_64 / lim;
    assert TWO_64 == n * lim + t;
    var full := x * lim;
    var a := r * TWO_64 + t;
    // Accepted with result r is "full lies in [r * 2^64 + t, (r + 1) * 2^64)".
    assert Low64(Full(x, lim)) == full - Candidate(x, lim) * TWO_64;
    assert Accepts64(x, lim) && Candidate(x, lim) == r <==> a <= full < r * TWO_64 + TWO_64;
    // Divide both bounds by lim, rounding up.
    CeilMulIff(x, lim, a);
    CeilMulIff(x, lim, r * TWO_64 + TWO_64);
    assert r * TWO_64 + TWO_64 == a + n * lim;
    CeilShift(a, n, lim);
  }

  /** The runs of `AcceptedRun` lie among the 64-bit words. */
  lemma {:induction false} AcceptedRunInRange(lim: u64, r: int)
    requires 0 < lim && 0 <= r < lim
    ensures 0 <= RunStart(lim, r)
    ensures RunStart(lim, r) + TWO_64 / lim <= TWO_64
  {
    var t := Threshold64(lim);
    var n := TWO_64 / lim;
    var a := r * TWO_64 + t;
    assert TWO_64 == n * lim + t;
    assert r * TWO_64 + TWO_64 == a + n * lim;
    CeilShift(a, n, lim);
    MulMonotone(r + 1, lim, TWO_64);
    CeilMulIff(TWO_64, lim, r * TWO_64 + TWO_64);
    CeilMulIff(0, lim, a);
  }

  // ---------------------------------------------------------------------------
  // Wider limits: reject above a cutoff, then reduce modulo the limit

  /** `cutoff_u128`: `u128::MAX - (u128::MAX - lim + 1) % lim`. The words `0..=cutoff`
      are a whole number of multiples of `lim`, and fewer than `lim` words lie above. */
  function Cutoff128(lim: u128): (c: u128)
    requires lim > 0
    ensures c == MAX_128 - TWO_128 % lim
    ensures (c + 1) % lim == 0
    ensures MAX_128 - c < lim
  {
    var overhang := (MAX_128 - lim + 1) % lim;
    ModOfMultiplePlus(1, lim, TWO_128 - lim);
    assert overhang == TWO_128 % lim;
    var q := TWO_128 / lim;
    assert MAX_128 - overhang + 1 == q * lim;
    ModOfMultiplePlus(q, lim, 0);
    MAX_128 - overhang
  }

  /** The accepted words `0..=cutoff` are exactly the complete blocks
      `[k * lim, (k + 1) * lim)` for `k < (cutoff + 1) / lim`; each block holds every
      residue once, so `rand % lim` takes every value equally often. */
  lemma {:induction false} AcceptedBlocks(lim: u128, x: u128)
    requires lim > 0
    ensures x <= Cutoff128(lim) <==> x / lim < (Cutoff128(lim) + 1) / lim
  {
    var c := Cutoff128(lim);
    var q := (c + 1) / lim;
    assert c + 1 == q * lim;
    var k := x / lim;
    assert k * lim <= x < k * lim + lim;
    if k < q {
      MulMonotone(k + 1, q, lim);
    } else {
      MulMonotone(q, k, lim);
    }
  }

  /** The source's spot values (`test_cutoff_u128`). */
  lemma CutoffSpotValues()
    ensures Cutoff128(1) == MAX_128
    ensures Cutoff128(2) == MAX_128
    ensures Cutoff128(3) == MAX_128 - 1
  {
  }

  // ---------------------------------------------------------------------------
  // What one bounded draw consumes from a generator's stream of words

  /** The `j`-th 128-bit word spliced from the stream starting at draw `from`: what the
      `j`-th default `next_u128` call returns. */
  function PairAt(s: nat -> u64, from: nat, j: nat): u128
  {
    Splice(s(from + 2 * j), s(from + 2 * j + 1))
  }

  /** The first `n` spliced pairs from `from` are all above `cutoff`. */
  ghost predicate PairsAbove(s: nat -> u64, from: nat, n: nat, cutoff: u128)
  {
    forall j :: 0 <= j < n ==> PairAt(s, from, j) > cutoff
  }

  /** One more rejected pair extends the run of rejected pairs. */
  lemma PairsAboveExtend(s: nat -> u64, from: nat, n: nat, cutoff: u128)
    requires PairsAbove(s, from, n, cutoff) && PairAt(s, from, n) > cutoff
    ensures PairsAbove(s, from, n + 1, cutoff)
  {
  }

  /** The pair after the `n`-th starts two draws later, at draw `at`. */
  lemma PairNext(s: nat -> u64, from: nat, n: nat, at: nat)
    requires at == from + 2 * n + 2
    ensures PairAt(s, from, n + 1) == Splice(s(at), s(at + 1))
  {
  }

  /** Some draw at or after `from` is accepted for `lim`: the 64-bit rejection loop ends. */
  ghost predicate Reaches64(s: nat -> u64, from: nat, lim: u64)
    requires lim > 0
  {
    exists k :: from <= k && Accepts64(s(k), lim)
  }

  /** The bounded draw for a 128-bit `lim` starting at `from` ends: through the 64-bit
      loop when `lim` fits in 64 bits, otherwise some spliced pair is at most the cutoff. */
  ghost predicate Reaches128(s: nat -> u64, from: nat, lim: u128)
    requires lim > 0
  {
    if lim <= MAX_64 then Reaches64(s, from, lim)
    else exists j: nat :: PairAt(s, from, j) <= Cutoff128(lim)
  }

  /** No draw in `from..to` is accepted for `lim`. */
  ghost predicate RejectedRun(s: nat -> u64, from: nat, to: int, lim: u64)
    requires lim > 0
  {
    forall k :: from <= k < to ==> !Accepts64(s(k), lim)
  }

  /** One more rejected draw extends a rejected run. */
  lemma RejectedRunExtend(s: nat -> u64, from: nat, to: nat, lim: u64)
    requires lim > 0 && RejectedRun(s, from, to, lim) && !Accepts64(s(to), lim)
    ensures RejectedRun(s, from, to + 1, lim)
  {
  }

  /** A rejected run cannot pass an accepted draw. */
  lemma RejectedRunBefore(s: nat -> u64, from: nat, to: nat, lim: u64, w: nat)
    requires lim > 0 && RejectedRun(s, from, to, lim)
    requires from <= w && Accepts64(s(w), lim)
    ensures to <= w
  {
  }

  /** A 64-bit bounded draw that starts at draw `from` and has consumed draws up to
      `to - 1` returns `value`: draw `to - 1` is the first accepted one, and `value` is
      its candidate. */
  ghost predicate Lim64Outcome(s: nat -> u64, from: nat, to: nat, lim: u64, value: int)
    requires lim > 0
  {
    && from < to
    && Accepts64(s(to - 1), lim)
    && RejectedRun(s, from, to - 1, lim)
    && value == Candidate(s(to - 1), lim)
  }

  /** A 128-bit bounded draw from `from` to `to` returns `value`: the 64-bit outcome when
      `lim` fits in 64 bits; otherwise the draws form pairs, the last pair is the first
      one at most the cutoff, and `value` is that word modulo `lim`. */
  ghost predicate Lim128Outcome(s: nat -> u64, from: nat, to: nat, lim: u128, value: int)
    requires lim > 0
  {
    if lim <= MAX_64 then Lim64Outcome(s, from, to, lim, value)
    else
      && from < to
      && (to - from) % 2 == 0
      && var i := (to - from) / 2 - 1;
      && PairAt(s, from, i) <= Cutoff128(lim)
      && PairsAbove(s, from, i, Cutoff128(lim))
      && value == PairAt(s, from, i) % lim
  }

  /** Whatever the stream, a bounded draw returns a value below the limit. */
  lemma OutcomeBelowLimit(s: nat -> u64, from: nat, to: nat, lim: u128, value: int)
    requires lim > 0 && Lim128Outcome(s, from, to, lim, value)
    ensures 0 <= value < lim
  {
  }

  /** Bounded draws are deterministic: from the same position of the same stream there
      is one outcome, the same number of draws consumed and the same value. */
  lemma {:induction false} Lim64OutcomeUnique(s: nat -> u64, from: nat, to1: nat, to2: nat, lim: u64, v1: int, v2: int)
    requires lim > 0
    requires Lim64Outcome(s, from, to1, lim, v1) && Lim64Outcome(s, from, to2, lim, v2)
    ensures to1 == to2 && v1 == v2
  {
  }

  /** The same determinism for 128-bit limits. */
  lemma {:induction false} Lim128OutcomeUnique(s: nat -> u64, from: nat, to1: nat, to2: nat, lim: u128, v1: int, v2: int)
    requires lim > 0
    requires Lim128Outcome(s, from, to1, lim, v1) && Lim128Outcome(s, from, to2, lim, v2)
    ensures to1 == to2 && v1 == v2
  {
    if lim <= MAX_64 {
      Lim64OutcomeUnique(s, from, to1, to2, lim, v1, v2);
    }
  }

  /** For a power-of-two limit every bounded draw consumes exactly one word. */
  lemma PowerOfTwoOneDraw(s: nat -> u64, from: nat, lim: u64)
    requires lim > 0 && TWO_64 % lim == 0
    ensures Lim64Outcome(s, from, from + 1, lim, Candidate(s(from), lim))
  {
    PowerOfTwoNeverRejects(lim, s(from));
  }
}
