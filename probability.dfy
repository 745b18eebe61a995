/** `Probability`, a checked `f64` in [0, 1], and the integer side of Bernoulli
    sampling: how a probability becomes a cutoff word and how one draw is compared
    with it. The type and `next_bool` are the same in both revisions of the library. */
module Probability {
  import opened Words
  import opened Outcome

  /** An `f64` as this library looks at it: a number (infinities behave as numbers
      beyond 1 or below 0 in every comparison and cast used here), or NaN. */
  datatype F64 = Num(r: real) | NaN

  /** `struct Probability(f64)`. */
  datatype Probability = Probability(value: F64)

  /** 2^-52, Rust's `f64::EPSILON`. */
  const EPSILON: real := 1.0 / 4503599627370496.0

  predicate InUnitInterval(p: F64)
  {
    p.Num? && 0.0 <= p.r <= 1.0
  }

  /** `Probability::new`: `assert!(p >= 0)` fails for every negative value and for NaN
      (a NaN comparison is false), then `assert!(p <= 1)`. */
  function New(p: F64): (r: Result<Probability>)
    ensures r.Ok? <==> InUnitInterval(p)
    ensures r.Ok? ==> ToF64(r.value) == p
    ensures r == Err(LessThanZero) <==> (p.NaN? || p.r < 0.0)
    ensures r == Err(GreaterThanOne) <==> (p.Num? && p.r > 1.0)
  {
    if !(p.Num? && p.r >= 0.0) then Err(LessThanZero)
    else if !(p.r <= 1.0) then Err(GreaterThanOne)
    else Ok(Probability(p))
  }

  /** `Probability::new_unchecked`: stores any value, NaN and out-of-range ones included. */
  function NewUnchecked(p: F64): (r: Probability)
    ensures ToF64(r) == p
  {
    Probability(p)
  }

  /** `From<f64> for Probability`: the checked constructor. */
  function FromF64(p: F64): Result<Probability>
  {
    New(p)
  }

  /** `From<Probability> for f64`. */
  function ToF64(p: Probability): F64
  {
    p.value
  }

  /** Converting into a probability and back is loss-free, and fails exactly outside [0, 1]. */
  lemma ConversionRoundTrip(p: F64)
    ensures FromF64(p).Ok? <==> InUnitInterval(p)
    ensures FromF64(p).Ok? ==> ToF64(FromF64(p).value) == p
  {
  }

  /** The source's conversion tests: 0, 0 + EPSILON, 1 - EPSILON and 1 convert back
      unchanged; 0 - EPSILON and 1 + EPSILON fail with the matching message, and both
      round-trip through the unchecked constructor. */
  lemma ConversionCases()
    ensures ToF64(FromF64(Num(0.0)).value) == Num(0.0)
    ensures ToF64(FromF64(Num(EPSILON)).value) == Num(EPSILON)
    ensures ToF64(FromF64(Num(1.0 - EPSILON)).value) == Num(1.0 - EPSILON)
    ensures ToF64(FromF64(Num(1.0)).value) == Num(1.0)
    ensures New(Num(0.0 - EPSILON)).panic.Message() == "cannot be less than 0"
    ensures New(Num(1.0 + EPSILON)).panic.Message() == "cannot be greater than 1"
    ensures ToF64(NewUnchecked(Num(0.0 - EPSILON))) == Num(0.0 - EPSILON)
    ensures ToF64(NewUnchecked(Num(1.0 + EPSILON))) == Num(1.0 + EPSILON)
  {
  }

  /** `(p.0 * u64::MAX as f64) as u64`. `u64::MAX as f64` rounds to 2^64, multiplying
      by a power of two is exact, and the float-to-int cast truncates toward zero,
      saturates at 0 and `u64::MAX`, and sends NaN to 0. Hence p = 0 gives cutoff 0 and
      p = 1 gives `u64::MAX`. */
  function BoolCutoff(p: Probability): (c: u64)
    ensures p.value.NaN? ==> c == 0
    ensures p.value.Num? && p.value.r <= 0.0 ==> c == 0
    ensures p.value.Num? && p.value.r >= 1.0 ==> c == MAX_64
  {
    match p.value
    case NaN => 0
    case Num(r) =>
      var y := r * TWO_64 as real;
      if y <= 0.0 then 0
      else if y >= TWO_64 as real then MAX_64
      else y.Floor
  }

  /** The comparison in `next_bool` for one draw `x`: `u64::MAX` is first replaced by
      `u64::MAX - 1`, then the draw must be below the cutoff. */
  function BoolFromDraw(cutoff: u64, x: u64): bool
  {
    var next := if x == MAX_64 then MAX_64 - 1 else x;
    next < cutoff
  }

  /** Which draws give `true`: exactly those below the cutoff, except that the cutoff
      `u64::MAX` makes every draw, `u64::MAX` included, give `true`. */
  lemma BoolFromDrawIff(cutoff: u64, x: u64)
    ensures BoolFromDraw(cutoff, x) <==> (x < cutoff || cutoff == MAX_64)
  {
  }

  /** p = 0 is false and p = 1 is true, for every draw. */
  lemma BoolEndpoints(x: u64)
    ensures !BoolFromDraw(BoolCutoff(Probability(Num(0.0))), x)
    ensures BoolFromDraw(BoolCutoff(Probability(Num(1.0))), x)
  {
  }

  /** A larger probability never has a smaller cutoff, so a draw that is `true` at `p`
      is `true` at every `q >= p`. */
  lemma {:induction false} CutoffMonotone(p: real, q: real, x: u64)
    requires p <= q
    ensures BoolCutoff(Probability(Num(p))) <= BoolCutoff(Probability(Num(q)))
    ensures BoolFromDraw(BoolCutoff(Probability(Num(p))), x) ==> BoolFromDraw(BoolCutoff(Probability(Num(q))), x)
  {
    var yp, yq := p * TWO_64 as real, q * TWO_64 as real;
    assert yp <= yq;
  }

  /** The source's `next_bool` table: draws 0, MAX/4, MAX/2 and MAX against
      probabilities just below and above 1/4, 1/2 and 1. */
  lemma NextBoolCases()
    ensures !BoolFromDraw(BoolCutoff(Probability(Num(0.0))), 0)
    ensures BoolFromDraw(BoolCutoff(Probability(Num(EPSILON))), 0)
    ensures BoolFromDraw(BoolCutoff(Probability(Num(0.5))), 0)
    ensures BoolFromDraw(BoolCutoff(Probability(Num(1.0))), 0)
    ensures !BoolFromDraw(BoolCutoff(Probability(Num(0.0))), MAX_64 / 4)
    ensures !BoolFromDraw(BoolCutoff(Probability(Num(0.25 - EPSILON))), MAX_64 / 4)
    ensures BoolFromDraw(BoolCutoff(Probability(Num(0.25 + EPSILON))), MAX_64 / 4)
    ensures BoolFromDraw(BoolCutoff(Probability(Num(1.0))), MAX_64 / 4)
    ensures !BoolFromDraw(BoolCutoff(Probability(Num(0.0))), MAX_64 / 2)
    ensures !BoolFromDraw(BoolCutoff(Probability(Num(0.5 - EPSILON))), MAX_64 / 2)
    ensures BoolFromDraw(BoolCutoff(Probability(Num(0.5 + EPSILON))), MAX_64 / 2)
    ensures BoolFromDraw(BoolCutoff(Probability(Num(1.0))), MAX_64 / 2)
    ensures !BoolFromDraw(BoolCutoff(Probability(Num(0.0))), MAX_64)
    ensures !BoolFromDraw(BoolCutoff(Probability(Num(0.5))), MAX_64)
    ensures !BoolFromDraw(BoolCutoff(Probability(Num(1.0 - EPSILON))), MAX_64)
    ensures BoolFromDraw(BoolCutoff(Probability(Num(1.0))), MAX_64)
  {
  }
}
