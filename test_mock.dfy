/** `TestMock`: the crate-internal mock whose native word is 64 bits and whose other
    widths go through the `rand64` derivations: truncation of one draw for 16 and 32 bits,
    a splice of two draws for 128 bits. It shares the delegates of `Mocks`. */
module TestMocks {
  import opened Words
  import opened Mocks

  class TestMock {
    var state: State
    const delegate: Delegate
    /** The counter delegate's captured `current` (unused by the other delegates). */
    var current: u64

    ghost predicate Valid()
      reads this
    {
      Attached(delegate, state, current)
    }

    /** `TestMock::new(delegate)`: the count starts at 0. */
    constructor (delegate: Delegate)
      requires Callable(delegate)
      ensures Valid() && state == State(0) && this.delegate == delegate
    {
      state := State(0);
      this.delegate := delegate;
      current := if delegate.Counter? then delegate.start else 0;
    }

    /** `next_u64`: call the delegate with the state before the call, then add one to the
        count. */
    method NextU64() returns (x: u64)
      requires Valid()
      modifies this
      ensures Valid() && state.invocations == old(state.invocations) + 1
      ensures delegate.Echo? ==> x == delegate.cell.value
      ensures !delegate.Echo? ==> x == StreamAt(delegate, old(state.invocations))
    {
      x, current := Invoke(delegate, state, current);
      state := State(state.invocations + 1);
    }

    /** `next_u16` through `rand64::next_u16`: the low 16 bits of one `next_u64`; the count
        goes up by exactly one. */
    method NextU16() returns (r: u16)
      requires Valid()
      modifies this
      ensures Valid() && state.invocations == old(state.invocations) + 1
      ensures delegate.Echo? ==> r == Low16(delegate.cell.value)
      ensures !delegate.Echo? ==> r == Low16(StreamAt(delegate, old(state.invocations)))
    {
      var x := NextU64();
      r := Low16(x);
    }

    /** `next_u32` through `rand64::next_u32`: the low 32 bits of one `next_u64`; the count
        goes up by exactly one. */
    method NextU32() returns (r: u32)
      requires Valid()
      modifies this
      ensures Valid() && state.invocations == old(state.invocations) + 1
      ensures delegate.Echo? ==> r == Low32(delegate.cell.value)
      ensures !delegate.Echo? ==> r == Low32(StreamAt(delegate, old(state.invocations)))
    {
      var x := NextU64();
      r := Low32(x);
    }

    /** `next_u128` through `rand64::next_u128`: two `next_u64` calls, the first in the
        high half; the count goes up by exactly two. */
    method NextU128() returns (r: u128)
      requires Valid()
      modifies this
      ensures Valid() && state.invocations == old(state.invocations) + 2
      ensures delegate.Echo? ==> r == Splice(delegate.cell.value, delegate.cell.value)
      ensures !delegate.Echo? ==> r == Splice(StreamAt(delegate, old(state.invocations)),
                                              StreamAt(delegate, old(state.invocations) + 1))
    {
      var hi := NextU64();
      var lo := NextU64();
      r := Splice(hi, lo);
    }
  }

  /** Accounting with a `counter(1..4)` delegate: `next_u16`, `next_u32`, `next_u64` take
      one word each (1, 2, 3) and `next_u128` takes two (1, then 2); the count ends at 5. */
  method WidthsConsumeDraws() returns (a: u16, b: u32, c: u64, d: u128, n: nat)
    ensures a == 1 && b == 2 && c == 3
    ensures d == Splice(1, 2) && n == 5
  {
    var mock := new TestMock(Counter(1, 4));
    CounterFirstLap(1, 4, 0);
    CounterFirstLap(1, 4, 1);
    CounterFirstLap(1, 4, 2);
    CounterPeriod(1, 4, 0);
    CounterPeriod(1, 4, 1);
    a := mock.NextU16();
    b := mock.NextU32();
    c := mock.NextU64();
    d := mock.NextU128();
    n := mock.state.invocations;
  }
}
