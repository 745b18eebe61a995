/** Deterministic mock generators for tests. A mock keeps a `State` holding the number of
    `next_u64` calls made so far and asks a delegate for each word, passing the state as
    it was before the call; the count goes up only after the delegate returns.

    The delegates are the library's pre-canned closures: `counter(a..b)` (a closure over
    a mutable `current`, modelled as an object), `fixed(v)`, `echo(&cell)` (reads a shared
    cell at the moment of the call), and any closure that computes its word from the
    state alone. Both revisions of the library have this design; the older one calls the
    count `invocations` and the cell `U64Cell`. */
module Mocks {
  import opened Words
  import opened Rand

  /** `mock::State`: the number of completed `next_u64` calls. */
  datatype State = State(invocations: nat)

  /** A shared, internally mutable `u64`: `RefCell<u64>` with `RefCellExt::{get, set}`, or
      `U64Cell` in the older revision. */
  class Cell {
    var value: u64

    /** `U64Cell::new(initial)`. */
    constructor New(initial: u64)
      ensures value == initial
    {
      value := initial;
    }

    /** `U64Cell::default()` and `RefCell::<u64>::default()`: holds 0. */
    constructor Default()
      ensures value == 0
    {
      value := 0;
    }

    /** `get`: the value held now; the cell is unchanged. */
    method Get() returns (v: u64)
      ensures v == value
    {
      v := value;
    }

    /** `set(v)`: replace the value held. */
    method Set(v: u64)
      modifies this
      ensures value == v
    {
      value := v;
    }
  }

  /** `set(v)` followed by `get()` returns `v`. */
  method SetThenGet(cell: Cell, v: u64) returns (r: u64)
    modifies cell
    ensures r == v && cell.value == v
  {
    cell.Set(v);
    r := cell.Get();
  }

  /** The `k`-th word (counting from 0) that `counter(start..end)` yields for a non-empty
      range: it counts up from `start` and restarts at `start` on reaching `end`. */
  function CounterAt(start: u64, end: u64, k: nat): (c: u64)
    requires start < end
    ensures start <= c < end
  {
    start + k % (end - start)
  }

  /** The counter's first lap is `start, start + 1, ..., end - 1`. */
  lemma CounterFirstLap(start: u64, end: u64, k: nat)
    requires start < end && k < end - start
    ensures CounterAt(start, end, k) == start + k
  {
    DivModUnique(k, end - start, 0, k);
  }

  /** The counter repeats with period `end - start`. */
  lemma {:induction false} CounterPeriod(start: u64, end: u64, k: nat)
    requires start < end
    ensures CounterAt(start, end, k + (end - start)) == CounterAt(start, end, k)
  {
    ModOfMultiplePlus(1, end - start, k);
  }

  /** The closure's update rule (`next = current + 1`, back to `start` when `next == end`)
      moves from the `k`-th word to the `k + 1`-th. */
  lemma {:induction false} CounterSucc(start: u64, end: u64, k: nat)
    requires start < end
    ensures CounterAt(start, end, k) + 1 == end ==> CounterAt(start, end, k + 1) == start
    ensures CounterAt(start, end, k) + 1 != end ==> CounterAt(start, end, k + 1) == CounterAt(start, end, k) + 1
  {
    var n := end - start;
    var q, r := k / n, k % n;
    assert k == q * n + r;
    if r + 1 == n {
      DivModUnique(k + 1, n, q + 1, 0);
    } else {
      DivModUnique(k + 1, n, q, r + 1);
    }
  }

  /** A mock's delegate closure. A counter's captured `current` lives in the mock that
      owns the closure (the closure is moved into the mock). */
  datatype Delegate =
    | Counter(start: u64, end: u64)
    | Fixed(val: u64)
    | Echo(cell: Cell)
    | OfState(f: State -> u64)

  /** The delegate can be called: a counter's range is non-empty. */
  predicate Callable(d: Delegate)
  {
    d.Counter? ==> d.start < d.end
  }

  /** A counter delegate that has been called `s.invocations` times holds the word it
      yields next. */
  predicate Attached(d: Delegate, s: State, current: u64)
  {
    Callable(d) && (d.Counter? ==> current == CounterAt(d.start, d.end, s.invocations))
  }

  /** The `k`-th word (counting from 0) that a mock with delegate `d` returns, when the
      words do not depend on anything outside the mock. */
  function StreamAt(d: Delegate, k: nat): (x: u64)
    requires !d.Echo? && Callable(d)
    ensures d.Fixed? ==> x == d.val
    ensures d.Counter? ==> d.start <= x < d.end
  {
    match d
    case Counter(start, end) => CounterAt(start, end, k)
    case Fixed(v) => v
    case OfState(f) => f(State(k))
  }

  /** The same words as a generator's stream. */
  function Stream(d: Delegate): (s: nat -> u64)
    requires !d.Echo? && Callable(d)
    ensures forall k: nat :: s(k) == StreamAt(d, k)
  {
    (k: nat) => StreamAt(d, k)
  }

  /** `delegate(&self.state)`: one call of the delegate with the state as it is now. A
      counter returns `current` and advances it, wrapping to `start` at `end`; an echo
      reads the cell now. */
  method Invoke(d: Delegate, s: State, current: u64) returns (x: u64, current': u64)
    requires Attached(d, s, current)
    ensures Attached(d, State(s.invocations + 1), current')
    ensures d.Echo? ==> x == d.cell.value
    ensures !d.Echo? ==> x == StreamAt(d, s.invocations)
  {
    current' := current;
    match d
    case Counter(start, end) =>
      x := current;
      var next := current + 1;
      current' := if next == end then start else next;
      CounterSucc(start, end, s.invocations);
    case Fixed(v) =>
      x := v;
    case Echo(cell) =>
      x := cell.value;
    case OfState(f) =>
      x := f(s);
  }

  /** `Mock`: a state and a delegate. */
  class Mock {
    var state: State
    const delegate: Delegate
    /** The counter delegate's captured `current` (unused by the other delegates). */
    var current: u64

    ghost predicate Valid()
      reads this
    {
      Attached(delegate, state, current)
    }

    /** `Mock::new(delegate)`: the count starts at 0; a counter delegate is fresh from
        `counter(start..end)`, so `current` is `start`. */
    constructor (delegate: Delegate)
      requires Callable(delegate)
      ensures Valid() && state == State(0) && this.delegate == delegate
    {
      state := State(0);
      this.delegate := delegate;
      current := if delegate.Counter? then delegate.start else 0;
    }

    /** `Rand::next_u64`: call the delegate with the state before the call, then add one to
        the count. Without an echo delegate the mock is the generator `Stream(delegate)`;
        with one it returns the cell's value at the moment of the call. */
    method NextU64() returns (x: u64)
      requires Valid()
      modifies this
      ensures Valid() && state.invocations == old(state.invocations) + 1
      ensures delegate.Echo? ==> x == delegate.cell.value
      ensures !delegate.Echo? ==> x == StreamAt(delegate, old(state.invocations))
    {
      x, current := Invoke(delegate, state, current);
      state := State(state.invocations + 1);
    }
  }

  /** A mock whose delegate reads nothing outside it is the word source `Stream(delegate)`:
      driven side by side from the same count, the two return the same word and stay in
      step. */
  method MatchesSource(m: Mock, r: Source64) returns (x: u64, y: u64)
    requires m.Valid() && !m.delegate.Echo?
    requires r.stream == Stream(m.delegate) && m.state.invocations == r.drawn
    modifies m, r
    ensures m.Valid() && x == y && m.state.invocations == r.drawn
  {
    x := m.NextU64();
    y := r.NextU64();
  }

  /** The `counter(5..8)` example: words 5, 6, 7, 5 with the count rising 1, 2, 3, 4. */
  method CounterFiveToEight() returns (xs: seq<u64>, ns: seq<nat>)
    ensures xs == [5, 6, 7, 5] && ns == [1, 2, 3, 4]
  {
    var mock := new Mock(Counter(5, 8));
    CounterFirstLap(5, 8, 0);
    CounterFirstLap(5, 8, 1);
    CounterFirstLap(5, 8, 2);
    CounterPeriod(5, 8, 0);
    var x0 := mock.NextU64();
    assert x0 == CounterAt(5, 8, 0) == 5;
    var n0 := mock.state.invocations;
    var x1 := mock.NextU64();
    assert x1 == CounterAt(5, 8, 1) == 6;
    var n1 := mock.state.invocations;
    var x2 := mock.NextU64();
    assert x2 == CounterAt(5, 8, 2) == 7;
    var n2 := mock.state.invocations;
    var x3 := mock.NextU64();
    assert x3 == CounterAt(5, 8, 3) == 5;
    var n3 := mock.state.invocations;
    xs, ns := [x0, x1, x2, x3], [n0, n1, n2, n3];
  }

  /** The `fixed(42)` example: 42 on every call. */
  method FixedFortyTwo() returns (a: u64, b: u64)
    ensures a == 42 && b == 42
  {
    var mock := new Mock(Fixed(42));
    a := mock.NextU64();
    b := mock.NextU64();
  }

  /** The `echo(&cell)` example: 0 from a default cell, then 42 after `set(42)`, with the
      cell still holding 42 afterwards. */
  method EchoFollowsCell() returns (a: u64, b: u64, after: u64)
    ensures a == 0 && b == 42 && after == 42
  {
    var cell := new Cell.Default();
    var mock := new Mock(Echo(cell));
    a := mock.NextU64();
    cell.Set(42);
    b := mock.NextU64();
    after := cell.Get();
  }

  /** A delegate sees the count before the call: `|state| state.invocations * 100` returns
      0, then 100, while the count goes 1, then 2. */
  method SeesCountBeforeCall() returns (a: u64, b: u64, n: nat)
    ensures a == 0 && b == 100 && n == 2
  {
    var mock := new Mock(OfState((s: State) => Low64(s.invocations * 100)));
    a := mock.NextU64();
    b := mock.NextU64();
    n := mock.state.invocations;
  }
}
