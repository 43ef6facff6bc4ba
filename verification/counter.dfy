/** The interval counter `Buffer` (`src/sucrose/counter.py`): a committed value and a
    pending buffer; `step` accumulates into the buffer and commits whole intervals. */
module Counter {
  import opened Wrappers

  /** Python's `a // b`: division rounding toward negative infinity. */
  function PyDiv(a: int, b: int): int
    requires b != 0
  {
    if b > 0 || a % b == 0 then a / b else a / b - 1
  }

  /** Python's `a % b`: the remainder takes the sign of the divisor, matching `//`.
      Dafny's own `%` is Euclidean, so the negative divisor is written out. */
  function PyMod(a: int, b: int): (r: int)
    requires b != 0
    ensures b > 0 ==> 0 <= r < b
    ensures b < 0 ==> b < r <= 0
    ensures a == b * PyDiv(a, b) + r
  {
    var e := a % b;
    if b > 0 || e == 0 then e
    else
      var q := a / b;
      assert a == b * q + e;
      assert b * (q - 1) == b * q - b;
      e + b
  }

  lemma PyModOfSmall(a: int, b: int)
    requires 0 <= a < b
    ensures PyMod(a, b) == a
  {
  }

  /** A counter's observable state: `value` and `buffer`. */
  datatype Count = Count(value: int, buffer: int)

  datatype CounterError = ZeroDivision   // `tmp_val % 0`

  /** `step(n, interval)` on a state: the new state and whether it fired. A zero
      interval raises before anything changes. With a positive interval the buffer
      ends up in [0, interval); the step fires exactly when buffer + n reaches the
      interval; firing commits a non-negative multiple of the interval, and for a
      non-negative total `value + buffer` grows by exactly `n`. */
  function StepCount(c: Count, n: int, interval: int): (r: Result<(Count, bool), CounterError>)
    ensures interval == 0 <==> r == Failure(ZeroDivision)
    ensures r.Success? ==> var (c', fired) := r.value;
      && c'.buffer == PyMod(c.buffer + n, interval)
      && (fired <==> c.buffer + n >= interval)
      && (!fired ==> c'.value == c.value)
      && (fired ==> c'.value - c.value == c.buffer + n - c'.buffer)
      && (interval > 0 ==> 0 <= c'.buffer < interval)
      && (interval > 0 && fired ==> c'.value - c.value == interval * PyDiv(c.buffer + n, interval) >= interval)
      && (interval > 0 && c.buffer + n >= 0 ==> c'.value + c'.buffer == c.value + c.buffer + n)
  {
    if interval == 0 then Failure(ZeroDivision)
    else
      var tmp := c.buffer + n;
      var buffer := PyMod(tmp, interval);
      if tmp >= interval then
        Success((Count(c.value + tmp - buffer, buffer), true))
      else
        if interval > 0 && tmp >= 0 then PyModOfSmall(tmp, interval); Success((Count(c.value, buffer), false))
        else Success((Count(c.value, buffer), false))
  }

  /** `update()`: the buffer is committed into the value. */
  function UpdateCount(c: Count): (c': Count)
    ensures c'.buffer == 0
    ensures c'.value + c'.buffer == c.value + c.buffer
  {
    Count(c.value + c.buffer, 0)
  }

  /** `clean()`: the buffer is dropped. */
  function CleanCount(c: Count): (c': Count)
    ensures c'.buffer == 0 && c'.value == c.value
  {
    Count(c.value, 0)
  }

  /** Stepping by whole intervals from an empty buffer fires every time and leaves the
      buffer empty. */
  lemma {:induction false} StepsOfOneInterval(c: Count, interval: int, k: nat)
    requires interval > 0 && c.buffer == 0
    ensures StepsBy(c, interval, interval, k) == Count(c.value + k * interval, 0)
  {
    if k > 0 {
      StepsOfOneInterval(c, interval, k - 1);
      var mid := StepsBy(c, interval, interval, k - 1);
      assert StepCount(mid, interval, interval).value.0.buffer == 0;
    }
  }

  /** `k` steps of `n`, with the given interval, starting from `c`. */
  function StepsBy(c: Count, n: int, interval: int, k: nat): Count
    requires interval > 0
  {
    if k == 0 then c else StepCount(StepsBy(c, n, interval, k - 1), n, interval).value.0
  }

  class Buffer {
    var value: int
    var buffer: int

    function State(): Count
      reads this
    {
      Count(value, buffer)
    }

    /** `Buffer(value, buffer)` */
    constructor (value0: int, buffer0: int)
      ensures State() == Count(value0, buffer0)
    {
      value := value0;
      buffer := buffer0;
    }

    /** `int(b)` and `operator.index(b)`: the committed value, not the buffer. */
    function Int(): (i: int)
      reads this
      ensures i == State().value
    {
      value
    }

    /** `step(n, interval)` */
    method Step(n: int, interval: int) returns (r: Result<bool, CounterError>)
      modifies this
      ensures interval == 0 ==> r == Failure(ZeroDivision) && State() == old(State())
      ensures interval != 0 ==>
        var expected := StepCount(old(State()), n, interval).value;
        r == Success(expected.1) && State() == expected.0
    {
      if interval == 0 {
        return Failure(ZeroDivision);
      }
      var tmp := buffer + n;
      buffer := PyMod(tmp, interval);
      if tmp >= interval {
        value := value + (tmp - buffer);
        return Success(true);
      }
      return Success(false);
    }

    /** `update()` */
    method Update()
      modifies this
      ensures State() == UpdateCount(old(State()))
    {
      value := value + buffer;
      buffer := 0;
    }

    /** `clean()` */
    method Clean()
      modifies this
      ensures State() == CleanCount(old(State()))
    {
      buffer := 0;
    }
  }

  /** A client: stepping 4 then 5 with interval 3 fires both times and leaves value 9
      with nothing pending. */
  method StepTwice() returns (fired1: Result<bool, CounterError>, fired2: Result<bool, CounterError>, total: int)
    ensures fired1 == Success(true) && fired2 == Success(true) && total == 9
  {
    var b := new Buffer(0, 0);
    fired1 := b.Step(4, 3);
    fired2 := b.Step(5, 3);
    b.Update();
    total := b.Int();
  }
}
