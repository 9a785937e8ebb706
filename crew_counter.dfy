/** The plus/minus counter used for the crew of each selected function.
    A handler returns the value it hands to onChange; None means the
    callback is not called. */
module CrewCounter {
  import opened Seqs

  const DefaultMin: int := 0
  const DefaultMax: int := 10

  /** The `min = 0` and `max = 10` parameter defaults. */
  function MinOf(prop: Option<int>): int {
    match prop
    case Some(m) => m
    case None => DefaultMin
  }

  function MaxOf(prop: Option<int>): int {
    match prop
    case Some(m) => m
    case None => DefaultMax
  }

  /** handleIncrement. */
  function Increment(value: int, max: Option<int>): Option<int> {
    if value < MaxOf(max) then Some(value + 1) else None
  }

  /** handleDecrement. */
  function Decrement(value: int, min: Option<int>): Option<int> {
    if value > MinOf(min) then Some(value - 1) else None
  }

  /** The value after a handler ran. */
  function After(value: int, emitted: Option<int>): int {
    match emitted
    case Some(v) => v
    case None => value
  }
}

/** What the crew counter promises. */
module CrewCounterProperties {
  import opened Seqs
  import opened CrewCounter

  /** A value within [min, max] stays within it under either button. */
  lemma StaysInBounds(value: int, min: Option<int>, max: Option<int>)
    requires MinOf(min) <= value <= MaxOf(max)
    ensures MinOf(min) <= After(value, Increment(value, max)) <= MaxOf(max)
    ensures MinOf(min) <= After(value, Decrement(value, min)) <= MaxOf(max)
  {
  }

  /** With no bounds passed, a count in 0..10 stays in 0..10 however often
      plus is pressed, and ten presses from 0 reach exactly 10. */
  lemma DefaultRange(value: int, n: nat)
    requires 0 <= value <= 10
    ensures 0 <= After(value, Decrement(value, None)) <= 10
    ensures 0 <= Presses(value, None, n) <= 10
    ensures Presses(0, None, 10) == 10
  {
    RepeatedIncrementReachesMax(value, None, n);
    RepeatedIncrementReachesMax(0, None, 10);
  }

  /** Below the maximum, plus then minus restores the value. */
  lemma IncrementThenDecrement(value: int, min: Option<int>, max: Option<int>)
    requires MinOf(min) <= value < MaxOf(max)
    ensures After(After(value, Increment(value, max)), Decrement(After(value, Increment(value, max)), min)) == value
  {
  }

  /** Above the minimum, minus then plus restores the value. */
  lemma DecrementThenIncrement(value: int, min: Option<int>, max: Option<int>)
    requires MinOf(min) < value <= MaxOf(max)
    ensures After(After(value, Decrement(value, min)), Increment(After(value, Decrement(value, min)), max)) == value
  {
  }

  /** From any value in [min, max], max - value presses of plus reach max
      and further presses do nothing. */
  lemma {:induction false} RepeatedIncrementReachesMax(value: int, max: Option<int>, n: nat)
    requires value <= MaxOf(max)
    ensures Presses(value, max, n) == if value + n <= MaxOf(max) then value + n else MaxOf(max)
    decreases n
  {
    if n > 0 {
      var next := After(value, Increment(value, max));
      RepeatedIncrementReachesMax(next, max, n - 1);
    }
  }

  /** The value after n presses of plus. */
  function Presses(value: int, max: Option<int>, n: nat): int
    decreases n
  {
    if n == 0 then value else Presses(After(value, Increment(value, max)), max, n - 1)
  }
}
