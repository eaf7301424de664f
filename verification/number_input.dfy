/** The stepper of src/components/NumberInput.tsx: two buttons that move the
    value by one within `[min, max]`. The component holds no state; a handler
    either calls `onChange` with a value (`Some`) or does nothing (`None`). */
module NumberInput {
  import opened ApiTypes

  /** handleDecrease. */
  function HandleDecrease(value: int, min: int): (emitted: Option<int>)
    ensures emitted.Some? <==> value > min
    ensures emitted.Some? ==> emitted.value == value - 1
  {
    if value > min then Some(value - 1) else None
  }

  /** handleIncrease. */
  function HandleIncrease(value: int, max: int): (emitted: Option<int>)
    ensures emitted.Some? <==> value < max
    ensures emitted.Some? ==> emitted.value == value + 1
  {
    if value < max then Some(value + 1) else None
  }

  /** The `disabled` condition of the decrease button. */
  predicate DecreaseDisabled(value: int, min: int) {
    value <= min
  }

  /** The `disabled` condition of the increase button. */
  predicate IncreaseDisabled(value: int, max: int) {
    value >= max
  }

  /** A value inside the range never leaves it by a step, and each step moves
      the value by exactly one towards its bound. */
  lemma StepsStayInRange(value: int, min: int, max: int)
    requires min <= value <= max
    ensures var d := HandleDecrease(value, min);
      d.Some? ==> min <= d.value <= max && d.value < value
    ensures var i := HandleIncrease(value, max);
      i.Some? ==> min <= i.value <= max && i.value > value
  {
  }

  /** A button is disabled exactly when its handler would do nothing. */
  lemma DisabledIffNoOp(value: int, min: int, max: int)
    ensures DecreaseDisabled(value, min) <==> HandleDecrease(value, min).None?
    ensures IncreaseDisabled(value, max) <==> HandleIncrease(value, max).None?
  {
  }
}
