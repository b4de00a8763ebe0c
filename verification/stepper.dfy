/** The quantity stepper beside each catalog entry: the `-` and `+` buttons
    rewrite the number shown in the entry's `.quantity` span.

    The two versions of the page disagree. script.js:224-228 clamps
    `max(1, q + change)`; app.js:194-203 decrements only when `q > 1` and
    always increments by one. */
module Stepper {

  /** The `.quantity` span; its text is modelled as the integer it parses to. */
  class QuantitySpan {
    var quantity: int

    constructor (quantity: int)
      ensures this.quantity == quantity
    {
      this.quantity := quantity;
    }
  }

  /** script.js step: `Math.max(1, q + change)`. */
  function ClampedStep(q: int, change: int): (r: int)
    ensures r >= 1 && r >= q + change
    ensures r == 1 || r == q + change
  {
    if q + change > 1 then q + change else 1
  }

  /** app.js decrease: one less, but only from a value above 1. */
  function AppDecrease(q: int): (r: int)
    ensures r == q || r == q - 1
    ensures r < q <==> q > 1
  {
    if q > 1 then q - 1 else q
  }

  /** app.js increase: always one more, with no upper bound; from 1 upward
      a decrease undoes it. */
  function AppIncrease(q: int): (r: int)
    ensures r > q
    ensures q >= 1 ==> AppDecrease(r) == q
  {
    q + 1
  }

  /** `n` presses of the script.js minus button. */
  function ClampedDecrements(q: int, n: nat): int
  {
    if n == 0 then q else ClampedStep(ClampedDecrements(q, n - 1), -1)
  }

  /** `n` presses of the app.js minus button. */
  function AppDecrements(q: int, n: nat): int
  {
    if n == 0 then q else AppDecrease(AppDecrements(q, n - 1))
  }

  /** `updateQuantity(span, change)` (script.js). */
  method UpdateQuantity(span: QuantitySpan, change: int)
    modifies span
    ensures span.quantity == ClampedStep(old(span.quantity), change)
    ensures span.quantity >= 1
  {
    var quantity := span.quantity;
    quantity := if 1 > quantity + change then 1 else quantity + change;
    span.quantity := quantity;
  }

  /** The `decrease-quantity` branch of the grid click handler (app.js). */
  method DecreaseQuantity(span: QuantitySpan)
    modifies span
    ensures span.quantity == AppDecrease(old(span.quantity))
  {
    var quantity := span.quantity;
    if quantity > 1 {
      span.quantity := quantity - 1;
    }
  }

  /** The `increase-quantity` branch of the grid click handler (app.js). */
  method IncreaseQuantity(span: QuantitySpan)
    modifies span
    ensures span.quantity == AppIncrease(old(span.quantity))
  {
    var quantity := span.quantity;
    span.quantity := quantity + 1;
  }

  /** However many times minus is pressed, the script.js stepper never shows
      less than 1 once pressed at all, and never less than 1 from a value of 1
      or more. */
  lemma {:induction false} ClampedDecrementsFloor(q: int, n: nat)
    requires n > 0 || q >= 1
    ensures ClampedDecrements(q, n) >= 1
    ensures n > 0 ==> ClampedDecrements(q, n) == if q - n >= 1 then q - n else 1
  {
    if n > 1 {
      ClampedDecrementsFloor(q, n - 1);
    }
  }

  /** From 1 or more, the app.js stepper never goes below 1 and stops at 1. */
  lemma {:induction false} AppDecrementsFloor(q: int, n: nat)
    requires q >= 1
    ensures AppDecrements(q, n) == if q - n >= 1 then q - n else 1
  {
    if n > 0 {
      AppDecrementsFloor(q, n - 1);
    }
  }

  /** From 1 or more the two steppers agree on both buttons. */
  lemma SteppersAgreeFromOne(q: int)
    requires q >= 1
    ensures ClampedStep(q, -1) == AppDecrease(q)
    ensures ClampedStep(q, 1) == AppIncrease(q)
  {
  }

  /** Below 1 they disagree: script.js jumps to 1, app.js leaves a decrease
      alone and lets an increase stay below 1. */
  lemma SteppersDifferBelowOne(q: int)
    requires q < 1
    ensures ClampedStep(q, -1) == 1 && AppDecrease(q) == q && AppDecrease(q) != ClampedStep(q, -1)
    ensures q < 0 ==> AppIncrease(q) < 1 && ClampedStep(q, 1) == 1
  {
  }
}
