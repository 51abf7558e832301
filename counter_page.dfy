/**
 * The counter on the button page: one integer cell, overwritten by the
 * handlers of the three buttons (increase, decrease, reset). Nothing clamps
 * it in either direction. The value is a mathematical integer; the page holds
 * a JavaScript number, which counts exactly only up to 2^53.
 */
module CounterPage {

  class Counter {
    /** The displayed value. */
    var count: int
    /** Increase clicks since the page was mounted or last reset. */
    ghost var ups: nat
    /** Decrease clicks since the page was mounted or last reset. */
    ghost var downs: nat

    /** The value is the increases minus the decreases since the last reset. */
    ghost predicate Valid()
      reads this
    {
      count == ups - downs
    }

    /** The page mounts with the counter at 0. */
    constructor ()
      ensures Valid()
      ensures count == 0 && ups == 0 && downs == 0
    {
      count := 0;
      ups, downs := 0, 0;
    }

    /** The increase button: `count + 1`. */
    method Increase()
      requires Valid()
      modifies this
      ensures Valid()
      ensures count == old(count) + 1
      ensures ups == old(ups) + 1 && downs == old(downs)
    {
      count := count + 1;
      ups := ups + 1;
    }

    /** The decrease button: `count - 1`, below zero as well. */
    method Decrease()
      requires Valid()
      modifies this
      ensures Valid()
      ensures count == old(count) - 1
      ensures ups == old(ups) && downs == old(downs) + 1
    {
      count := count - 1;
      downs := downs + 1;
    }

    /** The reset button: 0 from any value. */
    method Reset()
      requires Valid()
      modifies this
      ensures Valid()
      ensures count == 0 && ups == 0 && downs == 0
    {
      count := 0;
      ups, downs := 0, 0;
    }
  }
}
