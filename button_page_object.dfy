/**
 * The end-to-end test driver for the button page: it reads the counter and
 * clicks the increase, decrease and reset buttons, in loops, to move the
 * counter where a test wants it. Browser clicks are calls on the page's
 * counter; reading the display is reading the counter's value.
 */
module ButtonPageObject {
  import opened CounterPage

  /** `max(n, 0)`: how many times `for (i = 0; i < n; i++)` runs. */
  function Max0(n: int): (r: nat)
    ensures n >= 0 ==> r == n
    ensures n < 0 ==> r == 0
  {
    if n > 0 then n else 0
  }

  function Abs(n: int): (r: nat)
    ensures r == n || r == -n
  {
    if n < 0 then -n else n
  }

  class ButtonPageDriver {
    /** The page under test. */
    const page: Counter

    constructor (page: Counter)
      ensures this.page == page
    {
      this.page := page;
    }

    /** The value the counter displays. */
    method GetCounterValue() returns (v: int)
      ensures v == page.count
    {
      v := page.count;
    }

    /** Clicks increase `times` times (once by default); a non-positive count clicks nothing. */
    method ClickIncrease(times: int := 1)
      requires page.Valid()
      modifies page
      ensures page.Valid()
      ensures page.count == old(page.count) + Max0(times)
      ensures page.ups == old(page.ups) + Max0(times) && page.downs == old(page.downs)
    {
      var i := 0;
      while i < times
        invariant 0 <= i <= Max0(times)
        invariant page.Valid()
        invariant page.count == old(page.count) + i
        invariant page.ups == old(page.ups) + i && page.downs == old(page.downs)
      {
        page.Increase();
        i := i + 1;
      }
    }

    /** Clicks decrease `times` times (once by default); a non-positive count clicks nothing. */
    method ClickDecrease(times: int := 1)
      requires page.Valid()
      modifies page
      ensures page.Valid()
      ensures page.count == old(page.count) - Max0(times)
      ensures page.ups == old(page.ups) && page.downs == old(page.downs) + Max0(times)
    {
      var i := 0;
      while i < times
        invariant 0 <= i <= Max0(times)
        invariant page.Valid()
        invariant page.count == old(page.count) - i
        invariant page.ups == old(page.ups) && page.downs == old(page.downs) + i
      {
        page.Decrease();
        i := i + 1;
      }
    }

    /** Clicks reset once. */
    method ClickReset()
      requires page.Valid()
      modifies page
      ensures page.Valid()
      ensures page.count == 0 && page.ups == 0 && page.downs == 0
    {
      page.Reset();
    }

    /**
     * Moves the counter to `value` by clicking: `|value - current|` clicks,
     * all increases or all decreases, and none when it is already there.
     */
    method SetCounterTo(value: int)
      requires page.Valid()
      modifies page
      ensures page.Valid()
      ensures page.count == value
      ensures (page.ups - old(page.ups)) + (page.downs - old(page.downs)) == Abs(value - old(page.count))
      ensures value >= old(page.count) ==> page.downs == old(page.downs)
      ensures value <= old(page.count) ==> page.ups == old(page.ups)
    {
      var currentValue := GetCounterValue();
      var diff := value - currentValue;
      if diff > 0 {
        ClickIncrease(diff);
      } else if diff < 0 {
        ClickDecrease(Abs(diff));
      }
    }
  }

  /**
   * The full counter flow of the button-page tests: read 0, increase 5,
   * decrease 2, increase 4, reset; the values read after each step.
   */
  method CounterFlow() returns (observed: seq<int>)
    ensures observed == [0, 5, 3, 7, 0]
  {
    var counter := new Counter();
    var driver := new ButtonPageDriver(counter);
    var v0 := driver.GetCounterValue();
    driver.ClickIncrease(5);
    var v1 := driver.GetCounterValue();
    driver.ClickDecrease(2);
    var v2 := driver.GetCounterValue();
    driver.ClickIncrease(4);
    var v3 := driver.GetCounterValue();
    driver.ClickReset();
    var v4 := driver.GetCounterValue();
    observed := [v0, v1, v2, v3, v4];
  }

  /** The set-counter test: up to 7, down to 3, up to 10; the values read after each step. */
  method SetCounterFlow() returns (observed: seq<int>)
    ensures observed == [7, 3, 10]
  {
    var counter := new Counter();
    var driver := new ButtonPageDriver(counter);
    driver.SetCounterTo(7);
    var v0 := driver.GetCounterValue();
    driver.SetCounterTo(3);
    var v1 := driver.GetCounterValue();
    driver.SetCounterTo(10);
    var v2 := driver.GetCounterValue();
    observed := [v0, v1, v2];
  }

  /** The boundary test: 100, then -50, then 0; the values read after each step. */
  method BoundaryFlow() returns (observed: seq<int>)
    ensures observed == [100, -50, 0]
  {
    var counter := new Counter();
    var driver := new ButtonPageDriver(counter);
    driver.SetCounterTo(100);
    var v0 := driver.GetCounterValue();
    driver.SetCounterTo(-50);
    var v1 := driver.GetCounterValue();
    driver.SetCounterTo(0);
    var v2 := driver.GetCounterValue();
    observed := [v0, v1, v2];
  }

  /** Three decreases from a fresh page read -3; a click count left out defaults to one click. */
  method NegativeFlow() returns (afterDecreases: int, afterDefault: int)
    ensures afterDecreases == -3
    ensures afterDefault == -2
  {
    var counter := new Counter();
    var driver := new ButtonPageDriver(counter);
    driver.ClickDecrease(3);
    afterDecreases := driver.GetCounterValue();
    driver.ClickIncrease();
    afterDefault := driver.GetCounterValue();
  }
}
