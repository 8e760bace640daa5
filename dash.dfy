/** The countdown that both dash implementations run twice: once for the
    dash itself (`dashTimeLeft`, ticked by the physics step) and once for the
    cooldown (`cooldownTimer` / `CDTimer`, ticked by the frame update). While
    a countdown runs, each tick subtracts the tick's duration and the
    countdown stops as soon as the time left is at or below zero. */
module DashTimers {

  datatype Countdown = Countdown(running: bool, left: real)

  /** One tick of `dt` seconds. */
  function Tick(c: Countdown, dt: real): (r: Countdown)
    ensures !c.running ==> r == c
    ensures c.running ==> r.left == c.left - dt
    ensures c.running ==> (r.running <==> c.left - dt > 0.0)
    ensures c.running ==> Consistent(r)
  {
    if c.running then
      var left := c.left - dt;
      Countdown(!(left <= 0.0), left)
    else c
  }

  /** Ticks of the given durations, in order. */
  function Run(c: Countdown, dts: seq<real>): Countdown
    decreases |dts|
  {
    if dts == [] then c else Run(Tick(c, dts[0]), dts[1..])
  }

  function Sum(dts: seq<real>): real
    decreases |dts|
  {
    if dts == [] then 0.0 else dts[0] + Sum(dts[1..])
  }

  predicate NonNegative(dts: seq<real>)
  {
    forall i :: 0 <= i < |dts| ==> dts[i] >= 0.0
  }

  lemma {:induction false} SumNonNegative(dts: seq<real>)
    requires NonNegative(dts)
    ensures Sum(dts) >= 0.0
    decreases |dts|
  {
    if dts != [] {
      assert NonNegative(dts[1..]) by {
        forall i | 0 <= i < |dts[1..]| ensures dts[1..][i] >= 0.0 { assert dts[1..][i] == dts[i + 1]; }
      }
      SumNonNegative(dts[1..]);
    }
  }

  /** A running countdown always has time left: each start sets a positive
      duration, and a tick that reaches zero stops it. */
  predicate Consistent(c: Countdown)
  {
    c.running ==> c.left > 0.0
  }

  /** A countdown started with `left` seconds is still running after ticks
      that add up to `Sum(dts)` seconds exactly when less than `left`
      seconds have passed; while it runs its time left is `left` minus the
      time passed, and once stopped it never restarts. */
  lemma {:induction false} RunStopsAfterItsTime(c: Countdown, dts: seq<real>)
    requires Consistent(c) && NonNegative(dts)
    ensures Run(c, dts).running <==> c.running && c.left - Sum(dts) > 0.0
    ensures Run(c, dts).running ==> Run(c, dts).left == c.left - Sum(dts)
    ensures !c.running ==> Run(c, dts) == c
    decreases |dts|
  {
    if dts != [] {
      var t := Tick(c, dts[0]);
      assert NonNegative(dts[1..]) by {
        forall i | 0 <= i < |dts[1..]| ensures dts[1..][i] >= 0.0 { assert dts[1..][i] == dts[i + 1]; }
      }
      RunStopsAfterItsTime(t, dts[1..]);
      SumNonNegative(dts[1..]);
      assert Run(c, dts) == Run(t, dts[1..]);
      assert Sum(dts) == dts[0] + Sum(dts[1..]);

    }
  }
}
