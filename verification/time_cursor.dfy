/** The `Time` object: one real that callers advance explicitly. */
module TimeCursor {

  datatype Time = Time(t: real)

  /** `Time()`: the cursor starts at zero. */
  function Start(): (c: Time)
    ensures c.t == 0.0
  {
    Time(0.0)
  }

  /** `incr(dt)`: the cursor moves by exactly `dt`, forward whenever `dt` is non-negative. */
  function Incr(c: Time, dt: real): (r: Time)
    ensures r.t - c.t == dt
    ensures dt >= 0.0 ==> r.t >= c.t
    ensures dt > 0.0 ==> r.t > c.t
  {
    Time(c.t + dt)
  }

  /** The cursor after advancing by each delta of `dts` in turn. */
  function IncrAll(c: Time, dts: seq<real>): (r: Time)
    decreases |dts|
  {
    if |dts| == 0 then c else Incr(IncrAll(c, dts[..|dts| - 1]), dts[|dts| - 1])
  }

  /** The sum of the deltas. */
  function Total(dts: seq<real>): (r: real)
    decreases |dts|
  {
    if |dts| == 0 then 0.0 else Total(dts[..|dts| - 1]) + dts[|dts| - 1]
  }

  /** A run of advances moves the cursor by their sum, and never back when none is negative. */
  lemma {:induction false} IncrAllTotal(c: Time, dts: seq<real>)
    ensures IncrAll(c, dts).t == c.t + Total(dts)
    ensures (forall i :: 0 <= i < |dts| ==> dts[i] >= 0.0) ==> IncrAll(c, dts).t >= c.t
    decreases |dts|
  {
    if |dts| > 0 {
      IncrAllTotal(c, dts[..|dts| - 1]);
    }
  }
}
