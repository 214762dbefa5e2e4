/** The capture resolver: a throw succeeds when a uniform draw in [0, 1)
    exceeds the fraction of health the target has left. */
module Capture {
  import opened Draws

  /** Whether draw `d` captures a target at `hp` out of `maxHp`. A zero
      maximum makes the ratio infinite or undefined, which no draw exceeds,
      unless `hp` is negative and the ratio is minus infinity. */
  function CaptureSucceeds(hp: int, maxHp: int, d: real): (ok: bool)
    ensures maxHp > 0 ==> (ok <==> d * maxHp as real > hp as real)
  {
    if maxHp == 0 then hp < 0
    else
      RatioCompare(hp as real, maxHp as real, d);
      d > hp as real / maxHp as real
  }

  lemma RatioCompare(h: real, m: real, d: real)
    ensures m > 0.0 ==> (d > h / m <==> d * m > h)
  {
    if m > 0.0 {
      assert (h / m) * m == h;
      if d > h / m {
        assert (d - h / m) * m > 0.0;
      } else {
        assert (h / m - d) * m >= 0.0;
      }
    }
  }

  /** At full health no draw below 1 captures. */
  lemma CaptureNeverAtFullHp(maxHp: int, d: real)
    requires maxHp > 0
    requires UnitDraw(d)
    ensures !CaptureSucceeds(maxHp, maxHp, d)
  {
    assert d * maxHp as real < maxHp as real by {
      assert (1.0 - d) * maxHp as real > 0.0;
    }
  }

  /** At zero health every positive draw captures, and only those. */
  lemma CaptureAtZeroHp(maxHp: int, d: real)
    requires maxHp > 0
    ensures CaptureSucceeds(0, maxHp, d) <==> d > 0.0
  {
    if d > 0.0 {
      assert d * maxHp as real > 0.0;
    } else {
      assert (-d) * maxHp as real >= 0.0;
    }
  }

  /** Less remaining health never makes a draw fail that succeeded before. */
  lemma CaptureMonotone(hp1: int, hp2: int, maxHp: int, d: real)
    requires hp1 <= hp2
    requires maxHp > 0
    ensures CaptureSucceeds(hp2, maxHp, d) ==> CaptureSucceeds(hp1, maxHp, d)
  {
  }

  /** Strictly less remaining health admits a draw that captures now and
      would not have before: the set of capturing draws strictly grows. */
  lemma CaptureStrictlyEasier(hp1: int, hp2: int, maxHp: int)
    requires 0 <= hp1 < hp2 <= maxHp
    ensures exists d :: UnitDraw(d) && CaptureSucceeds(hp1, maxHp, d) && !CaptureSucceeds(hp2, maxHp, d)
  {
    var m := maxHp as real;
    var x := (hp1 as real + hp2 as real) / 2.0;
    assert hp1 as real < x < hp2 as real <= m;
    var d := x / m;
    assert d * m == x;
    assert d < 1.0 by {
      assert (1.0 - d) * m == m - x;
    }
    assert CaptureSucceeds(hp1, maxHp, d);
    assert !CaptureSucceeds(hp2, maxHp, d);
  }

  /** One health point left out of 50: any draw above 0.02 captures. */
  lemma CaptureAtOneOfFifty(d: real)
    ensures CaptureSucceeds(1, 50, d) <==> d > 0.02
  {
  }
}
