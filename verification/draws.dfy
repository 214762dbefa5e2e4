/** The two ways the game consumes a uniform draw `d` in [0, 1): scaling it to
    an index (`Math.floor(d * n)`) and to the damage roll
    (`d * (1 - 0.85) + 0.85`). The draws themselves are parameters. */
module Draws {

  predicate UnitDraw(d: real)
  {
    0.0 <= d < 1.0
  }

  /** The range of the damage roll. */
  predicate DamageRoll(r: real)
  {
    0.85 <= r < 1.0
  }

  /** An index into a list of `n` entries chosen by the draw `d`. */
  function RandomIndex(d: real, n: int): (i: int)
    requires UnitDraw(d)
    requires n > 0
    ensures 0 <= i < n
  {
    var x := d * n as real;
    assert x < n as real by {
      var g := 1.0 - d;
      assert g > 0.0;
      assert g * n as real > 0.0;
      assert g * n as real == n as real - x;
    }
    x.Floor
  }

  /** Every index can be drawn: the draw `i / n` selects entry `i`. */
  lemma RandomIndexCovers(i: int, n: int)
    requires 0 <= i < n
    ensures UnitDraw(i as real / n as real)
    ensures RandomIndex(i as real / n as real, n) == i
  {
    var d := i as real / n as real;
    assert d * n as real == i as real;
  }

  /** The damage roll derived from a draw. */
  function RollFactor(d: real): (r: real)
    requires UnitDraw(d)
    ensures DamageRoll(r)
  {
    d * (1.0 - 0.85) + 0.85
  }

  /** Every roll in [0.85, 1) comes from exactly one draw, so the damage roll
      may be taken as a parameter ranging over `DamageRoll`. */
  lemma RollFactorOnto(r: real)
    requires DamageRoll(r)
    ensures UnitDraw((r - 0.85) / 0.15)
    ensures RollFactor((r - 0.85) / 0.15) == r
  {
  }
}
