/** The damage engine: a simplified level/power/attack/defense formula, a
    fixed type chart over FIRE, WATER and GRASS, and a random roll in
    [0.85, 1) taken as a parameter. Arithmetic is exact (`real`). */
module Damage {
  import opened Types
  import opened Draws

  /** The element a move of element `e` is super-effective against, if any:
      FIRE beats GRASS, WATER beats FIRE, GRASS beats WATER. */
  function Prey(e: ElementType): Option<ElementType>
  {
    match e
    case Fire => Some(Grass)
    case Water => Some(Fire)
    case Grass => Some(Water)
    case Electric => None
    case Normal => None
  }

  predicate Beats(attacking: ElementType, defending: ElementType)
  {
    Prey(attacking) == Some(defending)
  }

  /** Multiplier for a move of element `attacking` against a creature of
      element `defending`, checked pair by pair as the game does. */
  function TypeModifier(attacking: ElementType, defending: ElementType): (m: real)
    ensures m == 2.0 <==> Beats(attacking, defending)
    ensures m == 0.5 <==> Beats(defending, attacking)
    ensures m == 1.0 <==> !Beats(attacking, defending) && !Beats(defending, attacking)
  {
    if attacking == Fire && defending == Grass then 2.0
    else if attacking == Fire && defending == Water then 0.5
    else if attacking == Water && defending == Fire then 2.0
    else if attacking == Water && defending == Grass then 0.5
    else if attacking == Grass && defending == Water then 2.0
    else if attacking == Grass && defending == Fire then 0.5
    else 1.0
  }

  /** The level term of the formula, `2 * level / 5 + 2`. */
  function LevelFactor(level: int): (k: real)
    ensures level >= 0 ==> k >= 2.0
  {
    2.0 * level as real / 5.0 + 2.0
  }

  /** The damage before the type multiplier and the roll. */
  function BaseDamage(level: int, power: int, attack: int, defense: int): (b: real)
    requires defense > 0
    ensures level >= 0 && power >= 0 && attack >= 0 ==> b >= 2.0
  {
    NonNegProduct(LevelFactor(level), power as real, attack as real);
    NonNegQuotient(LevelFactor(level) * power as real * attack as real, defense as real);
    (LevelFactor(level) * power as real * attack as real / defense as real) / 50.0 + 2.0
  }

  /** The attacker-side stats the formula needs to be non-negative. */
  predicate AttackerStatsOk(attacker: Monster, move: Move)
  {
    attacker.level >= 0 && attacker.attack >= 0 && move.power >= 0
  }

  /** The damage before the roll: base damage times the type multiplier. */
  function Potential(attacker: Monster, defender: Monster, move: Move): (p: real)
    requires defender.defense > 0
    ensures AttackerStatsOk(attacker, move) ==> p >= 1.0
  {
    var b := BaseDamage(attacker.level, move.power, attacker.attack, defender.defense);
    var m := TypeModifier(move.element, defender.element);
    assert AttackerStatsOk(attacker, move) ==> b * m >= 1.0 by {
      if AttackerStatsOk(attacker, move) {
        ScaleMonotone(2.0, b, m);
      }
    }
    b * m
  }

  /** Damage dealt by `attacker` using `move` on `defender` with roll `r`:
      the floor of the potential scaled by the roll, so it lies between the
      floors of the smallest and the largest roll. */
  function CalculateDamage(attacker: Monster, defender: Monster, move: Move, r: real): (dmg: int)
    requires defender.defense > 0
    requires DamageRoll(r)
    ensures AttackerStatsOk(attacker, move) ==>
      0 <= (0.85 * Potential(attacker, defender, move)).Floor <= dmg <= Potential(attacker, defender, move).Floor
  {
    RollBounds(Potential(attacker, defender, move), r);
    Rolled(Potential(attacker, defender, move), r)
  }

  /** `Math.floor` of the potential scaled by the roll. */
  function Rolled(p: real, r: real): int
  {
    (p * r).Floor
  }

  // ---------------------------------------------------------------------
  // Arithmetic helpers

  lemma NonNegProduct(a: real, b: real, c: real)
    ensures a >= 0.0 && b >= 0.0 && c >= 0.0 ==> a * b * c >= 0.0
  {
    if a >= 0.0 && b >= 0.0 && c >= 0.0 {
      assert a * b >= 0.0;
    }
  }

  lemma ScaleMonotone(x: real, y: real, c: real)
    requires x <= y
    requires c >= 0.0
    ensures x * c <= y * c
  {
    assert y * c - x * c == (y - x) * c;
  }

  lemma FloorMonotone(x: real, y: real)
    requires x <= y
    ensures x.Floor <= y.Floor
  {
  }

  lemma RollBounds(top: real, r: real)
    requires DamageRoll(r)
    ensures top >= 0.0 ==> 0 <= (0.85 * top).Floor <= Rolled(top, r) <= top.Floor
  {
    if top >= 0.0 {
      ScaleMonotone(0.85, r, top);
      ScaleMonotone(r, 1.0, top);
      FloorMonotone(0.85 * top, top * r);
      FloorMonotone(top * r, top);
    }
  }

  lemma NonNegQuotient(x: real, d: real)
    requires d > 0.0
    ensures x >= 0.0 ==> x / d >= 0.0
  {
  }

  lemma DivMonotone(x: real, y: real, d: real)
    requires x <= y
    requires d > 0.0
    ensures x / d <= y / d
  {
    ScaleMonotone(x, y, 1.0 / d);
    assert x / d == x * (1.0 / d);
    assert y / d == y * (1.0 / d);
  }

  lemma DivAntitone(x: real, d1: real, d2: real)
    requires x >= 0.0
    requires 0.0 < d1 <= d2
    ensures x / d2 <= x / d1
  {
    var q1 := x / d1;
    var q2 := x / d2;
    assert q1 * d1 == x;
    assert q2 * d2 == x;
    assert q2 >= 0.0;
    ScaleMonotone(d1, d2, q2);
    if q1 < q2 {
      assert (q2 - q1) * d1 > 0.0;
    }
  }

  lemma ProductMonotone(x1: real, y1: real, x2: real, y2: real)
    requires 0.0 <= x1 <= x2
    requires 0.0 <= y1 <= y2
    ensures x1 * y1 <= x2 * y2
  {
    ScaleMonotone(y1, y2, x1);
    ScaleMonotone(x1, x2, y2);
  }

  // ---------------------------------------------------------------------
  // Monotonicity of the damage formula for a fixed roll

  /** Base damage grows with level, power and attack and shrinks with defense. */
  lemma NumeratorMonotone(l1: int, p1: int, a1: int, l2: int, p2: int, a2: int)
    requires 0 <= l1 <= l2 && 0 <= p1 <= p2 && 0 <= a1 <= a2
    ensures 0.0 <= LevelFactor(l1) * p1 as real * a1 as real <= LevelFactor(l2) * p2 as real * a2 as real
  {
    ProductMonotone(LevelFactor(l1), p1 as real, LevelFactor(l2), p2 as real);
    ProductMonotone(LevelFactor(l1) * p1 as real, a1 as real, LevelFactor(l2) * p2 as real, a2 as real);
    NonNegProduct(LevelFactor(l1), p1 as real, a1 as real);
  }

  lemma QuotientMonotone(n1: real, d1: real, n2: real, d2: real)
    requires 0.0 <= n1 <= n2
    requires 0.0 < d2 <= d1
    ensures n1 / d1 <= n2 / d2
  {
    DivMonotone(n1, n2, d1);
    DivAntitone(n2, d2, d1);
  }

  lemma {:induction false} BaseDamageMonotone(l1: int, p1: int, a1: int, d1: int, l2: int, p2: int, a2: int, d2: int)
    requires 0 <= l1 <= l2 && 0 <= p1 <= p2 && 0 <= a1 <= a2
    requires 0 < d2 <= d1
    ensures BaseDamage(l1, p1, a1, d1) <= BaseDamage(l2, p2, a2, d2)
  {
    NumeratorMonotone(l1, p1, a1, l2, p2, a2);
    QuotientMonotone(LevelFactor(l1) * p1 as real * a1 as real, d1 as real,
                     LevelFactor(l2) * p2 as real * a2 as real, d2 as real);
  }

  /** Base damage times the type multiplier, for a fixed type matchup,
      follows the same order as base damage. */
  lemma PotentialMonotone(att1: Monster, def1: Monster, mv1: Move, att2: Monster, def2: Monster, mv2: Move)
    requires mv1.element == mv2.element && def1.element == def2.element
    requires 0 <= att1.level <= att2.level
    requires 0 <= att1.attack <= att2.attack
    requires 0 <= mv1.power <= mv2.power
    requires 0 < def2.defense <= def1.defense
    ensures Potential(att1, def1, mv1) <= Potential(att2, def2, mv2)
  {
    BaseDamageMonotone(att1.level, mv1.power, att1.attack, def1.defense,
                       att2.level, mv2.power, att2.attack, def2.defense);
    ScaleMonotone(BaseDamage(att1.level, mv1.power, att1.attack, def1.defense),
                  BaseDamage(att2.level, mv2.power, att2.attack, def2.defense),
                  TypeModifier(mv1.element, def1.element));
  }

  lemma RolledFloorMonotone(q1: real, q2: real, r: real)
    requires q1 <= q2
    requires DamageRoll(r)
    ensures Rolled(q1, r) <= Rolled(q2, r)
  {
    ScaleMonotone(q1, q2, r);
    FloorMonotone(q1 * r, q2 * r);
  }

  /** The damage formula, for a fixed roll and a fixed type matchup, is
      nondecreasing in the attacker's level and attack and the move's power,
      and nonincreasing in the defender's defense. */
  lemma {:induction false} DamageMonotone(att1: Monster, def1: Monster, mv1: Move, att2: Monster, def2: Monster, mv2: Move, r: real)
    requires DamageRoll(r)
    requires mv1.element == mv2.element && def1.element == def2.element
    requires 0 <= att1.level <= att2.level
    requires 0 <= att1.attack <= att2.attack
    requires 0 <= mv1.power <= mv2.power
    requires 0 < def2.defense <= def1.defense
    ensures CalculateDamage(att1, def1, mv1, r) <= CalculateDamage(att2, def2, mv2, r)
  {
    PotentialMonotone(att1, def1, mv1, att2, def2, mv2);
    RolledFloorMonotone(Potential(att1, def1, mv1), Potential(att2, def2, mv2), r);
  }

  /** More move power never deals less damage. */
  lemma DamageMonotoneInPower(attacker: Monster, defender: Monster, m1: Move, m2: Move, r: real)
    requires defender.defense > 0
    requires DamageRoll(r)
    requires attacker.level >= 0 && attacker.attack >= 0
    requires m1.element == m2.element
    requires 0 <= m1.power <= m2.power
    ensures CalculateDamage(attacker, defender, m1, r) <= CalculateDamage(attacker, defender, m2, r)
  {
    DamageMonotone(attacker, defender, m1, attacker, defender, m2, r);
  }

  /** A higher attack stat never deals less damage. */
  lemma DamageMonotoneInAttack(a1: Monster, a2: Monster, defender: Monster, move: Move, r: real)
    requires defender.defense > 0
    requires DamageRoll(r)
    requires a1.level == a2.level && a1.level >= 0
    requires move.power >= 0
    requires 0 <= a1.attack <= a2.attack
    ensures CalculateDamage(a1, defender, move, r) <= CalculateDamage(a2, defender, move, r)
  {
    DamageMonotone(a1, defender, move, a2, defender, move, r);
  }

  /** A higher defense stat never takes more damage. */
  lemma DamageAntitoneInDefense(attacker: Monster, d1: Monster, d2: Monster, move: Move, r: real)
    requires DamageRoll(r)
    requires AttackerStatsOk(attacker, move)
    requires d1.element == d2.element
    requires 0 < d1.defense <= d2.defense
    ensures CalculateDamage(attacker, d2, move, r) <= CalculateDamage(attacker, d1, move, r)
  {
    DamageMonotone(attacker, d2, move, attacker, d1, move, r);
  }

  /** The full type chart. */
  lemma TypeChart()
    ensures TypeModifier(Fire, Grass) == 2.0
    ensures TypeModifier(Water, Fire) == 2.0
    ensures TypeModifier(Grass, Water) == 2.0
    ensures TypeModifier(Fire, Water) == 0.5
    ensures TypeModifier(Water, Grass) == 0.5
    ensures TypeModifier(Grass, Fire) == 0.5
    ensures forall a: ElementType, d: ElementType ::
      (a in {Electric, Normal} || d in {Electric, Normal} || a == d) ==> TypeModifier(a, d) == 1.0
  {
  }
}
