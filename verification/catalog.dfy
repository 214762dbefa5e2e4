/** The static catalog: five moves, three starters and two wild creatures,
    with the well-formedness facts the battle and the session rely on. */
module Catalog {
  import opened Types
  import opened Draws
  import opened Damage

  const Tackle: Move := Move("Tackle", 40, 100, Normal, "A basic physical attack.")
  const Ember: Move := Move("Ember", 40, 100, Fire, "Small flames hit the target.")
  const WaterGun: Move := Move("Water Gun", 40, 100, Water, "A blast of water.")
  const VineWhip: Move := Move("Vine Whip", 45, 100, Grass, "Strikes with vines.")
  const ThunderShock: Move := Move("Thunder Shock", 40, 100, Electric, "A jolting shock.")

  const AllMoves: seq<Move> := [Tackle, Ember, WaterGun, VineWhip, ThunderShock]

  const Pyrolin: Monster := Monster(
    "1", "Pyrolin", Fire, 5, 45, 45, 49, 49, 45, [Tackle, Ember],
    "https://picsum.photos/seed/pyrolin/200/200", 0)

  const Aquafin: Monster := Monster(
    "2", "Aquafin", Water, 5, 44, 44, 48, 65, 43, [Tackle, WaterGun],
    "https://picsum.photos/seed/aquafin/200/200", 0)

  const Leafox: Monster := Monster(
    "3", "Leafox", Grass, 5, 45, 45, 49, 49, 45, [Tackle, VineWhip],
    "https://picsum.photos/seed/leafox/200/200", 0)

  const Sparky: Monster := Monster(
    "w1", "Sparky", Electric, 3, 35, 35, 55, 40, 90, [Tackle, ThunderShock],
    "https://picsum.photos/seed/sparky/200/200", 0)

  const Grom: Monster := Monster(
    "w2", "Grom", Normal, 4, 50, 50, 45, 50, 30, [Tackle],
    "https://picsum.photos/seed/grom/200/200", 0)

  /** The starters offered on the menu. */
  const InitialMonsters: seq<Monster> := [Pyrolin, Aquafin, Leafox]

  /** The creatures met in the tall grass. */
  const WildMonsters: seq<Monster> := [Sparky, Grom]

  /** A catalog template: well formed, at full health, with no experience. */
  predicate Template(m: Monster)
  {
    ValidMonster(m) && m.currentHp == m.maxHp && m.experience == 0
  }

  /** Every template is at full health with no experience, knows at least one
      move and has positive defense and maximum health. */
  lemma TemplatesWellFormed()
    ensures forall i :: 0 <= i < |InitialMonsters| ==> Template(InitialMonsters[i])
    ensures forall i :: 0 <= i < |WildMonsters| ==> Template(WildMonsters[i])
  {
    assert Template(Pyrolin) && Template(Aquafin) && Template(Leafox);
    assert Template(Sparky) && Template(Grom);
  }

  /** Every move always hits (accuracy 100) and has power 40 or 45, and every
      template's moves come from this list. */
  lemma MovesWellFormed()
    ensures forall i :: 0 <= i < |AllMoves| ==>
      AllMoves[i].accuracy == 100 && AllMoves[i].power in {40, 45}
    ensures forall i, j :: 0 <= i < |InitialMonsters| && 0 <= j < |InitialMonsters[i].moves| ==>
      InitialMonsters[i].moves[j] in AllMoves
    ensures forall i, j :: 0 <= i < |WildMonsters| && 0 <= j < |WildMonsters[i].moves| ==>
      WildMonsters[i].moves[j] in AllMoves
  {
  }

  /** The starters are FIRE, WATER and GRASS; the wild creatures ELECTRIC and NORMAL. */
  lemma CatalogElements()
    ensures InitialMonsters[0].name == "Pyrolin" && InitialMonsters[0].element == Fire
    ensures InitialMonsters[1].name == "Aquafin" && InitialMonsters[1].element == Water
    ensures InitialMonsters[2].name == "Leafox" && InitialMonsters[2].element == Grass
    ensures WildMonsters[0].name == "Sparky" && WildMonsters[0].element == Electric
    ensures WildMonsters[1].name == "Grom" && WildMonsters[1].element == Normal
  {
  }

  /** Pyrolin's Tackle on Leafox: base damage 5.2, no type bonus, so every
      roll deals 4 or 5. */
  lemma TackleExample(r: real)
    requires DamageRoll(r)
    ensures BaseDamage(Pyrolin.level, Tackle.power, Pyrolin.attack, Leafox.defense) == 5.2
    ensures CalculateDamage(Pyrolin, Leafox, Tackle, r) in {4, 5}
  {
    assert LevelFactor(5) == 4.0;
    assert BaseDamage(5, 40, 49, 49) == 5.2;
    assert Potential(Pyrolin, Leafox, Tackle) == 5.2;
    assert (0.85 * 5.2).Floor == 4;
    assert (5.2).Floor == 5;
  }
}
