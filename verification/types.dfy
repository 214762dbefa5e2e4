/** Shapes of the game's records: element types, moves, creatures, the battle
    snapshot and the top-level screens, with the well-formedness every
    catalog creature enjoys. */
module Types {

  datatype Option<+T> = None | Some(value: T)

  /** The five element types; only FIRE, WATER and GRASS take part in the type chart. */
  datatype ElementType = Fire | Water | Grass | Electric | Normal

  /** A move. `accuracy` is stored but never consulted: every move connects. */
  datatype Move = Move(
    name: string,
    power: int,
    accuracy: int,
    element: ElementType,
    description: string)

  /** A creature instance or catalog template. `experience` is stored but never consulted. */
  datatype Monster = Monster(
    id: string,
    name: string,
    element: ElementType,
    level: int,
    maxHp: int,
    currentHp: int,
    attack: int,
    defense: int,
    speed: int,
    moves: seq<Move>,
    imageUrl: string,
    experience: int)

  /** Whose turn it is inside a battle. */
  datatype Side = Player | Enemy

  /** The battle snapshot: working copies of both creatures, the active side,
      three terminal flags and the most-recent-first log. */
  datatype BattleState = BattleState(
    player: Monster,
    enemy: Monster,
    turn: Side,
    isVictory: bool,
    isDefeat: bool,
    isCaptured: bool,
    logs: seq<string>)

  /** The top-level screens; `Pokedex` is declared but nothing ever selects it. */
  datatype Screen = Overworld | Battle | Pokedex | Menu

  function Max(a: int, b: int): (m: int)
    ensures m >= a && m >= b
    ensures m == a || m == b
  {
    if a >= b then a else b
  }

  /** Stats under which damage, the capture ratio and the enemy's move pick are defined. */
  predicate ValidMonster(m: Monster)
  {
    && m.level >= 0
    && m.attack >= 0
    && m.defense > 0
    && m.maxHp > 0
    && 0 <= m.currentHp <= m.maxHp
    && |m.moves| > 0
    && forall i :: 0 <= i < |m.moves| ==> m.moves[i].power >= 0
  }

  /** The same creature with its health restored to the maximum. */
  function Healed(m: Monster): (h: Monster)
    ensures h.currentHp == h.maxHp
    ensures SameExceptHp(h, m)
  {
    m.(currentHp := m.maxHp)
  }

  /** Two creature records that differ at most in current health. */
  predicate SameExceptHp(a: Monster, b: Monster)
  {
    a.(currentHp := 0) == b.(currentHp := 0)
  }
}
