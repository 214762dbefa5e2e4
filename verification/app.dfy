/** The session controller: the screen, the party and the current wild
    creature, the three roster operations, and the whole game as one step
    function over the session and the mounted battle screen. */
module App {
  import opened Types
  import opened Draws
  import opened Battle
  import opened Catalog

  /** The top-level state: the current screen, the party (index 0 is the
      battler) and the wild creature being fought, if any. */
  datatype Session = Session(screen: Screen, party: seq<Monster>, wild: Option<Monster>)

  const InitialSession: Session := Session(Menu, [], None)

  // ---------------------------------------------------------------------
  // Roster operations

  /** The party becomes exactly the chosen starter. */
  function StartNewGame(s: Session, starter: Monster): (s': Session)
    ensures s'.party == [starter]
    ensures s'.screen == Overworld
    ensures s'.wild == s.wild
  {
    s.(party := [starter], screen := Overworld)
  }

  /** Meets the wild template chosen by draw `d`, restored to full health. */
  function EncounterWildMonster(s: Session, d: real): (s': Session)
    requires UnitDraw(d)
    ensures s'.screen == Battle
    ensures s'.party == s.party
    ensures s'.wild.Some?
    ensures var i := RandomIndex(d, |WildMonsters|);
      SameExceptHp(s'.wild.value, WildMonsters[i]) && s'.wild.value.currentHp == s'.wild.value.maxHp
  {
    var enemy := Healed(WildMonsters[RandomIndex(d, |WildMonsters|)]);
    s.(wild := Some(enemy), screen := Battle)
  }

  /** Writes the battle's outcome back: the lead creature is replaced by the
      battle's copy (keeping any health lost), a captured creature joins at
      the end at full health, and play returns to the overworld. */
  function HandleBattleFinish(s: Session, result: BattleResult): (s': Session)
    ensures s'.screen == Overworld && s'.wild == None
    ensures |s'.party| == (if |s.party| == 0 then 1 else |s.party|) + (if result.captured && s.wild.Some? then 1 else 0)
    ensures s'.party[0] == result.updatedPlayer
    ensures forall i :: 1 <= i < |s.party| ==> s'.party[i] == s.party[i]
    ensures result.captured && s.wild.Some? ==>
      SameExceptHp(s'.party[|s'.party| - 1], s.wild.value) && s'.party[|s'.party| - 1].currentHp == s.wild.value.maxHp
  {
    var replaced := if |s.party| == 0 then [result.updatedPlayer] else s.party[0 := result.updatedPlayer];
    var grown := if result.captured && s.wild.Some? then replaced + [Healed(s.wild.value)] else replaced;
    Session(Overworld, grown, None)
  }

  /** Leaves the overworld for the menu; the party is kept. */
  function ExitToMenu(s: Session): (s': Session)
    ensures s'.screen == Menu
    ensures s'.party == s.party && s'.wild == s.wild
  {
    s.(screen := Menu)
  }

  /** Every wild template can be met, each with the draw that selects it. */
  lemma EncounterCoversWild(s: Session, i: int)
    requires 0 <= i < |WildMonsters|
    ensures UnitDraw(i as real / |WildMonsters| as real)
    ensures EncounterWildMonster(s, i as real / |WildMonsters| as real).wild == Some(WildMonsters[i])
  {
    RandomIndexCovers(i, |WildMonsters|);
    TemplatesWellFormed();
  }

  // ---------------------------------------------------------------------
  // Battles against the catalog

  /** Against Sparky the enemy always moves first; against Grom the player does. */
  lemma TurnOrderByCatalogSpeed()
    ensures forall i :: 0 <= i < |InitialMonsters| ==>
      InitialScene(InitialMonsters[i], Sparky).battle.turn == Enemy
    ensures forall i :: 0 <= i < |InitialMonsters| ==>
      InitialScene(InitialMonsters[i], Grom).battle.turn == Player
  {
  }

  // ---------------------------------------------------------------------
  // The whole game

  /** The session plus the battle screen while it is mounted. */
  datatype Game = Game(session: Session, scene: Option<Scene>)

  const InitialGame: Game := Game(InitialSession, None)

  /** What the player can do: pick a starter on the menu, explore or exit in
      the overworld, trigger a battle action, or press CONTINUE once the
      battle is over. */
  datatype Event =
    | Start(index: int)
    | Explore(draw: real)
    | Fight(action: Action)
    | Continue
    | Exit

  predicate EventOk(e: Event)
  {
    match e
    case Explore(draw) => UnitDraw(draw)
    case Fight(action) => ActionOk(action)
    case _ => true
  }

  /** The battle screen is rendered only on the battle screen with a wild
      creature present and a non-empty party. */
  predicate BattleShown(s: Session)
  {
    s.screen == Battle && s.wild.Some? && |s.party| > 0
  }

  /** The four screen changes the game makes. */
  predicate Edge(from: Screen, to: Screen)
  {
    || (from == Menu && to == Overworld)
    || (from == Overworld && to == Battle)
    || (from == Battle && to == Overworld)
    || (from == Overworld && to == Menu)
  }

  predicate SessionInv(s: Session)
  {
    && s.screen != Pokedex
    && (s.screen == Battle <==> s.wild.Some?)
    && (s.screen != Menu ==> |s.party| > 0)
    && (forall i :: 0 <= i < |s.party| ==> ValidMonster(s.party[i]))
    && (s.wild.Some? ==> Template(s.wild.value))
  }

  /** The session invariant, and a mounted battle screen exactly on the
      battle screen, fighting copies of the lead creature and the wild one. */
  predicate GameInv(g: Game)
  {
    && SessionInv(g.session)
    && (g.scene.Some? <==> g.session.screen == Battle)
    && (g.scene.Some? ==>
          && BattleShown(g.session)
          && BattleInv(g.scene.value)
          && SameExceptHp(g.scene.value.battle.player, g.session.party[0])
          && SameExceptHp(g.scene.value.battle.enemy, g.session.wild.value))
  }

  /** The event is available on the current screen and changes it. */
  predicate Transition(g: Game, e: Event)
  {
    match e
    case Start(i) => g.session.screen == Menu && 0 <= i < |InitialMonsters|
    case Explore(_) => g.session.screen == Overworld
    case Fight(_) => false
    case Continue => BattleShown(g.session) && g.scene.Some? && Terminal(g.scene.value.battle)
    case Exit => g.session.screen == Overworld
  }

  /** One event; an event not available on the current screen is a no-op. */
  function Step(g: Game, e: Event): (g': Game)
    requires EventOk(e)
    requires g.scene.Some? ==> Playable(g.scene.value.battle)
    ensures GameInv(g) ==> GameInv(g')
    ensures GameInv(g) ==> (g'.session.screen != g.session.screen <==> Transition(g, e))
    ensures g'.session.screen != g.session.screen ==> Edge(g.session.screen, g'.session.screen)
    ensures GameInv(g) && !e.Start? ==> |g'.session.party| >= |g.session.party|
    ensures |g.session.party| > 0 ==> |g'.session.party| > 0
  {
    match e
    case Start(i) =>
      if g.session.screen == Menu && 0 <= i < |InitialMonsters| then
        Game(StartNewGame(g.session, InitialMonsters[i]), None)
      else g
    case Explore(draw) =>
      if g.session.screen == Overworld then
        var s := EncounterWildMonster(g.session, draw);
        Game(s, if BattleShown(s) then Some(InitialScene(s.party[0], s.wild.value)) else None)
      else g
    case Fight(action) =>
      if BattleShown(g.session) && g.scene.Some? then Game(g.session, Some(Act(g.scene.value, action))) else g
    case Continue =>
      if BattleShown(g.session) && g.scene.Some? && Outcome(g.scene.value).Some? then
        Game(HandleBattleFinish(g.session, Outcome(g.scene.value).value), None)
      else g
    case Exit =>
      if g.session.screen == Overworld then Game(ExitToMenu(g.session), None) else g
  }

  /** Plays the events in order. */
  function Play(g: Game, events: seq<Event>): (g': Game)
    requires GameInv(g)
    requires forall i :: 0 <= i < |events| ==> EventOk(events[i])
    ensures GameInv(g')
    ensures |g.session.party| > 0 ==> |g'.session.party| > 0
    decreases |events|
  {
    if events == [] then g else Play(Step(g, events[0]), events[1..])
  }

  // ---------------------------------------------------------------------
  // Properties of whole games

  lemma InitialGameWellFormed()
    ensures GameInv(InitialGame)
  {
  }

  /** In every reachable game the battle screen, when shown, has a lead
      creature to field: the render guard never falls through. */
  lemma BattleAlwaysShown(events: seq<Event>)
    requires forall i :: 0 <= i < |events| ==> EventOk(events[i])
    ensures var g := Play(InitialGame, events);
      g.session.screen != Pokedex
      && (g.session.screen == Battle ==> BattleShown(g.session) && g.scene.Some?)
  {
    InitialGameWellFormed();
  }

  /** Finishing a battle: the lead creature is the battle's copy, differing at
      most in health, the rest of the party is untouched, and the party grows
      by one, the wild creature at full health, exactly on a capture. */
  lemma {:induction false} FinishKeepsParty(g: Game)
    requires GameInv(g)
    requires Transition(g, Continue)
    ensures var g' := Step(g, Continue);
      var s, s', b := g.session, g'.session, g.scene.value.battle;
      && s'.screen == Overworld && s'.wild == None
      && s'.party[0] == b.player
      && SameExceptHp(s'.party[0], s.party[0])
      && (forall i :: 1 <= i < |s.party| ==> s'.party[i] == s.party[i])
      && |s'.party| == |s.party| + (if b.isCaptured then 1 else 0)
      && (b.isCaptured ==> s'.party[|s.party|] == s.wild.value)
  {
    var b := g.scene.value.battle;
    var w := g.session.wild.value;
    assert Outcome(g.scene.value) == Some(BattleResult(b.isVictory, b.isCaptured, b.player));
    assert Healed(w) == w;
  }
}
