# Battle engine and roster of a small turn-based creature game

A Dafny model of the game's core:

- the damage rule and type chart;
- the capture rule;
- the battle state machine (player move, automatic enemy move, capture attempt);
- the session controller that owns the screen, the party and the current wild creature;
- the static catalog of moves and creature templates.

Every random draw (`Math.random()`) and every line of generated commentary is a
parameter. The damage roll is a `real` `r` with `0.85 <= r < 1`. Index picks
and capture draws are `real` values `d` with `0 <= d < 1`. All arithmetic is
exact: `real` for the formula, `.Floor` for `Math.floor`.

Modules, one per component:

| file | module | models |
|---|---|---|
| types.dfy | `Types` | record shapes of `types.ts`, well-formed creature predicate |
| draws.dfy | `Draws` | `Math.floor(random * n)` index picks, the damage roll |
| damage.dfy | `Damage` | `calculateDamage`, type chart, monotonicity |
| capture.dfy | `Capture` | the capture comparison of `handleCapture` |
| battle.dfy | `Battle` | `BattleScene`: initial state, `addLog`, `executeMove`, `handleCapture`, enemy turn, trigger guards |
| catalog.dfy | `Catalog` | `MOVES`, `INITIAL_MONSTERS`, `WILD_MONSTERS` |
| app.dfy | `App` | `App`: `startNewGame`, `encounterWildMonster`, `handleBattleFinish`, exit, render guard, the whole game as one step function |

Each battle trigger is one atomic step. The `animating` flag of a `Scene`
stands in for `isAnimating`: the handlers are no-ops while it is set, and every
step releases it. The handlers `ExecuteMove` and `HandleCapture` check only the
lock, as the code does. Which triggers are available is decided by
`Battle.Act`:

- the move and capture buttons exist only on the player's turn, with no action
  in flight and no terminal flag set;
- the enemy acts only on its turn, under the same two conditions.

`App.Game` pairs the session with the battle screen while it is mounted.
`App.Step` plays one user event against it.

Details of the code's behaviour that the model follows:

- The damage roll `Math.random() * (1 - 0.85) + 0.85` lies in [0.85, 1) in
  exact arithmetic, and the model takes it from that range. In IEEE-754
  doubles the topmost draws round the roll up to exactly 1.0; that rounding is
  left out with the rest of floating point. A roll of 1 would give
  `floor(base * multiplier)`, which is already the proved upper bound of
  `Damage.CalculateDamage`.
- A player knock-out sets the turn to ENEMY as well as `isVictory`. An enemy
  knock-out sets the turn to PLAYER as well as `isDefeat`. The terminal flag
  stops play, not the turn field.
- `startNewGame` puts the catalog template itself in the party. Templates are
  at full health, so it needs no healing.
- `handleBattleFinish` on an empty party writes index 0 of an empty array,
  giving a one-element party. `HandleBattleFinish` models that case.
- The captured creature appended to the party is the session's copy of the
  wild creature at full health. It is not the battle's damaged copy.
- `hp / maxHp` with `maxHp = 0` is infinite or undefined in the code, and no
  draw exceeds it unless `hp` is negative. `Capture.CaptureSucceeds` models
  that case without a precondition.
- Nothing heals the lead creature after a defeat. The next battle starts with
  it at 0 health, and it can still attack. The model keeps this behaviour:
  `ValidMonster` allows 0 health.

## Model

| member | source | states |
|---|---|---|
| Draws.RandomIndex | components/BattleScene.tsx:119 | `floor(d * n)` for a draw in [0,1) is always a valid index into a non-empty list |
| Draws.RandomIndexCovers | App.tsx:18 | every index of the list is chosen by some draw (`i / n` selects `i`) |
| Draws.RollFactor | components/BattleScene.tsx:42 | the roll `d * (1 - 0.85) + 0.85` lies in [0.85, 1) |
| Draws.RollFactorOnto | components/BattleScene.tsx:42 | every roll in [0.85, 1) comes from a draw, so the roll can be taken as a parameter over exactly that range |
| Damage.TypeModifier | components/BattleScene.tsx:34-40 | the multiplier is 2 exactly when the move's element beats the defender's in the FIRE>GRASS>WATER>FIRE cycle, 0.5 exactly when it is beaten, 1 otherwise |
| Damage.TypeChart | components/BattleScene.tsx:34-40 | the six listed pairs give 2 or 0.5; any ELECTRIC or NORMAL side, or a same-element pair, gives 1 |
| Damage.BaseDamage | components/BattleScene.tsx:32 | with non-negative level, power and attack and positive defense, base damage is at least 2 |
| Damage.Potential | components/BattleScene.tsx:32-40 | base damage times the type multiplier is at least 1 for non-negative attacker stats |
| Damage.CalculateDamage | components/BattleScene.tsx:30-44 | damage is a non-negative integer between the floors of the smallest (0.85) and the largest roll times base damage and multiplier |
| Damage.BaseDamageMonotone | components/BattleScene.tsx:32 | base damage is nondecreasing in level, power and attack and nonincreasing in defense |
| Damage.DamageMonotone | components/BattleScene.tsx:30-44 | for a fixed roll and type matchup, damage is nondecreasing in level, attack and power and nonincreasing in defense |
| Damage.DamageMonotoneInPower | components/BattleScene.tsx:32-43 | more move power never deals less damage |
| Damage.DamageMonotoneInAttack | components/BattleScene.tsx:32-43 | a higher attack stat never deals less damage |
| Damage.DamageAntitoneInDefense | components/BattleScene.tsx:32-43 | a higher defense stat never takes more damage |
| Capture.CaptureSucceeds | components/BattleScene.tsx:100-101 | with a positive maximum, a throw succeeds exactly when `d * maxHp > currentHp`, that is, when the draw exceeds the health ratio |
| Capture.CaptureNeverAtFullHp | components/BattleScene.tsx:100-101 | at full health no draw below 1 captures |
| Capture.CaptureAtZeroHp | components/BattleScene.tsx:100-101 | at 0 health a throw captures exactly when the draw is positive |
| Capture.CaptureMonotone | components/BattleScene.tsx:100-101 | lower health never turns a capturing draw into a failing one |
| Capture.CaptureStrictlyEasier | components/BattleScene.tsx:100-101 | strictly lower health admits a draw in [0,1) that captures now and did not before |
| Capture.CaptureAtOneOfFifty | components/BattleScene.tsx:100-101 | at 1 of 50 health the capture threshold is 0.02 |
| Battle.AddLog | components/BattleScene.tsx:26-28 | the new message is first, the old entries follow in order, and the length is one more than before, capped at 5 |
| Battle.AddLogsUnfold | components/BattleScene.tsx:26-28 | logging one or two messages with `AddLogs` is the same as calling `addLog` once per message in order |
| Battle.AddLogsKeepsNewest | components/BattleScene.tsx:26-28 | after any number of messages the log is the newest five, newest first, followed by the old entries, all capped at 5 |
| Battle.InitialScene | components/BattleScene.tsx:14-24 | the player moves first exactly when its speed is at least the enemy's; no terminal flag, lock free, log is the single "appeared" line |
| Battle.ExecuteMove | components/BattleScene.tsx:46-92 | a move changes only the defender's health, to `max(0, hp - damage)`, never negative or higher; the turn passes over; a knock-out sets only the attacker's flag; the log is the old log with the commentary and then, on a knock-out, the victory or defeat line added one at a time; locked, it is a no-op |
| Battle.MoveLogKeepsHistory | components/BattleScene.tsx:64-92 | after a move the log is the knock-out line if any, then the commentary, then the earlier entries newest first, capped at 5 |
| Battle.HandleCapture | components/BattleScene.tsx:94-113 | creatures are untouched; the captured flag is set exactly when the draw succeeds; a failure passes the turn to the enemy; the log is the old log with the throw line and then the result line added one at a time; locked, it is a no-op |
| Battle.CaptureLogKeepsHistory | components/BattleScene.tsx:94-113 | after a throw the log is the result line, the throw line, then the earlier entries newest first, capped at 5 |
| Battle.PlayerControlsShown | components/BattleScene.tsx:126-221 | the move and GEMIBALL buttons exist only with no terminal flag set (line 126), on the player's turn and with no action in flight (lines 199 and 214) |
| Battle.EnemyTurnDue | components/BattleScene.tsx:117 | the enemy acts only on its turn, with no terminal flag set and no action in flight |
| Battle.EnemyMove | components/BattleScene.tsx:119 | the enemy's random pick is one of its own moves |
| Battle.Act | components/BattleScene.tsx:116-124 | an unavailable trigger is a no-op; after a terminal flag nothing changes; the battle invariant is preserved; the side that did not act keeps its creature record; the damaged creature differs from before only in health; victory, defeat and capture each follow their own outcome; the player-side guard is the button condition at lines 199-221 |
| Battle.Run | components/BattleScene.tsx:46-124 | over any trigger sequence there is at most one terminal flag and the log stays within 5; health never increases; creatures change only in health; a finished battle stays finished |
| Battle.Outcome | components/BattleScene.tsx:126-137 | the result is offered exactly when a terminal flag is set, and carries the battle's player creature and the capture flag |
| Battle.TurnAlternates | components/BattleScene.tsx:66-78 | every available trigger flips the turn, except a capture that succeeds |
| Catalog.AllMoves | constants.ts:12-18 | the five moves of `MOVES` with their names, powers, accuracies, elements and descriptions |
| Catalog.InitialMonsters | constants.ts:20-63 | the three starters of `INITIAL_MONSTERS` in order, with their stats and moves |
| Catalog.WildMonsters | constants.ts:65-94 | the two wild creatures of `WILD_MONSTERS` in order, with their stats and moves |
| Catalog.TemplatesWellFormed | constants.ts:20-94 | every template is at full health with no experience, knows a move, and has positive defense and maximum health |
| Catalog.MovesWellFormed | constants.ts:12-18 | every move has accuracy 100 and power 40 or 45; every template's moves come from the move list |
| Catalog.CatalogElements | constants.ts:20-94 | the starters are FIRE Pyrolin, WATER Aquafin and GRASS Leafox; the wild creatures are ELECTRIC Sparky and NORMAL Grom |
| App.TurnOrderByCatalogSpeed | components/BattleScene.tsx:17 | Sparky (speed 90) always moves before any starter; every starter moves before Grom (speed 30) |
| Catalog.TackleExample | components/BattleScene.tsx:32-43 | Pyrolin's Tackle on Leafox has base damage 5.2 and deals 4 or 5 for every roll |
| App.StartNewGame | App.tsx:12-15 | the party becomes exactly the starter and the screen becomes OVERWORLD |
| App.EncounterWildMonster | App.tsx:17-23 | the wild creature is the drawn template at full health, otherwise unchanged; the party is kept; the screen becomes BATTLE |
| App.EncounterCoversWild | App.tsx:17-23 | every wild template can be met |
| App.HandleBattleFinish | App.tsx:25-37 | index 0 becomes the battle's creature and the other members are kept; on capture with a wild creature present, the party grows by one with that creature at full health, otherwise its length is kept; the wild creature is cleared; the screen becomes OVERWORLD |
| App.BattleShown | App.tsx:109 | the battle screen is rendered only on BATTLE with a wild creature present and a non-empty party |
| App.ExitToMenu | App.tsx:103 | EXIT returns to MENU, keeping the party |
| App.Step | App.tsx:39-119 | the game invariant is preserved; the screen changes exactly on an available start, explore, finish or exit event, and only along MENU→OVERWORLD, OVERWORLD→BATTLE, BATTLE→OVERWORLD or OVERWORLD→MENU; only a new start can shrink the party, and a non-empty party stays non-empty |
| App.Play | App.tsx:7-119 | any event sequence preserves the game invariant, and a non-empty party stays non-empty |
| App.InitialGameWellFormed | App.tsx:8-10 | the starting state (MENU, empty party, no wild creature) satisfies the game invariant |
| App.BattleAlwaysShown | App.tsx:109-117 | in every reachable game POKEDEX is never entered, and on the BATTLE screen the battle render guard holds, so `party[0]` exists |
| App.FinishKeepsParty | App.tsx:25-37 | after a finished battle, the lead differs from before only in health; other members are unchanged; the party grows by exactly the captured wild creature, at full health |

## Left out

- Commentary and victory lines from the text generator are opaque `string`
  parameters, as is its fallback. The generator makes network calls to a
  library outside this model.
- The HP bar, status bar, images, CSS and all other rendering are left out.
  They are presentation only.
- The 1000 ms capture delay and the 1500 ms enemy delay are left out, along
  with their cancellation on unmount and React state batching. Each trigger is
  one atomic step, so the in-flight lock is never observed held between steps.
- `Math.random` and IEEE-754 doubles are left out. Draws are exact `real`
  parameters, and rounding is not modelled: neither at floor boundaries nor
  the rounding of the topmost draws to a damage roll of exactly 1.0.
- Experience, `accuracy` and the "You gained 50 EXP!" message are stored or
  shown but never consulted.
- `TYPE_COLORS` is display data only.
- Damage with zero defense is left out. JavaScript would produce Infinity or
  NaN, so `Damage.CalculateDamage` requires positive defense. Every catalog
  creature has it.
- An enemy with no moves is left out. The code would read an undefined move,
  so `Battle.Act` requires the enemy to know a move. Every catalog creature
  does.
