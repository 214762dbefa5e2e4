/** The battle state machine: a snapshot of both creatures, whose turn it is,
    three terminal flags and a capped most-recent-first log, driven by three
    triggers (a player move, the enemy's automatic move and a capture
    attempt). Each trigger is one atomic step; `animating` is the
    action-in-flight lock that makes a trigger a no-op while it is held.
    Random draws and commentary lines are parameters. */
module Battle {
  import opened Types
  import opened Draws
  import opened Damage
  import opened Capture

  /** How many log entries the battle keeps. */
  const LogCapacity: nat := 5

  /** The battle screen: the snapshot plus the action-in-flight lock. */
  datatype Scene = Scene(battle: BattleState, animating: bool)

  /** What the battle hands back to the session once it is over. */
  datatype BattleResult = BattleResult(victory: bool, captured: bool, updatedPlayer: Monster)

  // ---------------------------------------------------------------------
  // Fixed log lines

  function AppearedMessage(name: string): string
  {
    "A wild " + name + " appeared!"
  }

  function DefeatedMessage(winner: string, loser: string): string
  {
    winner + " defeated " + loser + "!"
  }

  const ThrowMessage: string := "You threw a Gemiball!"

  function CaughtMessage(name: string): string
  {
    "Gotcha! " + name + " was caught!"
  }

  const BrokeFreeMessage: string := "Oh no! The wild Gemimon broke free!"

  // ---------------------------------------------------------------------
  // The log

  /** The first `LogCapacity` entries of `s`. */
  function Window(s: seq<string>): (w: seq<string>)
    ensures |w| <= LogCapacity && |w| <= |s|
    ensures w == s[..|w|]
    ensures |w| == LogCapacity || w == s
  {
    if |s| <= LogCapacity then s else s[..LogCapacity]
  }

  /** Prepends the newest message and keeps at most `LogCapacity` entries. */
  function AddLog(logs: seq<string>, msg: string): (r: seq<string>)
    ensures |r| == if |logs| < LogCapacity then |logs| + 1 else LogCapacity
    ensures r[0] == msg
    ensures forall i :: 0 < i < |r| ==> r[i] == logs[i - 1]
  {
    Window([msg] + logs)
  }

  /** Logs every message of `msgs` in order. */
  function AddLogs(logs: seq<string>, msgs: seq<string>): seq<string>
    decreases |msgs|
  {
    if msgs == [] then logs else AddLogs(AddLog(logs, msgs[0]), msgs[1..])
  }

  /** Logging one message, or two in a row, one `AddLog` at a time. */
  lemma AddLogsUnfold(logs: seq<string>, x: string, y: string)
    ensures AddLogs(logs, [x]) == AddLog(logs, x)
    ensures AddLogs(logs, [x, y]) == AddLog(AddLog(logs, x), y)
  {
    assert [x][1..] == [];
    assert [x, y][1..] == [y];
    assert AddLogs(logs, [x, y]) == AddLogs(AddLog(logs, x), [y]);
    assert [y][1..] == [];
    assert AddLogs(AddLog(logs, x), [y]) == AddLogs(AddLog(AddLog(logs, x), y), []);
  }

  function Reversed(s: seq<string>): (r: seq<string>)
    ensures |r| == |s|
    ensures forall i :: 0 <= i < |s| ==> r[i] == s[|s| - 1 - i]
  {
    if s == [] then [] else Reversed(s[1..]) + [s[0]]
  }

  lemma WindowAbsorbs(x: seq<string>, y: seq<string>)
    ensures Window(x + Window(y)) == Window(x + y)
  {
    var w := Window(x + y);
    var v := Window(x + Window(y));
    assert |v| == |w|;
    forall i | 0 <= i < |w|
      ensures v[i] == w[i]
    {
      if i >= |x| {
        assert v[i] == Window(y)[i - |x|];
      }
    }
  }

  /** However many messages are logged, the log holds the most recent ones,
      newest first, followed by what was there before, capped at `LogCapacity`. */
  lemma {:induction false} AddLogsKeepsNewest(logs: seq<string>, msgs: seq<string>)
    requires |logs| <= LogCapacity
    ensures AddLogs(logs, msgs) == Window(Reversed(msgs) + logs)
    decreases |msgs|
  {
    if msgs != [] {
      var m, rest := msgs[0], msgs[1..];
      AddLogsKeepsNewest(AddLog(logs, m), rest);
      WindowAbsorbs(Reversed(rest), [m] + logs);
      assert Reversed(msgs) == Reversed(rest) + [m];
      assert Reversed(rest) + ([m] + logs) == Reversed(msgs) + logs;
    }
  }

  // ---------------------------------------------------------------------
  // Roles and predicates over the snapshot

  function Attacker(b: BattleState, isPlayer: bool): Monster
  {
    if isPlayer then b.player else b.enemy
  }

  function Defender(b: BattleState, isPlayer: bool): Monster
  {
    if isPlayer then b.enemy else b.player
  }

  predicate Terminal(b: BattleState)
  {
    b.isVictory || b.isDefeat || b.isCaptured
  }

  predicate AtMostOneTerminal(b: BattleState)
  {
    && !(b.isVictory && b.isDefeat)
    && !(b.isVictory && b.isCaptured)
    && !(b.isDefeat && b.isCaptured)
  }

  /** What every reachable battle screen satisfies between actions. */
  predicate BattleInv(s: Scene)
  {
    && !s.animating
    && ValidMonster(s.battle.player)
    && ValidMonster(s.battle.enemy)
    && AtMostOneTerminal(s.battle)
    && 1 <= |s.battle.logs| <= LogCapacity
    && (s.battle.isVictory ==> s.battle.enemy.currentHp == 0)
    && (s.battle.isDefeat ==> s.battle.player.currentHp == 0)
  }

  // ---------------------------------------------------------------------
  // Setup

  /** A battle between copies of `player` and `enemy`. The faster side moves
      first and a tie goes to the player. */
  function InitialScene(player: Monster, enemy: Monster): (s: Scene)
    ensures s.battle.turn == Player <==> player.speed >= enemy.speed
    ensures s.battle.player == player && s.battle.enemy == enemy
    ensures !Terminal(s.battle) && !s.animating
    ensures s.battle.logs == [AppearedMessage(enemy.name)]
    ensures ValidMonster(player) && ValidMonster(enemy) ==> BattleInv(s)
  {
    Scene(
      BattleState(
        player, enemy,
        if player.speed >= enemy.speed then Player else Enemy,
        false, false, false,
        [AppearedMessage(enemy.name)]),
      false)
  }

  // ---------------------------------------------------------------------
  // Handlers

  /** One move by the player (`isPlayer`) or the enemy. Only the defender's
      health changes, clamped at zero; the turn passes to the other side; a
      knock-out sets the attacker's terminal flag and logs a second line. */
  function ExecuteMove(s: Scene, move: Move, isPlayer: bool, r: real, commentary: string, victoryLine: string): (s': Scene)
    requires DamageRoll(r)
    requires !s.animating ==> Defender(s.battle, isPlayer).defense > 0
    ensures s.animating ==> s' == s
    ensures !s.animating ==>
      var b, b' := s.battle, s'.battle;
      var att, def := Attacker(b, isPlayer), Defender(b, isPlayer);
      var hp := Defender(b', isPlayer).currentHp;
      && !s'.animating
      && Attacker(b', isPlayer) == att
      && SameExceptHp(Defender(b', isPlayer), def)
      && hp == Max(0, def.currentHp - CalculateDamage(att, def, move, r))
      && (AttackerStatsOk(att, move) && def.currentHp >= 0 ==> 0 <= hp <= def.currentHp)
      && b'.turn == (if isPlayer then Enemy else Player)
      && b'.isVictory == (b.isVictory || (isPlayer && hp == 0))
      && b'.isDefeat == (b.isDefeat || (!isPlayer && hp == 0))
      && b'.isCaptured == b.isCaptured
      && 1 <= |b'.logs| <= LogCapacity
      && b'.logs[0] == (if hp != 0 then commentary
                        else if isPlayer then victoryLine
                        else DefeatedMessage(att.name, def.name))
      && (hp == 0 ==> |b'.logs| >= 2 && b'.logs[1] == commentary)
      && b'.logs == AddLogs(b.logs, if hp != 0 then [commentary]
                                    else [commentary, if isPlayer then victoryLine
                                                      else DefeatedMessage(att.name, def.name)])
  {
    if s.animating then s
    else
      var b := s.battle;
      var att, def := Attacker(b, isPlayer), Defender(b, isPlayer);
      var damage := CalculateDamage(att, def, move, r);
      var hp := Max(0, def.currentHp - damage);
      var logged := AddLog(b.logs, commentary);
      AddLogsUnfold(b.logs, commentary, if isPlayer then victoryLine else DefeatedMessage(att.name, def.name));
      var hit :=
        if isPlayer then b.(enemy := def.(currentHp := hp), turn := Enemy, logs := logged)
        else b.(player := def.(currentHp := hp), turn := Player, logs := logged);
      var b' :=
        if hp != 0 then hit
        else if isPlayer then hit.(logs := AddLog(hit.logs, victoryLine), isVictory := true)
        else hit.(logs := AddLog(hit.logs, DefeatedMessage(att.name, def.name)), isDefeat := true);
      Scene(b', false)
  }

  /** A capture attempt with draw `d`. Success sets the captured flag and
      leaves health and turn alone; failure passes the turn to the enemy. */
  function HandleCapture(s: Scene, d: real): (s': Scene)
    ensures s.animating ==> s' == s
    ensures !s.animating ==>
      var b, b' := s.battle, s'.battle;
      var caught := CaptureSucceeds(b.enemy.currentHp, b.enemy.maxHp, d);
      && !s'.animating
      && b'.player == b.player && b'.enemy == b.enemy
      && b'.isCaptured == (b.isCaptured || caught)
      && b'.isVictory == b.isVictory && b'.isDefeat == b.isDefeat
      && b'.turn == (if caught then b.turn else Enemy)
      && |b'.logs| >= 2
      && b'.logs[0] == (if caught then CaughtMessage(b.enemy.name) else BrokeFreeMessage)
      && b'.logs[1] == ThrowMessage
      && |b'.logs| <= LogCapacity
      && b'.logs == AddLogs(b.logs, [ThrowMessage, if caught then CaughtMessage(b.enemy.name) else BrokeFreeMessage])
  {
    if s.animating then s
    else
      var b := s.battle;
      var thrown := AddLog(b.logs, ThrowMessage);
      AddLogsUnfold(b.logs, ThrowMessage, CaughtMessage(b.enemy.name));
      AddLogsUnfold(b.logs, ThrowMessage, BrokeFreeMessage);
      if CaptureSucceeds(b.enemy.currentHp, b.enemy.maxHp, d) then
        Scene(b.(logs := AddLog(thrown, CaughtMessage(b.enemy.name)), isCaptured := true), false)
      else
        Scene(b.(logs := AddLog(thrown, BrokeFreeMessage), turn := Enemy), false)
  }

  /** After a move the log reads: the knock-out line if any, then the
      commentary, then the earlier entries, newest first, capped at `LogCapacity`. */
  lemma {:induction false} MoveLogKeepsHistory(s: Scene, move: Move, isPlayer: bool, r: real, commentary: string, victoryLine: string)
    requires DamageRoll(r)
    requires !s.animating && Defender(s.battle, isPlayer).defense > 0
    requires |s.battle.logs| <= LogCapacity
    ensures var b' := ExecuteMove(s, move, isPlayer, r, commentary, victoryLine).battle;
      var att, def := Attacker(s.battle, isPlayer), Defender(s.battle, isPlayer);
      b'.logs == Window((if Defender(b', isPlayer).currentHp != 0 then [commentary]
                         else [if isPlayer then victoryLine else DefeatedMessage(att.name, def.name), commentary])
                        + s.battle.logs)
  {
    var b' := ExecuteMove(s, move, isPlayer, r, commentary, victoryLine).battle;
    var att, def := Attacker(s.battle, isPlayer), Defender(s.battle, isPlayer);
    var line := if isPlayer then victoryLine else DefeatedMessage(att.name, def.name);
    if Defender(b', isPlayer).currentHp != 0 {
      AddLogsKeepsNewest(s.battle.logs, [commentary]);
      assert Reversed([commentary]) == [commentary];
    } else {
      AddLogsKeepsNewest(s.battle.logs, [commentary, line]);
      assert Reversed([commentary, line]) == [line, commentary];
    }
  }

  /** After a throw the log reads: the result line, the throw line, then the
      earlier entries, newest first, capped at `LogCapacity`. */
  lemma {:induction false} CaptureLogKeepsHistory(s: Scene, d: real)
    requires !s.animating
    requires |s.battle.logs| <= LogCapacity
    ensures var b := s.battle;
      var result := if CaptureSucceeds(b.enemy.currentHp, b.enemy.maxHp, d) then CaughtMessage(b.enemy.name) else BrokeFreeMessage;
      HandleCapture(s, d).battle.logs == Window([result, ThrowMessage] + b.logs)
  {
    var b := s.battle;
    var result := if CaptureSucceeds(b.enemy.currentHp, b.enemy.maxHp, d) then CaughtMessage(b.enemy.name) else BrokeFreeMessage;
    AddLogsKeepsNewest(b.logs, [ThrowMessage, result]);
    assert Reversed([ThrowMessage, result]) == [result, ThrowMessage];
  }

  // ---------------------------------------------------------------------
  // Triggers

  /** A trigger with the draws and commentary it consumes. */
  datatype Action =
    | UseMove(index: int, roll: real, commentary: string, victoryLine: string)
    | ThrowBall(draw: real)
    | EnemyAttack(pick: real, roll: real, commentary: string)

  predicate ActionOk(a: Action)
  {
    match a
    case UseMove(_, roll, _, _) => DamageRoll(roll)
    case ThrowBall(draw) => UnitDraw(draw)
    case EnemyAttack(pick, roll, _) => UnitDraw(pick) && DamageRoll(roll)
  }

  /** The move buttons and the capture button are shown only on the player's
      turn, with no action in flight and no terminal flag set. */
  predicate PlayerControlsShown(s: Scene)
  {
    !Terminal(s.battle) && s.battle.turn == Player && !s.animating
  }

  /** The enemy acts only on its turn, with no action in flight and no terminal flag set. */
  predicate EnemyTurnDue(s: Scene)
  {
    s.battle.turn == Enemy && !Terminal(s.battle) && !s.animating
  }

  predicate Enabled(s: Scene, a: Action)
  {
    match a
    case UseMove(i, _, _, _) => PlayerControlsShown(s) && 0 <= i < |s.battle.player.moves|
    case ThrowBall(_) => PlayerControlsShown(s)
    case EnemyAttack(_, _, _) => EnemyTurnDue(s)
  }

  /** What the handlers need to be defined. */
  predicate Playable(b: BattleState)
  {
    b.player.defense > 0 && b.enemy.defense > 0 && |b.enemy.moves| > 0
  }

  /** The move the enemy picks with draw `pick`. */
  function EnemyMove(b: BattleState, pick: real): (m: Move)
    requires UnitDraw(pick)
    requires |b.enemy.moves| > 0
    ensures m in b.enemy.moves
  {
    b.enemy.moves[RandomIndex(pick, |b.enemy.moves|)]
  }

  /** Applies one trigger; a trigger that is not available is a no-op. */
  function Act(s: Scene, a: Action): (s': Scene)
    requires Playable(s.battle)
    requires ActionOk(a)
    ensures !Enabled(s, a) ==> s' == s
    ensures Terminal(s.battle) || s.animating ==> s' == s
    ensures BattleInv(s) ==> BattleInv(s')
    ensures Enabled(s, a) && a.UseMove? ==>
      && s'.battle.turn == Enemy
      && s'.battle.player == s.battle.player
      && SameExceptHp(s'.battle.enemy, s.battle.enemy)
      && (s'.battle.isVictory <==> s'.battle.enemy.currentHp == 0)
      && !s'.battle.isDefeat && !s'.battle.isCaptured
    ensures Enabled(s, a) && a.EnemyAttack? ==>
      && s'.battle.turn == Player
      && s'.battle.enemy == s.battle.enemy
      && SameExceptHp(s'.battle.player, s.battle.player)
      && (s'.battle.isDefeat <==> s'.battle.player.currentHp == 0)
      && !s'.battle.isVictory && !s'.battle.isCaptured
    ensures Enabled(s, a) && a.ThrowBall? ==>
      && s'.battle.player == s.battle.player
      && s'.battle.enemy == s.battle.enemy
      && (s'.battle.isCaptured <==> CaptureSucceeds(s.battle.enemy.currentHp, s.battle.enemy.maxHp, a.draw))
      && s'.battle.turn == (if s'.battle.isCaptured then Player else Enemy)
      && !s'.battle.isVictory && !s'.battle.isDefeat
  {
    if !Enabled(s, a) then s
    else
      match a
      case UseMove(i, roll, commentary, victoryLine) =>
        ExecuteMove(s, s.battle.player.moves[i], true, roll, commentary, victoryLine)
      case ThrowBall(draw) =>
        HandleCapture(s, draw)
      case EnemyAttack(pick, roll, commentary) =>
        ExecuteMove(s, EnemyMove(s.battle, pick), false, roll, commentary, "")
  }

  /** Applies the triggers in order. */
  function Run(s: Scene, acts: seq<Action>): (s': Scene)
    requires BattleInv(s)
    requires forall i :: 0 <= i < |acts| ==> ActionOk(acts[i])
    ensures BattleInv(s')
    ensures SameExceptHp(s'.battle.player, s.battle.player)
    ensures SameExceptHp(s'.battle.enemy, s.battle.enemy)
    ensures s'.battle.player.currentHp <= s.battle.player.currentHp
    ensures s'.battle.enemy.currentHp <= s.battle.enemy.currentHp
    ensures Terminal(s.battle) ==> s' == s
    decreases |acts|
  {
    if acts == [] then s else Run(Act(s, acts[0]), acts[1..])
  }

  /** The result handed to the session, available exactly when a terminal flag is set. */
  function Outcome(s: Scene): (o: Option<BattleResult>)
    ensures o.Some? <==> Terminal(s.battle)
    ensures o.Some? ==> o.value.updatedPlayer == s.battle.player
    ensures o.Some? ==> o.value.captured == s.battle.isCaptured
  {
    if Terminal(s.battle) then
      Some(BattleResult(s.battle.isVictory, s.battle.isCaptured, s.battle.player))
    else None
  }

  // ---------------------------------------------------------------------
  // Properties across steps

  /** Every available trigger hands the turn to the other side, except a
      successful capture, which ends the battle instead. */
  lemma TurnAlternates(s: Scene, a: Action)
    requires Playable(s.battle) && ActionOk(a)
    requires Enabled(s, a)
    ensures Act(s, a).battle.turn != s.battle.turn || Act(s, a).battle.isCaptured
  {
  }
}
