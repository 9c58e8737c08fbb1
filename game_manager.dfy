/** `GameManager`: the level counter, the setup/pause gate that decides
    whether a frame runs the enemy pass, and the ordered enemy registry.
    Calls into code outside the core (`Enemy.MoveEnemy`,
    `BoardManager.SetupScene`) are recorded in trace fields, in call order. */
module Turns {
  import opened CSharpInt
  import opened EnemyList
  import opened Levels

  /** An enemy, known to the manager only by identity. */
  type EnemyId = nat

  /** One call `boardScript.SetupScene(level, isBoss)`, with the gate and the
      enemy list as they stood when it was made. */
  datatype SetupCall = SetupCall(level: int, isBoss: bool, doingSetup: bool, enemies: seq<EnemyId>)

  /** `"After " + level + " levels, you died."` */
  function GameOverText(level: int): (t: string)
    ensures |t| == |IntToDecimal(level)| + 24
    ensures t[..6] == "After " && t[|t| - 18..] == " levels, you died."
    ensures t[6..|t| - 18] == IntToDecimal(level)
  {
    "After " + IntToDecimal(level) + " levels, you died."
  }

  /** The game-over text names the level it was shown on: different levels
      give different texts. */
  lemma GameOverTextNamesLevel(a: int, b: int)
    requires GameOverText(a) == GameOverText(b)
    ensures a == b
  {
    var ta, tb := GameOverText(a), GameOverText(b);
    assert ta[6..|ta| - 18] == tb[6..|tb| - 18];
    IntToDecimalInjective(a, b);
  }

  class GameManager {
    var level: int
    var doingSetup: bool
    var paused: bool
    /** `MonoBehaviour.enabled`: the engine calls `Update` only while set. */
    var enabled: bool
    var enemies: seq<EnemyId>
    var levelText: string
    var levelImageActive: bool
    /** Every `Enemy.MoveEnemy` call, in order. */
    var enemyMoves: seq<EnemyId>
    /** Every `BoardManager.SetupScene` call, in order. */
    var setupCalls: seq<SetupCall>

    /** `level` is a C# int, and a disabled manager is paused (only
        `GameOver` disables it, and nothing unpauses). */
    ghost predicate Valid()
      reads this
    {
      IsInt32(level) && (!enabled ==> paused)
    }

    /** `Awake` (singleton and engine hookup aside): an empty list, unpaused,
        level 1, then `InitGame`. */
    constructor (bossRoll: int, textRoll: int)
      requires UnityRange(1, 10, bossRoll)
      requires TextRollOk(IsBoss(bossRoll, 1), 1, textRoll)
      ensures Valid()
      ensures level == 1 && !paused && enabled && doingSetup && levelImageActive
      ensures enemies == [] && enemyMoves == []
      ensures levelText == TitleText(false, 1, textRoll)
      ensures setupCalls == [SetupCall(1, false, true, [])]
    {
      level := 1;
      doingSetup := true;
      paused := false;
      enabled := true;
      enemies := [];
      levelText := "";
      levelImageActive := false;
      enemyMoves := [];
      setupCalls := [];
      new;
      InitGame(bossRoll, textRoll);
    }

    /** Starts the current level: closes the setup gate, shows the title card,
        empties the enemy list and only then asks the board to set up the
        scene. */
    method InitGame(bossRoll: int, textRoll: int)
      requires Valid()
      requires UnityRange(1, 10, bossRoll)
      requires TextRollOk(IsBoss(bossRoll, level), level, textRoll)
      modifies this
      ensures Valid()
      ensures level == old(level) && paused == old(paused) && enabled == old(enabled)
      ensures doingSetup && levelImageActive && enemies == []
      ensures levelText == TitleText(IsBoss(bossRoll, level), level, textRoll)
      ensures setupCalls == old(setupCalls) + [SetupCall(level, IsBoss(bossRoll, level), true, [])]
      ensures enemyMoves == old(enemyMoves)
    {
      doingSetup := true;
      var isBoss := IsBoss(bossRoll, level);
      levelText := TitleText(isBoss, level, textRoll);
      levelImageActive := true;
      enemies := [];
      setupCalls := setupCalls + [SetupCall(level, isBoss, doingSetup, enemies)];
    }

    /** The scene-loaded callback: next level, then `InitGame`. */
    method OnSceneLoaded(bossRoll: int, textRoll: int)
      requires Valid()
      requires UnityRange(1, 10, bossRoll)
      requires TextRollOk(IsBoss(bossRoll, Inc32(level)), Inc32(level), textRoll)
      modifies this
      ensures Valid()
      ensures level == Inc32(old(level))
      ensures old(level) < MaxInt ==> level == old(level) + 1
      ensures doingSetup && levelImageActive && enemies == []
      ensures levelText == TitleText(IsBoss(bossRoll, level), level, textRoll)
      ensures setupCalls == old(setupCalls) + [SetupCall(level, IsBoss(bossRoll, level), true, [])]
      ensures paused == old(paused) && enabled == old(enabled) && enemyMoves == old(enemyMoves)
    {
      level := Inc32(level);
      InitGame(bossRoll, textRoll);
    }

    /** Hides the title card and opens the setup gate. */
    method HideLevelImage()
      requires Valid()
      modifies this
      ensures Valid()
      ensures !doingSetup && !levelImageActive
      ensures level == old(level) && paused == old(paused) && enabled == old(enabled)
      ensures enemies == old(enemies) && levelText == old(levelText)
      ensures enemyMoves == old(enemyMoves) && setupCalls == old(setupCalls)
    {
      levelImageActive := false;
      doingSetup := false;
    }

    /** One frame: the enemy pass runs exactly when neither the setup gate
        nor the pause is set; otherwise nothing changes. */
    method Update()
      requires Valid()
      modifies this
      ensures Valid()
      ensures enemyMoves == if !doingSetup && !paused then old(enemyMoves) + enemies else old(enemyMoves)
      ensures level == old(level) && doingSetup == old(doingSetup) && paused == old(paused)
      ensures enabled == old(enabled) && enemies == old(enemies)
      ensures levelText == old(levelText) && levelImageActive == old(levelImageActive)
      ensures setupCalls == old(setupCalls)
    {
      if doingSetup || paused {
        return;
      }
      MoveEnemies();
    }

    /** Registers an enemy behind all those already registered. */
    method AddEnemyToList(e: EnemyId)
      requires Valid()
      modifies this
      ensures Valid()
      ensures enemies == Append(old(enemies), e)
      ensures level == old(level) && doingSetup == old(doingSetup) && paused == old(paused)
      ensures enabled == old(enabled) && enemyMoves == old(enemyMoves) && setupCalls == old(setupCalls)
      ensures levelText == old(levelText) && levelImageActive == old(levelImageActive)
    {
      enemies := Append(enemies, e);
    }

    /** Deregisters the first registration of an enemy; a no-op for an
        enemy that is not registered. */
    method RemoveEnemyFromlist(e: EnemyId)
      requires Valid()
      modifies this
      ensures Valid()
      ensures enemies == RemoveFirst(old(enemies), e)
      ensures e !in old(enemies) ==> enemies == old(enemies)
      ensures level == old(level) && doingSetup == old(doingSetup) && paused == old(paused)
      ensures enabled == old(enabled) && enemyMoves == old(enemyMoves) && setupCalls == old(setupCalls)
      ensures levelText == old(levelText) && levelImageActive == old(levelImageActive)
    {
      enemies := RemoveFirst(enemies, e);
    }

    /** Shows the game-over card, pauses and disables the manager. */
    method GameOver()
      requires Valid()
      modifies this
      ensures Valid()
      ensures paused && !enabled && levelImageActive
      ensures levelText == GameOverText(level)
      ensures level == old(level) && doingSetup == old(doingSetup) && enemies == old(enemies)
      ensures enemyMoves == old(enemyMoves) && setupCalls == old(setupCalls)
    {
      levelText := GameOverText(level);
      paused := true;
      levelImageActive := true;
      enabled := false;
    }

    /** Calls `MoveEnemy` once on every registered enemy, in registration
        order. `MoveEnemy` is taken not to change the list during the pass. */
    method MoveEnemies()
      requires Valid()
      modifies this
      ensures Valid()
      ensures enemyMoves == old(enemyMoves) + enemies
      ensures level == old(level) && doingSetup == old(doingSetup) && paused == old(paused)
      ensures enabled == old(enabled) && enemies == old(enemies)
      ensures levelText == old(levelText) && levelImageActive == old(levelImageActive)
      ensures setupCalls == old(setupCalls)
    {
      for i := 0 to |enemies|
        invariant enemies == old(enemies)
        invariant enemyMoves == old(enemyMoves) + enemies[..i]
        invariant level == old(level) && doingSetup == old(doingSetup) && paused == old(paused)
        invariant enabled == old(enabled)
        invariant levelText == old(levelText) && levelImageActive == old(levelImageActive)
        invariant setupCalls == old(setupCalls)
      {
        assert enemies[..i + 1] == enemies[..i] + [enemies[i]];
        enemyMoves := enemyMoves + [enemies[i]];
      }
      assert enemies[..|enemies|] == enemies;
    }

    method GetLevel() returns (l: int)
      requires Valid()
      ensures IsInt32(l) && l == level
    {
      l := level;
    }
  }

  /** Once the game is over, a frame, a registration, a scene load, the
      title card being hidden and another frame move no enemy. The same holds
      for any later sequence of calls: every method keeps `paused` as it was,
      and `Update` runs no pass while it is set. */
  method GameOverIsFinal(gm: GameManager, e: EnemyId, bossRoll: int, textRoll: int)
    requires gm.Valid()
    requires UnityRange(1, 10, bossRoll)
    requires TextRollOk(IsBoss(bossRoll, Inc32(gm.level)), Inc32(gm.level), textRoll)
    modifies gm
    ensures gm.paused && !gm.enabled
    ensures gm.enemyMoves == old(gm.enemyMoves)
  {
    gm.GameOver();
    gm.Update();
    gm.AddEnemyToList(e);
    gm.OnSceneLoaded(bossRoll, textRoll);
    gm.HideLevelImage();
    gm.Update();
  }

  /** Two enemy passes with no registration change in between visit the
      enemies in the same, registration, order. */
  method PassesKeepOrder(gm: GameManager)
    requires gm.Valid() && !gm.doingSetup && !gm.paused
    modifies gm
    ensures gm.enemyMoves == old(gm.enemyMoves) + gm.enemies + gm.enemies
    ensures gm.enemies == old(gm.enemies)
  {
    gm.Update();
    gm.Update();
  }

  /** An enemy that registers and then deregisters (and was not registered
      before) leaves the registry exactly as it found it. */
  method RegisterThenDeregister(gm: GameManager, e: EnemyId)
    requires gm.Valid() && e !in gm.enemies
    modifies gm
    ensures gm.enemies == old(gm.enemies)
  {
    gm.AddEnemyToList(e);
    AppendThenRemove(old(gm.enemies), e);
    gm.RemoveEnemyFromlist(e);
  }
}
