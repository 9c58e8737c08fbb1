# Valhalla Denied: turn gate, enemy registry and attempt-move, in Dafny

This project models two pieces of the Unity roguelike *Valhalla Denied*.

- **`GameManager`** (module `Turns`) holds the level counter, the setup gate (`doingSetup`), the pause flag, `enabled`, and the ordered list of registered enemies.
  - A frame (`Update`) runs the enemy pass only when neither the gate nor the pause is set.
  - The pass calls `MoveEnemy` on every enemy, in registration order.
  - Starting a level (`InitGame`) closes the gate, decides whether the level is a boss level, picks the title card text and empties the list, all before the board is built.
  - `GameOver` pauses the manager and disables it.
  - The scene-loaded callback moves on to the next level.
- **`MovingObject`** (module `Moving`) is the base class of every unit. One attempt to move works like this:
  1. It stamps the time.
  2. It probes the neighbouring tile with the unit's own collider switched off.
  3. It switches the collider back on.
  4. If nothing was hit, it starts moving there. If the blocker carries the component type the caller asked for, it hands the blocker to `OnCantMove`. Otherwise it does nothing.
  
  `LoseHits` lowers the hit counter.

Support modules:
- `Levels` holds the boss roll and the title text bands, as pure functions.
- `EnemyList` models `List<T>.Add` and `List<T>.Remove` on sequences.
- `CSharpInt` models C# 32-bit int arithmetic and `int.ToString`.

Engine services are inputs:
- Each `Random.Range` draw is a parameter. Its precondition is Unity's guarantee for the integer overload: minimum included, maximum excluded.
- `Physics2D.Linecast` is a function parameter `(start, end) -> Clear | Blocked(obstacle)`.
- `GetComponent<T>() != null` is the `T` tag's membership in the obstacle's component set.
- `DateTime.Now` is an integer number of milliseconds.

Calls into code outside the core are recorded in trace fields, in call order:
- `Enemy.MoveEnemy` in `enemyMoves`;
- `BoardManager.SetupScene` in `setupCalls`, together with the gate and the list as they were at the call;
- starting the `SmoothMovement` coroutine in `movementsStarted`;
- `OnCantMove` in `cantMoveCalls`;
- each linecast in `probes`, with the state of the unit's own collider during the probe.

C# `int` is unchecked 32-bit arithmetic, so `level++` and `Hits -= dmg` wrap around at the int range. The model says so explicitly through `Wrap32`.

Three facts about the code that the model makes precise:
- **Boss chance.** `Random.Range(1, 10) < 3 && level > 2` is true for 2 of the 9 draws from level 3 on, so the boss chance is 2/9 (`Levels.BossRolls`).
- **Hit points.** The base `LoseHits` does not clamp at zero.
- **Deregistration.** `List.Remove` deletes only the first occurrence, so removing twice equals removing once only for an enemy registered at most once (`EnemyList.RemoveTwice`).

## Model

| member | source | states |
|---|---|---|
| Turns.GameManager.constructor | Assets/Scripts/GameManager.cs:27-61 | Awake: level 1, unpaused, enabled, empty enemy list, then InitGame for level 1. On level 1 there is never a boss, so the title is a beginning thought and the board is set up for (1, no boss) with the gate closed. |
| Turns.GameManager.InitGame | Assets/Scripts/GameManager.cs:117-161 | Closes the setup gate, shows the title card and empties the enemy list. The title is the boss line or the band's thought chosen by the draw. It then makes exactly one SetupScene call with (level, boss flag), made while the gate is closed and the list is empty. Level, pause and enabled are unchanged. |
| Turns.GameManager.OnSceneLoaded | Assets/Scripts/GameManager.cs:73-77 | The level rises by one (wrapping only at the int32 maximum), then the level is re-initialised as InitGame does for the new level. |
| Turns.GameManager.HideLevelImage | Assets/Scripts/GameManager.cs:165-172 | Opens the setup gate and hides the card. Nothing else changes. |
| Turns.GameManager.Update | Assets/Scripts/GameManager.cs:175-181 | When the gate is open and the manager is not paused, one pass over the enemies is appended to the MoveEnemy trace. Otherwise nothing changes. The enemy list, flags and level stay the same. |
| Turns.GameManager.AddEnemyToList | Assets/Scripts/GameManager.cs:183-186 | The enemy is appended at the end. The earlier enemies keep their positions and order, and nothing else changes. |
| Turns.GameManager.RemoveEnemyFromlist | Assets/Scripts/GameManager.cs:188-191 | The first registration of the enemy is removed. An unregistered enemy leaves the list unchanged, and nothing else changes. |
| Turns.GameManager.GameOver | Assets/Scripts/GameManager.cs:194-206 | Paused and disabled, the card is shown, and the text is the game-over message for the current level. The list and level are unchanged. |
| Turns.GameManager.MoveEnemies | Assets/Scripts/GameManager.cs:209-217 | MoveEnemy is called exactly once per registered enemy, in list (registration) order. No field but the trace changes. |
| Turns.GameManager.GetLevel | Assets/Scripts/GameManager.cs:219-222 | Returns the current level, a C# int. |
| Turns.GameOverText | Assets/Scripts/GameManager.cs:197 | The message is "After ", then the level's decimal text, then " levels, you died.". |
| Turns.GameOverTextNamesLevel | Assets/Scripts/GameManager.cs:197 | Two game-over messages are equal only for equal levels: the message identifies the level. |
| Turns.GameOverIsFinal | Assets/Scripts/GameManager.cs:175-206 | After GameOver, no later frame moves an enemy, even after a registration, a scene load and a hidden title card. The manager stays paused and disabled. |
| Turns.PassesKeepOrder | Assets/Scripts/GameManager.cs:175-217 | Two open-gate frames with no registration change visit the enemies twice, both times in the same registration order. |
| Turns.RegisterThenDeregister | Assets/Scripts/GameManager.cs:183-191 | Registering a fresh enemy and then deregistering it restores the enemy list exactly. |
| EnemyList.Append | Assets/Scripts/GameManager.cs:185 | List.Add: the result has the old list as a prefix and the new element last. |
| EnemyList.RemoveFirst | Assets/Scripts/GameManager.cs:190 | List.Remove: an absent element leaves the list unchanged. A present one makes it exactly one shorter. |
| EnemyList.RemoveFirstMultiset | Assets/Scripts/GameManager.cs:190 | Remove takes away exactly one copy of the element, if there is one, and nothing else. |
| EnemyList.RemoveFirstAt | Assets/Scripts/GameManager.cs:190 | When i is the first index holding the enemy, removal deletes exactly the element at i, and every other element keeps its order. |
| EnemyList.AppendThenRemove | Assets/Scripts/GameManager.cs:183-191 | For an enemy not in the list, Remove after Add gives back the original list. |
| EnemyList.RemoveTwice | Assets/Scripts/GameManager.cs:188-191 | For an enemy registered at most once, removing twice gives the same list as removing once. |
| Levels.NoBossEarly | Assets/Scripts/GameManager.cs:130 | No draw makes level 1 or 2 a boss level. |
| Levels.BossRolls | Assets/Scripts/GameManager.cs:130 | Of the draws 1..9 of Random.Range(1, 10), exactly {1, 2} give a boss from level 3 on (2 of 9), and none do before. |
| Levels.BandThoughts | Assets/Scripts/GameManager.cs:79-147 | A non-boss title is drawn from the beginning thoughts iff level <= 10, from the middle thoughts iff 11 <= level <= 19, and from the end thoughts iff level >= 20. These arrays have 10, 9 and 5 entries. |
| Levels.BandMonotone | Assets/Scripts/GameManager.cs:136-147 | A deeper level never draws from an earlier band. |
| Levels.TitleText | Assets/Scripts/GameManager.cs:132-147 | On a boss level the title is the boss line, which overrides the band. Otherwise it is an entry of the level's band array. Its requires is Unity's range for Random.Range(0, Length), and Dafny's index check proves that every such draw is in bounds. |
| Levels.TextRollAlwaysInBounds | Assets/Scripts/GameManager.cs:79-146 | Every band array is nonempty, so Random.Range(0, Length) has a draw to make on every level. |
| Levels.TitleRevealsBoss | Assets/Scripts/GameManager.cs:132-147 | The boss line is shown iff the level is a boss level: it is none of the ordinary thoughts. |
| CSharpInt.Wrap32 | Assets/Scripts/GameManager.cs:75 | Unchecked C# int result: an int32 congruent to the exact value modulo 2^32, equal to it when it fits. |
| CSharpInt.Inc32 | Assets/Scripts/GameManager.cs:75 | level++: one more, except that the int32 maximum wraps to the minimum. |
| CSharpInt.Sub32 | Assets/Scripts/MovingObject.cs:147 | Hits -= dmg: the exact difference when it fits the int range, otherwise that difference shifted by 2^32. |
| CSharpInt.WrapUnique | Assets/Scripts/MovingObject.cs:147 | An int32 congruent to x modulo 2^32 is the wrapped value of x. |
| CSharpInt.SubTwice | Assets/Scripts/MovingObject.cs:145-148 | Two LoseHits-style subtractions equal one wrapped subtraction of both amounts: damage accumulates modulo 2^32. |
| CSharpInt.NatToDecimal | Assets/Scripts/GameManager.cs:197 | Decimal text of a natural number: nonempty, all digits, no leading zero. |
| CSharpInt.IntToDecimal | Assets/Scripts/GameManager.cs:197 | int.ToString as used in the concatenation: digits, with a leading minus sign for a negative level. |
| CSharpInt.DecimalRoundTrip | Assets/Scripts/GameManager.cs:197 | Reading the decimal text back gives the number. |
| CSharpInt.IntToDecimalInjective | Assets/Scripts/GameManager.cs:197 | Different ints have different decimal texts. |
| Moving.MovingObject.constructor | Assets/Scripts/MovingObject.cs:55-66 | After Start the collider is on and the move delay is 0.8 s (800 ms). The hit counters, damage and last-move time have their C# defaults, and there are no probes, movements or OnCantMove calls yet. |
| Moving.MovingObject.Move | Assets/Scripts/MovingObject.cs:68-89 | One linecast from the position to position + (xDir, yDir), made with the own collider off, and the collider is on again afterwards. Returns true iff nothing was hit, and exactly then one movement toward that tile starts. A blocked move starts none. Nothing else changes. |
| Moving.MovingObject.AttemptMove | Assets/Scripts/MovingObject.cs:119-137 | Sets LastMove to now on every call, probes once and starts a movement iff the probe was clear. It calls OnCantMove once with the blocker iff the probe was blocked by an object carrying T. Counters and position are unchanged. |
| Moving.MovingObject.LoseHits | Assets/Scripts/MovingObject.cs:145-148 | Hits drops by exactly dmg (int32 wrap-around, no clamping). MaxHits, Damage and every other field are unchanged. |
| Moving.CantMoveCalls | Assets/Scripts/MovingObject.cs:128-136 | One attempt makes at most one OnCantMove call. It makes one iff the probe was blocked by an object carrying T, and the call receives that blocker. |
| Moving.MovementStarts | Assets/Scripts/MovingObject.cs:81-88 | One attempt starts at most one movement. It starts one iff the probe was clear, toward the probed end tile. |
| Moving.AttemptEffectsExclusive | Assets/Scripts/MovingObject.cs:125-136 | An attempt never both moves and calls OnCantMove. A blocker without T gets neither. |
| Moving.BumpIntoEnemy | Assets/Scripts/MovingObject.cs:119-137 | For any direction, a unit that wants enemies and is blocked by an enemy appends exactly that enemy to its OnCantMove calls. It starts no movement and stamps the time. |

## Left out

- Awake's singleton handling, `DontDestroyOnLoad`, `GetComponent<BoardManager>`, the SpriteManager and PlayerState set-up, the starting inventory and the scene-loaded callback registration are engine plumbing. The model starts from a fresh manager.
- `Invoke("HideLevelImage", levelStartDelay)` is a timed engine callback. `HideLevelImage` is a method the environment calls later, and the delay itself is not modelled.
- `GameObject.Find` and the `levelImage`/`levelText` UI objects appear only as the `levelImageActive` flag and the `levelText` string.
- The engine stops calling `Update` on a disabled component. The model keeps `enabled` as a field and proves that a disabled manager is always paused, which already stops the enemy pass.
- Turns.GameManager.MoveEnemies: takes `Enemy.MoveEnemy` to change nothing in the manager. That excludes registering or deregistering enemies during the pass, and it excludes a call to `GameOver` during the pass, for example from an enemy that kills the player. `MoveEnemy` lives in unseen code. In the source, a changed list would make the index loop skip or repeat enemies. After a mid-pass `GameOver`, the loop would still visit the remaining enemies: `paused` and `enabled` are read only by the next `Update`, not by the loop. The same assumption underlies `Update`'s claim that only the trace changes during a pass.
- `Enemy`, `Player`, `BoardManager` and `PlayerState` are not part of this model. That leaves out the cadence check against `MoveDelay`, combat with weapon and armor modifiers, hit-point clamping, enemy death and deregistration, and board generation. `SetupScene` is only recorded as a call.
- `playersTurn` is declared but never used in the modelled code, so no turn alternation is modelled.
- The `SmoothMovement` coroutine (float interpolation, `Time.deltaTime`, `float.Epsilon`, rigid-body moves and collider offsets) is left out. Only the fact that a movement toward the end tile started is recorded, and `position` is never changed by the model.
- Positions are integer tile coordinates, not Unity's float `Vector2`.
- `Random.Range` is a stateful engine generator. Each draw is a parameter.
- `int.ToString` is modelled as invariant-culture decimal text.
- Enemies are compared by identity, so `List.Remove` uses id equality.
- `SpriteManager.cs` (asset loading and UI construction) and `Weapon.cs` (a data holder whose `Use` assigns to an unseen `Player` field) are not part of this model.
- The `MaxHits`, `Hits`, `Damage`, `LastMove` and `MoveDelay` properties are plain get/set pairs. They are the public fields of the class. Subclass overrides of the virtual `Hits`, `MaxHits` and `LoseHits` live in unseen code.
