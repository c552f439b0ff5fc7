# Base builder simulation core

This project models the simulation of a terminal base-builder game in Dafny.
A player token moves on a 147 x 33 grid and spends gold and elixir on three kinds of structures:

- walls;
- gold mines, which accumulate gold;
- elixir collectors, which accumulate elixir.

Enemies spawn on the edges of the arena, walk greedily toward a town hall and hit what they stand on.
The match is over once the town hall's health falls to 0 or below.

The model follows `Board`, `Enemy`, `ResourceGenerator`, `Building` and `Resources` of `contour.cpp`.
It also covers the second version of `Enemy::update` in `Enemy.cpp`.

Modules, in dependency order:

- `Search`: the "first element that matches" scan. It is a function (`FirstIndex`) and the loop that computes it (`Find`).
- `Geometry`: positions, the building record, the building constants, `takeDamage` and the rectangle-overlap test.
- `Ledger`: the `Resources` class with its guarded debits.
- `Generator`: accumulation and collection for mines and collectors.
- `Structures`:
  - the structures an enemy acts on;
  - handles that stand in for the enemy's `Building*`;
  - the non-overlap invariant;
  - the `remove_if` cleanup with the matching remapping of handles.
- `EnemyAgent`: `Enemy::update` of `contour.cpp`.
- `EnemyVariant`: `Enemy::update` of `Enemy.cpp`.
- `Arena`: the `Board` class, whose methods change the board in place.
  - Its loops live in value-level methods, such as `ActAll`, `CollectFirst` and `UpdateEach`; the direction switch of `tryMovePlayer` is `NextCell`.
  - Each of them is proved against a specification function: `RunEnemies`, `FirstIndex`, `UpdatedAll` or `Destination`.
  - `Board.Valid()` is preserved by every operation. It states:
    - the instance caps hold;
    - no destroyed wall, mine or collector is left in place;
    - stored amounts are multiples of 5 in [0, 100];
    - no two structures overlap;
    - the town hall stays at its fixed place;
    - every enemy target names an existing structure;
    - `gameOver` holds exactly when the town hall's health is at or below 0.

Buildings sit in the C++ vectors by value. So `Building` is a datatype, and the vectors are `seq` fields of the board.
Mutations of one element (`takeDamage`, `update`, `collect`) are functions that return the new value, which the board then writes back in place.

Three behaviours of the code worth noting:

- In `contour.cpp`, an enemy with no target picks the town hall when it stands in the town hall's footprint. The town hall's health is not checked (lines 237-243).
- A held target is hit again on each later action without looking at its health (lines 197-204).
- The match ends when the town hall's health reaches 0 or below (lines 376-378). An enemy standing in the town hall does not end it.

## Model

| member | source | states |
|---|---|---|
| Search.FirstIndex | contour.cpp:206-213 | the result is the index of the first element satisfying the predicate, or None exactly when no element does |
| Search.Find | contour.cpp:206-213 | the scanning loop returns `FirstIndex` of its input |
| Geometry.NewWall | contour.cpp:126-129 | a wall is 1x1, costs 10 gold and 0 elixir, has 100 health and a cap of 200 |
| Geometry.NewGoldMine | contour.cpp:131-134 | a gold mine is 5x5, costs 100 elixir, has 100 health, a cap of 3 and starts empty |
| Geometry.NewElixirCollector | contour.cpp:153-156 | an elixir collector is 5x5, costs 100 gold, has 100 health, a cap of 3 and starts empty |
| Geometry.NewTownHall | contour.cpp:175-178 | the town hall is 5x5, free, has 500 health and a single instance |
| Geometry.TakeDamage | contour.cpp:77 | health drops by exactly the damage and no other field changes |
| Geometry.Colliding | contour.cpp:307-322 | two buildings collide exactly when their x-ranges and their y-ranges both overlap; two buildings with area at the same origin collide |
| Geometry.CollidingIffSharedCell | contour.cpp:307-322 | for positive sizes, two buildings collide exactly when their half-open footprints share a cell |
| Geometry.CollidingSymmetric | contour.cpp:307-322 | the collision test does not depend on argument order |
| Geometry.CollidingByShape | contour.cpp:307-322 | the collision test reads only position and size |
| Geometry.CollisionExamples | contour.cpp:318-321 | two structures on one cell collide; footprints that only touch do not |
| Ledger.Resources.constructor | contour.cpp:23 | the counters start at the given amounts |
| Ledger.Resources.SpendGold | contour.cpp:24-30 | succeeds exactly when gold covers the amount; then debits it, otherwise changes nothing; elixir is untouched |
| Ledger.Resources.SpendElixir | contour.cpp:31-37 | succeeds exactly when elixir covers the amount; then debits it, otherwise changes nothing; gold is untouched |
| Generator.Update | contour.cpp:94-101 | only the stored amount changes: it grows by exactly 5 while below 100, and a full generator is left unchanged |
| Generator.Collect | contour.cpp:103-111 | yields something exactly when full; then yields the whole amount and resets it to 0; otherwise nothing changes |
| Generator.UpdatedFromEmpty | contour.cpp:92-101 | n updates from empty leave min(5n, 100) and change nothing else |
| Generator.FillThenCollect | contour.cpp:94-111 | 20 updates from empty then a collection yield exactly 100 and restore the empty generator; a second collection yields 0 |
| Generator.CollectTwice | contour.cpp:103-111 | a collection right after a collection yields 0 |
| Structures.WithGroup | contour.cpp:264-266 | replaces one kind's sequence and leaves the other kinds and the town hall alone |
| Structures.DamageAt | contour.cpp:198 | damages exactly the named structure by the given amount and changes nothing else |
| Structures.LayoutHasShapes | contour.cpp:77 | damage leaves every position and size as it was |
| Structures.SameLayoutTransitive | contour.cpp:373-379 | successive health-only changes compose into one |
| Structures.ShapeAt | contour.cpp:307-322 | a structure keeps its footprint across shape-preserving changes |
| Structures.SeparatedKept | contour.cpp:307-322 | pairwise non-overlap survives health and amount changes |
| Structures.AddAt | contour.cpp:428 | after a `push_back`, the new index names the added structure and every other handle names what it named before |
| Structures.SeparatedAdd | contour.cpp:334-347 | adding a structure that `CanBuild` accepts keeps all structures pairwise apart |
| Structures.HandleGrows | contour.cpp:428 | a handle that was valid stays valid after a `push_back` and names the same structure |
| Structures.Live | contour.cpp:381-386 | the kept structures all have health above 0 and are no more than the originals |
| Structures.LivePrefix | contour.cpp:381-386 | pruning a prefix gives a prefix of the pruned sequence |
| Structures.LiveIndexSound | contour.cpp:381-386 | a survivor is found, unchanged, at its new index |
| Structures.LiveIndexMonotone | contour.cpp:381-386 | survivors keep their relative order |
| Structures.LiveOrigin | contour.cpp:381-386 | every kept structure is a live one of the original sequence |
| Structures.LiveAllAlive | contour.cpp:381-386 | removal changes nothing when nothing is destroyed |
| Structures.PruneGroup | contour.cpp:381-386 | each kind is pruned independently |
| Structures.Prune | contour.cpp:381-386 | the town hall stays; each kind keeps no more structures than before, and every kept wall, mine and collector has health above 0 |
| Structures.RemapSound | contour.cpp:197-204 | a handle is dropped exactly when its structure was destroyed; otherwise it names the same structure after the cleanup |
| Structures.PruneOrigin | contour.cpp:381-386 | every handle in the pruned state is the remapping of a handle from before |
| Structures.SeparatedPrune | contour.cpp:381-386 | removing structures keeps the survivors pairwise apart |
| EnemyAgent.Spawned | contour.cpp:188-189 | a new enemy stands at the given cell with counter 0 and no target |
| EnemyAgent.ScanBuildings | contour.cpp:206-235 | the first live wall exactly on the cell; else the first live mine whose footprint holds it; else the first such collector; all earlier candidates fail |
| EnemyAgent.Scan | contour.cpp:206-235 | the three scanning loops compute `ScanBuildings` |
| EnemyAgent.Detect | contour.cpp:206-243 | the building scan wins; otherwise the town hall is chosen exactly when its footprint holds the cell |
| EnemyAgent.StepToward | contour.cpp:245-249 | each coordinate moves by at most one and never away from the target; the enemy stays put exactly when it is on the target |
| EnemyAgent.StepTowardCloser | contour.cpp:245-249 | each coordinate distance drops by one or stays at 0; the Chebyshev distance drops by exactly one |
| EnemyAgent.Step | contour.cpp:191-251 | only health values change; held targets stay valid; the town hall's health never rises; the counter stays in [0, 3) |
| EnemyAgent.Update | contour.cpp:191-251 | the imperative update computes `Step` |
| EnemyAgent.Idle | contour.cpp:193-194 | on a call that does not act, only the counter advances |
| EnemyAgent.ThirdCallActs | contour.cpp:193-195 | from counter 0, two calls change nothing else and the third acts |
| EnemyAgent.StickyStrike | contour.cpp:197-204 | with a target, exactly 10 damage goes to it alone; the enemy stays put and drops the target once its health is at or below 0 |
| EnemyAgent.DetectionOnly | contour.cpp:206-243 | without a target, a detected structure is only recorded and nothing is damaged |
| EnemyAgent.WallsFirst | contour.cpp:206-213 | a live wall on the cell is chosen over mines, collectors and the town hall |
| EnemyAgent.Advance | contour.cpp:245-249 | with nothing detected, the enemy takes one step toward the town hall and touches nothing |
| EnemyAgent.ApproachesTownHall | contour.cpp:237-249 | a moving enemy strictly reduces its distance to the town hall's origin |
| EnemyVariant.Step | Enemy.cpp:8-77 | only health changes and the town hall is untouched; "reached" leaves everything but the counter alone; the counter stays in [0, 3) |
| EnemyVariant.Update | Enemy.cpp:8-77 | the imperative update computes `Step` |
| EnemyVariant.Idle | Enemy.cpp:10-11 | on a call that does not act, only the counter advances and nothing is reported |
| EnemyVariant.ReachedIff | Enemy.cpp:17-21 | an acting call reports "reached" exactly when the enemy stands in the town hall and changes nothing but the counter |
| EnemyVariant.StrikeOnDetection | Enemy.cpp:24-65 | the first live structure found takes exactly 10 damage at once; it stays the target only while its health is above 0 |
| EnemyVariant.Advance | Enemy.cpp:68-74 | with nothing found, one step toward the town hall and no damage |
| EnemyVariant.NoStickyTarget | Enemy.cpp:8-77 | the remembered target has no influence on the structures, the flag, the position or the counter |
| EnemyVariant.VersionsDiffer | Enemy.cpp:24-35 | on a live wall with no target, this version hits it at once while contour.cpp only records it |
| Arena.Destination | contour.cpp:399-405 | a destination exists exactly for U, D, L and R; it changes the row by at most one, or the column by exactly two |
| Arena.DestinationInBounds | contour.cpp:397-405 | only U, D, L and R give a destination, and a destination never leaves the playfield |
| Arena.NextCell | contour.cpp:399-405 | the direction switch computes `Destination` |
| Arena.Spawn | contour.cpp:349-370 | at the 30th call, one enemy is appended on the left edge (x = 31) or the right edge (x = 145) at the row; otherwise the enemies are unchanged |
| Arena.Occupied | contour.cpp:324-332 | a cell is occupied exactly when some wall's footprint covers it |
| Arena.UpdatedAll | contour.cpp:511-518 | one update per generator, in place: only stored amounts change, and full generators are left unchanged |
| Arena.TargetKept | contour.cpp:373-379 | health changes keep every held target valid |
| Arena.RunEnemies | contour.cpp:373-379 | enemies act in order, each on what the previous ones left; only health changes; the town hall's health never rises |
| Arena.RunEnemiesOk | contour.cpp:373-379 | the run keeps every target valid and every counter in [0, 3) |
| Arena.RunEnemiesSnoc | contour.cpp:373-374 | one more enemy acts on the structures the earlier run left |
| Arena.ActAll | contour.cpp:373-379 | the loop computes `RunEnemies`; `over` is set exactly when there are enemies and the town hall's health ended at or below 0 |
| Arena.Retarget | contour.cpp:197-204 | after the cleanup, an enemy keeps its position and counter; its target is cleared exactly when its wall, mine or collector was destroyed, and otherwise names the same structure |
| Arena.RetargetAll | contour.cpp:381-386 | every enemy keeps its position and counter, and every target is valid after the cleanup |
| Arena.Cleanup | contour.cpp:381-386 | the enemies keep their number, positions and counters, every target is valid in the pruned structures, and the town hall is unchanged |
| Arena.AmountsKept | contour.cpp:198 | damage keeps stored amounts on the 5-step scale |
| Arena.AmountsOfLive | contour.cpp:383-386 | removal keeps stored amounts on the 5-step scale |
| Arena.AmountOnlyShapes | contour.cpp:94-111 | changing stored amounts keeps footprints and health |
| Arena.SiteKept | contour.cpp:483-518 | collection and accumulation keep the board's structure invariant |
| Arena.SitePruned | contour.cpp:372-387 | damage followed by the cleanup keeps the board's structure invariant |
| Arena.SiteAdd | contour.cpp:413-481 | a placement that passes `CanBuild` and the cap keeps the board's structure invariant |
| Arena.AmountsAfterCollect | contour.cpp:103-111 | emptying one generator changes only that amount and stays on the scale |
| Arena.AmountsAfterUpdate | contour.cpp:511-518 | updating every generator changes only amounts and stays on the scale |
| Arena.CollectFirst | contour.cpp:486-496 | the first full generator under the player is emptied and its yield returned; otherwise nothing changes and the yield is 0 |
| Arena.UpdateEach | contour.cpp:512-514 | every generator is updated once, in place |
| Arena.CollectFirstAmounts | contour.cpp:486-508 | a collection under the scale invariant yields exactly 100 and changes only that amount |
| Arena.CleanupOk | contour.cpp:381-386 | after the cleanup, the structure invariant holds, every remapped target is valid and the town hall is unchanged |
| Arena.EnemyPhase | contour.cpp:372-387 | the enemies act and then the cleanup runs; `over` holds exactly when there are enemies and the town hall's health is at or below 0; invariants are kept |
| Arena.CollectAt | contour.cpp:483-509 | the first full mine and the first full collector under the player are emptied, each yielding 100 or 0 when none exists; invariants are kept |
| Arena.Board.constructor | contour.cpp:390-395 | the player starts at (32, 16) with 400 gold and 400 elixir; the town hall is at (80, 16); all collections are empty and the counter is 0 |
| Arena.Board.IsPositionOccupied | contour.cpp:324-332 | true exactly when some wall collides with the 1x1 probe on the cell |
| Arena.Board.CanBuild | contour.cpp:334-347 | true exactly when the candidate collides with no wall, mine, collector or the town hall |
| Arena.Board.TryMovePlayer | contour.cpp:397-411 | moves exactly when the key is U, D, L or R and no wall is on the destination; the player then stands there, otherwise stays; invariants are kept |
| Arena.Board.EnemiesGrow | contour.cpp:428 | appending a structure keeps every enemy target valid |
| Arena.Board.PlaceWall | contour.cpp:413-433 | succeeds exactly when the wall fits, fewer than 200 exist and the ledger covers its cost; then appends it and debits 10 gold, otherwise nothing changes |
| Arena.Board.PlaceGoldMine | contour.cpp:435-457 | succeeds exactly when the mine centred on the player fits, fewer than 3 exist and elixir covers 100; then appends it and debits 100 elixir, otherwise nothing changes |
| Arena.Board.PlaceElixirCollector | contour.cpp:459-481 | succeeds exactly when the collector centred on the player fits, fewer than 3 exist and gold covers 100; then appends it and debits 100 gold, otherwise nothing changes |
| Arena.Board.CollectResources | contour.cpp:483-509 | the first full mine under the player is emptied for 100 gold and the first full collector for 100 elixir; nothing else changes |
| Arena.Board.Credit | contour.cpp:492-505 | stores the collected generators and adds the yields to the ledger |
| Arena.Board.UpdateResources | contour.cpp:511-518 | every mine and every collector is updated once; invariants are kept |
| Arena.Board.SpawnEnemy | contour.cpp:349-370 | the counter advances and resets at 30, with one new edge enemy when it does |
| Arena.Board.UpdateEnemies | contour.cpp:372-387 | enemies and structures become the cleaned-up run; `gameOver` is set once the town hall's health is at or below 0 after some enemy's turn |
| Arena.Board.Commit | contour.cpp:372-387 | stores the enemy phase's enemies and structures and sets `gameOver` when reported |
| Arena.Board.Update | contour.cpp:520-526 | changes nothing once the match is over; otherwise spawn, then enemies with cleanup, then generators, with the invariants kept |

## Left out

- Rendering, terminal raw mode, input decoding, `main`, the sleep between ticks and the side panel are I/O. They are not part of this model.
- Arena.Board.SpawnEnemy: the random side and row of `spawnEnemy` are parameters (`leftSide`, and `row` in [1, 31]), because randomness is not modelled.
- Arena.Board.IsPositionOccupied: the `ignore` parameter is dropped, because every caller passes `nullptr`. The same holds for `Arena.Board.CanBuild`.
- Arena.RunEnemies: an enemy's `Building*` target is a handle (a kind and an index). The cleanup remaps each handle to the survivor's new index, or clears it when its structure was removed.
  - In C++, a pointer into a vector keeps its address after `erase` or a reallocating `push_back`, so it may then name a different structure or freed memory.
  - That undefined behaviour is not modelled.
- EnemyAgent.Enemy: `isAttacking` is not kept, because it always equals "the target is set". `damage` and `speed` do not change after construction, so they are the constants 10 and 3.
- Geometry.Building: the icons and `hasBorder` affect only drawing and are left out.
- Geometry.Building: the copy-assignment operators of `GoldMine` and `ElixirCollector` copy every field that can differ between two instances, which a datatype value does anyway.
- Arena.Board.CollectResources: the gold and elixir counters are unbounded integers, so a 32-bit overflow after very many collections is not modelled.
- The player's `Resources` is the board's `ledger` field rather than a member of a separate `Player` object. Its position is the board's `player` field.
- The headers behind `Enemy.cpp` are not part of this model. Its `Npc` base is taken to hold the position as `Entity` does in `contour.cpp`.
- `Enemy.cpp`'s enemy is modelled as a single step (`EnemyVariant.Step`). It is not wired into a board, because `Board::updateEnemies` in `contour.cpp` calls the `contour.cpp` enemy.
