# ExileRitualEj spawn/blocker bookkeeping in Dafny

ExileRitualEj is an overlay plugin for a game's Ritual encounters. It watches the entities the host game reports. It tracks monsters carrying the "Gigantism" modifier and records the grid position where each one is confirmed at full life. It also credits every nearby ritual blocker with one more count for each such spawn. This project models that bookkeeping and proves what it does.

The model has three files:

- `ritual_model.dfy` (module `RitualModel`) holds the values. These are the host entity as the plugin reads it, `RitualBlockerInfo`, the constants and the distance tests. It also holds the CombinedLifePct lookup, the three entity categories, and the plugin's state as one value (`TrackerState`) with the transitions `Initial`, `AfterEntityAdded` and `AfterTick`.
- `ritual_plugin.dfy` (module `RitualPlugin`) holds the class `ExileRitualEj`. Its five collections are fields, updated in place by `AreaChange`, `EntityAdded`, `Tick` and `UpdateRitualBlockerCounts`. Each callback is proved to change `State()` exactly as the matching transition says. Each callback also keeps the object invariant `Valid()`, which says no two blockers stand closer than 5 to each other. The loops inside `EntityAdded` and the stat lookup are static methods, each proved against its specification. The body of `Tick`'s loop is the method `ProcessGigantEntity`.
- `ritual_properties.dfy` (module `RitualProperties`) holds the lemmas about the transitions. It also holds a worked session: three blockers, one gigantic spawn, and a late blocker.

Modelling choices:

- Grid positions are integer pairs. `Vector2.Distance(a, b) < 5` becomes `dx*dx + dy*dy < 25`. `Vector2.Distance(a, b) <= 200` becomes `dx*dx + dy*dy <= 40000`.
- The tracked monsters and rune markers are sets of entity ids. The processed ids and spawn positions are sets. The blockers are a sequence of `RitualBlockerInfo` values. Only the plugin's own list refers to them, so incrementing a record's `Count` in place is the same as replacing that element of the list.
- The host's entity objects are live: their validity, liveness, position and stats change between callbacks. `Tick` therefore takes `world`, the host's current record of each entity, by id. The source never tracks a null entity: `_gigantEntities.Add` (ExileRitualEj.cs:217) is reached only when `entity?.IsValid == true` (:190). An id missing from `world` has no counterpart in the source. The model skips such an id and keeps it tracked, which is what the source's null checks at :53 and :84 would do. `Tick` reads `world[id]` only under the key `id` and never looks at `world[id].id`, so it does not need the two to agree.
- A stat dictionary is the sequence of its entries in the host's enumeration order. A missing component or a null dictionary is `None`. A mod list is `None` when the entity has no magic-properties component or its list is null. A single mod may be null too.

What `ExileRitualEj.cs` does, and the model with it:

- Only the CombinedLifePct stat is read (ExileRitualEj.cs:61, :208), with threshold 100 (:68, :215).
- A missing dictionary or entry counts as 100 (:56, :203).
- The blocker range is 200 (:351).
- The plugin keeps no set of positions inside a ritual.
- The blocker path requires the entity to be valid and hostile (:155).
- Only the blocker path returns early (:173, :187). A valid entity whose metadata is the rune identifier (:234) is remembered as a rune even if it was also tracked as a gigantic candidate.

## Model

| member | source | states |
|---|---|---|
| RitualPlugin.ExileRitualEj.constructor | ExileRitualEj.cs:30-34 | All five collections start empty, and the blocker invariant holds |
| RitualPlugin.ExileRitualEj.AreaChange | ExileRitualEj.cs:40-47 | Afterwards all five collections are empty, whatever they held before |
| RitualPlugin.ExileRitualEj.IsNearExistingBlocker | ExileRitualEj.cs:157-169 | The flag is set exactly when some existing blocker lies at distance below 5 from the new position |
| RitualPlugin.ExileRitualEj.TotalCount | ExileRitualEj.cs:176-180 | The result is the sum of the counts of all existing blockers |
| RitualPlugin.ExileRitualEj.LookupCombinedLifePct | ExileRitualEj.cs:55-67 | The result is the value of the first entry whose name contains CombinedLifePct, or 100 when there is no dictionary or no such entry |
| RitualPlugin.ExileRitualEj.EntityAdded | ExileRitualEj.cs:153-238 | The new state is `AfterEntityAdded` of the old one, and no two blockers stand too close |
| RitualPlugin.ExileRitualEj.UpdateRitualBlockerCounts | ExileRitualEj.cs:349-362 | Every blocker within 200 gains exactly 1, every other count stays, and length, order, positions and ids are unchanged; the blockers are spread out afterwards exactly when they were before |
| RitualPlugin.ExileRitualEj.ProcessGigantEntity | ExileRitualEj.cs:53-81 | One loop step records an entity exactly when it is resolved, valid, alive, unprocessed and at full life |
| RitualPlugin.ExileRitualEj.Tick | ExileRitualEj.cs:49-87 | The new state is `AfterTick` of the old one, and the blocker invariant is kept |
| RitualProperties.ContainsSpec | ExileRitualEj.cs:61 | The substring test is true exactly when the pattern occurs at some index of the string |
| RitualProperties.LifeStatFirstMatch | ExileRitualEj.cs:202-214 | When entry i is the first whose name contains CombinedLifePct, the lookup yields entry i's value |
| RitualProperties.LifeStatDefault | ExileRitualEj.cs:203-204 | With no dictionary, or no entry naming CombinedLifePct, the lookup yields 100 |
| RitualProperties.SumCountsAppend | ExileRitualEj.cs:176-180 | Appending a blocker adds its count to the total |
| RitualProperties.BlockerTooCloseRejected | ExileRitualEj.cs:155-174 | A blocker within distance below 5 of an existing one leaves the whole state unchanged |
| RitualProperties.BlockerAcceptedZeroesSum | ExileRitualEj.cs:176-184 | An accepted blocker goes last with count minus the previous total, earlier blockers and other collections are untouched, and the counts then sum to 0 |
| RitualProperties.NonBlockerEntityAdded | ExileRitualEj.cs:190-237 | A non-blocker leaves blockers, spawns and processed ids alone; it is tracked exactly when it is a full-life hostile gigantism candidate, and remembered exactly when it is a valid rune marker |
| RitualProperties.EntityAddedKeepsBlockersSpread | ExileRitualEj.cs:155-184 | If no two blockers stood closer than 5 before an added entity, none do afterwards |
| RitualProperties.TickProcessesExactly | ExileRitualEj.cs:53-73 | An id becomes processed exactly when it is tracked, valid, alive, not yet processed and its stat is at least 100; its position is then recorded |
| RitualProperties.TickDropsDead | ExileRitualEj.cs:84 | After a Tick, no tracked entity is reported dead, every live one is still tracked, and nothing new is tracked |
| RitualProperties.TickIdempotent | ExileRitualEj.cs:49-87 | A second Tick over the same host view changes nothing |
| RitualProperties.NeverProcessedTwice | ExileRitualEj.cs:53 | An id processed by one Tick is not processed by any later Tick, after any sequence of added entities and Ticks before the next area change, so it credits blockers at most once |
| RitualProperties.ProcessedGrows | ExileRitualEj.cs:71 | Along any sequence of added entities and Ticks, the processed ids never shrink |
| RitualProperties.HistoryOnlyGrows | ExileRitualEj.cs:70-71 | Processed ids and spawn positions only grow through Tick and are untouched by EntityAdded |
| RitualProperties.DuplicateSpawnPositionNoOp | ExileRitualEj.cs:70 | Recording spawns only at positions already recorded leaves the position set as it was |
| RitualProperties.DamagedCandidateSkipped | ExileRitualEj.cs:68-80 | A tracked entity with stat below 100 is not processed, changes nothing else, and stays tracked unless dead |
| RitualProperties.SpawnsNearInsert | ExileRitualEj.cs:353-358 | One more spawn adds one to a blocker's credited spawns exactly when it lies within 200 |
| RitualProperties.SingleSpawnCredits | ExileRitualEj.cs:73 | When a Tick processes one entity, each blocker's count rises by 1 exactly when that entity is within 200 |
| RitualProperties.NewlyProcessedMember | ExileRitualEj.cs:53-68 | The entities a Tick processes are exactly the tracked, resolved, valid, alive, unprocessed ones at full life |
| RitualProperties.WithSpawnsStep | ExileRitualEj.cs:70-73 | Processing one more entity adds its position and id and increments exactly the blockers within its range |
| RitualProperties.TickKeepsBlockersSpread | ExileRitualEj.cs:349-362 | A Tick moves no blocker, so no two blockers become too close |
| RitualProperties.ExampleFirstBlocker | ExileRitualEj.cs:176-184 | The first blocker of an area starts at count 0 |
| RitualProperties.ExampleSecondBlocker | ExileRitualEj.cs:155-184 | A second blocker 100 away from the first is accepted and starts at 0 |
| RitualProperties.ExampleThirdBlocker | ExileRitualEj.cs:155-184 | A third blocker far from both is accepted and starts at 0 |
| RitualProperties.ExampleMonsterTracked | ExileRitualEj.cs:190-217 | A valid hostile monster with the gigantism mod and no stats dictionary is tracked |
| RitualProperties.ExampleMonsterProcessed | ExileRitualEj.cs:53-68 | The next Tick processes that monster and nothing else |
| RitualProperties.ExampleSpawnCreditsNearBlockers | ExileRitualEj.cs:68-73 | Its spawn at (50,0) credits the blockers at (0,0) and (100,0) but not the one at (1000,0) |
| RitualProperties.ExampleLateBlockerOffsets | ExileRitualEj.cs:176-184 | A blocker seen after that spawn starts at -2, minus the total of the others |

## Left out

- Drawing (`Render`, the circle and text helpers, `IsPositionOnScreen`, `DrawRitualBlockerCounts`), the separate renderer and the settings holder are left out. They are camera projection and float trigonometry over host graphics calls and make no decision about the tracked state.
- Logging (`LogMessage`, `LogError`) is left out.
- Exceptions are not modelled. In `EntityAdded`, a mod or stat read that throws inside the `try` (ExileRitualEj.cs:192-231) skips the candidate check, and the entity is not tracked. The model's `mods = None` gives that outcome for a failing mod read. `stats = None` stands for a missing dictionary, which counts as 100, so the entity is tracked. A throwing stat read has no counterpart.
- The stat read inside `Tick` (ExileRitualEj.cs:55-67) is outside any `try`. A throw there would end `Tick` before the dead entities are removed (:84). The model assumes the host's reads do not throw, so its `Tick` always finishes.
- `Initialise` and the `Job` value returned by `Tick` are host lifecycle plumbing.
- Host entity internals are abstract inputs: components, `DistancePlayer`, world/grid conversion.
- Float `Vector2` arithmetic is not modelled. Positions are integer grid points and distances are compared on squares.
- Blocker counts are unbounded integers. A new blocker starts at minus the sum of the other counts (ExileRitualEj.cs:176-183), and each spawn adds 1 to every blocker within range (:353-358). With k blockers in range, a blocker added after S spawns starts near -k*S, so the source's 32-bit `int` would wrap only after about 2^31/k spawns in one area.
- Entity identity is the id. The source's sets hold entity references, and the host gives one object per id within an area.
- The HashSet enumeration order in `Tick` is not modelled. The loop visits the tracked ids in an arbitrary order, and the result is proved to be the same for every order.
