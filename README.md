# Turn-based system and grate, modelled in Dafny

This project models the turn clock of a turn-based maze game, written in C# for Unity:

- `TurnBasedSystem` counts turns by type (Player, AI, Event).
- Player and AI turns switch whose turn it is and set or clear the "AOE fear" flag.
- After every counted turn it shows the number of turns left.
- After every turn it also reaps two registries of skills that expire after a number of player turns.
  - An expired barrier clears its wall in the maze's internal wall table and is deactivated.
  - An expired area-of-effect (AOE) object is destroyed.
- `ROUND_CHECK` ends the game when the configured limit is reached on a player turn.

The model also covers the grate (`Grate`), which lets a liquid or gaseous player through and holds up a solid one.

Files:

- `TurnClock.dfy` (module `TurnClock`) holds the turn clock as a value.
  - `Advance` is one ADD_TURN on the counters.
  - `Run` is a sequence of ADD_TURN calls.
  - The lemmas say what any run of turns does: exact counts, whose turn it is, the display value, and the round limit.
- `ListOps.dfy` (module `ListOps`) holds the .NET list operations the system uses.
  - `RemoveFirst` is `List<T>.Remove`.
  - `RemoveEachInOrder` is the `foreach … Remove` loop.
  - The lemmas show that on a list without duplicates this loop is the same as filtering.
- `TurnSystem.dfy` (module `TurnSystem`) holds the stateful part.
  - `TurnBasedSystem` is a class whose fields are the source's fields, with AddTurn written as the same sequence of loops.
  - `DestroyAfterRounds` is a class whose reference identity is what `List.Remove` compares.
  - `MazeGenerator` and `GameManager` are reduced to the one piece of state each call touches.
  - The pure filters `Fired` and `Kept` say what a single reap pass does.
- `RegistryRuns.dfy` (module `RegistryRuns`) looks at many reap passes in a row.
  - It shows which entries fire, and when.
  - It shows that an entry registered with a positive lifetime is never stranded, because ADD_TURN reaps on every turn.
- `Grate.dfy` (module `Grate`) holds the grate.
  - `Apply` is the pure rule UpdateCollider follows.
  - A `Grate` class keeps the two settings it changes, with the three trigger handlers.

## Model

| member | source | states |
|---|---|---|
| TurnClock.Advance | TurnBasedSystem.cs:108-139 | one ADD_TURN raises the total and the counter of the turn's own type by one and leaves the other counters alone; a Player or AI turn becomes the current turn and sets the AOE-fear flag (raised exactly for AI), while Event and NeverSet turns leave both as they were |
| TurnClock.TurnCount | TurnBasedSystem.cs:72-97 | GET_TURN_COUNT gives the total when the argument is left at its default; on a clock with no negative counter and a total at least their sum, no count it reports exceeds the total |
| TurnClock.TurnsLeft | TurnBasedSystem.cs:142 | for a non-negative limit, the displayed value plus the AI turns taken is half the limit rounded down, so the value is negative exactly when the AI has taken more than half the limit's turns |
| TurnClock.RoundLimitReached | TurnBasedSystem.cs:178 | the lose condition holds only when the total equals the limit, and never on the AI's turn |
| TurnClock.RunCounts | TurnBasedSystem.cs:106-139 | after any sequence of added turns, the total has grown by the number of turns and each of the Player, AI and Event counters by the number of turns of its type |
| TurnClock.RunNeverDecreases | TurnBasedSystem.cs:108-139 | every ADD_TURN raises the total by exactly one whatever the type, and no counter ever decreases |
| TurnClock.RunBalanced | TurnBasedSystem.cs:108-139 | starting balanced, the total is the sum of the Player, AI and Event counters exactly when no NeverSet turn was added, and never less than that sum |
| TurnClock.RunTurnCount | TurnBasedSystem.cs:73-97 | GET_TURN_COUNT after a run reports the number of turns of the requested type, and the total when the argument is left at its default |
| TurnClock.RunInactive | TurnBasedSystem.cs:128-137 | Event and NeverSet turns change neither the current turn nor the AOE-fear flag |
| TurnClock.RunWhoseTurn | TurnBasedSystem.cs:50-60 | the current turn, IS_AI_TURN, IS_PLAYER_TURN and the AOE-fear flag are all decided by the last Player or AI turn of a run; the flag is raised exactly when that turn was an AI turn |
| TurnClock.HalfTowardZero | TurnBasedSystem.cs:142 | `roundsUntilDefeat/2` truncates toward zero, as C# integer division does, for negative limits too |
| TurnClock.TurnsLeftAfterRun | TurnBasedSystem.cs:142 | the displayed turns-left value falls by one per AI turn and by nothing else; from the start it goes negative once the AI turns exceed half the limit (it is not clamped) |
| TurnClock.RoundLimitAtMostOnce | TurnBasedSystem.cs:176-181 | checked after every turn of a run from the start, the lose condition can hold only after the turn that makes the total equal the limit |
| TurnClock.SummonOpeningScenario | TurnBasedSystem.cs:176-181 | with the default limit 10, alternating AI and Player turns lose on the tenth turn and on no earlier one; Player-first alternation never loses within ten turns |
| ListOps.RemoveFirst | TurnBasedSystem.cs:156 | `List.Remove` leaves a list without the element unchanged and otherwise shortens it by one |
| ListOps.RemoveFirstMultiset | TurnBasedSystem.cs:156 | `List.Remove` takes away one occurrence of the element and keeps every other element |
| ListOps.RemoveEachInOrder | TurnBasedSystem.cs:154-157 | the removal loop removes the ready elements one by one, in the ready list's order |
| ListOps.RemoveEachIsWithout | TurnBasedSystem.cs:154-157 | on a list without duplicates, removing each ready element in turn is the same as filtering out all of them |
| ListOps.RemoveFirstIsWithout | TurnBasedSystem.cs:156 | on a list without duplicates, `Remove` is the same as filtering the element out |
| ListOps.WithoutMembers | TurnBasedSystem.cs:154-157 | filtering keeps exactly the elements outside the removed set |
| ListOps.WithoutKeepsNoDup | TurnBasedSystem.cs:154-157 | filtering a list without duplicates leaves a list without duplicates |
| ListOps.WithoutWithout | TurnBasedSystem.cs:154-157 | filtering by one set and then another is filtering by their union |
| TurnSystem.FiredMembers | TurnBasedSystem.cs:242-251 | a scan fires exactly the pending entries whose expiry round equals the current player-turn count |
| TurnSystem.KeptMembers | TurnBasedSystem.cs:149-167 | a reap keeps exactly the pending entries whose expiry round differs from the current player-turn count |
| TurnSystem.ReapPartition | TurnBasedSystem.cs:149-167 | every pending entry is either fired or kept by a reap, none is both, and none is lost |
| TurnSystem.ClearWallsEffect | TurnBasedSystem.cs:246-247 | clearing the walls of fired barriers sets each of their wall-table entries to "not present" and leaves every other entry as it was |
| TurnSystem.Reaped | TurnBasedSystem.cs:149-157 | removing every ready entry (older ones and those just fired) from the pending list leaves exactly the entries that do not expire now, in their order |
| TurnSystem.ReapKeepsRegistered | TurnBasedSystem.cs:149-167 | after a reap, the pending list still has no duplicates and shares no entry with the grown ready list |
| TurnSystem.ReapKeepsAllAhead | TurnBasedSystem.cs:108-167 | if every pending entry expires later than the current count and the count moves by at most one, this still holds after the reap; when the count did not move, nothing fires |
| TurnSystem.BarrierStep | TurnBasedSystem.cs:242-251 | scanning one more barrier extends the fired list, clears its wall and deactivates its object exactly when it expires now |
| TurnSystem.AoeStep | TurnBasedSystem.cs:258-265 | scanning one more AOE extends the fired list and destroys its object exactly when it expires now |
| TurnSystem.FiredSnoc | TurnBasedSystem.cs:149-152 | scanning one more entry extends the fired list by that entry exactly when it expires now |
| TurnSystem.WithoutIsKept | TurnBasedSystem.cs:154-157 | filtering out a set that holds exactly the expiring entries leaves the kept entries |
| TurnSystem.MazeGenerator.SetWallInternalState | TurnBasedSystem.cs:247 | the wall table records the new value for that cell and direction; no other entry changes |
| TurnSystem.GameManager.Lose | TurnBasedSystem.cs:180 | the lose reason is recorded |
| TurnSystem.TurnBasedSystem.constructor | TurnBasedSystem.cs:16-40 | all counters start at zero, the limit defaults to 10, all four lists start empty, and the current turn starts as Player |
| TurnSystem.TurnBasedSystem.Start | TurnBasedSystem.cs:43-48 | shows the turns left and makes it the player's turn, leaving everything else as it was |
| TurnSystem.TurnBasedSystem.IsAiTurn | TurnBasedSystem.cs:51-54 | true exactly when the current turn is AI |
| TurnSystem.TurnBasedSystem.IsPlayerTurn | TurnBasedSystem.cs:57-60 | true exactly when the current turn is Player |
| TurnSystem.TurnBasedSystem.GetTurnCount | TurnBasedSystem.cs:73-97 | returns the counter of the requested type, and the total by default |
| TurnSystem.TurnBasedSystem.AddTurn | TurnBasedSystem.cs:106-169 | the clock moves by exactly `Advance`. Each pending list becomes its kept entries; each ready list grows by its fired entries, in order. Fired barriers' walls are cleared and their objects deactivated, and fired AOEs' objects are destroyed. The invariants (no duplicates, pending disjoint from ready, counters sane) and "no entry has been skipped" are preserved |
| TurnSystem.TurnBasedSystem.CountTurn | TurnBasedSystem.cs:108-142 | the total rises by one. A Player turn clears the fear flag, makes it the player's turn and raises the player count. An AI turn raises the flag, makes it the AI's turn and raises the AI count. An Event turn raises only the event count. Then the display is updated |
| TurnSystem.TurnBasedSystem.Reap | TurnBasedSystem.cs:149-167 | both registries are reaped against the current player-turn count, barriers first |
| TurnSystem.TurnBasedSystem.ReapBarriers | TurnBasedSystem.cs:149-157 | the scan of the barrier list followed by the removal loop leaves the kept barriers pending and the fired ones ready |
| TurnSystem.TurnBasedSystem.FireBarriers | TurnBasedSystem.cs:149-152 | each pending barrier checks itself in list order; exactly the expiring ones are added to the ready list, have their walls cleared and are deactivated |
| TurnSystem.TurnBasedSystem.ReapAOEs | TurnBasedSystem.cs:159-167 | the scan of the AOE list followed by the removal loop leaves the kept AOEs pending and the fired ones ready |
| TurnSystem.TurnBasedSystem.FireAOEs | TurnBasedSystem.cs:159-162 | each pending AOE checks itself in list order; exactly the expiring ones are added to the ready list and destroyed |
| TurnSystem.TurnBasedSystem.RoundCheck | TurnBasedSystem.cs:176-181 | the game manager is asked to lose with "Summon opening missed" exactly when the total equals the limit on a player turn, and is not called otherwise |
| TurnSystem.DestroyAfterRounds.Barrier | TurnBasedSystem.cs:212-218 | the barrier expires on the current player count plus its lifetime and is appended to the pending barriers; with a positive lifetime nothing pending has been skipped |
| TurnSystem.DestroyAfterRounds.Aoe | TurnBasedSystem.cs:230-235 | the AOE expires on the current player count plus its lifetime and is appended to the pending AOEs; with a positive lifetime nothing pending has been skipped |
| TurnSystem.DestroyAfterRounds.Wall | TurnBasedSystem.cs:246-247 | the wall-table entry a barrier clears is the one at the cell of its object, for its own wall type |
| TurnSystem.DestroyAfterRounds.CheckBarrierDestroy | TurnBasedSystem.cs:242-251 | on its round the barrier clears its wall, is deactivated and marks itself ready; on any other round nothing changes |
| TurnSystem.DestroyAfterRounds.CheckAOEDestroy | TurnBasedSystem.cs:258-265 | on its round the AOE marks itself ready and is destroyed; on any other round nothing changes |
| RegistryRuns.PendingAfterMembers | TurnBasedSystem.cs:149-167 | after a run of reaps, an entry is still pending exactly when no reap ran at its expiry round |
| RegistryRuns.FiresWhenDue | TurnBasedSystem.cs:244 | an entry fires at the first reap held at its expiry round |
| RegistryRuns.FiresAtMostOnce | TurnBasedSystem.cs:149-167 | an entry that has fired never fires again |
| RegistryRuns.NoCountSkipped | TurnBasedSystem.cs:106-116 | when ADD_TURN reaps on every turn, the player count passes through every value between its start and its end |
| RegistryRuns.NothingStranded | TurnBasedSystem.cs:212-218 | an entry registered with a positive lifetime has been fired once the player count reaches its round |
| RegistryRuns.StrandedStaysPending | TurnBasedSystem.cs:244 | an entry whose round the count has already passed (a negative lifetime, or a lifetime of zero followed by a Player turn) is never fired and stays pending |
| Grate.PassabilityFor | Grate.cs:52-61 | collisions are ignored exactly when the state is not solid; the layer is 2 then and 0 otherwise |
| Grate.Apply | Grate.cs:41-62 | with no state holder or no collider nothing changes; otherwise the grate is set by the state alone |
| Grate.ApplyIdempotent | Grate.cs:41-62 | running the update twice on the same player gives the same grate as running it once |
| Grate.RepeatedEventsSettle | Grate.cs:71-101 | any number of events seeing the same player leave the grate as one does |
| Grate.ApplyForgetsHistory | Grate.cs:52-61 | when a state is present, the outcome does not depend on the grate's earlier setting |
| Grate.ApplyAllAbsent | Grate.cs:43-46 | events without a state holder or collider never change the grate |
| Grate.LastPresentDecides | Grate.cs:71-101 | after any sequence of enter, stay and exit events, the grate is set by the last one that saw a player state |
| Grate.Grate.Observe | Grate.cs:43-46 | an update sees no holder exactly when the state holder is missing, sees a state exactly when the holder's object has a collider, and that state is the holder's current one |
| Grate.Grate.UpdateCollider | Grate.cs:41-62 | the early returns leave the grate unchanged; otherwise the ignore flag is set exactly when the player is not solid, and the layer follows it |
| Grate.Grate.OnTriggerEnter2D | Grate.cs:71-74 | same effect as UpdateCollider |
| Grate.Grate.OnTriggerStay2D | Grate.cs:85-88 | same effect as UpdateCollider |
| Grate.Grate.OnTriggerExit2D | Grate.cs:98-101 | same effect as UpdateCollider |
| Grate.LiquidToSolidWhileInside | Grate.cs:79-88 | a liquid player who turns solid while inside re-enables collision and the detectable layer through a stay event alone |

## Left out

- The "Turns Left: N" text label. The model keeps the number N as the field `turnsLeft`, not the string.
- Unity's `SetActive(false)` and `Destroy`. They become the ghost sets `deactivated` and `destroyed` of scene objects.
- `GetComponentInParent<MazeCellObject>()` and the cell's coordinate getters. A `GameObject` carries the coordinates of its maze cell instead.
- The static singleton `S`. An explicit `TurnBasedSystem` object is passed where the source reads `S`.
- `MazeGenerator.Instance` is a field of the system.
- `GameManager.Instance` is a field of the system; its `Lose` is reduced to recording the reason.
- `ResetAOEFear` and `TriggerAOEFear` are not part of this model. Their effect is the flag `aoeFear`, cleared on Player turns and raised on AI turns. The flag's starting value is not visible in the source; the model assumes it starts cleared.
- The counters are unbounded integers, so 32-bit overflow of C# `int` is not modelled.
- `Physics2D.IgnoreCollision` acts on a pair of colliders. The model keeps one flag for the pair of the player's collider and the grate's collider.
- `GameObject.layer` becomes the integer `parentLayer`.
- The handlers' unused collider argument is not modelled.
- The grate's `OnInit` and its `PhysInteraction` base class are not part of this model. They only look up the collider and the parent object.
- `PlayerStateHandler` is reduced to its state and to whether its object has a collider.
- Three places where the source text does not compile are modelled as evidently intended:
  - The Event case of GET_TURN_COUNT (TurnBasedSystem.cs:87-90) opens a second brace after its `return S.eventTurnCount;` where it should close the first. `TurnCount` returns the Event counter, which is what line 89 returns.
  - `IS_AI_TURN` and `IS_PLAYER_TURN` (TurnBasedSystem.cs:51-60) are static but read the instance field `currentTurn` (TurnBasedSystem.cs:16) without an instance.
  - `ADD_TURN` is static but assigns the instance field `currentTurn` without an instance (TurnBasedSystem.cs:115, 123), and `ROUND_CHECK` calls `IsPlayerTurn()`, which does not exist (TurnBasedSystem.cs:178). The model uses the one system object's field and its IS_PLAYER_TURN query.
- The total need not equal the sum of the three counters: a NeverSet turn raises only the total (TurnBasedSystem.cs:108, 134-137). `TurnClock.RunBalanced` states both directions.
- Reaping runs inside every ADD_TURN (TurnBasedSystem.cs:149-167), so no reap is ever skipped. What strands an entry is its lifetime. A negative lifetime puts its round below the player-turn count at creation, and the count never falls. A lifetime of exactly zero strands it only when the next ADD_TURN is a Player turn; after an AI or Event turn the entry fires on that ADD_TURN (TurnBasedSystem.cs:244). `RegistryRuns.NothingStranded` and `RegistryRuns.StrandedStaysPending` state both sides, and the model keeps the source's equality test.
- The ready lists are never cleared in the source, so they only grow. The model keeps this.
- The second constructor of `DestroyAfterRounds` leaves `wallType` at its default. The model sets it to 0, the default of the enumeration.
