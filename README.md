# ConquerQuest core, modelled in Dafny

ConquerQuest is a browser survival game: a React/PixiJS client and a Spring
Boot server that runs an entity-component-system (ECS) world on a fixed tick.
This project models, in Dafny, the code of both sides that decides where
players are, what they may do and what is sent between the client and the
server, and proves what that code promises.

The **server** side:
- the entity-component store (`WorldStates`) and its component records (`Components`);
- the systems run on each tick: player control with dashes (`PlayerControlSystem`), axis-separated movement against the tile grid (`PhysicsSystem`) and hunger, thirst and cold (`SurvivalSystem`);
- the authoritative 50 x 50 world map and its generation (`WorldMapService`, with the shared tile vocabulary in `Tiles`);
- a player's input record (`InputComponents`), item catalogue (`ItemTypes`), inventory slots and inventory (`InventorySlots`, `InventoryComponents`) and the inventory commands (`InventoryServices`);
- the session table that gives each user at most one live entity (`PlayerLifeCycle`);
- the outbound snapshots with their send-on-change statistics cache (`SnapshotService`);
- the action parsing and guest-name default of the socket controller (`GameSocketController`).

The **client** side:
- keyboard state (`InputSystem`);
- predicted local movement with its dash timers and input broadcast (`MovementSystem`);
- reconciliation with server snapshots and the table of remote players (`NetworkSyncSystem`);
- the camera (`CameraSystem`);
- the tile-grid physics over the grid the server sends (`MapPhysics`);
- the older client-generated map (`LegacyMap`);
- the local player's position and dash flag (`ClientPlayer`).

`MapAgreement` proves that the client's collision and terrain answers equal
the server's on the same grid. The two movement rules themselves differ (see
"Left out"), so this is not a claim that a predicted move is the server's.

Modelling conventions:
- Pure code is written as functions and lemmas.
- Objects whose fields the source updates are classes: the store, the inventory, input components, services and client systems. Their methods carry `modifies` clauses and are proved against specification functions.
- Arrays the source fills in place stay arrays: the map grids and the inventory slots.
- Coordinates and timers are `real`. Java's 32-bit `int` arithmetic and `(int)` casts are written out (`Common.Wrap32`, `Common.JavaIntCast`).
- A JavaScript NaN is an explicit variant where the code tests for it.
- `Math.random()`, `java.util.Random`, `UUID.randomUUID()`, the clock and the screen size are parameters.
- Messages sent to players and to the server are appended to an `outbox` or `effects` sequence.

## Model

| member | source | states |
|---|---|---|
| Common.Wrap32 | backend/src/main/java/com/conquerquest/backend/core/components/InventorySlot.java:17-23 | the result of Java int arithmetic is the unique 32-bit value congruent to the exact result, and the exact result itself when it fits |
| Common.JavaIntCast | backend/src/main/java/com/conquerquest/backend/core/services/WorldMapService.java:108-109 | Java's (int) cast of a float truncates toward zero inside the int range and saturates at its bounds outside it |
| Common.TruncTowardZero | backend/src/main/java/com/conquerquest/backend/core/services/WorldMapService.java:108-109 | truncation toward zero: the integer part, rounded toward zero, for both signs |
| Common.Upper | backend/src/main/java/com/conquerquest/backend/core/systems/ItemType.java:13 | toUpperCase maps each ASCII lower-case letter to its capital and keeps every other character, keeping the length |
| Common.Lower | frontend/src/game/systems/InputSystem.js:47 | toLowerCase maps each ASCII capital to its lower-case letter and keeps every other character, keeping the length |
| Common.UpperOfLower | backend/src/main/java/com/conquerquest/backend/infra/socket/GameSocketController.java:130 | upper-casing ignores the case of its input: upper-casing a lower-cased string gives the same result as upper-casing the string |
| Common.LowerOfUpper | frontend/src/game/systems/InputSystem.js:47 | lower-casing ignores the case of its input |
| ItemTypes.ValueOf | backend/src/main/java/com/conquerquest/backend/core/systems/ItemType.java:3-9 | `valueOf` finds a constant exactly when the name is exactly one of the five constants' names, and then the constant with that name |
| ItemTypes.FromString | backend/src/main/java/com/conquerquest/backend/core/systems/ItemType.java:11-17 | a `null` argument gives `null`; otherwise the item is the constant whose name is the upper-cased text, and `null` when there is none |
| ItemTypes.FromStringOfName | backend/src/main/java/com/conquerquest/backend/core/systems/ItemType.java:11-17 | every constant parses back from its own name |
| ItemTypes.FromStringIgnoresCase | backend/src/main/java/com/conquerquest/backend/core/systems/ItemType.java:13 | the parse gives the same answer for a text, its lower-cased form and its upper-cased form |
| ItemTypes.LowercaseNamesParse | backend/src/main/java/com/conquerquest/backend/core/systems/ItemType.java:13 | a constant's name written in lower case parses to that constant |
| InventorySlots.AddThenRemoveRestores | backend/src/main/java/com/conquerquest/backend/core/components/InventorySlot.java:17-23 | adding and then removing the same amount gives back the original int quantity, wrap-around included |
| InventorySlots.CongruentInt32Equal | backend/src/main/java/com/conquerquest/backend/core/components/InventorySlot.java:17-23 | two int values that agree modulo 2^32 are equal, which is what makes the wrapped add and remove inverse |
| InventorySlots.InventorySlot.constructor | backend/src/main/java/com/conquerquest/backend/core/components/InventorySlot.java:11-14 | the slot holds the given item and quantity |
| InventorySlots.InventorySlot.AddQuantity | backend/src/main/java/com/conquerquest/backend/core/components/InventorySlot.java:17-19 | the quantity becomes the 32-bit wrapped sum; the item is unchanged |
| InventorySlots.InventorySlot.RemoveQuantity | backend/src/main/java/com/conquerquest/backend/core/components/InventorySlot.java:21-23 | the quantity becomes the 32-bit wrapped difference, which may be negative; the item is unchanged |
| InventoryComponents.First | backend/src/main/java/com/conquerquest/backend/core/components/InventoryComponent.java:22-30 | the index found is the first slot meeting the test, and there is none exactly when no slot meets it (the search both loops of `addItem` make) |
| InventoryComponents.EmptyContents | backend/src/main/java/com/conquerquest/backend/core/components/InventoryComponent.java:15-18 | `capacity` slots, every one of them empty |
| InventoryComponents.AddStacksOnFirstMatch | backend/src/main/java/com/conquerquest/backend/core/components/InventoryComponent.java:22-30 | when some slot holds the item, the quantity is added (wrapped, no stack limit) to the first such slot, the add succeeds and no other slot changes |
| InventoryComponents.AddFillsFirstEmpty | backend/src/main/java/com/conquerquest/backend/core/components/InventoryComponent.java:33-38 | when no slot holds the item, a new stack goes into the first empty slot and no other slot changes |
| InventoryComponents.AddFailsOnlyWhenFull | backend/src/main/java/com/conquerquest/backend/core/components/InventoryComponent.java:40 | the add fails exactly when every slot is occupied by some other item, and a failed add changes nothing |
| InventoryComponents.AddKeepsOtherItems | backend/src/main/java/com/conquerquest/backend/core/components/InventoryComponent.java:20-41 | the number of slots never changes, and slots holding other items are never touched |
| InventoryComponents.AddKeepsItemsUnique | backend/src/main/java/com/conquerquest/backend/core/components/InventoryComponent.java:20-41 | if no item occupied two slots before, none does after an add, because stacking is tried before filling |
| InventoryComponents.SwapExchangesExactlyTwo | backend/src/main/java/com/conquerquest/backend/core/components/InventoryComponent.java:43-53 | the swap succeeds exactly for two distinct in-range indices; it then exchanges those two slots and nothing else, and otherwise changes nothing |
| InventoryComponents.SwapTwiceRestores | backend/src/main/java/com/conquerquest/backend/core/components/InventoryComponent.java:48-50 | swapping the same two slots twice gives back the original inventory |
| InventoryComponents.SwapIsPermutation | backend/src/main/java/com/conquerquest/backend/core/components/InventoryComponent.java:48-50 | a swap only rearranges: the multiset of slot values is unchanged |
| InventoryComponents.InventoryComponent.constructor | backend/src/main/java/com/conquerquest/backend/core/components/InventoryComponent.java:15-18 | a new slot array of `capacity` empty slots |
| InventoryComponents.InventoryComponent.StackOnto | backend/src/main/java/com/conquerquest/backend/core/components/InventoryComponent.java:27 | the stacking step: slot `i` keeps its item and its quantity grows by the wrapped sum; the other slots are unchanged |
| InventoryComponents.InventoryComponent.PlaceNew | backend/src/main/java/com/conquerquest/backend/core/components/InventoryComponent.java:35 | the filling step: a new slot object holding the item and quantity goes into empty slot `i`; the other slots are unchanged |
| InventoryComponents.InventoryComponent.AddItem | backend/src/main/java/com/conquerquest/backend/core/components/InventoryComponent.java:20-41 | the slots and the result are those of the add rule (stack on the first match, else fill the first empty slot, else fail); the slot objects stay distinct and in the view |
| InventoryComponents.InventoryComponent.SwapItems | backend/src/main/java/com/conquerquest/backend/core/components/InventoryComponent.java:43-53 | the slots and the result are those of the swap rule: a refusal for bad or equal indices, else the two slots are exchanged |
| InventoryComponents.InventoryComponent.GetSlot | backend/src/main/java/com/conquerquest/backend/core/components/InventoryComponent.java:55-59 | `null` exactly for an index out of range or an empty slot; otherwise the slot object, whose item and quantity are those of the view |
| InventoryComponents.InventoryComponent.Clear | backend/src/main/java/com/conquerquest/backend/core/components/InventoryComponent.java:62-66 | every slot becomes empty; the capacity stays |
| InventoryServices.InventoryOf | backend/src/main/java/com/conquerquest/backend/core/services/InventoryService.java:20 | the entity's inventory is found exactly when the entity exists and holds an inventory component, and is that component |
| InventoryServices.UpdatesFor | backend/src/main/java/com/conquerquest/backend/core/services/InventoryService.java:50-54 | at most one push: exactly one, to the user on the entity's player tag, when the entity is tagged, and none otherwise |
| InventoryServices.InventoryService.constructor | backend/src/main/java/com/conquerquest/backend/core/services/InventoryService.java:14-17 | the service works on the given world state and has pushed nothing |
| InventoryServices.InventoryService.AddItem | backend/src/main/java/com/conquerquest/backend/core/services/InventoryService.java:19-36 | nothing happens without an inventory or for an unknown item name; otherwise the contents become the result of the inventory's add rule, and the owner is sent one update exactly when the add succeeded and the entity is tagged |
| InventoryServices.InventoryService.MoveItem | backend/src/main/java/com/conquerquest/backend/core/services/InventoryService.java:38-47 | nothing happens without an inventory; otherwise the contents become the result of the swap rule, and the owner is sent one update exactly when the swap succeeded and the entity is tagged |
| InventoryServices.InventoryService.SendUpdate | backend/src/main/java/com/conquerquest/backend/core/services/InventoryService.java:50-54 | one update, carrying the inventory, goes to the tagged user, and none for an untagged entity |
| InputComponents.NewInput | backend/src/main/java/com/conquerquest/backend/core/components/InputComponent.java:21-33 | the new record holds the given axes, facing, sprint flag and aim point; its pending triggers are the initial actions, or none when that set is `null` |
| InputComponents.ConsumeFiresOnce | backend/src/main/java/com/conquerquest/backend/core/components/InputComponent.java:57-59 | consuming reports a trigger exactly when it was pending and removes just that trigger; a second consume right after reports nothing; other triggers and the movement fields stay |
| InputComponents.AddedTriggerIsConsumed | backend/src/main/java/com/conquerquest/backend/core/components/InputComponent.java:73-75 | after `addTrigger(t)` the next consume of `t` succeeds and leaves the triggers pending before, minus `t` |
| InputComponents.MovementKeepsTriggers | backend/src/main/java/com/conquerquest/backend/core/components/InputComponent.java:65-71 | a movement update replaces axes, facing and sprint flag, and keeps the pending triggers and the aim point |
| InputComponents.InputComponent.constructor | backend/src/main/java/com/conquerquest/backend/core/components/InputComponent.java:21-33 | the object's value is that of the constructor rule, `null` initial actions included |
| InputComponents.InputComponent.TryConsumeAction | backend/src/main/java/com/conquerquest/backend/core/components/InputComponent.java:57-59 | the new value and the result are those of the consume rule |
| InputComponents.InputComponent.HasPendingAction | backend/src/main/java/com/conquerquest/backend/core/components/InputComponent.java:61-63 | true exactly when a consume would report the trigger, without consuming it |
| InputComponents.InputComponent.UpdateMovementState | backend/src/main/java/com/conquerquest/backend/core/components/InputComponent.java:65-71 | the new value is that of the movement-update rule |
| InputComponents.InputComponent.AddTrigger | backend/src/main/java/com/conquerquest/backend/core/components/InputComponent.java:73-75 | the trigger set gains the trigger; nothing else changes |
| WorldStates.Lookup | backend/src/main/java/com/conquerquest/backend/core/state/WorldState.java:52-57 | a component is found exactly when the entity exists and has one of that class, and it is the stored one; otherwise `null` |
| WorldStates.LookupAfterPut | backend/src/main/java/com/conquerquest/backend/core/state/WorldState.java:42-46 | after an add, a read of the same live entity and class gives the added component, and every other read is as before |
| WorldStates.PutKeepsEntities | backend/src/main/java/com/conquerquest/backend/core/state/WorldState.java:43 | an add never creates or removes an entity, and an add to an unknown entity changes nothing |
| WorldStates.PutKeepsWellKeyed | backend/src/main/java/com/conquerquest/backend/core/state/WorldState.java:44 | an add keeps every component filed under its own class |
| WorldStates.LookupAfterRemove | backend/src/main/java/com/conquerquest/backend/core/state/WorldState.java:35-37 | after a removal nothing of the entity can be read, and other entities read as before |
| WorldStates.WorldState.constructor | backend/src/main/java/com/conquerquest/backend/core/state/WorldState.java:21 | the store starts with no entities |
| WorldStates.WorldState.CreateEntity | backend/src/main/java/com/conquerquest/backend/core/state/WorldState.java:26-30 | the fresh id is returned and now maps to an empty component map; other entities are unchanged |
| WorldStates.WorldState.RemoveEntity | backend/src/main/java/com/conquerquest/backend/core/state/WorldState.java:35-37 | the entity and all its components are gone; other entities are unchanged; an unknown id changes nothing |
| WorldStates.WorldState.AddComponent | backend/src/main/java/com/conquerquest/backend/core/state/WorldState.java:42-46 | the store becomes the put of the component under its own class, for a live entity only |
| WorldStates.WorldState.GetComponent | backend/src/main/java/com/conquerquest/backend/core/state/WorldState.java:51-57 | the lookup of the class for the entity, and whatever it returns is of the requested class, so the unchecked cast is safe |
| WorldStates.WorldState.GetEntitiesWith | backend/src/main/java/com/conquerquest/backend/core/state/WorldState.java:65-84 | each entity holding every requested class appears in the list exactly once and no other entity does; with no classes requested, every entity |
| WorldStates.WorldState.HasEntity | backend/src/main/java/com/conquerquest/backend/core/state/WorldState.java:86-88 | true exactly for a live id; an id that is not live has no component of any class |
| SurvivalSystem.AtLeastZero | backend/src/main/java/com/conquerquest/backend/core/systems/SurvivalSystem.java:58 | `Math.max(0, v)`: never negative, never below `v`, and either 0 or `v` |
| SurvivalSystem.ApplyDamage | backend/src/main/java/com/conquerquest/backend/core/systems/SurvivalSystem.java:102-107 | only health changes; a dead body (health at most 0) is untouched; a living one loses `amount`, stopping at 0, and reaches 0 exactly when `amount` is at least its health |
| SurvivalSystem.SurviveEntity | backend/src/main/java/com/conquerquest/backend/core/systems/SurvivalSystem.java:41-50 | one entity's tick replaces only its survival and vitality records and keeps every component filed under its class |
| SurvivalSystem.HungerRule | backend/src/main/java/com/conquerquest/backend/core/systems/SurvivalSystem.java:53-64 | while fed, hunger falls by 0.5 per second down to 0 and health stays; once empty, hunger stays and the body takes 1.0 per second starvation damage; no other statistic changes |
| SurvivalSystem.ThirstRule | backend/src/main/java/com/conquerquest/backend/core/systems/SurvivalSystem.java:66-77 | the same rule for thirst, with decay 0.8 and dehydration damage 1.5 per second |
| SurvivalSystem.TemperatureRule | backend/src/main/java/com/conquerquest/backend/core/systems/SurvivalSystem.java:79-97 | the temperature becomes the cooled value, never below 0 and, for a non-negative maximum, never above it; freezing damage of 2.0 per second is applied exactly when it reaches 0 |
| SurvivalSystem.CoolingInsideRange | backend/src/main/java/com/conquerquest/backend/core/systems/SurvivalSystem.java:84-89 | inside the comfort range the temperature falls by exactly (5 - cold resistance) x delta |
| SurvivalSystem.TickKeepsHealthInRange | backend/src/main/java/com/conquerquest/backend/core/systems/SurvivalSystem.java:46-48 | for a non-negative delta a whole tick never raises health and never takes it below 0, and it never touches the maxima, stamina or cold resistance |
| SurvivalSystem.DamageHasACause | backend/src/main/java/com/conquerquest/backend/core/systems/SurvivalSystem.java:46-48 | health changes in a tick only if hunger or thirst was empty or the body froze |
| SurvivalSystem.DeadStaysDead | backend/src/main/java/com/conquerquest/backend/core/systems/SurvivalSystem.java:103 | a tick never changes the vitality of a body at 0 health or below |
| SurvivalSystem.SurviveOne | backend/src/main/java/com/conquerquest/backend/core/systems/SurvivalSystem.java:42-48 | the body of the loop: this entity's components become its tick's result, and every other entity is unchanged |
| SurvivalSystem.Update | backend/src/main/java/com/conquerquest/backend/core/systems/SurvivalSystem.java:34-51 | every entity with survival and vitality takes exactly one tick; every other entity is unchanged; no entity is created or removed |
| SurvivalSystem.SurviveAll | backend/src/main/java/com/conquerquest/backend/core/systems/SurvivalSystem.java:41-50 | each listed entity takes exactly one tick, whatever order the list is in; unlisted entities are unchanged |
| PhysicsSystem.MoveEntity | backend/src/main/java/com/conquerquest/backend/core/systems/PhysicsSystem.java:37-56 | the move of a moving entity keeps its rotation (what it does on each axis is stated by `AxisSeparatedMove`) |
| PhysicsSystem.OnlyPositionChanges | backend/src/main/java/com/conquerquest/backend/core/systems/PhysicsSystem.java:31-32 | a tick changes at most the entity's position, keeps its rotation and leaves every other component as it was; an entity with zero velocity is skipped entirely |
| PhysicsSystem.AxisSeparatedMove | backend/src/main/java/com/conquerquest/backend/core/systems/PhysicsSystem.java:43-53 | each axis either stays or advances by its whole displacement: X advances exactly when the box at the new X and the old Y is free, and Y exactly when the box at the resolved X and the new Y is free |
| PhysicsSystem.SlidesAlongWall | backend/src/main/java/com/conquerquest/backend/core/systems/PhysicsSystem.java:46-53 | an entity blocked along X but free along Y still moves along Y |
| PhysicsSystem.MoveKeepsClear | backend/src/main/java/com/conquerquest/backend/core/systems/PhysicsSystem.java:46-53 | an entity whose box starts free ends the tick in a free box |
| PhysicsSystem.PhysicsSystem.constructor | backend/src/main/java/com/conquerquest/backend/core/systems/PhysicsSystem.java:19 | the system holds the map service it is given |
| PhysicsSystem.PhysicsSystem.Integrate | backend/src/main/java/com/conquerquest/backend/core/systems/PhysicsSystem.java:37-40 | the new position is the move of the velocity scaled by the terrain factor at the start position and by delta |
| PhysicsSystem.PhysicsSystem.Resolve | backend/src/main/java/com/conquerquest/backend/core/systems/PhysicsSystem.java:43-53 | the position the X-then-Y step makes, as `AxisSeparatedMove` characterises it |
| PhysicsSystem.PhysicsSystem.MoveOne | backend/src/main/java/com/conquerquest/backend/core/systems/PhysicsSystem.java:29-57 | the body of the loop: this entity's components become its tick's result (a still entity and an unmoved one are left as they were), and every other entity is unchanged |
| PhysicsSystem.PhysicsSystem.Update | backend/src/main/java/com/conquerquest/backend/core/systems/PhysicsSystem.java:22-59 | every entity with position, velocity and hitbox takes exactly one tick; every other entity is unchanged; no entity is created or removed |
| PhysicsSystem.PhysicsSystem.MoveAll | backend/src/main/java/com/conquerquest/backend/core/systems/PhysicsSystem.java:28-58 | each listed entity moves exactly once, whatever order the list is in; unlisted entities are unchanged |
| PlayerControlSystem.CooldownCountsDownWhilePositive | backend/src/main/java/com/conquerquest/backend/core/systems/PlayerControlSystem.java:45-60 | with no dash running, only the cooldown changes: it falls by delta while positive and is kept otherwise, and no dash starts |
| PlayerControlSystem.DashEndStartsCooldown | backend/src/main/java/com/conquerquest/backend/core/systems/PlayerControlSystem.java:52-59 | a running dash loses delta of its time, keeps running exactly while time is left, and on stopping starts the full dash cooldown; its direction is kept |
| PlayerControlSystem.DashTriggerAlwaysConsumed | backend/src/main/java/com/conquerquest/backend/core/systems/PlayerControlSystem.java:62-69 | the DASH trigger never outlives a tick, used or not, and the other triggers and movement fields are untouched |
| PlayerControlSystem.DashStartsOnlyWhenReady | backend/src/main/java/com/conquerquest/backend/core/systems/PlayerControlSystem.java:64-68 | the dash state changes only if DASH was pending, no dash was running and the cooldown was over; in that case the dash runs for the full dash duration |
| PlayerControlSystem.DashDirection | backend/src/main/java/com/conquerquest/backend/core/systems/PlayerControlSystem.java:71-91 | the dash goes the facing way when there is no input, along the input otherwise, times 0.7071 on both axes exactly when both are non-zero |
| PlayerControlSystem.DashOverridesInput | backend/src/main/java/com/conquerquest/backend/core/systems/PlayerControlSystem.java:96-100 | while dashing, the velocity is the dash direction times the dash speed, whatever the input |
| PlayerControlSystem.WalkingVelocity | backend/src/main/java/com/conquerquest/backend/core/systems/PlayerControlSystem.java:102-121 | not dashing: zero with no input; otherwise the input times the base speed (times the sprint multiplier when sprinting), times 0.7071 on diagonals |
| PlayerControlSystem.StartedDashMovesAtOnce | backend/src/main/java/com/conquerquest/backend/core/systems/PlayerControlSystem.java:36-39 | a dash that starts in a tick already sets that tick's velocity to dash speed along its direction |
| PlayerControlSystem.ControlOne | backend/src/main/java/com/conquerquest/backend/core/systems/PlayerControlSystem.java:31-41 | the body of the loop: this entity's dash state, input and velocity become its tick's result, and every other entity is unchanged |
| PlayerControlSystem.Update | backend/src/main/java/com/conquerquest/backend/core/systems/PlayerControlSystem.java:24-43 | every entity with input, movement stats and dash state takes exactly one tick; every other entity is unchanged; no entity is created or removed |
| PlayerControlSystem.ControlAll | backend/src/main/java/com/conquerquest/backend/core/systems/PlayerControlSystem.java:29-42 | each listed entity takes exactly one control tick, whatever order the list is in; unlisted entities are unchanged |
| Tiles.PaddedCorners | backend/src/main/java/com/conquerquest/backend/core/services/WorldMapService.java:124-129 | four probe points, each 5 pixels inside the box on both axes: left or right edge, top or bottom edge |
| Tiles.StampIfGrass | backend/src/main/java/com/conquerquest/backend/core/services/WorldMapService.java:87-102 | the structure is placed exactly when every cell of its footprint was grass; then the footprint, and only it, holds the new tile; otherwise nothing changes |
| WorldMapService.NextInt | backend/src/main/java/com/conquerquest/backend/core/services/WorldMapService.java:84-85 | `nextInt(bound)` gives a value in [0, bound) |
| WorldMapService.TileIndexIsIntCast | backend/src/main/java/com/conquerquest/backend/core/services/WorldMapService.java:108-109 | the cell index is Java's saturating `(int)` cast of the floored quotient by 64, so always an int |
| WorldMapService.WorldMapService.constructor | backend/src/main/java/com/conquerquest/backend/core/services/WorldMapService.java:27 | a new 50 x 50 matrix, every cell 0, which is grass |
| WorldMapService.WorldMapService.Init | backend/src/main/java/com/conquerquest/backend/core/services/WorldMapService.java:34-39 | after start-up the matrix holds only tile ids and its last column and last row are grass |
| WorldMapService.WorldMapService.GetMapData | backend/src/main/java/com/conquerquest/backend/core/services/WorldMapService.java:44-46 | the service's own matrix is handed out, not a copy |
| WorldMapService.WorldMapService.GenerateMapData | backend/src/main/java/com/conquerquest/backend/core/services/WorldMapService.java:48-67 | the generated matrix holds only tile ids and its last column and last row stay grass, whatever the random draws |
| WorldMapService.WorldMapService.PlaceStructures | backend/src/main/java/com/conquerquest/backend/core/services/WorldMapService.java:69-81 | for each configuration at most `count` structures are placed in at most 1000 attempts, and its loop stops at one of the two; the grid stays well formed and a cell that was not grass is never overwritten, so a later structure never covers an earlier one |
| WorldMapService.WorldMapService.TryPlaceStructure | backend/src/main/java/com/conquerquest/backend/core/services/WorldMapService.java:83-103 | the drawn footprint ends before the last column and row; the structure is placed exactly when the footprint was all grass, and then only the footprint changes |
| WorldMapService.WorldMapService.CollisionMeansSolidCorner | backend/src/main/java/com/conquerquest/backend/core/services/WorldMapService.java:122-141 | a box collides exactly when one of its four padded corners is out of bounds or on a tree or rock |
| WorldMapService.WorldMapService.GetTerrainSpeedMultiplier | backend/src/main/java/com/conquerquest/backend/core/services/WorldMapService.java:107-120 | the factor is 0.5 or 1.0, and 0.5 exactly when the point is inside the map on a water tile |
| SnapshotService.StatsOf | backend/src/main/java/com/conquerquest/backend/core/services/SnapshotService.java:69-80 | statistics exist exactly when the entity has both a vitality and a survival record; they are health, stamina, hunger, thirst and temperature, each cast to `int` |
| SnapshotService.Offer | backend/src/main/java/com/conquerquest/backend/core/services/SnapshotService.java:82-88 | afterwards the cache holds the current statistics for the user, and one message to that user is added exactly when nothing or something different was cached |
| SnapshotService.OfferTwiceSendsOnce | backend/src/main/java/com/conquerquest/backend/core/services/SnapshotService.java:82-88 | offering the same statistics twice in a row sends at most one message: the second offer changes nothing |
| SnapshotService.ClearedCacheResends | backend/src/main/java/com/conquerquest/backend/core/services/SnapshotService.java:91-93 | after the cache entry of a user is cleared, the next offer to that user is always sent |
| SnapshotService.SendsExactlyOnChange | backend/src/main/java/com/conquerquest/backend/core/services/SnapshotService.java:84 | a message is sent exactly when the user has no cached statistics or different ones |
| SnapshotService.FractionalChangeIsNotSent | backend/src/main/java/com/conquerquest/backend/core/services/SnapshotService.java:75-80 | because of the `int` cast, a health change that keeps the whole part sends nothing and leaves the cache as it was |
| SnapshotService.RoundSendsOnlyToTagged | backend/src/main/java/com/conquerquest/backend/core/services/SnapshotService.java:58-66 | a round keeps the earlier messages and only adds statistics messages, each to a user tagged on one of the entities it visits |
| SnapshotService.RoundCachesCurrentStats | backend/src/main/java/com/conquerquest/backend/core/services/SnapshotService.java:58-89 | with one tagged entity per user, after a round every visited tagged entity's current statistics are cached for its user, and users no visited entity is tagged with keep their cache entries |
| SnapshotService.SettledRoundIsSilent | backend/src/main/java/com/conquerquest/backend/core/services/SnapshotService.java:84-88 | a round over a cache that already holds every visited player's current statistics sends nothing and changes nothing |
| SnapshotService.SecondRoundSendsNothing | backend/src/main/java/com/conquerquest/backend/core/services/SnapshotService.java:54-66 | with one tagged entity per user, a second round on an unchanged world sends nothing: statistics go out only on change |
| SnapshotService.SnapshotService.constructor | backend/src/main/java/com/conquerquest/backend/core/services/SnapshotService.java:31-33 | the service starts with an empty cache and has sent nothing |
| SnapshotService.SnapshotService.BroadcastState | backend/src/main/java/com/conquerquest/backend/core/services/SnapshotService.java:37-52 | exactly one game-state message is sent, stamped with the clock; it has one snapshot per entity with a position, no entity twice, each with that entity's coordinates; the cache is untouched |
| SnapshotService.SnapshotService.BroadcastPlayerStats | backend/src/main/java/com/conquerquest/backend/core/services/SnapshotService.java:58-66 | every entity with survival and vitality is visited once, and the cache and messages become those of a round over them in that order, which processes only tagged entities |
| SnapshotService.SnapshotService.ProcessStatsForPlayer | backend/src/main/java/com/conquerquest/backend/core/services/SnapshotService.java:68-89 | nothing happens without both records; otherwise the current statistics are offered to the user with send-on-change |
| SnapshotService.SnapshotService.ClearCache | backend/src/main/java/com/conquerquest/backend/core/services/SnapshotService.java:91-93 | only the user's cache entry is removed, and nothing is sent |
| PlayerLifeCycle.GuestName | backend/src/main/java/com/conquerquest/backend/core/engine/PlayerLifeCycleService.java:46-48 | a missing or blank name gives "Guest"; any other name is shown with " (Guest)" appended |
| PlayerLifeCycle.NewPlayerShape | backend/src/main/java/com/conquerquest/backend/core/engine/PlayerLifeCycleService.java:53-80 | a new player's components are each filed under their class; it stands at the spawn point with rotation 0, faces (0, 1) with no pending action, has everything the control system needs, but no velocity (so the physics system skips it until its first control tick) and no survival or vitality records |
| PlayerLifeCycle.NewPlayerGetsNoStats | backend/src/main/java/com/conquerquest/backend/core/engine/PlayerLifeCycleService.java:53-80 | a freshly spawned player has no statistics, so the statistics broadcast sends it nothing |
| PlayerLifeCycle.BlankGuestIsPlainGuest | backend/src/main/java/com/conquerquest/backend/core/engine/PlayerLifeCycleService.java:46-48 | a blank guest name is shown as plain "Guest", never as the blank name marked as a guest's |
| PlayerLifeCycle.OneEntityPerUser | backend/src/main/java/com/conquerquest/backend/core/engine/PlayerLifeCycleService.java:30-31 | while sessions and tags match, two tagged entities are the same exactly when they belong to the same user |
| PlayerLifeCycle.RemoveKeepsSessions | backend/src/main/java/com/conquerquest/backend/core/engine/PlayerLifeCycleService.java:82-96 | removing an entity keeps sessions and player tags matched one to one, no session names the removed entity, and no session is added |
| PlayerLifeCycle.NewPlayerKeepsSessions | backend/src/main/java/com/conquerquest/backend/core/engine/PlayerLifeCycleService.java:53-80 | a new player at a fresh id for a user without a session keeps sessions and tags matched once its session is recorded |
| PlayerLifeCycle.EquipPlayer | backend/src/main/java/com/conquerquest/backend/core/engine/PlayerLifeCycleService.java:56-74 | the seven `addComponent` calls turn the empty entity into exactly the player's component map; nothing else changes |
| PlayerLifeCycle.EquipIdentity | backend/src/main/java/com/conquerquest/backend/core/engine/PlayerLifeCycleService.java:56-68 | the tag, the movement stats (180, 1.5, 20, 800, 0.2, 2.0), a resting dash state and a 32 x 32 hitbox are added, in that order |
| PlayerLifeCycle.EquipBody | backend/src/main/java/com/conquerquest/backend/core/engine/PlayerLifeCycleService.java:72-74 | the spawn position (rotation 0), an idle input facing (0, 1) and the inventory are added, in that order |
| PlayerLifeCycle.PlayerLifeCycleService.constructor | backend/src/main/java/com/conquerquest/backend/core/engine/PlayerLifeCycleService.java:26-31 | the service starts with no sessions, over a world with no player yet |
| PlayerLifeCycle.PlayerLifeCycleService.SpawnPlayer | backend/src/main/java/com/conquerquest/backend/core/engine/PlayerLifeCycleService.java:33-42 | an unknown user is refused with nothing changed; otherwise the user's previous entity, if any, is removed, a new player with the user's name is created as a non-guest, and the user's session points to it |
| PlayerLifeCycle.PlayerLifeCycleService.SpawnGuest | backend/src/main/java/com/conquerquest/backend/core/engine/PlayerLifeCycleService.java:44-51 | a new guest player is created under the temporary user id, with the guest display name, and recorded as that id's session |
| PlayerLifeCycle.PlayerLifeCycleService.CreateEntityInternal | backend/src/main/java/com/conquerquest/backend/core/engine/PlayerLifeCycleService.java:53-80 | the world gains exactly one entity, with the player's components around a new empty 20-slot inventory; the session table gains the user's entry; sessions and tags stay matched |
| PlayerLifeCycle.PlayerLifeCycleService.RemovePlayer | backend/src/main/java/com/conquerquest/backend/core/engine/PlayerLifeCycleService.java:82-96 | the entity is removed whether tagged or not, the tagged user's session ends, and sessions and tags stay matched |
| PlayerLifeCycle.PlayerLifeCycleService.GetEntityIdByUserId | backend/src/main/java/com/conquerquest/backend/core/engine/PlayerLifeCycleService.java:98-100 | an entity is found exactly when the user has a session; it then carries that user's tag, and without a session no entity carries it |
| GameSocketController.InputTypeValueOf | backend/src/main/java/com/conquerquest/backend/infra/socket/GameSocketController.java:130 | a constant is found exactly when the text is the exact name of one, and then it is that constant |
| GameSocketController.ParseActions | backend/src/main/java/com/conquerquest/backend/infra/socket/GameSocketController.java:123-137 | a missing or empty set gives no actions; otherwise an action is in the result exactly when some given text names it, in any letter case |
| GameSocketController.JoinGuestName | backend/src/main/java/com/conquerquest/backend/infra/socket/GameSocketController.java:75-77 | a missing or blank guest name becomes "Unknown"; any other name is passed on as it is |
| GameSocketController.ValueOfName | backend/src/main/java/com/conquerquest/backend/infra/socket/GameSocketController.java:130 | names and `valueOf` are inverse: each action parses back from its name, and only an action's exact name parses |
| GameSocketController.ParseIgnoresCase | backend/src/main/java/com/conquerquest/backend/infra/socket/GameSocketController.java:130 | a text whose upper-cased form is an action's name parses to it, and so does the lower-cased name |
| GameSocketController.ParseKeepsKnownDropsUnknown | backend/src/main/java/com/conquerquest/backend/infra/socket/GameSocketController.java:127-136 | every action named in the set is in the result, and adding a `null` or an unknown name to a non-empty set changes nothing |
| GameSocketController.NamelessGuestJoinsAsUnknown | backend/src/main/java/com/conquerquest/backend/infra/socket/GameSocketController.java:74-78 | a guest who joins without a usable name is shown as "Unknown (Guest)", so the service's own "Guest" default is never reached from a join |
| InputSystem.KeyMap | frontend/src/game/systems/InputSystem.js:2-16 | W and ArrowUp mean up, S and ArrowDown down, A and ArrowLeft left, D and ArrowRight right, Shift sprint, each in both directions; no other key means anything |
| InputSystem.KeyEventIsLocal | frontend/src/game/systems/InputSystem.js:46-63 | a key event sets at most the one action its key names, to pressed or released; an unmapped key changes nothing; the table keeps a flag for every action |
| InputSystem.KeyCaseInsensitive | frontend/src/game/systems/InputSystem.js:47 | keys are matched ignoring case: an upper-cased key acts like the key itself |
| InputSystem.PressThenRelease | frontend/src/game/systems/InputSystem.js:46-63 | pressing then releasing a mapped key leaves its action released and every other action as it was |
| InputSystem.Axis | frontend/src/game/systems/InputSystem.js:70-76 | an axis is in {-1, 0, 1}: +1 exactly when only the positive key is held, -1 exactly when only the negative one is |
| InputSystem.InputSystem.constructor | frontend/src/game/systems/InputSystem.js:19-34 | every action starts released and the listeners are registered |
| InputSystem.InputSystem.OnKeyDown | frontend/src/game/systems/InputSystem.js:46-54 | the table becomes the result of a press of the lower-cased key |
| InputSystem.InputSystem.OnKeyUp | frontend/src/game/systems/InputSystem.js:56-63 | the table becomes the result of a release of the lower-cased key |
| InputSystem.InputSystem.GetDirection | frontend/src/game/systems/InputSystem.js:66-80 | x is the left/right axis and y the up/down axis, opposite keys cancelling; the sprint flag is passed through |
| InputSystem.InputSystem.Destroy | frontend/src/game/systems/InputSystem.js:85-87 | the listeners are removed and the table is kept |
| CameraSystem.JsRound | frontend/src/game/systems/CameraSystem.js:73-74 | `Math.round` gives the integer within half a unit of the value, halves rounding up |
| CameraSystem.ClampAxisBounds | frontend/src/game/systems/CameraSystem.js:44-57 | on a zoomed map larger than the screen the offset is kept within [screen - map, 0], and an offset already inside is kept as it is; on a smaller map it is the centring offset |
| CameraSystem.SnappedTargetOnScreen | frontend/src/game/systems/CameraSystem.js:38-57 | a snapped camera always shows a target inside the map: its screen position on each axis lies between 0 and the screen size |
| CameraSystem.SmoothStepNearLerp | frontend/src/game/systems/CameraSystem.js:66-74 | a smoothing step moves a tenth of the way to the target, and rounding to whole screen pixels changes that by at most half a pixel |
| CameraSystem.DivMonotone | frontend/src/game/systems/CameraSystem.js:73-74 | dividing by the positive zoom keeps order, which is what bounds the rounding error in world units |
| CameraSystem.ClampedViewInsideMap | frontend/src/game/systems/CameraSystem.js:44-47 | an offset in the clamped range makes the visible stretch of the world lie inside the map |
| CameraSystem.CameraSystem.constructor | frontend/src/game/systems/CameraSystem.js:2-14 | the camera starts without a target at zoom 1.5, with the world scaled to match |
| CameraSystem.CameraSystem.Update | frontend/src/game/systems/CameraSystem.js:31-76 | without a target nothing moves; otherwise the world offset becomes the clamped centring offset (snap) or one rounded smoothing step towards it; zoom, scale and target are kept |
| CameraSystem.CameraSystem.SetZoom | frontend/src/game/systems/CameraSystem.js:16-22 | the zoom and the world scale become the new level, and with a target the camera snaps to its framing at that zoom |
| CameraSystem.CameraSystem.Follow | frontend/src/game/systems/CameraSystem.js:24-28 | the camera takes the new target and at once snaps to its framing |
| CameraSystem.SnappedAxisInsideMap | frontend/src/game/systems/CameraSystem.js:38-57 | on one axis, when the zoomed map is larger than the screen, the snapped offset shows only the stretch of the map from 0 to the map size |
| CameraSystem.CameraSystem.SnappedViewInsideMap | frontend/src/game/systems/CameraSystem.js:78-87 | snapped to its target, the visible rectangle lies within the map horizontally when the zoomed map is wider than the screen and vertically when it is taller: no void beyond an edge shows |
| MovementSystem.TimersInvInitially | frontend/src/game/systems/MovementSystem.js:18-21 | the fresh timers (both zero) satisfy the timer invariant: no dash is running |
| MovementSystem.FramePreservesTimersInv | frontend/src/game/systems/MovementSystem.js:51-54 | one frame (tick, then dash logic), for any delta and request, keeps the invariant that while a dash runs the cooldown exceeds the remaining duration by exactly 1.9 |
| MovementSystem.TickOnlyPositive | frontend/src/game/systems/MovementSystem.js:51-54 | a timer that is positive falls by exactly delta, and a timer at or below zero is left as it is |
| MovementSystem.DashLogicCases | frontend/src/game/systems/MovementSystem.js:74-101 | a running dash stays active and leaves both timers and the prediction flag alone; otherwise the flag is cleared, and a dash starts (cooldown 2.1, duration 0.2, flag raised) exactly when one is requested and the cooldown is over |
| MovementSystem.TerrainFactor | frontend/src/game/systems/MovementSystem.js:116-118 | the terrain factor is 0.5 or 1, and 1 without a map |
| MovementSystem.FrameSpeed | frontend/src/game/systems/MovementSystem.js:108-118 | the speed is 800 when dashing, otherwise 180 or 180 x 1.5 when sprinting, each times the terrain factor |
| MovementSystem.IdleDoesNotMove | frontend/src/game/systems/MovementSystem.js:104-106 | with no movement input and no dash the velocity is zero |
| MovementSystem.DashVelocity | frontend/src/game/systems/MovementSystem.js:110-128 | a dash moves at 800 x terrain along the input, or along the facing when there is no input, with no diagonal scaling, whatever the sprint key |
| MovementSystem.WalkVelocity | frontend/src/game/systems/MovementSystem.js:108-131 | walking moves along the input at the frame speed, scaled by 0.7071 exactly when both axes are non-zero |
| MovementSystem.WaterHalvesVelocity | frontend/src/game/systems/MovementSystem.js:116-118 | on water (factor 0.5) each velocity component is half the one on land |
| MovementSystem.ResolveMove | frontend/src/game/systems/MovementSystem.js:136-150 | each axis either moves by its full step or stays; X moves exactly when its step is zero or the box at (x + vx, y) is clear, Y exactly when its step is zero or the box at (resolved x, y + vy) is clear |
| MovementSystem.ResolveKeepsClear | frontend/src/game/systems/MovementSystem.js:136-150 | a player whose box starts clear of solid tiles ends the frame clear of them |
| MovementSystem.SlidesAlongWall | frontend/src/game/systems/MovementSystem.js:136-150 | blocked on X but free on Y, the player slides along Y only |
| MovementSystem.ChangedIsInequality | frontend/src/game/systems/MovementSystem.js:161-167 | the six-field comparison reports a change exactly when the current tuple differs from the last one sent |
| MovementSystem.FirstBroadcastSends | frontend/src/game/systems/MovementSystem.js:161-167 | the first broadcast always sends, even when idle, because the initial tuple has no dash flag |
| MovementSystem.MovementSystem.constructor | frontend/src/game/systems/MovementSystem.js:15-22 | nothing sent yet, no player, both timers zero, the timer invariant holds |
| MovementSystem.MovementSystem.UpdateTimers | frontend/src/game/systems/MovementSystem.js:51-54 | the timers become the ticked timers; nothing else changes |
| MovementSystem.MovementSystem.HandleDashLogic | frontend/src/game/systems/MovementSystem.js:74-101 | returns whether a dash is active this frame, sets the timers and the player's prediction flag as the dash rule says, and records a PLAYER_DASH event of 2100 ms exactly when a dash starts; the player's position is unchanged |
| MovementSystem.MovementSystem.ApplyPhysics | frontend/src/game/systems/MovementSystem.js:136-150 | the player ends at the resolved position and the prediction flag is unchanged |
| MovementSystem.MovementSystem.Broadcast | frontend/src/game/systems/MovementSystem.js:152-173 | sends MOVE with the current tuple and remembers it exactly when it differs from the last one sent; otherwise nothing is sent or remembered |
| MovementSystem.MovementSystem.Update | frontend/src/game/systems/MovementSystem.js:31-49 | without a player or input nothing changes; otherwise the timers tick and the dash rule runs, the player moves to the resolved position when the velocity is non-zero, and the effects are the PLAYER_DASH event when a dash starts followed by the MOVE message when the input changed; the timer invariant is kept |
| ClientPlayer.Player.constructor | frontend/src/game/entities/Player.js:4-17 | a new player sprite is placed at the given coordinates, with no dash predicted |
| ClientPlayer.Player.SyncPosition | frontend/src/game/entities/Player.js:55-58 | the player is moved to exactly the given position; the dash flag is kept |
| NetworkSyncSystem.DistSq | frontend/src/game/systems/NetworkSyncSystem.js:54-56 | the squared distance is never negative, so comparing it with a squared threshold decides the same as comparing the distance |
| NetworkSyncSystem.ReconcileBands | frontend/src/game/systems/NetworkSyncSystem.js:58-66 | beyond 150 the player snaps to the server position, between 50 and 150 it moves a tenth of the way there, and within 50 it stays |
| NetworkSyncSystem.ReconcileConverges | frontend/src/game/systems/NetworkSyncSystem.js:58-66 | a correction never moves the player away from the server; a soft one shrinks the squared distance to exactly 0.81 of its value |
| NetworkSyncSystem.NumberOfKey | frontend/src/game/systems/NetworkSyncSystem.js:86 | Number(key) gives back a numeric id and NaN for a UUID string id |
| NetworkSyncSystem.CleanupAsWritten | frontend/src/game/systems/NetworkSyncSystem.js:83-92 | keeps exactly the entries whose key, turned back into a number, is in the snapshot or is the local id, dropping all others; kept entries are unchanged |
| NetworkSyncSystem.CleanupIntended | frontend/src/game/systems/NetworkSyncSystem.js:83-92 | keeps exactly the entries whose id is in the snapshot, unchanged |
| NetworkSyncSystem.ApplyRemotesMeaning | frontend/src/game/systems/NetworkSyncSystem.js:69-81 | after a snapshot's entries the table holds the old ids plus every remote id of the snapshot, each at its last reported position; other entries are unchanged |
| NetworkSyncSystem.ApplyRemotesSkipsMe | frontend/src/game/systems/NetworkSyncSystem.js:30-41 | the local id never enters the remote table |
| NetworkSyncSystem.NumericIdsConverge | frontend/src/game/systems/NetworkSyncSystem.js:83-92 | with numeric ids, the table after a snapshot holds exactly that snapshot's remote ids |
| NetworkSyncSystem.IntendedCleanupConverges | frontend/src/game/systems/NetworkSyncSystem.js:21-45 | with the intended cleanup, the table after a snapshot holds exactly that snapshot's remote ids, whatever kind of ids they are |
| NetworkSyncSystem.UuidRemotesVanish | frontend/src/game/systems/NetworkSyncSystem.js:83-92 | as written, no remote with a UUID id survives a snapshot, even one the snapshot has just reported |
| NetworkSyncSystem.UuidCounterexample | frontend/src/game/systems/NetworkSyncSystem.js:83-92 | a snapshot with one remote player under a UUID id creates that player and then deletes it in the same call |
| NetworkSyncSystem.CleanupsAgreeOnNumericIds | frontend/src/game/systems/NetworkSyncSystem.js:83-92 | on a table of numeric ids the written and the intended cleanups give the same table |
| NetworkSyncSystem.NetworkSyncSystem.constructor | frontend/src/game/systems/NetworkSyncSystem.js:8-13 | the remote table starts empty and the local id is kept |
| NetworkSyncSystem.NetworkSyncSystem.HandleReconciliation | frontend/src/game/systems/NetworkSyncSystem.js:47-67 | the player ends at the banded correction of its position towards the server position; the dash flag is kept |
| NetworkSyncSystem.NetworkSyncSystem.UpdateOtherPlayer | frontend/src/game/systems/NetworkSyncSystem.js:69-81 | reports creation exactly when the id was not yet known, and the table maps the id to the reported position |
| NetworkSyncSystem.NetworkSyncSystem.CleanupDisconnected | frontend/src/game/systems/NetworkSyncSystem.js:83-92 | the table becomes the as-written cleanup of the old one: an entry stays exactly when `Number` of its key is an active id or the local id, so every UUID-keyed entry is deleted |
| NetworkSyncSystem.NetworkSyncSystem.ProcessSnapshot | frontend/src/game/systems/NetworkSyncSystem.js:21-45 | without a state or entity list nothing changes; otherwise the local player is corrected by each of its entries in order and the table becomes the as-written cleanup of the applied snapshot: only numeric ids remain, and when every id is numeric the table holds exactly the snapshot's remote ids |
| NetworkSyncSystem.NetworkSyncSystem.Destroy | frontend/src/game/systems/NetworkSyncSystem.js:94-97 | the remote table is empty |
| MapPhysics.New | frontend/src/game/entities/map/MapPhysics.js:8-13 | the width is the number of columns and the height the length of the first column, both 0 for missing or empty data; the grid and the tile size are kept |
| MapPhysics.MapPhysics.GetTileType | frontend/src/game/entities/map/MapPhysics.js:19-24 | -1 exactly outside [0, width) x [0, height); inside, the value the cell holds, undefined for a short column |
| MapPhysics.MapPhysics.IsPointSolid | frontend/src/game/entities/map/MapPhysics.js:57-72 | a NaN coordinate, an out-of-bounds cell and an undefined cell are solid; a defined in-bounds cell is solid exactly when it is a tree or a rock |
| MapPhysics.MapPhysics.CheckCollision | frontend/src/game/entities/map/MapPhysics.js:35-36 | a NaN origin always collides |
| MapPhysics.MapPhysics.CollisionMeansSolidCorner | frontend/src/game/entities/map/MapPhysics.js:38-51 | a finite box collides exactly when one of its four corners, padded 5 pixels inwards, is solid |
| MapPhysics.MapPhysics.GetTerrainMultiplier | frontend/src/game/entities/map/MapPhysics.js:77-90 | for finite points, 0.5 exactly on an in-bounds water cell and 1.0 everywhere else, out of bounds included; the lookup fails (a TypeError) exactly for a NaN x whose row is not out of bounds |
| MapPhysics.EmptyGridIsSolid | frontend/src/game/entities/map/MapPhysics.js:57-65 | on missing or empty data every point is solid and every box collides |
| MapPhysics.WaterSlowsButDoesNotBlock | frontend/src/game/entities/map/MapPhysics.js:71-87 | a water cell is not solid and halves the speed |
| LegacyMap.DrawOffset | frontend/src/game/entities/Map.js:56-57 | Math.floor(r x span) for a draw in [0, 1) lies in [0, span), and is 0 for an empty span |
| LegacyMap.TryPlaceStructure | frontend/src/game/entities/Map.js:53-75 | succeeds exactly when the drawn footprint was all grass; on success the footprint holds the structure, and every other cell, and the whole grid on failure, is unchanged |
| LegacyMap.PlaceConfigs | frontend/src/game/entities/Map.js:80-114 | for each configuration, the placed count is at most its target and at most the attempts, the attempts at most 1000, and the loop ends at the target or at 1000 attempts; no cell that was not grass changes |
| LegacyMap.GenerateMapData | frontend/src/game/entities/Map.js:48-117 | the grid is a fresh 50 x 50 matrix of tile ids whose last column and last row are grass, since every structure is drawn to end before them |
| LegacyMap.LegacyMap.constructor | frontend/src/game/entities/Map.js:29-46 | the map holds a freshly generated 50 x 50 grid of tile ids whose last column and last row are grass |
| LegacyMap.LegacyMap.CheckCollision | frontend/src/game/entities/Map.js:185-224 | a box collides exactly when one of its four padded corners is out of bounds or on a tree or a rock |
| LegacyMap.LegacyMap.GetTerrainSpeedMultiplier | frontend/src/game/entities/Map.js:227-242 | 0.5 exactly on an in-bounds water cell, 1.0 everywhere else, out of bounds included |
| LegacyMap.LegacyMap.SpawnCell | frontend/src/game/entities/Map.js:164-165 | each spawn attempt draws a cell inside the grid |
| LegacyMap.LegacyMap.GetValidSpawnPoint | frontend/src/game/entities/Map.js:159-181 | returns the centre of the first drawn cell that is not a wall, or (0, 0) after 1000 walls |
| LegacyMap.LegacyMap.SpawnIsWalkable | frontend/src/game/entities/Map.js:159-181 | the spawn point is the centre of a walkable cell, or (0, 0) only when every remaining attempt drew a wall |
| MapAgreement.IndexAgrees | backend/src/main/java/com/conquerquest/backend/core/services/WorldMapService.java:108-109 | the client's floor division and the server's saturated int cast of the same coordinate decide the bounds alike and name the same cell inside them |
| MapAgreement.PointAgrees | frontend/src/game/entities/map/MapPhysics.js:57-90 | on the grid the server sent, the client's point solidity and terrain factor equal the server's |
| MapAgreement.ClientPredictsServer | frontend/src/game/entities/map/MapPhysics.js:35-90 | on the grid the server sent, the client's collision and terrain answers equal the server's for every box and point |
| MapAgreement.LegacyMatchesServer | frontend/src/game/entities/Map.js:191-242 | the legacy client map and the server map give the same collision and terrain answers over the same cells |

## Left out

- Rendering and UI: sprite creation, textures, tints and sprite flipping (`updateVisuals` and `setMovementInput` in the client movement code), with the React components around them. The map renderer and asset loader, the game renderer and the scene manager are not part of this model.
- `frontend/src/game/entities/map/Map.js` only delegates to `MapPhysics`: its guard for empty data just logs. It is represented by `MapPhysics` itself.
- Transport: the STOMP/SockJS client, the server's socket configuration and map controller, and `SimpMessagingTemplate`. Each message is an entry in an `outbox` or `effects` sequence instead. The `PLAYER_DASH` event emitter is one such entry.
- The `handleInput` and `handleJoin` plumbing of `GameSocketController.java` is not modelled: the join future and its time-out, `UUID.fromString` and the task queue. Only `parseActions` and the guest-name default are modelled. Its `InputComponent` construction at line 46 passes six arguments, while `InputComponent.java` declares eight; that call is not modelled either.
- `InputType.java` is not part of this model. The action type is taken to have the two constants `DASH` and `ATTACK` that the input record's comments name.
- The client movement code calls `getMovementVector`, `getTriggeredActions` and `isActionHeld` on its input system, which `InputSystem.js` does not define. Each frame's input is therefore a parameter (`MovementSystem.InputFrame`), not a call into `InputSystem`.
- `MovementStatsComponent` declares three fields, yet the player factory passes six and the control system reads the dash fields. The model gives it the six fields that are passed and read. The physics system reads the velocity record's `x`/`y` where the source calls `dx()`/`dy()`.
- Components that the server systems mutate in place (the dash state, the input record, survival and vitality) are modelled as values and stored back into the store after each change. Aliasing through a component reference held elsewhere is not captured for them. The inventory is the exception: it stays a shared object.
- `SnapshotService.sendInventoryUpdate` is not part of this model: the inventory service records each push in its own `outbox`. The life-cycle service calls `worldMapService.getValidSpawnPoint()` (PlayerLifeCycleService.java:70), which `WorldMapService.java` does not define; the only definition is the legacy client map's (`frontend/src/game/entities/Map.js:159`, modelled as `LegacyMap.LegacyMap.GetValidSpawnPoint`). The server's spawn coordinates are therefore parameters of the life-cycle service.
- Scheduling and concurrency: the game loop's scheduled tick and task queue, and the thread safety of the `ConcurrentHashMap`s in the store, the session table and the stats cache. These are modelled as plain sequential maps.
- Persistence: the user repository is a map from user id to user name, and the "save player data" step on removal is a log line only.
- Logging (`console.log`, `log.info`, `log.error`) is left out throughout.
- Floating point: Java `float` and JavaScript numbers are modelled as exact reals, so rounding error and overflow to infinity are not modelled. NaN is modelled only in `MapPhysics`, the one place the code tests for it. `Math.sqrt` in reconciliation is replaced by comparing squared distances with 150 squared and 50 squared. No claim is made that diagonal speed is preserved, because 0.7071 is not exactly one over the square root of two.
- Case mapping (`toUpperCase`, `toLowerCase`) is ASCII-only: Unicode and locale-specific case rules are not modelled.
- Randomness and fresh ids are inputs:
    - `Math.random()` is a stream `rand` of reals in [0, 1).
    - `Random.nextInt(bound)` on the k-th call is `rng(k) % bound`.
    - Entity ids from `UUID.randomUUID()` and the clock read by `System.currentTimeMillis()` are parameters.
- PlayerLifeCycle.PlayerLifeCycleService.SpawnGuest: the random temporary user id is required to be unused, which a random UUID is with overwhelming probability. The service's constructor also requires that no entity already carries a player tag.
- InventoryComponents.InventoryComponent.constructor: the capacity is a `nat`, so the negative array size that Java would reject with an exception is not modelled.
- InventoryComponents.InventoryComponent.AddItem: stacks have no size cap, as in the source, which marks the cap as a TODO.
- WorldMapService.WorldMapService.GenerateMapData: states that the grid is well formed: it holds only tile ids, and its last column and last row are grass. Non-overlap and the per-configuration placement bounds are stated by `PlaceStructures`; the generator discards the counts it returns.
- LegacyMap.GenerateMapData: states only that the grid is fresh and well formed: it holds only tile ids, and its last column and last row are grass. The placement counts and non-overlap are stated by `LegacyMap.PlaceConfigs`.
- PhysicsSystem.MoveEntity: its own contract states only that the rotation is kept. The axis-separated move is stated by the lemmas beside it.
- NetworkSyncSystem.NetworkSyncSystem.UpdateOtherPlayer: a remote player is a position only. Its sprite and the `TODO` interpolation are not modelled.
- CameraSystem: the screen size is a parameter of each call, not a read of the renderer.
- CameraSystem.CameraSystem.SetZoom: a zoom of zero or less, which `setZoom` accepts, is not modelled, because the view bounds and smoothing divide by the zoom; nothing in the client calls `setZoom`.
- MapAgreement.ClientPredictsServer: only the map queries are shown to agree; the predicted move differs from the server's in ways this model keeps apart:
    - the client's dash cooldown is 2.1 (MovementSystem.js:10), the server's 2.0 (PlayerLifeCycleService.java:65);
    - the server scales a diagonal dash direction by 0.7071 (PlayerControlSystem.java:84-86), the client does not;
    - the client's `delta` is the renderer's `ticker.deltaTime`, measured in frames (GameRenderer.js:97), while the server's tick is 0.016 seconds (GameLoop.java:33);
    - the game renderer passes the legacy `entities/Map` (GameRenderer.js:2 and 30), which has `getTerrainSpeedMultiplier` but not the `getTerrainMultiplier` that MovementSystem.js:117 calls.

## Findings

| source | as written | input that shows it | evidently intended | confidence | as-written member | corrected member |
|---|---|---|---|---|---|---|
| frontend/src/game/systems/NetworkSyncSystem.js:86-87 | the cleanup turns each key of the remote table back with `Number(key)`, then deletes the entry unless that number is among the snapshot's ids or is the local id | a snapshot that lists one remote player whose id is a UUID string, as the server's entity snapshots carry: `Number` of the key is NaN, so the player is created and then deleted in the same call | keep exactly the remote players that the snapshot lists, comparing the key itself with the snapshot's ids | not executed | NetworkSyncSystem.CleanupAsWritten | NetworkSyncSystem.CleanupIntended |

The as-written half is exhibited by `NetworkSyncSystem.UuidCounterexample` and `NetworkSyncSystem.UuidRemotesVanish`. The corrected half is proved by `NetworkSyncSystem.IntendedCleanupConverges`. The class `NetworkSyncSystem.NetworkSyncSystem` runs the test as written: `CleanupDisconnected` ends in `CleanupAsWritten`, and `ProcessSnapshot` proves that only numeric ids survive and that the table converges when every id is numeric (`NetworkSyncSystem.NumericIdsConverge`). On numeric ids the two agree (`NetworkSyncSystem.CleanupsAgreeOnNumericIds`).
