# hexagram30 client: a verified model of the turn engine

This project models the turn engine of the hexagram30 roguelike client, a
tile-based game built on the specs entity-component system and rltk, across
the three snapshots its repository keeps: `explore1`, `explore2` and the
current game under `src`.

The world is a `World` class per snapshot. Each class has one field per
component storage: a `map` from entity to the component, or a `set` for a
marker component. It also holds the resources the systems share: the player
entity, the player's point, the run state and the game log. The map is the
class `Spatial.Map`. A system is a method over those fields with a
field-level `modifies` frame. Each loop is proved against a specification
function that folds one step over the entities in join order, and the
properties the code promises are lemmas about those functions.

The modules:

- `Spatial` covers the map: row-major indexing, the exit test, the blocked
  mask and its footprint-dilated form for large creatures, clearing the
  occupant index, opacity and the neighbour set used for pathing.
- `Visibility` is the visibility pass of the current game: the view-blocked
  rebuild, dirty viewsheds clipped to the interior, the player's visible and
  revealed flags, and spotting hidden things on a 1d24.
- `MonsterAI` is explore2's chase-or-bump monster turn.
- `VisibleAI` is the current game's faction-reaction rule. Its priority is
  spell, then shot, then approach, then flee.
- `Melee` and `Damage` are explore2's melee resolution, damage application
  and death sweep.
- `Inventory` is explore2's pickup, use and drop systems.
- `Trigger` is the current game's entry-trigger pass.
- `Hunger` is the well-fed effect.
- `Explore1Player` and `PlayerMove` cover player movement and key mapping in
  explore1 and in explore2's two input modules. `Character` covers explore2's
  player spawn and its pickup request.
- `ItemMenu` and `MainMenu` are the selection logic of explore2's menus.
- `Explore2State` is explore2's run-state controller, systems order and level
  change.
- `GameState` is the current game's `tick`. That includes:
  - the ticking loop;
  - the menus and cheats;
  - the level changes, which go through map generation;
  - the magic-map reveal;
  - the game-over reset.

Explore2's `tick` never calls `goto_next_level`, because the call is
commented out. The controller's `NextLevel` step goes straight to `PreRun`.
`goto_next_level` is still modelled on its own as
`Explore2State.GotoNextLevel`.

Library and unseen calls are function parameters. These are `field_of_view`,
`a_star_search`, the dice, `faction_reaction`, the tile predicates,
`letter_to_option`, `aoe_tiles`, and what the GUI returns in a frame. What the
current `tick` hands to code outside this model is recorded in order as a
trace of `Call`s on the `Game` class. That covers the dispatcher, save and
load, freeze, thaw, level transition, spawner, event counters, turn targeting
and the death sweep.

## Model

| member | source | states |
|---|---|---|
| Spatial.IdxInBounds | src/map/mod.rs:36-38 | an in-bounds (x, y) has its row-major index inside [0, width*height) |
| Spatial.IdxDecode | src/map/mod.rs:36-38 | for 0 <= x < width, index / width gives back y and index % width gives back x |
| Spatial.IdxEncode | src/map/mod.rs:36-38 | every non-negative index is the index of (i % width, i / width) |
| Spatial.IdxBijection | src/map/mod.rs:36-38 | `xy_idx` maps the width x height grid one-to-one onto [0, width*height): in range, injective and onto |
| Spatial.RowHitsMeans | src/map/mod.rs:60-73 | the cx scan of one footprint row finds a blocking cell iff some cell of that row is blocked or off the interior |
| Spatial.BoxHitsMeans | src/map/mod.rs:60-73 | the whole footprint scan finds a blocking cell iff some cell of the fw x fh box is blocked or off the interior |
| Spatial.Map.constructor | src/map/mod.rs:86-103 | a new map is all walls, every vector has width*height entries, no flag set, no occupant, black light, empty sets, outdoors |
| Spatial.Map.ExitBoundsAsymmetric | src/map/mod.rs:40-46 | the bounds test accepts the right column x = width-1 (then only `blocked` decides) but rejects the left column x = 0 |
| Spatial.Map.PopulateBlocked | src/map/mod.rs:48-52 | `blocked` becomes the walkability mask of the tiles, nothing else changes |
| Spatial.Map.MarkFootprint | src/map/mod.rs:60-73 | an unblocked interior tile ends blocked iff its footprint hits a blocked or border cell of the base mask; no other entry changes |
| Spatial.Map.ScanFootprintRow | src/map/mod.rs:61-72 | one cx loop ORs the row's hit into the anchor's entry and leaves every other entry as it was |
| Spatial.Map.PopulateBlockedMulti | src/map/mod.rs:54-77 | every entry of `blocked` ends as `MultiBlocked` of the walkability mask: border tiles keep the mask, interior tiles are blocked iff the mask blocks them or their footprint hits; the in-place update never reads a tile it already changed |
| Spatial.Map.MarkRow | src/map/mod.rs:57-75 | after interior row y every tile before row y+1 holds its final value and every later tile its base value |
| Spatial.Map.MarkTile | src/map/mod.rs:58-74 | after tile (x, y) every tile up to it holds its final value and every later tile its base value |
| Spatial.Map.ClearContentIndex | src/map/mod.rs:79-83 | every occupant list becomes empty and the number of lists is kept |
| Spatial.Map.AvailableExits | src/map/mod.rs:115-152 | at most eight exits are listed |
| Spatial.Map.ExitsFrom | src/map/mod.rs:123-149 | the exits from offset k on number at most the offsets left |
| Spatial.Map.ExitsFromMembers | src/map/mod.rs:123-149 | an index is listed iff it is the index of a neighbour, at one of the offsets scanned, that passes `is_exit_valid` |
| Spatial.Map.ExitsSound | src/map/mod.rs:115-152 | every listed exit is an unblocked tile of the map |
| Spatial.Map.ExitsComplete | src/map/mod.rs:115-152 | every neighbour passing `is_exit_valid` is listed at idx + dy*width + dx |
| Spatial.Map.ExitsDistinct | src/map/mod.rs:115-152 | no exit is listed twice |
| Spatial.FootprintAfterAnchor | src/map/mod.rs:60-68 | a footprint cell never precedes its anchor in row-major order, and is the anchor only at offset (0, 0) |
| Spatial.TopRowsBorder | src/map/mod.rs:56-57 | indexes before (1, 1) are border tiles, which the multi-tile pass never visits |
| Spatial.RowEndBorder | src/map/mod.rs:56-57 | indexes between the end of interior row y and (1, y+1) are border tiles |
| Spatial.BottomRowsBorder | src/map/mod.rs:56-57 | indexes from the bottom row on are border tiles |
| Ecs.SumAppend | explore2/src/combat/damage.rs:18 | the sum of a list with one more amount is the old sum plus that amount |
| Ecs.DistinctAppend | explore2/src/combat/damage.rs:43 | appending an entity not yet listed keeps the list free of repeats |
| Ecs.Without | explore2/src/combat/damage.rs:51-53 | the entities left after deleting `dead` are exactly those listed and not dead, no more of them, and still without repeats |
| Ecs.NatToString | explore2/src/combat/melee.rs:36-39 | the decimal form of a damage amount is non-empty, made of digits, and starts with 0 only when it is the single digit of 0 |
| Ecs.NatToStringValue | explore2/src/combat/melee.rs:36-39 | the digits written for n denote n again, read most significant first: the string is the decimal form of n |
| Melee.BlowDamage | explore2/src/combat/melee.rs:28 | the damage is `max(0, power - defense)`: never negative, at least power - defense, and one of the two |
| Melee.ResolveCases | explore2/src/combat/melee.rs:21-47 | an attacker without name and stats, or with hp <= 0, or whose target has hp <= 0, changes nothing; zero damage logs "<a> is unable to hurt <t>" and records no damage; positive damage logs "<a> hits <t>, for <n> hp." and appends n to the target's pending list, leaving every other entity's list alone |
| Melee.ResolveAllAdds | explore2/src/combat/melee.rs:21-48 | across the join pending amounts stay positive, no entity loses pending damage, and the log only grows |
| Melee.ResolveAllOnlyTargets | explore2/src/combat/melee.rs:40-44 | an entity no living attacker targets gets no new pending damage |
| Melee.MeleeSystem | explore2/src/combat/melee.rs:18-51 | the pending damage and the log become the join's fold over the live entities, and every melee intent is removed |
| Damage.DamageSystem | explore2/src/combat/damage.rs:14-22 | every entity with stats loses the sum of its pending amounts, others keep their stats, and the pending storage is emptied |
| Damage.SumPositive | explore2/src/combat/damage.rs:18 | a list of positive amounts sums to at least its length, and the empty list to 0 |
| Damage.DamageOnlyLowers | explore2/src/combat/damage.rs:17-19 | applying melee damage only lowers hp, leaves max hp, defense and power alone, and lowers hp exactly when some damage is pending |
| Damage.MeleeThenDamage | explore2/src/combat/melee.rs:28-44 | one successful blow followed by the damage pass lowers the target's hp by exactly the blow's damage |
| Damage.SweepAll | explore2/src/combat/damage.rs:34-48 | the collected dead are exactly the listed non-player entities with stats and hp < 1, and the log only grows |
| Damage.PlayerNeverSwept | explore2/src/combat/damage.rs:45 | a player at hp < 1 is never collected, and "You are dead" is logged |
| Damage.DeleteTheDead | explore2/src/combat/damage.rs:25-54 | the log gains the sweep's lines and exactly the swept entities are deleted with all their components, after the scan |
| Damage.FindTheDead | explore2/src/combat/damage.rs:26-49 | the scan returns the sweep's dead, in join order, and appends its log lines |
| MonsterAI.InMeleeRangeIsAdjacent | explore2/src/ai/monster.rs:46-48 | on integer points, Pythagorean distance < 1.5 holds exactly when both coordinate differences are at most 1 |
| MonsterAI.Step | explore2/src/ai/monster.rs:67-68 | a path step index decodes to an on-map point whose index is that step |
| MonsterAI.ChaseCases | explore2/src/ai/monster.rs:46-73 | a monster in melee range files a melee intent against the player and nothing else changes; one out of range that does not see the player is untouched; a monster moves only when it sees the player and A* succeeded with more than one step, to `steps[1]` decoded as (idx % width, idx / width), freeing its old tile, blocking the new one, marking its viewshed dirty and filing no intent |
| MonsterAI.ChaseAllFrame | explore2/src/ai/monster.rs:43-45 | an entity that is not a monster of the join keeps its position, viewshed and intent; the pass keeps the blocked mask's size and every monster on the map |
| MonsterAI.ChaseAllIntents | explore2/src/ai/monster.rs:49-56 | no position is added or removed, and every melee intent after the pass targets the player or was already there |
| MonsterAI.MonsterTurn | explore2/src/ai/monster.rs:26-75 | outside MonsterTurn nothing changes; in MonsterTurn positions, viewsheds, intents and the blocked mask become the fold of the per-monster rule over the live entities |
| MonsterAI.ChaseOne | explore2/src/ai/monster.rs:46-73 | one monster's body changes the state exactly as the per-monster rule says |
| Inventory.PickupAllMoves | explore2/src/player/inventory.rs:24-41 | an item some intent of the join picks up loses its position and lands in the backpack of one of its collectors; every other entity keeps its position and backpack entry |
| Inventory.PickupLogsOnlyPlayer | explore2/src/player/inventory.rs:35-40 | when no intent's collector is the player the log is unchanged |
| Inventory.ItemCollection | explore2/src/player/inventory.rs:20-44 | positions, backpack and log become the pickup fold over the live entities, and every pickup intent is removed |
| Inventory.DropCases | explore2/src/player/inventory.rs:219-234 | a drop gives the item the dropper's position and takes it out of the backpack; nothing else changes |
| Inventory.DropAllPlaces | explore2/src/player/inventory.rs:218-242 | an item some intent drops ends with a position and out of the backpack; every other entity keeps both; no position is ever taken away |
| Inventory.ItemDrop | explore2/src/player/inventory.rs:207-245 | positions, backpack and log become the drop fold over the live entities, and every drop intent is removed |
| Inventory.BlastTiles | explore2/src/player/inventory.rs:103-104 | the retained blast tiles are exactly the field-of-view tiles strictly inside the border |
| Inventory.Occupants | explore2/src/player/inventory.rs:105-110 | the occupants collected are exactly those of some listed tile |
| Inventory.TargetsMeaning | explore2/src/player/inventory.rs:88-114 | no target point targets the player whoever used the item; a point without area of effect targets exactly that tile's occupants; with area of effect, exactly the occupants of interior tiles in the field of view |
| Inventory.CollectTargets | explore2/src/player/inventory.rs:88-114 | the targets vector built in place equals the target list |
| Inventory.HealAllUsed | explore2/src/player/inventory.rs:121-130 | a healing item counts as used iff some target has stats |
| Inventory.HealAllClamps | explore2/src/player/inventory.rs:125 | each distinct target with stats ends at min(max_hp, hp + heal_amount); the others are unchanged; no entity gains or loses stats |
| Inventory.HealAllBounded | explore2/src/player/inventory.rs:125 | healing keeps max hp and never lifts hp above it |
| Inventory.HarmAllCharges | explore2/src/player/inventory.rs:141-150 | every target gets the item's damage pending, and a non-target's pending damage is unchanged |
| Inventory.Confuse | explore2/src/player/inventory.rs:162-175 | every target gets Confusion with the item's turns; other entries are kept |
| Inventory.UseOneConsumes | explore2/src/player/inventory.rs:85-186 | an item is consumed iff it is Consumable, carries no Confusion, and, if it inflicts damage, had a target, or else, if it heals, some target had stats |
| Inventory.UseAllConsumesOnlyUsed | explore2/src/player/inventory.rs:84-190 | the pass keeps the set of entities with stats, and consumes only Consumable items that some live entity used |
| Inventory.UseAllWithoutHealing | explore2/src/player/inventory.rs:116-186 | only healing writes combat stats: a pass in which no used item heals leaves every entity's stats as they were |
| Inventory.HealTargets | explore2/src/player/inventory.rs:122-131 | the healing loop's stats, log and used flag are those of the healing fold |
| Inventory.HarmTargets | explore2/src/player/inventory.rs:141-150 | the damage loop's pending damage and log are those of the damage fold; used iff there was a target |
| Inventory.ConfuseTargets | explore2/src/player/inventory.rs:155-175 | the confusion loop logs as the fold says and confuses exactly the targets |
| Inventory.UseItem | explore2/src/player/inventory.rs:116-186 | one intent's body changes stats, pending damage, confusion, log and the consumed set as the per-use rule says |
| Inventory.ItemUse | explore2/src/player/inventory.rs:67-190 | stats, pending damage, confusion, log and the items to delete become the use fold over the live entities, and every use intent is removed |
| Character.Spawn | explore2/src/player/character.rs:29-55 | a fresh entity is appended with the start position, the Player marker, an empty dirty viewshed of the configured range, the configured name, and stats max_hp/starting_hp/defense/power from the configuration; nothing else changes |
| Character.New | explore2/src/player/character.rs:16-26 | the player is spawned at the first room's centre, and that point is returned with the new entity |
| Character.LastItemAt | explore2/src/player/character.rs:65-70 | a found item is a live Item at the player's point; none found means no live Item stands there |
| Character.LastItemAtIsLast | explore2/src/player/character.rs:66-69 | when several items stand on the point, the one found is the last in join order |
| Character.GetItem | explore2/src/player/character.rs:57-89 | with no item at the player's point "There is nothing here to pick up." is logged and no intent filed; otherwise the player files a pickup of that item and the log is unchanged |
| ItemMenu.CarriedMeans | explore2/src/gui/menus/item.rs:49-54 | the listed entries are exactly the live, named entities in the player's backpack, in join order, without repeats |
| ItemMenu.Pick | explore2/src/gui/menus/item.rs:83-95 | no key gives NoResponse; Escape gives Cancel; a letter whose option is in [0, count) gives Selected with that listed entity; any other letter gives NoResponse; only Selected carries an entity |
| ItemMenu.SelectItem | explore2/src/gui/menus/item.rs:14-96 | `show_inventory`'s (and `drop`'s, lines 98-180) answer is `Pick` over the carried list |
| MainMenu.Rank | explore2/src/gui/menus/main.rs:7-14 | the six entries have positions 0 to 5 |
| MainMenu.RingSteps | explore2/src/gui/menus/main.rs:140-166 | Up moves one place back and Down one place on, around a ring of six, and each undoes the other |
| MainMenu.AsWrittenSkipsTooFar | explore2/src/gui/menus/main.rs:150-152 | as written, with no save, Up from Credits lands on NewGame and Down from SaveGame on Quit, so Up then Down from Credits does not return to Credits |
| MainMenu.CursorUp | explore2/src/gui/menus/main.rs:140-156 | corrected: with a save the cursor moves one place up; without one it never lands on LoadGame |
| MainMenu.CursorDown | explore2/src/gui/menus/main.rs:157-173 | corrected: with a save the cursor moves one place down; without one it never lands on LoadGame |
| MainMenu.UpDownInverse | explore2/src/gui/menus/main.rs:140-173 | with the corrected cursor, Up and Down undo each other from every reachable entry |
| MainMenu.NoSaveNoLoad | explore2/src/gui/menus/main.rs:150-152 | without a save neither the as-written nor the corrected cursor ever lands on LoadGame |
| MainMenu.DrawSelection | explore2/src/gui/menus/main.rs:126-191 | Selected exactly on Return in the menu, with the current entry; Escape, or a state that is not the menu, gives NoSelection(ContinuePlaying); no key or another key keeps the current entry |
| MainMenu.DrawKeepsOffLoad | explore2/src/gui/menus/main.rs:140-173 | without a save a cursor off LoadGame stays off it whatever the key |
| MainMenu.Draw | explore2/src/gui/menus/main.rs:126-191 | the menu's answer with the cursor as written: with a save Up moves one place back and Down one place on around the ring of six; without a save a cursor off LoadGame never lands on it |
| Hunger.Fed | src/effects/hunger.rs:4-9 | a target with a hunger clock becomes WellFed for 20 turns; no clock is added or removed and other clocks are unchanged |
| Hunger.FedIdempotent | src/effects/hunger.rs:4-9 | feeding twice is feeding once |
| Hunger.FedCommutes | src/effects/hunger.rs:4-9 | feeding two targets gives the same clocks in either order |
| Hunger.WellFedEffect | src/effects/hunger.rs:4-9 | the hunger clocks become `Fed` of the old ones, the spawner is ignored and nothing else is touched |
| Explore1Player.World.constructor | explore1/src/player.rs:7-10 | the first snapshot's world starts with no entities, positions or players |
| Explore1Player.ShiftedMeans | explore1/src/player.rs:12-18 | a non-player (or dead) entity stays put; a player whose destination is a wall stays put; otherwise it ends inside [0,79] x [0,49], exactly at the destination when that is already inside; the pass never adds or removes a position |
| Explore1Player.TryMovePlayer | explore1/src/player.rs:7-19 | every player with a position is shifted by the same delta as `Shifted` says, in one pass over the join |
| Explore1Player.KeyDeltaGrows | explore1/src/player.rs:21-40 | every movement key of this snapshot moves as in the later snapshots, which add exactly Q, E, C and Z as diagonals |
| Explore1Player.PlayerInput | explore1/src/player.rs:21-41 | a movement key shifts the players by its delta; no key or an unlisted key changes nothing |
| PlayerMove.FirstFighter | explore2/src/player/user.rs:32-45 | the fighter found is the first occupant with combat stats; none found means no occupant has them |
| PlayerMove.MoveStepCases | explore2/src/player/user.rs:20-56 | a destination outside 1..=width-1 x 1..=height-1 ends the whole move and changes nothing; an occupant with stats is attacked (intent on the mover, no move, the move ends); a blocked destination changes nothing; otherwise the player enters it (the clamp keeps it), the viewshed is dirty and the player point follows; other entities are untouched |
| PlayerMove.MoveAllStopped | explore2/src/player/user.rs:28-43 | once the move has ended (the early `return`), later players are not visited |
| PlayerMove.MoveAllOnlyPlayers | explore2/src/player/user.rs:20-22 | an entity without the Player marker keeps its position and intent |
| PlayerMove.FindFighter | explore2/src/player/user.rs:32-45 | the occupant loop returns the first fighter |
| PlayerMove.MoveOne | explore2/src/player/user.rs:23-55 | one player's body changes the state exactly as `MoveStep` says |
| PlayerMove.TryMove | explore2/src/player/user.rs:11-57 | `try_move` (identical in explore2/src/player.rs:11-57) leaves positions, viewsheds, intents and the player point as the move fold says |
| PlayerMove.RepliesCompared | explore2/src/player/user.rs:59-100 | the two input handlers (the other is explore2/src/player.rs:59-93) differ exactly on P, I, L and Escape (main menu versus quitting); a turn is spent exactly on a movement key, or P in `user.rs`, whether or not anyone moved |
| PlayerMove.UserInput | explore2/src/player/user.rs:59-100 | the answer is `UserReply`; a movement key moves as `try_move` does; P looks for an item as `get_item` does; every other key changes nothing |
| PlayerMove.PlayerInput | explore2/src/player.rs:59-93 | the answer is `PlayerReply`; a movement key moves as `try_move` does; every other key changes nothing |
| Explore2World.NewDamage | explore2/src/combat/melee.rs:40-44 | `SufferDamage::new_damage`: the victim's pending list gains the amount at its end (a list is created when it had none); every other entity's pending damage is unchanged |
| Explore2World.World.CreateEntity | explore2/src/player/character.rs:30-31 | `create_entity` hands out a fresh id never live before, appends it to the live entities and keeps the id counter ahead of every id |
| Explore2World.World.DeleteEntities | explore2/src/combat/damage.rs:51-53 | `delete_entity` of every given entity: they leave the live list and every component storage, all others keep theirs |
| GameWorld.World.CreateEntity | src/game/state.rs:503-507 | the new player entity is a fresh id, appended to the live entities |
| GameWorld.World.DeleteAll | src/game/state.rs:493-500 | deleting every entity of the join leaves no live entity and every component storage empty |
| Explore2State.RunSystems | explore2/src/game/state.rs:47-66 | the pass ends as the systems compute in order, from the world before it: positions, viewsheds and the blocked mask as the monster turn leaves them; the log, combat stats, pending damage, confusion and backpack as melee, then damage, then pickup, use and drop leave them (`Fought`, `Passed`); the items use consumed, and only those, are deleted with all their components by `maintain`; every intent but pending damage ends empty; no other storage changes |
| Explore2State.Fight | explore2/src/game/state.rs:50-57 | positions, viewsheds and the blocked mask become the monster turn's fold, the log melee's fold over the intents that turn leaves, and the combat stats the damage pass over all pending damage; no melee intent or pending damage is left and no other storage changes |
| Explore2State.Collect | explore2/src/game/state.rs:58-63 | pickup, then use on what pickup left, then drop on what both left (`Gathered`): positions, backpack, log, combat stats, pending damage, confusion and the consumed set are those folds' results, and no pickup, use or drop intent is left |
| Explore2State.ItemDamageWaits | explore2/src/game/state.rs:47-66 | damage is applied before use, so item damage waits for the next pass: when no used item heals, the stats end as melee's damage left them; when no item is used, nothing is left pending and nothing is consumed |
| Explore2State.SixSystems | explore2/src/game/state.rs:50-63 | the six systems leave every storage they write as `Fought` and `Passed` compute, and every storage they only read as it was |
| Explore2State.Maintain | explore2/src/game/state.rs:65 | `maintain` deletes exactly the consumed items, with all their components |
| Explore2State.HuntStage | explore2/src/game/state.rs:50-51 | the monster turn leaves its storages as `Hunted` says and every other storage as it was |
| Explore2State.Chase | explore2/src/game/state.rs:50-51 | positions, viewsheds, melee intents and the blocked mask become `Hunted`'s: the chase fold in MonsterTurn, unchanged otherwise |
| Explore2State.MeleeStage | explore2/src/game/state.rs:54-55 | pending damage and the log become melee's fold, no melee intent is left, and nothing else changes |
| Explore2State.DamageStage | explore2/src/game/state.rs:56-57 | the combat stats become the damage pass over the pending damage, which ends empty; nothing else changes |
| Explore2State.PickStage | explore2/src/game/state.rs:58-59 | positions, backpack and log become the pickup fold, no pickup intent is left, and every dropper keeps a position |
| Explore2State.UseStage | explore2/src/game/state.rs:60-61 | stats, pending damage, confusion, log and the consumed set become the use fold, and no use intent is left |
| Explore2State.DropStage | explore2/src/game/state.rs:62-63 | positions, backpack and log become the drop fold, and no drop intent is left |
| Explore2State.ChosenDistinct | explore2/src/game/state.rs:296-307 | each main-menu choice leads to its own run state, none of them a menu or a turn of play |
| Explore2State.TurnCycle | explore2/src/game/state.rs:192-278 | a player turn is always followed by the monsters' turn and that by waiting for input; a player turn is reached only by a move or wait key, or a selection in the inventory, drop or targeting menu; the monsters' turn only from a player turn |
| Explore2State.TargetingOnlyForRanged | explore2/src/game/state.rs:216-224 | the inventory opens targeting only for a listed item that has a range, and with that range |
| Explore2State.NoSaveNeverLoads | explore2/src/game/state.rs:288-310 | without a save file no step ever selects or starts loading a game |
| Explore2State.InventoryChoice | explore2/src/game/state.rs:211-240 | the next state is the machine's; exactly when it is the player's turn the player wants to use the picked item with no target, otherwise the use intents are unchanged |
| Explore2State.DropChoice | explore2/src/game/state.rs:241-258 | the next state is the machine's; exactly when it is the player's turn the player wants to drop the picked item, otherwise the drop intents are unchanged |
| Explore2State.TargetChoice | explore2/src/game/state.rs:259-278 | the next state is the machine's; on a selection the player wants to use the item at the chosen point, otherwise the use intents are unchanged |
| Explore2State.MenuChoice | explore2/src/game/state.rs:288-310 | the main menu stays open, on the cursor `draw` reports with its moves as written, exactly when nothing is selected; a selection leads to that choice's state |
| Explore2State.Step | explore2/src/game/state.rs:192-354 | the new run state is the machine's successor; a turn of play leaves the world as `RunSystems` does; waiting for input answers the key as `input` does and touches nothing else; every other state records exactly the use or drop intent its selection names, keeps those intents otherwise, and changes nothing else; only consumed items leave the live entities and the Player storage |
| Explore2State.SystemsFrame | explore2/src/game/state.rs:193-210 | a turn of play runs the systems as `RunSystems` states, folds in order, and moves from the player's turn to the monsters' and from every other turn state to waiting for input |
| Explore2State.InputFrame | explore2/src/game/state.rs:198-200 | waiting for input answers the key as `input` does (moves, attack intents, pickup requests, the player point) and changes no other storage |
| Explore2State.MenuFrame | explore2/src/game/state.rs:211-345 | every menu and bookkeeping state moves to the machine's successor, records exactly the intent its selection names (the inventory's use, the drop, the targeted use), leaves those intents unchanged otherwise, and changes no other storage or resource |
| Explore2State.Tick | explore2/src/game/state.rs:159-361 | the machine's successor is written, then the dead are swept: the live entities become exactly those the step left minus the non-players below one hit point, where the step left the old ones outside a turn of play and the systems' survivors in one |
| Explore2State.SweepStage | explore2/src/game/state.rs:360 | `delete_the_dead` removes exactly the live non-players with fewer than one hit point, with all their components, and the log gains the sweep's lines |
| Explore2State.LeftoversMeans | explore2/src/game/state.rs:68-98 | an entity is removed on a level change iff it is live, not a player and not carried by the player |
| Explore2State.EntitiesToRemoveOnLevelChange | explore2/src/game/state.rs:68-98 | the join collects exactly the leftovers, in entity order |
| Explore2State.RemoveLeftovers | explore2/src/game/state.rs:101-107 | after the deletions a formerly live entity is still live iff it is a player or in the player's backpack |
| Explore2State.GotoNextLevel | explore2/src/game/state.rs:100-155 | the new map is one level deeper with the same size; only the player and their items survive; a fresh player stands on the first room's centre with a dirty viewshed, hp raised to at least half its maximum, and the log gains the descent line |
| Explore2State.Arrive | explore2/src/game/state.rs:129-154 | the new character is a fresh live player at the first room centre, its viewshed marked dirty, its hp the larger of its own and half its maximum, and the log gains the descent line |
| Visibility.ViewBlockersMeans | src/systems/visibility_system.rs:25-29 | a tile index is view-blocked iff some live entity with a position and a view-blocking component stands there |
| Visibility.Retained | src/systems/visibility_system.rs:36-38 | the retained field of view keeps exactly the interior points of the computed one, never more points than it had |
| Visibility.SpotAll | src/systems/visibility_system.rs:54-68 | the spotting rolls on one tile change neither viewsheds nor the visible and revealed flags |
| Visibility.SpotAllOnlyLucky | src/systems/visibility_system.rs:54-68 | hidden things only ever become unhidden, the dice are only consumed, an entity is unhidden only if it stands on the tile and some roll of the 1d24 came up 1, and a log line appears only for a named entity that was unhidden |
| Visibility.RevealAllFlags | src/systems/visibility_system.rs:46-52 | after the player's points a tile is visible, and revealed, iff it was before or it is the index of an interior point among them; every tile vector keeps its size and the viewsheds are untouched |
| Visibility.RevealAllHidden | src/systems/visibility_system.rs:53-68 | an entity that stops being hidden stands on the tile of some interior point the player sees |
| Visibility.RefreshMeans | src/systems/visibility_system.rs:31-73 | a dirty viewshed with a position is recomputed: it becomes clean, keeps its range, holds interior points only; a monster's refresh changes nothing else, a player's makes a tile visible iff it is the index of one of its points; revealed tiles stay revealed, hidden things only get found, other viewsheds and clean ones are untouched; every tile vector keeps its size |
| Visibility.RefreshAllMeans | src/systems/visibility_system.rs:31-73 | after the join every dirty viewshed of a positioned entity is clean, keeps its range and holds interior points only, every other viewshed is unchanged, revealed tiles stay revealed and the hidden set only shrinks; every tile vector keeps its size |
| Visibility.VisibilitySystem | src/systems/visibility_system.rs:21-74 | `view_blocked` is rebuilt from the view blockers and the viewsheds, visible, revealed and hidden state and the log end as the refresh of every entity in order |
| Visibility.RebuildViewBlocked | src/systems/visibility_system.rs:25-29 | the set of view-blocked tiles becomes exactly the view blockers' indexes |
| Visibility.OpaqueAfterRebuild | src/map/mod.rs:107-113 | once the view-blocked tiles are rebuilt, index 0 and indexes past the map are opaque, and any other tile is opaque iff its tile type is or a live view-blocking entity stands on it |
| Visibility.RefreshOne | src/systems/visibility_system.rs:32-72 | the body of the join for one entity leaves the state its `Refresh` |
| Visibility.ClearVisible | src/systems/visibility_system.rs:43-45 | every visible flag becomes false and the vector keeps its length |
| Visibility.ShowTile | src/systems/visibility_system.rs:46-69 | one seen point leaves the state its `RevealTile` |
| VisibleAI.TileOf | src/systems/ai/visible_ai_system.rs:54 | the point (idx % width, idx / width) built from a tile index lies on the map and has that index again |
| VisibleAI.Trunc | src/systems/ai/visible_ai_system.rs:59-78 | a float cast to an integer truncates toward zero: the result is the integer part of a non-negative value and rounds a negative value up |
| VisibleAI.EvaluateMeans | src/systems/ai/visible_ai_system.rs:109-118 | `evaluate` records a sighting iff it names the tile, an occupant of that tile with a faction, and the reaction of this faction to that one |
| VisibleAI.SightingsMeans | src/systems/ai/visible_ai_system.rs:41-46 | a sighting is collected iff its tile is the index of a visible point other than the entity's own tile and it is one of that tile's faction occupants with its reaction |
| VisibleAI.ShootAllMeans | src/systems/ai/visible_ai_system.rs:73-86 | the weapon scan orders a shot at the victim and ends the turn iff some equipped ranged weapon of the entity reaches the distance; otherwise the plan is unchanged |
| VisibleAI.ReactAllCoherent | src/systems/ai/visible_ai_system.rs:49-99 | reacting to the sightings keeps a plan coherent (an approach always comes with a chase target), appends exactly the flee tiles of the sightings in order, and never clears `done` |
| VisibleAI.CastAllKeeps | src/systems/ai/visible_ai_system.rs:56-71 | the ability scan touches only the spell order and `done`: a cast that is ordered targets the attacked tile or is the earlier one, and the turn ends only by ordering a cast |
| VisibleAI.ReactAllTargets | src/systems/ai/visible_ai_system.rs:49-99 | every approach and chase, shot and spell target of a fresh plan comes from a sighting the entity reacts to with Attack |
| VisibleAI.SightingsInRange | src/systems/ai/visible_ai_system.rs:41-46 | every tile index a candidate looks at lies inside the tile contents |
| VisibleAI.DecideMeans | src/systems/ai/visible_ai_system.rs:36-104 | the flee list is the Flee sightings' tiles; the entity flees iff it neither casts, shoots nor approaches and something frightens it; it never both shoots and approaches; it approaches iff it chases, and then toward an Attack sighting's tile and occupant |
| VisibleAI.ActAllOthers | src/systems/ai/visible_ai_system.rs:36-37 | the player, an entity without its turn, faction, position or viewshed, or one outside the join keeps every order it had, and no order of another entity is removed |
| VisibleAI.VisibleAISystem | src/systems/ai/visible_ai_system.rs:31-107 | the five order storages and the dice end as the decisions of every entity of the join, in entity order |
| VisibleAI.CommitPlan | src/systems/ai/visible_ai_system.rs:62-102 | the inserts of one entity leave the order storages as its plan commits them |
| VisibleAI.DecideOne | src/systems/ai/visible_ai_system.rs:38-99 | the body of the join for one entity computes its `Decide` plan |
| VisibleAI.Look | src/systems/ai/visible_ai_system.rs:38-46 | the visible-tile scan collects exactly the entity's sightings |
| VisibleAI.EvaluateTile | src/systems/ai/visible_ai_system.rs:109-118 | the occupant scan of one tile collects exactly its `Evaluate` sightings |
| VisibleAI.Respond | src/systems/ai/visible_ai_system.rs:50-97 | one reaction updates the plan as `ReactOne` says |
| VisibleAI.Abilities | src/systems/ai/visible_ai_system.rs:56-71 | the ability loop computes `CastAll` |
| VisibleAI.Shoot | src/systems/ai/visible_ai_system.rs:73-86 | the weapon join computes `ShootAll` over the live entities |
| Trigger.AnnouncedAppend | src/systems/trigger_system.rs:34-40 | the announcements of two runs of effects are the announcements of each, concatenated |
| Trigger.SprungMeans | src/systems/trigger_system.rs:26-64 | a mover sets off an effect iff it is the trigger effect, created by the mover, of an entry trigger among its tile's occupants that is not the mover itself |
| Trigger.QueuedMeans | src/systems/trigger_system.rs:24-66 | an effect is queued iff some live, moved, positioned entity stands on a tile holding an entry trigger other than itself and the effect is that trigger's, created by that mover |
| Trigger.NeverSelfTriggered | src/systems/trigger_system.rs:27 | every queued effect was created by a mover of the pass and fires a trigger other than that mover |
| Trigger.TriggerSystem | src/systems/trigger_system.rs:19-70 | the effect queue gains exactly the movers' trigger effects in order, the log announces each named trigger fired, and no movement marker is left |
| Trigger.FireAll | src/systems/trigger_system.rs:24-66 | the join over the movers queues and announces the effects of every mover in entity order |
| Trigger.FireMover | src/systems/trigger_system.rs:24-65 | an entity takes part in the join only when it moved and has a position; then it sets off exactly what lies on its tile, otherwise nothing is queued or logged |
| Trigger.TriggerOne | src/systems/trigger_system.rs:25-65 | one mover queues and announces exactly what it sets off on its tile |
| Trigger.Fire | src/systems/trigger_system.rs:32-61 | one trigger is announced when named and queues one effect created by the mover, aimed at the area-of-effect tiles when it has a radius and at the mover's tile otherwise |
| GameState.Leave | src/game/state.rs:137-152 | the state a systems pass hands back is never `Ticking` again when it ends the loop |
| GameState.FirstExit | src/game/state.rs:134-153 | the first pass that ends the loop: every earlier pass keeps ticking and that one leaves |
| GameState.FirstExitAnyBound | src/game/state.rs:134-153 | the first leaving pass does not depend on which later leaving pass bounds the search |
| GameState.SettleMeans | src/game/state.rs:132-157 | the ticking loop settles on the state of the first leaving pass, which is one of waiting for input, the start of a magic-map reveal at row 0, town portal, teleport, remove curse or identify, and never `Ticking` |
| GameState.MenusCancelAndWait | src/game/state.rs:158-377 | every item, targeting, cheat and vendor menu returns to waiting for input when cancelled and stays open while nothing is answered |
| GameState.LevelChangesRegenerate | src/game/state.rs:99-452 | a level change, the teleport cheat and quitting after game over go through map generation; the level changes then run the systems once and wait for input, game over lands on the main menu at New Game |
| GameState.TownPortalLandsOnDepthOne | src/game/state.rs:429-439 | the town portal offset is 1 - depth, so the level transition it asks for is to depth 1, right after spawning the portal and freezing the level |
| GameState.OneSweepPerTick | src/game/state.rs:467-490 | a frame that does not exit the process deletes the dead exactly once and last; whenever a level transition is asked for outside game over, the level was frozen right before |
| GameState.OwnCallsShape | src/game/state.rs:98-490 | the work a state does before the write never deletes the dead and always freezes the level right before a transition outside game over |
| GameState.FreezeFirst | src/game/state.rs:193-490 | every state that changes level freezes the current level immediately before it asks for the transition |
| GameState.TickingRunsSystemsUntilExit | src/game/state.rs:132-157 | a ticking frame runs the systems once per pass up to and including the first leaving pass, and ends the turn's targeting iff it settles on waiting for input |
| GameState.MagicMapRun | src/game/state.rs:453-464 | a reveal run from any row ends in `Ticking` with the vector's length kept |
| GameState.MagicMapRunMeans | src/game/state.rs:453-464 | a magic-map run from a row reveals exactly the tiles from that row to the bottom and keeps every other flag; the vector keeps its length |
| GameState.MagicMapRevealsAll | src/game/state.rs:453-464 | a run from row 0 over a width x height map reveals every tile and resumes ticking |
| GameState.Tick | src/game/state.rs:76-477 | the frame writes the successor run state and the pending map-generation state, appends exactly the calls the state makes followed by one deletion of the dead, keeps the world and map well formed, and reports whether it quit the process |
| GameState.Act | src/game/state.rs:98-465 | the state's own work before the write: the successor, the pending map-generation state, the calls, and `Worked`: magic mapping reveals its row and the reveal cheat every tile; building a level restarts the generator; a level change restarts the log and a teleport moves the player; quitting the game-over screen leaves a fresh player, nothing identified and the welcome; every other frame records exactly its item or targeting selection, applies its cheat to the pools and writes the log only when teleporting |
| GameState.PlayAct | src/game/state.rs:99-464 | map generation, pre-run, input, ticking, saving and the magic-map reveal move to their successors with their calls; only the reveal touches the revealed tiles, setting exactly its row |
| GameState.MenuAct | src/game/state.rs:158-399 | every menu state moves to its successor with its calls and passes its frame's effects up: the recorded intents, lifted curses and identified names of the item menus and targeting (`Recorded`), the cheats' pools, revealed tiles and log; the records are unchanged in every other menu |
| GameState.PanelAct | src/game/state.rs:158-399 | the menus other than the cheat menu, with the same successor, calls and effects as `MenuAct` states |
| GameState.ItemAct | src/game/state.rs:158-317 | an item menu or the targeting frame moves to its successor and leaves the records as `Recorded` says |
| GameState.OtherAct | src/game/state.rs:99-465 | the states outside the menus: successor, calls and map; a level change restarts the log and a teleport moves the player; the game-over reset; otherwise no intent, pool or log changes |
| GameState.RestAct | src/game/state.rs:99-464 | game over and the states of play: the reset when quitting the game-over screen, and otherwise no intent, pool or log changes |
| GameState.TickingLoop | src/game/state.rs:132-157 | the loop returns the settled state, having run the systems once per pass up to the first leaving one, and then ends the targeting iff it waits for input |
| GameState.FirstExitIs | src/game/state.rs:134-153 | a pass that leaves after only ticking passes is the first leaving pass |
| GameState.ItemFrame | src/game/state.rs:158-283 | each item menu's selection records exactly its effect for the player (use without a target, drop, remove, lift the curse, identify the name); without a selection no intent, curse or identification changes |
| GameState.TargetFrame | src/game/state.rs:284-317 | a chosen tile files a cast at that point for a spell and a use at that point for any other item, for the player; otherwise the records are unchanged |
| GameState.RecordedOnlyPlayer | src/game/state.rs:158-317 | no menu or targeting selection changes another entity's use, drop, remove or cast intent |
| GameState.RecordedMonotone | src/game/state.rs:158-317 | curses are only ever lifted and names only ever identified; without a selection nothing is recorded |
| GameState.VendorFrame | src/game/state.rs:318-377 | the vendor menu returns to input on cancel, switches between buy and sell mode, and stays open otherwise |
| GameState.MainMenuFrame | src/game/state.rs:379-399 | the main menu moves the cursor, starts a new game, or loads and then deletes the save; it quits the process on Quit |
| GameState.CheatFrame | src/game/state.rs:188-220 | heal and god mode change the pools as `Cheated` says, reveal marks every tile revealed, teleport freezes, builds the next level and restarts the log; no intent, curse or identified name changes |
| GameState.CheatedOnlyPlayer | src/game/state.rs:188-220 | the cheats touch only the player's pools: full health after a heal with god mode kept, invulnerable after god mode with hit points kept, every other entity unchanged, and nothing changed outside these two cheats |
| GameState.AllRevealed | src/game/state.rs:205-210 | the flags of an all-revealed map of n tiles: n of them, every one set |
| GameState.RevealEverything | src/game/state.rs:205-210 | every revealed flag becomes true and the vector keeps its length |
| GameState.RevealRow | src/game/state.rs:454-458 | exactly the tiles of the row become revealed |
| GameState.LevelFrame | src/game/state.rs:419-452 | next level, previous level, town portal and teleport freeze, build the level at their offset, log the change, schedule pre-run after map generation; a teleport also moves the player to its point |
| GameState.GotoLevel | src/game/state.rs:481-490 | freeze, then the world map at depth plus offset, then the level-change line after the welcome |
| GameState.GenerateWorldMap | src/game/state.rs:516-535 | the map-generation index and timer restart, the history is the builder's or empty (then the level is thawed), and the log holds only the welcome |
| GameState.GameOverFrame | src/game/state.rs:400-412 | game over waits without an answer; quitting to the menu cleans up and schedules the main menu after map generation |
| GameState.GameOverCleanup | src/game/state.rs:492-514 | every entity and component is gone except a fresh player, nothing is identified any more, and depth 1 is generated |

## Left out

- Rendering, the camera, particles, the FPS counter and the drawing parts of the menus: output only.
- The map-generation visualiser of the current game: `SHOW_MAPGEN_VISUALIZER` is the constant false, so `MapGeneration` always takes the pending state; the visualiser's float timer is not modelled.
- Vendor Sell and Buy effects (src/game/state.rs:324-364): gold and prices are floating point; the vendor frame keeps the state and only the mode switches and cancel are modelled.
- Floating point elsewhere: path costs and `get_pathing_distance` in `src/map/mod.rs`, the Pythagorean range and the ability chance in the visible AI (an oracle of `Oracles` decides whether an ability fires; casts to `i32` are modelled by `VisibleAI.Trunc`).
- 32-bit integer overflow: coordinates, hit points and damage are unbounded integers; the game never approaches the `i32` limits in play.
- Entity generations and id reuse of specs: a deleted id is never handed out again (`CreateEntity` takes a fresh counter value).
- Lazy deletion inside a system: specs deletes at `maintain`; `Explore2State.RunSystems` deletes the consumed items after all systems have run, which is when `maintain` does it.
- Persistence (`saveload_system`, both `persistence` modules, `explore2/src/game/world.rs`), configuration, logging and bootstrap: file I/O, serde and component registration. The current tick records its save, load and delete-save calls in the `Call` trace.
- Spawner bundles, room spawn placement, the map builders, `level_transition`, `freeze_level_entities` and `thaw_level_entities`: the dungeon, spawner and raws modules are not part of this model; their calls are `Call`s and what `level_transition` returns is the parameter `built`.
- The systems the current game dispatches between states (damage, effects, inventory and the rest): the ticking loop is modelled over `passes`, the state each pass leaves, as the source loops on the resource.
- `player_input` of the current game and the GUI producers: the state they return is part of the parameter `ui`.
- explore2's visibility and indexing systems (`physics`, `map::IndexingSystem`) are not part of this model; `Explore2State.RunSystems` runs the six systems it can see, in the source's order.
- `explore2/src/game.rs`'s own tick: drawing plus a call into a different `input`.
- Game-log text formats and colours: a line is a sequence of its fragments.
- The dungeon master map: only its set of identified item names is modelled.
- `GameState.Tick`: the source panics where an `unwrap` fails (no pending map-generation state, missing player pools for a cheat, a magic-map row off the map) and would hang when the ticking loop never leaves; the model requires instead that none of these happens (`CanTick`, `Unwraps`).
- `Explore2State.Tick`, `Explore2State.Step` and `Explore2State.RunSystems`: the `unwrap`s of the systems (melee stats and names, monster positions on the map, A* steps inside the map, droppers' positions) are required by `ReadyForSystems` rather than modelled as panics.
- `Melee.MeleeSystem`: requires that a living attacker's target has combat stats, and a name when alive, where the source unwraps them.
- `MonsterAI.MonsterTurn`: requires that the chasing monsters stand on the map and that A* steps are tile indexes, where the source would index out of bounds.
- `Inventory.ItemDrop`: requires every dropper to have a position, where the source unwraps it.
- `Trigger.TriggerSystem`: requires every mover to stand on a tile of the map, where the source would index out of bounds.
- `VisibleAI.VisibleAISystem`: requires every tile a candidate sees to lie on the map; the spell lookup `find_spell_entity_by_name(..).unwrap()` is the oracle's spell choice.
- `Explore1Player.TryMovePlayer`: requires the oracle `xy_idx` to index the tile vector at every destination.
- `VisibleAI.CastAllKeeps`: states what the ability scan keeps and where casts aim, not which ability is chosen when several fire (the later one wins in the source and in the model's definition).
- The visible AI's flow as written: a later Attack reaction still runs the ability scan after an earlier one set `done` by approaching, so one entity can both approach and cast; the model follows the code.
- The tile module's `tile_opaque` is the parameter `tileOpaque` of `Spatial.Map.IsOpaque`.
- `Ecs.NameOf`: an entity without a name reads as the empty name, where the source's `names.get(..).unwrap()` in pickup, use and drop (explore2/src/player/inventory.rs:38, 127, 144-145, 165-166, 239) would panic.
- `Inventory.OccupantsAt`: a single-target point off the map has no occupants, where the source's `tile_content[idx]` (explore2/src/player/inventory.rs:96-97) would index out of bounds.
- `Explore2State.Tick`: states the new run state and the death sweep over the entities and combat stats the step left; what the step does to positions, viewsheds, the log, the backpack, stats and intents is stated on `Explore2State.Step`, `Explore2State.SystemsFrame`, `Explore2State.InputFrame` and `Explore2State.MenuFrame`, and the sweep's log and deletion of components on `Explore2State.SweepStage`.
- `Explore2State.Step`: on `LoadGame` the source replaces the world with the saved one (explore2/src/game/state.rs:335-338); the loader is not part of this model, so the world is held fixed across it.
- `Explore2State.MenuFrame`: the same holds for its `LoadGame` arm; "changes nothing else" means nothing the frame's own code writes.
- `GameState.MenuAct`: its "unchanged" clauses hold the world fixed across the calls it records (load, delete-save, freeze, `level_transition`); in the source those calls rewrite the map and the storages (src/saveload_system.rs).
- `GameState.PanelAct`: the same holds for the main menu's load.
- `GameState.MainMenuFrame`: loading records `Load` and `DeleteSave` in the call trace and holds the world fixed across them.
- `GameState.PlayAct`: the systems run by `RunSystems` calls, the save and the thaw are calls outside this model; the world is held fixed across them.
- `GameState.OtherAct`: the same holds for the level transition, freeze and thaw of a level change and the spawner of the game-over reset.
- `GameState.RestAct`: the same holds for the systems of the states of play and the game-over reset's calls.
- `GameState.GameOverCleanup`: the fresh player is created with no components; `spawner::player` (src/game/state.rs:504) gives it its components, which is a `SpawnPlayer` call outside this model.
- `Character.New`: requires at least one room, where the source's `rooms[0]` (explore2/src/player/character.rs:18) panics on a map without rooms.
- `Explore2State.GotoNextLevel`: requires at least one room centre, where the source's `rooms[0]`, reached through `character::new` (explore2/src/game/state.rs:130), panics on a map without rooms.
- `Explore2State.Arrive`: requires at least one room centre for the same `rooms[0]`.
- `GameState.Tick`: states the run state, the pending map-generation state, the calls and well-formedness it writes or keeps; what the frame does to the map and the world is stated on `GameState.Act` as `Worked`, which `Tick` calls before writing the run state.
- `GameState.Act`: the calls it records (load, `RunSystems`, the level transition, the teleport's freeze and thaw, the game-over spawner) rewrite the map and the storages in the source; they are outside this model and the world is held fixed across them. `Worked` states the effects on the revealed tiles, the map generator, the log, the player point, the item intents, curses, identified names and pools; the game-over reset is passed up as its live entities, identified names and log, while the emptied component storages are stated only on `GameState.GameOverCleanup`; storages a frame does not write are not stated unchanged.

## Findings

| source | as written | input that shows it | evidently intended | confidence | as-written member | corrected member |
|---|---|---|---|---|---|---|
| explore2/src/gui/menus/main.rs:150-169 | with no save file, moving Up onto "Load Game" jumps to "New Game" and moving Down onto it jumps to "Quit", skipping "Save Game" and "Credits" | cursor on Credits, no save, key Up: the cursor lands on New Game, not Save Game | skip only the missing "Load Game" entry: Up from Credits gives Save Game, Down from Save Game gives Credits | not executed | MainMenu.AsWrittenSkipsTooFar | MainMenu.CursorUp |
