/**
 * The component world of the second exploration snapshot (`explore2`): one
 * storage per registered component, plus the resources its systems share
 * (the player entity, the player's tracked point and the game log).
 */
module Explore2World {
  import opened Ecs
  import MainMenu

  /** The game's run state, a resource the systems and the tick read. */
  datatype RunState =
    | AwaitingInput
    | PreRun
    | PlayerTurn
    | MonsterTurn
    | Paused
    | Quitting
    | ShowDropItem
    | ShowInventory
    | ShowTargeting(range: int, item: Entity)
    | NextLevel
    | ShowMainMenu
    | MainMenu(menuSelection: MainMenu.Selection)
    | StartNewGame
    | SaveGame
    | LoadGame
    | ShowCredits

  datatype CombatStats = CombatStats(maxHp: int, hp: int, defense: int, power: int)

  /** One-shot intents, consumed and cleared by their resolving system. */
  datatype WantsToMelee = WantsToMelee(target: Entity)
  datatype WantsToPickupItem = WantsToPickupItem(collectedBy: Entity, item: Entity)
  datatype WantsToUseItem = WantsToUseItem(item: Entity, target: Option<Point>)
  datatype WantsToDropItem = WantsToDropItem(item: Entity)

  /** Pending damage against an entity: one amount per hit this turn. */
  datatype SufferDamage = SufferDamage(amount: seq<int>)

  /** Marks an item as carried by `owner`. */
  datatype InBackpack = InBackpack(owner: Entity)

  /**
   * `SufferDamage::new_damage`: one more pending amount against `victim`,
   * after those it already has.  (Its body is not part of this model; this
   * is the behaviour its callers rely on.)
   */
  function NewDamage(pending: map<Entity, SufferDamage>, victim: Entity, amount: int): (r: map<Entity, SufferDamage>)
    ensures r.Keys == pending.Keys + {victim}
    ensures r[victim].amount == (if victim in pending then pending[victim].amount else []) + [amount]
    ensures forall e :: e in pending && e != victim ==> r[e] == pending[e]
  {
    pending[victim := SufferDamage((if victim in pending then pending[victim].amount else []) + [amount])]
  }

  class World {
    /** Live entities, in join order. */
    var entities: seq<Entity>
    /** The id the next created entity receives. */
    var nextEntity: nat

    var positions: map<Entity, Point>
    var players: set<Entity>
    var viewsheds: map<Entity, Viewshed>
    var monsters: set<Entity>
    var names: map<Entity, string>
    var blocksTile: set<Entity>
    var combatStats: map<Entity, CombatStats>
    var wantsMelee: map<Entity, WantsToMelee>
    var sufferDamage: map<Entity, SufferDamage>
    var items: set<Entity>
    var consumables: set<Entity>
    /** Ranged { range }. */
    var ranged: map<Entity, int>
    /** InflictsDamage { damage }. */
    var inflictsDamage: map<Entity, int>
    /** AreaOfEffect { radius }. */
    var areaOfEffect: map<Entity, int>
    /** Confusion { turns }: on an item, what it inflicts; on a creature, its status. */
    var confusion: map<Entity, int>
    /** ProvidesHealing { heal_amount }. */
    var providesHealing: map<Entity, int>
    var inBackpack: map<Entity, InBackpack>
    var wantsPickup: map<Entity, WantsToPickupItem>
    var wantsUse: map<Entity, WantsToUseItem>
    var wantsDrop: map<Entity, WantsToDropItem>

    /** Resources: the player entity, its tracked position, the game log and the run state. */
    var playerEntity: Entity
    var playerPos: Point
    var log: seq<string>
    var runState: RunState

    /** Live entities are distinct and were all handed out before `nextEntity`. */
    ghost predicate Valid()
      reads this`entities, this`nextEntity
    {
      Distinct(entities) && forall e :: e in entities ==> e < nextEntity
    }

    /** An empty world whose player resource names entity 0. */
    constructor ()
      ensures Valid()
      ensures entities == [] && nextEntity == 0 && log == [] && runState == PreRun
    {
      entities, nextEntity := [], 0;
      positions, players, viewsheds, monsters, names := map[], {}, map[], {}, map[];
      blocksTile, combatStats, wantsMelee, sufferDamage, items := {}, map[], map[], map[], {};
      consumables, ranged, inflictsDamage, areaOfEffect, confusion := {}, map[], map[], map[], map[];
      providesHealing, inBackpack, wantsPickup, wantsUse, wantsDrop := map[], map[], map[], map[], map[];
      playerEntity, playerPos, log, runState := 0, Point(0, 0), [], PreRun;
    }

    /** Every key of a storage is a live entity, as specs keeps it. */
    ghost predicate Tracks(keys: set<Entity>)
      reads this`entities
    {
      forall e :: e in keys ==> e in entities
    }

    /** Allocates a fresh entity with no components (specs' `create_entity`). */
    method CreateEntity() returns (e: Entity)
      requires Valid()
      modifies this`entities, this`nextEntity
      ensures Valid()
      ensures e == old(nextEntity) && e !in old(entities)
      ensures entities == old(entities) + [e] && nextEntity == e + 1
    {
      e := nextEntity;
      DistinctAppend(entities, e);
      entities := entities + [e];
      nextEntity := nextEntity + 1;
    }

    /** Between the two states, exactly the entities of `dead` and all their components went away. */
    twostate predicate Deleted(dead: set<Entity>)
      reads this
    {
      entities == Without(old(entities), dead) &&
      positions == old(positions) - dead && players == old(players) - dead &&
      viewsheds == old(viewsheds) - dead && monsters == old(monsters) - dead &&
      names == old(names) - dead && blocksTile == old(blocksTile) - dead &&
      combatStats == old(combatStats) - dead && wantsMelee == old(wantsMelee) - dead &&
      sufferDamage == old(sufferDamage) - dead && items == old(items) - dead &&
      consumables == old(consumables) - dead && ranged == old(ranged) - dead &&
      inflictsDamage == old(inflictsDamage) - dead && areaOfEffect == old(areaOfEffect) - dead &&
      confusion == old(confusion) - dead && providesHealing == old(providesHealing) - dead &&
      inBackpack == old(inBackpack) - dead && wantsPickup == old(wantsPickup) - dead &&
      wantsUse == old(wantsUse) - dead && wantsDrop == old(wantsDrop) - dead
    }

    /**
     * Deletes every entity of `dead` together with all of its components
     * (specs' `delete_entity`, applied once per victim).
     */
    method DeleteEntities(dead: set<Entity>)
      requires Valid()
      modifies this`entities, this`positions, this`players, this`viewsheds, this`monsters
      modifies this`names, this`blocksTile, this`combatStats, this`wantsMelee, this`sufferDamage, this`items, this`consumables, this`ranged
      modifies this`inflictsDamage, this`areaOfEffect, this`confusion, this`providesHealing, this`inBackpack, this`wantsPickup, this`wantsUse, this`wantsDrop
      ensures Valid() && Deleted(dead)
    {
      entities := Without(entities, dead);
      DropComponents(dead);
    }

    /** Removes `dead` from every component storage. */
    method DropComponents(dead: set<Entity>)
      modifies this`positions, this`players, this`viewsheds, this`monsters, this`names, this`blocksTile, this`combatStats
      modifies this`wantsMelee, this`sufferDamage, this`items, this`consumables, this`ranged, this`inflictsDamage, this`areaOfEffect
      modifies this`confusion, this`providesHealing, this`inBackpack, this`wantsPickup, this`wantsUse, this`wantsDrop
      ensures positions == old(positions) - dead && players == old(players) - dead
      ensures viewsheds == old(viewsheds) - dead && monsters == old(monsters) - dead
      ensures names == old(names) - dead && blocksTile == old(blocksTile) - dead
      ensures combatStats == old(combatStats) - dead && wantsMelee == old(wantsMelee) - dead
      ensures sufferDamage == old(sufferDamage) - dead && items == old(items) - dead
      ensures consumables == old(consumables) - dead && ranged == old(ranged) - dead
      ensures inflictsDamage == old(inflictsDamage) - dead && areaOfEffect == old(areaOfEffect) - dead
      ensures confusion == old(confusion) - dead && providesHealing == old(providesHealing) - dead
      ensures inBackpack == old(inBackpack) - dead && wantsPickup == old(wantsPickup) - dead
      ensures wantsUse == old(wantsUse) - dead && wantsDrop == old(wantsDrop) - dead
    {
      DropComponents1(dead);
      DropComponents2(dead);
      DropComponents3(dead);
    }

    /** Removes `dead` from one group of storages. */
    method DropComponents1(dead: set<Entity>)
      modifies this`positions, this`players, this`viewsheds, this`monsters
      modifies this`names, this`blocksTile, this`combatStats
      ensures positions == old(positions) - dead
      ensures players == old(players) - dead
      ensures viewsheds == old(viewsheds) - dead
      ensures monsters == old(monsters) - dead
      ensures names == old(names) - dead
      ensures blocksTile == old(blocksTile) - dead
      ensures combatStats == old(combatStats) - dead
    {
      positions := positions - dead;
      players := players - dead;
      viewsheds := viewsheds - dead;
      monsters := monsters - dead;
      names := names - dead;
      blocksTile := blocksTile - dead;
      combatStats := combatStats - dead;
    }

    /** Removes `dead` from one group of storages. */
    method DropComponents2(dead: set<Entity>)
      modifies this`wantsMelee, this`sufferDamage, this`items, this`consumables
      modifies this`ranged, this`inflictsDamage, this`areaOfEffect
      ensures wantsMelee == old(wantsMelee) - dead
      ensures sufferDamage == old(sufferDamage) - dead
      ensures items == old(items) - dead
      ensures consumables == old(consumables) - dead
      ensures ranged == old(ranged) - dead
      ensures inflictsDamage == old(inflictsDamage) - dead
      ensures areaOfEffect == old(areaOfEffect) - dead
    {
      wantsMelee := wantsMelee - dead;
      sufferDamage := sufferDamage - dead;
      items := items - dead;
      consumables := consumables - dead;
      ranged := ranged - dead;
      inflictsDamage := inflictsDamage - dead;
      areaOfEffect := areaOfEffect - dead;
    }

    /** Removes `dead` from one group of storages. */
    method DropComponents3(dead: set<Entity>)
      modifies this`confusion, this`providesHealing, this`inBackpack, this`wantsPickup
      modifies this`wantsUse, this`wantsDrop
      ensures confusion == old(confusion) - dead
      ensures providesHealing == old(providesHealing) - dead
      ensures inBackpack == old(inBackpack) - dead
      ensures wantsPickup == old(wantsPickup) - dead
      ensures wantsUse == old(wantsUse) - dead
      ensures wantsDrop == old(wantsDrop) - dead
    {
      confusion := confusion - dead;
      providesHealing := providesHealing - dead;
      inBackpack := inBackpack - dead;
      wantsPickup := wantsPickup - dead;
      wantsUse := wantsUse - dead;
      wantsDrop := wantsDrop - dead;
    }
  }
}
