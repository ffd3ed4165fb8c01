/**
 * The world of the current game (the `src` tree): the components its
 * visibility, AI, trigger, hunger and run-state code touch, and its resources.
 * That tree's component definitions are not part of this model; every record
 * below carries the fields the modelled code reads or writes, under their own
 * names.
 */
module GameWorld {
  import opened Ecs

  datatype VendorMode = Buy | Sell

  /** The main menu entries the run-state machine acts on. */
  datatype MenuSelection = NewGame | LoadGame | Quit

  datatype RunState =
    | AwaitingInput
    | PreRun
    | Ticking
    | ShowInventory
    | ShowDropItem
    | ShowTargeting(range: int, item: Entity)
    | MainMenu(menuSelection: MenuSelection)
    | SaveGame
    | NextLevel
    | PreviousLevel
    | TownPortal
    | ShowRemoveItem
    | GameOver
    | MagicMapReveal(row: int)
    | MapGeneration
    | ShowCheatMenu
    | ShowVendor(vendor: Entity, mode: VendorMode)
    | TeleportingToOtherLevel(x: int, y: int, depth: int)
    | ShowRemoveCurse
    | ShowIdentify

  /**
   * One special ability: the spell it casts and its floating-point chance
   * and range band, which only the oracle deciding whether it fires reads.
   */
  datatype Ability = Ability(spell: string, chance: real, range: real, minRange: real)

  datatype WantsToCastSpell = WantsToCastSpell(spell: Entity, target: Option<Point>)
  datatype WantsToUseItem = WantsToUseItem(item: Entity, target: Option<Point>)

  /** A weapon's optional range; melee weapons have none. */
  datatype Weapon = Weapon(range: Option<int>)

  datatype HungerState = WellFed | Normal | Hungry | Starving
  datatype HungerClock = HungerClock(state: HungerState, duration: int)

  datatype Pool = Pool(current: int, max: int)
  /** The player's pools; gold is floating point and is not modelled. */
  datatype Pools = Pools(hitPoints: Pool, godMode: bool)

  /** What an effect does, and where: the effects queue's entries. */
  datatype EffectType = TriggerFire(trigger: Entity)
  datatype Targets = Tiles(tiles: seq<int>) | Tile(tileIdx: int)
  datatype EffectSpawner = EffectSpawner(creator: Option<Entity>, effectType: EffectType, targets: Targets)

  class World {
    /** Live entities, in join order, and the id the next one receives. */
    var entities: seq<Entity>
    var nextEntity: nat

    var positions: map<Entity, Point>
    var players: set<Entity>
    var viewsheds: map<Entity, Viewshed>
    var hidden: set<Entity>
    var names: map<Entity, string>
    var blocksVisibility: set<Entity>
    var myTurn: set<Entity>
    /** Faction { name }. */
    var factions: map<Entity, string>
    /** SpecialAbilities { abilities }. */
    var abilities: map<Entity, seq<Ability>>
    /** Equipped { owner }. */
    var equipped: map<Entity, Entity>
    var weapons: map<Entity, Weapon>
    var wantsToCastSpell: map<Entity, WantsToCastSpell>
    /** WantsToShoot { target }. */
    var wantsToShoot: map<Entity, Entity>
    /** WantsToApproach { idx }. */
    var wantsToApproach: map<Entity, int>
    /** Chasing { target }. */
    var chasing: map<Entity, Entity>
    /** WantsToFlee { indices }. */
    var wantsToFlee: map<Entity, seq<int>>
    var entityMoved: set<Entity>
    var entryTrigger: set<Entity>
    /** AreaOfEffect { radius }. */
    var areaOfEffect: map<Entity, int>
    var hungerClocks: map<Entity, HungerClock>
    var pools: map<Entity, Pools>
    /** Ranged { range }. */
    var ranged: map<Entity, int>
    var spellTemplates: set<Entity>
    var wantsToUseItem: map<Entity, WantsToUseItem>
    /** WantsToDropItem { item }. */
    var wantsToDropItem: map<Entity, Entity>
    /** WantsToRemoveItem { item }. */
    var wantsToRemoveItem: map<Entity, Entity>
    var cursedItems: set<Entity>

    /** The dungeon map's set of identified item names. */
    var identified: set<string>
    /** The effects queue `add_effect` pushes onto. */
    var effects: seq<EffectSpawner>
    /** Resources: the player entity, its tracked position and the run state. */
    var playerEntity: Entity
    var playerPos: Point
    var runState: RunState
    /** The game log: each entry is the text of its fragments, colours left out. */
    var log: seq<seq<string>>

    /** Live entities are distinct and were all handed out before `nextEntity`. */
    ghost predicate Valid()
      reads this`entities, this`nextEntity
    {
      Distinct(entities) && forall e :: e in entities ==> e < nextEntity
    }

    /** Allocates a fresh entity with no components. */
    method CreateEntity() returns (e: Entity)
      requires Valid()
      modifies this`entities, this`nextEntity
      ensures Valid()
      ensures e == old(nextEntity) && e !in old(entities)
      ensures entities == old(entities) + [e] && nextEntity == e + 1
    {
      e := nextEntity;
      DistinctAppend(entities, e);
      entities := entities + [e];
      nextEntity := nextEntity + 1;
    }

    /** Every component storage is empty. */
    ghost predicate NoComponents()
      reads this`positions, this`players, this`viewsheds, this`hidden, this`names, this`blocksVisibility
      reads this`myTurn, this`factions, this`abilities, this`equipped, this`weapons, this`wantsToCastSpell
      reads this`wantsToShoot, this`wantsToApproach, this`chasing, this`wantsToFlee, this`entityMoved, this`entryTrigger
      reads this`areaOfEffect, this`hungerClocks, this`pools, this`ranged, this`spellTemplates
      reads this`wantsToUseItem, this`wantsToDropItem, this`wantsToRemoveItem, this`cursedItems
    {
      positions == map[] && players == {} && viewsheds == map[] && hidden == {} && names == map[] && blocksVisibility == {} &&
      myTurn == {} && factions == map[] && abilities == map[] && equipped == map[] && weapons == map[] && wantsToCastSpell == map[] &&
      wantsToShoot == map[] && wantsToApproach == map[] && chasing == map[] && wantsToFlee == map[] && entityMoved == {} && entryTrigger == {} &&
      areaOfEffect == map[] && hungerClocks == map[] && pools == map[] && ranged == map[] && spellTemplates == {} &&
      wantsToUseItem == map[] && wantsToDropItem == map[] && wantsToRemoveItem == map[] && cursedItems == {}
    }

    /** Deletes every entity and with it every component; identifiers are not reused. */
    method DeleteAll()
      modifies this`positions, this`players, this`viewsheds, this`hidden, this`names, this`blocksVisibility
      modifies this`myTurn, this`factions, this`abilities, this`equipped, this`weapons, this`wantsToCastSpell
      modifies this`wantsToShoot, this`wantsToApproach, this`chasing, this`wantsToFlee, this`entityMoved, this`entryTrigger
      modifies this`areaOfEffect, this`hungerClocks, this`pools, this`ranged, this`spellTemplates
      modifies this`wantsToUseItem, this`wantsToDropItem, this`wantsToRemoveItem, this`cursedItems
      modifies this`entities
      ensures Valid() && entities == [] && NoComponents()
    {
      ClearComponents();
      entities := [];
    }

    /** Empties one third of the component storages. */
    method Clear1()
      modifies this`positions, this`players, this`viewsheds, this`hidden, this`names
      modifies this`blocksVisibility, this`myTurn, this`factions, this`abilities
      ensures positions == map[]
      ensures players == {}
      ensures viewsheds == map[]
      ensures hidden == {}
      ensures names == map[]
      ensures blocksVisibility == {}
      ensures myTurn == {}
      ensures factions == map[]
      ensures abilities == map[]
    {
      positions, players, viewsheds, hidden, names, blocksVisibility, myTurn, factions, abilities := map[], {}, map[], {}, map[], {}, {}, map[], map[];
    }

    /** Empties one third of the component storages. */
    method Clear2()
      modifies this`equipped, this`weapons, this`wantsToCastSpell, this`wantsToShoot, this`wantsToApproach
      modifies this`chasing, this`wantsToFlee, this`entityMoved, this`entryTrigger
      ensures equipped == map[]
      ensures weapons == map[]
      ensures wantsToCastSpell == map[]
      ensures wantsToShoot == map[]
      ensures wantsToApproach == map[]
      ensures chasing == map[]
      ensures wantsToFlee == map[]
      ensures entityMoved == {}
      ensures entryTrigger == {}
    {
      equipped, weapons, wantsToCastSpell, wantsToShoot, wantsToApproach, chasing, wantsToFlee, entityMoved, entryTrigger := map[], map[], map[], map[], map[], map[], map[], {}, {};
    }

    /** Empties one third of the component storages. */
    method Clear3()
      modifies this`areaOfEffect, this`hungerClocks, this`pools, this`ranged, this`spellTemplates
      modifies this`wantsToUseItem, this`wantsToDropItem, this`wantsToRemoveItem, this`cursedItems
      ensures areaOfEffect == map[]
      ensures hungerClocks == map[]
      ensures pools == map[]
      ensures ranged == map[]
      ensures spellTemplates == {}
      ensures wantsToUseItem == map[]
      ensures wantsToDropItem == map[]
      ensures wantsToRemoveItem == map[]
      ensures cursedItems == {}
    {
      areaOfEffect, hungerClocks, pools, ranged, spellTemplates, wantsToUseItem, wantsToDropItem, wantsToRemoveItem, cursedItems := map[], map[], map[], map[], {}, map[], map[], map[], {};
    }

    /** Empties every component storage. */
    method ClearComponents()
      modifies this`positions, this`players, this`viewsheds, this`hidden, this`names, this`blocksVisibility
      modifies this`myTurn, this`factions, this`abilities, this`equipped, this`weapons, this`wantsToCastSpell
      modifies this`wantsToShoot, this`wantsToApproach, this`chasing, this`wantsToFlee, this`entityMoved, this`entryTrigger
      modifies this`areaOfEffect, this`hungerClocks, this`pools, this`ranged, this`spellTemplates
      modifies this`wantsToUseItem, this`wantsToDropItem, this`wantsToRemoveItem, this`cursedItems
      ensures NoComponents()
    {
      Clear1();
      Clear2();
      Clear3();
    }
  }
}
