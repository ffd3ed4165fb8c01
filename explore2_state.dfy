/**
 * The run-state controller of the second exploration snapshot
 * (`explore2/src/game/state.rs`): the systems pass, the per-frame transition
 * of the `RunState` resource, and the level change.
 */
module Explore2State {
  import opened Ecs
  import opened Explore2World
  import opened Spatial
  import Menu = MainMenu
  import Melee
  import Damage
  import MonsterAI
  import Inventory
  import ItemMenu
  import PlayerMove
  import Character

  /** The storages the second half of the pass reads and the first half leaves alone. */
  datatype Stock = Stock(entities: seq<Entity>, names: map<Entity, string>, player: Entity,
                         pickups: map<Entity, WantsToPickupItem>, backpack: map<Entity, InBackpack>,
                         uses: map<Entity, WantsToUseItem>, confusion: map<Entity, int>, drops: map<Entity, WantsToDropItem>,
                         kinds: Inventory.ItemKinds, content: seq<seq<Entity>>, width: int, height: int)

  /**
   * What the systems pass reads, as values: the `Stock`, the run state, the
   * monsters, the player's point, the monster turn's storages, and the
   * combat stats, pending damage and log.
   */
  datatype Snap = Snap(k: Stock, runState: RunState, monsters: set<Entity>, playerPos: Point, hunt: MonsterAI.Hunt,
                       stats: map<Entity, CombatStats>, pending: map<Entity, SufferDamage>, log: seq<string>)

  /** The current world's `Stock`. */
  ghost function StockOf(w: World, m: Map): Stock
    reads w`entities, w`names, w`playerEntity, w`wantsPickup, w`inBackpack, w`wantsUse, w`confusion, w`wantsDrop
    reads w`providesHealing, w`inflictsDamage, w`areaOfEffect, w`consumables, m`tileContent, m`width, m`height
  {
    Stock(w.entities, w.names, w.playerEntity, w.wantsPickup, w.inBackpack, w.wantsUse, w.confusion, w.wantsDrop,
          Inventory.KindsOf(w), m.tileContent, m.width, m.height)
  }

  /** The current world's `Snap`. */
  ghost function SnapOf(w: World, m: Map): Snap
    reads w, m
  {
    Snap(StockOf(w, m), w.runState, w.monsters, w.playerPos, MonsterAI.Hunt(w.positions, w.viewsheds, w.wantsMelee, m.blocked),
         w.combatStats, w.sufferDamage, w.log)
  }

  /** Every dropper has a position and no dropped item is also picked up: what drop needs after pickup. */
  predicate DropsReady(k: Stock, positions: map<Entity, Point>)
  {
    (forall e :: e in k.drops ==> e in positions) &&
    (forall e, p :: e in k.drops && p in k.pickups ==> k.pickups[p].item != e)
  }

  /** What the systems pass needs of a world so that none of its unwraps fails. */
  ghost predicate Ready(s: Snap, aStar: (seq<bool>, int, int) -> MonsterAI.Path)
  {
    0 <= s.k.width && 0 <= s.k.height && |s.hunt.blocked| == s.k.width * s.k.height &&
    MonsterAI.StepsOnMap(aStar) && MonsterAI.HuntersOnMap(s.k.width, s.k.height, s.monsters, s.hunt) &&
    (forall e :: Melee.CanResolve(s.stats, s.k.names, s.hunt.intents, e)) &&
    (s.runState == RunState.MonsterTurn ==> s.k.player in s.stats && s.k.player in s.k.names) &&
    (forall e :: e in s.stats ==> e in s.k.entities) &&
    DropsReady(s.k, s.hunt.positions)
  }

  /** The world and map are well formed and the systems pass can run on them. */
  ghost predicate ReadyForSystems(w: World, m: Map, aStar: (seq<bool>, int, int) -> MonsterAI.Path)
    reads w, m
  {
    w.Valid() && m.Valid() && Ready(SnapOf(w, m), aStar)
  }

  /** What the monsters' moves, melee and damage leave: the monster turn's storages, the log and the combat stats. */
  datatype Battle = Battle(hunt: MonsterAI.Hunt, log: seq<string>, stats: map<Entity, CombatStats>)

  /** What pickup, use and drop leave: the carried items' storages and the log, and the effects of use. */
  datatype Haul = Haul(carry: Inventory.Carry, fx: Inventory.Effects)

  /** The monster turn: only in `MonsterTurn` do the monsters act. */
  ghost function Hunted(s: Snap, aStar: (seq<bool>, int, int) -> MonsterAI.Path): MonsterAI.Hunt
    requires Ready(s, aStar)
  {
    if s.runState == RunState.MonsterTurn
    then MonsterAI.ChaseAll(s.k.width, s.k.height, s.monsters, s.k.player, s.playerPos, aStar, s.hunt, s.k.entities)
    else s.hunt
  }

  /** After the monster turn every position is still there and every melee intent can be resolved. */
  lemma HuntReady(s: Snap, aStar: (seq<bool>, int, int) -> MonsterAI.Path)
    requires Ready(s, aStar)
    ensures var h := Hunted(s, aStar);
      h.positions.Keys == s.hunt.positions.Keys && forall e :: Melee.CanResolve(s.stats, s.k.names, h.intents, e)
  {
    if s.runState == RunState.MonsterTurn {
      forall e ensures Melee.CanResolve(s.stats, s.k.names, Hunted(s, aStar).intents, e) {
        assert Melee.CanResolve(s.stats, s.k.names, s.hunt.intents, e);
        MonsterAI.ChaseAllIntents(s.k.width, s.k.height, s.monsters, s.k.player, s.playerPos, aStar, s.hunt, s.k.entities, e);
      }
      MonsterAI.ChaseAllIntents(s.k.width, s.k.height, s.monsters, s.k.player, s.playerPos, aStar, s.hunt, s.k.entities, s.k.player);
    }
  }

  /**
   * The first half of the systems pass: the monster turn, melee over the
   * intents it leaves, then damage from everything pending.
   */
  ghost function Fought(s: Snap, aStar: (seq<bool>, int, int) -> MonsterAI.Path): (b: Battle)
    requires Ready(s, aStar)
    ensures b.hunt.positions.Keys == s.hunt.positions.Keys
  {
    HuntReady(s, aStar);
    var h := Hunted(s, aStar);
    var o := Melee.ResolveAll(s.stats, s.k.names, h.intents, Melee.Outcome(s.pending, s.log), s.k.entities);
    Battle(h, o.log, Damage.Damaged(s.stats, o.pending))
  }

  /** The monster turn leaves every dropper with a position, so the second half can run on what the first leaves. */
  lemma FoughtDropsReady(s: Snap, aStar: (seq<bool>, int, int) -> MonsterAI.Path)
    requires Ready(s, aStar)
    ensures DropsReady(s.k, Fought(s, aStar).hunt.positions)
  {
  }

  /** Pickup leaves every dropper that had a position with one, when no dropped item is also picked up. */
  lemma PickupKeepsDroppers(k: Stock, positions: map<Entity, Point>, log: seq<string>)
    requires DropsReady(k, positions)
    ensures var picked := Inventory.PickupAll(k.names, k.player, k.pickups, Inventory.Carry(positions, k.backpack, log), k.entities);
      forall e :: e in k.drops ==> e in picked.positions
  {
    forall e | e in k.drops
      ensures e in Inventory.PickupAll(k.names, k.player, k.pickups, Inventory.Carry(positions, k.backpack, log), k.entities).positions
    {
      Inventory.PickupAllMoves(k.names, k.player, k.pickups, Inventory.Carry(positions, k.backpack, log), k.entities, e);
    }
  }

  /**
   * The second half of the systems pass, from the given positions, combat
   * stats, pending damage and log and the other storages `k`: pickup, then
   * use, then drop, each over the storages the one before left.
   */
  function Gathered(k: Stock, fov: (Point, int) -> seq<Point>, positions: map<Entity, Point>,
                    stats: map<Entity, CombatStats>, pending: map<Entity, SufferDamage>, log: seq<string>): Haul
    requires DropsReady(k, positions)
  {
    PickupKeepsDroppers(k, positions, log);
    var picked := Inventory.PickupAll(k.names, k.player, k.pickups, Inventory.Carry(positions, k.backpack, log), k.entities);
    var fx := Inventory.UseAll(k.kinds, k.player, k.content, k.width, k.height, fov, k.uses,
                               Inventory.Effects(stats, pending, k.confusion, picked.log, {}), k.entities);
    var dropped := Inventory.DropAll(k.names, k.player, k.drops, Inventory.Carry(picked.positions, picked.backpack, fx.log), k.entities);
    Haul(dropped, fx)
  }

  /** The whole pass before `maintain`: the second half runs on what the first leaves, with nothing pending. */
  ghost function Passed(s: Snap, aStar: (seq<bool>, int, int) -> MonsterAI.Path, fov: (Point, int) -> seq<Point>): Haul
    requires Ready(s, aStar)
  {
    var b := Fought(s, aStar);
    Gathered(s.k, fov, b.hunt.positions, b.stats, map[], b.log)
  }

  /**
   * The order of the pass at work: the damage system runs before use, so
   * item damage waits for the next pass.  When no healing item is used, the
   * combat stats end as melee's damage left them; when no item is used at
   * all, nothing is left pending and nothing is consumed.
   */
  lemma ItemDamageWaits(s: Snap, aStar: (seq<bool>, int, int) -> MonsterAI.Path, fov: (Point, int) -> seq<Point>)
    requires Ready(s, aStar)
    ensures (forall e :: e in s.k.uses ==> s.k.uses[e].item !in s.k.kinds.healing) ==>
      Passed(s, aStar, fov).fx.stats == Fought(s, aStar).stats
    ensures s.k.uses == map[] ==>
      Passed(s, aStar, fov).fx.pending == map[] && Passed(s, aStar, fov).fx.consumed == {}
  {
    var b := Fought(s, aStar);
    FoughtDropsReady(s, aStar);
    PickupKeepsDroppers(s.k, b.hunt.positions, b.log);
    var picked := Inventory.PickupAll(s.k.names, s.k.player, s.k.pickups, Inventory.Carry(b.hunt.positions, s.k.backpack, b.log), s.k.entities);
    var fx0 := Inventory.Effects(b.stats, map[], s.k.confusion, picked.log, {});
    if forall e :: e in s.k.uses ==> s.k.uses[e].item !in s.k.kinds.healing {
      Inventory.UseAllWithoutHealing(s.k.kinds, s.k.player, s.k.content, s.k.width, s.k.height, fov, s.k.uses, fx0, s.k.entities);
    }
    if s.k.uses == map[] {
      Inventory.UseAllIdle(s.k.kinds, s.k.player, s.k.content, s.k.width, s.k.height, fov, s.k.uses, fx0, s.k.entities);
    }
  }

  /** The storages the systems pass only deletes from. */
  datatype Kept = Kept(entities: seq<Entity>, players: set<Entity>, monsters: set<Entity>, names: map<Entity, string>,
                       blocksTile: set<Entity>, items: set<Entity>, consumables: set<Entity>, ranged: map<Entity, int>,
                       inflictsDamage: map<Entity, int>, areaOfEffect: map<Entity, int>, providesHealing: map<Entity, int>,
                       playerPos: Point, runState: RunState)

  /** The current world's `Kept`. */
  ghost function KeptOf(w: World): Kept
    reads w`entities, w`players, w`monsters, w`names, w`blocksTile, w`items, w`consumables, w`ranged
    reads w`inflictsDamage, w`areaOfEffect, w`providesHealing, w`playerPos, w`runState
  {
    Kept(w.entities, w.players, w.monsters, w.names, w.blocksTile, w.items, w.consumables, w.ranged,
         w.inflictsDamage, w.areaOfEffect, w.providesHealing, w.playerPos, w.runState)
  }

  /**
   * The systems pass ran on a world whose `Kept` storages were `r`: every
   * storage it writes holds what the six systems compute in order (`b` the
   * first half, `g` the whole pass), the items use consumed are deleted with
   * all of their components, and every intent storage but pending damage is
   * empty.
   */
  ghost predicate Ran(w: World, m: Map, r: Kept, b: Battle, g: Haul)
    reads w, m
  {
    var dead := g.fx.consumed;
    w.entities == Without(r.entities, dead) &&
    w.positions == g.carry.positions - dead && w.inBackpack == g.carry.backpack - dead && w.log == g.carry.log &&
    w.combatStats == g.fx.stats - dead && w.sufferDamage == g.fx.pending - dead && w.confusion == g.fx.confusion - dead &&
    w.viewsheds == b.hunt.viewsheds - dead && m.blocked == b.hunt.blocked &&
    w.wantsMelee == map[] && w.wantsPickup == map[] && w.wantsUse == map[] && w.wantsDrop == map[] &&
    w.players == r.players - dead && w.monsters == r.monsters - dead &&
    w.names == r.names - dead && w.blocksTile == r.blocksTile - dead &&
    w.items == r.items - dead && w.consumables == r.consumables - dead && w.ranged == r.ranged - dead &&
    w.inflictsDamage == r.inflictsDamage - dead && w.areaOfEffect == r.areaOfEffect - dead &&
    w.providesHealing == r.providesHealing - dead && w.playerPos == r.playerPos && w.runState == r.runState
  }

  /**
   * `run_systems`: monsters, melee, damage, pickup, use and drop, in that
   * order, then `maintain`, which deletes the items use consumed.  `b` and
   * `g` are what `Fought` and `Passed` compute from the world before the
   * pass.  Every intent storage except pending damage ends empty: damage
   * dealt by items is charged after the damage system has run, and is
   * applied on the next pass.  The visibility and indexing systems are not
   * part of this model.
   */
  method RunSystems(w: World, m: Map, aStar: (seq<bool>, int, int) -> MonsterAI.Path, fov: (Point, int) -> seq<Point>, ghost s0: Snap, ghost r0: Kept)
    returns (consumed: set<Entity>, ghost b: Battle, ghost g: Haul)
    requires s0 == SnapOf(w, m) && r0 == KeptOf(w)
    requires ReadyForSystems(w, m, aStar)
    modifies w`entities, w`positions, w`players, w`viewsheds, w`monsters, w`log
    modifies w`names, w`blocksTile, w`combatStats, w`wantsMelee, w`sufferDamage, w`items, w`consumables, w`ranged
    modifies w`inflictsDamage, w`areaOfEffect, w`confusion, w`providesHealing, w`inBackpack, w`wantsPickup, w`wantsUse, w`wantsDrop
    modifies m`blocked
    ensures w.Valid() && m.Valid()
    ensures b == Fought(s0, aStar) && g == Passed(s0, aStar, fov)
    ensures consumed == g.fx.consumed && Ran(w, m, r0, b, g)
  {
    consumed, b, g := SixSystems(w, m, aStar, fov, s0, r0);
    Maintain(w, m, consumed, r0, b, g);
  }

  /** `maintain`, after the six systems left `b` and `g`: the items use consumed are deleted. */
  method Maintain(w: World, m: Map, consumed: set<Entity>, ghost r: Kept, ghost b: Battle, ghost g: Haul)
    requires w.Valid() && consumed == g.fx.consumed && r == KeptOf(w)
    requires w.positions == g.carry.positions && w.inBackpack == g.carry.backpack && w.log == g.carry.log
    requires w.combatStats == g.fx.stats && w.sufferDamage == g.fx.pending && w.confusion == g.fx.confusion
    requires w.viewsheds == b.hunt.viewsheds && m.blocked == b.hunt.blocked
    requires w.wantsMelee == map[] && w.wantsPickup == map[] && w.wantsUse == map[] && w.wantsDrop == map[]
    modifies w`entities, w`positions, w`players, w`viewsheds, w`monsters, w`log
    modifies w`names, w`blocksTile, w`combatStats, w`wantsMelee, w`sufferDamage, w`items, w`consumables, w`ranged
    modifies w`inflictsDamage, w`areaOfEffect, w`confusion, w`providesHealing, w`inBackpack, w`wantsPickup, w`wantsUse, w`wantsDrop
    ensures w.Valid() && Ran(w, m, r, b, g)
  {
    w.DeleteEntities(consumed);
  }

  /** The six systems of `run_systems`, before `maintain`, on the world whose `Snap` is `s`. */
  method SixSystems(w: World, m: Map, aStar: (seq<bool>, int, int) -> MonsterAI.Path, fov: (Point, int) -> seq<Point>, ghost s: Snap, ghost r: Kept)
    returns (consumed: set<Entity>, ghost b: Battle, ghost g: Haul)
    requires w.Valid() && m.Valid() && s == SnapOf(w, m) && r == KeptOf(w) && Ready(s, aStar)
    modifies w`positions, w`viewsheds, w`wantsMelee, w`sufferDamage, w`log, w`combatStats, m`blocked
    modifies w`inBackpack, w`wantsPickup, w`confusion, w`wantsUse, w`wantsDrop
    ensures m.Valid() && b == Fought(s, aStar) && g == Passed(s, aStar, fov) && consumed == g.fx.consumed
    ensures w.positions == g.carry.positions && w.inBackpack == g.carry.backpack && w.log == g.carry.log
    ensures w.combatStats == g.fx.stats && w.sufferDamage == g.fx.pending && w.confusion == g.fx.confusion
    ensures w.viewsheds == b.hunt.viewsheds && m.blocked == b.hunt.blocked
    ensures w.wantsMelee == map[] && w.wantsPickup == map[] && w.wantsUse == map[] && w.wantsDrop == map[]
    ensures KeptOf(w) == r
  {
    b := Fight(w, m, aStar, s, r);
    FoughtDropsReady(s, aStar);
    consumed, g := Collect(w, m, fov, s.k, r);
  }

  /** The first half of `run_systems`, the monsters' moves, melee and damage, as `Fought` says. */
  method Fight(w: World, m: Map, aStar: (seq<bool>, int, int) -> MonsterAI.Path, ghost s: Snap, ghost r: Kept) returns (ghost b: Battle)
    requires w.Valid() && m.Valid() && s == SnapOf(w, m) && r == KeptOf(w) && Ready(s, aStar)
    modifies w`positions, w`viewsheds, w`wantsMelee, w`sufferDamage, w`log, w`combatStats, m`blocked
    ensures m.Valid() && b == Fought(s, aStar) && StockOf(w, m) == s.k && KeptOf(w) == r
    ensures w.positions == b.hunt.positions && w.viewsheds == b.hunt.viewsheds && m.blocked == b.hunt.blocked
    ensures w.log == b.log && w.combatStats == b.stats && w.wantsMelee == map[] && w.sufferDamage == map[]
  {
    b := Fought(s, aStar);
    ghost var h := HuntStage(w, m, aStar, s, r);
    HuntReady(s, aStar);
    MeleeStage(w, m, s.k, r);
    DamageStage(w, m, s.k, r);
  }

  /** The monster turn, on the world whose `Snap` is `s`: its storages become `Hunted`'s, and nothing else changes. */
  method HuntStage(w: World, m: Map, aStar: (seq<bool>, int, int) -> MonsterAI.Path, ghost s: Snap, ghost r: Kept) returns (ghost h: MonsterAI.Hunt)
    requires w.Valid() && m.Valid() && s == SnapOf(w, m) && r == KeptOf(w) && Ready(s, aStar)
    modifies w`positions, w`viewsheds, w`wantsMelee, m`blocked
    ensures m.Valid() && h == Hunted(s, aStar) && MonsterAI.Hunt(w.positions, w.viewsheds, w.wantsMelee, m.blocked) == h
    ensures StockOf(w, m) == s.k && KeptOf(w) == r && w.combatStats == s.stats && w.sufferDamage == s.pending && w.log == s.log
  {
    h := Chase(w, m, aStar, s);
    assert unchanged(w`entities, w`names, w`playerEntity, w`wantsPickup, w`inBackpack, w`wantsUse, w`confusion, w`wantsDrop,
             w`providesHealing, w`inflictsDamage, w`areaOfEffect, w`consumables, m`tileContent, m`width, m`height);
    assert unchanged(w`combatStats, w`sufferDamage, w`log);
    assert unchanged(w`entities, w`players, w`monsters, w`names, w`blocksTile, w`items, w`consumables, w`ranged,
                     w`inflictsDamage, w`areaOfEffect, w`providesHealing, w`playerPos, w`runState);
  }

  /** The monster turn itself, on the world whose `Snap` is `s`. */
  method Chase(w: World, m: Map, aStar: (seq<bool>, int, int) -> MonsterAI.Path, ghost s: Snap) returns (ghost h: MonsterAI.Hunt)
    requires w.Valid() && m.Valid() && s == SnapOf(w, m) && Ready(s, aStar)
    modifies w`positions, w`viewsheds, w`wantsMelee, m`blocked
    ensures m.Valid() && h == Hunted(s, aStar) && MonsterAI.Hunt(w.positions, w.viewsheds, w.wantsMelee, m.blocked) == h
  {
    h := Hunted(s, aStar);
    MonsterAI.MonsterTurn(w, m, aStar);
  }

  /** Melee, on a world whose `Stock` is `k`, which it keeps. */
  method MeleeStage(w: World, m: Map, ghost k: Stock, ghost r: Kept)
    requires StockOf(w, m) == k && KeptOf(w) == r && forall e :: Melee.CanResolve(w.combatStats, w.names, w.wantsMelee, e)
    modifies w`sufferDamage, w`log, w`wantsMelee
    ensures StockOf(w, m) == k && KeptOf(w) == r && w.wantsMelee == map[]
    ensures Melee.Outcome(w.sufferDamage, w.log) ==
      Melee.ResolveAll(old(w.combatStats), k.names, old(w.wantsMelee), Melee.Outcome(old(w.sufferDamage), old(w.log)), k.entities)
  {
    Melee.MeleeSystem(w);
    assert unchanged(w`entities, w`names, w`playerEntity, w`wantsPickup, w`inBackpack, w`wantsUse, w`confusion, w`wantsDrop,
             w`providesHealing, w`inflictsDamage, w`areaOfEffect, w`consumables, m`tileContent, m`width, m`height);
    assert unchanged(w`entities, w`players, w`monsters, w`names, w`blocksTile, w`items, w`consumables, w`ranged,
                     w`inflictsDamage, w`areaOfEffect, w`providesHealing, w`playerPos, w`runState);
  }

  /** Damage, on a valid world whose `Stock` is `k`, which it keeps. */
  method DamageStage(w: World, m: Map, ghost k: Stock, ghost r: Kept)
    requires StockOf(w, m) == k && KeptOf(w) == r && w.Valid() && w.Tracks(w.combatStats.Keys * w.sufferDamage.Keys)
    modifies w`combatStats, w`sufferDamage
    ensures StockOf(w, m) == k && KeptOf(w) == r && w.sufferDamage == map[]
    ensures w.combatStats == Damage.Damaged(old(w.combatStats), old(w.sufferDamage))
  {
    Damage.DamageSystem(w);
    assert unchanged(w`entities, w`names, w`playerEntity, w`wantsPickup, w`inBackpack, w`wantsUse, w`confusion, w`wantsDrop,
             w`providesHealing, w`inflictsDamage, w`areaOfEffect, w`consumables, m`tileContent, m`width, m`height);
    assert unchanged(w`entities, w`players, w`monsters, w`names, w`blocksTile, w`items, w`consumables, w`ranged,
                     w`inflictsDamage, w`areaOfEffect, w`providesHealing, w`playerPos, w`runState);
  }

  /**
   * The second half of `run_systems`, pickup, use and drop, as `Gathered`
   * says, on the world whose `Stock` is `k`; `consumed` is what use used up.
   */
  method Collect(w: World, m: Map, fov: (Point, int) -> seq<Point>, ghost k: Stock, ghost r: Kept) returns (consumed: set<Entity>, ghost g: Haul)
    requires k == StockOf(w, m) && r == KeptOf(w) && DropsReady(k, w.positions)
    modifies w`positions, w`inBackpack, w`log, w`wantsPickup, w`combatStats, w`sufferDamage, w`confusion, w`wantsUse, w`wantsDrop
    ensures g == Gathered(k, fov, old(w.positions), old(w.combatStats), old(w.sufferDamage), old(w.log))
    ensures consumed == g.fx.consumed
    ensures w.positions == g.carry.positions && w.inBackpack == g.carry.backpack && w.log == g.carry.log
    ensures w.combatStats == g.fx.stats && w.sufferDamage == g.fx.pending && w.confusion == g.fx.confusion
    ensures w.wantsPickup == map[] && w.wantsUse == map[] && w.wantsDrop == map[] && KeptOf(w) == r
  {
    ghost var picked := PickStage(w, k, r);
    ghost var fx;
    consumed, fx := UseStage(w, m, fov, k, r, picked.log);
    ghost var dropped := DropStage(w, k, r);
    g := Haul(dropped, fx);
  }

  /** Pickup, on the world whose `Stock` is `k`: the carried items' storages become `picked`. */
  method PickStage(w: World, ghost k: Stock, ghost r: Kept) returns (ghost picked: Inventory.Carry)
    requires KeptOf(w) == r && k.names == w.names && k.player == w.playerEntity && k.pickups == w.wantsPickup && k.entities == w.entities
    requires k.backpack == w.inBackpack && DropsReady(k, w.positions)
    modifies w`positions, w`inBackpack, w`log, w`wantsPickup
    ensures picked == Inventory.PickupAll(k.names, k.player, k.pickups, Inventory.Carry(old(w.positions), k.backpack, old(w.log)), k.entities)
    ensures Inventory.Carry(w.positions, w.inBackpack, w.log) == picked && w.wantsPickup == map[]
    ensures forall e :: e in k.drops ==> e in w.positions
    ensures KeptOf(w) == r
  {
    picked := Inventory.PickupAll(k.names, k.player, k.pickups, Inventory.Carry(w.positions, k.backpack, w.log), k.entities);
    PickupKeepsDroppers(k, w.positions, w.log);
    Inventory.ItemCollection(w);
    assert unchanged(w`entities, w`players, w`monsters, w`names, w`blocksTile, w`items, w`consumables, w`ranged,
                     w`inflictsDamage, w`areaOfEffect, w`providesHealing, w`playerPos, w`runState);
  }

  /** Use, on the world whose `Stock` is `k`, after pickup wrote `log`: the effects are `fx`. */
  method UseStage(w: World, m: Map, fov: (Point, int) -> seq<Point>, ghost k: Stock, ghost r: Kept, ghost log: seq<string>)
    returns (consumed: set<Entity>, ghost fx: Inventory.Effects)
    requires KeptOf(w) == r && k.kinds == Inventory.KindsOf(w) && k.player == w.playerEntity && k.uses == w.wantsUse && k.entities == w.entities
    requires k.content == m.tileContent && k.width == m.width && k.height == m.height && k.confusion == w.confusion && w.log == log
    modifies w`combatStats, w`sufferDamage, w`confusion, w`log, w`wantsUse
    ensures fx == Inventory.UseAll(k.kinds, k.player, k.content, k.width, k.height, fov, k.uses,
                                   Inventory.Effects(old(w.combatStats), old(w.sufferDamage), k.confusion, log, {}), k.entities)
    ensures Inventory.Effects(w.combatStats, w.sufferDamage, w.confusion, w.log, consumed) == fx && w.wantsUse == map[]
    ensures KeptOf(w) == r
  {
    consumed := Inventory.ItemUse(w, m, fov, k.kinds);
    assert unchanged(w`entities, w`players, w`monsters, w`names, w`blocksTile, w`items, w`consumables, w`ranged,
                     w`inflictsDamage, w`areaOfEffect, w`providesHealing, w`playerPos, w`runState);
    fx := Inventory.Effects(w.combatStats, w.sufferDamage, w.confusion, w.log, consumed);
  }

  /** Drop, on the world whose `Stock` is `k`: the carried items' storages become `dropped`. */
  method DropStage(w: World, ghost k: Stock, ghost r: Kept) returns (ghost dropped: Inventory.Carry)
    requires KeptOf(w) == r && k.names == w.names && k.player == w.playerEntity && k.drops == w.wantsDrop && k.entities == w.entities
    requires forall e :: e in k.drops ==> e in w.positions
    modifies w`positions, w`inBackpack, w`log, w`wantsDrop
    ensures dropped == Inventory.DropAll(k.names, k.player, k.drops, Inventory.Carry(old(w.positions), old(w.inBackpack), old(w.log)), k.entities)
    ensures Inventory.Carry(w.positions, w.inBackpack, w.log) == dropped && w.wantsDrop == map[]
    ensures KeptOf(w) == r
  {
    Inventory.ItemDrop(w);
    assert unchanged(w`entities, w`players, w`monsters, w`names, w`blocksTile, w`items, w`consumables, w`ranged,
                     w`inflictsDamage, w`areaOfEffect, w`providesHealing, w`playerPos, w`runState);
    dropped := Inventory.Carry(w.positions, w.inBackpack, w.log);
  }

  /** The run state the main menu's choice leads to. */
  function Chosen(s: Menu.Selection): RunState
  {
    match s
    case ContinuePlaying => AwaitingInput
    case NewGame => StartNewGame
    case SaveGame => RunState.SaveGame
    case LoadGame => RunState.LoadGame
    case Credits => ShowCredits
    case Quit => Quitting
  }

  /** Each menu entry leads to its own run state. */
  lemma ChosenDistinct(a: Menu.Selection, b: Menu.Selection)
    ensures Chosen(a) == Chosen(b) <==> a == b
    ensures !Chosen(a).MainMenu? && Chosen(a) != PlayerTurn && Chosen(a) != MonsterTurn
  {
  }

  /**
   * The run state after one frame in state `s`.  `key` is the key pressed,
   * `listed` the item menu's rows, `ranged` the Ranged storage, `target` the
   * targeting menu's answer and `saveExists` whether a save file exists.
   */
  function Next(s: RunState, key: Option<Key>, listed: seq<Entity>, letterToOption: Key -> int, ranged: map<Entity, int>,
                target: (ItemMenu.MenuResult, Option<Point>), saveExists: bool): RunState
  {
    match s
    case PreRun => AwaitingInput
    case AwaitingInput => PlayerMove.UserReply(key)
    case PlayerTurn => MonsterTurn
    case MonsterTurn => AwaitingInput
    case ShowInventory =>
      var pick := ItemMenu.Pick(listed, key, letterToOption);
      (match pick.0
       case Cancel => AwaitingInput
       case NoResponse => s
       case Selected => if pick.1.value in ranged then ShowTargeting(ranged[pick.1.value], pick.1.value) else PlayerTurn)
    case ShowDropItem =>
      (match ItemMenu.Pick(listed, key, letterToOption).0
       case Cancel => AwaitingInput
       case NoResponse => s
       case Selected => PlayerTurn)
    case ShowTargeting(_, _) =>
      (match target.0
       case Cancel => AwaitingInput
       case NoResponse => s
       case Selected => PlayerTurn)
    case NextLevel => PreRun
    case ShowMainMenu => MainMenu(Menu.ContinuePlaying)
    case MainMenu(selection) =>
      (match Menu.Draw(Some(selection), key, saveExists)
       case NoSelection(next) => MainMenu(next)
       case Selected(chosen) => Chosen(chosen))
    case StartNewGame => PreRun
    case SaveGame => AwaitingInput
    case LoadGame => AwaitingInput
    case ShowCredits => AwaitingInput
    case Paused => AwaitingInput
    case Quitting => Quitting
  }

  /**
   * The turn cycle: the player's turn is followed by the monsters' turn, and
   * that by waiting for input; a turn is only ever entered from waiting for
   * input on a movement or pick-up key, or from a menu choice of an item.
   */
  lemma TurnCycle(s: RunState, key: Option<Key>, listed: seq<Entity>, letterToOption: Key -> int, ranged: map<Entity, int>,
                  target: (ItemMenu.MenuResult, Option<Point>), saveExists: bool)
    ensures s == PlayerTurn ==> Next(s, key, listed, letterToOption, ranged, target, saveExists) == MonsterTurn
    ensures s == MonsterTurn ==> Next(s, key, listed, letterToOption, ranged, target, saveExists) == AwaitingInput
    ensures Next(s, key, listed, letterToOption, ranged, target, saveExists) == PlayerTurn ==>
      (s == AwaitingInput && key.Some? && (PlayerMove.KeyDelta(key.value).Some? || key.value == P)) ||
      (s.ShowInventory? && ItemMenu.Pick(listed, key, letterToOption).0 == ItemMenu.Selected) ||
      (s.ShowDropItem? && ItemMenu.Pick(listed, key, letterToOption).0 == ItemMenu.Selected) ||
      (s.ShowTargeting? && target.0 == ItemMenu.Selected)
    ensures Next(s, key, listed, letterToOption, ranged, target, saveExists) == MonsterTurn ==> s == PlayerTurn
  {
    if s.MainMenu? {
      var r := Menu.Draw(Some(s.menuSelection), key, saveExists);
      if r.Selected? { ChosenDistinct(r.selected, r.selected); }
    }
    if s == AwaitingInput {
      PlayerMove.RepliesCompared(key);
    }
  }

  /** Targeting is only entered for a ranged item the player carries, with that item's range. */
  lemma TargetingOnlyForRanged(key: Option<Key>, listed: seq<Entity>, letterToOption: Key -> int, ranged: map<Entity, int>,
                               target: (ItemMenu.MenuResult, Option<Point>), saveExists: bool)
    ensures var r := Next(ShowInventory, key, listed, letterToOption, ranged, target, saveExists);
      r.ShowTargeting? ==> r.item in listed && r.item in ranged && r.range == ranged[r.item]
  {
  }

  /**
   * Without a save file, a game that is not already in a "Load Game" state
   * never reaches one: the main menu's cursor never lands on that entry.
   */
  lemma NoSaveNeverLoads(s: RunState, key: Option<Key>, listed: seq<Entity>, letterToOption: Key -> int, ranged: map<Entity, int>,
                         target: (ItemMenu.MenuResult, Option<Point>))
    requires s != RunState.LoadGame && s != MainMenu(Menu.LoadGame)
    ensures var r := Next(s, key, listed, letterToOption, ranged, target, false);
      r != RunState.LoadGame && r != MainMenu(Menu.LoadGame)
  {
    if s.MainMenu? {
      Menu.DrawKeepsOffLoad(s.menuSelection, key);
      Menu.DrawSelection(Some(s.menuSelection), key, false);
    }
  }

  /** The rows of the player's item menus. */
  function Listed(w: World): seq<Entity>
    reads w
  {
    ItemMenu.Carried(w.entities, w.inBackpack, w.names, w.playerEntity)
  }

  /** The inventory menu's frame: a ranged item opens targeting, any other is used at once. */
  method InventoryChoice(w: World, key: Option<Key>, letterToOption: Key -> int,
                         target: (ItemMenu.MenuResult, Option<Point>), saveExists: bool) returns (newRunState: RunState)
    modifies w`wantsUse
    ensures newRunState == Next(ShowInventory, key, Listed(w), letterToOption, w.ranged, target, saveExists)
    ensures var pick := ItemMenu.Pick(Listed(w), key, letterToOption);
      if newRunState == PlayerTurn then pick.1.Some? && w.wantsUse == old(w.wantsUse)[w.playerEntity := WantsToUseItem(pick.1.value, None)]
      else w.wantsUse == old(w.wantsUse)
  {
    var result, choice := ItemMenu.SelectItem(w, key, letterToOption);
    newRunState := ShowInventory;
    match result {
      case Cancel => newRunState := AwaitingInput;
      case NoResponse =>
      case Selected =>
        var itemEntity := choice.value;
        if itemEntity in w.ranged {
          newRunState := ShowTargeting(w.ranged[itemEntity], itemEntity);
        } else {
          w.wantsUse := w.wantsUse[w.playerEntity := WantsToUseItem(itemEntity, None)];
          newRunState := PlayerTurn;
        }
    }
  }

  /** The drop menu's frame: the chosen item is to be dropped by the player. */
  method DropChoice(w: World, key: Option<Key>, letterToOption: Key -> int,
                    target: (ItemMenu.MenuResult, Option<Point>), saveExists: bool) returns (newRunState: RunState)
    modifies w`wantsDrop
    ensures newRunState == Next(ShowDropItem, key, Listed(w), letterToOption, w.ranged, target, saveExists)
    ensures var pick := ItemMenu.Pick(Listed(w), key, letterToOption);
      if newRunState == PlayerTurn then pick.1.Some? && w.wantsDrop == old(w.wantsDrop)[w.playerEntity := WantsToDropItem(pick.1.value)]
      else w.wantsDrop == old(w.wantsDrop)
  {
    var result, choice := ItemMenu.SelectItem(w, key, letterToOption);
    newRunState := ShowDropItem;
    match result {
      case Cancel => newRunState := AwaitingInput;
      case NoResponse =>
      case Selected =>
        w.wantsDrop := w.wantsDrop[w.playerEntity := WantsToDropItem(choice.value)];
        newRunState := PlayerTurn;
    }
  }

  /** The targeting frame: a chosen point makes the player use `item` on it. */
  method TargetChoice(w: World, range: int, item: Entity, key: Option<Key>, letterToOption: Key -> int,
                      target: (ItemMenu.MenuResult, Option<Point>), saveExists: bool) returns (newRunState: RunState)
    modifies w`wantsUse
    ensures newRunState == Next(ShowTargeting(range, item), key, Listed(w), letterToOption, w.ranged, target, saveExists)
    ensures if newRunState == PlayerTurn then w.wantsUse == old(w.wantsUse)[w.playerEntity := WantsToUseItem(item, target.1)]
      else w.wantsUse == old(w.wantsUse)
  {
    newRunState := ShowTargeting(range, item);
    match target.0 {
      case Cancel => newRunState := AwaitingInput;
      case NoResponse =>
      case Selected =>
        w.wantsUse := w.wantsUse[w.playerEntity := WantsToUseItem(item, target.1)];
        newRunState := PlayerTurn;
    }
  }

  /** The main menu's frame. */
  method MenuChoice(selection: Menu.Selection, key: Option<Key>, saveExists: bool) returns (newRunState: RunState)
    ensures newRunState.MainMenu? <==> Menu.Draw(Some(selection), key, saveExists).NoSelection?
    ensures newRunState.MainMenu? ==> newRunState.menuSelection == Menu.Draw(Some(selection), key, saveExists).selected
    ensures !newRunState.MainMenu? ==> newRunState == Chosen(Menu.Draw(Some(selection), key, saveExists).selected)
  {
    match Menu.Draw(Some(selection), key, saveExists) {
      case NoSelection(next) => newRunState := MainMenu(next);
      case Selected(chosen) =>
        match chosen {
          case ContinuePlaying => newRunState := AwaitingInput;
          case NewGame => newRunState := StartNewGame;
          case SaveGame => newRunState := RunState.SaveGame;
          case LoadGame => newRunState := RunState.LoadGame;
          case Credits => newRunState := ShowCredits;
          case Quit => newRunState := Quitting;
        }
    }
  }

  /** The states whose frame runs the systems. */
  predicate RunsSystems(s: RunState)
  {
    s in {PreRun, PlayerTurn, MonsterTurn, Paused}
  }

  /** Every storage and resource but the use and drop intents and the run state is as it was. */
  twostate predicate MenuKept(w: World)
    reads w
  {
    unchanged(w`entities, w`nextEntity, w`positions, w`players, w`viewsheds, w`monsters, w`names, w`blocksTile) &&
    unchanged(w`combatStats, w`wantsMelee, w`sufferDamage, w`items, w`consumables, w`ranged, w`inflictsDamage) &&
    unchanged(w`areaOfEffect, w`confusion, w`providesHealing, w`inBackpack, w`wantsPickup) &&
    unchanged(w`playerEntity, w`playerPos, w`log)
  }

  /** Every storage and resource that input handling does not write is as it was. */
  twostate predicate InputKept(w: World)
    reads w
  {
    unchanged(w`entities, w`nextEntity, w`players, w`monsters, w`names, w`blocksTile, w`combatStats) &&
    unchanged(w`sufferDamage, w`items, w`consumables, w`ranged, w`inflictsDamage, w`areaOfEffect) &&
    unchanged(w`confusion, w`providesHealing, w`inBackpack, w`wantsUse, w`wantsDrop, w`playerEntity)
  }

  /**
   * The intents a menu frame in state `s` records on its way to `next`:
   * the picked item's use or drop when the inventory or the drop menu hands
   * the turn to the player, the targeted use when targeting does, and
   * nothing otherwise.
   */
  twostate predicate MenuIntents(w: World, s: RunState, next: RunState, key: Option<Key>, listed: seq<Entity>,
                                 letterToOption: Key -> int, target: (ItemMenu.MenuResult, Option<Point>))
    reads w
  {
    var pick := ItemMenu.Pick(listed, key, letterToOption);
    (if s == ShowInventory && next == PlayerTurn
     then pick.1.Some? && w.wantsUse == old(w.wantsUse)[w.playerEntity := WantsToUseItem(pick.1.value, None)]
     else if s.ShowTargeting? && next == PlayerTurn
     then w.wantsUse == old(w.wantsUse)[w.playerEntity := WantsToUseItem(s.item, target.1)]
     else w.wantsUse == old(w.wantsUse)) &&
    (if s == ShowDropItem && next == PlayerTurn
     then pick.1.Some? && w.wantsDrop == old(w.wantsDrop)[w.playerEntity := WantsToDropItem(pick.1.value)]
     else w.wantsDrop == old(w.wantsDrop))
  }

  /**
   * What the match in `tick` does in the state it starts from, `s0` and
   * `r0` being that world's snapshots: the new state is `Next`'s, a turn of
   * play runs the systems as `RunSystems` says, waiting for input answers
   * the key as `input` does, and every other state records at most the
   * intent its menu names and changes nothing else.
   */
  twostate predicate Framed(w: World, m: Map, key: Option<Key>, letterToOption: Key -> int,
                            aStar: (seq<bool>, int, int) -> MonsterAI.Path, fov: (Point, int) -> seq<Point>,
                            target: (ItemMenu.MenuResult, Option<Point>), saveExists: bool, s0: Snap, r0: Kept, newRunState: RunState)
    reads w, m
  {
    var s := old(w.runState);
    newRunState == Next(s, key, old(Listed(w)), letterToOption, old(w.ranged), target, saveExists) &&
    if RunsSystems(s) then SystemsRan(w, m, aStar, fov, s0, r0)
    else if s == AwaitingInput then InputAnswered(w, m, key)
    else MenuAnswered(w, m, key, letterToOption, target, newRunState)
  }

  /** A turn of play: the systems ran from the snapshots as `RunSystems` says. */
  ghost predicate SystemsRan(w: World, m: Map, aStar: (seq<bool>, int, int) -> MonsterAI.Path,
                             fov: (Point, int) -> seq<Point>, s0: Snap, r0: Kept)
    reads w, m
  {
    Ready(s0, aStar) && Ran(w, m, r0, Fought(s0, aStar), Passed(s0, aStar, fov))
  }

  /** Waiting for input: the key was answered as `input` answers it, and nothing else changed. */
  twostate predicate InputAnswered(w: World, m: Map, key: Option<Key>)
    reads w, m
  {
    m.Valid() && PlayerMove.Answered(w, m, key) && InputKept(w) && unchanged(m`blocked, w`runState)
  }

  /** A menu: at most the intent it names was recorded, and nothing else changed. */
  twostate predicate MenuAnswered(w: World, m: Map, key: Option<Key>, letterToOption: Key -> int,
                                  target: (ItemMenu.MenuResult, Option<Point>), newRunState: RunState)
    reads w, m
  {
    MenuKept(w) && unchanged(m`blocked, w`runState) &&
    MenuIntents(w, old(w.runState), newRunState, key, old(Listed(w)), letterToOption, target)
  }

  /**
   * The match in `tick`: the frame's new run state, before it is written
   * and the dead are swept.  A turn of play runs the systems, waiting for
   * input answers the key, and every other state records at most the intent
   * its menu names and changes nothing else.
   */
  method Step(w: World, m: Map, key: Option<Key>, letterToOption: Key -> int,
              aStar: (seq<bool>, int, int) -> MonsterAI.Path, fov: (Point, int) -> seq<Point>,
              target: (ItemMenu.MenuResult, Option<Point>), saveExists: bool, ghost s0: Snap, ghost r0: Kept) returns (newRunState: RunState)
    requires s0 == SnapOf(w, m) && r0 == KeptOf(w)
    requires w.Valid() && m.Valid()
    requires RunsSystems(w.runState) ==> ReadyForSystems(w, m, aStar)
    modifies w`entities, w`positions, w`players, w`viewsheds, w`monsters, w`log, w`playerPos
    modifies w`names, w`blocksTile, w`combatStats, w`wantsMelee, w`sufferDamage, w`items, w`consumables, w`ranged
    modifies w`inflictsDamage, w`areaOfEffect, w`confusion, w`providesHealing, w`inBackpack, w`wantsPickup, w`wantsUse, w`wantsDrop
    modifies m`blocked
    ensures w.Valid() && m.Valid()
    ensures Framed(w, m, key, letterToOption, aStar, fov, target, saveExists, s0, r0, newRunState)
    ensures newRunState == Next(old(w.runState), key, old(Listed(w)), letterToOption, old(w.ranged), target, saveExists)
    ensures !RunsSystems(old(w.runState)) ==> w.entities == old(w.entities) && w.combatStats == old(w.combatStats) && w.players == old(w.players)
    ensures RunsSystems(old(w.runState)) ==>
      var g := Passed(s0, aStar, fov);
      w.entities == Without(old(w.entities), g.fx.consumed) && w.combatStats == g.fx.stats - g.fx.consumed && w.players == old(w.players) - g.fx.consumed
    ensures forall e :: e in w.entities ==> (e in w.players <==> e in old(w.players))
  {
    if RunsSystems(w.runState) {
      newRunState := SystemsFrame(w, m, key, letterToOption, aStar, fov, target, saveExists, s0, r0);
    } else if w.runState == AwaitingInput {
      newRunState := InputFrame(w, m, key, letterToOption, aStar, fov, target, saveExists, s0, r0);
    } else {
      newRunState := MenuFrame(w, m, key, letterToOption, aStar, fov, target, saveExists, s0, r0);
    }
  }

  /**
   * The frames that run the systems: before the first turn, the two turns,
   * and a pause.  The systems run as `RunSystems` says, and the player's
   * turn passes to the monsters, every other one to waiting for input.
   */
  method SystemsFrame(w: World, m: Map, key: Option<Key>, letterToOption: Key -> int,
                      aStar: (seq<bool>, int, int) -> MonsterAI.Path, fov: (Point, int) -> seq<Point>,
                      target: (ItemMenu.MenuResult, Option<Point>), saveExists: bool, ghost s0: Snap, ghost r0: Kept)
    returns (newRunState: RunState)
    requires s0 == SnapOf(w, m) && r0 == KeptOf(w)
    requires RunsSystems(w.runState) && ReadyForSystems(w, m, aStar)
    modifies w`entities, w`positions, w`players, w`viewsheds, w`monsters, w`log
    modifies w`names, w`blocksTile, w`combatStats, w`wantsMelee, w`sufferDamage, w`items, w`consumables, w`ranged
    modifies w`inflictsDamage, w`areaOfEffect, w`confusion, w`providesHealing, w`inBackpack, w`wantsPickup, w`wantsUse, w`wantsDrop
    modifies m`blocked
    ensures w.Valid() && m.Valid()
    ensures newRunState == Next(old(w.runState), key, old(Listed(w)), letterToOption, old(w.ranged), target, saveExists)
    ensures SystemsRan(w, m, aStar, fov, s0, r0)
  {
    var _, _, _ := RunSystems(w, m, aStar, fov, s0, r0);
    match w.runState {
      case PreRun => newRunState := AwaitingInput;
      case PlayerTurn => newRunState := MonsterTurn;
      case MonsterTurn => newRunState := AwaitingInput;
      case Paused => newRunState := AwaitingInput;
    }
  }

  /** The frame that waits for input: the key is answered as `input` answers it. */
  method InputFrame(w: World, m: Map, key: Option<Key>, letterToOption: Key -> int,
                    aStar: (seq<bool>, int, int) -> MonsterAI.Path, fov: (Point, int) -> seq<Point>,
                    target: (ItemMenu.MenuResult, Option<Point>), saveExists: bool, ghost s0: Snap, ghost r0: Kept)
    returns (newRunState: RunState)
    requires w.runState == AwaitingInput && m.Valid()
    modifies w`positions, w`viewsheds, w`wantsMelee, w`playerPos, w`log, w`wantsPickup
    ensures newRunState == Next(old(w.runState), key, old(Listed(w)), letterToOption, old(w.ranged), target, saveExists)
    ensures InputAnswered(w, m, key)
  {
    newRunState := PlayerMove.UserInput(w, m, key);
  }

  /** The frames of the menus and of the states that only pass control on. */
  method MenuFrame(w: World, m: Map, key: Option<Key>, letterToOption: Key -> int,
                   aStar: (seq<bool>, int, int) -> MonsterAI.Path, fov: (Point, int) -> seq<Point>,
                   target: (ItemMenu.MenuResult, Option<Point>), saveExists: bool, ghost s0: Snap, ghost r0: Kept)
    returns (newRunState: RunState)
    requires !RunsSystems(w.runState) && w.runState != AwaitingInput
    modifies w`wantsUse, w`wantsDrop
    ensures newRunState == Next(old(w.runState), key, old(Listed(w)), letterToOption, old(w.ranged), target, saveExists)
    ensures MenuAnswered(w, m, key, letterToOption, target, newRunState)
  {
    match w.runState {
      case ShowInventory =>
        newRunState := InventoryChoice(w, key, letterToOption, target, saveExists);
      case ShowDropItem =>
        newRunState := DropChoice(w, key, letterToOption, target, saveExists);
      case ShowTargeting(range, item) =>
        newRunState := TargetChoice(w, range, item, key, letterToOption, target, saveExists);
      case NextLevel =>
        newRunState := PreRun;
      case ShowMainMenu =>
        newRunState := MainMenu(Menu.ContinuePlaying);
      case MainMenu(selection) =>
        newRunState := MenuChoice(selection, key, saveExists);
      case StartNewGame =>
        newRunState := PreRun;
      case SaveGame =>
        newRunState := AwaitingInput;
      case LoadGame =>
        newRunState := AwaitingInput;
      case ShowCredits =>
        newRunState := AwaitingInput;
      case Quitting =>
        newRunState := Quitting;
    }
  }

  /**
   * `tick`: one frame's step, the new run state written to the resource,
   * then the death sweep.  `before` and `stats` are the live entities and
   * combat stats the step leaves: the old ones outside a turn of play, and
   * what the systems pass leaves in one.  The sweep removes exactly those
   * of them, `swept`, that are not players and are below one hit point.
   */
  method Tick(w: World, m: Map, key: Option<Key>, letterToOption: Key -> int,
              aStar: (seq<bool>, int, int) -> MonsterAI.Path, fov: (Point, int) -> seq<Point>,
              target: (ItemMenu.MenuResult, Option<Point>), saveExists: bool)
    returns (ghost before: seq<Entity>, ghost stats: map<Entity, CombatStats>, ghost swept: set<Entity>)
    requires w.Valid() && m.Valid()
    requires RunsSystems(w.runState) ==> ReadyForSystems(w, m, aStar)
    modifies w, m`blocked
    ensures w.Valid() && m.Valid()
    ensures w.runState == Next(old(w.runState), key, old(Listed(w)), letterToOption, old(w.ranged), target, saveExists)
    ensures !RunsSystems(old(w.runState)) ==> before == old(w.entities) && stats == old(w.combatStats)
    ensures RunsSystems(old(w.runState)) ==>
      var g := Passed(old(SnapOf(w, m)), aStar, fov);
      before == Without(old(w.entities), g.fx.consumed) && stats == g.fx.stats - g.fx.consumed
    ensures w.entities == Without(before, swept)
    ensures forall e :: e in swept <==> e in before && e in stats && stats[e].hp < 1 && e !in old(w.players)
  {
    var newRunState := Step(w, m, key, letterToOption, aStar, fov, target, saveExists, SnapOf(w, m), KeptOf(w));
    before, stats := w.entities, w.combatStats;
    w.runState := newRunState;
    assert w.runState == Next(old(w.runState), key, old(Listed(w)), letterToOption, old(w.ranged), target, saveExists);
    swept := SweepStage(w, old(w.players));
  }

  /**
   * `delete_the_dead` at the end of a frame: the victims are the entities
   * with fewer than one hit point that are not in `players`, which agrees
   * with the Player storage on every entity; they lose every component and
   * the log gains the sweep's lines.
   */
  method SweepStage(w: World, ghost players: set<Entity>) returns (ghost swept: set<Entity>)
    requires w.Valid()
    requires forall e :: e in w.entities ==> (e in w.players <==> e in players)
    modifies w`entities, w`positions, w`players, w`viewsheds, w`monsters, w`log
    modifies w`names, w`blocksTile, w`combatStats, w`wantsMelee, w`sufferDamage, w`items, w`consumables, w`ranged
    modifies w`inflictsDamage, w`areaOfEffect, w`confusion, w`providesHealing, w`inBackpack, w`wantsPickup, w`wantsUse, w`wantsDrop
    ensures w.Valid() && w.entities == Without(old(w.entities), swept)
    ensures forall e :: e in swept <==> e in old(w.entities) && e in old(w.combatStats) && old(w.combatStats)[e].hp < 1 && e !in players
    ensures w.log == Damage.SweepAll(old(w.combatStats), old(w.names), old(w.players), Damage.Sweep([], old(w.log)), old(w.entities)).log
    ensures w.Deleted(swept)
  {
    ghost var stats, names, log := w.combatStats, w.names, w.log;
    Damage.DeleteTheDead(w);
    swept := set e | e in Damage.SweepAll(stats, names, old(w.players), Damage.Sweep([], log), old(w.entities)).dead;
  }

  /** The entities of `es` a level change removes: all but players and what the player carries. */
  function Leftovers(es: seq<Entity>, players: set<Entity>, backpack: map<Entity, InBackpack>, player: Entity): (r: seq<Entity>)
  {
    if es == [] then []
    else
      var rest := Leftovers(es[..|es| - 1], players, backpack, player);
      var e := es[|es| - 1];
      if e in players || (e in backpack && backpack[e].owner == player) then rest else rest + [e]
  }

  /** A level change keeps exactly the players and the player's backpack. */
  lemma {:induction false} LeftoversMeans(es: seq<Entity>, players: set<Entity>, backpack: map<Entity, InBackpack>, player: Entity, e: Entity)
    ensures e in Leftovers(es, players, backpack, player) <==>
      e in es && e !in players && !(e in backpack && backpack[e].owner == player)
  {
    if es != [] {
      assert es == es[..|es| - 1] + [es[|es| - 1]];
      LeftoversMeans(es[..|es| - 1], players, backpack, player, e);
    }
  }

  /** `entities_to_remove_on_level_change`. */
  method EntitiesToRemoveOnLevelChange(w: World) returns (toDelete: seq<Entity>)
    ensures toDelete == Leftovers(w.entities, w.players, w.inBackpack, w.playerEntity)
  {
    toDelete := [];
    var i := 0;
    while i < |w.entities|
      invariant 0 <= i <= |w.entities|
      invariant toDelete == Leftovers(w.entities[..i], w.players, w.inBackpack, w.playerEntity)
    {
      var entity := w.entities[i];
      assert w.entities[..i + 1][..i] == w.entities[..i];
      var shouldDelete := true;
      if entity in w.players {
        shouldDelete := false;
      }
      if entity in w.inBackpack && w.inBackpack[entity].owner == w.playerEntity {
        shouldDelete := false;
      }
      if shouldDelete {
        toDelete := toDelete + [entity];
      }
      i := i + 1;
    }
    assert w.entities[..i] == w.entities;
  }

  /** Rust's `i32` division by two, which rounds toward zero. */
  function Half(n: int): int
  {
    if n >= 0 then n / 2 else -((-n) / 2)
  }

  /** The deletions of `goto_next_level`: everything but the players and the player's backpack goes. */
  method RemoveLeftovers(w: World)
    requires w.Valid()
    modifies w`entities, w`positions, w`players, w`viewsheds, w`monsters
    modifies w`names, w`blocksTile, w`combatStats, w`wantsMelee, w`sufferDamage, w`items, w`consumables, w`ranged
    modifies w`inflictsDamage, w`areaOfEffect, w`confusion, w`providesHealing, w`inBackpack, w`wantsPickup, w`wantsUse, w`wantsDrop
    ensures w.Valid()
    ensures forall e :: e in old(w.entities) ==>
      (e in w.entities <==> e in old(w.players) || (e in old(w.inBackpack) && old(w.inBackpack)[e].owner == old(w.playerEntity)))
  {
    var toDelete := EntitiesToRemoveOnLevelChange(w);
    w.DeleteEntities(set e | e in toDelete);
    forall e | e in old(w.entities)
      ensures e in w.entities <==> e in old(w.players) || (e in old(w.inBackpack) && old(w.inBackpack)[e].owner == old(w.playerEntity))
    {
      LeftoversMeans(old(w.entities), old(w.players), old(w.inBackpack), old(w.playerEntity), e);
    }
  }

  /**
   * `goto_next_level`: deletes everything but the players and the player's
   * backpack, replaces the map with a level one deeper, spawns a character
   * at the first room's centre, logs the descent and lifts that character's
   * hit points to at least half its maximum.  The new level's map is
   * returned; `roomCenters` are the centres of its rooms.
   */
  method GotoNextLevel(w: World, m: Map, roomCenters: seq<Point>, cfg: Character.PlayerConfig) returns (next: Map, c: Character.Character)
    requires w.Valid() && m.Valid() && |roomCenters| > 0
    modifies w`entities, w`nextEntity, w`positions, w`players, w`viewsheds, w`monsters, w`log
    modifies w`names, w`blocksTile, w`combatStats, w`wantsMelee, w`sufferDamage, w`items, w`consumables, w`ranged
    modifies w`inflictsDamage, w`areaOfEffect, w`confusion, w`providesHealing, w`inBackpack, w`wantsPickup, w`wantsUse, w`wantsDrop
    ensures fresh(next) && next.Valid() && next.depth == m.depth + 1 && next.width == m.width && next.height == m.height
    ensures w.Valid() && c.location == roomCenters[0]
    ensures forall e :: e in old(w.entities) ==>
      (e in w.entities <==> e in old(w.players) || (e in old(w.inBackpack) && old(w.inBackpack)[e].owner == old(w.playerEntity)))
    ensures c.entity !in old(w.entities) && c.entity in w.entities && c.entity in w.players
    ensures c.entity in w.positions && c.entity in w.viewsheds && c.entity in w.combatStats
    ensures w.positions[c.entity] == roomCenters[0] && w.viewsheds[c.entity].dirty
    ensures w.combatStats[c.entity].hp == if cfg.startingHp < Half(cfg.maxHp) then Half(cfg.maxHp) else cfg.startingHp
    ensures w.combatStats[c.entity].maxHp == cfg.maxHp
    ensures w.log == old(w.log) + ["You descend to the next level, and take a moment to heal."]
  {
    RemoveLeftovers(w);
    ghost var kept := w.entities;
    next := new Map(m.depth + 1, m.width, m.height, m.name);
    c := Arrive(w, roomCenters, cfg);
    forall e | e in old(w.entities) ensures e in w.entities <==> e in kept {
      assert e != c.entity;
    }
  }

  /** The second half of `goto_next_level`: the character is placed, told of the descent and healed. */
  method Arrive(w: World, roomCenters: seq<Point>, cfg: Character.PlayerConfig) returns (c: Character.Character)
    requires w.Valid() && |roomCenters| > 0
    modifies w`entities, w`nextEntity, w`positions, w`players, w`viewsheds, w`names, w`combatStats, w`log
    ensures w.Valid() && c.location == roomCenters[0]
    ensures c.entity == old(w.nextEntity) && c.entity !in old(w.entities) && w.entities == old(w.entities) + [c.entity] && c.entity in w.players
    ensures c.entity in w.positions && c.entity in w.viewsheds && c.entity in w.combatStats
    ensures w.positions[c.entity] == roomCenters[0] && w.viewsheds[c.entity].dirty
    ensures w.combatStats[c.entity].hp == if cfg.startingHp < Half(cfg.maxHp) then Half(cfg.maxHp) else cfg.startingHp
    ensures w.combatStats[c.entity].maxHp == cfg.maxHp
    ensures w.log == old(w.log) + ["You descend to the next level, and take a moment to heal."]
  {
    c := Character.New(w, roomCenters, cfg);
    if c.entity in w.positions {
      w.positions := w.positions[c.entity := c.location];
    }
    if c.entity in w.viewsheds {
      w.viewsheds := w.viewsheds[c.entity := w.viewsheds[c.entity].(dirty := true)];
    }
    w.log := w.log + ["You descend to the next level, and take a moment to heal."];
    if c.entity in w.combatStats {
      var health := w.combatStats[c.entity];
      w.combatStats := w.combatStats[c.entity := health.(hp := if health.hp < Half(health.maxHp) then Half(health.maxHp) else health.hp)];
    }
  }
}
