/**
 * The player character of the second exploration snapshot
 * (`explore2/src/player/character.rs`): creating the player entity and
 * asking to pick up whatever item lies under it.
 */
module Character {
  import opened Ecs
  import opened Explore2World

  /** The player settings the spawn reads; glyph and colours are rendering only. */
  datatype PlayerConfig = PlayerConfig(name: string, viewRange: int, maxHp: int, startingHp: int, defense: int, power: int)

  /** Where the player starts and which entity it is. */
  datatype Character = Character(location: Point, entity: Entity)

  /**
   * Spawns the player at `start`: a player marker, a name, the configured
   * combat stats (hit points start at `starting_hp`, not at the maximum) and
   * an empty viewshed of the configured range that still has to be computed.
   */
  method Spawn(w: World, start: Point, cfg: PlayerConfig) returns (e: Entity)
    requires w.Valid()
    modifies w`entities, w`nextEntity, w`positions, w`players, w`viewsheds, w`names, w`combatStats
    ensures w.Valid() && e == old(w.nextEntity) && e !in old(w.entities) && w.entities == old(w.entities) + [e]
    ensures w.positions == old(w.positions)[e := start]
    ensures w.players == old(w.players) + {e}
    ensures w.viewsheds == old(w.viewsheds)[e := Viewshed([], cfg.viewRange, true)]
    ensures w.names == old(w.names)[e := cfg.name]
    ensures w.combatStats == old(w.combatStats)[e := CombatStats(cfg.maxHp, cfg.startingHp, cfg.defense, cfg.power)]
  {
    e := w.CreateEntity();
    w.positions := w.positions[e := start];
    w.players := w.players + {e};
    w.viewsheds := w.viewsheds[e := Viewshed([], cfg.viewRange, true)];
    w.names := w.names[e := cfg.name];
    w.combatStats := w.combatStats[e := CombatStats(cfg.maxHp, cfg.startingHp, cfg.defense, cfg.power)];
  }

  /**
   * `character::new`: spawns the player at the centre of the first room and
   * reports that location with the new entity.  `roomCenters` holds the
   * centre of each of the map's rooms, in order.
   */
  method New(w: World, roomCenters: seq<Point>, cfg: PlayerConfig) returns (c: Character)
    requires w.Valid() && |roomCenters| > 0
    modifies w`entities, w`nextEntity, w`positions, w`players, w`viewsheds, w`names, w`combatStats
    ensures w.Valid() && c.location == roomCenters[0] && c.entity == old(w.nextEntity) && c.entity !in old(w.entities)
    ensures w.entities == old(w.entities) + [c.entity] && c.entity in w.players
    ensures w.positions == old(w.positions)[c.entity := roomCenters[0]]
    ensures w.viewsheds == old(w.viewsheds)[c.entity := Viewshed([], cfg.viewRange, true)]
    ensures w.names == old(w.names)[c.entity := cfg.name]
    ensures w.combatStats == old(w.combatStats)[c.entity := CombatStats(cfg.maxHp, cfg.startingHp, cfg.defense, cfg.power)]
  {
    var center := roomCenters[0];
    var e := Spawn(w, center, cfg);
    c := Character(center, e);
  }

  /** The last of `es` that is an item standing on `p`, in join order. */
  function LastItemAt(es: seq<Entity>, items: set<Entity>, positions: map<Entity, Point>, p: Point): (r: Option<Entity>)
    ensures r.Some? ==> r.value in es && r.value in items && r.value in positions && positions[r.value] == p
    ensures r.None? ==> forall e :: e in es && e in items && e in positions ==> positions[e] != p
  {
    if es == [] then None
    else
      var e := es[|es| - 1];
      if e in items && e in positions && positions[e] == p then Some(e)
      else LastItemAt(es[..|es| - 1], items, positions, p)
  }

  /** When several items share the tile, no item after the chosen one in join order is on it. */
  lemma {:induction false} LastItemAtIsLast(es: seq<Entity>, items: set<Entity>, positions: map<Entity, Point>, p: Point, k: nat)
    requires LastItemAt(es, items, positions, p).Some?
    requires k < |es| && es[k] in items && es[k] in positions && positions[es[k]] == p
    ensures exists j :: k <= j < |es| && es[j] == LastItemAt(es, items, positions, p).value
  {
    var e := es[|es| - 1];
    if e in items && e in positions && positions[e] == p {
      assert es[|es| - 1] == e;
    } else {
      assert k < |es| - 1;
      LastItemAtIsLast(es[..|es| - 1], items, positions, p, k);
      var j :| k <= j < |es| - 1 && es[..|es| - 1][j] == LastItemAt(es[..|es| - 1], items, positions, p).value;
      assert es[j] == es[..|es| - 1][j];
    }
  }

  /**
   * `get_item`: asks for the item under the player point to be picked up by
   * the player, or logs that there is none.
   */
  method GetItem(w: World)
    modifies w`log, w`wantsPickup
    ensures match LastItemAt(w.entities, w.items, w.positions, w.playerPos)
      case None =>
        w.log == old(w.log) + ["There is nothing here to pick up."] && w.wantsPickup == old(w.wantsPickup)
      case Some(item) =>
        w.log == old(w.log) && w.wantsPickup == old(w.wantsPickup)[w.playerEntity := WantsToPickupItem(w.playerEntity, item)]
  {
    var targetItem: Option<Entity> := None;
    var i := 0;
    while i < |w.entities|
      invariant 0 <= i <= |w.entities|
      invariant targetItem == LastItemAt(w.entities[..i], w.items, w.positions, w.playerPos)
    {
      var e := w.entities[i];
      assert w.entities[..i + 1][..i] == w.entities[..i];
      if e in w.items && e in w.positions {
        var position := w.positions[e];
        if position.x == w.playerPos.x && position.y == w.playerPos.y {
          targetItem := Some(e);
        }
      }
      i := i + 1;
    }
    assert w.entities[..i] == w.entities;
    match targetItem {
      case None =>
        w.log := w.log + ["There is nothing here to pick up."];
      case Some(item) =>
        w.wantsPickup := w.wantsPickup[w.playerEntity := WantsToPickupItem(w.playerEntity, item)];
    }
  }
}
