/**
 * The entry-trigger pass of the current game (`src/systems/trigger_system.rs`):
 * every entity that moved this turn sets off each other entry trigger on the
 * tile where it ended up, announcing named ones in the log and queueing a
 * trigger-fire effect, and then all movement markers are cleared.
 *
 * The effects module's `aoe_tiles` is not part of this model: it is the
 * parameter `aoeTiles` (the tile indexes within a radius of a point).
 */
module Trigger {
  import opened Ecs
  import opened Spatial
  import opened GameWorld

  /** What the pass reads: the live entities, markers, components and the map's tile contents. */
  datatype Traps = Traps(entities: seq<Entity>, moved: set<Entity>, positions: map<Entity, Point>,
                         triggers: set<Entity>, names: map<Entity, string>, aoe: map<Entity, int>,
                         width: int, content: seq<seq<Entity>>)

  function TrapsOf(w: World, m: Map): Traps
    reads w`entities, w`entityMoved, w`positions, w`entryTrigger, w`names, w`areaOfEffect, m`width, m`tileContent
  {
    Traps(w.entities, w.entityMoved, w.positions, w.entryTrigger, w.names, w.areaOfEffect, m.width, m.tileContent)
  }

  /** The effect a trigger `t` fired by `mover` standing on tile `idx` at `pos` queues. */
  function TriggerEffect(tr: Traps, aoeTiles: (Point, int) -> seq<int>, mover: Entity, pos: Point, idx: int, t: Entity): EffectSpawner
  {
    EffectSpawner(Some(mover), TriggerFire(t), if t in tr.aoe then Tiles(aoeTiles(pos, tr.aoe[t])) else Tile(idx))
  }

  /** The log lines announcing the trigger-fire effects `fx` whose trigger has a name. */
  function Announced(names: map<Entity, string>, fx: seq<EffectSpawner>): seq<seq<string>>
  {
    if fx == [] then []
    else
      var t := fx[|fx| - 1].effectType.trigger;
      Announced(names, fx[..|fx| - 1]) + (if t in names then [[names[t], "triggers!"]] else [])
  }

  lemma {:induction false} AnnouncedAppend(names: map<Entity, string>, a: seq<EffectSpawner>, b: seq<EffectSpawner>)
    ensures Announced(names, a + b) == Announced(names, a) + Announced(names, b)
  {
    if b != [] {
      var prefix, last := b[..|b| - 1], b[|b| - 1];
      assert b == prefix + [last];
      assert a + b == (a + prefix) + [last];
      assert (a + b)[..|a + b| - 1] == a + prefix && (a + b)[|a + b| - 1] == last;
      AnnouncedAppend(names, a, prefix);
      var line := if last.effectType.trigger in names then [[names[last.effectType.trigger], "triggers!"]] else [];
      assert Announced(names, b) == Announced(names, prefix) + line;
      assert Announced(names, a + b) == Announced(names, a + prefix) + line;
    } else {
      assert a + b == a;
    }
  }

  /** The effects `mover` sets off among the occupants `occupants` of its tile, in order. */
  function Sprung(tr: Traps, aoeTiles: (Point, int) -> seq<int>, mover: Entity, pos: Point, idx: int, occupants: seq<Entity>): seq<EffectSpawner>
  {
    if occupants == [] then []
    else
      var t := occupants[|occupants| - 1];
      Sprung(tr, aoeTiles, mover, pos, idx, occupants[..|occupants| - 1]) +
      (if t != mover && t in tr.triggers then [TriggerEffect(tr, aoeTiles, mover, pos, idx, t)] else [])
  }

  /**
   * A mover's effects are exactly those of the entry triggers on its tile
   * other than itself, each created by the mover.
   */
  lemma {:induction false} SprungMeans(tr: Traps, aoeTiles: (Point, int) -> seq<int>, mover: Entity, pos: Point, idx: int,
                                       occupants: seq<Entity>, fx: EffectSpawner)
    ensures fx in Sprung(tr, aoeTiles, mover, pos, idx, occupants) <==>
      exists t :: t in occupants && t != mover && t in tr.triggers && fx == TriggerEffect(tr, aoeTiles, mover, pos, idx, t)
  {
    if occupants != [] {
      var prefix, t := occupants[..|occupants| - 1], occupants[|occupants| - 1];
      assert occupants == prefix + [t];
      SprungMeans(tr, aoeTiles, mover, pos, idx, prefix, fx);
    }
  }

  /** The entities whose movement the pass handles: live, marked as moved, with a position. */
  predicate Moved(tr: Traps, e: Entity)
  {
    e in tr.entities && e in tr.moved && e in tr.positions
  }

  /** The tile index a mover stands on. */
  function TileOfMover(tr: Traps, e: Entity): int
    requires e in tr.positions
  {
    Idx(tr.width, tr.positions[e].x, tr.positions[e].y)
  }

  /** Every mover stands on a tile of the map (indexing the tile contents otherwise panics). */
  ghost predicate OnMap(tr: Traps)
  {
    forall e :: Moved(tr, e) ==> 0 <= TileOfMover(tr, e) < |tr.content|
  }

  /** The effects entity `e` sets off: those of its tile if it moved, none otherwise. */
  function SetOff(tr: Traps, aoeTiles: (Point, int) -> seq<int>, e: Entity): seq<EffectSpawner>
    requires OnMap(tr)
  {
    if Moved(tr, e) then Sprung(tr, aoeTiles, e, tr.positions[e], TileOfMover(tr, e), tr.content[TileOfMover(tr, e)]) else []
  }

  /** The effects queued for the movers among `es`, in order. */
  function Queued(tr: Traps, aoeTiles: (Point, int) -> seq<int>, es: seq<Entity>): seq<EffectSpawner>
    requires OnMap(tr)
  {
    if es == [] then [] else Queued(tr, aoeTiles, es[..|es| - 1]) + SetOff(tr, aoeTiles, es[|es| - 1])
  }

  /**
   * Every effect the pass queues was created by a mover of `es` and fires an
   * entry trigger that is not that mover and stands on the mover's tile; and
   * every such trigger of every mover is fired.
   */
  lemma {:induction false} QueuedMeans(tr: Traps, aoeTiles: (Point, int) -> seq<int>, es: seq<Entity>, fx: EffectSpawner)
    requires OnMap(tr)
    ensures fx in Queued(tr, aoeTiles, es) <==>
      exists e, t :: e in es && Moved(tr, e) && t in tr.content[TileOfMover(tr, e)] && t != e && t in tr.triggers &&
        fx == TriggerEffect(tr, aoeTiles, e, tr.positions[e], TileOfMover(tr, e), t)
  {
    if es != [] {
      var prefix, e := es[..|es| - 1], es[|es| - 1];
      assert es == prefix + [e];
      QueuedMeans(tr, aoeTiles, prefix, fx);
      if Moved(tr, e) {
        SprungMeans(tr, aoeTiles, e, tr.positions[e], TileOfMover(tr, e), tr.content[TileOfMover(tr, e)], fx);
      }
    }
  }

  /** No entity ever sets off its own trigger. */
  lemma NeverSelfTriggered(tr: Traps, aoeTiles: (Point, int) -> seq<int>, es: seq<Entity>, fx: EffectSpawner)
    requires OnMap(tr) && fx in Queued(tr, aoeTiles, es)
    ensures fx.creator.Some? && fx.creator.value in es && Moved(tr, fx.creator.value) && fx.effectType.trigger != fx.creator.value
  {
    QueuedMeans(tr, aoeTiles, es, fx);
  }

  /**
   * `TriggerSystem::run`: the queue gains the movers' trigger effects, the log
   * announces exactly those whose trigger has a name, and all movement
   * markers are removed.
   */
  method TriggerSystem(w: World, m: Map, aoeTiles: (Point, int) -> seq<int>)
    requires m.Valid() && OnMap(TrapsOf(w, m))
    modifies w`log, w`effects, w`entityMoved
    ensures w.entityMoved == {}
    ensures w.effects == old(w.effects) + Queued(old(TrapsOf(w, m)), aoeTiles, w.entities)
    ensures w.log == old(w.log) + Announced(w.names, Queued(old(TrapsOf(w, m)), aoeTiles, w.entities))
  {
    FireAll(w, m, aoeTiles);
    w.entityMoved := {};
  }

  /** `Queued` over one more entity of `es`. */
  lemma QueuedSnoc(tr: Traps, aoeTiles: (Point, int) -> seq<int>, es: seq<Entity>, i: nat)
    requires OnMap(tr) && i < |es|
    ensures Queued(tr, aoeTiles, es[..i + 1]) == Queued(tr, aoeTiles, es[..i]) + SetOff(tr, aoeTiles, es[i])
  {
    assert es[..i + 1][..i] == es[..i];
  }

  /** `Sprung` over one more occupant of `occupants`. */
  lemma SprungSnoc(tr: Traps, aoeTiles: (Point, int) -> seq<int>, mover: Entity, pos: Point, idx: int, occupants: seq<Entity>, k: nat)
    requires k < |occupants|
    ensures Sprung(tr, aoeTiles, mover, pos, idx, occupants[..k + 1]) == Sprung(tr, aoeTiles, mover, pos, idx, occupants[..k]) +
      (if occupants[k] != mover && occupants[k] in tr.triggers then [TriggerEffect(tr, aoeTiles, mover, pos, idx, occupants[k])] else [])
  {
    assert occupants[..k + 1][..k] == occupants[..k];
  }

  /** The join over the movers. */
  method FireAll(w: World, m: Map, aoeTiles: (Point, int) -> seq<int>)
    requires m.Valid() && OnMap(TrapsOf(w, m))
    modifies w`log, w`effects
    ensures w.effects == old(w.effects) + Queued(TrapsOf(w, m), aoeTiles, w.entities)
    ensures w.log == old(w.log) + Announced(w.names, Queued(TrapsOf(w, m), aoeTiles, w.entities))
  {
    ghost var tr := TrapsOf(w, m);
    var es := w.entities;
    var i := 0;
    while i < |es|
      invariant 0 <= i <= |es|
      invariant w.effects == old(w.effects) + Queued(tr, aoeTiles, es[..i])
      invariant w.log == old(w.log) + Announced(tr.names, Queued(tr, aoeTiles, es[..i]))
    {
      ghost var before := Queued(tr, aoeTiles, es[..i]);
      QueuedSnoc(tr, aoeTiles, es, i);
      ghost var fired := FireMover(w, m, aoeTiles, es[i], tr);
      AnnouncedAppend(tr.names, before, fired);
      AppendAssoc(old(w.effects), before, fired);
      AppendAssoc(old(w.log), Announced(tr.names, before), Announced(tr.names, fired));
      i := i + 1;
    }
    assert es[..i] == es;
  }

  /** One entity of the join: a mover fires its tile's triggers, any other entity nothing. */
  method FireMover(w: World, m: Map, aoeTiles: (Point, int) -> seq<int>, entity: Entity, ghost tr: Traps)
    returns (ghost fired: seq<EffectSpawner>)
    requires m.Valid() && tr == TrapsOf(w, m) && OnMap(tr) && entity in tr.entities
    modifies w`log, w`effects
    ensures fired == SetOff(tr, aoeTiles, entity)
    ensures w.effects == old(w.effects) + fired && w.log == old(w.log) + Announced(tr.names, fired)
  {
    if entity in w.entityMoved && entity in w.positions {
      fired := TriggerOne(w, m, aoeTiles, entity, tr);
    } else {
      fired := [];
    }
  }

  /** The body of the join for the mover `entity`. */
  method TriggerOne(w: World, m: Map, aoeTiles: (Point, int) -> seq<int>, entity: Entity, ghost tr: Traps)
    returns (ghost fired: seq<EffectSpawner>)
    requires m.Valid() && tr == TrapsOf(w, m) && OnMap(tr) && Moved(tr, entity)
    modifies w`log, w`effects
    ensures fired == Sprung(tr, aoeTiles, entity, tr.positions[entity], TileOfMover(tr, entity), tr.content[TileOfMover(tr, entity)])
    ensures w.effects == old(w.effects) + fired && w.log == old(w.log) + Announced(tr.names, fired)
  {
    var pos := w.positions[entity];
    var idx := m.XyIdx(pos.x, pos.y);
    var occupants := m.tileContent[idx];
    fired := [];
    var k := 0;
    while k < |occupants|
      invariant 0 <= k <= |occupants|
      invariant fired == Sprung(tr, aoeTiles, entity, pos, idx, occupants[..k])
      invariant w.effects == old(w.effects) + fired && w.log == old(w.log) + Announced(tr.names, fired)
    {
      SprungSnoc(tr, aoeTiles, entity, pos, idx, occupants, k);
      var entityId := occupants[k];
      if entity != entityId && entityId in w.entryTrigger {
        var fx := Fire(w, aoeTiles, entity, pos, idx, entityId);
        assert fx == TriggerEffect(tr, aoeTiles, entity, pos, idx, entityId);
        AnnouncedAppend(tr.names, fired, [fx]);
        AppendAssoc(old(w.effects), fired, [fx]);
        AppendAssoc(old(w.log), Announced(tr.names, fired), Announced(tr.names, [fx]));
        fired := fired + [fx];
      } else {
        assert fired + [] == fired;
      }
      k := k + 1;
    }
    assert occupants[..k] == occupants;
  }

  /** One trigger `entityId` set off by `entity`: announced when named, and its effect queued. */
  method Fire(w: World, aoeTiles: (Point, int) -> seq<int>, entity: Entity, pos: Point, idx: int, entityId: Entity)
    returns (fx: EffectSpawner)
    modifies w`log, w`effects
    ensures fx == EffectSpawner(Some(entity), TriggerFire(entityId),
                                if entityId in w.areaOfEffect then Tiles(aoeTiles(pos, w.areaOfEffect[entityId])) else Tile(idx))
    ensures w.effects == old(w.effects) + [fx] && w.log == old(w.log) + Announced(w.names, [fx])
  {
    if entityId in w.names {
      w.log := w.log + [[w.names[entityId], "triggers!"]];
    }
    var targets := if entityId in w.areaOfEffect then Tiles(aoeTiles(pos, w.areaOfEffect[entityId])) else Tile(idx);
    fx := EffectSpawner(Some(entity), TriggerFire(entityId), targets);
    w.effects := w.effects + [fx];
    assert [fx][..0] == [];
  }
}
