/**
 * The item systems of the second exploration snapshot
 * (`explore2/src/player/inventory.rs`): picking up, using and dropping items.
 * Each resolves every intent of its kind in join order and then clears that
 * intent storage.
 */
module Inventory {
  import opened Ecs
  import opened Explore2World
  import opened Spatial

  /** Positions, backpack entries and the log: what pickup and drop write. */
  datatype Carry = Carry(positions: map<Entity, Point>, backpack: map<Entity, InBackpack>, log: seq<string>)

  /** One pickup intent, held by `e`. */
  function Pickup(names: map<Entity, string>, player: Entity, intents: map<Entity, WantsToPickupItem>, c: Carry, e: Entity): Carry
  {
    if e in intents then
      var p := intents[e];
      Carry(c.positions - {p.item}, c.backpack[p.item := InBackpack(p.collectedBy)],
            if p.collectedBy == player then c.log + ["You pick up the " + NameOf(names, p.item) + "."] else c.log)
    else c
  }

  /** The pickup intents held by the entities of `es`, in order. */
  function PickupAll(names: map<Entity, string>, player: Entity, intents: map<Entity, WantsToPickupItem>, c: Carry, es: seq<Entity>): Carry
  {
    if es == [] then c
    else Pickup(names, player, intents, PickupAll(names, player, intents, c, es[..|es| - 1]), es[|es| - 1])
  }

  /**
   * A picked-up item leaves the map and is in the backpack of whoever
   * collected it; an item no intent names keeps its place and its backpack
   * entry.
   */
  lemma {:induction false} PickupAllMoves(names: map<Entity, string>, player: Entity, intents: map<Entity, WantsToPickupItem>, c: Carry, es: seq<Entity>, v: Entity)
    ensures var r := PickupAll(names, player, intents, c, es);
      if exists e :: e in es && e in intents && intents[e].item == v then
        v !in r.positions && v in r.backpack &&
        exists e :: e in es && e in intents && intents[e].item == v && r.backpack[v].owner == intents[e].collectedBy
      else
        (v in r.positions <==> v in c.positions) && (v in c.positions ==> r.positions[v] == c.positions[v]) &&
        (v in r.backpack <==> v in c.backpack) && (v in c.backpack ==> r.backpack[v] == c.backpack[v])
  {
    if es != [] {
      var prefix, last := es[..|es| - 1], es[|es| - 1];
      assert es == prefix + [last];
      PickupAllMoves(names, player, intents, c, prefix, v);
      if last in intents && intents[last].item == v {
        assert last in es;
      }
    }
  }

  /** Only the player's own pickups are logged. */
  lemma {:induction false} PickupLogsOnlyPlayer(names: map<Entity, string>, player: Entity, intents: map<Entity, WantsToPickupItem>, c: Carry, es: seq<Entity>)
    requires forall e :: e in es && e in intents ==> intents[e].collectedBy != player
    ensures PickupAll(names, player, intents, c, es).log == c.log
  {
    if es != [] {
      PickupLogsOnlyPlayer(names, player, intents, c, es[..|es| - 1]);
    }
  }

  /** `ItemCollectionSystem::run`. */
  method ItemCollection(w: World)
    modifies w`positions, w`inBackpack, w`log, w`wantsPickup
    ensures Carry(w.positions, w.inBackpack, w.log) ==
      PickupAll(old(w.names), old(w.playerEntity), old(w.wantsPickup), Carry(old(w.positions), old(w.inBackpack), old(w.log)), old(w.entities))
    ensures w.wantsPickup == map[]
  {
    var i := 0;
    while i < |w.entities|
      invariant 0 <= i <= |w.entities| && w.wantsPickup == old(w.wantsPickup)
      invariant Carry(w.positions, w.inBackpack, w.log) ==
        PickupAll(w.names, w.playerEntity, w.wantsPickup, Carry(old(w.positions), old(w.inBackpack), old(w.log)), w.entities[..i])
    {
      var e := w.entities[i];
      if e in w.wantsPickup {
        var pickup := w.wantsPickup[e];
        w.positions := w.positions - {pickup.item};
        w.inBackpack := w.inBackpack[pickup.item := InBackpack(pickup.collectedBy)];
        if pickup.collectedBy == w.playerEntity {
          w.log := w.log + ["You pick up the " + NameOf(w.names, pickup.item) + "."];
        }
      }
      assert w.entities[..i + 1][..i] == w.entities[..i];
      i := i + 1;
    }
    assert w.entities[..i] == w.entities;
    w.wantsPickup := map[];
  }

  /** One drop intent, held by `e`, who must have a position. */
  function Drop(names: map<Entity, string>, player: Entity, intents: map<Entity, WantsToDropItem>, c: Carry, e: Entity): Carry
    requires e in intents ==> e in c.positions
  {
    if e in intents then
      var item := intents[e].item;
      Carry(c.positions[item := c.positions[e]], c.backpack - {item},
            if e == player then c.log + ["You drop the " + NameOf(names, item) + "."] else c.log)
    else c
  }

  /** The drop intents held by the entities of `es`, in order. */
  function DropAll(names: map<Entity, string>, player: Entity, intents: map<Entity, WantsToDropItem>, c: Carry, es: seq<Entity>): (r: Carry)
    requires forall e :: e in intents ==> e in c.positions
    ensures c.positions.Keys <= r.positions.Keys
  {
    if es == [] then c
    else Drop(names, player, intents, DropAll(names, player, intents, c, es[..|es| - 1]), es[|es| - 1])
  }

  /**
   * A dropped item lands on its dropper's tile and leaves the backpack; a
   * dropper that is not itself an item dropped earlier in the same pass is
   * still where it stood.
   */
  lemma DropCases(names: map<Entity, string>, player: Entity, intents: map<Entity, WantsToDropItem>, c: Carry, e: Entity)
    requires e in intents && e in c.positions
    ensures var r := Drop(names, player, intents, c, e);
      var item := intents[e].item;
      r.positions[item] == c.positions[e] && item !in r.backpack &&
      (forall v :: v != item ==> (v in r.positions <==> v in c.positions) && (v in c.positions ==> r.positions[v] == c.positions[v])) &&
      (forall v :: v != item ==> (v in r.backpack <==> v in c.backpack) && (v in c.backpack ==> r.backpack[v] == c.backpack[v]))
  {
  }

  /**
   * After the pass every dropped item is on the map and out of every
   * backpack; an item no intent names keeps its place and its backpack
   * entry.
   */
  lemma {:induction false} DropAllPlaces(names: map<Entity, string>, player: Entity, intents: map<Entity, WantsToDropItem>, c: Carry, es: seq<Entity>, v: Entity)
    requires forall e :: e in intents ==> e in c.positions
    ensures var r := DropAll(names, player, intents, c, es);
      if exists e :: e in es && e in intents && intents[e].item == v then
        v in r.positions && v !in r.backpack
      else
        (v in r.positions <==> v in c.positions) && (v in c.positions ==> r.positions[v] == c.positions[v]) &&
        (v in r.backpack <==> v in c.backpack) && (v in c.backpack ==> r.backpack[v] == c.backpack[v])
  {
    if es != [] {
      var prefix, last := es[..|es| - 1], es[|es| - 1];
      assert es == prefix + [last];
      DropAllPlaces(names, player, intents, c, prefix, v);
      if last in intents && intents[last].item == v {
        assert last in es;
      }
    }
  }

  /** `ItemDropSystem::run`: every dropper must have a position. */
  method ItemDrop(w: World)
    requires forall e :: e in w.wantsDrop ==> e in w.positions
    modifies w`positions, w`inBackpack, w`log, w`wantsDrop
    ensures Carry(w.positions, w.inBackpack, w.log) ==
      DropAll(old(w.names), old(w.playerEntity), old(w.wantsDrop), Carry(old(w.positions), old(w.inBackpack), old(w.log)), old(w.entities))
    ensures w.wantsDrop == map[]
  {
    var i := 0;
    while i < |w.entities|
      invariant 0 <= i <= |w.entities| && w.wantsDrop == old(w.wantsDrop)
      invariant Carry(w.positions, w.inBackpack, w.log) ==
        DropAll(w.names, w.playerEntity, w.wantsDrop, Carry(old(w.positions), old(w.inBackpack), old(w.log)), w.entities[..i])
    {
      var e := w.entities[i];
      if e in w.wantsDrop {
        var toDrop := w.wantsDrop[e];
        var dropperPos := w.positions[e];
        w.positions := w.positions[toDrop.item := dropperPos];
        w.inBackpack := w.inBackpack - {toDrop.item};
        if e == w.playerEntity {
          w.log := w.log + ["You drop the " + NameOf(w.names, toDrop.item) + "."];
        }
      }
      assert w.entities[..i + 1][..i] == w.entities[..i];
      i := i + 1;
    }
    assert w.entities[..i] == w.entities;
    w.wantsDrop := map[];
  }

  /** The occupants of the tile at `p`, or none when `p` is off the grid. */
  function OccupantsAt(content: seq<seq<Entity>>, width: int, p: Point): seq<Entity>
  {
    var i := Idx(width, p.x, p.y);
    if 0 <= i < |content| then content[i] else []
  }

  /** The blast tiles `retain` keeps: those strictly inside the map border, in order. */
  function BlastTiles(tiles: seq<Point>, width: int, height: int): (r: seq<Point>)
    ensures forall p :: p in r <==> p in tiles && Interior(width, height, p.x, p.y)
  {
    if tiles == [] then []
    else
      var rest := BlastTiles(tiles[..|tiles| - 1], width, height);
      var p := tiles[|tiles| - 1];
      assert tiles == tiles[..|tiles| - 1] + [p];
      if Interior(width, height, p.x, p.y) then rest + [p] else rest
  }

  /** The occupants of each of `tiles`, tile by tile. */
  function Occupants(content: seq<seq<Entity>>, width: int, tiles: seq<Point>): (r: seq<Entity>)
    ensures forall e :: e in r <==> exists p :: p in tiles && e in OccupantsAt(content, width, p)
  {
    if tiles == [] then []
    else
      var p := tiles[|tiles| - 1];
      assert tiles == tiles[..|tiles| - 1] + [p];
      Occupants(content, width, tiles[..|tiles| - 1]) + OccupantsAt(content, width, p)
  }

  /**
   * Whom a use affects: the player when no point was chosen; otherwise the
   * occupants of the chosen tile or, for an area item, of every tile of
   * `fov(target, radius)` strictly inside the border.
   */
  function Targets(player: Entity, content: seq<seq<Entity>>, width: int, height: int, aoe: map<Entity, int>,
                   fov: (Point, int) -> seq<Point>, use: WantsToUseItem): seq<Entity>
  {
    match use.target
    case None => [player]
    case Some(t) =>
      if use.item !in aoe then OccupantsAt(content, width, t)
      else Occupants(content, width, BlastTiles(fov(t, aoe[use.item]), width, height))
  }

  /** Who a use affects, stated without the order. */
  lemma TargetsMeaning(player: Entity, content: seq<seq<Entity>>, width: int, height: int, aoe: map<Entity, int>,
                       fov: (Point, int) -> seq<Point>, use: WantsToUseItem, e: Entity)
    ensures use.target.None? ==> Targets(player, content, width, height, aoe, fov, use) == [player]
    ensures use.target.Some? && use.item !in aoe ==>
      (e in Targets(player, content, width, height, aoe, fov, use) <==> e in OccupantsAt(content, width, use.target.value))
    ensures use.target.Some? && use.item in aoe ==>
      (e in Targets(player, content, width, height, aoe, fov, use) <==>
        exists p :: p in fov(use.target.value, aoe[use.item]) && Interior(width, height, p.x, p.y) && e in OccupantsAt(content, width, p))
  {
    if use.target.Some? && use.item in aoe {
      var tiles := fov(use.target.value, aoe[use.item]);
      var kept := BlastTiles(tiles, width, height);
      if e in Targets(player, content, width, height, aoe, fov, use) {
        var p :| p in kept && e in OccupantsAt(content, width, p);
        assert p in tiles && Interior(width, height, p.x, p.y);
      }
    }
  }

  /** The targets of one use, collected as the source's loops do. */
  method CollectTargets(w: World, m: Map, fov: (Point, int) -> seq<Point>, use: WantsToUseItem) returns (targets: seq<Entity>)
    ensures targets == Targets(w.playerEntity, m.tileContent, m.width, m.height, w.areaOfEffect, fov, use)
  {
    targets := [];
    match use.target {
      case None =>
        targets := targets + [w.playerEntity];
      case Some(target) =>
        if use.item !in w.areaOfEffect {
          targets := targets + OccupantsAt(m.tileContent, m.width, target);
        } else {
          var blastTiles := BlastTiles(fov(target, w.areaOfEffect[use.item]), m.width, m.height);
          var i := 0;
          while i < |blastTiles|
            invariant 0 <= i <= |blastTiles|
            invariant targets == Occupants(m.tileContent, m.width, blastTiles[..i])
          {
            assert blastTiles[..i + 1][..i] == blastTiles[..i];
            targets := targets + OccupantsAt(m.tileContent, m.width, blastTiles[i]);
            i := i + 1;
          }
          assert blastTiles[..i] == blastTiles;
        }
    }
  }

  function Min(a: int, b: int): int
  {
    if a < b then a else b
  }

  /** Combat stats and log during the healing loop, and whether any target had stats. */
  datatype Heal = Heal(stats: map<Entity, CombatStats>, log: seq<string>, used: bool)

  /** The healing loop over `targets`; `line` is logged once per healed target when `logged`. */
  function HealAll(amount: int, logged: bool, line: string, h: Heal, targets: seq<Entity>): (r: Heal)
    ensures r.stats.Keys == h.stats.Keys
  {
    if targets == [] then h
    else
      var mid := HealAll(amount, logged, line, h, targets[..|targets| - 1]);
      var t := targets[|targets| - 1];
      if t in mid.stats then
        Heal(mid.stats[t := mid.stats[t].(hp := Min(mid.stats[t].maxHp, mid.stats[t].hp + amount))],
             if logged then mid.log + [line] else mid.log, true)
      else mid
  }

  /** The heal loop counts as a use exactly when some target has combat stats. */
  lemma {:induction false} HealAllUsed(amount: int, logged: bool, line: string, h: Heal, targets: seq<Entity>)
    ensures HealAll(amount, logged, line, h, targets).used <==> h.used || exists t :: t in targets && t in h.stats
  {
    if targets != [] {
      var prefix, last := targets[..|targets| - 1], targets[|targets| - 1];
      assert targets == prefix + [last];
      HealAllUsed(amount, logged, line, h, prefix);
    }
  }

  /**
   * Healing sets each distinct target's hit points to `min(max_hp, hp +
   * amount)` and leaves everyone else alone.
   */
  lemma {:induction false} HealAllClamps(amount: int, logged: bool, line: string, h: Heal, targets: seq<Entity>, v: Entity)
    requires Distinct(targets)
    ensures var r := HealAll(amount, logged, line, h, targets);
      v in h.stats ==>
        r.stats[v] == (if v in targets then h.stats[v].(hp := Min(h.stats[v].maxHp, h.stats[v].hp + amount)) else h.stats[v])
  {
    if targets != [] {
      var prefix, last := targets[..|targets| - 1], targets[|targets| - 1];
      assert targets == prefix + [last];
      assert Distinct(prefix) && last !in prefix by {
        forall i, j | 0 <= i < j < |prefix| ensures prefix[i] != prefix[j] { assert targets[i] == prefix[i] && targets[j] == prefix[j]; }
      }
      HealAllClamps(amount, logged, line, h, prefix, v);
    }
  }

  /** Healing never lifts anyone above their maximum, whatever the targets, and never changes a maximum. */
  lemma {:induction false} HealAllBounded(amount: int, logged: bool, line: string, h: Heal, targets: seq<Entity>, v: Entity)
    requires v in h.stats && h.stats[v].hp <= h.stats[v].maxHp
    ensures var r := HealAll(amount, logged, line, h, targets);
      r.stats[v].maxHp == h.stats[v].maxHp && r.stats[v].hp <= r.stats[v].maxHp
  {
    if targets != [] {
      HealAllBounded(amount, logged, line, h, targets[..|targets| - 1], v);
    }
  }

  /** Pending damage and log during the damage loop. */
  datatype Harm = Harm(pending: map<Entity, SufferDamage>, log: seq<string>)

  /** The damage loop: each target is charged `damage` and, when `logged`, named in the log. */
  function HarmAll(damage: int, logged: bool, itemName: string, names: map<Entity, string>, h: Harm, targets: seq<Entity>): Harm
  {
    if targets == [] then h
    else
      var mid := HarmAll(damage, logged, itemName, names, h, targets[..|targets| - 1]);
      var t := targets[|targets| - 1];
      Harm(NewDamage(mid.pending, t, damage),
           if logged then mid.log + ["You use " + itemName + " on " + NameOf(names, t) + ", inflicting " + IntToString(damage) + " hp."] else mid.log)
  }

  /** Every target gains one more pending amount of `damage` per mention; no one else gains any. */
  lemma {:induction false} HarmAllCharges(damage: int, logged: bool, itemName: string, names: map<Entity, string>, h: Harm, targets: seq<Entity>, v: Entity)
    ensures var r := HarmAll(damage, logged, itemName, names, h, targets);
      (v in targets ==> v in r.pending && damage in r.pending[v].amount) &&
      (v !in targets ==> (v in r.pending <==> v in h.pending) && (v in h.pending ==> r.pending[v] == h.pending[v]))
  {
    if targets != [] {
      var prefix, last := targets[..|targets| - 1], targets[|targets| - 1];
      assert targets == prefix + [last];
      HarmAllCharges(damage, logged, itemName, names, h, prefix, v);
      var mid := HarmAll(damage, logged, itemName, names, h, prefix);
      if v in prefix && v != last {
        assert damage in mid.pending[v].amount;
      }
    }
  }

  /** The confusion log lines for `targets`. */
  function ConfuseLog(logged: bool, itemName: string, names: map<Entity, string>, log: seq<string>, targets: seq<Entity>): seq<string>
  {
    if targets == [] || !logged then log
    else ConfuseLog(logged, itemName, names, log, targets[..|targets| - 1]) + ["You use " + itemName + " on " + NameOf(names, targets[|targets| - 1]) + ", confusing them."]
  }

  /** The confusion status after inserting `turns` for each of `targets`. */
  function Confuse(confusion: map<Entity, int>, turns: int, targets: seq<Entity>): (r: map<Entity, int>)
    ensures forall v :: v in r <==> v in confusion || v in targets
    ensures forall v :: v in r ==> r[v] == if v in targets then turns else confusion[v]
  {
    if targets == [] then confusion
    else Confuse(confusion, turns, targets[..|targets| - 1])[targets[|targets| - 1] := turns]
  }

  /** The storages an item use reads but never writes. */
  datatype ItemKinds = ItemKinds(healing: map<Entity, int>, inflicts: map<Entity, int>, aoe: map<Entity, int>,
                                 consumables: set<Entity>, names: map<Entity, string>)

  /** What item use writes: combat stats, pending damage, confusion, the log, and the items it consumed. */
  datatype Effects = Effects(stats: map<Entity, CombatStats>, pending: map<Entity, SufferDamage>,
                             confusion: map<Entity, int>, log: seq<string>, consumed: set<Entity>)

  /** The line logged for each target a healing item heals. */
  function HealLine(itemName: string, amount: int): string
  {
    "You use the " + itemName + ", healing " + IntToString(amount) + " hp."
  }

  /** The healing step of a use; an item that does not heal leaves `h` as it is. */
  function HealPart(kinds: ItemKinds, item: Entity, logged: bool, itemName: string, h: Heal, targets: seq<Entity>): Heal
  {
    if item in kinds.healing
    then HealAll(kinds.healing[item], logged, HealLine(itemName, kinds.healing[item]), h.(used := false), targets)
    else h
  }

  /** The damage step of a use; an item that does no damage leaves `d` as it is. */
  function HarmPart(kinds: ItemKinds, item: Entity, logged: bool, itemName: string, d: Harm, targets: seq<Entity>): Harm
  {
    if item in kinds.inflicts then HarmAll(kinds.inflicts[item], logged, itemName, kinds.names, d, targets) else d
  }

  /**
   * `user` uses `use.item` on `targets`: healing, then damage, then
   * confusion.  Each effect the item has restarts the `used` flag, which only
   * a healed target with stats or a damaged target sets again, so a confusing
   * item is never used up.  A used consumable is marked for deletion.
   */
  function UseOne(kinds: ItemKinds, player: Entity, fx: Effects, user: Entity, use: WantsToUseItem, targets: seq<Entity>): Effects
  {
    var logged := user == player;
    var itemName := NameOf(kinds.names, use.item);
    var h := HealPart(kinds, use.item, logged, itemName, Heal(fx.stats, fx.log, true), targets);
    var d := HarmPart(kinds, use.item, logged, itemName, Harm(fx.pending, h.log), targets);
    var usedBeforeConfusion := if use.item in kinds.inflicts then |targets| > 0 else h.used;
    var confuses := use.item in fx.confusion;
    var used := usedBeforeConfusion && !confuses;
    Effects(h.stats, d.pending,
            if confuses then Confuse(fx.confusion, fx.confusion[use.item], targets) else fx.confusion,
            if confuses then ConfuseLog(logged, itemName, kinds.names, d.log, targets) else d.log,
            if used && use.item in kinds.consumables then fx.consumed + {use.item} else fx.consumed)
  }

  /**
   * When a use consumes its item: the item is consumable, does not confuse,
   * and - if it inflicts damage - had a target, or else - if it heals - some
   * target had combat stats.
   */
  lemma UseOneConsumes(kinds: ItemKinds, player: Entity, fx: Effects, user: Entity, use: WantsToUseItem, targets: seq<Entity>)
    ensures var r := UseOne(kinds, player, fx, user, use, targets);
      var consumes := use.item in kinds.consumables && use.item !in fx.confusion &&
        (if use.item in kinds.inflicts then |targets| > 0
         else use.item in kinds.healing ==> exists t :: t in targets && t in fx.stats);
      r.consumed == (if consumes then fx.consumed + {use.item} else fx.consumed)
  {
    if use.item in kinds.healing {
      var itemName := NameOf(kinds.names, use.item);
      HealAllUsed(kinds.healing[use.item], user == player, HealLine(itemName, kinds.healing[use.item]), Heal(fx.stats, fx.log, false), targets);
    }
  }

  /** The uses held by the entities of `es`, in join order, each on the targets its point selects. */
  function UseAll(kinds: ItemKinds, player: Entity, content: seq<seq<Entity>>, width: int, height: int,
                  fov: (Point, int) -> seq<Point>, intents: map<Entity, WantsToUseItem>, fx: Effects, es: seq<Entity>): Effects
  {
    if es == [] then fx
    else
      var mid := UseAll(kinds, player, content, width, height, fov, intents, fx, es[..|es| - 1]);
      var e := es[|es| - 1];
      if e in intents then UseOne(kinds, player, mid, e, intents[e], Targets(player, content, width, height, kinds.aoe, fov, intents[e]))
      else mid
  }

  /** With no use intent the pass changes nothing. */
  lemma {:induction false} UseAllIdle(kinds: ItemKinds, player: Entity, content: seq<seq<Entity>>, width: int, height: int,
                                     fov: (Point, int) -> seq<Point>, intents: map<Entity, WantsToUseItem>, fx: Effects, es: seq<Entity>)
    requires intents == map[]
    ensures UseAll(kinds, player, content, width, height, fov, intents, fx, es) == fx
  {
    if es != [] {
      UseAllIdle(kinds, player, content, width, height, fov, intents, fx, es[..|es| - 1]);
    }
  }

  /** Only healing touches combat stats: a pass in which no healing item is used leaves them as they were. */
  lemma {:induction false} UseAllWithoutHealing(kinds: ItemKinds, player: Entity, content: seq<seq<Entity>>, width: int, height: int,
                                                fov: (Point, int) -> seq<Point>, intents: map<Entity, WantsToUseItem>, fx: Effects, es: seq<Entity>)
    requires forall e :: e in intents ==> intents[e].item !in kinds.healing
    ensures UseAll(kinds, player, content, width, height, fov, intents, fx, es).stats == fx.stats
  {
    if es != [] {
      UseAllWithoutHealing(kinds, player, content, width, height, fov, intents, fx, es[..|es| - 1]);
    }
  }

  /**
   * Only items named by some use intent are consumed, and only consumable
   * ones; no one gains or loses combat stats.
   */
  lemma {:induction false} UseAllConsumesOnlyUsed(kinds: ItemKinds, player: Entity, content: seq<seq<Entity>>, width: int, height: int,
                                                  fov: (Point, int) -> seq<Point>, intents: map<Entity, WantsToUseItem>, fx: Effects, es: seq<Entity>, c: Entity)
    ensures var r := UseAll(kinds, player, content, width, height, fov, intents, fx, es);
      r.stats.Keys == fx.stats.Keys && fx.consumed <= r.consumed &&
      (c in r.consumed - fx.consumed ==> c in kinds.consumables && exists e :: e in es && e in intents && intents[e].item == c)
  {
    if es != [] {
      var prefix, last := es[..|es| - 1], es[|es| - 1];
      assert es == prefix + [last];
      UseAllConsumesOnlyUsed(kinds, player, content, width, height, fov, intents, fx, prefix, c);
      var mid := UseAll(kinds, player, content, width, height, fov, intents, fx, prefix);
      if last in intents {
        var targets := Targets(player, content, width, height, kinds.aoe, fov, intents[last]);
        UseOneConsumes(kinds, player, mid, last, intents[last], targets);
      }
    }
  }

  /** The heal loop of one use. */
  method HealTargets(w: World, amount: int, logged: bool, line: string, targets: seq<Entity>) returns (used: bool)
    modifies w`combatStats, w`log
    ensures Heal(w.combatStats, w.log, used) == HealAll(amount, logged, line, Heal(old(w.combatStats), old(w.log), false), targets)
  {
    used := false;
    for i := 0 to |targets|
      invariant Heal(w.combatStats, w.log, used) == HealAll(amount, logged, line, Heal(old(w.combatStats), old(w.log), false), targets[..i])
    {
      assert targets[..i + 1][..i] == targets[..i];
      var target := targets[i];
      if target in w.combatStats {
        var stats := w.combatStats[target];
        w.combatStats := w.combatStats[target := stats.(hp := Min(stats.maxHp, stats.hp + amount))];
        if logged {
          w.log := w.log + [line];
        }
        used := true;
      }
    }
    assert targets[..|targets|] == targets;
  }

  /** The damage loop of one use. */
  method HarmTargets(w: World, damage: int, logged: bool, itemName: string, targets: seq<Entity>) returns (used: bool)
    modifies w`sufferDamage, w`log
    ensures Harm(w.sufferDamage, w.log) == HarmAll(damage, logged, itemName, old(w.names), Harm(old(w.sufferDamage), old(w.log)), targets)
    ensures used <==> |targets| > 0
  {
    used := false;
    for i := 0 to |targets|
      invariant Harm(w.sufferDamage, w.log) == HarmAll(damage, logged, itemName, old(w.names), Harm(old(w.sufferDamage), old(w.log)), targets[..i])
      invariant used <==> i > 0
    {
      assert targets[..i + 1][..i] == targets[..i];
      var mob := targets[i];
      w.sufferDamage := NewDamage(w.sufferDamage, mob, damage);
      if logged {
        w.log := w.log + ["You use " + itemName + " on " + NameOf(w.names, mob) + ", inflicting " + IntToString(damage) + " hp."];
      }
      used := true;
    }
    assert targets[..|targets|] == targets;
  }

  /** The confusion step of one use: gather (target, turns) pairs while logging, then insert them. */
  method ConfuseTargets(w: World, turns: int, logged: bool, itemName: string, targets: seq<Entity>)
    modifies w`confusion, w`log
    ensures w.log == ConfuseLog(logged, itemName, old(w.names), old(w.log), targets)
    ensures w.confusion == Confuse(old(w.confusion), turns, targets)
  {
    var addConfusion: seq<(Entity, int)> := [];
    for i := 0 to |targets|
      invariant |addConfusion| == i
      invariant forall k :: 0 <= k < i ==> addConfusion[k] == (targets[k], turns)
      invariant w.log == ConfuseLog(logged, itemName, old(w.names), old(w.log), targets[..i])
      invariant w.confusion == old(w.confusion)
    {
      assert targets[..i + 1][..i] == targets[..i];
      addConfusion := addConfusion + [(targets[i], turns)];
      if logged {
        w.log := w.log + ["You use " + itemName + " on " + NameOf(w.names, targets[i]) + ", confusing them."];
      }
    }
    assert targets[..|targets|] == targets;
    for j := 0 to |addConfusion|
      invariant w.confusion == Confuse(old(w.confusion), turns, targets[..j])
      invariant w.log == ConfuseLog(logged, itemName, old(w.names), old(w.log), targets)
    {
      assert targets[..j + 1][..j] == targets[..j];
      w.confusion := w.confusion[addConfusion[j].0 := addConfusion[j].1];
    }
    assert targets[..|addConfusion|] == targets;
  }

  /** The storages item use only reads. */
  function KindsOf(w: World): ItemKinds
    reads w`providesHealing, w`inflictsDamage, w`areaOfEffect, w`consumables, w`names
  {
    ItemKinds(w.providesHealing, w.inflictsDamage, w.areaOfEffect, w.consumables, w.names)
  }

  /** One use by `user` on `targets`; returns `consumed` with the item added when it is used up. */
  method UseItem(w: World, user: Entity, use: WantsToUseItem, targets: seq<Entity>, consumedBefore: set<Entity>, ghost kinds: ItemKinds)
    returns (consumed: set<Entity>)
    requires kinds == KindsOf(w)
    modifies w`combatStats, w`sufferDamage, w`confusion, w`log
    ensures Effects(w.combatStats, w.sufferDamage, w.confusion, w.log, consumed) ==
      UseOne(kinds, w.playerEntity, Effects(old(w.combatStats), old(w.sufferDamage), old(w.confusion), old(w.log), consumedBefore), user, use, targets)
  {
    var logged := user == w.playerEntity;
    var itemName := NameOf(w.names, use.item);
    var usedItem := HealStage(w, use.item, logged, itemName, targets, kinds);
    usedItem := HarmStage(w, use.item, logged, itemName, targets, usedItem, kinds);
    usedItem := ConfuseStage(w, use.item, logged, itemName, targets, usedItem);
    consumed := consumedBefore;
    if usedItem && use.item in w.consumables {
      consumed := consumed + {use.item};
    }
  }

  /** The healing step of a use: whether it counts as a use so far. */
  method HealStage(w: World, item: Entity, logged: bool, itemName: string, targets: seq<Entity>, ghost kinds: ItemKinds) returns (used: bool)
    requires kinds == KindsOf(w)
    modifies w`combatStats, w`log
    ensures Heal(w.combatStats, w.log, used) == HealPart(kinds, item, logged, itemName, Heal(old(w.combatStats), old(w.log), true), targets)
  {
    used := true;
    if item in w.providesHealing {
      var amount := w.providesHealing[item];
      used := HealTargets(w, amount, logged, HealLine(itemName, amount), targets);
    }
  }

  /** The damage step of a use, after healing decided `usedBefore`. */
  method HarmStage(w: World, item: Entity, logged: bool, itemName: string, targets: seq<Entity>, usedBefore: bool, ghost kinds: ItemKinds)
    returns (used: bool)
    requires kinds == KindsOf(w)
    modifies w`sufferDamage, w`log
    ensures Harm(w.sufferDamage, w.log) == HarmPart(kinds, item, logged, itemName, Harm(old(w.sufferDamage), old(w.log)), targets)
    ensures used == if item in kinds.inflicts then |targets| > 0 else usedBefore
  {
    used := usedBefore;
    if item in w.inflictsDamage {
      used := HarmTargets(w, w.inflictsDamage[item], logged, itemName, targets);
    }
  }

  /** The confusion step of a use: a confusing item is never used up. */
  method ConfuseStage(w: World, item: Entity, logged: bool, itemName: string, targets: seq<Entity>, usedBefore: bool) returns (used: bool)
    modifies w`confusion, w`log
    ensures w.confusion == if item in old(w.confusion) then Confuse(old(w.confusion), old(w.confusion)[item], targets) else old(w.confusion)
    ensures w.log == if item in old(w.confusion) then ConfuseLog(logged, itemName, w.names, old(w.log), targets) else old(w.log)
    ensures used == (usedBefore && item !in old(w.confusion))
  {
    used := usedBefore;
    if item in w.confusion {
      used := false;
      ConfuseTargets(w, w.confusion[item], logged, itemName, targets);
    }
  }

  /**
   * `ItemUseSystem`: every use intent, in join order, applied to the targets
   * its point selects; the intents are then cleared.  The items it uses up
   * are returned: specs deletes them only when the world is next maintained.
   */
  method ItemUse(w: World, m: Map, fov: (Point, int) -> seq<Point>, ghost kinds: ItemKinds) returns (consumed: set<Entity>)
    requires kinds == KindsOf(w)
    modifies w`combatStats, w`sufferDamage, w`confusion, w`log, w`wantsUse
    ensures Effects(w.combatStats, w.sufferDamage, w.confusion, w.log, consumed) ==
      UseAll(kinds, w.playerEntity, m.tileContent, m.width, m.height, fov, old(w.wantsUse),
             Effects(old(w.combatStats), old(w.sufferDamage), old(w.confusion), old(w.log), {}), w.entities)
    ensures w.wantsUse == map[]
  {
    consumed := {};
    var i := 0;
    while i < |w.entities|
      invariant 0 <= i <= |w.entities| && w.wantsUse == old(w.wantsUse)
      invariant Effects(w.combatStats, w.sufferDamage, w.confusion, w.log, consumed) ==
        UseAll(KindsOf(w), w.playerEntity, m.tileContent, m.width, m.height, fov, w.wantsUse,
               Effects(old(w.combatStats), old(w.sufferDamage), old(w.confusion), old(w.log), {}), w.entities[..i])
    {
      var e := w.entities[i];
      assert w.entities[..i + 1][..i] == w.entities[..i];
      if e in w.wantsUse {
        var use := w.wantsUse[e];
        var targets := CollectTargets(w, m, fov, use);
        consumed := UseItem(w, e, use, targets, consumed, KindsOf(w));
      }
      i := i + 1;
    }
    assert w.entities[..i] == w.entities;
    w.wantsUse := map[];
  }
}
