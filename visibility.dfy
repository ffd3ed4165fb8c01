/**
 * The visibility pass of the current game (`src/systems/visibility_system.rs`):
 * the set of tiles whose view is blocked by an entity is rebuilt, every dirty
 * viewshed is recomputed and clipped to the map's interior, and a player's
 * recomputed view becomes the map's visible tiles, reveals them for good and
 * may spot hidden entities standing on them.
 *
 * rltk's `field_of_view` is the parameter `fov` (the tiles seen from a point
 * within a range, over the map as it stands); the dice are the parameter
 * `dice`, where `dice(k)` is the outcome of the k-th 1d24 roll of the game.
 */
module Visibility {
  import opened Ecs
  import opened Spatial
  import opened GameWorld

  /** The tile indexes of the entities of `es` that have a position and block visibility. */
  function ViewBlockers(width: int, es: seq<Entity>, positions: map<Entity, Point>, blocks: set<Entity>): set<int>
  {
    if es == [] then {}
    else
      var rest := ViewBlockers(width, es[..|es| - 1], positions, blocks);
      var e := es[|es| - 1];
      if e in positions && e in blocks then rest + {Idx(width, positions[e].x, positions[e].y)} else rest
  }

  /** A tile's view is blocked exactly when a view-blocking entity stands on it. */
  lemma {:induction false} ViewBlockersMeans(width: int, es: seq<Entity>, positions: map<Entity, Point>, blocks: set<Entity>, i: int)
    ensures i in ViewBlockers(width, es, positions, blocks) <==>
      exists e :: e in es && e in positions && e in blocks && Idx(width, positions[e].x, positions[e].y) == i
  {
    if es != [] {
      var prefix, last := es[..|es| - 1], es[|es| - 1];
      assert es == prefix + [last];
      ViewBlockersMeans(width, prefix, positions, blocks, i);
    }
  }

  /**
   * `is_opaque` once the view-blocked tiles are rebuilt: index 0 and indexes
   * past the map are opaque, and any other tile is opaque exactly when its
   * tile type is or a live view-blocking entity stands on it.
   */
  lemma OpaqueAfterRebuild(m: Map, w: World, tileOpaque: TileType -> bool, idx: nat)
    requires m.viewBlocked == ViewBlockers(m.width, w.entities, w.positions, w.blocksVisibility)
    ensures m.IsOpaque(idx, tileOpaque) <==>
      idx == 0 || idx >= |m.tiles| || tileOpaque(m.tiles[idx]) ||
      exists e :: e in w.entities && e in w.positions && e in w.blocksVisibility &&
        Idx(m.width, w.positions[e].x, w.positions[e].y) == idx
  {
    ViewBlockersMeans(m.width, w.entities, w.positions, w.blocksVisibility, idx);
  }

  /** The tiles of `tiles` strictly inside the map's border, in order (`retain`). */
  function Retained(tiles: seq<Point>, width: int, height: int): (r: seq<Point>)
    ensures |r| <= |tiles|
    ensures forall p :: p in r <==> p in tiles && Interior(width, height, p.x, p.y)
  {
    if tiles == [] then []
    else
      var rest := Retained(tiles[..|tiles| - 1], width, height);
      var p := tiles[|tiles| - 1];
      assert tiles == tiles[..|tiles| - 1] + [p];
      if Interior(width, height, p.x, p.y) then rest + [p] else rest
  }

  /** What the pass writes: viewsheds, the map's flags, hidden markers, the log and the dice used. */
  datatype Sight = Sight(viewsheds: map<Entity, Viewshed>, visible: seq<bool>, revealed: seq<bool>,
                         hidden: set<Entity>, log: seq<seq<string>>, rolls: nat)

  /** One occupant of a freshly seen tile: a hidden one is spotted on a roll of 1. */
  function Spot(names: map<Entity, string>, dice: nat -> int, s: Sight, e: Entity): Sight
  {
    if e in s.hidden then
      if dice(s.rolls) == 1 then
        s.(hidden := s.hidden - {e}, log := if e in names then s.log + [["You spotted:", names[e]]] else s.log, rolls := s.rolls + 1)
      else s.(rolls := s.rolls + 1)
    else s
  }

  /** The occupants `es` of one tile, in order. */
  function SpotAll(names: map<Entity, string>, dice: nat -> int, s: Sight, es: seq<Entity>): (r: Sight)
    ensures r.viewsheds == s.viewsheds && r.visible == s.visible && r.revealed == s.revealed
  {
    if es == [] then s else Spot(names, dice, SpotAll(names, dice, s, es[..|es| - 1]), es[|es| - 1])
  }

  /**
   * Only hidden occupants lose their marker, each after a roll of 1, and a
   * log line is added only for a spotted entity that has a name.
   */
  lemma {:induction false} SpotAllOnlyLucky(names: map<Entity, string>, dice: nat -> int, s: Sight, es: seq<Entity>, e: Entity)
    ensures var r := SpotAll(names, dice, s, es);
      r.hidden <= s.hidden && s.rolls <= r.rolls &&
      (e in s.hidden && e !in r.hidden ==> e in es && exists k :: s.rolls <= k < r.rolls && dice(k) == 1) &&
      (|r.log| > |s.log| ==> exists v :: v in es && v in names && v in s.hidden && v !in r.hidden)
  {
    if es != [] {
      var prefix, last := es[..|es| - 1], es[|es| - 1];
      assert es == prefix + [last];
      SpotAllOnlyLucky(names, dice, s, prefix, e);
      var mid := SpotAll(names, dice, s, prefix);
      if |SpotAll(names, dice, s, es).log| > |s.log| && |mid.log| <= |s.log| {
        assert last in names && last in s.hidden && last !in SpotAll(names, dice, s, es).hidden;
      } else if |SpotAll(names, dice, s, es).log| > |s.log| {
        SpotAllOnlyLucky(names, dice, s, prefix, e);
      }
    }
  }

  /** The per-tile vectors the pass indexes all have one entry per tile. */
  predicate Sized(width: int, height: int, content: seq<seq<Entity>>, s: Sight)
  {
    0 <= width && 0 <= height && |content| == width * height && |s.visible| == |content| && |s.revealed| == |content|
  }

  /** One tile of a player's view: revealed, made visible, and its hidden occupants maybe spotted. */
  function RevealTile(width: int, height: int, content: seq<seq<Entity>>, names: map<Entity, string>, dice: nat -> int,
                      s: Sight, p: Point): (r: Sight)
    requires Sized(width, height, content, s)
    ensures Sized(width, height, content, r) && r.viewsheds == s.viewsheds
  {
    if Interior(width, height, p.x, p.y) then
      IdxInBounds(width, height, p.x, p.y);
      var idx := Idx(width, p.x, p.y);
      SpotAll(names, dice, s.(revealed := s.revealed[idx := true], visible := s.visible[idx := true]), content[idx])
    else s
  }

  /** The tiles `tiles` of a player's view, in order. */
  function RevealAll(width: int, height: int, content: seq<seq<Entity>>, names: map<Entity, string>, dice: nat -> int,
                     s: Sight, tiles: seq<Point>): (r: Sight)
    requires Sized(width, height, content, s)
    ensures Sized(width, height, content, r) && r.viewsheds == s.viewsheds
  {
    if tiles == [] then s
    else RevealTile(width, height, content, names, dice, RevealAll(width, height, content, names, dice, s, tiles[..|tiles| - 1]), tiles[|tiles| - 1])
  }

  /**
   * After a player's view is shown, a tile is visible exactly when it was
   * before or is one of the view's interior tiles, and likewise revealed.
   */
  lemma {:induction false} RevealAllFlags(width: int, height: int, content: seq<seq<Entity>>, names: map<Entity, string>, dice: nat -> int,
                                          s: Sight, tiles: seq<Point>, i: int)
    requires Sized(width, height, content, s) && 0 <= i < |content|
    ensures var r := RevealAll(width, height, content, names, dice, s, tiles);
      (r.visible[i] <==> s.visible[i] || exists p :: p in tiles && Interior(width, height, p.x, p.y) && Idx(width, p.x, p.y) == i) &&
      (r.revealed[i] <==> s.revealed[i] || exists p :: p in tiles && Interior(width, height, p.x, p.y) && Idx(width, p.x, p.y) == i)
  {
    if tiles != [] {
      var prefix, p := tiles[..|tiles| - 1], tiles[|tiles| - 1];
      assert tiles == prefix + [p];
      RevealAllFlags(width, height, content, names, dice, s, prefix, i);
      if Interior(width, height, p.x, p.y) {
        IdxInBounds(width, height, p.x, p.y);
      }
    }
  }

  /**
   * Showing a player's view adds no hidden marker, and removes one only from
   * an occupant of one of the view's interior tiles.
   */
  lemma {:induction false} RevealAllHidden(width: int, height: int, content: seq<seq<Entity>>, names: map<Entity, string>, dice: nat -> int,
                                           s: Sight, tiles: seq<Point>, e: Entity)
    requires Sized(width, height, content, s)
    ensures var r := RevealAll(width, height, content, names, dice, s, tiles);
      r.hidden <= s.hidden &&
      (e in s.hidden && e !in r.hidden ==>
        exists p :: p in tiles && Interior(width, height, p.x, p.y) && 0 <= Idx(width, p.x, p.y) < |content| && e in content[Idx(width, p.x, p.y)])
  {
    if tiles != [] {
      var prefix, p := tiles[..|tiles| - 1], tiles[|tiles| - 1];
      assert tiles == prefix + [p];
      RevealAllHidden(width, height, content, names, dice, s, prefix, e);
      var mid := RevealAll(width, height, content, names, dice, s, prefix);
      if Interior(width, height, p.x, p.y) {
        IdxInBounds(width, height, p.x, p.y);
        var idx := Idx(width, p.x, p.y);
        SpotAllOnlyLucky(names, dice, mid.(revealed := mid.revealed[idx := true], visible := mid.visible[idx := true]), content[idx], e);
      }
    }
  }

  /** The pass's work for entity `e`: a dirty viewshed is recomputed; a player's also updates the map. */
  function Refresh(width: int, height: int, content: seq<seq<Entity>>, names: map<Entity, string>, players: set<Entity>,
                   positions: map<Entity, Point>, fov: (Point, int) -> seq<Point>, dice: nat -> int, s: Sight, e: Entity): (r: Sight)
    requires Sized(width, height, content, s)
    ensures Sized(width, height, content, r)
  {
    if e in s.viewsheds && e in positions && s.viewsheds[e].dirty then
      var range := s.viewsheds[e].range;
      var tiles := Retained(fov(positions[e], range), width, height);
      var s1 := s.(viewsheds := s.viewsheds[e := Viewshed(tiles, range, false)]);
      if e in players then
        RevealAll(width, height, content, names, dice, s1.(visible := seq(|s1.visible|, _ => false)), tiles)
      else s1
    else s
  }

  /**
   * One entity's turn of the pass: only a dirty viewshed changes, and it ends
   * clean, with the same range and only interior tiles; a non-player's turn
   * leaves the map's flags, the hidden markers and the log alone; and after a
   * player's turn the map's visible tiles are exactly its new view, while
   * revealed tiles stay revealed.
   */
  lemma RefreshMeans(width: int, height: int, content: seq<seq<Entity>>, names: map<Entity, string>, players: set<Entity>,
                     positions: map<Entity, Point>, fov: (Point, int) -> seq<Point>, dice: nat -> int, s: Sight, e: Entity, i: int)
    requires Sized(width, height, content, s) && 0 <= i < |content|
    ensures var r := Refresh(width, height, content, names, players, positions, fov, dice, s, e);
      r.viewsheds.Keys == s.viewsheds.Keys &&
      (forall v :: v in s.viewsheds && v != e ==> r.viewsheds[v] == s.viewsheds[v]) &&
      (s.revealed[i] ==> r.revealed[i]) && r.hidden <= s.hidden &&
      if e in s.viewsheds && e in positions && s.viewsheds[e].dirty then
        !r.viewsheds[e].dirty && r.viewsheds[e].range == s.viewsheds[e].range &&
        (forall p :: p in r.viewsheds[e].visibleTiles ==> Interior(width, height, p.x, p.y)) &&
        (e !in players ==> r.visible == s.visible && r.revealed == s.revealed && r.hidden == s.hidden && r.log == s.log) &&
        (e in players ==> (r.visible[i] <==> exists p :: p in r.viewsheds[e].visibleTiles && Idx(width, p.x, p.y) == i))
      else r == s
  {
    if e in s.viewsheds && e in positions && s.viewsheds[e].dirty && e in players {
      var range := s.viewsheds[e].range;
      var tiles := Retained(fov(positions[e], range), width, height);
      var s1 := s.(viewsheds := s.viewsheds[e := Viewshed(tiles, range, false)]);
      RevealAllFlags(width, height, content, names, dice, s1.(visible := seq(|s1.visible|, _ => false)), tiles, i);
      RevealAllHidden(width, height, content, names, dice, s1.(visible := seq(|s1.visible|, _ => false)), tiles, e);
    }
  }

  /** The pass's work for every entity of `es`, in order. */
  function RefreshAll(width: int, height: int, content: seq<seq<Entity>>, names: map<Entity, string>, players: set<Entity>,
                      positions: map<Entity, Point>, fov: (Point, int) -> seq<Point>, dice: nat -> int, s: Sight, es: seq<Entity>): (r: Sight)
    requires Sized(width, height, content, s)
    ensures Sized(width, height, content, r)
  {
    if es == [] then s
    else Refresh(width, height, content, names, players, positions, fov, dice,
                 RefreshAll(width, height, content, names, players, positions, fov, dice, s, es[..|es| - 1]), es[|es| - 1])
  }

  /**
   * Over the whole pass: the viewsheds keep their owners, a clean viewshed or
   * one of an entity without a position is untouched, every dirty one ends
   * clean and clipped to the interior, revealed tiles stay revealed and no
   * hidden marker appears.
   */
  lemma {:induction false} RefreshAllMeans(width: int, height: int, content: seq<seq<Entity>>, names: map<Entity, string>, players: set<Entity>,
                                           positions: map<Entity, Point>, fov: (Point, int) -> seq<Point>, dice: nat -> int,
                                           s: Sight, es: seq<Entity>, v: Entity, i: int)
    requires Sized(width, height, content, s) && 0 <= i < |content|
    ensures var r := RefreshAll(width, height, content, names, players, positions, fov, dice, s, es);
      r.viewsheds.Keys == s.viewsheds.Keys && (s.revealed[i] ==> r.revealed[i]) && r.hidden <= s.hidden &&
      (v in s.viewsheds && (v !in es || v !in positions || !s.viewsheds[v].dirty) ==> r.viewsheds[v] == s.viewsheds[v]) &&
      (v in s.viewsheds && v in es && v in positions && s.viewsheds[v].dirty ==>
        !r.viewsheds[v].dirty && r.viewsheds[v].range == s.viewsheds[v].range &&
        forall p :: p in r.viewsheds[v].visibleTiles ==> Interior(width, height, p.x, p.y))
  {
    if es != [] {
      var prefix, last := es[..|es| - 1], es[|es| - 1];
      assert es == prefix + [last];
      RefreshAllMeans(width, height, content, names, players, positions, fov, dice, s, prefix, v, i);
      var mid := RefreshAll(width, height, content, names, players, positions, fov, dice, s, prefix);
      RefreshMeans(width, height, content, names, players, positions, fov, dice, mid, last, i);
      if v == last && v in s.viewsheds && v in prefix && v in positions && s.viewsheds[v].dirty {
        RefreshMeans(width, height, content, names, players, positions, fov, dice, mid, last, i);
      }
    }
  }

  /** `VisibilitySystem::run`, returning the number of dice rolled so far. */
  method VisibilitySystem(w: World, m: Map, fov: (Point, int) -> seq<Point>, dice: nat -> int, rollsBefore: nat) returns (rolls: nat)
    requires m.Valid()
    modifies m`viewBlocked, m`visibleTiles, m`revealedTiles, w`viewsheds, w`hidden, w`log
    ensures m.Valid()
    ensures m.viewBlocked == ViewBlockers(m.width, w.entities, w.positions, w.blocksVisibility)
    ensures Sight(w.viewsheds, m.visibleTiles, m.revealedTiles, w.hidden, w.log, rolls) ==
      RefreshAll(m.width, m.height, m.tileContent, w.names, w.players, w.positions, fov, dice,
                 Sight(old(w.viewsheds), old(m.visibleTiles), old(m.revealedTiles), old(w.hidden), old(w.log), rollsBefore), w.entities)
  {
    RebuildViewBlocked(w, m);
    rolls := rollsBefore;
    var i := 0;
    while i < |w.entities|
      invariant 0 <= i <= |w.entities| && m.Valid()
      invariant m.viewBlocked == ViewBlockers(m.width, w.entities, w.positions, w.blocksVisibility)
      invariant Sight(w.viewsheds, m.visibleTiles, m.revealedTiles, w.hidden, w.log, rolls) ==
        RefreshAll(m.width, m.height, m.tileContent, w.names, w.players, w.positions, fov, dice,
                   Sight(old(w.viewsheds), old(m.visibleTiles), old(m.revealedTiles), old(w.hidden), old(w.log), rollsBefore), w.entities[..i])
    {
      rolls := RefreshOne(w, m, fov, dice, rolls, w.entities[i]);
      assert w.entities[..i + 1][..i] == w.entities[..i];
      i := i + 1;
    }
    assert w.entities[..i] == w.entities;
  }

  /** Rebuilds the set of tiles whose view an entity blocks. */
  method RebuildViewBlocked(w: World, m: Map)
    modifies m`viewBlocked
    ensures m.viewBlocked == ViewBlockers(m.width, w.entities, w.positions, w.blocksVisibility)
  {
    m.viewBlocked := {};
    var i := 0;
    while i < |w.entities|
      invariant 0 <= i <= |w.entities|
      invariant m.viewBlocked == ViewBlockers(m.width, w.entities[..i], w.positions, w.blocksVisibility)
    {
      var e := w.entities[i];
      assert w.entities[..i + 1][..i] == w.entities[..i];
      if e in w.positions && e in w.blocksVisibility {
        var idx := m.XyIdx(w.positions[e].x, w.positions[e].y);
        m.viewBlocked := m.viewBlocked + {idx};
      }
      i := i + 1;
    }
    assert w.entities[..i] == w.entities;
  }

  /** The loop body of the pass for entity `e`. */
  method RefreshOne(w: World, m: Map, fov: (Point, int) -> seq<Point>, dice: nat -> int, rollsBefore: nat, e: Entity) returns (rolls: nat)
    requires m.Valid()
    modifies m`visibleTiles, m`revealedTiles, w`viewsheds, w`hidden, w`log
    ensures m.Valid()
    ensures Sight(w.viewsheds, m.visibleTiles, m.revealedTiles, w.hidden, w.log, rolls) ==
      Refresh(m.width, m.height, m.tileContent, w.names, w.players, w.positions, fov, dice,
              Sight(old(w.viewsheds), old(m.visibleTiles), old(m.revealedTiles), old(w.hidden), old(w.log), rollsBefore), e)
  {
    rolls := rollsBefore;
    if e in w.viewsheds && e in w.positions && w.viewsheds[e].dirty {
      var pos := w.positions[e];
      var viewshed := w.viewsheds[e];
      viewshed := viewshed.(dirty := false);
      viewshed := viewshed.(visibleTiles := fov(pos, viewshed.range));
      viewshed := viewshed.(visibleTiles := Retained(viewshed.visibleTiles, m.width, m.height));
      w.viewsheds := w.viewsheds[e := viewshed];
      if e in w.players {
        ClearVisible(m);
        var j := 0;
        while j < |viewshed.visibleTiles|
          invariant 0 <= j <= |viewshed.visibleTiles| && m.Valid()
          invariant w.viewsheds == old(w.viewsheds)[e := viewshed]
          invariant Sight(w.viewsheds, m.visibleTiles, m.revealedTiles, w.hidden, w.log, rolls) ==
            RevealAll(m.width, m.height, m.tileContent, w.names, dice,
                      Sight(w.viewsheds, seq(|old(m.visibleTiles)|, _ => false), old(m.revealedTiles), old(w.hidden), old(w.log), rollsBefore),
                      viewshed.visibleTiles[..j])
        {
          rolls := ShowTile(w, m, dice, rolls, viewshed.visibleTiles[j]);
          assert viewshed.visibleTiles[..j + 1][..j] == viewshed.visibleTiles[..j];
          j := j + 1;
        }
        assert viewshed.visibleTiles[..j] == viewshed.visibleTiles;
      }
    }
  }

  /** Clears every visible flag of the map. */
  method ClearVisible(m: Map)
    requires m.Valid()
    modifies m`visibleTiles
    ensures m.Valid() && m.visibleTiles == seq(|old(m.visibleTiles)|, _ => false)
  {
    var t := 0;
    while t < |m.visibleTiles|
      invariant 0 <= t <= |m.visibleTiles| && |m.visibleTiles| == |old(m.visibleTiles)|
      invariant forall k :: 0 <= k < t ==> !m.visibleTiles[k]
    {
      m.visibleTiles := m.visibleTiles[t := false];
      t := t + 1;
    }
    assert m.visibleTiles == seq(|old(m.visibleTiles)|, _ => false);
  }

  /** One tile of the player's new view. */
  method ShowTile(w: World, m: Map, dice: nat -> int, rollsBefore: nat, vis: Point) returns (rolls: nat)
    requires m.Valid()
    modifies m`visibleTiles, m`revealedTiles, w`hidden, w`log
    ensures m.Valid()
    ensures Sight(w.viewsheds, m.visibleTiles, m.revealedTiles, w.hidden, w.log, rolls) ==
      RevealTile(m.width, m.height, m.tileContent, w.names, dice,
                 Sight(w.viewsheds, old(m.visibleTiles), old(m.revealedTiles), old(w.hidden), old(w.log), rollsBefore), vis)
  {
    rolls := rollsBefore;
    if vis.x > 0 && vis.x < m.width - 1 && vis.y > 0 && vis.y < m.height - 1 {
      IdxInBounds(m.width, m.height, vis.x, vis.y);
      var idx := m.XyIdx(vis.x, vis.y);
      m.revealedTiles := m.revealedTiles[idx := true];
      m.visibleTiles := m.visibleTiles[idx := true];
      ghost var start := Sight(w.viewsheds, m.visibleTiles, m.revealedTiles, w.hidden, w.log, rolls);
      var occupants := m.tileContent[idx];
      var k := 0;
      while k < |occupants|
        invariant 0 <= k <= |occupants|
        invariant Sight(w.viewsheds, m.visibleTiles, m.revealedTiles, w.hidden, w.log, rolls) ==
          SpotAll(w.names, dice, start, occupants[..k])
      {
        var e := occupants[k];
        if e in w.hidden {
          var roll := dice(rolls);
          rolls := rolls + 1;
          if roll == 1 {
            if e in w.names {
              w.log := w.log + [["You spotted:", w.names[e]]];
            }
            w.hidden := w.hidden - {e};
          }
        }
        assert occupants[..k + 1][..k] == occupants[..k];
        k := k + 1;
      }
      assert occupants[..k] == occupants;
    }
  }
}
