/**
 * The monster turn of the second exploration snapshot
 * (`explore2/src/ai/monster.rs`): during the monsters' turn each monster
 * next to the player attacks it; one that can see the player takes one step
 * along an A* path towards it, moving its blocked mark with it.
 */
module MonsterAI {
  import opened Ecs
  import opened Explore2World
  import opened Spatial

  /** What rltk's `a_star_search` returns: whether a path was found, and its tile indices. */
  datatype Path = Path(success: bool, steps: seq<int>)

  /**
   * Pythagorean distance below 1.5, squared to stay in integers:
   * sqrt(dx^2 + dy^2) < 3/2 exactly when 4 (dx^2 + dy^2) < 9.
   */
  predicate InMeleeRange(a: Point, b: Point)
  {
    4 * ((a.x - b.x) * (a.x - b.x) + (a.y - b.y) * (a.y - b.y)) < 9
  }

  /** On integer points, the distance test means the eight surrounding tiles or the same tile. */
  lemma InMeleeRangeIsAdjacent(a: Point, b: Point)
    ensures InMeleeRange(a, b) <==> -1 <= a.x - b.x <= 1 && -1 <= a.y - b.y <= 1
  {
    var dx, dy := a.x - b.x, a.y - b.y;
    if dx < -1 || dx > 1 {
      assert dx * dx >= 4 by { MulLeq(2, if dx < 0 then -dx else dx, if dx < 0 then -dx else dx); MulLeq(2, 2, if dx < 0 then -dx else dx); }
      assert dy * dy >= 0;
    } else if dy < -1 || dy > 1 {
      assert dy * dy >= 4 by { MulLeq(2, if dy < 0 then -dy else dy, if dy < 0 then -dy else dy); MulLeq(2, 2, if dy < 0 then -dy else dy); }
      assert dx * dx >= 0;
    }
  }

  /** The path finder only ever names tiles of the map it searched as the next step. */
  ghost predicate StepsOnMap(aStar: (seq<bool>, int, int) -> Path)
  {
    forall blocked, start, end :: aStar(blocked, start, end).success && |aStar(blocked, start, end).steps| > 1 ==>
      0 <= aStar(blocked, start, end).steps[1] < |blocked|
  }

  /** The storages the monster turn writes, and the map's blocked mask. */
  datatype Hunt = Hunt(positions: map<Entity, Point>, viewsheds: map<Entity, Viewshed>, intents: map<Entity, WantsToMelee>, blocked: seq<bool>)

  /** Every monster taking part stands on the map. */
  predicate HuntersOnMap(width: int, height: int, monsters: set<Entity>, h: Hunt)
  {
    forall e :: e in h.positions && e in monsters && e in h.viewsheds ==> OnMap(width, height, h.positions[e])
  }

  /** One monster's turn; `target` is the player's point and `player` the player entity. */
  function Chase(width: int, height: int, monsters: set<Entity>, player: Entity, target: Point,
                 aStar: (seq<bool>, int, int) -> Path, h: Hunt, e: Entity): Hunt
    requires 0 <= width && 0 <= height && |h.blocked| == width * height && StepsOnMap(aStar)
    requires HuntersOnMap(width, height, monsters, h)
  {
    if e in h.viewsheds && e in monsters && e in h.positions then
      var pos := h.positions[e];
      if InMeleeRange(pos, target) then
        h.(intents := h.intents[e := WantsToMelee(player)])
      else if target in h.viewsheds[e].visibleTiles then
        var path := aStar(h.blocked, Idx(width, pos.x, pos.y), Idx(width, target.x, target.y));
        if path.success && |path.steps| > 1 then
          IdxInBounds(width, height, pos.x, pos.y);
          var next := Step(width, height, path.steps[1]);
          IdxEncode(width, path.steps[1]);
          h.(positions := h.positions[e := next],
             viewsheds := h.viewsheds[e := h.viewsheds[e].(dirty := true)],
             blocked := h.blocked[Idx(width, pos.x, pos.y) := false][path.steps[1] := true])
        else h
      else h
    else h
  }

  /** The tile with index `i`, decoded as (i % width, i / width). */
  function Step(width: int, height: int, i: int): (p: Point)
    requires 0 <= width && 0 <= i < width * height
    ensures OnMap(width, height, p) && Idx(width, p.x, p.y) == i
  {
    IdxBijection(width, height);
    Point(i % width, i / width)
  }

  /** The turns of the monsters among `es`, in order. */
  function ChaseAll(width: int, height: int, monsters: set<Entity>, player: Entity, target: Point,
                    aStar: (seq<bool>, int, int) -> Path, h: Hunt, es: seq<Entity>): (r: Hunt)
    requires 0 <= width && 0 <= height && |h.blocked| == width * height && StepsOnMap(aStar)
    requires HuntersOnMap(width, height, monsters, h)
    ensures |r.blocked| == |h.blocked| && HuntersOnMap(width, height, monsters, r)
  {
    if es == [] then h
    else
      var mid := ChaseAll(width, height, monsters, player, target, aStar, h, es[..|es| - 1]);
      ChaseKeeps(width, height, monsters, player, target, aStar, mid, es[|es| - 1]);
      Chase(width, height, monsters, player, target, aStar, mid, es[|es| - 1])
  }

  /** One turn keeps the mask's length and every monster on the map. */
  lemma ChaseKeeps(width: int, height: int, monsters: set<Entity>, player: Entity, target: Point,
                   aStar: (seq<bool>, int, int) -> Path, h: Hunt, e: Entity)
    requires 0 <= width && 0 <= height && |h.blocked| == width * height && StepsOnMap(aStar)
    requires HuntersOnMap(width, height, monsters, h)
    ensures var r := Chase(width, height, monsters, player, target, aStar, h, e);
      |r.blocked| == |h.blocked| && HuntersOnMap(width, height, monsters, r)
  {
    if e in h.viewsheds && e in monsters && e in h.positions {
      var pos := h.positions[e];
      if !InMeleeRange(pos, target) && target in h.viewsheds[e].visibleTiles {
        var path := aStar(h.blocked, Idx(width, pos.x, pos.y), Idx(width, target.x, target.y));
        if path.success && |path.steps| > 1 {
          IdxInBounds(width, height, pos.x, pos.y);
          var from := Idx(width, pos.x, pos.y);
          assert 0 <= from < |h.blocked|;
          var next := Step(width, height, path.steps[1]);
          var r := Chase(width, height, monsters, player, target, aStar, h, e);
          assert r.positions == h.positions[e := next];
          assert r.blocked == h.blocked[from := false][path.steps[1] := true];
        }
      }
    }
  }

  /**
   * The cases of one monster's turn: next to the player it only gains an
   * attack intent against the player; a monster that neither is next to the
   * player nor sees it is left alone; it moves only along a successful path
   * of more than one step, onto the decoded second step, freeing its old
   * tile, blocking the new one and dirtying its viewshed, and along such a
   * path it always moves.
   */
  lemma ChaseCases(width: int, height: int, monsters: set<Entity>, player: Entity, target: Point,
                   aStar: (seq<bool>, int, int) -> Path, h: Hunt, e: Entity)
    requires 0 <= width && 0 <= height && |h.blocked| == width * height && StepsOnMap(aStar)
    requires HuntersOnMap(width, height, monsters, h)
    requires e in h.viewsheds && e in monsters && e in h.positions
    ensures var r := Chase(width, height, monsters, player, target, aStar, h, e);
      var pos := h.positions[e];
      var from := Idx(width, pos.x, pos.y);
      var path := aStar(h.blocked, from, Idx(width, target.x, target.y));
      (InMeleeRange(pos, target) ==>
        r == h.(intents := h.intents[e := WantsToMelee(player)])) &&
      (!InMeleeRange(pos, target) && target !in h.viewsheds[e].visibleTiles ==> r == h) &&
      (!InMeleeRange(pos, target) && target in h.viewsheds[e].visibleTiles && !(path.success && |path.steps| > 1) ==>
        r == h) &&
      (!InMeleeRange(pos, target) && target in h.viewsheds[e].visibleTiles && path.success && |path.steps| > 1 ==>
        0 <= from < |h.blocked| && 0 <= path.steps[1] < |h.blocked| &&
        r == h.(positions := h.positions[e := Point(path.steps[1] % width, path.steps[1] / width)],
                viewsheds := h.viewsheds[e := h.viewsheds[e].(dirty := true)],
                blocked := h.blocked[from := false][path.steps[1] := true])) &&
      (r.positions != h.positions ==>
        !InMeleeRange(pos, target) && target in h.viewsheds[e].visibleTiles &&
        path.success && |path.steps| > 1 &&
        r.positions == h.positions[e := Point(path.steps[1] % width, path.steps[1] / width)] &&
        0 <= from < |r.blocked| && 0 <= path.steps[1] < |r.blocked| &&
        !r.blocked[from] == (from != path.steps[1]) && r.blocked[path.steps[1]] &&
        r.viewsheds[e].dirty && r.intents == h.intents)
  {
    var pos := h.positions[e];
    if !InMeleeRange(pos, target) && target in h.viewsheds[e].visibleTiles {
      IdxInBounds(width, height, pos.x, pos.y);
    }
  }

  /**
   * Entities that are not monsters taking part, or are not among `es`, keep
   * their position, viewshed and intent.
   */
  lemma {:induction false} ChaseAllFrame(width: int, height: int, monsters: set<Entity>, player: Entity, target: Point,
                                         aStar: (seq<bool>, int, int) -> Path, h: Hunt, es: seq<Entity>, v: Entity)
    requires 0 <= width && 0 <= height && |h.blocked| == width * height && StepsOnMap(aStar)
    requires HuntersOnMap(width, height, monsters, h)
    requires v !in es || v !in monsters
    ensures var r := ChaseAll(width, height, monsters, player, target, aStar, h, es);
      (v in r.positions <==> v in h.positions) && (v in h.positions ==> r.positions[v] == h.positions[v]) &&
      (v in r.viewsheds <==> v in h.viewsheds) && (v in h.viewsheds ==> r.viewsheds[v] == h.viewsheds[v]) &&
      (v in r.intents <==> v in h.intents) && (v in h.intents ==> r.intents[v] == h.intents[v])
  {
    if es != [] {
      var prefix := es[..|es| - 1];
      assert es == prefix + [es[|es| - 1]];
      ChaseAllFrame(width, height, monsters, player, target, aStar, h, prefix, v);
    }
  }

  /**
   * The monster turn never adds or removes a position, and every melee intent
   * it leaves is one that was there before or an attack on the player.
   */
  lemma {:induction false} ChaseAllIntents(width: int, height: int, monsters: set<Entity>, player: Entity, target: Point,
                                           aStar: (seq<bool>, int, int) -> Path, h: Hunt, es: seq<Entity>, v: Entity)
    requires 0 <= width && 0 <= height && |h.blocked| == width * height && StepsOnMap(aStar)
    requires HuntersOnMap(width, height, monsters, h)
    ensures var r := ChaseAll(width, height, monsters, player, target, aStar, h, es);
      r.positions.Keys == h.positions.Keys &&
      (v in r.intents ==> r.intents[v] == WantsToMelee(player) || (v in h.intents && r.intents[v] == h.intents[v]))
  {
    if es != [] {
      var prefix := es[..|es| - 1];
      ChaseAllIntents(width, height, monsters, player, target, aStar, h, prefix, v);
      var mid := ChaseAll(width, height, monsters, player, target, aStar, h, prefix);
      ChaseKeeps(width, height, monsters, player, target, aStar, mid, es[|es| - 1]);
    }
  }

  /** `MonsterAI::run`: nothing happens outside the monsters' turn. */
  method MonsterTurn(w: World, m: Map, aStar: (seq<bool>, int, int) -> Path)
    requires m.Valid() && StepsOnMap(aStar)
    requires HuntersOnMap(m.width, m.height, w.monsters, Hunt(w.positions, w.viewsheds, w.wantsMelee, m.blocked))
    modifies w`positions, w`viewsheds, w`wantsMelee, m`blocked
    ensures m.Valid()
    ensures old(w.runState) != RunState.MonsterTurn ==>
      w.positions == old(w.positions) && w.viewsheds == old(w.viewsheds) && w.wantsMelee == old(w.wantsMelee) && m.blocked == old(m.blocked)
    ensures old(w.runState) == RunState.MonsterTurn ==>
      Hunt(w.positions, w.viewsheds, w.wantsMelee, m.blocked) ==
      ChaseAll(m.width, m.height, w.monsters, w.playerEntity, w.playerPos, aStar,
               Hunt(old(w.positions), old(w.viewsheds), old(w.wantsMelee), old(m.blocked)), w.entities)
  {
    if w.runState != RunState.MonsterTurn {
      return;
    }
    var i := 0;
    while i < |w.entities|
      invariant 0 <= i <= |w.entities| && m.Valid()
      invariant Hunt(w.positions, w.viewsheds, w.wantsMelee, m.blocked) ==
        ChaseAll(m.width, m.height, w.monsters, w.playerEntity, w.playerPos, aStar,
                 Hunt(old(w.positions), old(w.viewsheds), old(w.wantsMelee), old(m.blocked)), w.entities[..i])
    {
      ChaseOne(w, m, aStar, w.entities[i]);
      assert w.entities[..i + 1][..i] == w.entities[..i];
      i := i + 1;
    }
    assert w.entities[..i] == w.entities;
  }

  /** The loop body of `MonsterAI::run` for entity `e`. */
  method ChaseOne(w: World, m: Map, aStar: (seq<bool>, int, int) -> Path, e: Entity)
    requires m.Valid() && StepsOnMap(aStar)
    requires HuntersOnMap(m.width, m.height, w.monsters, Hunt(w.positions, w.viewsheds, w.wantsMelee, m.blocked))
    modifies w`positions, w`viewsheds, w`wantsMelee, m`blocked
    ensures m.Valid()
    ensures Hunt(w.positions, w.viewsheds, w.wantsMelee, m.blocked) ==
      Chase(m.width, m.height, w.monsters, w.playerEntity, w.playerPos, aStar,
            Hunt(old(w.positions), old(w.viewsheds), old(w.wantsMelee), old(m.blocked)), e)
  {
    if e in w.viewsheds && e in w.monsters && e in w.positions {
      var pos := w.positions[e];
      if InMeleeRange(pos, w.playerPos) {
        w.wantsMelee := w.wantsMelee[e := WantsToMelee(w.playerEntity)];
      } else if w.playerPos in w.viewsheds[e].visibleTiles {
        var path := aStar(m.blocked, m.XyIdx(pos.x, pos.y), m.XyIdx(w.playerPos.x, w.playerPos.y));
        if path.success && |path.steps| > 1 {
          IdxInBounds(m.width, m.height, pos.x, pos.y);
          var idx := m.XyIdx(pos.x, pos.y);
          assert 0 <= idx < |m.blocked|;
          m.blocked := m.blocked[idx := false];
          var next := Step(m.width, m.height, path.steps[1]);
          w.positions := w.positions[e := Point(path.steps[1] % m.width, path.steps[1] / m.width)];
          idx := m.XyIdx(next.x, next.y);
          m.blocked := m.blocked[idx := true];
          w.viewsheds := w.viewsheds[e := w.viewsheds[e].(dirty := true)];
        }
      }
    }
  }
}
