/**
 * The visible-AI pass of the current game (`src/systems/ai/visible_ai_system.rs`):
 * every non-player entity whose turn it is looks at the tiles it sees, asks
 * its faction how it feels about each faction member standing there, and
 * then casts a spell, shoots, approaches or flees.
 *
 * What the modelled code calls but does not show is a parameter (`Oracles`):
 * the raws' faction table, rltk's Pythagorean distance, the dice, and the
 * raws' spell lookup by name.
 */
module VisibleAI {
  import opened Ecs
  import opened Spatial
  import opened GameWorld

  /** The raws' reaction of one faction to another. */
  datatype Reaction = Ignore | Attack | Flee

  /** One faction member seen on tile `idx`, and how the looker reacts to it. */
  datatype Sighting = Sighting(idx: int, reaction: Reaction, other: Entity)

  /**
   * The behaviour the pass relies on but does not define: `react(mine, theirs)`
   * is the faction table, `distance` the straight-line distance, `dice(k)` the
   * k-th 1d100 roll, and `spellOf(name)` the spell entity of that name.
   */
  datatype Oracles = Oracles(react: (string, string) -> Reaction, distance: (Point, Point) -> real,
                             dice: nat -> int, spellOf: string -> Entity)

  /** What the pass reads from the world and the map. */
  datatype Scene = Scene(entities: seq<Entity>, myTurn: set<Entity>, factions: map<Entity, string>,
                         positions: map<Entity, Point>, viewsheds: map<Entity, Viewshed>,
                         abilities: map<Entity, seq<Ability>>, weapons: map<Entity, Weapon>,
                         equipped: map<Entity, Entity>, player: Entity,
                         width: int, height: int, content: seq<seq<Entity>>)

  function SceneOf(w: World, m: Map): Scene
    reads w, m
  {
    Scene(w.entities, w.myTurn, w.factions, w.positions, w.viewsheds, w.abilities, w.weapons,
          w.equipped, w.playerEntity, m.width, m.height, m.tileContent)
  }

  /** The entities the pass's join visits and that are not the player. */
  predicate Candidate(sc: Scene, e: Entity)
  {
    e in sc.entities && e in sc.myTurn && e in sc.factions && e in sc.positions && e in sc.viewsheds && e != sc.player
  }

  /**
   * The map's grid is consistent and every tile a candidate sees has an
   * entry in the tile contents (indexing it otherwise panics).
   */
  ghost predicate Fits(sc: Scene)
  {
    0 <= sc.width && 0 <= sc.height && |sc.content| == sc.width * sc.height &&
    forall e, p :: Candidate(sc, e) && p in sc.viewsheds[e].visibleTiles ==> 0 <= Idx(sc.width, p.x, p.y) < |sc.content|
  }

  lemma WidthPositive(width: int, height: int, idx: int)
    requires 0 <= width && 0 <= height && 0 <= idx < width * height
    ensures width > 0
  {
  }

  /** The tile of row-major index `idx`. */
  function TileOf(idx: int, width: int): (p: Point)
    requires 0 <= idx && 0 < width
    ensures Idx(width, p.x, p.y) == idx && 0 <= p.x < width && 0 <= p.y
  {
    Point(idx % width, idx / width)
  }

  /** Rust's `as i32` on a float: truncation toward zero. */
  function Trunc(r: real): (n: int)
    ensures 0.0 <= r ==> 0 <= n && n as real <= r < n as real + 1.0
    ensures r <= 0.0 ==> n <= 0 && n as real - 1.0 < r <= n as real
  {
    if r >= 0.0 then r.Floor else -((-r).Floor)
  }

  /** `evaluate`: the faction members among `occupants` of tile `idx`, in order. */
  function Evaluate(factions: map<Entity, string>, react: (string, string) -> Reaction, myFaction: string,
                    idx: int, occupants: seq<Entity>): seq<Sighting>
  {
    if occupants == [] then []
    else
      var rest := Evaluate(factions, react, myFaction, idx, occupants[..|occupants| - 1]);
      var o := occupants[|occupants| - 1];
      if o in factions then rest + [Sighting(idx, react(myFaction, factions[o]), o)] else rest
  }

  lemma {:induction false} EvaluateMeans(factions: map<Entity, string>, react: (string, string) -> Reaction, myFaction: string,
                                         idx: int, occupants: seq<Entity>, s: Sighting)
    ensures s in Evaluate(factions, react, myFaction, idx, occupants) <==>
      s.idx == idx && s.other in occupants && s.other in factions && s.reaction == react(myFaction, factions[s.other])
  {
    if occupants != [] {
      var prefix, o := occupants[..|occupants| - 1], occupants[|occupants| - 1];
      assert occupants == prefix + [o];
      EvaluateMeans(factions, react, myFaction, idx, prefix, s);
    }
  }

  /** The sightings over the visible tiles `tiles`, skipping the looker's own tile `myIdx`. */
  function Sightings(sc: Scene, react: (string, string) -> Reaction, myFaction: string, myIdx: int, tiles: seq<Point>): seq<Sighting>
    requires forall p :: p in tiles ==> 0 <= Idx(sc.width, p.x, p.y) < |sc.content|
  {
    if tiles == [] then []
    else
      var rest := Sightings(sc, react, myFaction, myIdx, tiles[..|tiles| - 1]);
      var p := tiles[|tiles| - 1];
      var idx := Idx(sc.width, p.x, p.y);
      if myIdx != idx then rest + Evaluate(sc.factions, react, myFaction, idx, sc.content[idx]) else rest
  }

  /**
   * A sighting is listed exactly when it is a faction member standing on a
   * seen tile other than the looker's own, with the faction table's reaction.
   */
  lemma {:induction false} SightingsMeans(sc: Scene, react: (string, string) -> Reaction, myFaction: string, myIdx: int,
                                          tiles: seq<Point>, s: Sighting)
    requires forall p :: p in tiles ==> 0 <= Idx(sc.width, p.x, p.y) < |sc.content|
    ensures s in Sightings(sc, react, myFaction, myIdx, tiles) <==>
      (exists p :: p in tiles && Idx(sc.width, p.x, p.y) == s.idx) && s.idx != myIdx &&
      0 <= s.idx < |sc.content| && s.other in sc.content[s.idx] &&
      s.other in sc.factions && s.reaction == react(myFaction, sc.factions[s.other])
  {
    if tiles != [] {
      var prefix, p := tiles[..|tiles| - 1], tiles[|tiles| - 1];
      assert tiles == prefix + [p];
      SightingsMeans(sc, react, myFaction, myIdx, prefix, s);
      var idx := Idx(sc.width, p.x, p.y);
      EvaluateMeans(sc.factions, react, myFaction, idx, sc.content[idx], s);
    }
  }

  /**
   * One entity's decisions while it goes through its sightings: whether it
   * has acted, the spell, shot, approach and chase it has chosen, the tiles
   * it would flee from, and the dice used so far.
   */
  datatype Plan = Plan(done: bool, cast: Option<WantsToCastSpell>, shoot: Option<Entity>, approach: Option<int>,
                       chase: Option<Entity>, flee: seq<int>, rolls: nat)

  function Start(rolls: nat): Plan
  {
    Plan(false, None, None, None, None, [], rolls)
  }

  /** One ability against a target `dist` away at `target`: in its range band, it fires on a good roll. */
  function Cast(o: Oracles, dist: real, target: Point, p: Plan, a: Ability): Plan
  {
    if dist >= a.minRange && dist <= a.range then
      if o.dice(p.rolls) <= Trunc(a.chance * 100.0) then
        p.(cast := Some(WantsToCastSpell(o.spellOf(a.spell), Some(target))), done := true, rolls := p.rolls + 1)
      else p.(rolls := p.rolls + 1)
    else p
  }

  /** Every ability of `abilities`, in order. */
  function CastAll(o: Oracles, dist: real, target: Point, p: Plan, abilities: seq<Ability>): Plan
  {
    if abilities == [] then p else Cast(o, dist, target, CastAll(o, dist, target, p, abilities[..|abilities| - 1]), abilities[|abilities| - 1])
  }

  /** Weapon `wpn` of the join: shot at `victim` when `e` holds it and it reaches `dist`. */
  predicate Reaches(sc: Scene, e: Entity, dist: real, wpn: Entity)
  {
    wpn in sc.weapons && wpn in sc.equipped && sc.weapons[wpn].range.Some? && sc.equipped[wpn] == e &&
    sc.weapons[wpn].range.value >= Trunc(dist)
  }

  /** The weapons-and-equipped join over `es`, in order. */
  function ShootAll(sc: Scene, e: Entity, dist: real, victim: Entity, p: Plan, es: seq<Entity>): Plan
  {
    if es == [] then p
    else
      var rest := ShootAll(sc, e, dist, victim, p, es[..|es| - 1]);
      if Reaches(sc, e, dist, es[|es| - 1]) then rest.(shoot := Some(victim), done := true) else rest
  }

  /** A shot is chosen exactly when one of `e`'s equipped ranged weapons reaches the target. */
  lemma {:induction false} ShootAllMeans(sc: Scene, e: Entity, dist: real, victim: Entity, p: Plan, es: seq<Entity>)
    ensures var r := ShootAll(sc, e, dist, victim, p, es);
      if exists wpn :: wpn in es && Reaches(sc, e, dist, wpn) then r == p.(shoot := Some(victim), done := true) else r == p
  {
    if es != [] {
      var prefix, last := es[..|es| - 1], es[|es| - 1];
      assert es == prefix + [last];
      ShootAllMeans(sc, e, dist, victim, p, prefix);
    }
  }

  /** How entity `e` at `pos` deals with one sighting. */
  function ReactOne(sc: Scene, o: Oracles, e: Entity, pos: Point, p: Plan, s: Sighting): Plan
    requires 0 <= sc.width && 0 <= sc.height && |sc.content| == sc.width * sc.height && 0 <= s.idx < |sc.content|
  {
    match s.reaction
    case Attack =>
      WidthPositive(sc.width, sc.height, s.idx);
      var target := TileOf(s.idx, sc.width);
      var dist := o.distance(pos, target);
      var p1 := CastAll(o, dist, target, p, if e in sc.abilities then sc.abilities[e] else []);
      var p2 := if !p1.done then ShootAll(sc, e, dist, s.other, p1, sc.entities) else p1;
      if !p2.done then p2.(approach := Some(s.idx), chase := Some(s.other), done := true) else p2
    case Flee => p.(flee := p.flee + [s.idx])
    case Ignore => p
  }

  /** Every sighting of `ss`, in order. */
  function ReactAll(sc: Scene, o: Oracles, e: Entity, pos: Point, p: Plan, ss: seq<Sighting>): Plan
    requires 0 <= sc.width && 0 <= sc.height && |sc.content| == sc.width * sc.height
    requires forall s :: s in ss ==> 0 <= s.idx < |sc.content|
  {
    if ss == [] then p else ReactOne(sc, o, e, pos, ReactAll(sc, o, e, pos, p, ss[..|ss| - 1]), ss[|ss| - 1])
  }

  /** The tiles of the sightings its faction flees from, in order. */
  function FleeFrom(ss: seq<Sighting>): seq<int>
  {
    if ss == [] then []
    else FleeFrom(ss[..|ss| - 1]) + (if ss[|ss| - 1].reaction == Flee then [ss[|ss| - 1].idx] else [])
  }

  /** The plan's bookkeeping: it has acted exactly when it chose something, and it never both shoots and approaches. */
  predicate Coherent(p: Plan)
  {
    (p.done <==> p.cast.Some? || p.shoot.Some? || p.approach.Some?) &&
    (p.approach.Some? <==> p.chase.Some?) &&
    !(p.shoot.Some? && p.approach.Some?)
  }

  /**
   * Reacting keeps a plan coherent, appends exactly the flee sightings'
   * tiles to its flee list, and never undoes a decision: an entity that has
   * acted stays so.
   */
  lemma {:induction false} ReactAllCoherent(sc: Scene, o: Oracles, e: Entity, pos: Point, p: Plan, ss: seq<Sighting>)
    requires 0 <= sc.width && 0 <= sc.height && |sc.content| == sc.width * sc.height
    requires forall s :: s in ss ==> 0 <= s.idx < |sc.content|
    requires Coherent(p)
    ensures var r := ReactAll(sc, o, e, pos, p, ss);
      Coherent(r) && r.flee == p.flee + FleeFrom(ss) && (p.done ==> r.done)
  {
    if ss != [] {
      var prefix, s := ss[..|ss| - 1], ss[|ss| - 1];
      assert ss == prefix + [s];
      ReactAllCoherent(sc, o, e, pos, p, prefix);
      var mid := ReactAll(sc, o, e, pos, p, prefix);
      if s.reaction == Attack {
        WidthPositive(sc.width, sc.height, s.idx);
        var target := TileOf(s.idx, sc.width);
        var dist := o.distance(pos, target);
        var abilities := if e in sc.abilities then sc.abilities[e] else [];
        CastAllKeeps(o, dist, target, mid, abilities);
        var p1 := CastAll(o, dist, target, mid, abilities);
        ShootAllMeans(sc, e, dist, s.other, p1, sc.entities);
      }
    }
  }

  /** The abilities never clear a decision or touch the shot, approach, chase or flee list, and they keep a plan coherent. */
  lemma {:induction false} CastAllKeeps(o: Oracles, dist: real, target: Point, p: Plan, abilities: seq<Ability>)
    ensures var r := CastAll(o, dist, target, p, abilities);
      r.shoot == p.shoot && r.approach == p.approach && r.chase == p.chase && r.flee == p.flee &&
      (p.done ==> r.done) && (r.done ==> p.done || r.cast.Some?) && (r.cast.Some? ==> p.cast.Some? || r.done) && (p.cast.Some? ==> r.cast.Some?) &&
      (Coherent(p) ==> Coherent(r)) &&
      (r.cast.Some? ==> r.cast == p.cast || r.cast.value.target == Some(target))
  {
    if abilities != [] {
      CastAllKeeps(o, dist, target, p, abilities[..|abilities| - 1]);
    }
  }

  /**
   * Where the choices come from: an approach and its chase are the tile and
   * the entity of one attack sighting, a shot is at an attacked entity, and a
   * spell is aimed at the tile of an attack sighting.
   */
  lemma {:induction false} ReactAllTargets(sc: Scene, o: Oracles, e: Entity, pos: Point, ss: seq<Sighting>, rolls: nat)
    requires 0 <= sc.width && 0 <= sc.height && |sc.content| == sc.width * sc.height
    requires forall s :: s in ss ==> 0 <= s.idx < |sc.content|
    ensures var r := ReactAll(sc, o, e, pos, Start(rolls), ss);
      (r.approach.Some? && r.chase.Some? ==> exists s :: s in ss && s.reaction == Attack && Sighting(r.approach.value, Attack, r.chase.value) == s) &&
      (r.shoot.Some? ==> exists s :: s in ss && s.reaction == Attack && s.other == r.shoot.value) &&
      (r.cast.Some? ==> exists s :: s in ss && s.reaction == Attack && r.cast.value.target == Some(TileOf(s.idx, sc.width)))
  {
    if ss != [] {
      var prefix, s := ss[..|ss| - 1], ss[|ss| - 1];
      assert ss == prefix + [s];
      ReactAllTargets(sc, o, e, pos, prefix, rolls);
      ReactAllCoherent(sc, o, e, pos, Start(rolls), prefix);
      var mid := ReactAll(sc, o, e, pos, Start(rolls), prefix);
      if s.reaction == Attack {
        WidthPositive(sc.width, sc.height, s.idx);
        var target := TileOf(s.idx, sc.width);
        var dist := o.distance(pos, target);
        var abilities := if e in sc.abilities then sc.abilities[e] else [];
        CastAllKeeps(o, dist, target, mid, abilities);
        var p1 := CastAll(o, dist, target, mid, abilities);
        ShootAllMeans(sc, e, dist, s.other, p1, sc.entities);
      }
    }
  }

  /** Entity `e`'s plan for this turn, starting from dice roll `rolls`. */
  function Decide(sc: Scene, o: Oracles, e: Entity, rolls: nat): Plan
    requires Fits(sc) && Candidate(sc, e)
  {
    var pos := sc.positions[e];
    var ss := Sightings(sc, o.react, sc.factions[e], Idx(sc.width, pos.x, pos.y), sc.viewsheds[e].visibleTiles);
    SightingsInRange(sc, o, e);
    ReactAll(sc, o, e, pos, Start(rolls), ss)
  }

  lemma SightingsInRange(sc: Scene, o: Oracles, e: Entity)
    requires Fits(sc) && Candidate(sc, e)
    ensures var pos := sc.positions[e];
      forall s :: s in Sightings(sc, o.react, sc.factions[e], Idx(sc.width, pos.x, pos.y), sc.viewsheds[e].visibleTiles) ==>
        0 <= s.idx < |sc.content|
  {
    var pos := sc.positions[e];
    forall s | s in Sightings(sc, o.react, sc.factions[e], Idx(sc.width, pos.x, pos.y), sc.viewsheds[e].visibleTiles)
      ensures 0 <= s.idx < |sc.content|
    {
      SightingsMeans(sc, o.react, sc.factions[e], Idx(sc.width, pos.x, pos.y), sc.viewsheds[e].visibleTiles, s);
    }
  }

  /** The component storages the pass writes, and the dice used so far. */
  datatype Orders = Orders(cast: map<Entity, WantsToCastSpell>, shoot: map<Entity, Entity>, approach: map<Entity, int>,
                           chase: map<Entity, Entity>, flee: map<Entity, seq<int>>, rolls: nat)

  /** Writes entity `e`'s plan: each chosen component is inserted; fleeing only when it did nothing else. */
  function Commit(ord: Orders, e: Entity, p: Plan): Orders
  {
    Orders(if p.cast.Some? then ord.cast[e := p.cast.value] else ord.cast,
           if p.shoot.Some? then ord.shoot[e := p.shoot.value] else ord.shoot,
           if p.approach.Some? then ord.approach[e := p.approach.value] else ord.approach,
           if p.chase.Some? then ord.chase[e := p.chase.value] else ord.chase,
           if !p.done && p.flee != [] then ord.flee[e := p.flee] else ord.flee,
           p.rolls)
  }

  /** The pass's work for entity `e`. */
  function Act(sc: Scene, o: Oracles, ord: Orders, e: Entity): Orders
    requires Fits(sc)
  {
    if Candidate(sc, e) then Commit(ord, e, Decide(sc, o, e, ord.rolls)) else ord
  }

  /** The pass over the entities `es`, in order. */
  function ActAll(sc: Scene, o: Oracles, ord: Orders, es: seq<Entity>): Orders
    requires Fits(sc)
  {
    if es == [] then ord else Act(sc, o, ActAll(sc, o, ord, es[..|es| - 1]), es[|es| - 1])
  }

  /**
   * What one entity's turn decides: it is given a flee order exactly when it
   * neither casts, shoots nor approaches and it sees something its faction
   * flees from, and then it flees from exactly those tiles; it never both
   * shoots and approaches; it chases exactly when it approaches, and always
   * an entity it attacks on the tile it approaches.
   */
  lemma DecideMeans(sc: Scene, o: Oracles, e: Entity, rolls: nat)
    requires Fits(sc) && Candidate(sc, e)
    ensures var pos := sc.positions[e];
      var ss := Sightings(sc, o.react, sc.factions[e], Idx(sc.width, pos.x, pos.y), sc.viewsheds[e].visibleTiles);
      var p := Decide(sc, o, e, rolls);
      (!p.done && p.flee != [] <==> p.cast.None? && p.shoot.None? && p.approach.None? && FleeFrom(ss) != []) &&
      p.flee == FleeFrom(ss) && !(p.shoot.Some? && p.approach.Some?) && (p.approach.Some? <==> p.chase.Some?) &&
      (p.approach.Some? ==> exists s :: s in ss && s == Sighting(p.approach.value, Attack, p.chase.value))
  {
    var pos := sc.positions[e];
    var ss := Sightings(sc, o.react, sc.factions[e], Idx(sc.width, pos.x, pos.y), sc.viewsheds[e].visibleTiles);
    SightingsInRange(sc, o, e);
    ReactAllCoherent(sc, o, e, pos, Start(rolls), ss);
    ReactAllTargets(sc, o, e, pos, ss, rolls);
  }

  /** Only the entities of `es` that the join visits, never the player, receive orders. */
  lemma {:induction false} ActAllOthers(sc: Scene, o: Oracles, ord: Orders, es: seq<Entity>, v: Entity)
    requires Fits(sc)
    requires v !in es || !Candidate(sc, v)
    ensures var r := ActAll(sc, o, ord, es);
      r.cast.Keys - {v} >= ord.cast.Keys - {v} &&
      (v in r.cast <==> v in ord.cast) && (v in ord.cast ==> r.cast[v] == ord.cast[v]) &&
      (v in r.shoot <==> v in ord.shoot) && (v in ord.shoot ==> r.shoot[v] == ord.shoot[v]) &&
      (v in r.approach <==> v in ord.approach) && (v in ord.approach ==> r.approach[v] == ord.approach[v]) &&
      (v in r.chase <==> v in ord.chase) && (v in ord.chase ==> r.chase[v] == ord.chase[v]) &&
      (v in r.flee <==> v in ord.flee) && (v in ord.flee ==> r.flee[v] == ord.flee[v])
  {
    if es != [] {
      var prefix := es[..|es| - 1];
      assert es == prefix + [es[|es| - 1]];
      ActAllOthers(sc, o, ord, prefix, v);
    }
  }

  /** `VisibleAI::run`, returning the number of dice rolled so far. */
  method VisibleAISystem(w: World, m: Map, o: Oracles, rollsBefore: nat) returns (rolls: nat)
    requires m.Valid() && Fits(SceneOf(w, m))
    modifies w`wantsToCastSpell, w`wantsToShoot, w`wantsToApproach, w`chasing, w`wantsToFlee
    ensures Orders(w.wantsToCastSpell, w.wantsToShoot, w.wantsToApproach, w.chasing, w.wantsToFlee, rolls) ==
      ActAll(SceneOf(w, m), o, Orders(old(w.wantsToCastSpell), old(w.wantsToShoot), old(w.wantsToApproach),
                                      old(w.chasing), old(w.wantsToFlee), rollsBefore), w.entities)
  {
    rolls := rollsBefore;
    var i := 0;
    while i < |w.entities|
      invariant 0 <= i <= |w.entities|
      invariant Orders(w.wantsToCastSpell, w.wantsToShoot, w.wantsToApproach, w.chasing, w.wantsToFlee, rolls) ==
        ActAll(SceneOf(w, m), o, Orders(old(w.wantsToCastSpell), old(w.wantsToShoot), old(w.wantsToApproach),
                                        old(w.chasing), old(w.wantsToFlee), rollsBefore), w.entities[..i])
    {
      var entity := w.entities[i];
      assert w.entities[..i + 1][..i] == w.entities[..i];
      if entity in w.myTurn && entity in w.factions && entity in w.positions && entity in w.viewsheds && entity != w.playerEntity {
        var plan := DecideOne(w, m, o, entity, rolls);
        CommitPlan(w, entity, plan);
        rolls := plan.rolls;
      }
      i := i + 1;
    }
    assert w.entities[..i] == w.entities;
  }

  /** Inserts the components entity `e`'s plan chose. */
  method CommitPlan(w: World, e: Entity, p: Plan)
    modifies w`wantsToCastSpell, w`wantsToShoot, w`wantsToApproach, w`chasing, w`wantsToFlee
    ensures Orders(w.wantsToCastSpell, w.wantsToShoot, w.wantsToApproach, w.chasing, w.wantsToFlee, p.rolls) ==
      Commit(Orders(old(w.wantsToCastSpell), old(w.wantsToShoot), old(w.wantsToApproach), old(w.chasing), old(w.wantsToFlee), 0), e, p)
  {
    if p.cast.Some? {
      w.wantsToCastSpell := w.wantsToCastSpell[e := p.cast.value];
    }
    if p.shoot.Some? {
      w.wantsToShoot := w.wantsToShoot[e := p.shoot.value];
    }
    if p.approach.Some? {
      w.wantsToApproach := w.wantsToApproach[e := p.approach.value];
    }
    if p.chase.Some? {
      w.chasing := w.chasing[e := p.chase.value];
    }
    if !p.done && p.flee != [] {
      w.wantsToFlee := w.wantsToFlee[e := p.flee];
    }
  }

  /** The body of the join for entity `e`: its sightings, then its reactions to them. */
  method DecideOne(w: World, m: Map, o: Oracles, e: Entity, rolls: nat) returns (plan: Plan)
    requires m.Valid() && Fits(SceneOf(w, m)) && Candidate(SceneOf(w, m), e)
    ensures plan == Decide(SceneOf(w, m), o, e, rolls)
  {
    ghost var sc := SceneOf(w, m);
    var pos := w.positions[e];
    var reactions := Look(w, m, o, e);
    SightingsInRange(sc, o, e);
    plan := Start(rolls);
    var j := 0;
    while j < |reactions|
      invariant 0 <= j <= |reactions|
      invariant plan == ReactAll(sc, o, e, pos, Start(rolls), reactions[..j])
    {
      assert reactions[..j + 1][..j] == reactions[..j];
      plan := Respond(w, m, o, e, pos, plan, reactions[j]);
      j := j + 1;
    }
    assert reactions[..j] == reactions;
  }

  /** The sightings of entity `e`: `evaluate` on every seen tile but its own. */
  method Look(w: World, m: Map, o: Oracles, e: Entity) returns (reactions: seq<Sighting>)
    requires m.Valid() && Fits(SceneOf(w, m)) && Candidate(SceneOf(w, m), e)
    ensures reactions == Sightings(SceneOf(w, m), o.react, w.factions[e], Idx(m.width, w.positions[e].x, w.positions[e].y),
                                   w.viewsheds[e].visibleTiles)
  {
    ghost var sc := SceneOf(w, m);
    var pos := w.positions[e];
    var myIdx := m.XyIdx(pos.x, pos.y);
    var myFaction := w.factions[e];
    var tiles := w.viewsheds[e].visibleTiles;
    reactions := [];
    var t := 0;
    while t < |tiles|
      invariant 0 <= t <= |tiles|
      invariant reactions == Sightings(sc, o.react, myFaction, myIdx, tiles[..t])
    {
      assert tiles[..t + 1][..t] == tiles[..t];
      var idx := m.XyIdx(tiles[t].x, tiles[t].y);
      if myIdx != idx {
        var found := EvaluateTile(w, m, o, myFaction, idx);
        reactions := reactions + found;
      }
      t := t + 1;
    }
    assert tiles[..t] == tiles;
  }

  /** `evaluate` on tile `idx`. */
  method EvaluateTile(w: World, m: Map, o: Oracles, myFaction: string, idx: int) returns (found: seq<Sighting>)
    requires m.Valid() && 0 <= idx < |m.tileContent|
    ensures found == Evaluate(w.factions, o.react, myFaction, idx, m.tileContent[idx])
  {
    var occupants := m.tileContent[idx];
    found := [];
    var k := 0;
    while k < |occupants|
      invariant 0 <= k <= |occupants|
      invariant found == Evaluate(w.factions, o.react, myFaction, idx, occupants[..k])
    {
      assert occupants[..k + 1][..k] == occupants[..k];
      var other := occupants[k];
      if other in w.factions {
        found := found + [Sighting(idx, o.react(myFaction, w.factions[other]), other)];
      }
      k := k + 1;
    }
    assert occupants[..k] == occupants;
  }

  /** The reaction loop's body for one sighting. */
  method Respond(w: World, m: Map, o: Oracles, e: Entity, pos: Point, p: Plan, s: Sighting) returns (plan: Plan)
    requires m.Valid() && 0 <= s.idx < |m.tileContent|
    ensures plan == ReactOne(SceneOf(w, m), o, e, pos, p, s)
  {
    plan := p;
    match s.reaction {
      case Attack =>
        WidthPositive(m.width, m.height, s.idx);
        var target := Point(s.idx % m.width, s.idx / m.width);
        var range := o.distance(pos, target);
        if e in w.abilities {
          plan := Abilities(o, range, target, plan, w.abilities[e]);
        }
        if !plan.done {
          plan := Shoot(w, m, e, range, s.other, plan);
        }
        if !plan.done {
          plan := plan.(approach := Some(s.idx), chase := Some(s.other), done := true);
        }
      case Flee =>
        plan := plan.(flee := plan.flee + [s.idx]);
      case Ignore =>
    }
  }

  /** The abilities loop. */
  method Abilities(o: Oracles, range: real, target: Point, p: Plan, abilities: seq<Ability>) returns (plan: Plan)
    ensures plan == CastAll(o, range, target, p, abilities)
  {
    plan := p;
    var k := 0;
    while k < |abilities|
      invariant 0 <= k <= |abilities|
      invariant plan == CastAll(o, range, target, p, abilities[..k])
    {
      assert abilities[..k + 1][..k] == abilities[..k];
      var ability := abilities[k];
      if range >= ability.minRange && range <= ability.range {
        var roll := o.dice(plan.rolls);
        plan := plan.(rolls := plan.rolls + 1);
        if roll <= Trunc(ability.chance * 100.0) {
          plan := plan.(cast := Some(WantsToCastSpell(o.spellOf(ability.spell), Some(target))), done := true);
        }
      }
      k := k + 1;
    }
    assert abilities[..k] == abilities;
  }

  /** The weapons-and-equipped loop. */
  method Shoot(w: World, m: Map, e: Entity, range: real, victim: Entity, p: Plan) returns (plan: Plan)
    ensures plan == ShootAll(SceneOf(w, m), e, range, victim, p, w.entities)
  {
    plan := p;
    var k := 0;
    while k < |w.entities|
      invariant 0 <= k <= |w.entities|
      invariant plan == ShootAll(SceneOf(w, m), e, range, victim, p, w.entities[..k])
    {
      assert w.entities[..k + 1][..k] == w.entities[..k];
      var weapon := w.entities[k];
      if weapon in w.weapons && weapon in w.equipped {
        match w.weapons[weapon].range {
          case Some(wrange) =>
            if w.equipped[weapon] == e && wrange >= Trunc(range) {
              plan := plan.(shoot := Some(victim), done := true);
            }
          case None =>
        }
      }
      k := k + 1;
    }
    assert w.entities[..k] == w.entities;
  }
}
