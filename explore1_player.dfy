/**
 * The first exploration snapshot (`explore1/src/player.rs`): a world with only
 * positions and the player marker, over a fixed 80 x 50 tile vector.  Its map
 * module is not part of this model, so its `xy_idx` is a parameter.
 */
module Explore1Player {
  import opened Ecs
  import PlayerMove

  /** The explore1 world: live entities in join order, positions and the player marker. */
  class World {
    var entities: seq<Entity>
    var positions: map<Entity, Point>
    var players: set<Entity>

    ghost predicate Valid()
      reads this`entities
    {
      Distinct(entities)
    }

    constructor ()
      ensures Valid() && entities == [] && positions == map[] && players == {}
    {
      entities, positions, players := [], map[], {};
    }
  }

  function Max(a: int, b: int): int { if a < b then b else a }

  function Min(a: int, b: int): int { if a < b then a else b }

  /** Where a player at `p` ends up when the destination is not a wall: clamped to the 80 x 50 console. */
  function Clamped(p: Point, dx: int, dy: int): Point
  {
    Point(Min(79, Max(0, p.x + dx)), Min(49, Max(0, p.y + dy)))
  }

  /** Every joined player's destination indexes the tile vector (the source panics otherwise). */
  predicate DestinationsIndexed(tiles: seq<TileType>, index: (int, int) -> int, players: set<Entity>,
                                positions: map<Entity, Point>, es: seq<Entity>, dx: int, dy: int)
  {
    forall e :: e in es && e in players && e in positions ==> 0 <= index(positions[e].x + dx, positions[e].y + dy) < |tiles|
  }

  /** Where `e` stands once every player of `es` has tried the step `(dx, dy)`. */
  function MovedTo(tiles: seq<TileType>, index: (int, int) -> int, players: set<Entity>,
                   positions: map<Entity, Point>, es: seq<Entity>, dx: int, dy: int, e: Entity): Point
    requires e in positions && DestinationsIndexed(tiles, index, players, positions, es, dx, dy)
  {
    if e in es && e in players && tiles[index(positions[e].x + dx, positions[e].y + dy)] != Wall
    then Clamped(positions[e], dx, dy) else positions[e]
  }

  /** The positions after every player of `es` has tried the step `(dx, dy)`. */
  function Shifted(tiles: seq<TileType>, index: (int, int) -> int, players: set<Entity>,
                   positions: map<Entity, Point>, es: seq<Entity>, dx: int, dy: int): (r: map<Entity, Point>)
    requires DestinationsIndexed(tiles, index, players, positions, es, dx, dy)
    ensures r.Keys == positions.Keys
  {
    map e | e in positions :: MovedTo(tiles, index, players, positions, es, dx, dy, e)
  }

  /**
   * Every player that moves moves by the same delta, when its destination is
   * on the console; a player facing a wall, and every non-player, stays put;
   * nobody leaves the 80 x 50 console by moving.
   */
  lemma ShiftedMeans(tiles: seq<TileType>, index: (int, int) -> int, players: set<Entity>,
                     positions: map<Entity, Point>, es: seq<Entity>, dx: int, dy: int, e: Entity)
    requires DestinationsIndexed(tiles, index, players, positions, es, dx, dy)
    requires e in positions
    ensures var r := Shifted(tiles, index, players, positions, es, dx, dy);
      var p := positions[e];
      (e !in players || e !in es ==> r[e] == p) &&
      (e in players && e in es ==>
        (tiles[index(p.x + dx, p.y + dy)] == Wall ==> r[e] == p) &&
        (tiles[index(p.x + dx, p.y + dy)] != Wall ==>
          0 <= r[e].x <= 79 && 0 <= r[e].y <= 49 &&
          (0 <= p.x + dx <= 79 && 0 <= p.y + dy <= 49 ==> r[e] == Point(p.x + dx, p.y + dy))))
  {
  }

  /** `try_move_player`: every player tries the step `(dx, dy)`. */
  method TryMovePlayer(w: World, tiles: seq<TileType>, index: (int, int) -> int, dx: int, dy: int)
    requires w.Valid() && DestinationsIndexed(tiles, index, w.players, w.positions, w.entities, dx, dy)
    modifies w`positions
    ensures w.positions == Shifted(tiles, index, w.players, old(w.positions), w.entities, dx, dy)
  {
    ghost var p0 := w.positions;
    var i := 0;
    while i < |w.entities|
      invariant 0 <= i <= |w.entities|
      invariant w.positions.Keys == p0.Keys
      invariant forall v :: v in p0 ==> w.positions[v] == MovedTo(tiles, index, w.players, p0, w.entities[..i], dx, dy, v)
    {
      var e := w.entities[i];
      assert e !in w.entities[..i];
      assert forall v :: v in w.entities[..i + 1] <==> v in w.entities[..i] || v == e by {
        assert w.entities[..i + 1] == w.entities[..i] + [e];
      }
      assert e in w.positions ==> w.positions[e] == p0[e];
      if e in w.players && e in w.positions {
        var pos := w.positions[e];
        var destinationIdx := index(pos.x + dx, pos.y + dy);
        if tiles[destinationIdx] != Wall {
          w.positions := w.positions[e := Point(Min(79, Max(0, pos.x + dx)), Min(49, Max(0, pos.y + dy)))];
        }
      }
      i := i + 1;
    }
    assert w.entities[..i] == w.entities;
    assert w.positions == Shifted(tiles, index, w.players, p0, w.entities, dx, dy);
  }

  /** The step each key asks for in explore1: arrows, WASD and the number pad; no letter diagonals. */
  function KeyDelta(key: Key): Option<(int, int)>
  {
    match key
    case Left | A | Key4 => Some((-1, 0))
    case Right | D | Key6 => Some((1, 0))
    case Up | W | Key8 => Some((0, -1))
    case Down | S | Key2 => Some((0, 1))
    case Key7 => Some((-1, -1))
    case Key9 => Some((1, -1))
    case Key3 => Some((1, 1))
    case Key1 => Some((-1, 1))
    case _ => None
  }

  /**
   * Every explore1 movement key moves the same way in explore2, which adds
   * only Q, E, C and Z as diagonals.
   */
  lemma KeyDeltaGrows(key: Key)
    ensures KeyDelta(key).Some? ==> PlayerMove.KeyDelta(key) == KeyDelta(key)
    ensures KeyDelta(key).None? && PlayerMove.KeyDelta(key).Some? <==> key in {Q, E, C, Z}
  {
  }

  /** `player_input`: a movement key moves every player; no key or any other key changes nothing. */
  method PlayerInput(w: World, tiles: seq<TileType>, index: (int, int) -> int, key: Option<Key>)
    requires w.Valid()
    requires key.Some? && KeyDelta(key.value).Some? ==>
      DestinationsIndexed(tiles, index, w.players, w.positions, w.entities, KeyDelta(key.value).value.0, KeyDelta(key.value).value.1)
    modifies w`positions
    ensures key.Some? && KeyDelta(key.value).Some? ==>
      w.positions == Shifted(tiles, index, w.players, old(w.positions), w.entities, KeyDelta(key.value).value.0, KeyDelta(key.value).value.1)
    ensures key.None? || KeyDelta(key.value).None? ==> w.positions == old(w.positions)
  {
    match key {
      case None =>
      case Some(k) =>
        var delta := KeyDelta(k);
        if delta.Some? {
          TryMovePlayer(w, tiles, index, delta.value.0, delta.value.1);
        }
    }
  }
}
