/**
 * Player movement and key handling of the second exploration snapshot.
 * `explore2/src/player/user.rs` and `explore2/src/player.rs` carry the same
 * `try_move`; their `input` functions differ in the keys they handle.
 */
module PlayerMove {
  import opened Ecs
  import opened Explore2World
  import opened Spatial
  import Character

  /** What `try_move` writes, and whether it has returned early. */
  datatype Moves = Moves(positions: map<Entity, Point>, viewsheds: map<Entity, Viewshed>,
                         wantsMelee: map<Entity, WantsToMelee>, playerPos: Point, stopped: bool)

  /** The first of `occupants` that has combat stats. */
  function FirstFighter(occupants: seq<Entity>, fighters: set<Entity>): (r: Option<Entity>)
    ensures r.Some? ==> exists k :: 0 <= k < |occupants| && occupants[k] == r.value && r.value in fighters &&
                                    forall j :: 0 <= j < k ==> occupants[j] !in fighters
    ensures r.None? ==> forall e :: e in occupants ==> e !in fighters
  {
    if occupants == [] then None
    else if occupants[0] in fighters then Some(occupants[0])
    else
      var r := FirstFighter(occupants[1..], fighters);
      assert r.Some? ==> exists k :: 0 <= k < |occupants| && occupants[k] == r.value && r.value in fighters &&
                                     forall j :: 0 <= j < k ==> occupants[j] !in fighters by {
        if r.Some? {
          var k :| 0 <= k < |occupants[1..]| && occupants[1..][k] == r.value && r.value in fighters &&
                   forall j :: 0 <= j < k ==> occupants[1..][j] !in fighters;
          assert forall j :: 0 <= j < k + 1 ==> occupants[j] !in fighters by {
            forall j | 0 <= j < k + 1 ensures occupants[j] !in fighters {
              if j > 0 { assert occupants[j] == occupants[1..][j - 1]; }
            }
          }
        }
      }
      r
  }

  /** The destination of a one-tile step lies in the columns and rows `try_move` accepts. */
  predicate InMoveBounds(width: int, height: int, x: int, y: int)
  {
    1 <= x <= width - 1 && 1 <= y <= height - 1
  }

  function Max(a: int, b: int): int { if a < b then b else a }

  function Min(a: int, b: int): int { if a < b then a else b }

  /**
   * The step of one player entity `e` by `(dx, dy)`: out of bounds ends the
   * whole move; an occupant with combat stats is attacked instead (and ends
   * the move); otherwise an unblocked destination is entered, clamped to the
   * map, with the viewshed marked dirty and the player point updated.
   */
  function MoveStep(width: int, height: int, content: seq<seq<Entity>>, blocked: seq<bool>, fighters: set<Entity>,
                    players: set<Entity>, dx: int, dy: int, s: Moves, e: Entity): Moves
    requires 0 <= width && 0 <= height && |content| == width * height && |blocked| == width * height
  {
    if s.stopped || e !in players || e !in s.positions || e !in s.viewsheds then s
    else
      var pos := s.positions[e];
      var nx, ny := pos.x + dx, pos.y + dy;
      if !InMoveBounds(width, height, nx, ny) then s.(stopped := true)
      else
        IdxInBounds(width, height, nx, ny);
        var idx := Idx(width, nx, ny);
        match FirstFighter(content[idx], fighters)
        case Some(target) => s.(wantsMelee := s.wantsMelee[e := WantsToMelee(target)], stopped := true)
        case None =>
          if blocked[idx] then s
          else
            var dest := Point(Min(width - 1, Max(0, nx)), Min(height - 1, Max(0, ny)));
            s.(positions := s.positions[e := dest], viewsheds := s.viewsheds[e := s.viewsheds[e].(dirty := true)], playerPos := dest)
  }

  /** `try_move` over the entities of `es`, in join order. */
  function MoveAll(width: int, height: int, content: seq<seq<Entity>>, blocked: seq<bool>, fighters: set<Entity>,
                   players: set<Entity>, dx: int, dy: int, s: Moves, es: seq<Entity>): Moves
    requires 0 <= width && 0 <= height && |content| == width * height && |blocked| == width * height
  {
    if es == [] then s
    else MoveStep(width, height, content, blocked, fighters, players, dx, dy,
                  MoveAll(width, height, content, blocked, fighters, players, dx, dy, s, es[..|es| - 1]), es[|es| - 1])
  }

  /**
   * What one step does to the player `e`: nothing when it would leave the
   * accepted bounds; a melee intent on the first occupant with combat stats
   * and no move; otherwise a move exactly onto the destination - the clamp
   * never bites, because the bounds check already passed - when it is not
   * blocked.  No other entity's position or intent changes.
   */
  lemma MoveStepCases(width: int, height: int, content: seq<seq<Entity>>, blocked: seq<bool>, fighters: set<Entity>,
                      players: set<Entity>, dx: int, dy: int, s: Moves, e: Entity, v: Entity)
    requires 0 <= width && 0 <= height && |content| == width * height && |blocked| == width * height
    requires !s.stopped && e in players && e in s.positions && e in s.viewsheds
    ensures var r := MoveStep(width, height, content, blocked, fighters, players, dx, dy, s, e);
      var nx, ny := s.positions[e].x + dx, s.positions[e].y + dy;
      (v != e ==> (v in r.positions <==> v in s.positions) && (v in s.positions ==> r.positions[v] == s.positions[v]) &&
                  (v in r.wantsMelee <==> v in s.wantsMelee) && (v in s.wantsMelee ==> r.wantsMelee[v] == s.wantsMelee[v])) &&
      (!InMoveBounds(width, height, nx, ny) ==> r == s.(stopped := true)) &&
      (InMoveBounds(width, height, nx, ny) ==>
        0 <= Idx(width, nx, ny) < width * height &&
        var fighter := FirstFighter(content[Idx(width, nx, ny)], fighters);
        (fighter.Some? ==> r.stopped && r.wantsMelee[e] == WantsToMelee(fighter.value) && r.positions == s.positions) &&
        (fighter.None? && blocked[Idx(width, nx, ny)] ==> r == s) &&
        (fighter.None? && !blocked[Idx(width, nx, ny)] ==>
          !r.stopped && r.positions[e] == Point(nx, ny) && r.playerPos == Point(nx, ny) && r.viewsheds[e].dirty))
  {
    var nx, ny := s.positions[e].x + dx, s.positions[e].y + dy;
    if InMoveBounds(width, height, nx, ny) {
      IdxInBounds(width, height, nx, ny);
    }
  }

  /** Once `try_move` has returned, the remaining entities are not visited. */
  lemma {:induction false} MoveAllStopped(width: int, height: int, content: seq<seq<Entity>>, blocked: seq<bool>, fighters: set<Entity>,
                                          players: set<Entity>, dx: int, dy: int, s: Moves, es: seq<Entity>, j: nat, k: nat)
    requires 0 <= width && 0 <= height && |content| == width * height && |blocked| == width * height
    requires j <= k <= |es|
    requires MoveAll(width, height, content, blocked, fighters, players, dx, dy, s, es[..j]).stopped
    ensures MoveAll(width, height, content, blocked, fighters, players, dx, dy, s, es[..k]) ==
            MoveAll(width, height, content, blocked, fighters, players, dx, dy, s, es[..j])
    decreases k
  {
    if k > j {
      MoveAllStopped(width, height, content, blocked, fighters, players, dx, dy, s, es, j, k - 1);
      assert es[..k][..k - 1] == es[..k - 1];
    }
  }

  /** Entities that are not players never move and never gain a melee intent. */
  lemma {:induction false} MoveAllOnlyPlayers(width: int, height: int, content: seq<seq<Entity>>, blocked: seq<bool>, fighters: set<Entity>,
                                              players: set<Entity>, dx: int, dy: int, s: Moves, es: seq<Entity>, v: Entity)
    requires 0 <= width && 0 <= height && |content| == width * height && |blocked| == width * height
    requires v !in players
    ensures var r := MoveAll(width, height, content, blocked, fighters, players, dx, dy, s, es);
      (v in r.positions <==> v in s.positions) && (v in s.positions ==> r.positions[v] == s.positions[v]) &&
      (v in r.wantsMelee <==> v in s.wantsMelee) && (v in s.wantsMelee ==> r.wantsMelee[v] == s.wantsMelee[v])
  {
    if es != [] {
      MoveAllOnlyPlayers(width, height, content, blocked, fighters, players, dx, dy, s, es[..|es| - 1], v);
    }
  }

  /** The occupant scan of `try_move`. */
  method FindFighter(occupants: seq<Entity>, fighters: set<Entity>) returns (r: Option<Entity>)
    ensures r == FirstFighter(occupants, fighters)
  {
    var i := 0;
    while i < |occupants|
      invariant 0 <= i <= |occupants|
      invariant FirstFighter(occupants, fighters) == FirstFighter(occupants[i..], fighters)
    {
      if occupants[i] in fighters {
        return Some(occupants[i]);
      }
      assert occupants[i..][1..] == occupants[i + 1..];
      i := i + 1;
    }
    return None;
  }

  /** One iteration of `try_move`'s join: the step of player `e`; `stop` reports an early return. */
  method MoveOne(w: World, m: Map, dx: int, dy: int, e: Entity) returns (stop: bool)
    requires m.Valid()
    modifies w`positions, w`viewsheds, w`wantsMelee, w`playerPos
    ensures Moves(w.positions, w.viewsheds, w.wantsMelee, w.playerPos, stop) ==
      MoveStep(m.width, m.height, m.tileContent, m.blocked, w.combatStats.Keys, w.players, dx, dy,
               Moves(old(w.positions), old(w.viewsheds), old(w.wantsMelee), old(w.playerPos), false), e)
  {
    stop := false;
    if e !in w.players || e !in w.positions || e !in w.viewsheds {
      return;
    }
    var pos := w.positions[e];
    if pos.x + dx < 1 || pos.x + dx > m.width - 1 || pos.y + dy < 1 || pos.y + dy > m.height - 1 {
      return true;
    }
    IdxInBounds(m.width, m.height, pos.x + dx, pos.y + dy);
    var destinationIdx := m.XyIdx(pos.x + dx, pos.y + dy);
    var target := FindFighter(m.tileContent[destinationIdx], w.combatStats.Keys);
    if target.Some? {
      w.wantsMelee := w.wantsMelee[e := WantsToMelee(target.value)];
      return true;
    }
    if !m.blocked[destinationIdx] {
      var dest := Point(Min(m.width - 1, Max(0, pos.x + dx)), Min(m.height - 1, Max(0, pos.y + dy)));
      w.positions := w.positions[e := dest];
      w.viewsheds := w.viewsheds[e := w.viewsheds[e].(dirty := true)];
      w.playerPos := dest;
    }
  }

  /** `try_move`: moves (or makes attack) every player by `(dx, dy)`, returning at the first that cannot. */
  method TryMove(w: World, m: Map, dx: int, dy: int)
    requires m.Valid()
    modifies w`positions, w`viewsheds, w`wantsMelee, w`playerPos
    ensures var r := MoveAll(m.width, m.height, m.tileContent, m.blocked, w.combatStats.Keys, w.players, dx, dy,
                             Moves(old(w.positions), old(w.viewsheds), old(w.wantsMelee), old(w.playerPos), false), w.entities);
      w.positions == r.positions && w.viewsheds == r.viewsheds && w.wantsMelee == r.wantsMelee && w.playerPos == r.playerPos
  {
    ghost var s0 := Moves(w.positions, w.viewsheds, w.wantsMelee, w.playerPos, false);
    var i := 0;
    while i < |w.entities|
      invariant 0 <= i <= |w.entities|
      invariant Moves(w.positions, w.viewsheds, w.wantsMelee, w.playerPos, false) ==
        MoveAll(m.width, m.height, m.tileContent, m.blocked, w.combatStats.Keys, w.players, dx, dy, s0, w.entities[..i])
    {
      assert w.entities[..i + 1][..i] == w.entities[..i];
      var stop := MoveOne(w, m, dx, dy, w.entities[i]);
      if stop {
        MoveAllStopped(m.width, m.height, m.tileContent, m.blocked, w.combatStats.Keys, w.players, dx, dy, s0, w.entities, i + 1, |w.entities|);
        assert w.entities[..|w.entities|] == w.entities;
        return;
      }
      i := i + 1;
    }
    assert w.entities[..i] == w.entities;
  }

  /** The step each movement key asks for: arrows, WASD, the number pad, and Q/E/C/Z for diagonals. */
  function KeyDelta(key: Key): Option<(int, int)>
  {
    match key
    case Left | A | Key4 => Some((-1, 0))
    case Right | D | Key6 => Some((1, 0))
    case Up | W | Key8 => Some((0, -1))
    case Down | S | Key2 => Some((0, 1))
    case Key7 | Q => Some((-1, -1))
    case Key9 | E => Some((1, -1))
    case Key3 | C => Some((1, 1))
    case Key1 | Z => Some((-1, 1))
    case _ => None
  }

  /** The run state `user.rs`'s `input` answers with. */
  function UserReply(key: Option<Key>): RunState
  {
    match key
    case None => AwaitingInput
    case Some(k) =>
      if KeyDelta(k).Some? || k == P then PlayerTurn
      else match k
        case I => ShowInventory
        case L => ShowDropItem
        case Escape => ShowMainMenu
        case Space => Paused
        case _ => AwaitingInput
  }

  /** The run state `player.rs`'s `input` answers with. */
  function PlayerReply(key: Option<Key>): RunState
  {
    match key
    case None => AwaitingInput
    case Some(k) =>
      if KeyDelta(k).Some? then PlayerTurn
      else match k
        case Space => Paused
        case Escape => Quitting
        case _ => AwaitingInput
  }

  /**
   * The two input handlers agree on every key but four: `user.rs` adds
   * pick-up (P), the inventory (I) and dropping (L), and sends Escape to the
   * main menu where `player.rs` quits.  In both, a turn is spent exactly on a
   * movement key (or P in `user.rs`), whether or not anyone moved.
   */
  lemma RepliesCompared(key: Option<Key>)
    ensures key.Some? && key.value in {P, I, L, Escape} ==>
      PlayerReply(key) != UserReply(key) && (key.value == Escape ==> PlayerReply(key) == Quitting && UserReply(key) == ShowMainMenu)
    ensures !(key.Some? && key.value in {P, I, L, Escape}) ==> PlayerReply(key) == UserReply(key)
    ensures UserReply(key) == PlayerTurn <==> key.Some? && (KeyDelta(key.value).Some? || key.value == P)
    ensures PlayerReply(key) == PlayerTurn <==> key.Some? && KeyDelta(key.value).Some?
  {
  }

  /**
   * What `user.rs`'s `input` did to the storages it writes: a movement key
   * moved as `try_move` does, P looked for an item as `get_item` does, and
   * every other key changed nothing.
   */
  twostate predicate Answered(w: World, m: Map, key: Option<Key>)
    requires m.Valid()
    reads w, m
  {
    (key.Some? && KeyDelta(key.value).Some? ==>
      var d := KeyDelta(key.value).value;
      var mv := MoveAll(m.width, m.height, m.tileContent, m.blocked, w.combatStats.Keys, w.players, d.0, d.1,
                        Moves(old(w.positions), old(w.viewsheds), old(w.wantsMelee), old(w.playerPos), false), w.entities);
      w.positions == mv.positions && w.viewsheds == mv.viewsheds && w.wantsMelee == mv.wantsMelee && w.playerPos == mv.playerPos &&
      w.log == old(w.log) && w.wantsPickup == old(w.wantsPickup)) &&
    (key == Some(P) ==>
      w.positions == old(w.positions) && w.viewsheds == old(w.viewsheds) && w.wantsMelee == old(w.wantsMelee) &&
      match Character.LastItemAt(w.entities, w.items, w.positions, w.playerPos)
      case None => w.log == old(w.log) + ["There is nothing here to pick up."] && w.wantsPickup == old(w.wantsPickup)
      case Some(item) => w.log == old(w.log) && w.wantsPickup == old(w.wantsPickup)[w.playerEntity := WantsToPickupItem(w.playerEntity, item)]) &&
    ((key.None? || (KeyDelta(key.value).None? && key.value != P)) ==>
      w.positions == old(w.positions) && w.viewsheds == old(w.viewsheds) && w.wantsMelee == old(w.wantsMelee) &&
      w.playerPos == old(w.playerPos) && w.log == old(w.log) && w.wantsPickup == old(w.wantsPickup))
  }

  /** `user.rs`'s `input`: a movement key moves the player, P asks to pick up, and the answer is `UserReply`. */
  method UserInput(w: World, m: Map, key: Option<Key>) returns (r: RunState)
    requires m.Valid()
    modifies w`positions, w`viewsheds, w`wantsMelee, w`playerPos, w`log, w`wantsPickup
    ensures r == UserReply(key) && Answered(w, m, key)
  {
    match key {
      case None => return AwaitingInput;
      case Some(k) =>
        var delta := KeyDelta(k);
        if delta.Some? {
          TryMove(w, m, delta.value.0, delta.value.1);
        } else if k == P {
          Character.GetItem(w);
        } else {
          match k {
            case I => return ShowInventory;
            case L => return ShowDropItem;
            case Escape => return ShowMainMenu;
            case Space => return Paused;
            case _ => return AwaitingInput;
          }
        }
    }
    return PlayerTurn;
  }

  /** `player.rs`'s `input`: a movement key moves the player, and the answer is `PlayerReply`. */
  method PlayerInput(w: World, m: Map, key: Option<Key>) returns (r: RunState)
    requires m.Valid()
    modifies w`positions, w`viewsheds, w`wantsMelee, w`playerPos
    ensures r == PlayerReply(key)
    ensures key.Some? && KeyDelta(key.value).Some? ==>
      var d := KeyDelta(key.value).value;
      var mv := MoveAll(m.width, m.height, m.tileContent, m.blocked, w.combatStats.Keys, w.players, d.0, d.1,
                        Moves(old(w.positions), old(w.viewsheds), old(w.wantsMelee), old(w.playerPos), false), w.entities);
      w.positions == mv.positions && w.viewsheds == mv.viewsheds && w.wantsMelee == mv.wantsMelee && w.playerPos == mv.playerPos
    ensures (key.None? || KeyDelta(key.value).None?) ==>
      w.positions == old(w.positions) && w.viewsheds == old(w.viewsheds) && w.wantsMelee == old(w.wantsMelee) && w.playerPos == old(w.playerPos)
  {
    match key {
      case None => return AwaitingInput;
      case Some(k) =>
        var delta := KeyDelta(k);
        if delta.Some? {
          TryMove(w, m, delta.value.0, delta.value.1);
        } else {
          match k {
            case Space => return Paused;
            case Escape => return Quitting;
            case _ => return AwaitingInput;
          }
        }
    }
    return PlayerTurn;
  }
}
