/**
 * The tile map of the final game (`src/map`): row-major tile vectors, the
 * movement-blocked mask (plain and dilated for creatures larger than one
 * tile), the per-tile occupant index, opacity for field-of-view and the
 * neighbour set used by path finding.
 */
module Spatial {
  import opened Ecs

  /** A light colour; the map only ever fills its light vector with black. */
  datatype Rgb = Rgb(r: real, g: real, b: real)

  /** Row-major index of tile (x, y) in a map `width` tiles wide. */
  function Idx(width: int, x: int, y: int): int
  {
    y * width + x
  }

  /** Every in-bounds coordinate has an index inside the tile vectors. */
  lemma IdxInBounds(width: int, height: int, x: int, y: int)
    requires 0 <= x < width && 0 <= y < height
    ensures 0 <= Idx(width, x, y) < width * height
  {
    assert y * width <= (height - 1) * width by {
      MulLeq(y, height - 1, width);
    }
    assert (height - 1) * width == height * width - width;
  }

  lemma MulLeq(a: int, b: int, c: int)
    requires a <= b && 0 <= c
    ensures a * c <= b * c
  {
    assert b * c - a * c == (b - a) * c;
  }

  /** Division and remainder by `width` recover the coordinates of an index. */
  lemma IdxDecode(width: int, x: int, y: int)
    requires 0 <= x < width
    ensures Idx(width, x, y) / width == y && Idx(width, x, y) % width == x
  {
    var i := Idx(width, x, y);
    var q, r := i / width, i % width;
    assert i == q * width + r;
    assert (q - y) * width == x - r;
    if q > y {
      MulLeq(1, q - y, width);
    } else if q < y {
      MulLeq(1, y - q, width);
    }
  }

  /** Every non-negative index is the index of its decoded coordinates. */
  lemma IdxEncode(width: int, i: int)
    requires 0 < width && 0 <= i
    ensures Idx(width, i % width, i / width) == i
    ensures 0 <= i % width < width && 0 <= i / width
  {
  }

  /**
   * `xy_idx` is a bijection between the in-bounds coordinates and
   * [0, width * height): in range, injective, and onto.
   */
  lemma {:induction false} IdxBijection(width: int, height: int)
    requires 0 < width && 0 <= height
    ensures forall x, y :: 0 <= x < width && 0 <= y < height ==> 0 <= Idx(width, x, y) < width * height
    ensures forall x1, y1, x2, y2 :: 0 <= x1 < width && 0 <= x2 < width && Idx(width, x1, y1) == Idx(width, x2, y2) ==> x1 == x2 && y1 == y2
    ensures forall i :: 0 <= i < width * height ==> 0 <= i / width < height && Idx(width, i % width, i / width) == i
  {
    forall x, y | 0 <= x < width && 0 <= y < height
      ensures 0 <= Idx(width, x, y) < width * height
    {
      IdxInBounds(width, height, x, y);
    }
    forall x1, y1, x2, y2 | 0 <= x1 < width && 0 <= x2 < width && Idx(width, x1, y1) == Idx(width, x2, y2)
      ensures x1 == x2 && y1 == y2
    {
      IdxDecode(width, x1, y1);
      IdxDecode(width, x2, y2);
    }
    forall i | 0 <= i < width * height
      ensures 0 <= i / width < height && Idx(width, i % width, i / width) == i
    {
      IdxEncode(width, i);
      if i / width >= height {
        MulLeq(height, i / width, width);
      }
    }
  }

  /** A count the source passes as a signed integer, with negative counts read as zero iterations. */
  function Clamp(n: int): nat
  {
    if n < 0 then 0 else n
  }

  /** A point on the width x height grid. */
  predicate OnMap(width: int, height: int, p: Point)
  {
    0 <= p.x < width && 0 <= p.y < height
  }

  /** A tile strictly inside the one-tile border of a `width` x `height` map. */
  predicate Interior(width: int, height: int, x: int, y: int)
  {
    1 <= x < width - 1 && 1 <= y < height - 1
  }

  /**
   * Whether footprint cell (x + cx, y + cy) stops a creature anchored at
   * (x, y): it lies on or beyond the right or bottom border, or its tile is
   * blocked in `base`.
   */
  predicate CellBlocks(base: seq<bool>, width: int, height: int, x: int, y: int, cx: nat, cy: nat)
    requires |base| == width * height && 1 <= x && 1 <= y
  {
    if x + cx < width - 1 && y + cy < height - 1 then
      IdxInBounds(width, height, x + cx, y + cy);
      base[Idx(width, x + cx, y + cy)]
    else true
  }

  /** Some of the first `n` cells of footprint row cy blocks. */
  predicate RowHits(base: seq<bool>, width: int, height: int, x: int, y: int, cy: nat, n: nat)
    requires |base| == width * height && 1 <= x && 1 <= y
  {
    n > 0 && (RowHits(base, width, height, x, y, cy, n - 1) || CellBlocks(base, width, height, x, y, n - 1, cy))
  }

  /** Some cell of the first `m` rows of the `fw`-wide footprint anchored at (x, y) blocks. */
  predicate BoxHits(base: seq<bool>, width: int, height: int, x: int, y: int, fw: nat, m: nat)
    requires |base| == width * height && 1 <= x && 1 <= y
  {
    m > 0 && (BoxHits(base, width, height, x, y, fw, m - 1) || RowHits(base, width, height, x, y, m - 1, fw))
  }

  lemma {:induction false} RowHitsMeans(base: seq<bool>, width: int, height: int, x: int, y: int, cy: nat, n: nat)
    requires |base| == width * height && 1 <= x && 1 <= y
    ensures RowHits(base, width, height, x, y, cy, n) <==>
      exists cx: nat :: cx < n && CellBlocks(base, width, height, x, y, cx, cy)
  {
    if n > 0 {
      RowHitsMeans(base, width, height, x, y, cy, n - 1);
      if CellBlocks(base, width, height, x, y, n - 1, cy) {
        assert exists cx: nat :: cx < n && CellBlocks(base, width, height, x, y, cx, cy);
      }
    }
  }

  /** The footprint test stated directly: some cell of the fw x fh box blocks. */
  lemma {:induction false} BoxHitsMeans(base: seq<bool>, width: int, height: int, x: int, y: int, fw: nat, fh: nat)
    requires |base| == width * height && 1 <= x && 1 <= y
    ensures BoxHits(base, width, height, x, y, fw, fh) <==>
      exists cx: nat, cy: nat :: cx < fw && cy < fh && CellBlocks(base, width, height, x, y, cx, cy)
  {
    if fh > 0 {
      BoxHitsMeans(base, width, height, x, y, fw, fh - 1);
      RowHitsMeans(base, width, height, x, y, fh - 1, fw);
    }
  }

  /**
   * The value `populate_blocked_multi` leaves at index i: border tiles keep
   * their walkability, an interior tile is blocked when it is itself blocked
   * or its fw x fh footprint hits a blocked tile or the border.
   */
  predicate MultiBlocked(base: seq<bool>, width: int, height: int, fw: nat, fh: nat, i: int)
    requires 0 < width && |base| == width * height && 0 <= i < |base|
  {
    if Interior(width, height, i % width, i / width) then
      base[i] || BoxHits(base, width, height, i % width, i / width, fw, fh)
    else base[i]
  }

  /** The walkability mask: blocked exactly where the tile is not walkable. */
  function WalkMask(tiles: seq<TileType>, walkable: TileType -> bool): (r: seq<bool>)
    ensures |r| == |tiles|
    ensures forall i :: 0 <= i < |tiles| ==> r[i] == !walkable(tiles[i])
  {
    seq(|tiles|, i requires 0 <= i < |tiles| => !walkable(tiles[i]))
  }

  /** The eight neighbour offsets in the order exits are listed: cardinals, then diagonals. */
  const Neighbours: seq<(int, int)> := [(-1, 0), (1, 0), (0, -1), (0, 1), (-1, -1), (1, -1), (-1, 1), (1, 1)]

  class Map {
    var tiles: seq<TileType>
    var width: int
    var height: int
    var revealedTiles: seq<bool>
    var visibleTiles: seq<bool>
    var blocked: seq<bool>
    var depth: int
    var bloodstains: set<int>
    var viewBlocked: set<int>
    var name: string
    var outdoors: bool
    var light: seq<Rgb>
    var tileContent: seq<seq<Entity>>

    /** Every per-tile vector has one entry per tile of the width x height grid. */
    ghost predicate Valid()
      reads this`width, this`height, this`tiles, this`revealedTiles, this`visibleTiles, this`blocked, this`light, this`tileContent
    {
      0 <= width && 0 <= height && |tiles| == width * height &&
      |revealedTiles| == |tiles| && |visibleTiles| == |tiles| && |blocked| == |tiles| &&
      |light| == |tiles| && |tileContent| == |tiles|
    }

    /** `Map::new`: a map made entirely of walls, with no flags set and no occupants. */
    constructor (newDepth: int, w: int, h: int, mapName: string)
      requires 0 <= w && 0 <= h
      ensures Valid() && width == w && height == h && depth == newDepth && name == mapName
      ensures |tiles| == w * h && forall i :: 0 <= i < |tiles| ==> tiles[i] == Wall
      ensures forall i :: 0 <= i < |tiles| ==> !revealedTiles[i] && !visibleTiles[i] && !blocked[i]
      ensures forall i :: 0 <= i < |tiles| ==> tileContent[i] == [] && light[i] == Rgb(0.0, 0.0, 0.0)
      ensures bloodstains == {} && viewBlocked == {} && outdoors
    {
      var count := w * h;
      tiles := seq(count, _ => Wall);
      width, height := w, h;
      revealedTiles := seq(count, _ => false);
      visibleTiles := seq(count, _ => false);
      blocked := seq(count, _ => false);
      tileContent := seq(count, _ => []);
      depth := newDepth;
      bloodstains, viewBlocked := {}, {};
      name := mapName;
      outdoors := true;
      light := seq(count, _ => Rgb(0.0, 0.0, 0.0));
    }

    /** `xy_idx`: the row-major index of (x, y). */
    function XyIdx(x: int, y: int): int
      reads this
    {
      Idx(width, x, y)
    }

    /**
     * `is_exit_valid`: (x, y) lies in 1..=width-1 x 1..=height-1 and is not
     * blocked.  The right and bottom border columns pass the bounds test.
     */
    predicate IsExitValid(x: int, y: int)
      reads this
      requires Valid()
    {
      if x < 1 || x > width - 1 || y < 1 || y > height - 1 then false
      else
        IdxInBounds(width, height, x, y);
        !blocked[Idx(width, x, y)]
    }

    /** The bounds test lets through the last column but not the first. */
    lemma ExitBoundsAsymmetric(y: int)
      requires Valid() && 2 <= width && 1 <= y <= height - 1
      requires Idx(width, width - 1, y) < |blocked|
      ensures IsExitValid(width - 1, y) <==> !blocked[Idx(width, width - 1, y)]
      ensures !IsExitValid(0, y)
    {
    }

    /** `populate_blocked`: blocked[i] becomes `!tile_walkable(tiles[i])` for every tile. */
    method PopulateBlocked(walkable: TileType -> bool)
      requires Valid()
      modifies this`blocked
      ensures Valid()
      ensures blocked == WalkMask(tiles, walkable)
    {
      var i := 0;
      while i < |tiles|
        invariant 0 <= i <= |tiles| && |blocked| == |tiles|
        invariant forall j :: 0 <= j < i ==> blocked[j] == !walkable(tiles[j])
      {
        blocked := blocked[i := !walkable(tiles[i])];
        i := i + 1;
      }
    }

    /**
     * The cy/cx loops of `populate_blocked_multi` for the tile (x, y): it
     * becomes blocked when any cell of the fw x fh footprint blocks.  Only
     * that tile is written, and every tile the loops read still holds its
     * `base` value.
     */
    method MarkFootprint(x: int, y: int, fw: int, fh: int, ghost base: seq<bool>)
      requires Valid() && 1 <= x < width - 1 && 1 <= y < height - 1
      requires |base| == |blocked| && 0 <= Idx(width, x, y) < |blocked|
      requires forall j :: Idx(width, x, y) <= j < |blocked| ==> blocked[j] == base[j]
      requires !blocked[Idx(width, x, y)]
      modifies this`blocked
      ensures Valid()
      ensures blocked == old(blocked)[Idx(width, x, y) := BoxHits(base, width, height, x, y, Clamp(fw), Clamp(fh))]
    {
      IdxInBounds(width, height, x, y);
      var idx := Idx(width, x, y);
      ghost var fwn := Clamp(fw);
      ghost var fhn := Clamp(fh);
      var cy := 0;
      while cy < fh
        invariant 0 <= cy <= fhn
        invariant blocked == old(blocked)[idx := BoxHits(base, width, height, x, y, fwn, cy)]
      {
        ScanFootprintRow(x, y, cy, fw, base);
        cy := cy + 1;
      }
    }

    /** The cx loop of `populate_blocked_multi`: footprint row cy of the tile (x, y). */
    method ScanFootprintRow(x: int, y: int, cy: int, fw: int, ghost base: seq<bool>)
      requires Valid() && 1 <= x < width - 1 && 1 <= y < height - 1 && 0 <= cy
      requires |base| == |blocked| && 0 <= Idx(width, x, y) < |blocked| && !base[Idx(width, x, y)]
      requires forall j :: Idx(width, x, y) < j < |blocked| ==> blocked[j] == base[j]
      requires cy == 0 ==> !blocked[Idx(width, x, y)]
      modifies this`blocked
      ensures Valid()
      ensures blocked == old(blocked)[Idx(width, x, y) := old(blocked)[Idx(width, x, y)] || RowHits(base, width, height, x, y, cy, Clamp(fw))]
    {
      IdxInBounds(width, height, x, y);
      var idx := Idx(width, x, y);
      ghost var fwn := Clamp(fw);
      var cx := 0;
      while cx < fw
        invariant 0 <= cx <= fwn && |blocked| == |old(blocked)|
        invariant forall j :: 0 <= j < |blocked| && j != idx ==> blocked[j] == old(blocked)[j]
        invariant blocked[idx] == (old(blocked)[idx] || RowHits(base, width, height, x, y, cy, cx))
      {
        var tx, ty := x + cx, y + cy;
        ghost var before := blocked[idx];
        if tx < width - 1 && ty < height - 1 {
          IdxInBounds(width, height, tx, ty);
          var tidx := Idx(width, tx, ty);
          FootprintAfterAnchor(width, x, y, cx, cy);
          assert CellBlocks(base, width, height, x, y, cx, cy) == base[tidx];
          assert (blocked[tidx] || before) == (base[tidx] || before);
          if blocked[tidx] {
            blocked := blocked[idx := true];
          }
        } else {
          blocked := blocked[idx := true];
        }
        cx := cx + 1;
      }
      assert blocked == old(blocked)[idx := blocked[idx]];
    }

    /** Every tile before index k already holds its `populate_blocked_multi` value. */
    ghost predicate FinalBefore(base: seq<bool>, fw: nat, fh: nat, k: int)
      reads this
      requires 0 < width && |base| == width * height
    {
      |blocked| == |base| &&
      forall j :: 0 <= j < |blocked| && j < k ==> blocked[j] == MultiBlocked(base, width, height, fw, fh, j)
    }

    /** Every tile from index k on still holds its `populate_blocked` value. */
    ghost predicate BaseFrom(base: seq<bool>, k: int)
      reads this
    {
      |blocked| == |base| && forall j :: 0 <= j < |blocked| && k <= j ==> blocked[j] == base[j]
    }

    /**
     * `populate_blocked_multi(fw, fh)`: after `populate_blocked`, each
     * interior tile is also blocked when a creature of fw x fh tiles anchored
     * there would overlap a blocked tile or the right or bottom border; border
     * tiles keep their `populate_blocked` value.  Every footprint cell lies at
     * or after its anchor in row-major order, so the in-place update never
     * reads a tile it has already rewritten.
     */
    method PopulateBlockedMulti(fw: int, fh: int, walkable: TileType -> bool)
      requires Valid()
      modifies this`blocked
      ensures Valid()
      ensures 0 < width ==> forall i :: 0 <= i < |blocked| ==>
        blocked[i] == MultiBlocked(WalkMask(tiles, walkable), width, height, Clamp(fw), Clamp(fh), i)
    {
      PopulateBlocked(walkable);
      if 0 < width {
        ghost var base := blocked;
        forall j | 0 <= j < |blocked| && j < Idx(width, 1, 1)
          ensures blocked[j] == MultiBlocked(base, width, height, Clamp(fw), Clamp(fh), j)
        {
          TopRowsBorder(width, height, j);
        }
        var y := 1;
        while y < height - 1
          invariant Valid() && base == WalkMask(tiles, walkable)
          invariant 1 <= y && (2 <= height ==> y <= height - 1)
          invariant FinalBefore(base, Clamp(fw), Clamp(fh), Idx(width, 1, y)) && BaseFrom(base, Idx(width, 1, y))
        {
          MarkRow(y, fw, fh, base);
          y := y + 1;
        }
        forall j | 0 <= j < |blocked| && Idx(width, 1, y) <= j
          ensures blocked[j] == MultiBlocked(base, width, height, Clamp(fw), Clamp(fh), j)
        {
          BottomRowsBorder(width, height, y, j);
        }
      }
    }

    /** The x loop of `populate_blocked_multi` for interior row y. */
    method MarkRow(y: int, fw: int, fh: int, ghost base: seq<bool>)
      requires Valid() && 0 < width && 1 <= y < height - 1 && |base| == |blocked|
      requires FinalBefore(base, Clamp(fw), Clamp(fh), Idx(width, 1, y)) && BaseFrom(base, Idx(width, 1, y))
      modifies this`blocked
      ensures Valid()
      ensures FinalBefore(base, Clamp(fw), Clamp(fh), Idx(width, 1, y + 1)) && BaseFrom(base, Idx(width, 1, y + 1))
    {
      var x := 1;
      while x < width - 1
        invariant Valid() && |base| == |blocked|
        invariant 1 <= x <= if 2 <= width then width - 1 else 1
        invariant FinalBefore(base, Clamp(fw), Clamp(fh), Idx(width, x, y)) && BaseFrom(base, Idx(width, x, y))
      {
        MarkTile(x, y, fw, fh, base);
        x := x + 1;
      }
      forall j | 0 <= j < |blocked| && Idx(width, x, y) <= j < Idx(width, 1, y + 1)
        ensures blocked[j] == MultiBlocked(base, width, height, Clamp(fw), Clamp(fh), j)
      {
        RowEndBorder(width, height, x, y, j);
      }
      assert Idx(width, x, y) <= Idx(width, 1, y + 1) by {
        assert (y + 1) * width == y * width + width;
      }
    }

    /** One interior tile (x, y) of `populate_blocked_multi`. */
    method MarkTile(x: int, y: int, fw: int, fh: int, ghost base: seq<bool>)
      requires Valid() && 1 <= x < width - 1 && 1 <= y < height - 1 && |base| == |blocked|
      requires FinalBefore(base, Clamp(fw), Clamp(fh), Idx(width, x, y)) && BaseFrom(base, Idx(width, x, y))
      modifies this`blocked
      ensures Valid()
      ensures FinalBefore(base, Clamp(fw), Clamp(fh), Idx(width, x, y) + 1) && BaseFrom(base, Idx(width, x, y) + 1)
    {
      IdxInBounds(width, height, x, y);
      IdxDecode(width, x, y);
      var idx := Idx(width, x, y);
      if !blocked[idx] {
        MarkFootprint(x, y, fw, fh, base);
      }
      assert blocked[idx] == MultiBlocked(base, width, height, Clamp(fw), Clamp(fh), idx);
    }

    /** `clear_content_index`: every occupant list is emptied; the number of lists is kept. */
    method ClearContentIndex()
      requires Valid()
      modifies this`tileContent
      ensures Valid()
      ensures |tileContent| == |old(tileContent)|
      ensures forall i :: 0 <= i < |tileContent| ==> tileContent[i] == []
    {
      var i := 0;
      while i < |tileContent|
        invariant 0 <= i <= |tileContent| && |tileContent| == |old(tileContent)|
        invariant forall j :: 0 <= j < i ==> tileContent[j] == []
      {
        tileContent := tileContent[i := []];
        i := i + 1;
      }
    }

    /**
     * `is_opaque`: index 0 and indices past the end are opaque; any other tile
     * is opaque when its tile type is, or when it is in `view_blocked`.
     */
    predicate IsOpaque(idx: nat, tileOpaque: TileType -> bool)
      reads this
    {
      if 0 < idx < |tiles| then tileOpaque(tiles[idx]) || idx in viewBlocked else true
    }

    /**
     * The neighbour indices of `get_available_exits` (its float costs are not
     * modelled): each of the eight neighbours that passes `is_exit_valid`,
     * cardinals first, then diagonals.
     */
    function AvailableExits(idx: int): (r: seq<int>)
      reads this
      requires Valid() && 0 < width && 0 <= idx < |tiles|
      ensures |r| <= 8
    {
      ExitsFrom(idx % width, idx / width, 0)
    }

    /** The valid exits among `Neighbours[k..]` of the tile (x, y), in offset order. */
    function ExitsFrom(x: int, y: int, k: nat): (r: seq<int>)
      reads this
      requires Valid() && k <= |Neighbours|
      ensures |r| <= |Neighbours| - k
      decreases |Neighbours| - k
    {
      if k == |Neighbours| then []
      else
        var rest := ExitsFrom(x, y, k + 1);
        if IsExitValid(x + Neighbours[k].0, y + Neighbours[k].1) then
          [Idx(width, x + Neighbours[k].0, y + Neighbours[k].1)] + rest
        else rest
    }

    /** An index is listed in `ExitsFrom(x, y, k)` iff it is the index of a valid exit at some offset k.. */
    lemma {:induction false} ExitsFromMembers(x: int, y: int, k: nat, i: int)
      requires Valid() && k <= |Neighbours|
      ensures i in ExitsFrom(x, y, k) <==>
        exists n :: k <= n < |Neighbours| && IsExitValid(x + Neighbours[n].0, y + Neighbours[n].1) &&
                    i == Idx(width, x + Neighbours[n].0, y + Neighbours[n].1)
      decreases |Neighbours| - k
    {
      if k < |Neighbours| {
        ExitsFromMembers(x, y, k + 1, i);
      }
    }

    /** Every listed exit is an unblocked tile of the map. */
    lemma ExitsSound(idx: int, i: int)
      requires Valid() && 0 < width && 0 <= idx < |tiles|
      requires i in AvailableExits(idx)
      ensures 0 <= i < |blocked| && !blocked[i]
    {
      ExitsFromMembers(idx % width, idx / width, 0, i);
      var n :| 0 <= n < |Neighbours| && IsExitValid(idx % width + Neighbours[n].0, idx / width + Neighbours[n].1) &&
               i == Idx(width, idx % width + Neighbours[n].0, idx / width + Neighbours[n].1);
      IdxInBounds(width, height, idx % width + Neighbours[n].0, idx / width + Neighbours[n].1);
    }

    /** Every neighbour that passes `is_exit_valid` is listed, at index idx + dy*width + dx. */
    lemma ExitsComplete(idx: int, n: nat)
      requires Valid() && 0 < width && 0 <= idx < |tiles| && n < |Neighbours|
      requires IsExitValid(idx % width + Neighbours[n].0, idx / width + Neighbours[n].1)
      ensures idx + Neighbours[n].1 * width + Neighbours[n].0 in AvailableExits(idx)
    {
      IdxEncode(width, idx);
      var i := Idx(width, idx % width + Neighbours[n].0, idx / width + Neighbours[n].1);
      assert i == idx + Neighbours[n].1 * width + Neighbours[n].0;
      ExitsFromMembers(idx % width, idx / width, 0, i);
    }

    /** No exit is listed twice. */
    lemma {:induction false} ExitsDistinct(x: int, y: int, k: nat)
      requires Valid() && 0 < width && k <= |Neighbours|
      ensures forall a, b :: 0 <= a < b < |ExitsFrom(x, y, k)| ==> ExitsFrom(x, y, k)[a] != ExitsFrom(x, y, k)[b]
      decreases |Neighbours| - k
    {
      if k < |Neighbours| {
        ExitsDistinct(x, y, k + 1);
        var rest := ExitsFrom(x, y, k + 1);
        if IsExitValid(x + Neighbours[k].0, y + Neighbours[k].1) {
          var head := Idx(width, x + Neighbours[k].0, y + Neighbours[k].1);
          forall m | 0 <= m < |rest|
            ensures rest[m] != head
          {
            ExitsFromMembers(x, y, k + 1, rest[m]);
            var n :| k + 1 <= n < |Neighbours| && IsExitValid(x + Neighbours[n].0, y + Neighbours[n].1) &&
                     rest[m] == Idx(width, x + Neighbours[n].0, y + Neighbours[n].1);
            IdxDecode(width, x + Neighbours[k].0, y + Neighbours[k].1);
            IdxDecode(width, x + Neighbours[n].0, y + Neighbours[n].1);
          }
        }
      }
    }
  }

  /** A footprint cell (x + cx, y + cy) never precedes its anchor (x, y) in row-major order. */
  lemma FootprintAfterAnchor(width: int, x: int, y: int, cx: nat, cy: nat)
    requires 0 <= width
    ensures Idx(width, x, y) <= Idx(width, x + cx, y + cy)
    ensures Idx(width, x, y) == Idx(width, x + cx, y + cy) ==> (cx == 0 && cy == 0) || width == 0
  {
    assert Idx(width, x + cx, y + cy) - Idx(width, x, y) == cy * width + cx;
    MulLeq(0, cy, width);
  }

  /** Tiles before (1, 1) in row-major order lie on the top row or the left column. */
  lemma TopRowsBorder(width: int, height: int, j: int)
    requires 0 < width && 0 <= j < Idx(width, 1, 1)
    ensures !Interior(width, height, j % width, j / width)
  {
    if j < width {
      IdxDecode(width, j, 0);
    } else {
      IdxDecode(width, 0, 1);
    }
  }

  /** Tiles from (x, y) with x >= width-1 up to (1, y+1) lie on the right or the left column. */
  lemma RowEndBorder(width: int, height: int, x: int, y: int, j: int)
    requires 0 < width && width - 1 <= x && Idx(width, x, y) <= j < Idx(width, 1, y + 1)
    ensures !Interior(width, height, j % width, j / width)
  {
    if j < Idx(width, 0, y + 1) {
      IdxDecode(width, j - y * width, y);
    } else {
      IdxDecode(width, 0, y + 1);
    }
  }

  /** Tiles from (1, y) on, with y >= height-1, lie on or below the bottom row. */
  lemma BottomRowsBorder(width: int, height: int, y: int, j: int)
    requires 0 < width && 1 <= y && height - 1 <= y && Idx(width, 1, y) <= j
    ensures !Interior(width, height, j % width, j / width)
  {
    IdxEncode(width, j);
    if j / width < y {
      MulLeq(j / width + 1, y, width);
    }
  }
}
