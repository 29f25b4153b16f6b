/** What a decoded run of floors looks like: for arbitrary bytes, one tile per position, none
    empty, all inside the rectangle that was scanned, shifted for their floor; for the server's
    bytes, exactly the fields it described, each showing its first ten objects. */
module Geometry {
  import opened World
  import opened Viewport
  import opened ObjectTypes
  import opened Floors
  import opened MapScan
  import opened MapCodec

  ghost predicate DistinctPositions(ps: seq<MapPosition>) {
    forall i, j :: 0 <= i < j < |ps| ==> ps[i] != ps[j]
  }

  lemma ConsDistinct(p: MapPosition, rest: seq<MapPosition>)
    requires DistinctPositions(rest) && p !in rest
    ensures DistinctPositions([p] + rest)
  {
  }

  lemma {:induction false} RectDistinct(x: int, y: int, z: int, width: nat, height: nat, ix: nat, iy: nat)
    requires ix <= width && iy <= height
    ensures DistinctPositions(RectFrom(x, y, z, width, height, ix, iy))
    decreases width - ix, height - iy
  {
    hide DistinctPositions;
    if ix == width {
      assert DistinctPositions([]) by { NothingRepeats(); }
    } else if iy == height {
      RectDistinct(x, y, z, width, height, ix + 1, 0);
    } else {
      RectDistinct(x, y, z, width, height, ix, iy + 1);
      ConsDistinct(MapPosition(x + ix, y + iy, z), RectFrom(x, y, z, width, height, ix, iy + 1));
    }
  }

  lemma NothingRepeats()
    ensures DistinctPositions([])
  {
  }

  lemma RectOnShape(anchor: MapPosition, rect: Rect, z: int)
    ensures DistinctPositions(RectOn(anchor, rect, z))
    ensures forall p :: p in RectOn(anchor, rect, z) <==> p.z == z && InShiftedRect(anchor, rect, p)
  {
    RectDistinct(rect.minX + anchor.z - z, rect.minY + anchor.z - z, z, rect.width, rect.height, 0, 0);
  }

  // ---- arbitrary bytes -----------------------------------------------------------------------

  /** Tiles collected so far and fields still to scan never share a position. */
  ghost predicate Apart(tiles: seq<MapTile>, ps: seq<MapPosition>) {
    forall i, j :: 0 <= i < |tiles| && 0 <= j < |ps| ==> tiles[i].position != ps[j]
  }

  ghost predicate From(tiles: seq<MapTile>, all: seq<MapPosition>) {
    forall i :: 0 <= i < |tiles| ==> tiles[i].position in all
  }

  lemma {:induction false} TileNotEmpty(s: seq<byte>, at: nat, types: Types, things: seq<MapThing>)
    requires ReadTile(s, at, types, things).Ok?
    requires things != [] || U16(s, at).value < SKIP_MARKER_BASE
    ensures ReadTile(s, at, types, things).value.things != []
    decreases MAX_OBJECTS_PER_POINT + 1 - |things|
  {
    hide ReadThing;
    if U16(s, at).value < SKIP_MARKER_BASE {
      var thing := ReadThing(s, at, types);
      TileNotEmpty(s, thing.at, types, things + [thing.value]);
    }
  }

  lemma {:induction false} ScanShape(
      s: seq<byte>, at: nat, types: Types, ps: seq<MapPosition>, state: ScanState, all: seq<MapPosition>)
    requires Scan(s, at, types, ps, state).Ok?
    requires DistinctPositions(ps) && DistinctTiles(state.tiles) && Apart(state.tiles, ps)
    requires Occupied(state.tiles) && From(state.tiles, all) && forall p :: p in ps ==> p in all
    ensures var tiles := Scan(s, at, types, ps, state).value.tiles;
      DistinctTiles(tiles) && Occupied(tiles) && From(tiles, all)
    decreases |ps|
  {
    hide ReadTile, U16;
    if ps != [] {
      if state.skip > 0 {
        ScanShape(s, at, types, ps[1..], state.(skip := state.skip - 1), all);
      } else if U16(s, at).value >= SKIP_MARKER_BASE {
        ScanShape(s, U16(s, at).at, types, ps[1..], state.(skip := U16(s, at).value - SKIP_MARKER_BASE), all);
      } else {
        var tile := ReadTile(s, at, types, []);
        TileNotEmpty(s, at, types, []);
        assert ps[0] in ps;
        ScanShape(s, tile.at, types, ps[1..],
          ScanState(tile.value.skip, state.tiles + [MapTile(ps[0], tile.value.things)]), all);
      }
    }
  }

  /** Floors collected so far: levels distinct from those to come, each floor sound. */
  ghost predicate Sound(floors: seq<MapFloor>, anchor: MapPosition, rect: Rect) {
    WellFormed(floors) && Anchored(floors, anchor)
    && forall i, j :: 0 <= i < |floors| && 0 <= j < |floors[i].tiles| ==>
      InShiftedRect(anchor, rect, floors[i].tiles[j].position)
  }

  ghost predicate DistinctLevels(zs: seq<int>) {
    forall i, j :: 0 <= i < j < |zs| ==> zs[i] != zs[j]
  }

  lemma SoundGrows(floors: seq<MapFloor>, anchor: MapPosition, rect: Rect, floor: MapFloor)
    requires Sound(floors, anchor, rect) && floor.offset == anchor.z - floor.z
    requires forall i :: 0 <= i < |floors| ==> floors[i].z != floor.z
    requires DistinctTiles(floor.tiles) && Occupied(floor.tiles) && From(floor.tiles, RectOn(anchor, rect, floor.z))
    ensures Sound(floors + [floor], anchor, rect)
  {
    hide DistinctTiles, Occupied, RectOn;
    RectOnShape(anchor, rect, floor.z);
    assert TilesOn(floor.tiles, floor.z);
  }

  lemma {:induction false} ScanFloorsShape(
      s: seq<byte>, at: nat, types: Types, anchor: MapPosition, rect: Rect, zs: seq<int>, state: FloorsState)
    requires ScanFloors(s, at, types, anchor, rect, zs, state).Ok?
    requires Sound(state.floors, anchor, rect) && DistinctLevels(zs)
    requires forall i, j :: 0 <= i < |state.floors| && 0 <= j < |zs| ==> state.floors[i].z != zs[j]
    ensures var floors := ScanFloors(s, at, types, anchor, rect, zs, state).value.floors;
      Sound(floors, anchor, rect) && Levels(floors) == Levels(state.floors) + zs
    decreases |zs|
  {
    hide Scan, RectOn, Sound, Levels, InShiftedRect;
    if zs == [] {
      assert Levels(state.floors) + zs == Levels(state.floors);
    } else {
      var ps := RectOn(anchor, rect, zs[0]);
      var scanned := Scan(s, at, types, ps, ScanState(state.skip, []));
      RectOnShape(anchor, rect, zs[0]);
      ScanShape(s, at, types, ps, ScanState(state.skip, []), ps);
      var floor := MapFloor(zs[0], anchor.z - zs[0], scanned.value.tiles);
      SoundGrows(state.floors, anchor, rect, floor);
      ScanFloorsShape(s, scanned.at, types, anchor, rect, zs[1..],
        FloorsState(scanned.value.skip, state.floors + [floor]));
      LevelsGrow(state.floors, floor, zs);
    }
  }

  lemma LevelsGrow(floors: seq<MapFloor>, floor: MapFloor, zs: seq<int>)
    requires zs != [] && floor.z == zs[0]
    ensures Levels(floors + [floor]) + zs[1..] == Levels(floors) + zs
  {
  }

  /** Whatever the bytes, floors that decode are well-formed, list the levels in order, and lie
      inside the scanned rectangle. */
  lemma DecodedFloorsAreSound(s: seq<byte>, at: nat, types: Types, anchor: MapPosition, rect: Rect, zs: seq<int>)
    requires ReadFloors(s, at, types, anchor, rect, zs).Ok? && DistinctLevels(zs)
    ensures var floors := ReadFloors(s, at, types, anchor, rect, zs).value;
      Sound(floors, anchor, rect) && Levels(floors) == zs
  {
    hide ScanFloors;
    ScanFloorsShape(s, at, types, anchor, rect, zs, FloorsState(0, []));
    assert Levels([]) + zs == zs;
  }

  // ---- the server's bytes --------------------------------------------------------------------

  lemma {:induction false} DescribedTilesShow(ps: seq<MapPosition>, fields: Fields, p: MapPosition)
    requires DistinctPositions(ps)
    ensures DistinctTiles(DescribedTiles(ps, fields)) && Occupied(DescribedTiles(ps, fields))
    ensures From(DescribedTiles(ps, fields), ps)
    ensures TileStack(DescribedTiles(ps, fields), p) == if p in ps then Shown(fields(p)) else []
    decreases |ps|
  {
    hide TileStack, Shown, DistinctTiles, Occupied, From, DistinctPositions;
    if ps == [] {
      NoTiles(p);
    } else {
      TailDistinct(ps);
      DescribedTilesShow(ps[1..], fields, p);
      var rest := DescribedTiles(ps[1..], fields);
      assert p in ps <==> p == ps[0] || p in ps[1..];
      FromTail(rest, ps);
      if fields(ps[0]) == [] {
        assert Shown(fields(ps[0])) == [] by { TenOfNone(fields(ps[0])); }
      } else {
        var tile := MapTile(ps[0], Shown(fields(ps[0])));
        TenOfSome(fields(ps[0]));
        ConsTile(tile, rest, ps);
        ConsStack(tile, rest, p);
      }
    }
  }

  lemma NoTiles(p: MapPosition)
    ensures DistinctTiles([]) && Occupied([]) && From([], []) && TileStack([], p) == []
  {
  }

  lemma TenOfNone(things: seq<MapThing>)
    requires things == []
    ensures Shown(things) == []
  {
  }

  lemma TenOfSome(things: seq<MapThing>)
    requires things != []
    ensures Shown(things) != []
  {
  }

  lemma TailDistinct(ps: seq<MapPosition>)
    requires ps != [] && DistinctPositions(ps)
    ensures DistinctPositions(ps[1..]) && ps[0] !in ps[1..]
  {
  }

  lemma FromTail(tiles: seq<MapTile>, ps: seq<MapPosition>)
    requires ps != [] && From(tiles, ps[1..])
    ensures From(tiles, ps)
  {
  }

  lemma ConsTile(tile: MapTile, rest: seq<MapTile>, ps: seq<MapPosition>)
    requires ps != [] && tile.position == ps[0] && ps[0] !in ps[1..] && tile.things != []
    requires From(rest, ps[1..]) && DistinctTiles(rest) && Occupied(rest)
    ensures From([tile] + rest, ps) && DistinctTiles([tile] + rest) && Occupied([tile] + rest)
  {
  }

  lemma ConsStack(tile: MapTile, rest: seq<MapTile>, p: MapPosition)
    ensures TileStack([tile] + rest, p) == if p == tile.position then tile.things else TileStack(rest, p)
  {
    var all := [tile] + rest;
    var k := TileIndex(rest, p);
    assert all[0] == tile;
    if p != tile.position {
      var j := TileIndex(all, p);
      assert j < |all| ==> all[j] == rest[j - 1];
      if k < |rest| { assert all[k + 1] == rest[k]; }
      assert forall i :: 1 <= i < |all| ==> all[i] == rest[i - 1];
    }
  }

  /** The floors the server described show exactly the described fields, at most ten objects
      each. */
  lemma DescribedFloorsShow(anchor: MapPosition, rect: Rect, zs: seq<int>, fields: Fields, p: MapPosition)
    requires DistinctLevels(zs)
    ensures StackAt(DescribedFloors(anchor, rect, zs, fields), p)
      == if p.z in zs && InShiftedRect(anchor, rect, p) then Shown(fields(p)) else []
  {
    hide TileIndex, FloorFrom, RectOn, DescribedTiles, InShiftedRect, Shown;
    var floors := DescribedFloors(anchor, rect, zs, fields);
    RectOnShape(anchor, rect, p.z);
    DescribedTilesShow(RectOn(anchor, rect, p.z), fields, p);
    if p.z in zs {
      var i :| 0 <= i < |zs| && zs[i] == p.z;
      assert floors[i].z == p.z;
    }
    var j := FloorIndex(floors, p.z);
    if j < |floors| { assert zs[j] == p.z; }
  }

  lemma DescribedFloorsGood(anchor: MapPosition, rect: Rect, zs: seq<int>, fields: Fields)
    requires DistinctLevels(zs)
    ensures var floors := DescribedFloors(anchor, rect, zs, fields);
      WellFormed(floors) && Levels(floors) == zs && Anchored(floors, anchor)
  {
    hide RectOn, DescribedTiles, DistinctTiles, Occupied, TileStack;
    var floors := DescribedFloors(anchor, rect, zs, fields);
    forall i | 0 <= i < |floors| ensures GoodFloor(floors[i]) && Occupied(floors[i].tiles) {
      RectOnShape(anchor, rect, zs[i]);
      DescribedTilesShow(RectOn(anchor, rect, zs[i]), fields, anchor);
    }
    assert DistinctFloors(floors);
  }
}
