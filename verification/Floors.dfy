/** The stored floors of the mirror and what each edit does to them. Every function here
    is the value a loop of clientcore/src/movement.cpp computes in place; `StackAt` is what
    a reader of the mirror sees, and the lemmas say how it changes. */
module Floors {
  import opened World
  import opened Viewport

  function FloorIndex(floors: seq<MapFloor>, z: int): (index: nat)
    ensures index <= |floors|
    ensures index < |floors| ==> floors[index].z == z
    ensures forall i :: 0 <= i < index ==> floors[i].z != z
  {
    FloorFrom(floors, z, 0)
  }

  function FloorFrom(floors: seq<MapFloor>, z: int, from: nat): (index: nat)
    requires from <= |floors|
    ensures from <= index <= |floors|
    ensures index < |floors| ==> floors[index].z == z
    ensures forall i :: from <= i < index ==> floors[i].z != z
    decreases |floors| - from
  {
    if from == |floors| || floors[from].z == z then from else FloorFrom(floors, z, from + 1)
  }

  function TileIndex(tiles: seq<MapTile>, p: MapPosition): (index: nat)
    ensures index <= |tiles|
    ensures index < |tiles| ==> tiles[index].position == p
    ensures forall i :: 0 <= i < index ==> tiles[i].position != p
  {
    TileFrom(tiles, p, 0)
  }

  function TileFrom(tiles: seq<MapTile>, p: MapPosition, from: nat): (index: nat)
    requires from <= |tiles|
    ensures from <= index <= |tiles|
    ensures index < |tiles| ==> tiles[index].position == p
    ensures forall i :: from <= i < index ==> tiles[i].position != p
    decreases |tiles| - from
  {
    if from == |tiles| || tiles[from].position == p then from else TileFrom(tiles, p, from + 1)
  }

  function TileStack(tiles: seq<MapTile>, p: MapPosition): seq<MapThing> {
    var i := TileIndex(tiles, p);
    if i < |tiles| then tiles[i].things else []
  }

  /** The things on field `p`, in stack order; a field that is not stored is empty. */
  function StackAt(floors: seq<MapFloor>, p: MapPosition): seq<MapThing> {
    var i := FloorIndex(floors, p.z);
    if i < |floors| then TileStack(floors[i].tiles, p) else []
  }

  function Levels(floors: seq<MapFloor>): (zs: seq<int>)
    ensures |zs| == |floors|
  {
    seq(|floors|, i requires 0 <= i < |floors| => floors[i].z)
  }

  ghost predicate DistinctTiles(tiles: seq<MapTile>) {
    forall i, j :: 0 <= i < j < |tiles| ==> tiles[i].position != tiles[j].position
  }

  ghost predicate TilesOn(tiles: seq<MapTile>, z: int) {
    forall i :: 0 <= i < |tiles| ==> tiles[i].position.z == z
  }

  ghost predicate Occupied(tiles: seq<MapTile>) {
    forall i :: 0 <= i < |tiles| ==> tiles[i].things != []
  }

  ghost predicate DistinctFloors(floors: seq<MapFloor>) {
    forall i, j :: 0 <= i < j < |floors| ==> floors[i].z != floors[j].z
  }

  ghost predicate GoodFloor(floor: MapFloor) {
    DistinctTiles(floor.tiles) && TilesOn(floor.tiles, floor.z)
  }

  /** One floor per level, one tile per position, each tile on its own floor. */
  ghost predicate Indexed(floors: seq<MapFloor>) {
    DistinctFloors(floors) && forall i :: 0 <= i < |floors| ==> GoodFloor(floors[i])
  }

  /** Additionally no stored tile is empty. */
  ghost predicate WellFormed(floors: seq<MapFloor>) {
    Indexed(floors) && forall i :: 0 <= i < |floors| ==> Occupied(floors[i].tiles)
  }

  ghost predicate InsideViewport(floors: seq<MapFloor>, anchor: MapPosition) {
    forall i, j :: 0 <= i < |floors| && 0 <= j < |floors[i].tiles| ==> InView(anchor, floors[i].tiles[j].position)
  }

  lemma TileStackAt(tiles: seq<MapTile>, i: nat)
    requires DistinctTiles(tiles) && i < |tiles|
    ensures TileIndex(tiles, tiles[i].position) == i
    ensures TileStack(tiles, tiles[i].position) == tiles[i].things
  {
  }

  // ---- merging what a command delivered -------------------------------------------

  function PutTile(tiles: seq<MapTile>, tile: MapTile): seq<MapTile> {
    var i := TileIndex(tiles, tile.position);
    if i < |tiles| then tiles[i := tile] else tiles + [tile]
  }

  function PutTiles(tiles: seq<MapTile>, incoming: seq<MapTile>, n: nat): seq<MapTile>
    requires n <= |incoming|
  {
    if n == 0 then tiles else PutTile(PutTiles(tiles, incoming, n - 1), incoming[n - 1])
  }

  function EnsureFloor(floors: seq<MapFloor>, z: int, offset: int): seq<MapFloor> {
    var i := FloorIndex(floors, z);
    if i < |floors| then floors[i := floors[i].(offset := offset)]
    else floors + [MapFloor(z, offset, [])]
  }

  function SetTiles(floors: seq<MapFloor>, z: int, tiles: seq<MapTile>): seq<MapFloor> {
    var i := FloorIndex(floors, z);
    if i < |floors| then floors[i := floors[i].(tiles := tiles)] else floors
  }

  function MergeFloor(floors: seq<MapFloor>, incoming: MapFloor, anchor: MapPosition): seq<MapFloor> {
    var held := EnsureFloor(floors, incoming.z, anchor.z - incoming.z);
    var i := FloorIndex(held, incoming.z);
    if i < |held| then SetTiles(held, incoming.z, PutTiles(held[i].tiles, incoming.tiles, |incoming.tiles|))
    else held
  }

  function MergeFloors(floors: seq<MapFloor>, incoming: seq<MapFloor>, n: nat, anchor: MapPosition): seq<MapFloor>
    requires n <= |incoming|
  {
    if n == 0 then floors
    else MergeFloor(MergeFloors(floors, incoming, n - 1, anchor), incoming[n - 1], anchor)
  }

  lemma PutTileGood(tiles: seq<MapTile>, tile: MapTile, z: int)
    requires DistinctTiles(tiles) && TilesOn(tiles, z) && tile.position.z == z
    ensures DistinctTiles(PutTile(tiles, tile)) && TilesOn(PutTile(tiles, tile), z)
    ensures Occupied(tiles) && tile.things != [] ==> Occupied(PutTile(tiles, tile))
  {
  }

  lemma PutTileAt(tiles: seq<MapTile>, tile: MapTile, p: MapPosition)
    requires DistinctTiles(tiles) && DistinctTiles(PutTile(tiles, tile))
    ensures TileStack(PutTile(tiles, tile), p) == if p == tile.position then tile.things else TileStack(tiles, p)
  {
    var after := PutTile(tiles, tile);
    var k := TileIndex(tiles, p);
    if p == tile.position {
      TileStackAt(after, TileIndex(tiles, p));
    } else if k < |tiles| {
      assert after[k] == tiles[k];
      TileStackAt(after, k);
    }
  }

  lemma {:induction false} PutTilesGood(tiles: seq<MapTile>, incoming: seq<MapTile>, n: nat, z: int)
    requires DistinctTiles(tiles) && TilesOn(tiles, z) && TilesOn(incoming, z) && n <= |incoming|
    ensures DistinctTiles(PutTiles(tiles, incoming, n)) && TilesOn(PutTiles(tiles, incoming, n), z)
    ensures Occupied(tiles) && Occupied(incoming) ==> Occupied(PutTiles(tiles, incoming, n))
  {
    if n > 0 {
      PutTilesGood(tiles, incoming, n - 1, z);
      PutTileGood(PutTiles(tiles, incoming, n - 1), incoming[n - 1], z);
    }
  }

  lemma {:induction false} PutTilesAt(tiles: seq<MapTile>, incoming: seq<MapTile>, n: nat, z: int, p: MapPosition)
    requires DistinctTiles(tiles) && TilesOn(tiles, z) && TilesOn(incoming, z)
    requires DistinctTiles(incoming) && n <= |incoming|
    ensures TileStack(PutTiles(tiles, incoming, n), p)
      == if TileIndex(incoming, p) < n then TileStack(incoming, p) else TileStack(tiles, p)
  {
    hide TileIndex, PutTile;
    if n > 0 {
      PutTilesAt(tiles, incoming, n - 1, z, p);
      PutTilesGood(tiles, incoming, n - 1, z);
      PutTilesGood(tiles, incoming, n, z);
      PutTileAt(PutTiles(tiles, incoming, n - 1), incoming[n - 1], p);
      TileStackAt(incoming, n - 1);
    }
  }

  lemma StackOnFloor(floors: seq<MapFloor>, i: nat, p: MapPosition)
    requires DistinctFloors(floors) && i < |floors| && floors[i].z == p.z
    ensures FloorIndex(floors, p.z) == i
    ensures StackAt(floors, p) == TileStack(floors[i].tiles, p)
  {
  }

  predicate HasLevel(floors: seq<MapFloor>, z: int) {
    FloorIndex(floors, z) < |floors|
  }

  lemma SetTilesGood(floors: seq<MapFloor>, z: int, tiles: seq<MapTile>)
    requires Indexed(floors) && DistinctTiles(tiles) && TilesOn(tiles, z)
    ensures Indexed(SetTiles(floors, z, tiles))
    ensures WellFormed(floors) && Occupied(tiles) ==> WellFormed(SetTiles(floors, z, tiles))
  {
  }

  lemma SetTilesLevel(floors: seq<MapFloor>, z: int, tiles: seq<MapTile>, l: int)
    ensures FloorIndex(SetTiles(floors, z, tiles), l) == FloorIndex(floors, l)
    ensures |SetTiles(floors, z, tiles)| == |floors|
  {
    var k := FloorIndex(floors, l);
    if k < |floors| { assert SetTiles(floors, z, tiles)[k].z == l; }
  }

  lemma SetTilesAt(floors: seq<MapFloor>, z: int, tiles: seq<MapTile>, p: MapPosition)
    requires HasLevel(floors, z)
    ensures StackAt(SetTiles(floors, z, tiles), p) == if p.z == z then TileStack(tiles, p) else StackAt(floors, p)
  {
    SetTilesLevel(floors, z, tiles, p.z);
  }

  lemma EnsureFloorGood(floors: seq<MapFloor>, z: int, offset: int)
    requires Indexed(floors)
    ensures Indexed(EnsureFloor(floors, z, offset))
    ensures WellFormed(floors) ==> WellFormed(EnsureFloor(floors, z, offset))
  {
  }

  lemma EnsureFloorLevel(floors: seq<MapFloor>, z: int, offset: int, l: int)
    ensures FloorIndex(EnsureFloor(floors, z, offset), l)
      == if HasLevel(floors, l) || l == z then FloorIndex(floors, l) else |EnsureFloor(floors, z, offset)|
    ensures HasLevel(EnsureFloor(floors, z, offset), l) <==> HasLevel(floors, l) || l == z
  {
    var after := EnsureFloor(floors, z, offset);
    var i := FloorIndex(floors, z);
    var k := FloorIndex(floors, l);
    if k < |floors| { assert after[k].z == l; }
    assert after[i].z == z;
  }

  lemma EnsureFloorAt(floors: seq<MapFloor>, z: int, offset: int, p: MapPosition)
    ensures StackAt(EnsureFloor(floors, z, offset), p) == StackAt(floors, p)
  {
    EnsureFloorLevel(floors, z, offset, p.z);
  }

  lemma MergeFloorGood(floors: seq<MapFloor>, incoming: MapFloor, anchor: MapPosition)
    requires WellFormed(floors) && GoodFloor(incoming) && Occupied(incoming.tiles)
    ensures WellFormed(MergeFloor(floors, incoming, anchor))
  {
    hide FloorIndex, TileIndex, EnsureFloor, SetTiles, PutTiles;
    EnsureFloorGood(floors, incoming.z, anchor.z - incoming.z);
    var held := EnsureFloor(floors, incoming.z, anchor.z - incoming.z);
    var i := FloorIndex(held, incoming.z);
    if i < |held| {
      PutTilesGood(held[i].tiles, incoming.tiles, |incoming.tiles|, incoming.z);
      SetTilesGood(held, incoming.z, PutTiles(held[i].tiles, incoming.tiles, |incoming.tiles|));
    }
  }

  lemma MergeFloorLevel(floors: seq<MapFloor>, incoming: MapFloor, anchor: MapPosition, l: int)
    ensures HasLevel(MergeFloor(floors, incoming, anchor), l) <==> HasLevel(floors, l) || l == incoming.z
  {
    hide FloorIndex, EnsureFloor, SetTiles, PutTiles;
    EnsureFloorLevel(floors, incoming.z, anchor.z - incoming.z, l);
    var held := EnsureFloor(floors, incoming.z, anchor.z - incoming.z);
    var i := FloorIndex(held, incoming.z);
    if i < |held| {
      SetTilesLevel(held, incoming.z, PutTiles(held[i].tiles, incoming.tiles, |incoming.tiles|), l);
    }
  }

  lemma MergeFloorAt(floors: seq<MapFloor>, incoming: MapFloor, anchor: MapPosition, p: MapPosition)
    requires WellFormed(floors) && GoodFloor(incoming) && Occupied(incoming.tiles)
    ensures StackAt(MergeFloor(floors, incoming, anchor), p)
      == if p.z == incoming.z && TileStack(incoming.tiles, p) != [] then TileStack(incoming.tiles, p)
        else StackAt(floors, p)
  {
    hide FloorIndex, TileIndex, EnsureFloor, SetTiles, PutTiles;
    EnsureFloorGood(floors, incoming.z, anchor.z - incoming.z);
    EnsureFloorLevel(floors, incoming.z, anchor.z - incoming.z, incoming.z);
    EnsureFloorAt(floors, incoming.z, anchor.z - incoming.z, p);
    var held := EnsureFloor(floors, incoming.z, anchor.z - incoming.z);
    var i := FloorIndex(held, incoming.z);
    PutTilesAt(held[i].tiles, incoming.tiles, |incoming.tiles|, incoming.z, p);
    SetTilesAt(held, incoming.z, PutTiles(held[i].tiles, incoming.tiles, |incoming.tiles|), p);
  }

  lemma {:induction false} MergeFloorsGood(floors: seq<MapFloor>, incoming: seq<MapFloor>, n: nat, anchor: MapPosition)
    requires WellFormed(floors) && WellFormed(incoming) && n <= |incoming|
    ensures WellFormed(MergeFloors(floors, incoming, n, anchor))
  {
    hide MergeFloor, GoodFloor, Occupied;
    if n > 0 {
      MergeFloorsGood(floors, incoming, n - 1, anchor);
      MergeFloorGood(MergeFloors(floors, incoming, n - 1, anchor), incoming[n - 1], anchor);
    }
  }

  lemma {:induction false} MergeFloorsLevel(
      floors: seq<MapFloor>, incoming: seq<MapFloor>, n: nat, anchor: MapPosition, l: int)
    requires n <= |incoming|
    ensures HasLevel(MergeFloors(floors, incoming, n, anchor), l) <==>
      HasLevel(floors, l) || FloorIndex(incoming, l) < n
  {
    hide FloorIndex, MergeFloor;
    if n > 0 {
      MergeFloorsLevel(floors, incoming, n - 1, anchor, l);
      MergeFloorLevel(MergeFloors(floors, incoming, n - 1, anchor), incoming[n - 1], anchor, l);
    }
  }

  /** Merging replaces what was delivered and keeps everything else. */
  lemma {:induction false} MergeFloorsAt(
      floors: seq<MapFloor>, incoming: seq<MapFloor>, n: nat, anchor: MapPosition, p: MapPosition)
    requires WellFormed(floors) && WellFormed(incoming) && n <= |incoming|
    ensures StackAt(MergeFloors(floors, incoming, n, anchor), p)
      == if FloorIndex(incoming, p.z) < n && StackAt(incoming, p) != [] then StackAt(incoming, p)
        else StackAt(floors, p)
  {
    hide FloorIndex, TileIndex, MergeFloor, TileStack;
    if n > 0 {
      MergeFloorsAt(floors, incoming, n - 1, anchor, p);
      MergeFloorsGood(floors, incoming, n - 1, anchor);
      MergeFloorAt(MergeFloors(floors, incoming, n - 1, anchor), incoming[n - 1], anchor, p);
      if p.z == incoming[n - 1].z { StackOnFloor(incoming, n - 1, p); }
    }
  }

  // ---- pruning to the anchor --------------------------------------------------------

  function KeepWithin(tiles: seq<MapTile>, anchor: MapPosition, n: nat): seq<MapTile>
    requires n <= |tiles|
  {
    if n == 0 then [] else
      var kept := KeepWithin(tiles, anchor, n - 1);
      if WithinFloorWindow(anchor, tiles[n - 1].position) then kept + [tiles[n - 1]] else kept
  }

  function PruneFloor(floor: MapFloor, anchor: MapPosition): MapFloor {
    MapFloor(floor.z, anchor.z - floor.z, KeepWithin(floor.tiles, anchor, |floor.tiles|))
  }

  function PruneFloors(floors: seq<MapFloor>, anchor: MapPosition, n: nat): seq<MapFloor>
    requires n <= |floors|
  {
    if n == 0 then [] else
      var kept := PruneFloors(floors, anchor, n - 1);
      var floor := floors[n - 1];
      if InRange(ViewportFloorRange(anchor.z), floor.z) then kept + [PruneFloor(floor, anchor)] else kept
  }

  predicate Precedes(a: int, b: int, step: int) {
    if step < 0 then a > b else a < b
  }

  function InsertFloor(sorted: seq<MapFloor>, floor: MapFloor, step: int): seq<MapFloor> {
    if sorted == [] || Precedes(floor.z, sorted[0].z, step) then [floor] + sorted
    else [sorted[0]] + InsertFloor(sorted[1..], floor, step)
  }

  /** What the library sort computes for floors of distinct levels. */
  function SortFloors(floors: seq<MapFloor>, step: int): seq<MapFloor> {
    if floors == [] then [] else InsertFloor(SortFloors(floors[1..], step), floors[0], step)
  }

  function Prune(floors: seq<MapFloor>, anchor: MapPosition): seq<MapFloor> {
    SortFloors(PruneFloors(floors, anchor, |floors|), ViewportFloorRange(anchor.z).step)
  }

  ghost predicate SortedFloors(floors: seq<MapFloor>, step: int) {
    forall i, j :: 0 <= i < j < |floors| ==> Precedes(floors[i].z, floors[j].z, step)
  }

  lemma {:induction false} InsertFloorSorts(sorted: seq<MapFloor>, floor: MapFloor, step: int)
    requires SortedFloors(sorted, step) && forall f :: f in sorted ==> f.z != floor.z
    ensures SortedFloors(InsertFloor(sorted, floor, step), step)
    ensures forall f :: f in InsertFloor(sorted, floor, step) <==> f == floor || f in sorted
  {
    if sorted != [] && !Precedes(floor.z, sorted[0].z, step) {
      InsertFloorSorts(sorted[1..], floor, step);
      var rest := InsertFloor(sorted[1..], floor, step);
      forall j | 0 <= j < |rest| ensures Precedes(sorted[0].z, rest[j].z, step) {
        assert rest[j] in rest;
        if rest[j] == floor {
          assert sorted[0] in sorted;
        } else {
          var k :| 0 <= k < |sorted[1..]| && sorted[1..][k] == rest[j];
          assert sorted[k + 1] == rest[j];
        }
      }
      assert sorted == [sorted[0]] + sorted[1..];
    }
  }

  lemma {:induction false} SortFloorsSorts(floors: seq<MapFloor>, step: int)
    requires DistinctFloors(floors)
    ensures SortedFloors(SortFloors(floors, step), step)
    ensures forall f :: f in SortFloors(floors, step) <==> f in floors
  {
    if floors != [] {
      SortFloorsSorts(floors[1..], step);
      forall f | f in floors[1..] ensures f.z != floors[0].z {
        var k :| 0 <= k < |floors[1..]| && floors[1..][k] == f;
        assert floors[k + 1] == f;
      }
      InsertFloorSorts(SortFloors(floors[1..], step), floors[0], step);
      assert floors == [floors[0]] + floors[1..];
    }
  }

  /** The stacks depend on which floors are stored, not on their order. */
  lemma SameFloorsAt(a: seq<MapFloor>, b: seq<MapFloor>, p: MapPosition)
    requires DistinctFloors(a) && DistinctFloors(b)
    requires forall f :: f in a <==> f in b
    ensures StackAt(a, p) == StackAt(b, p)
    ensures HasLevel(a, p.z) <==> HasLevel(b, p.z)
  {
    var i := FloorIndex(a, p.z);
    var j := FloorIndex(b, p.z);
    if j < |b| { assert b[j] in a; }
    if i < |a| {
      assert a[i] in b;
      var k :| 0 <= k < |b| && b[k] == a[i];
      StackOnFloor(b, k, p);
    }
  }

  lemma {:induction false} KeepWithinTiles(tiles: seq<MapTile>, anchor: MapPosition, n: nat)
    requires DistinctTiles(tiles) && n <= |tiles|
    ensures DistinctTiles(KeepWithin(tiles, anchor, n))
    ensures forall t :: t in KeepWithin(tiles, anchor, n) <==> t in tiles[..n] && WithinFloorWindow(anchor, t.position)
  {
    if n > 0 {
      KeepWithinTiles(tiles, anchor, n - 1);
      var kept := KeepWithin(tiles, anchor, n - 1);
      assert tiles[..n] == tiles[..n - 1] + [tiles[n - 1]];
      forall j | 0 <= j < |kept| ensures kept[j].position != tiles[n - 1].position {
        assert kept[j] in kept;
        var k :| 0 <= k < n - 1 && tiles[..n - 1][k] == kept[j];
      }
    }
  }

  lemma KeepWithinGood(tiles: seq<MapTile>, anchor: MapPosition, z: int)
    requires DistinctTiles(tiles) && TilesOn(tiles, z)
    ensures var kept := KeepWithin(tiles, anchor, |tiles|);
      && DistinctTiles(kept) && TilesOn(kept, z) && (Occupied(tiles) ==> Occupied(kept))
      && forall i :: 0 <= i < |kept| ==> WithinFloorWindow(anchor, kept[i].position)
  {
    KeepWithinTiles(tiles, anchor, |tiles|);
    var kept := KeepWithin(tiles, anchor, |tiles|);
    forall i | 0 <= i < |kept| ensures kept[i] in tiles && WithinFloorWindow(anchor, kept[i].position) {
      assert kept[i] in kept;
    }
  }

  lemma KeepWithinAt(tiles: seq<MapTile>, anchor: MapPosition, p: MapPosition)
    requires DistinctTiles(tiles)
    ensures TileStack(KeepWithin(tiles, anchor, |tiles|), p) == if WithinFloorWindow(anchor, p) then TileStack(tiles, p)
      else []
  {
    KeepWithinTiles(tiles, anchor, |tiles|);
    assert tiles[..|tiles|] == tiles;
    var kept := KeepWithin(tiles, anchor, |tiles|);
    var i := TileIndex(kept, p);
    var j := TileIndex(tiles, p);
    if j < |tiles| && WithinFloorWindow(anchor, p) { assert tiles[j] in kept; }
    if i < |kept| {
      assert kept[i] in kept;
      var k :| 0 <= k < |tiles| && tiles[k] == kept[i];
      TileStackAt(tiles, k);
    }
  }

  lemma {:induction false} PruneFloorsFloors(floors: seq<MapFloor>, anchor: MapPosition, n: nat)
    requires DistinctFloors(floors) && n <= |floors|
    ensures DistinctFloors(PruneFloors(floors, anchor, n))
    ensures forall i :: 0 <= i < n && InRange(ViewportFloorRange(anchor.z), floors[i].z) ==>
      PruneFloor(floors[i], anchor) in PruneFloors(floors, anchor, n)
    ensures forall f :: f in PruneFloors(floors, anchor, n) ==>
      exists i :: 0 <= i < n && InRange(ViewportFloorRange(anchor.z), floors[i].z) && f == PruneFloor(floors[i], anchor)
  {
    if n > 0 {
      PruneFloorsFloors(floors, anchor, n - 1);
      var kept := PruneFloors(floors, anchor, n - 1);
      forall j | 0 <= j < |kept| ensures kept[j].z != floors[n - 1].z {
        assert kept[j] in kept;
      }
    }
  }

  /** The floors carry the offsets the anchor implies. */
  ghost predicate Anchored(floors: seq<MapFloor>, anchor: MapPosition) {
    forall i :: 0 <= i < |floors| ==> floors[i].offset == anchor.z - floors[i].z
  }

  lemma PruneFloorsGood(floors: seq<MapFloor>, anchor: MapPosition)
    requires WellFormed(floors)
    ensures var kept := PruneFloors(floors, anchor, |floors|);
      WellFormed(kept) && Anchored(kept, anchor) && InsideViewport(kept, anchor)
  {
    hide PruneFloors, KeepWithin, InRange, ViewportFloorRange, WithinFloorWindow;
    PruneFloorsFloors(floors, anchor, |floors|);
    var kept := PruneFloors(floors, anchor, |floors|);
    forall j | 0 <= j < |kept|
      ensures GoodFloor(kept[j]) && Occupied(kept[j].tiles) && kept[j].offset == anchor.z - kept[j].z
      ensures forall k :: 0 <= k < |kept[j].tiles| ==> InView(anchor, kept[j].tiles[k].position)
    {
      assert kept[j] in kept;
      var i :| 0 <= i < |floors| && InRange(ViewportFloorRange(anchor.z), floors[i].z)
        && kept[j] == PruneFloor(floors[i], anchor);
      KeepWithinGood(floors[i].tiles, anchor, floors[i].z);
    }
  }

  lemma PruneFloorsAt(floors: seq<MapFloor>, anchor: MapPosition, p: MapPosition)
    requires WellFormed(floors)
    ensures StackAt(PruneFloors(floors, anchor, |floors|), p) == if InView(anchor, p) then StackAt(floors, p) else []
    ensures HasLevel(PruneFloors(floors, anchor, |floors|), p.z)
      <==> InRange(ViewportFloorRange(anchor.z), p.z) && HasLevel(floors, p.z)
  {
    hide PruneFloors, KeepWithin, InRange, ViewportFloorRange, WithinFloorWindow, FloorFrom, TileStack;
    PruneFloorsFloors(floors, anchor, |floors|);
    var kept := PruneFloors(floors, anchor, |floors|);
    var i := FloorIndex(floors, p.z);
    var j := FloorIndex(kept, p.z);
    if i < |floors| && InRange(ViewportFloorRange(anchor.z), p.z) {
      assert PruneFloor(floors[i], anchor) in kept;
    }
    if j < |kept| {
      assert kept[j] in kept;
      var k :| 0 <= k < |floors| && InRange(ViewportFloorRange(anchor.z), floors[k].z)
        && kept[j] == PruneFloor(floors[k], anchor);
      StackOnFloor(floors, k, p);
      KeepWithinAt(floors[k].tiles, anchor, p);
    }
  }

  /** What pruning leaves: well-formed, anchored, inside the viewport, in emission order. */
  lemma PruneGood(floors: seq<MapFloor>, anchor: MapPosition)
    requires WellFormed(floors)
    ensures var pruned := Prune(floors, anchor);
      && WellFormed(pruned) && Anchored(pruned, anchor) && InsideViewport(pruned, anchor)
      && SortedFloors(pruned, ViewportFloorRange(anchor.z).step)
  {
    hide PruneFloors, InView, ViewportFloorRange, SortFloors, Precedes;
    PruneFloorsGood(floors, anchor);
    var kept := PruneFloors(floors, anchor, |floors|);
    var step := ViewportFloorRange(anchor.z).step;
    SortFloorsSorts(kept, step);
    SortedIsDistinct(Prune(floors, anchor), step);
    forall i | 0 <= i < |Prune(floors, anchor)| ensures Prune(floors, anchor)[i] in kept {
      assert Prune(floors, anchor)[i] in Prune(floors, anchor);
    }
  }

  lemma SortedIsDistinct(floors: seq<MapFloor>, step: int)
    requires SortedFloors(floors, step)
    ensures DistinctFloors(floors)
  {
  }

  /** Pruning forgets exactly what is out of view. */
  lemma PruneAt(floors: seq<MapFloor>, anchor: MapPosition, p: MapPosition)
    requires WellFormed(floors)
    ensures StackAt(Prune(floors, anchor), p) == if InView(anchor, p) then StackAt(floors, p) else []
    ensures HasLevel(Prune(floors, anchor), p.z) <==>
      InRange(ViewportFloorRange(anchor.z), p.z) && HasLevel(floors, p.z)
  {
    hide InView, ViewportFloorRange, SortFloors, FloorIndex, InRange;
    PruneFloorsAt(floors, anchor, p);
    PruneFloorsGood(floors, anchor);
    PruneGood(floors, anchor);
    SortFloorsSorts(PruneFloors(floors, anchor, |floors|), ViewportFloorRange(anchor.z).step);
    SameFloorsAt(Prune(floors, anchor), PruneFloors(floors, anchor, |floors|), p);
  }

  /** Two strictly sorted level lists with the same members are the same list. */
  lemma {:induction false} SortedLevelsEqual(a: seq<int>, b: seq<int>, step: int)
    requires forall i, j :: 0 <= i < j < |a| ==> Precedes(a[i], a[j], step)
    requires forall i, j :: 0 <= i < j < |b| ==> Precedes(b[i], b[j], step)
    requires forall i :: 0 <= i < |a| ==> a[i] in b
    requires forall i :: 0 <= i < |b| ==> b[i] in a
    ensures a == b
  {
    assert |a| > 0 ==> a[0] in b;
    assert |b| > 0 ==> b[0] in a;
    if a != [] && b != [] {
      assert a[0] == b[0];
      TailCovers(a, b, step);
      TailCovers(b, a, step);
      SortedLevelsEqual(a[1..], b[1..], step);
      assert a == [a[0]] + a[1..] && b == [b[0]] + b[1..];
    }
  }

  lemma TailCovers(a: seq<int>, b: seq<int>, step: int)
    requires forall i, j :: 0 <= i < j < |a| ==> Precedes(a[i], a[j], step)
    requires a != [] && b != [] && a[0] == b[0]
    requires forall i :: 0 <= i < |a| ==> a[i] in b
    ensures forall i :: 0 <= i < |a[1..]| ==> a[1..][i] in b[1..]
  {
    forall i | 0 <= i < |a[1..]| ensures a[1..][i] in b[1..] {
      var j :| 0 <= j < |b| && b[j] == a[i + 1];
      assert Precedes(a[0], a[i + 1], step);
      assert b[1..][j - 1] == a[i + 1];
    }
  }

  /** When every floor of the range is held, pruning lists the floors in the order a
      snapshot emits them. */
  lemma PruneLevels(floors: seq<MapFloor>, anchor: MapPosition)
    requires WellFormed(floors) && ValidAnchor(anchor)
    requires forall z :: InRange(ViewportFloorRange(anchor.z), z) ==> HasLevel(floors, z)
    ensures Levels(Prune(floors, anchor)) == FloorsOf(ViewportFloorRange(anchor.z))
  {
    var pruned := Prune(floors, anchor);
    var range := ViewportFloorRange(anchor.z);
    hide Prune, InView, ViewportFloorRange, FloorFrom, InRange;
    PruneGood(floors, anchor);
    forall z ensures z in Levels(pruned) <==> z in FloorsOf(range) {
      PruneAt(floors, anchor, MapPosition(0, 0, z));
      if z in Levels(pruned) {
        var i :| 0 <= i < |pruned| && Levels(pruned)[i] == z;
        assert pruned[i].z == z;
        StackOnFloor(pruned, i, MapPosition(0, 0, z));
      }
      if HasLevel(pruned, z) { assert Levels(pruned)[FloorIndex(pruned, z)] == z; }
    }
    SortedLevelsEqual(Levels(pruned), FloorsOf(range), range.step);
  }

  // ---- editing one field --------------------------------------------------------------

  predicate HasTile(floors: seq<MapFloor>, p: MapPosition) {
    HasLevel(floors, p.z)
    && TileIndex(floors[FloorIndex(floors, p.z)].tiles, p) < |floors[FloorIndex(floors, p.z)].tiles|
  }

  function TilesAt(floors: seq<MapFloor>, z: int): seq<MapTile> {
    if HasLevel(floors, z) then floors[FloorIndex(floors, z)].tiles else []
  }

  function EnsureTile(floors: seq<MapFloor>, p: MapPosition, anchor: MapPosition): seq<MapFloor> {
    if HasTile(floors, p) then floors else
      var held := EnsureFloor(floors, p.z, anchor.z - p.z);
      SetTiles(held, p.z, TilesAt(held, p.z) + [MapTile(p, [])])
  }

  function SetThings(floors: seq<MapFloor>, p: MapPosition, things: seq<MapThing>): seq<MapFloor>
    requires HasTile(floors, p)
  {
    var tiles := TilesAt(floors, p.z);
    SetTiles(floors, p.z, tiles[TileIndex(tiles, p) := MapTile(p, things)])
  }

  function RemoveTileIfEmpty(floors: seq<MapFloor>, p: MapPosition): seq<MapFloor> {
    if !HasTile(floors, p) || StackAt(floors, p) != [] then floors else
      var tiles := TilesAt(floors, p.z);
      var i := TileIndex(tiles, p);
      SetTiles(floors, p.z, tiles[..i] + tiles[i + 1..])
  }

  /** Writing one field: make room for it, replace its stack, and drop it again when the
      stack is empty. */
  function WriteField(
      floors: seq<MapFloor>, p: MapPosition, things: seq<MapThing>, anchor: MapPosition): seq<MapFloor>
  {
    EnsureTileHas(floors, p, anchor);
    RemoveTileIfEmpty(SetThings(EnsureTile(floors, p, anchor), p, things), p)
  }

  lemma EnsureTileHas(floors: seq<MapFloor>, p: MapPosition, anchor: MapPosition)
    ensures HasTile(EnsureTile(floors, p, anchor), p)
  {
    if !HasTile(floors, p) {
      hide EnsureFloor, SetTiles, FloorFrom;
      EnsureFloorLevel(floors, p.z, anchor.z - p.z, p.z);
      var held := EnsureFloor(floors, p.z, anchor.z - p.z);
      var grown := TilesAt(held, p.z) + [MapTile(p, [])];
      SetTilesHolds(held, p.z, grown);
      assert grown[|grown| - 1].position == p;
    }
  }

  lemma SetTilesHolds(floors: seq<MapFloor>, z: int, tiles: seq<MapTile>)
    requires HasLevel(floors, z)
    ensures HasLevel(SetTiles(floors, z, tiles), z) && TilesAt(SetTiles(floors, z, tiles), z) == tiles
  {
    SetTilesLevel(floors, z, tiles, z);
  }

  /** Like well-formed, except that field `p` may be stored while empty. */
  ghost predicate OccupiedBut(floors: seq<MapFloor>, p: MapPosition) {
    Indexed(floors) && forall i :: 0 <= i < |floors| ==> TilesOccupiedBut(floors[i].tiles, p)
  }

  ghost predicate TilesOccupiedBut(tiles: seq<MapTile>, p: MapPosition) {
    forall j :: 0 <= j < |tiles| && tiles[j].things == [] ==> tiles[j].position == p
  }

  lemma SetTilesBut(floors: seq<MapFloor>, p: MapPosition, tiles: seq<MapTile>)
    requires OccupiedBut(floors, p) && DistinctTiles(tiles) && TilesOn(tiles, p.z)
    requires TilesOccupiedBut(tiles, p)
    ensures OccupiedBut(SetTiles(floors, p.z, tiles), p)
    ensures Occupied(tiles) ==> WellFormed(SetTiles(floors, p.z, tiles))
  {
    hide TilesOccupiedBut, GoodFloor;
    var after := SetTiles(floors, p.z, tiles);
    var i := FloorIndex(floors, p.z);
    forall k | 0 <= k < |after| ensures GoodFloor(after[k]) && TilesOccupiedBut(after[k].tiles, p)
      && (Occupied(tiles) ==> Occupied(after[k].tiles)) {
      if k == i {
        TilesGood(after[k], tiles);
      } else {
        assert after[k] == floors[k];
        TilesElsewhere(floors[k], p);
      }
    }
  }

  lemma TilesGood(floor: MapFloor, tiles: seq<MapTile>)
    requires floor.tiles == tiles && DistinctTiles(tiles) && TilesOn(tiles, floor.z)
    ensures GoodFloor(floor)
  {
  }

  lemma TilesElsewhere(floor: MapFloor, p: MapPosition)
    requires GoodFloor(floor) && TilesOccupiedBut(floor.tiles, p) && floor.z != p.z
    ensures Occupied(floor.tiles)
  {
  }

  lemma FloorFacts(floors: seq<MapFloor>, p: MapPosition)
    requires OccupiedBut(floors, p)
    ensures DistinctTiles(TilesAt(floors, p.z)) && TilesOn(TilesAt(floors, p.z), p.z)
    ensures TilesOccupiedBut(TilesAt(floors, p.z), p)
  {
  }

  lemma WellFormedIsOccupiedBut(floors: seq<MapFloor>, p: MapPosition)
    requires WellFormed(floors)
    ensures OccupiedBut(floors, p)
  {
  }

  lemma EnsureTileGood(floors: seq<MapFloor>, p: MapPosition, anchor: MapPosition)
    requires WellFormed(floors)
    ensures OccupiedBut(EnsureTile(floors, p, anchor), p)
  {
    hide FloorFrom, TileFrom, EnsureFloor, SetTiles, WellFormed, OccupiedBut;
    assert OccupiedBut(floors, p) by { WellFormedIsOccupiedBut(floors, p); }
    if !HasTile(floors, p) {
      var held := EnsureFloor(floors, p.z, anchor.z - p.z);
      EnsureFloorLevel(floors, p.z, anchor.z - p.z, p.z);
      assert WellFormed(held) by { WellFormedParts(floors); EnsureFloorGood(floors, p.z, anchor.z - p.z); }
      WellFormedIsOccupiedBut(held, p);
      FloorFacts(held, p);
      EnsureFloorTiles(floors, p.z, anchor.z - p.z);
      var tiles := TilesAt(held, p.z);
      SetTilesBut(held, p, tiles + [MapTile(p, [])]);
    }
  }

  lemma WellFormedParts(floors: seq<MapFloor>)
    requires WellFormed(floors)
    ensures Indexed(floors)
  {
  }

  lemma EnsureFloorTiles(floors: seq<MapFloor>, z: int, offset: int)
    ensures TilesAt(EnsureFloor(floors, z, offset), z) == TilesAt(floors, z)
  {
    EnsureFloorLevel(floors, z, offset, z);
  }

  lemma EnsureTileAt(floors: seq<MapFloor>, p: MapPosition, anchor: MapPosition, q: MapPosition)
    requires WellFormed(floors)
    ensures StackAt(EnsureTile(floors, p, anchor), q) == StackAt(floors, q)
    ensures HasLevel(EnsureTile(floors, p, anchor), q.z) <==> HasLevel(floors, q.z) || q.z == p.z
  {
    hide FloorFrom, TileFrom, FloorIndex, TileIndex, EnsureFloor, SetTiles, TileStack;
    if !HasTile(floors, p) {
      var held := EnsureFloor(floors, p.z, anchor.z - p.z);
      EnsureFloorLevel(floors, p.z, anchor.z - p.z, p.z);
      EnsureFloorLevel(floors, p.z, anchor.z - p.z, q.z);
      EnsureFloorAt(floors, p.z, anchor.z - p.z, q);
      EnsureFloorTiles(floors, p.z, anchor.z - p.z);
      var tiles := TilesAt(held, p.z);
      SetTilesLevel(held, p.z, tiles + [MapTile(p, [])], q.z);
      SetTilesAt(held, p.z, tiles + [MapTile(p, [])], q);
      AppendEmptyAt(tiles, p, q);
    }
  }

  lemma AppendEmptyAt(tiles: seq<MapTile>, p: MapPosition, q: MapPosition)
    requires TileIndex(tiles, p) == |tiles|
    ensures TileStack(tiles + [MapTile(p, [])], q) == TileStack(tiles, q)
  {
    var after := tiles + [MapTile(p, [])];
    var k := TileIndex(tiles, q);
    if k < |tiles| { assert after[k] == tiles[k]; }
    assert after[|tiles|].position == p;
  }

  lemma SetThingsGood(floors: seq<MapFloor>, p: MapPosition, things: seq<MapThing>)
    requires OccupiedBut(floors, p) && HasTile(floors, p)
    ensures OccupiedBut(SetThings(floors, p, things), p)
    ensures things != [] ==> WellFormed(SetThings(floors, p, things))
    ensures HasTile(SetThings(floors, p, things), p)
  {
    hide FloorFrom, TileFrom, SetTiles, OccupiedBut, WellFormed;
    FloorFacts(floors, p);
    var tiles := TilesAt(floors, p.z);
    var after := tiles[TileIndex(tiles, p) := MapTile(p, things)];
    SetTilesBut(floors, p, after);
    SetTilesHolds(floors, p.z, after);
    assert after[TileIndex(tiles, p)].position == p;
  }

  lemma SetThingsAt(floors: seq<MapFloor>, p: MapPosition, things: seq<MapThing>, q: MapPosition)
    requires OccupiedBut(floors, p) && HasTile(floors, p)
    ensures StackAt(SetThings(floors, p, things), q) == if q == p then things else StackAt(floors, q)
    ensures HasLevel(SetThings(floors, p, things), q.z) <==> HasLevel(floors, q.z)
  {
    hide FloorFrom, TileFrom, SetTiles, OccupiedBut;
    FloorFacts(floors, p);
    var tiles := TilesAt(floors, p.z);
    var after := tiles[TileIndex(tiles, p) := MapTile(p, things)];
    SetTilesLevel(floors, p.z, after, q.z);
    SetTilesAt(floors, p.z, after, q);
    assert DistinctTiles(after);
    PutTileAt(tiles, MapTile(p, things), q);
  }

  lemma RemoveTileGood(floors: seq<MapFloor>, p: MapPosition)
    requires OccupiedBut(floors, p)
    ensures WellFormed(RemoveTileIfEmpty(floors, p))
  {
    hide FloorFrom, TileFrom, SetTiles;
    if HasTile(floors, p) && StackAt(floors, p) == [] {
      FloorFacts(floors, p);
      var tiles := TilesAt(floors, p.z);
      var i := TileIndex(tiles, p);
      SetTilesBut(floors, p, tiles[..i] + tiles[i + 1..]);
    } else {
      forall k, j | 0 <= k < |floors| && 0 <= j < |floors[k].tiles| ensures floors[k].tiles[j].things != [] {
        if floors[k].tiles[j].position == p {
          StackOnFloor(floors, k, p);
          TileStackAt(floors[k].tiles, j);
        }
      }
    }
  }

  lemma RemoveTileAt(floors: seq<MapFloor>, p: MapPosition, q: MapPosition)
    requires OccupiedBut(floors, p)
    ensures StackAt(RemoveTileIfEmpty(floors, p), q) == StackAt(floors, q)
    ensures HasLevel(RemoveTileIfEmpty(floors, p), q.z) <==> HasLevel(floors, q.z)
  {
    hide FloorFrom, TileFrom, FloorIndex, SetTiles, OccupiedBut;
    if HasTile(floors, p) && StackAt(floors, p) == [] {
      FloorFacts(floors, p);
      var tiles := TilesAt(floors, p.z);
      var i := TileIndex(tiles, p);
      var after := tiles[..i] + tiles[i + 1..];
      SetTilesLevel(floors, p.z, after, q.z);
      SetTilesAt(floors, p.z, after, q);
      var k := TileIndex(tiles, q);
      if k < i {
        assert after[k] == tiles[k];
        TileStackAt(after, k);
      } else if i < k < |tiles| {
        assert after[k - 1] == tiles[k];
        TileStackAt(after, k - 1);
      }
    }
  }

  /** Writing a field changes that field and no other, and keeps the floors well-formed. */
  lemma WriteFieldAt(floors: seq<MapFloor>, p: MapPosition, things: seq<MapThing>, anchor: MapPosition, q: MapPosition)
    requires WellFormed(floors)
    ensures StackAt(WriteField(floors, p, things, anchor), q) == if q == p then things else StackAt(floors, q)
    ensures HasLevel(WriteField(floors, p, things, anchor), q.z) <==> HasLevel(floors, q.z) || q.z == p.z
    ensures WellFormed(WriteField(floors, p, things, anchor))
  {
    hide EnsureTile, SetThings, RemoveTileIfEmpty, HasTile, FloorIndex, StackAt, OccupiedBut, WellFormed;
    EnsureTileHas(floors, p, anchor);
    EnsureTileGood(floors, p, anchor);
    EnsureTileAt(floors, p, anchor, q);
    var ensured := EnsureTile(floors, p, anchor);
    SetThingsGood(ensured, p, things);
    SetThingsAt(ensured, p, things, q);
    RemoveTileGood(SetThings(ensured, p, things), p);
    RemoveTileAt(SetThings(ensured, p, things), p, q);
  }

  lemma SetTilesShape(floors: seq<MapFloor>, z: int, tiles: seq<MapTile>, anchor: MapPosition)
    ensures Levels(SetTiles(floors, z, tiles)) == Levels(floors)
    ensures Anchored(floors, anchor) ==> Anchored(SetTiles(floors, z, tiles), anchor)
  {
  }

  /** A field written on a floor already held leaves the floor list as it was. */
  lemma WriteFieldLevels(floors: seq<MapFloor>, p: MapPosition, things: seq<MapThing>, anchor: MapPosition)
    requires HasLevel(floors, p.z) && Anchored(floors, anchor)
    ensures Levels(WriteField(floors, p, things, anchor)) == Levels(floors)
    ensures Anchored(WriteField(floors, p, things, anchor), anchor)
  {
    hide FloorIndex, TileIndex, Levels, Anchored, SetTiles;
    EnsureTileHas(floors, p, anchor);
    var ensured := EnsureTile(floors, p, anchor);
    if !HasTile(floors, p) {
      EnsureFloorShape(floors, p.z, anchor);
      var held := EnsureFloor(floors, p.z, anchor.z - p.z);
      SetTilesShape(held, p.z, TilesAt(held, p.z) + [MapTile(p, [])], anchor);
    }
    var tiles := TilesAt(ensured, p.z);
    SetTilesShape(ensured, p.z, tiles[TileIndex(tiles, p) := MapTile(p, things)], anchor);
    var written := SetThings(ensured, p, things);
    if HasTile(written, p) && StackAt(written, p) == [] {
      var left := TilesAt(written, p.z);
      var i := TileIndex(left, p);
      SetTilesShape(written, p.z, left[..i] + left[i + 1..], anchor);
    }
  }

  lemma EnsureFloorShape(floors: seq<MapFloor>, z: int, anchor: MapPosition)
    requires HasLevel(floors, z) && Anchored(floors, anchor)
    ensures Levels(EnsureFloor(floors, z, anchor.z - z)) == Levels(floors)
    ensures Anchored(EnsureFloor(floors, z, anchor.z - z), anchor)
  {
  }
}
