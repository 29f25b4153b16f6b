/** MapScanner as it runs: a cursor over the payload, a skip counter carried from rectangle to
    rectangle, tile counters and a sticky error. Each read computes the parse function of
    MapScan at the cursor. */
module MapScanners {
  import opened World
  import opened Viewport
  import opened ObjectTypes
  import S = MapScan

  /** `result` and the scanner's new cursor and error are what `parse` says. */
  ghost predicate Reads<T>(parse: S.Parse<T>, result: Option<T>, at: nat, error: Option<S.Error>) {
    match parse
    case Ok(value, next) => result == Some(value) && at == next && error == None
    case Fail(e) => result == None && error == Some(e)
  }

  class MapScanner {
    const bytes: seq<byte>
    const types: Types
    var at: nat
    var skip: nat
    var error: Option<S.Error>
    var describedTiles: nat
    var skippedTiles: nat

    constructor (bytes: seq<byte>, at: nat, types: Types)
      ensures this.bytes == bytes && this.at == at && this.types == types
      ensures skip == 0 && error == None && describedTiles == 0 && skippedTiles == 0
    {
      this.bytes, this.at, this.types := bytes, at, types;
      skip, error, describedTiles, skippedTiles := 0, None, 0, 0;
    }

    /** The first error sticks. */
    method Fail(code: S.Error)
      modifies this`error
      ensures error == if old(error) == None then Some(code) else old(error)
    {
      if error == None { error := Some(code); }
    }

    method ReadU8() returns (r: Option<byte>)
      requires error == None
      modifies this`at, this`error
      ensures Reads(S.U8(bytes, old(at)), r, at, error)
    {
      if |bytes| < at + 1 { Fail(S.Truncated); return None; }
      r := Some(bytes[at]);
      at := at + 1;
    }

    method ReadU16() returns (r: Option<word>)
      requires error == None
      modifies this`at, this`error
      ensures Reads(S.U16(bytes, old(at)), r, at, error)
    {
      if |bytes| < at + 2 { Fail(S.Truncated); return None; }
      r := Some(S.Low16(bytes[at], bytes[at + 1]));
      at := at + 2;
    }

    method ReadU32() returns (r: Option<quad>)
      requires error == None
      modifies this`at, this`error
      ensures Reads(S.U32(bytes, old(at)), r, at, error)
    {
      if |bytes| < at + 4 { Fail(S.Truncated); return None; }
      r := Some(S.Low16(bytes[at], bytes[at + 1]) as int + 0x1_0000 * (S.Low16(bytes[at + 2], bytes[at + 3]) as int));
      at := at + 4;
    }

    method PeekU16() returns (r: Option<word>)
      requires error == None
      modifies this`error
      ensures match S.U16(bytes, at)
        case Ok(value, _) => r == Some(value) && error == None
        case Fail(e) => r == None && error == Some(e)
    {
      if |bytes| < at + 2 { Fail(S.Truncated); return None; }
      r := Some(S.Low16(bytes[at], bytes[at + 1]));
    }

    method ReadRaw(count: nat) returns (r: Option<seq<byte>>)
      requires error == None
      modifies this`at, this`error
      ensures Reads(S.Raw(bytes, old(at), count), r, at, error)
    {
      if |bytes| < at + count { Fail(S.Truncated); return None; }
      r := Some(bytes[at..at + count]);
      at := at + count;
    }

    method ReadText() returns (r: Option<seq<byte>>)
      requires error == None
      modifies this`at, this`error
      ensures Reads(S.Text(bytes, old(at)), r, at, error)
    {
      var length := ReadU16();
      if length == None { return None; }
      r := ReadRaw(length.value);
    }

    method ReadCreatureName() returns (r: Option<seq<byte>>)
      requires error == None
      modifies this`at, this`error
      ensures Reads(S.CreatureName(bytes, old(at)), r, at, error)
    {
      var length := ReadU16();
      if length == None { return None; }
      if length.value > S.CREATURE_NAME_LIMIT { Fail(S.CreatureNameTooLong); return None; }
      r := ReadRaw(length.value);
    }

    method ReadOutfit() returns (r: Option<Outfit>)
      requires error == None
      modifies this`at, this`error
      ensures Reads(S.ReadOutfit(bytes, old(at)), r, at, error)
    {
      var outfitId := ReadU16();
      if outfitId == None { return None; }
      if outfitId.value == 0 {
        var objectType := ReadU16();
        return if objectType == None then None else Some(Disguised(objectType.value));
      }
      var colours := ReadRaw(4);
      return if colours == None then None else Some(Coloured(outfitId.value, colours.value));
    }

    method ReadDescriptor() returns (r: Option<Descriptor>)
      requires error == None
      modifies this`at, this`error
      ensures Reads(S.ReadDescriptor(bytes, old(at)), r, at, error)
    {
      hide S.U8, S.U16, S.ReadOutfit;
      var health := ReadU8();
      if health == None { return None; }
      var direction := ReadU8();
      if direction == None { return None; }
      var outfit := ReadOutfit();
      if outfit == None { return None; }
      var brightness := ReadU8();
      if brightness == None { return None; }
      var colour := ReadU8();
      if colour == None { return None; }
      var speed := ReadU16();
      if speed == None { return None; }
      var skull := ReadU8();
      if skull == None { return None; }
      var party := ReadU8();
      if party == None { return None; }
      r := Some(Descriptor(health.value, direction.value, outfit.value, brightness.value, colour.value,
                           speed.value, skull.value, party.value));
    }

    method ReadOptional(present: bool) returns (r: Option<Option<byte>>)
      requires error == None
      modifies this`at, this`error
      ensures Reads(S.OptionalByte(bytes, old(at), present), r, at, error)
    {
      if !present { return Some(None); }
      var b := ReadU8();
      return if b == None then None else Some(Some(b.value));
    }

    method ReadItemBody(typeId: word) returns (r: Option<ItemThing>)
      requires error == None
      modifies this`at, this`error
      ensures Reads(S.ItemBody(bytes, old(at), typeId, types), r, at, error)
    {
      var encoding := Lookup(types, typeId);
      if !encoding.known { Fail(S.UnknownObjectTypeId); return None; }
      var liquid := ReadOptional(encoding.liquidColor);
      if liquid == None { return None; }
      var amount := ReadOptional(encoding.cumulative);
      if amount == None { return None; }
      r := Some(ItemThing(typeId, liquid.value, amount.value));
    }

    method ReadItem() returns (r: Option<ItemThing>)
      requires error == None
      modifies this`at, this`error
      ensures Reads(S.ReadItem(bytes, old(at), types), r, at, error)
    {
      var typeId := ReadU16();
      if typeId == None { return None; }
      if typeId.value <= LAST_BODY_CONTAINER || typeId.value == CREATURE_CONTAINER {
        Fail(S.ReservedObjectTypeId);
        return None;
      }
      r := ReadItemBody(typeId.value);
    }

    method ReadKnown() returns (r: Option<CreatureThing>)
      requires error == None
      modifies this`at, this`error
      ensures Reads(S.ReadKnown(bytes, old(at)), r, at, error)
    {
      var id := ReadU32();
      if id == None { return None; }
      var facing := ReadU8();
      return if facing == None then None else Some(Known(id.value, facing.value));
    }

    method ReadOutdated() returns (r: Option<CreatureThing>)
      requires error == None
      modifies this`at, this`error
      ensures Reads(S.ReadOutdated(bytes, old(at)), r, at, error)
    {
      hide S.U32, S.ReadDescriptor;
      var id := ReadU32();
      if id == None { return None; }
      var look := ReadDescriptor();
      return if look == None then None else Some(Outdated(id.value, look.value));
    }

    method ReadIntroduced() returns (r: Option<CreatureThing>)
      requires error == None
      modifies this`at, this`error
      ensures Reads(S.ReadIntroduced(bytes, old(at)), r, at, error)
    {
      hide S.U32, S.CreatureName, S.ReadDescriptor;
      var evicted := ReadU32();
      if evicted == None { return None; }
      var id := ReadU32();
      if id == None { return None; }
      var name := ReadCreatureName();
      if name == None { return None; }
      var look := ReadDescriptor();
      return if look == None then None else Some(Introduced(id.value, evicted.value, name.value, look.value));
    }

    method ReadThing() returns (r: Option<MapThing>)
      requires error == None
      modifies this`at, this`error
      ensures Reads(S.ReadThing(bytes, old(at), types), r, at, error)
    {
      hide S.U16, S.ReadKnown, S.ReadOutdated, S.ReadIntroduced, S.ItemBody;
      var word := ReadU16();
      if word == None { return None; }
      if word.value == S.CREATURE_MARKER_KNOWN || word.value == S.CREATURE_MARKER_OUTDATED
        || word.value == S.CREATURE_MARKER_NEW {
        var creature: Option<CreatureThing>;
        if word.value == S.CREATURE_MARKER_KNOWN {
          creature := ReadKnown();
        } else if word.value == S.CREATURE_MARKER_OUTDATED {
          creature := ReadOutdated();
        } else {
          creature := ReadIntroduced();
        }
        return if creature == None then None else Some(Creature(creature.value));
      }
      if word.value <= LAST_BODY_CONTAINER { Fail(S.ReservedObjectTypeId); return None; }
      var item := ReadItemBody(word.value);
      return if item == None then None else Some(Item(item.value));
    }

    method ReadPosition() returns (r: Option<MapPosition>)
      requires error == None
      modifies this`at, this`error
      ensures Reads(S.ReadPosition(bytes, old(at)), r, at, error)
    {
      hide S.U8, S.U16;
      var x := ReadU16();
      if x == None { return None; }
      var y := ReadU16();
      if y == None { return None; }
      var z := ReadU8();
      if z == None { return None; }
      if z.value > MAX_FLOOR { Fail(S.InvalidPlayerFloor); return None; }
      r := Some(MapPosition(x.value, y.value, z.value));
    }

    /** The objects of one described tile, up to and including the marker that ends it. */
    method ReadDescribedTile() returns (r: Option<S.Described>)
      requires error == None
      modifies this`at, this`error
      ensures Reads(S.ReadTile(bytes, old(at), types, []), r, at, error)
    {
      hide S.U16, S.ReadThing;
      var things: seq<MapThing> := [];
      while true
        invariant error == None && |things| <= MAX_OBJECTS_PER_POINT
        invariant S.ReadTile(bytes, old(at), types, []) == S.ReadTile(bytes, at, types, things)
        decreases MAX_OBJECTS_PER_POINT + 1 - |things|
      {
        var word := PeekU16();
        if word == None { return None; }
        if word.value >= SKIP_MARKER_BASE {
          var marker := ReadU16();
          return Some(S.Described(things, marker.value - SKIP_MARKER_BASE));
        }
        if |things| >= MAX_OBJECTS_PER_POINT { Fail(S.TooManyObjectsInTile); return None; }
        var thing := ReadThing();
        if thing == None { return None; }
        things := things + [thing.value];
      }
    }

    /** Scan one field: skipped, empty at a marker, or described. */
    method ScanPoint(p: MapPosition, before: seq<MapTile>) returns (r: Option<seq<MapTile>>)
      requires error == None
      modifies this
      ensures error == None <==> r.Some?
      ensures forall ps ::
        S.Scan(bytes, old(at), types, [p] + ps, S.ScanState(old(skip), before))
        == if r.Some? then S.Scan(bytes, at, types, ps, S.ScanState(skip, r.value)) else S.Fail(error.value)
      ensures r.Some? ==> |r.value| >= |before| && describedTiles == old(describedTiles) + |r.value| - |before|
      ensures r.Some? ==> describedTiles + skippedTiles == old(describedTiles) + old(skippedTiles) + 1
    {
      hide S.U16, S.ReadTile;
      assert forall ps: seq<MapPosition> :: ([p] + ps)[0] == p && ([p] + ps)[1..] == ps;
      if skip > 0 {
        skip := skip - 1;
        skippedTiles := skippedTiles + 1;
        return Some(before);
      }
      var word := PeekU16();
      if word == None { return None; }
      if word.value >= SKIP_MARKER_BASE {
        var marker := ReadU16();
        skip := marker.value - SKIP_MARKER_BASE;
        skippedTiles := skippedTiles + 1;
        return Some(before);
      }
      var tile := ReadDescribedTile();
      if tile == None { return None; }
      describedTiles := describedTiles + 1;
      skip := tile.value.skip;
      return Some(before + [MapTile(p, tile.value.things)]);
    }

    /** x outer, y inner, like the server. */
    method ScanRect(z: int, offset: int, x: int, y: int, width: nat, height: nat) returns (r: Option<MapFloor>)
      requires error == None
      modifies this
      ensures match S.Scan(bytes, old(at), types, S.RectFrom(x, y, z, width, height, 0, 0), S.ScanState(old(skip), []))
        case Ok(state, next) => r == Some(MapFloor(z, offset, state.tiles)) && at == next && skip == state.skip
          && error == None
        case Fail(e) => r == None && error == Some(e)
      ensures r.Some? ==> describedTiles == old(describedTiles) + |r.value.tiles|
      ensures r.Some? ==> describedTiles + skippedTiles == old(describedTiles) + old(skippedTiles) + width * height
    {
      hide S.Scan;
      ghost var all := S.RectFrom(x, y, z, width, height, 0, 0);
      ghost var start := S.ScanState(skip, []);
      var tiles: seq<MapTile> := [];
      var ix := 0;
      while ix < width
        invariant ix <= width && error == None
        invariant S.Scan(bytes, old(at), types, all, start)
          == S.Scan(bytes, at, types, S.RectFrom(x, y, z, width, height, ix, 0), S.ScanState(skip, tiles))
        invariant describedTiles == old(describedTiles) + |tiles|
        invariant describedTiles + skippedTiles == old(describedTiles) + old(skippedTiles) + ix * height
      {
        var iy := 0;
        while iy < height
          invariant iy <= height && error == None
          invariant S.Scan(bytes, old(at), types, all, start)
            == S.Scan(bytes, at, types, S.RectFrom(x, y, z, width, height, ix, iy), S.ScanState(skip, tiles))
          invariant describedTiles == old(describedTiles) + |tiles|
          invariant describedTiles + skippedTiles == old(describedTiles) + old(skippedTiles) + ix * height + iy
        {
          var scanned := ScanPoint(MapPosition(x + ix, y + iy, z), tiles);
          if scanned == None { return None; }
          tiles := scanned.value;
          iy := iy + 1;
        }
        ix := ix + 1;
      }
      EmptyScan(bytes, at, types, S.ScanState(skip, tiles));
      r := Some(MapFloor(z, offset, tiles));
    }

    /** A run may not outlive what was scanned. */
    method FinishRun() returns (ok: bool)
      requires error == None
      modifies this`error
      ensures ok <==> skip == 0
      ensures error == if ok then None else Some(S.SkipRunExceedsWindow)
    {
      if skip != 0 { Fail(S.SkipRunExceedsWindow); return false; }
      return true;
    }

    /** The floor loop every map command shares: one rectangle per level, then the end of run. */
    method ReadFloors(anchor: MapPosition, rect: Rect, range: FloorRange) returns (r: Option<seq<MapFloor>>)
      requires GoodRange(range) && error == None && skip == 0
      modifies this
      ensures Reads(S.ReadFloors(bytes, old(at), types, anchor, rect, FloorsOf(range)), r, at, error)
      ensures r.Some? ==> skip == 0 && describedTiles == old(describedTiles) + S.TileCount(r.value)
      ensures r.Some? ==>
        describedTiles + skippedTiles == old(describedTiles) + old(skippedTiles)
          + Times(|r.value|, rect.width * rect.height)
    {
      hide S.Scan, S.RectFrom, FloorsOf, GoodRange, S.TileCount, Times;
      ghost var all, rest := FloorsOf(range), FloorsOf(range);
      EmptyCounts(rect.width * rect.height);
      NoLevels(range);
      var floors: seq<MapFloor> := [];
      var z := range.first;
      while range.step != 0 && z != range.last + range.step
        invariant error == None
        invariant if range.step == 0 || z == range.last + range.step then rest == []
          else GoodRange(range.(first := z)) && rest == FloorsOf(range.(first := z))
        invariant S.ScanFloors(bytes, old(at), types, anchor, rect, all, S.FloorsState(0, []))
          == S.ScanFloors(bytes, at, types, anchor, rect, rest, S.FloorsState(skip, floors))
        invariant describedTiles == old(describedTiles) + S.TileCount(floors)
        invariant describedTiles + skippedTiles
          == old(describedTiles) + old(skippedTiles) + Times(|floors|, rect.width * rect.height)
        decreases |rest|
      {
        var offset := anchor.z - z;
        NextLevel(range.(first := z));
        CountFloor(floors, rect.width * rect.height);
        var floor := ScanRect(z, offset, rect.minX + offset, rect.minY + offset, rect.width, rect.height);
        if floor == None { return None; }
        TileCountGrows(floors, floor.value);
        floors := floors + [floor.value];
        rest := rest[1..];
        z := z + range.step;
      }
      var ok := FinishRun();
      return if ok then Some(floors) else None;
    }
  }

  lemma NoLevels(range: FloorRange)
    requires GoodRange(range)
    ensures range.step == 0 || range.first == range.last + range.step ==> FloorsOf(range) == []
  {
  }

  lemma NextLevel(range: FloorRange)
    requires GoodRange(range) && range.step != 0
    ensures FloorsOf(range) != [] && FloorsOf(range)[0] == range.first
    ensures var next := range.(first := range.first + range.step);
      if range.first == range.last then FloorsOf(range)[1..] == []
      else GoodRange(next) && FloorsOf(range)[1..] == FloorsOf(next)
  {
  }

  function Times(n: nat, area: nat): nat {
    n * area
  }

  lemma EmptyCounts(area: nat)
    ensures Times(0, area) == 0 && S.TileCount([]) == 0
  {
  }

  lemma CountFloor(floors: seq<MapFloor>, area: nat)
    ensures Times(|floors| + 1, area) == Times(|floors|, area) + area
  {
  }

  lemma TileCountGrows(floors: seq<MapFloor>, floor: MapFloor)
    ensures S.TileCount(floors + [floor]) == S.TileCount(floors) + |floor.tiles|
  {
    assert (floors + [floor])[..|floors|] == floors;
  }

  lemma EmptyScan(s: seq<byte>, at: nat, types: Types, state: S.ScanState)
    ensures S.Scan(s, at, types, [], state) == S.Ok(state, at)
  {
  }

}
