/** What the bounds-checked reads of clientcore/src/map_scan.cpp yield, as functions of the
    byte string and a position in it. */
module MapScan {
  import opened World
  import opened Viewport
  import opened ObjectTypes

  const CREATURE_MARKER_NEW := 97
  const CREATURE_MARKER_OUTDATED := 98
  const CREATURE_MARKER_KNOWN := 99
  const CREATURE_NAME_LIMIT := 29

  datatype Error =
    | NotFullScreen
    | Truncated
    | InvalidPlayerFloor
    | ReservedObjectTypeId
    | UnknownObjectTypeId
    | TooManyObjectsInTile
    | CreatureNameTooLong
    | SkipRunExceedsWindow
    | EmptyObjectTypeTable
    | UnexpectedCommand
    | InvalidStackIndex
    | InvalidInventorySlot
    | InvalidContainerNumber
    | InvalidContainerSlot
    | UnknownTalkMode

  /** A value and where reading stopped, or the first error. */
  datatype Parse<+T> = Ok(value: T, at: nat) | Fail(error: Error) {
    predicate IsFailure() {
      Fail?
    }
    function PropagateFailure<U>(): Parse<U>
      requires Fail?
    {
      Fail(error)
    }
    function Extract(): (T, nat)
      requires Ok?
    {
      (value, at)
    }
  }

  function Low16(low: byte, high: byte): word {
    low as int + 0x100 * (high as int)
  }

  function U8(s: seq<byte>, at: nat): Parse<byte> {
    if |s| < at + 1 then Fail(Truncated) else Ok(s[at], at + 1)
  }

  function U16(s: seq<byte>, at: nat): Parse<word> {
    if |s| < at + 2 then Fail(Truncated) else Ok(Low16(s[at], s[at + 1]), at + 2)
  }

  function U32(s: seq<byte>, at: nat): Parse<quad> {
    if |s| < at + 4 then Fail(Truncated)
    else Ok(Low16(s[at], s[at + 1]) as int + 0x1_0000 * (Low16(s[at + 2], s[at + 3]) as int), at + 4)
  }

  function Raw(s: seq<byte>, at: nat, count: nat): Parse<seq<byte>> {
    if |s| < at + count then Fail(Truncated) else Ok(s[at..at + count], at + count)
  }

  function Text(s: seq<byte>, at: nat): Parse<seq<byte>> {
    var (length, at1) :- U16(s, at);
    Raw(s, at1, length)
  }

  function CreatureName(s: seq<byte>, at: nat): Parse<seq<byte>> {
    var (length, at1) :- U16(s, at);
    if length > CREATURE_NAME_LIMIT then Fail(CreatureNameTooLong) else Raw(s, at1, length)
  }

  function ReadOutfit(s: seq<byte>, at: nat): Parse<Outfit> {
    var (outfitId, at1) :- U16(s, at);
    if outfitId == 0 then
      var (objectType, at2) :- U16(s, at1);
      Ok(Disguised(objectType), at2)
    else
      var (colours, at2) :- Raw(s, at1, 4);
      Ok(Coloured(outfitId, colours), at2)
  }

  function ReadDescriptor(s: seq<byte>, at: nat): Parse<Descriptor> {
    var (health, at1) :- U8(s, at);
    var (direction, at2) :- U8(s, at1);
    var (outfit, at3) :- ReadOutfit(s, at2);
    var (brightness, at4) :- U8(s, at3);
    var (colour, at5) :- U8(s, at4);
    var (speed, at6) :- U16(s, at5);
    var (skull, at7) :- U8(s, at6);
    var (party, at8) :- U8(s, at7);
    Ok(Descriptor(health, direction, outfit, brightness, colour, speed, skull, party), at8)
  }

  function OptionalByte(s: seq<byte>, at: nat, present: bool): Parse<Option<byte>> {
    if !present then Ok(None, at) else
      var (b, at1) :- U8(s, at);
      Ok(Some(b), at1)
  }

  /** The bytes after an item's type id, as the type's flags say. */
  function ItemBody(s: seq<byte>, at: nat, typeId: word, types: Types): Parse<ItemThing> {
    var encoding := Lookup(types, typeId);
    if !encoding.known then Fail(UnknownObjectTypeId) else
      var (liquid, at1) :- OptionalByte(s, at, encoding.liquidColor);
      var (amount, at2) :- OptionalByte(s, at1, encoding.cumulative);
      Ok(ItemThing(typeId, liquid, amount), at2)
  }

  function ReadKnown(s: seq<byte>, at: nat): Parse<CreatureThing> {
    var (id, at1) :- U32(s, at);
    var (facing, at2) :- U8(s, at1);
    Ok(Known(id, facing), at2)
  }

  function ReadOutdated(s: seq<byte>, at: nat): Parse<CreatureThing> {
    var (id, at1) :- U32(s, at);
    var (look, at2) :- ReadDescriptor(s, at1);
    Ok(Outdated(id, look), at2)
  }

  function ReadIntroduced(s: seq<byte>, at: nat): Parse<CreatureThing> {
    var (evicted, at1) :- U32(s, at);
    var (id, at2) :- U32(s, at1);
    var (name, at3) :- CreatureName(s, at2);
    var (look, at4) :- ReadDescriptor(s, at3);
    Ok(Introduced(id, evicted, name, look), at4)
  }

  function AsThing(creature: Parse<CreatureThing>): Parse<MapThing> {
    match creature
    case Ok(value, at) => Ok(Creature(value), at)
    case Fail(error) => Fail(error)
  }

  /** One entry of a tile's object list: a creature descriptor or an item. */
  function ReadThing(s: seq<byte>, at: nat, types: Types): Parse<MapThing> {
    var (word, at1) :- U16(s, at);
    if word == CREATURE_MARKER_KNOWN then AsThing(ReadKnown(s, at1))
    else if word == CREATURE_MARKER_OUTDATED then AsThing(ReadOutdated(s, at1))
    else if word == CREATURE_MARKER_NEW then AsThing(ReadIntroduced(s, at1))
    else if word <= LAST_BODY_CONTAINER then Fail(ReservedObjectTypeId)
    else
      var (item, at2) :- ItemBody(s, at1, word, types);
      Ok(Item(item), at2)
  }

  /** An item where no creature can stand: inventory and containers. */
  function ReadItem(s: seq<byte>, at: nat, types: Types): Parse<ItemThing> {
    var (word, at1) :- U16(s, at);
    if word <= LAST_BODY_CONTAINER || word == CREATURE_CONTAINER then Fail(ReservedObjectTypeId)
    else ItemBody(s, at1, word, types)
  }

  /** A position; its floor must be addressable. */
  function ReadPosition(s: seq<byte>, at: nat): Parse<MapPosition> {
    var (x, at1) :- U16(s, at);
    var (y, at2) :- U16(s, at1);
    var (z, at3) :- U8(s, at2);
    if z > MAX_FLOOR then Fail(InvalidPlayerFloor) else Ok(MapPosition(x, y, z), at3)
  }

  /** The objects of a described tile and the skip count of the marker that ends it. */
  datatype Described = Described(things: seq<MapThing>, skip: byte)

  function ReadTile(s: seq<byte>, at: nat, types: Types, things: seq<MapThing>): Parse<Described>
    decreases MAX_OBJECTS_PER_POINT + 1 - |things|
  {
    var (word, at1) :- U16(s, at);
    if word >= SKIP_MARKER_BASE then Ok(Described(things, word - SKIP_MARKER_BASE), at1)
    else if |things| >= MAX_OBJECTS_PER_POINT then Fail(TooManyObjectsInTile)
    else
      var (thing, at2) :- ReadThing(s, at, types);
      ReadTile(s, at2, types, things + [thing])
  }

  // ---- rectangles ------------------------------------------------------------------------

  /** The fields of a rectangle from column `ix`, row `iy` on, x outer and y inner. */
  function RectFrom(x: int, y: int, z: int, width: nat, height: nat, ix: nat, iy: nat): (ps: seq<MapPosition>)
    requires ix <= width && iy <= height
    ensures forall p :: p in ps <==>
      p.z == z && 0 <= p.y - y < height && p.x - x < width && (ix < p.x - x || (p.x - x == ix && iy <= p.y - y))
    decreases width - ix, height - iy
  {
    if ix == width then []
    else if iy == height then RectFrom(x, y, z, width, height, ix + 1, 0)
    else [MapPosition(x + ix, y + iy, z)] + RectFrom(x, y, z, width, height, ix, iy + 1)
  }

  /** Where scanning stands: the next byte, the pending skip count and the tiles so far. */
  datatype ScanState = ScanState(skip: nat, tiles: seq<MapTile>)

  /** Scanning the fields `ps` in order. */
  function Scan(s: seq<byte>, at: nat, types: Types, ps: seq<MapPosition>, state: ScanState): Parse<ScanState>
    decreases |ps|
  {
    if ps == [] then Ok(state, at)
    else if state.skip > 0 then Scan(s, at, types, ps[1..], state.(skip := state.skip - 1))
    else
      var (word, at1) :- U16(s, at);
      if word >= SKIP_MARKER_BASE then Scan(s, at1, types, ps[1..], state.(skip := word - SKIP_MARKER_BASE))
      else
        var (described, at2) :- ReadTile(s, at, types, []);
        Scan(s, at2, types, ps[1..], ScanState(described.skip, state.tiles + [MapTile(ps[0], described.things)]))
  }

  function RectOn(anchor: MapPosition, rect: Rect, z: int): seq<MapPosition> {
    RectFrom(rect.minX + anchor.z - z, rect.minY + anchor.z - z, z, rect.width, rect.height, 0, 0)
  }

  datatype FloorsState = FloorsState(skip: nat, floors: seq<MapFloor>)

  /** The same rectangle on each level of `zs`; the skip run carries from floor to floor. */
  function ScanFloors(
      s: seq<byte>, at: nat, types: Types, anchor: MapPosition, rect: Rect, zs: seq<int>,
      state: FloorsState): Parse<FloorsState>
    decreases |zs|
  {
    if zs == [] then Ok(state, at) else
      var (scanned, at1) :- Scan(s, at, types, RectOn(anchor, rect, zs[0]), ScanState(state.skip, []));
      ScanFloors(s, at1, types, anchor, rect, zs[1..],
        FloorsState(scanned.skip, state.floors + [MapFloor(zs[0], anchor.z - zs[0], scanned.tiles)]))
  }

  /** A complete run: every level, and no skip left over. */
  function ReadFloors(
      s: seq<byte>, at: nat, types: Types, anchor: MapPosition, rect: Rect, zs: seq<int>): Parse<seq<MapFloor>>
  {
    var (scanned, at1) :- ScanFloors(s, at, types, anchor, rect, zs, FloorsState(0, []));
    if scanned.skip != 0 then Fail(SkipRunExceedsWindow) else Ok(scanned.floors, at1)
  }

  /** How many tiles the floors describe. */
  function TileCount(floors: seq<MapFloor>): nat {
    if floors == [] then 0 else TileCount(floors[..|floors| - 1]) + |floors[|floors| - 1].tiles|
  }
}
