/** Values shared by the whole model: bytes, positions, things, tiles and floors,
    as clientcore/include/fusion32/protocol772/worldstate.h declares them. */
module World {

  datatype Option<+T> = None | Some(value: T)

  type byte = b: int | 0 <= b < 0x100
  type word = w: int | 0 <= w < 0x1_0000
  type quad = q: int | 0 <= q < 0x1_0000_0000

  const MAX_OBJECTS_PER_POINT := 10
  const MAX_OBJECTS_PER_CONTAINER := 36
  const WIRE_PAYLOAD_LIMIT := 0xFFFF

  /** The server describes no more than the first ten objects of a field. */
  function Shown<T>(stack: seq<T>): (shown: seq<T>)
    ensures |shown| <= MAX_OBJECTS_PER_POINT
  {
    if |stack| <= MAX_OBJECTS_PER_POINT then stack else stack[..MAX_OBJECTS_PER_POINT]
  }

  function Flag(b: bool): byte {
    if b then 1 else 0
  }

  function Lower(c: char): char {
    if 'A' <= c <= 'Z' then (c as int + 32) as char else c
  }

  /** A text without regard to case. */
  function Folded(s: string): (folded: string)
    ensures |folded| == |s|
  {
    seq(|s|, i requires 0 <= i < |s| => Lower(s[i]))
  }

  datatype MapPosition = MapPosition(x: int, y: int, z: int)

  /** The order of the source's maps and sets of positions. */
  predicate Before(p: MapPosition, q: MapPosition) {
    if p.z != q.z then p.z < q.z else if p.x != q.x then p.x < q.x else p.y < q.y
  }

  /** The `has_` flags of the source and their values are one option each. */
  datatype ItemThing = ItemThing(typeId: word, liquidColor: Option<byte>, amount: Option<byte>)

  /** `Unset` is the default-constructed descriptor; the wire carries the other two. */
  datatype Outfit =
    | Unset
    | Disguised(objectType: word)
    | Coloured(outfitId: word, colours: seq<byte>)

  datatype Descriptor = Descriptor(
    health: byte, direction: byte, outfit: Outfit, brightness: byte, lightColour: byte,
    speed: word, skull: byte, party: byte)

  /** The three creature descriptors of the wire: words 99, 98 and 97. */
  datatype CreatureThing =
    | Known(id: quad, facing: byte)
    | Outdated(id: quad, look: Descriptor)
    | Introduced(id: quad, evicted: quad, name: seq<byte>, look: Descriptor)
  {
    function Direction(): byte {
      if Known? then facing else look.direction
    }
  }

  datatype MapThing = Item(item: ItemThing) | Creature(creature: CreatureThing)

  datatype MapTile = MapTile(position: MapPosition, things: seq<MapThing>)

  /** `tiles` holds described fields only; `offset` is player z minus floor z. */
  datatype MapFloor = MapFloor(z: int, offset: int, tiles: seq<MapTile>)

  /** What a thing is, apart from how much of it one particular message repeated:
      the server sends a creature it has introduced before in a shorter form. */
  datatype Identity = ItemIdentity(item: ItemThing) | CreatureIdentity(id: quad)

  function IdentityOf(thing: MapThing): Identity {
    match thing
    case Item(item) => ItemIdentity(item)
    case Creature(creature) => CreatureIdentity(creature.id)
  }

  function Identities(things: seq<MapThing>): (ids: seq<Identity>)
    ensures |ids| == |things|
    ensures forall i :: 0 <= i < |things| ==> ids[i] == IdentityOf(things[i])
  {
    seq(|things|, i requires 0 <= i < |things| => IdentityOf(things[i]))
  }

  predicate SameThing(left: MapThing, right: MapThing) {
    match (left, right)
    case (Item(a), Item(b)) =>
      a.typeId == b.typeId && a.liquidColor == b.liquidColor && a.amount == b.amount
    case (Creature(a), Creature(b)) => a.id == b.id
    case _ => false
  }

  /** Two stacks are the same when they agree field by field, whatever form the
      creature descriptors took. */
  method SameStack(left: seq<MapThing>, right: seq<MapThing>) returns (same: bool)
    ensures same <==> Identities(left) == Identities(right)
  {
    if |left| != |right| { return false; }
    for i := 0 to |left|
      invariant forall j :: 0 <= j < i ==> IdentityOf(left[j]) == IdentityOf(right[j])
    {
      if !SameThing(left[i], right[i]) {
        assert Identities(left)[i] != Identities(right)[i];
        return false;
      }
    }
    return true;
  }

  lemma SubsetIsSmaller<T>(a: set<T>, b: set<T>)
    requires a <= b
    ensures |a| <= |b|
  {
    assert b == a + (b - a);
  }
}
