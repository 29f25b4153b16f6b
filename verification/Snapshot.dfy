/** The mirror agrees with the server's world: after any run of steps and edits it is what a
    snapshot taken now would be. */
module Snapshot {
  import opened World
  import opened Viewport
  import opened ObjectTypes
  import opened Updates
  import opened Floors
  import opened Mirror

  /** What really stands on each field, bottom first. */
  type Terrain = MapPosition -> seq<Identity>

  /** The floors are, up to tile order, what a snapshot of `world` at `anchor` stores. */
  ghost predicate Mirrors(floors: seq<MapFloor>, anchor: MapPosition, world: Terrain) {
    && ValidAnchor(anchor)
    && WellFormed(floors)
    && Anchored(floors, anchor)
    && Levels(floors) == FloorsOf(ViewportFloorRange(anchor.z))
    && forall p :: Identities(StackAt(floors, p)) == if InView(anchor, p) then Shown(world(p)) else []
  }

  /** `floors` lists the levels `zs` and describes exactly the fields of `region`. */
  ghost predicate Describes(floors: seq<MapFloor>, zs: seq<int>, region: MapPosition -> bool, world: Terrain) {
    && WellFormed(floors)
    && Levels(floors) == zs
    && forall p :: Identities(StackAt(floors, p)) == if region(p) then Shown(world(p)) else []
  }

  lemma LevelsAreHeld(floors: seq<MapFloor>, z: int)
    ensures HasLevel(floors, z) <==> z in Levels(floors)
  {
    var i := FloorIndex(floors, z);
    if i < |floors| { assert Levels(floors)[i] == z; }
    if z in Levels(floors) {
      var j :| 0 <= j < |floors| && Levels(floors)[j] == z;
      assert floors[j].z == z;
    }
  }

  /** Merging a reveal and pruning to the new anchor keeps the mirror exact, whenever the
      reveal covers every field and floor that was not in view before. */
  lemma RevealKeepsMirror(
      floors: seq<MapFloor>, anchor: MapPosition, next: MapPosition, incoming: seq<MapFloor>,
      zs: seq<int>, region: MapPosition -> bool, world: Terrain)
    requires Mirrors(floors, anchor, world) && ValidAnchor(next)
    requires Describes(incoming, zs, region, world)
    requires forall p :: InView(next, p) && !InView(anchor, p) ==> region(p)
    requires forall z :: InRange(ViewportFloorRange(next.z), z) ==> InRange(ViewportFloorRange(anchor.z), z) || z in zs
    ensures Mirrors(Prune(MergeFloors(floors, incoming, |incoming|, next), next), next, world)
  {
    hide InView, ViewportFloorRange, InRange, MergeFloors, Prune, FloorIndex, StackAt, Levels, WellFormed, Anchored;
    var merged := MergeFloors(floors, incoming, |incoming|, next);
    var pruned := Prune(merged, next);
    MergeFloorsGood(floors, incoming, |incoming|, next);
    PruneGood(merged, next);
    forall z | InRange(ViewportFloorRange(next.z), z) ensures HasLevel(merged, z) {
      LevelsAreHeld(floors, z);
      LevelsAreHeld(incoming, z);
      MergeFloorsLevel(floors, incoming, |incoming|, next, z);
    }
    PruneLevels(merged, next);
    forall p ensures Identities(StackAt(pruned, p)) == if InView(next, p) then Shown(world(p)) else [] {
      RevealedField(floors, anchor, next, incoming, zs, region, world, p);
    }
  }

  lemma RevealedField(
      floors: seq<MapFloor>, anchor: MapPosition, next: MapPosition, incoming: seq<MapFloor>,
      zs: seq<int>, region: MapPosition -> bool, world: Terrain, p: MapPosition)
    requires Mirrors(floors, anchor, world) && Describes(incoming, zs, region, world)
    requires InView(next, p) && !InView(anchor, p) ==> region(p)
    ensures Identities(StackAt(Prune(MergeFloors(floors, incoming, |incoming|, next), next), p))
      == if InView(next, p) then Shown(world(p)) else []
  {
    hide InView, ViewportFloorRange, InRange, MergeFloors, Prune, FloorFrom, TileStack, Levels, WellFormed, Anchored;
    var merged := MergeFloors(floors, incoming, |incoming|, next);
    MergeFloorsGood(floors, incoming, |incoming|, next);
    PruneAt(merged, next, p);
    MergeFloorsAt(floors, incoming, |incoming|, next, p);
    assert Identities(StackAt(incoming, p)) == if region(p) then Shown(world(p)) else [];
    assert Identities(StackAt(floors, p)) == if InView(anchor, p) then Shown(world(p)) else [];
  }

  /** Every cardinal step, at every anchor. */
  lemma RowKeepsMirror(
      floors: seq<MapFloor>, anchor: MapPosition, direction: Direction, incoming: seq<MapFloor>, world: Terrain)
    requires Mirrors(floors, anchor, world)
    requires var next := StepPosition(anchor, direction);
      Describes(incoming, FloorsOf(ViewportFloorRange(next.z)), p => InRow(next, direction, p), world)
    ensures var next := StepPosition(anchor, direction);
      Mirrors(Prune(MergeFloors(floors, incoming, |incoming|, next), next), next, world)
  {
    hide Mirrors, Describes, InView, InRow, MergeFloors, Prune;
    var next := StepPosition(anchor, direction);
    assert ValidAnchor(next) by { MirrorsParts(floors, anchor, world); }
    RowCoversWhatAppears(anchor, direction);
    RevealKeepsMirror(floors, anchor, next, incoming, FloorsOf(ViewportFloorRange(next.z)), p
      => InRow(next, direction, p), world);
  }

  lemma MirrorsParts(floors: seq<MapFloor>, anchor: MapPosition, world: Terrain)
    requires Mirrors(floors, anchor, world)
    ensures ValidAnchor(anchor) && WellFormed(floors) && Anchored(floors, anchor)
  {
  }

  /** Every floor change, above ground, below it and across the surface. */
  lemma FloorChangeKeepsMirror(
      floors: seq<MapFloor>, anchor: MapPosition, up: bool, incoming: seq<MapFloor>, world: Terrain)
    requires Mirrors(floors, anchor, world) && ValidAnchor(FloorStep(anchor, up))
    requires var next := FloorStep(anchor, up);
      Describes(incoming, FloorsOf(FloorChangeRange(next.z, up)), p => InNewFloors(next, up, p), world)
    ensures var next := FloorStep(anchor, up);
      Mirrors(Prune(MergeFloors(floors, incoming, |incoming|, next), next), next, world)
  {
    hide Mirrors, Describes, InView, InNewFloors, MergeFloors, Prune;
    var next := FloorStep(anchor, up);
    assert ValidAnchor(anchor) by { MirrorsParts(floors, anchor, world); }
    FloorChangeCoversWhatAppears(anchor, up);
    FloorChangeCompletesRange(anchor.z, up);
    RevealKeepsMirror(floors, anchor, next, incoming, FloorsOf(FloorChangeRange(next.z, up)), p
      => InNewFloors(next, up, p), world);
  }

  // ---- edits of single fields ---------------------------------------------------------

  function Set<T>(world: MapPosition -> T, p: MapPosition, stack: T): MapPosition -> T {
    q => if q == p then stack else world(q)
  }

  /** Writing in view what the server now holds keeps the mirror exact. */
  lemma WriteKeepsMirror(
      floors: seq<MapFloor>, anchor: MapPosition, world: Terrain, p: MapPosition, things: seq<MapThing>,
      stack: seq<Identity>)
    requires Mirrors(floors, anchor, world) && InView(anchor, p)
    requires Identities(things) == Shown(stack)
    ensures Mirrors(WriteField(floors, p, things, anchor), anchor, Set(world, p, stack))
    ensures StackAt(WriteField(floors, p, things, anchor), p) == things
  {
    hide WriteField, FloorFrom, TileStack, Levels, WellFormed, Anchored, InRange, ViewportFloorRange, WithinFloorWindow,
      Identities;
    var after := WriteField(floors, p, things, anchor);
    LevelsAreHeld(floors, p.z);
    WriteFieldLevels(floors, p, things, anchor);
    WriteFieldAt(floors, p, things, anchor, p);
    forall q ensures Identities(StackAt(after, q)) == if InView(anchor, q) then Shown(Set(world, p, stack)(q)) else [] {
      WriteFieldAt(floors, p, things, anchor, q);
      assert Identities(StackAt(floors, q)) == if InView(anchor, q) then Shown(world(q)) else [];
    }
  }

  function IdentityPriority(id: Identity, types: Types): Priority {
    match id
    case CreatureIdentity(_) => PRIORITY_CREATURE
    case ItemIdentity(item) => Lookup(types, item.typeId).priority
  }

  function IdentityPriorities(ids: seq<Identity>, types: Types): seq<Priority> {
    seq(|ids|, i requires 0 <= i < |ids| => IdentityPriority(ids[i], types))
  }

  /** Where the server's PlaceObject puts a thing that enters a field. */
  function PlaceObject(stack: seq<Identity>, id: Identity, types: Types): seq<Identity> {
    InsertAt(stack, InsertIndex(IdentityPriorities(stack, types), IdentityPriority(id, types)), id)
  }

  /** The client's insertion index, computed from descriptors, is the server's. */
  lemma InsertionAgrees(things: seq<MapThing>, thing: MapThing, types: Types)
    ensures var index := InsertIndex(Priorities(things, types), ThingPriority(thing, types));
      Identities(InsertAt(things, index, thing)) == PlaceObject(Identities(things), IdentityOf(thing), types)
  {
    assert Priorities(things, types) == IdentityPriorities(Identities(things), types);
    var index := InsertIndex(Priorities(things, types), ThingPriority(thing, types));
    hide InsertIndex;
    assert Identities(InsertAt(things, index, thing)) == InsertAt(Identities(things), index, IdentityOf(thing));
  }

  lemma RemovalAgrees(things: seq<MapThing>, index: nat)
    requires index < |things|
    ensures Identities(RemoveAt(things, index)) == RemoveAt(Identities(things), index)
  {
  }

  lemma ReplacementAgrees(things: seq<MapThing>, index: nat, thing: MapThing)
    requires index < |things|
    ensures Identities(things[index := thing]) == Identities(things)[index := IdentityOf(thing)]
  {
  }

  // ---- runs -----------------------------------------------------------------------------

  /** What happens on the server between two looks at the mirror. `Unseen` is a change
      outside the viewport, about which nothing is sent; `Aside` is anything the server says
      about something else than fields: light, effects, speech, containers, and so on. */
  datatype EventOn<T> =
    | Arrive(at: MapPosition)
    | Step(direction: Direction)
    | Climb(up: bool)
    | Rewrite(p: MapPosition, stack: seq<T>)
    | Place(p: MapPosition, id: T)
    | Replace(p: MapPosition, index: nat, id: T)
    | Remove(p: MapPosition, index: nat)
    | Walk(p: MapPosition, index: nat, destination: MapPosition)
    | Unseen(p: MapPosition, stack: seq<T>)
    | Aside

  type Event = EventOn<Identity>

  /** The fields an event touches hold what it claims they hold. */
  ghost predicate Possible(event: Event, world: Terrain) {
    match event
    case Replace(p, index, _) => index < |world(p)|
    case Remove(p, index) => index < |world(p)|
    case Walk(p, index, destination) => index < |world(p)| && world(p)[index].CreatureIdentity?
    case _ => true
  }

  ghost function WorldAfter(world: Terrain, event: Event, types: Types): Terrain
    requires Possible(event, world)
  {
    match event
    case Rewrite(p, stack) => Set(world, p, stack)
    case Unseen(p, stack) => Set(world, p, stack)
    case Place(p, id) => Set(world, p, PlaceObject(world(p), id, types))
    case Replace(p, index, id) => Set(world, p, world(p)[index := id])
    case Remove(p, index) => Set(world, p, RemoveAt(world(p), index))
    case Walk(p, index, destination) =>
      var left := Set(world, p, RemoveAt(world(p), index));
      Set(left, destination, PlaceObject(left(destination), world(p)[index], types))
    case _ => world
  }

  function AnchorAfter<T>(anchor: MapPosition, event: EventOn<T>): MapPosition {
    match event
    case Arrive(at) => at
    case Step(direction) => StepPosition(anchor, direction)
    case Climb(up) => FloorStep(anchor, up)
    case _ => anchor
  }

  /** Where a creature that moves to the field it stands on comes back to. */
  function ReturnIndex(stack: seq<Identity>, index: nat, types: Types): nat
    requires index < |stack|
  {
    InsertIndex(IdentityPriorities(RemoveAt(stack, index), types), PRIORITY_CREATURE)
  }

  /** The edits of a field that a reader of its first ten objects can follow. */
  ghost predicate Trackable(event: Event, world: Terrain, types: Types)
    requires Possible(event, world)
  {
    match event
    case Place(p, _) => |world(p)| < MAX_OBJECTS_PER_POINT
    case Remove(p, index) => |world(p)| <= MAX_OBJECTS_PER_POINT || index >= MAX_OBJECTS_PER_POINT
    case Walk(p, index, destination) =>
      if p == destination
      then index < MAX_OBJECTS_PER_POINT && ReturnIndex(world(p), index, types) < MAX_OBJECTS_PER_POINT
      else
        && (|world(p)| <= MAX_OBJECTS_PER_POINT || index >= MAX_OBJECTS_PER_POINT)
        && |world(destination)| < MAX_OBJECTS_PER_POINT
    case _ => true
  }

  /** The server's own test of what a connection can see. */
  predicate ServerSees(player: MapPosition, p: MapPosition) {
    && (if player.z <= 7 then p.z <= 7 else -2 <= player.z - p.z <= 2)
    && var minX := player.x - 8 + (player.z - p.z);
       var minY := player.y - 6 + (player.z - p.z);
       minX <= p.x <= minX + 17 && minY <= p.y <= minY + 13
  }

  /** Client and server draw the viewport around the same fields. */
  lemma ServerSeesTheViewport(anchor: MapPosition, p: MapPosition)
    requires ValidAnchor(anchor) && 0 <= p.z <= MAX_FLOOR
    ensures ServerSees(anchor, p) <==> InView(anchor, p)
  {
  }

  ghost predicate SnapshotOf(update: ServerUpdate, at: MapPosition, world: Terrain)
    requires ValidAnchor(at)
  {
    update.FullScreen? && update.window == WindowAt(at) && Anchored(update.floors, at)
    && Describes(update.floors, FloorsOf(ViewportFloorRange(at.z)), p => InView(at, p), world)
  }

  /** The server sends `update` about `event`: the right command about fields in view,
      describing creatures in whatever form it likes, and nothing about an object beyond
      the tenth of its field or about a field out of view. */
  ghost predicate Announces(update: Option<ServerUpdate>, event: Event, anchor: MapPosition, world: Terrain)
    requires ValidAnchor(anchor) && Possible(event, world)
  {
    var next := AnchorAfter(anchor, event);
    match event
    case Arrive(at) => ValidAnchor(at) && update.Some? && SnapshotOf(update.value, at, world)
    case Step(direction) =>
      update.Some? && update.value.Row?
      && Describes(update.value.floors, FloorsOf(ViewportFloorRange(next.z)), p => InRow(next, direction, p), world)
    case Climb(up) =>
      ValidAnchor(next) && update.Some? && update.value.FloorChange?
      && Describes(update.value.floors, FloorsOf(FloorChangeRange(next.z, up)), p => InNewFloors(next, up, p), world)
    case Rewrite(p, stack) =>
      InView(anchor, p) && update.Some? && update.value.FieldData? && update.value.tile.position == p
      && Identities(update.value.tile.things) == Shown(stack)
    case Place(p, id) => InView(anchor, p) && Adds(update, p, id)
    case Replace(p, index, id) =>
      InView(anchor, p)
      && if index < MAX_OBJECTS_PER_POINT
         then update.Some? && update.value.ChangeField? && update.value.position == p
           && update.value.stack == index && IdentityOf(update.value.thing) == id
         else update == None
    case Remove(p, index) =>
      InView(anchor, p) && update == if index < MAX_OBJECTS_PER_POINT then Some(DeleteField(p, index)) else None
    case Walk(p, index, destination) =>
      InView(anchor, p) && InView(anchor, destination)
      && if index < MAX_OBJECTS_PER_POINT then update == Some(MoveCreature(p, index, destination))
         else Adds(update, destination, world(p)[index])
    case Unseen(p, _) => !InView(anchor, p) && update == None
    case Aside => update.Some? && !TouchesMap(update.value) && !update.value.Unsupported?
  }

  ghost predicate Adds(update: Option<ServerUpdate>, p: MapPosition, id: Identity) {
    update.Some? && update.value.AddField? && update.value.position == p && IdentityOf(update.value.thing) == id
  }

  function Advance(state: State, update: Option<ServerUpdate>, next: MapPosition, types: Types): State {
    if update.None? then state else Apply(state, update.value, next, types).state
  }

  lemma SnapshotMirrors(state: State, update: ServerUpdate, at: MapPosition, world: Terrain)
    requires ValidAnchor(at) && SnapshotOf(update, at, world)
    ensures Mirrors(ApplyFullScreen(state, update.window, update.floors).state.floors, at, world)
  {
    hide InView, RecordFloors;
  }

  lemma PlaceKeepsMirror(state: State, p: MapPosition, thing: MapThing, world: Terrain, types: Types)
    requires Mirrors(state.floors, state.anchor, world) && InView(state.anchor, p)
    requires |world(p)| < MAX_OBJECTS_PER_POINT
    ensures Mirrors(ApplyAddField(state, p, thing, types).state.floors, state.anchor,
                    Set(world, p, PlaceObject(world(p), IdentityOf(thing), types)))
  {
    var things := StackAt(state.floors, p);
    assert Identities(things) == world(p);
    InsertionAgrees(things, thing, types);
    var grown := InsertAt(things, InsertIndex(Priorities(things, types), ThingPriority(thing, types)), thing);
    hide Mirrors, StackAt, InsertIndex, WriteField, Set, RecordCreature, RefreshThings;
    WriteKeepsMirror(state.floors, state.anchor, world, p, grown, PlaceObject(world(p), IdentityOf(thing), types));
  }

  lemma ShownHere(floors: seq<MapFloor>, anchor: MapPosition, world: Terrain, p: MapPosition)
    requires Mirrors(floors, anchor, world) && InView(anchor, p)
    ensures Identities(StackAt(floors, p)) == Shown(world(p))
  {
  }

  lemma RewriteKeepsMirror(state: State, tile: MapTile, stack: seq<Identity>, world: Terrain)
    requires Mirrors(state.floors, state.anchor, world) && InView(state.anchor, tile.position)
    requires Identities(tile.things) == Shown(stack)
    ensures Mirrors(ApplyFieldData(state, tile).state.floors, state.anchor, Set(world, tile.position, stack))
  {
    hide Mirrors, StackAt, WriteField, Set, RecordThings, RefreshThings;
    WriteKeepsMirror(state.floors, state.anchor, world, tile.position, tile.things, stack);
  }

  lemma ReplaceKeepsMirror(state: State, p: MapPosition, index: nat, thing: MapThing, world: Terrain)
    requires Mirrors(state.floors, state.anchor, world) && InView(state.anchor, p)
    requires index < |world(p)| && index < MAX_OBJECTS_PER_POINT
    ensures Mirrors(ApplyChangeField(state, p, index, thing).state.floors, state.anchor,
                    Set(world, p, world(p)[index := IdentityOf(thing)]))
  {
    ShownHere(state.floors, state.anchor, world, p);
    var things := StackAt(state.floors, p);
    ReplacementAgrees(things, index, thing);
    assert Shown(world(p)[index := IdentityOf(thing)]) == Shown(world(p))[index := IdentityOf(thing)];
    hide Mirrors, StackAt, WriteField, Set, RecordCreature, RefreshThings;
    WriteKeepsMirror(state.floors, state.anchor, world, p, things[index := thing],
      world(p)[index := IdentityOf(thing)]);
  }

  lemma RemoveKeepsMirror(state: State, p: MapPosition, index: nat, world: Terrain)
    requires Mirrors(state.floors, state.anchor, world) && InView(state.anchor, p)
    requires index < |world(p)| <= MAX_OBJECTS_PER_POINT
    ensures Mirrors(ApplyDeleteField(state, p, index).state.floors, state.anchor,
      Set(world, p, RemoveAt(world(p), index)))
  {
    ShownHere(state.floors, state.anchor, world, p);
    var things := StackAt(state.floors, p);
    RemovalAgrees(things, index);
    hide Mirrors, StackAt, WriteField, Set, RefreshThings;
    WriteKeepsMirror(state.floors, state.anchor, world, p, RemoveAt(things, index), RemoveAt(world(p), index));
  }

  lemma WalkKeepsMirror(
      state: State, p: MapPosition, index: nat, destination: MapPosition, world: Terrain, types: Types)
    requires Mirrors(state.floors, state.anchor, world) && InView(state.anchor, p) && InView(state.anchor, destination)
    requires Possible(Walk(p, index, destination), world) && index < MAX_OBJECTS_PER_POINT
    requires Trackable(Walk(p, index, destination), world, types)
    ensures Mirrors(ApplyMoveCreature(state, p, index, destination, types).state.floors, state.anchor,
                    WorldAfter(world, Walk(p, index, destination), types))
  {
    hide InView, InsertIndex, WriteField, Mirrors, StackAt, RefreshThings, ApplyMoveCreature;
    if p == destination {
      ReturnKeepsMirror(state, p, index, world, types);
    } else {
      DepartureKeepsMirror(state, p, index, destination, world, types);
    }
  }

  lemma DepartureKeepsMirror(
      state: State, p: MapPosition, index: nat, destination: MapPosition, world: Terrain, types: Types)
    requires Mirrors(state.floors, state.anchor, world) && InView(state.anchor, p) && InView(state.anchor, destination)
    requires Possible(Walk(p, index, destination), world) && p != destination
    requires |world(p)| <= MAX_OBJECTS_PER_POINT && |world(destination)| < MAX_OBJECTS_PER_POINT
    ensures Mirrors(ApplyMoveCreature(state, p, index, destination, types).state.floors, state.anchor,
                    WorldAfter(world, Walk(p, index, destination), types))
  {
    hide InView, InsertIndex, WriteField, Mirrors, StackAt, RefreshThings;
    ShownHere(state.floors, state.anchor, world, p);
    var things := StackAt(state.floors, p);
    RemovalAgrees(things, index);
    var left := RemoveAt(things, index);
    var world1 := Set(world, p, RemoveAt(world(p), index));
    WriteKeepsMirror(state.floors, state.anchor, world, p, left, RemoveAt(world(p), index));
    var floors := WriteField(state.floors, p, left, state.anchor);
    ShownHere(floors, state.anchor, world1, destination);
    var target := StackAt(floors, destination);
    InsertionAgrees(target, things[index], types);
    assert IdentityOf(things[index]) == Identities(things)[index];
    var grown := InsertAt(target, InsertIndex(Priorities(target, types), PRIORITY_CREATURE), things[index]);
    WriteKeepsMirror(floors, state.anchor, world1, destination, grown,
      PlaceObject(world1(destination), world(p)[index], types));
  }

  // ---- a creature that moves to the field it stands on --------------------------------------

  /** Cut off after `n` objects, a stack has the same insertion index, or its end. */
  lemma {:induction false} IndexInPrefix(existing: seq<Priority>, inserted: Priority, n: nat)
    requires n <= |existing|
    ensures InsertIndex(existing[..n], inserted)
      == if InsertIndex(existing, inserted) < n then InsertIndex(existing, inserted) else n
    decreases n
  {
    if n > 0 && StaysBelow(existing[0], inserted) {
      IndexInPrefix(existing[1..], inserted, n - 1);
      assert existing[..n][1..] == existing[1..][..n - 1];
    }
  }

  /** Taking a creature off the shown stack and putting it back shows what doing so to the
      whole stack shows if and only if it comes back among the first ten. */
  lemma ReturnIsShown(stack: seq<Identity>, index: nat, types: Types)
    requires index < |stack| && index < MAX_OBJECTS_PER_POINT && stack[index].CreatureIdentity?
    ensures PlaceObject(RemoveAt(Shown(stack), index), stack[index], types)
      == Shown(PlaceObject(RemoveAt(stack, index), stack[index], types))
      <==> ReturnIndex(stack, index, types) < MAX_OBJECTS_PER_POINT
  {
    hide InsertAt, RemoveAt, InsertIndex;
    var id, rest := stack[index], RemoveAt(stack, index);
    var n := |Shown(stack)| - 1;
    ShownRest(stack, index);
    assert IdentityPriorities(rest[..n], types) == IdentityPriorities(rest, types)[..n];
    IndexInPrefix(IdentityPriorities(rest, types), PRIORITY_CREATURE, n);
    var j := ReturnIndex(stack, index, types);
    if j <= n {
      InsertedInPrefix(rest, n, j, id);
    } else {
      Grown(rest[..n], n, id);
      Grown(rest, j, id);
      assert StaysBelow(IdentityPriorities(rest, types)[n], PRIORITY_CREATURE);
    }
  }

  lemma ShownRest(stack: seq<Identity>, index: nat)
    requires index < |Shown(stack)|
    ensures RemoveAt(Shown(stack), index) == RemoveAt(stack, index)[..|Shown(stack)| - 1]
  {
  }

  lemma InsertedInPrefix(rest: seq<Identity>, n: nat, index: nat, id: Identity)
    requires index <= n <= |rest|
    ensures InsertAt(rest[..n], index, id) == InsertAt(rest, index, id)[..n + 1]
  {
  }

  /** On a stack in order it always does: only a field whose objects are out of order can show a
      creature among the first ten and take it back beyond them. */
  lemma OrderedReturnStays(stack: seq<Identity>, index: nat, types: Types)
    requires index < |stack| && stack[index].CreatureIdentity? && Ordered(IdentityPriorities(stack, types))
    ensures ReturnIndex(stack, index, types) <= index
  {
    var priorities := IdentityPriorities(RemoveAt(stack, index), types);
    if index < |priorities| {
      assert IdentityPriorities(stack, types)[index] <= IdentityPriorities(stack, types)[index + 1]
        == priorities[index];
      assert !StaysBelow(priorities[index], PRIORITY_CREATURE);
    }
  }

  /** What the client then shows on the field. */
  lemma ReturnedStack(state: State, p: MapPosition, index: nat, types: Types)
    requires WellFormed(state.floors) && index < |StackAt(state.floors, p)| && StackAt(state.floors, p)[index].Creature?
    ensures var before := Identities(StackAt(state.floors, p));
      Identities(StackAt(ApplyMoveCreature(state, p, index, p, types).state.floors, p))
        == PlaceObject(RemoveAt(before, index), before[index], types)
  {
    var things := StackAt(state.floors, p);
    var left := RemoveAt(things, index);
    var floors := WriteField(state.floors, p, left, state.anchor);
    var grown := InsertAt(left, InsertIndex(Priorities(left, types), PRIORITY_CREATURE), things[index]);
    hide WellFormed, StackAt, WriteField, InsertIndex, RefreshThings;
    WriteFieldAt(state.floors, p, left, state.anchor, p);
    WriteFieldAt(floors, p, grown, state.anchor, p);
    RemovalAgrees(things, index);
    InsertionAgrees(left, things[index], types);
  }

  /** A move that does not move keeps the mirror exact when the creature comes back among the
      first ten. */
  lemma ReturnKeepsMirror(state: State, p: MapPosition, index: nat, world: Terrain, types: Types)
    requires Mirrors(state.floors, state.anchor, world) && InView(state.anchor, p)
    requires Possible(Walk(p, index, p), world) && index < MAX_OBJECTS_PER_POINT
    requires ReturnIndex(world(p), index, types) < MAX_OBJECTS_PER_POINT
    ensures Mirrors(ApplyMoveCreature(state, p, index, p, types).state.floors, state.anchor,
      WorldAfter(world, Walk(p, index, p), types))
  {
    hide InView, InsertIndex, WriteField, Mirrors, StackAt, RefreshThings, PlaceObject, ReturnIndex;
    ShownHere(state.floors, state.anchor, world, p);
    ReturnIsShown(world(p), index, types);
    var things := StackAt(state.floors, p);
    var left := RemoveAt(things, index);
    var grown := InsertAt(left, InsertIndex(Priorities(left, types), PRIORITY_CREATURE), things[index]);
    RemovalAgrees(things, index);
    InsertionAgrees(left, things[index], types);
    assert IdentityOf(things[index]) == world(p)[index];
    WriteKeepsMirror(state.floors, state.anchor, world, p, left, Identities(left));
    var floors, between := WriteField(state.floors, p, left, state.anchor), Set(world, p, Identities(left));
    var stack := PlaceObject(RemoveAt(world(p), index), world(p)[index], types);
    WriteKeepsMirror(floors, state.anchor, between, p, grown, stack);
    SameWorld(WriteField(floors, p, grown, state.anchor), state.anchor, Set(between, p, stack),
      WorldAfter(world, Walk(p, index, p), types));
  }

  lemma SameWorld(floors: seq<MapFloor>, anchor: MapPosition, world: Terrain, same: Terrain)
    requires Mirrors(floors, anchor, world) && forall p :: world(p) == same(p)
    ensures Mirrors(floors, anchor, same)
  {
    hide InView, StackAt, Levels, WellFormed, Anchored, Shown;
  }

  /** ...and leaves it wrong when it does not. */
  lemma CrowdedReturnBreaks(state: State, p: MapPosition, index: nat, world: Terrain, types: Types)
    requires Mirrors(state.floors, state.anchor, world) && InView(state.anchor, p)
    requires Possible(Walk(p, index, p), world) && index < MAX_OBJECTS_PER_POINT <= ReturnIndex(world(p), index, types)
    ensures Identities(StackAt(ApplyMoveCreature(state, p, index, p, types).state.floors, p))
      != Shown(WorldAfter(world, Walk(p, index, p), types)(p))
  {
    hide InView, StackAt, ApplyMoveCreature, PlaceObject, ReturnIndex;
    ShownHere(state.floors, state.anchor, world, p);
    ReturnIsShown(world(p), index, types);
    assert Identities(StackAt(state.floors, p))[index] == world(p)[index];
    ReturnedStack(state, p, index, types);
  }

  /** An edit that leaves every shown stack as it was needs no announcement. */
  lemma SilentEditKeepsMirror(
      floors: seq<MapFloor>, anchor: MapPosition, world: Terrain, p: MapPosition, stack: seq<Identity>)
    requires Mirrors(floors, anchor, world)
    requires InView(anchor, p) ==> Shown(stack) == Shown(world(p))
    ensures Mirrors(floors, anchor, Set(world, p, stack))
  {
    hide InView, StackAt, Levels, WellFormed, Anchored;
  }

  /** One announced event, of any kind, keeps the mirror exact. */
  lemma EventKeepsMirror(state: State, event: Event, update: Option<ServerUpdate>, world: Terrain, types: Types)
    requires Mirrors(state.floors, state.anchor, world)
    requires Possible(event, world) && Announces(update, event, state.anchor, world) && Trackable(event, world, types)
    ensures var after := Advance(state, update, AnchorAfter(state.anchor, event), types);
      after.anchor == AnchorAfter(state.anchor, event)
      && Mirrors(after.floors, after.anchor, WorldAfter(world, event, types))
  {
    hide InView, Mirrors, Describes, StackAt, Set, MergeFloors, Prune, RecordFloors, WriteField, InsertIndex,
      RefreshThings, PlaceObject;
    match event
    case Arrive(at) => SnapshotMirrors(state, update.value, at, world);
    case Step(direction) => RowKeepsMirror(state.floors, state.anchor, direction, update.value.floors, world);
    case Climb(up) => FloorChangeKeepsMirror(state.floors, state.anchor, up, update.value.floors, world);
    case Rewrite(p, stack) => InViewIsInWindow(state.anchor, p); RewriteKeepsMirror(state, update.value.tile, stack,
      world);
    case Place(p, id) => PlaceKeepsMirror(state, p, update.value.thing, world, types);
    case Replace(p, index, id) =>
      if index < MAX_OBJECTS_PER_POINT {
        ReplaceKeepsMirror(state, p, index, update.value.thing, world);
      } else {
        SilentEditKeepsMirror(state.floors, state.anchor, world, p, world(p)[index := id]);
      }
    case Remove(p, index) =>
      if index < MAX_OBJECTS_PER_POINT {
        RemoveKeepsMirror(state, p, index, world);
      } else {
        SilentEditKeepsMirror(state.floors, state.anchor, world, p, RemoveAt(world(p), index));
      }
    case Walk(p, index, destination) =>
      if index < MAX_OBJECTS_PER_POINT {
        WalkKeepsMirror(state, p, index, destination, world, types);
      } else {
        UnseenWalkKeepsMirror(state, p, index, destination, update.value.thing, world, types);
      }
    case Unseen(p, stack) => SilentEditKeepsMirror(state.floors, state.anchor, world, p, stack);
    case Aside => AsideKeepsMap(state, update.value, state.anchor, types);
  }

  lemma InViewIsInWindow(anchor: MapPosition, p: MapPosition)
    requires InView(anchor, p)
    ensures WithinFloorWindow(anchor, p)
  {
  }

  /** A creature beyond the tenth object of its field walks into view as a new object. */
  lemma UnseenWalkKeepsMirror(
      state: State, p: MapPosition, index: nat, destination: MapPosition, thing: MapThing, world: Terrain, types: Types)
    requires Mirrors(state.floors, state.anchor, world) && InView(state.anchor, p) && InView(state.anchor, destination)
    requires Possible(Walk(p, index, destination), world) && index >= MAX_OBJECTS_PER_POINT
    requires Trackable(Walk(p, index, destination), world, types) && IdentityOf(thing) == world(p)[index]
    ensures Mirrors(ApplyAddField(state, destination, thing, types).state.floors, state.anchor,
                    WorldAfter(world, Walk(p, index, destination), types))
  {
    hide InView, InsertIndex, WriteField, Mirrors, StackAt, RefreshThings;
    var left := Set(world, p, RemoveAt(world(p), index));
    assert Shown(RemoveAt(world(p), index)) == Shown(world(p));
    SilentEditKeepsMirror(state.floors, state.anchor, world, p, RemoveAt(world(p), index));
    PlaceKeepsMirror(state, destination, thing, left, types);
  }

  lemma ShownLength(floors: seq<MapFloor>, anchor: MapPosition, world: Terrain, p: MapPosition)
    requires Mirrors(floors, anchor, world) && InView(anchor, p)
    ensures |StackAt(floors, p)| == |Shown(world(p))|
  {
    ShownHere(floors, anchor, world, p);
  }

  lemma AddedLength(state: State, p: MapPosition, thing: MapThing, types: Types)
    requires WellFormed(state.floors) && WithinFloorWindow(state.anchor, p)
    ensures |StackAt(ApplyAddField(state, p, thing, types).state.floors, p)| == |StackAt(state.floors, p)| + 1
  {
    var things := StackAt(state.floors, p);
    var grown := InsertAt(things, InsertIndex(Priorities(things, types), ThingPriority(thing, types)), thing);
    hide WellFormed, StackAt, WriteField, InsertIndex, RefreshThings, RecordCreature;
    WriteFieldAt(state.floors, p, grown, state.anchor, p);
  }

  lemma MovedLengths(state: State, p: MapPosition, index: nat, destination: MapPosition, types: Types)
    requires WellFormed(state.floors) && p != destination
    requires index < |StackAt(state.floors, p)| && StackAt(state.floors, p)[index].Creature?
    ensures var after := ApplyMoveCreature(state, p, index, destination, types).state.floors;
      |StackAt(after, p)| == |StackAt(state.floors, p)| - 1
      && |StackAt(after, destination)| == |StackAt(state.floors, destination)| + 1
  {
    var left := RemoveAt(StackAt(state.floors, p), index);
    var floors := WriteField(state.floors, p, left, state.anchor);
    var target := StackAt(floors, destination);
    var grown := InsertAt(target, InsertIndex(Priorities(target, types), PRIORITY_CREATURE),
      StackAt(state.floors, p)[index]);
    hide WellFormed, StackAt, WriteField, InsertIndex, RefreshThings;
    WriteFieldAt(state.floors, p, left, state.anchor, p);
    WriteFieldAt(state.floors, p, left, state.anchor, destination);
    WriteFieldAt(floors, destination, grown, state.anchor, p);
    WriteFieldAt(floors, destination, grown, state.anchor, destination);
  }

  lemma CrowdedPlaceBreaks(state: State, p: MapPosition, thing: MapThing, world: Terrain, types: Types)
    requires Mirrors(state.floors, state.anchor, world) && InView(state.anchor, p)
    requires |world(p)| >= MAX_OBJECTS_PER_POINT
    ensures |StackAt(ApplyAddField(state, p, thing, types).state.floors, p)| > MAX_OBJECTS_PER_POINT
  {
    hide InView, StackAt, ApplyAddField, WithinFloorWindow;
    InViewIsInWindow(state.anchor, p);
    ShownLength(state.floors, state.anchor, world, p);
    AddedLength(state, p, thing, types);
  }

  lemma CrowdedRemoveBreaks(state: State, p: MapPosition, index: nat, world: Terrain)
    requires Mirrors(state.floors, state.anchor, world) && InView(state.anchor, p)
    requires index < MAX_OBJECTS_PER_POINT < |world(p)|
    ensures |StackAt(ApplyDeleteField(state, p, index).state.floors, p)| < MAX_OBJECTS_PER_POINT
  {
    hide InView, StackAt, WellFormed, WriteField, RefreshThings, Anchored, Levels;
    ShownLength(state.floors, state.anchor, world, p);
    WriteFieldAt(state.floors, p, RemoveAt(StackAt(state.floors, p), index), state.anchor, p);
  }

  lemma CrowdedWalkBreaks(
      state: State, p: MapPosition, index: nat, destination: MapPosition, world: Terrain, types: Types)
    requires Mirrors(state.floors, state.anchor, world) && InView(state.anchor, p) && InView(state.anchor, destination)
    requires Possible(Walk(p, index, destination), world) && index < MAX_OBJECTS_PER_POINT && p != destination
    ensures var after := ApplyMoveCreature(state, p, index, destination, types).state.floors;
      && (|world(p)| > MAX_OBJECTS_PER_POINT ==> |StackAt(after, p)| < MAX_OBJECTS_PER_POINT)
      && (|world(destination)| >= MAX_OBJECTS_PER_POINT ==> |StackAt(after, destination)| > MAX_OBJECTS_PER_POINT)
  {
    hide InView, StackAt, ApplyMoveCreature;
    ShownHere(state.floors, state.anchor, world, p);
    assert Identities(StackAt(state.floors, p))[index] == world(p)[index];
    ShownLength(state.floors, state.anchor, world, destination);
    MovedLengths(state, p, index, destination, types);
  }

  /** A field of the next world that shows at most, or exactly, ten objects. */
  lemma ShownIsTen(floors: seq<MapFloor>, anchor: MapPosition, world: Terrain, p: MapPosition)
    requires Mirrors(floors, anchor, world) && InView(anchor, p)
    ensures |StackAt(floors, p)| <= MAX_OBJECTS_PER_POINT
    ensures |world(p)| >= MAX_OBJECTS_PER_POINT ==> |StackAt(floors, p)| == MAX_OBJECTS_PER_POINT
  {
    ShownLength(floors, anchor, world, p);
  }

  /** The bound is exact: an event that is not trackable always leaves the mirror wrong. */
  lemma UntrackableBreaksMirror(state: State, event: Event, update: Option<ServerUpdate>, world: Terrain, types: Types)
    requires Mirrors(state.floors, state.anchor, world)
    requires Possible(event, world) && Announces(update, event, state.anchor, world) && !Trackable(event, world, types)
    ensures var after := Advance(state, update, AnchorAfter(state.anchor, event), types);
      !Mirrors(after.floors, after.anchor, WorldAfter(world, event, types))
  {
    hide Mirrors, InView, Shown, StackAt, Describes, PlaceObject, ApplyAddField, ApplyMoveCreature, ApplyDeleteField,
      ApplyFullScreen, ApplyRevealed, ApplyFieldData, ApplyChangeField;
    var after := Advance(state, update, AnchorAfter(state.anchor, event), types);
    var world' := WorldAfter(world, event, types);
    if Mirrors(after.floors, after.anchor, world') {
      match event {
        case Place(p, _) =>
          CrowdedPlaceBreaks(state, p, update.value.thing, world, types);
          EditKeepsAnchor(state, update.value, types);
          ShownIsTen(after.floors, after.anchor, world', p);
        case Remove(p, index) =>
          CrowdedRemoveBreaks(state, p, index, world);
          EditKeepsAnchor(state, update.value, types);
          ShownIsTen(after.floors, after.anchor, world', p);
        case Walk(p, index, destination) =>
          EditKeepsAnchor(state, update.value, types);
          if index < MAX_OBJECTS_PER_POINT && p == destination {
            CrowdedReturnBreaks(state, p, index, world, types);
            ShownHere(after.floors, after.anchor, world', p);
          } else if index < MAX_OBJECTS_PER_POINT {
            CrowdedWalkBreaks(state, p, index, destination, world, types);
            if |world(p)| > MAX_OBJECTS_PER_POINT { ShownIsTen(after.floors, after.anchor, world', p); }
          } else {
            CrowdedPlaceBreaks(state, destination, update.value.thing, world, types);
          }
          ShownIsTen(after.floors, after.anchor, world', destination);
      }
    }
  }

  lemma EditKeepsAnchor(state: State, update: ServerUpdate, types: Types)
    requires update.AddField? || update.DeleteField? || update.MoveCreature?
    ensures Apply(state, update, state.anchor, types).state.anchor == state.anchor
  {
    hide StackAt, WriteField, RefreshThings, RecordCreature, InsertIndex;
  }

  // ---- whole sessions -------------------------------------------------------------------

  datatype Happening = Happening(event: Event, update: Option<ServerUpdate>)

  ghost predicate Session(anchor: MapPosition, world: Terrain, run: seq<Happening>, types: Types)
    decreases |run|
  {
    run == [] ||
    (&& ValidAnchor(anchor) && Possible(run[0].event, world)
     && Announces(run[0].update, run[0].event, anchor, world)
     && Trackable(run[0].event, world, types)
     && Session(AnchorAfter(anchor, run[0].event), WorldAfter(world, run[0].event, types), run[1..], types))
  }

  ghost function WorldNow(anchor: MapPosition, world: Terrain, run: seq<Happening>, types: Types): Terrain
    requires Session(anchor, world, run, types)
    decreases |run|
  {
    if run == [] then world
    else WorldNow(AnchorAfter(anchor, run[0].event), WorldAfter(world, run[0].event, types), run[1..], types)
  }

  function StateNow(state: State, run: seq<Happening>, types: Types): State
    decreases |run|
  {
    if run == [] then state
    else StateNow(Advance(state, run[0].update, AnchorAfter(state.anchor, run[0].event), types), run[1..], types)
  }

  lemma {:induction false} SessionKeepsMirror(state: State, world: Terrain, run: seq<Happening>, types: Types)
    requires Mirrors(state.floors, state.anchor, world) && state.window == WindowAt(state.anchor)
    requires Session(state.anchor, world, run, types)
    ensures var now := StateNow(state, run, types);
      Mirrors(now.floors, now.anchor, WorldNow(state.anchor, world, run, types)) && now.window == WindowAt(now.anchor)
    decreases |run|
  {
    hide Mirrors, Announces, Trackable, Advance, WorldAfter, Possible;
    if run != [] {
      var next := AnchorAfter(state.anchor, run[0].event);
      EventKeepsMirror(state, run[0].event, run[0].update, world, types);
      WindowFollows(state, run[0].event, run[0].update, world, types);
      SessionKeepsMirror(Advance(state, run[0].update, next, types), WorldAfter(world, run[0].event, types), run[1..],
        types);
    }
  }

  lemma WindowFollows(state: State, event: Event, update: Option<ServerUpdate>, world: Terrain, types: Types)
    requires state.window == WindowAt(state.anchor) && ValidAnchor(state.anchor)
    requires Possible(event, world) && Announces(update, event, state.anchor, world)
    ensures var after := Advance(state, update, AnchorAfter(state.anchor, event), types);
      after.window == WindowAt(after.anchor)
  {
    hide InView, Describes, StackAt, MergeFloors, Prune, RecordFloors, WriteField, InsertIndex, RefreshThings,
      RecordThings;
  }

  /** The same view up to the order of tiles within a floor. */
  ghost predicate SameView(a: seq<MapFloor>, b: seq<MapFloor>) {
    && Levels(a) == Levels(b)
    && (forall i :: 0 <= i < |a| && i < |b| ==> a[i].offset == b[i].offset)
    && forall p :: Identities(StackAt(a, p)) == Identities(StackAt(b, p))
  }

  /** The main result. Log in anywhere, then let any run of steps, floor changes, teleports
      and edits happen: the mirror equals the snapshot a fresh login would deliver now. */
  lemma MirrorEqualsFreshSnapshot(
      start: State, login: ServerUpdate, at: MapPosition, world: Terrain, run: seq<Happening>, latest: ServerUpdate,
      types: Types)
    requires ValidAnchor(at) && SnapshotOf(login, at, world)
    requires Session(at, world, run, types)
    requires var now := StateNow(ApplyFullScreen(start, login.window, login.floors).state, run, types);
      ValidAnchor(now.anchor) && SnapshotOf(latest, now.anchor, WorldNow(at, world, run, types))
    ensures var now := StateNow(ApplyFullScreen(start, login.window, login.floors).state, run, types);
      SameView(now.floors, latest.floors) && now.window == latest.window
  {
    hide Session, StateNow, InView, RecordFloors;
    var first := ApplyFullScreen(start, login.window, login.floors).state;
    SnapshotMirrors(start, login, at, world);
    SessionKeepsMirror(first, world, run, types);
    var now := StateNow(first, run, types);
    SameLevelsSameOffsets(now.floors, latest.floors, now.anchor);
  }

  lemma SameLevelsSameOffsets(a: seq<MapFloor>, b: seq<MapFloor>, anchor: MapPosition)
    requires Levels(a) == Levels(b) && Anchored(a, anchor) && Anchored(b, anchor)
    ensures |a| == |b| && forall i :: 0 <= i < |a| ==> a[i].offset == b[i].offset
  {
    forall i | 0 <= i < |a| ensures a[i].offset == b[i].offset {
      assert Levels(a)[i] == Levels(b)[i];
    }
  }
}
