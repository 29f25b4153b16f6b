/** The world mirror as a value, and what each server update makes of it. The class
    WorldState computes these functions in place; everything proved about runs of updates
    is proved about them. */
module Mirror {
  import opened World
  import opened Viewport
  import opened ObjectTypes
  import opened Updates
  import opened Floors

  const KNOWN_CREATURE_TABLE_SIZE := 150
  const ORIGIN := MapPosition(0, 0, 0)

  datatype CreatureRecord = CreatureRecord(
    id: quad, hasDescriptor: bool, name: seq<byte>, health: byte, direction: byte, outfit: Outfit,
    brightness: byte, lightColour: byte, speed: word, skull: byte, party: byte,
    position: MapPosition, stack: nat)

  datatype AnomalyKind =
    | StackIndexOutOfRange
    | MoveOriginMismatch
    | FieldOutsideViewport
    | UnknownCreatureReference
    | UnknownEvictedCreature
    | KnownCreatureTableOverflow

  datatype Anomaly = Anomaly(kind: AnomalyKind, creature: quad, position: MapPosition)

  datatype OpenContainer =
    OpenContainer(open: bool, typeId: word, name: seq<byte>, capacity: byte, hasParent: bool, objects: seq<ItemThing>)

  const CLOSED := OpenContainer(false, 0, [], 0, false, [])

  datatype Combat = Combat(target: quad, following: bool, tacticsSent: bool, attack: byte, chase: byte, secure: byte)

  datatype State = State(
    mapInitialized: bool,
    window: Window,
    floors: seq<MapFloor>,
    known: map<quad, CreatureRecord>,
    anchor: MapPosition,
    localCreature: quad,
    ambient: Option<(byte, byte)>,
    stats: Option<Stats>,
    skills: Option<Skills>,
    flags: Option<byte>,
    inventory: seq<Option<ItemThing>>,
    containers: seq<OpenContainer>,
    combat: Combat)

  /** What a client knows before anything has arrived. */
  function Fresh(): State {
    State(false, Window(ORIGIN, 0, 0, WIDTH, HEIGHT), [], map[], ORIGIN, 0, None, None, None, None,
          seq(11, _ => None), seq(16, _ => CLOSED), Combat(0, false, false, 2, 0, 1))
  }

  // ---- the creature mirror ----------------------------------------------------------

  /** The creature records and the anomalies reported so far. */
  datatype Registry = Registry(known: map<quad, CreatureRecord>, anomalies: seq<Anomaly>)

  function NewRecord(id: quad): CreatureRecord {
    CreatureRecord(id, false, [], 0, 0, Unset, 0, 0, 0, 0, 0, ORIGIN, 0)
  }

  function Refreshed(record: CreatureRecord, creature: CreatureThing, p: MapPosition, stack: nat): CreatureRecord {
    var placed := record.(id := creature.id, position := p, stack := stack, direction := creature.Direction());
    var named := if creature.Introduced? then placed.(name := creature.name) else placed;
    if creature.Known? then named else
      named.(hasDescriptor := true, health := creature.look.health, outfit := creature.look.outfit,
             brightness := creature.look.brightness, lightColour := creature.look.lightColour,
             speed := creature.look.speed, skull := creature.look.skull, party := creature.look.party)
  }

  /** A word-97 descriptor that names its own id evicts nothing: that is what a relog sends. */
  predicate Evicts(creature: CreatureThing) {
    creature.Introduced? && creature.evicted != 0 && creature.evicted != creature.id
  }

  function Report(registry: Registry, kind: AnomalyKind, id: quad, p: MapPosition): Registry {
    registry.(anomalies := registry.anomalies + [Anomaly(kind, id, p)])
  }

  function EvictFor(registry: Registry, creature: CreatureThing, p: MapPosition): Registry {
    if !Evicts(creature) then registry
    else if creature.evicted in registry.known then registry.(known := registry.known - {creature.evicted})
    else Report(registry, UnknownEvictedCreature, creature.evicted, p)
  }

  /** A snapshot reports an outdated descriptor of an unknown creature; the incremental
      commands do not. */
  function MissFor(registry: Registry, creature: CreatureThing, p: MapPosition, snapshot: bool): Registry {
    if creature.id in registry.known then registry
    else if creature.Known? || (snapshot && creature.Outdated?) then Report(registry, UnknownCreatureReference,
      creature.id, p)
    else registry
  }

  function RecordCreature(
      registry: Registry, creature: CreatureThing, p: MapPosition, stack: nat, snapshot: bool): Registry
  {
    var checked := MissFor(EvictFor(registry, creature, p), creature, p, snapshot);
    var record := if creature.id in checked.known then checked.known[creature.id] else NewRecord(creature.id);
    checked.(known := checked.known[creature.id := Refreshed(record, creature, p, stack)])
  }

  function RecordThings(registry: Registry, things: seq<MapThing>, p: MapPosition, n: nat, snapshot: bool): Registry
    requires n <= |things|
  {
    if n == 0 then registry else
      var before := RecordThings(registry, things, p, n - 1, snapshot);
      if things[n - 1].Creature? then RecordCreature(before, things[n - 1].creature, p, n - 1, snapshot) else before
  }

  function RecordTiles(registry: Registry, tiles: seq<MapTile>, n: nat, snapshot: bool): Registry
    requires n <= |tiles|
  {
    if n == 0 then registry else
      var tile := tiles[n - 1];
      RecordThings(RecordTiles(registry, tiles, n - 1, snapshot), tile.things, tile.position, |tile.things|, snapshot)
  }

  function RecordFloors(registry: Registry, floors: seq<MapFloor>, n: nat, snapshot: bool): Registry
    requires n <= |floors|
  {
    if n == 0 then registry else
      RecordTiles(RecordFloors(registry, floors, n - 1, snapshot), floors[n - 1].tiles, |floors[n - 1].tiles|, snapshot)
  }

  /** After an edit every creature on the field gets its new stack index. */
  function RefreshThings(
      known: map<quad, CreatureRecord>, things: seq<MapThing>, p: MapPosition, n: nat): map<quad, CreatureRecord>
    requires n <= |things|
  {
    if n == 0 then known else
      var before := RefreshThings(known, things, p, n - 1);
      var thing := things[n - 1];
      if thing.Creature? && thing.creature.id in before
      then before[thing.creature.id := before[thing.creature.id].(position := p, stack := n - 1)]
      else before
  }

  function Refresh(known: map<quad, CreatureRecord>, things: seq<MapThing>, p: MapPosition): map<quad, CreatureRecord> {
    RefreshThings(known, things, p, |things|)
  }

  // ---- applying one update ------------------------------------------------------------

  datatype Applied = Applied(state: State, anomalies: seq<Anomaly>)

  function Unchanged(state: State): Applied {
    Applied(state, [])
  }

  function Refused(state: State, kind: AnomalyKind, p: MapPosition): Applied {
    Applied(state, [Anomaly(kind, 0, p)])
  }

  function ApplyFullScreen(state: State, window: Window, floors: seq<MapFloor>): Applied {
    var registry := RecordFloors(Registry(state.known, []), floors, |floors|, true);
    var checked := if |registry.known| > KNOWN_CREATURE_TABLE_SIZE then Report(registry, KnownCreatureTableOverflow, 0,
      ORIGIN) else registry;
    Applied(state.(mapInitialized := true, window := window, floors := floors, anchor := window.player,
      known := checked.known),
            checked.anomalies)
  }

  /** Rows and floor changes: merge what arrived, forget what left. */
  function ApplyRevealed(state: State, anchor: MapPosition, incoming: seq<MapFloor>): Applied {
    var floors := Prune(MergeFloors(state.floors, incoming, |incoming|, anchor), anchor);
    var registry := RecordFloors(Registry(state.known, []), incoming, |incoming|, false);
    Applied(state.(anchor := anchor, floors := floors, window := WindowAt(anchor), known := registry.known),
      registry.anomalies)
  }

  function ApplyFieldData(state: State, tile: MapTile): Applied {
    if !WithinFloorWindow(state.anchor, tile.position) then Refused(state, FieldOutsideViewport, tile.position) else
      var refreshed := Refresh(state.known, tile.things, tile.position);
      var registry := RecordThings(Registry(refreshed, []), tile.things, tile.position, |tile.things|, false);
      Applied(state.(floors := WriteField(state.floors, tile.position, tile.things, state.anchor),
        known := registry.known),
              registry.anomalies)
  }

  function ApplyAddField(state: State, p: MapPosition, thing: MapThing, types: Types): Applied {
    if !WithinFloorWindow(state.anchor, p) then Refused(state, FieldOutsideViewport, p) else
      var things := StackAt(state.floors, p);
      var index := InsertIndex(Priorities(things, types), ThingPriority(thing, types));
      var grown := InsertAt(things, index, thing);
      var refreshed := Refresh(state.known, grown, p);
      var registry := if thing.Creature? then RecordCreature(Registry(refreshed, []), thing.creature, p, index, false)
        else Registry(refreshed, []);
      Applied(state.(floors := WriteField(state.floors, p, grown, state.anchor), known := registry.known),
        registry.anomalies)
  }

  function ApplyChangeField(state: State, p: MapPosition, stack: nat, thing: MapThing): Applied {
    var things := StackAt(state.floors, p);
    if stack >= |things| then Refused(state, StackIndexOutOfRange, p) else
      var changed := things[stack := thing];
      var refreshed := Refresh(state.known, changed, p);
      var registry := if thing.Creature? then RecordCreature(Registry(refreshed, []), thing.creature, p, stack, false)
        else Registry(refreshed, []);
      Applied(state.(floors := WriteField(state.floors, p, changed, state.anchor), known := registry.known),
        registry.anomalies)
  }

  function ApplyDeleteField(state: State, p: MapPosition, stack: nat): Applied {
    var things := StackAt(state.floors, p);
    if stack >= |things| then Refused(state, StackIndexOutOfRange, p) else
      var left := RemoveAt(things, stack);
      Applied(state.(floors := WriteField(state.floors, p, left, state.anchor), known := Refresh(state.known, left, p)),
        [])
  }

  function ApplyMoveCreature(
      state: State, origin: MapPosition, stack: nat, destination: MapPosition, types: Types): Applied
  {
    var things := StackAt(state.floors, origin);
    if stack >= |things| || !things[stack].Creature? then Refused(state, MoveOriginMismatch, origin) else
      var moved := things[stack];
      var left := RemoveAt(things, stack);
      var floors := WriteField(state.floors, origin, left, state.anchor);
      var target := StackAt(floors, destination);
      var index := InsertIndex(Priorities(target, types), PRIORITY_CREATURE);
      var grown := InsertAt(target, index, moved);
      var refreshed := Refresh(Refresh(state.known, left, origin), grown, destination);
      var id := moved.creature.id;
      var record := if id in refreshed then refreshed[id] else NewRecord(id);
      Applied(state.(floors := WriteField(floors, destination, grown, state.anchor),
                     known := refreshed[id := record.(position := destination, stack := index)]),
              if id in refreshed then [] else [Anomaly(UnknownCreatureReference, id, destination)])
  }

  /** A refused step changes no map state; only the facing the server confirmed is kept. */
  function ApplySnapback(state: State, facing: byte): Applied {
    if state.localCreature != 0 && state.localCreature in state.known
    then
      var record := state.known[state.localCreature].(direction := facing);
      Unchanged(state.(known := state.known[state.localCreature := record]))
    else Unchanged(state)
  }

  function WithAttribute(record: CreatureRecord, attribute: Attribute): CreatureRecord {
    match attribute
    case Health(health) => record.(health := health)
    case Light(brightness, colour) => record.(brightness := brightness, lightColour := colour)
    case Look(outfit) => record.(outfit := outfit)
    case Speed(speed) => record.(speed := speed)
    case Skull(skull) => record.(skull := skull)
    case Party(party) => record.(party := party)
  }

  function ApplyAttribute(state: State, id: quad, attribute: Attribute): Applied {
    if id in state.known then Unchanged(state.(known := state.known[id := WithAttribute(state.known[id], attribute)]))
    else Applied(state, [Anomaly(UnknownCreatureReference, id, ORIGIN)])
  }

  function ApplyInventory(state: State, slot: nat, worn: Option<ItemThing>): Applied {
    if slot < |state.inventory| then Unchanged(state.(inventory := state.inventory[slot := worn])) else Unchanged(state)
  }

  /** What the three effect kinds carry in the inventory part of the update structure:
      slot zero, not cleared, a default item. */
  const UNSET_ITEM: Option<ItemThing> := Some(ItemThing(0, None, None))

  function WithChange(container: OpenContainer, change: ContainerChange): OpenContainer {
    match change
    case Opened(typeId, name, capacity, hasParent, items)
      => OpenContainer(true, typeId, name, capacity, hasParent, items)
    case Closed => CLOSED
    case Created(item) =>
      if !container.open then container else
        var grown := [item] + container.objects;
        container.(objects := if |grown| > MAX_OBJECTS_PER_CONTAINER then grown[..MAX_OBJECTS_PER_CONTAINER] else grown)
    case Changed(slot, item) =>
      if container.open && slot < |container.objects| then container.(objects := container.objects[slot := item])
        else container
    case Deleted(slot) =>
      if container.open && slot < |container.objects| then container.(objects := RemoveAt(container.objects, slot))
        else container
  }

  function ApplyContainer(state: State, number: nat, change: ContainerChange): Applied {
    if number < |state.containers|
    then Unchanged(state.(containers := state.containers[number := WithChange(state.containers[number], change)]))
    else Unchanged(state)
  }

  /** `anchor` is the position the decoder stepped the viewport to. */
  function Apply(state: State, update: ServerUpdate, anchor: MapPosition, types: Types): Applied {
    match update
    case FullScreen(window, floors, _, _) => ApplyFullScreen(state, window, floors)
    case Row(_, floors) => ApplyRevealed(state, anchor, floors)
    case FloorChange(_, floors) => ApplyRevealed(state, anchor, floors)
    case FieldData(tile) => ApplyFieldData(state, tile)
    case AddField(p, thing) => ApplyAddField(state, p, thing, types)
    case ChangeField(p, stack, thing) => ApplyChangeField(state, p, stack, thing)
    case DeleteField(p, stack) => ApplyDeleteField(state, p, stack)
    case MoveCreature(origin, stack, destination) => ApplyMoveCreature(state, origin, stack, destination, types)
    case Snapback(facing) => ApplySnapback(state, facing)
    case CreatureAttribute(id, attribute) => ApplyAttribute(state, id, attribute)
    case Ambient(brightness, colour) => Unchanged(state.(ambient := Some((brightness, colour))))
    case PlayerData(stats) => Unchanged(state.(stats := Some(stats)))
    case PlayerSkills(skills) => Unchanged(state.(skills := Some(skills)))
    case PlayerState(flags) => Unchanged(state.(flags := Some(flags)))
    case GraphicalEffect(_, _) => ApplyInventory(state, 0, UNSET_ITEM)
    case TextualEffect(_, _, _) => ApplyInventory(state, 0, UNSET_ITEM)
    case MissileEffect(_, _, _) => ApplyInventory(state, 0, UNSET_ITEM)
    case Inventory(slot, worn) => ApplyInventory(state, slot, worn)
    case Container(number, change) => ApplyContainer(state, number, change)
    case InitGame(creature) => Unchanged(state.(localCreature := creature))
    case ClearTarget => Unchanged(state.(combat := state.combat.(target := 0, following := false)))
    case _ => Unchanged(state)
  }

  /** What is not about fields changes neither them nor where the client looks. */
  lemma AsideKeepsMap(state: State, update: ServerUpdate, next: MapPosition, types: Types)
    requires !TouchesMap(update)
    ensures var after := Apply(state, update, next, types).state;
      after.floors == state.floors && after.anchor == state.anchor && after.window == state.window
  {
    hide WithChange, WithAttribute;
  }
}
