/** clientcore/src/movement.cpp and initial_world.cpp as they run: a WorldState whose methods
    rewrite its fields in loops. Each method computes the function of Mirror or Floors that
    specifies it. */
module WorldStates {
  import opened World
  import opened Viewport
  import opened ObjectTypes
  import opened Updates
  import F = Floors
  import M = Mirror

  class WorldState {
    var mapInitialized: bool
    var window: Window
    var floors: seq<MapFloor>
    var known: map<quad, M.CreatureRecord>
    var anchor: MapPosition
    var localCreature: quad
    var ambient: Option<(byte, byte)>
    var stats: Option<Stats>
    var skills: Option<Skills>
    var flags: Option<byte>
    var inventory: seq<Option<ItemThing>>
    var containers: seq<M.OpenContainer>
    var combat: M.Combat

    constructor ()
      ensures Valid() && Snapshot() == M.Fresh()
    {
      mapInitialized := false;
      window := Window(M.ORIGIN, 0, 0, WIDTH, HEIGHT);
      floors, known, anchor, localCreature := [], map[], M.ORIGIN, 0;
      ambient, stats, skills, flags := None, None, None, None;
      inventory, containers := seq(11, _ => None), seq(16, _ => M.CLOSED);
      combat := M.Combat(0, false, false, 2, 0, 1);
    }

    /** The abstract value of the mirror. */
    function Snapshot(): M.State
      reads this
    {
      M.State(mapInitialized, window, floors, known, anchor, localCreature, ambient, stats, skills, flags, inventory,
        containers, combat)
    }

    /** One floor per level and one tile per position: what every reachable state satisfies. */
    ghost predicate Valid()
      reads this
    {
      F.WellFormed(floors)
    }

    // ---- lookup -------------------------------------------------------------------------

    /** Where the tile of `p` is stored; `found` is the null test of the source. */
    method FindTile(p: MapPosition) returns (found: bool, f: nat, t: nat)
      requires F.DistinctFloors(floors)
      ensures found <==> F.HasTile(floors, p)
      ensures found ==>
        f == F.FloorIndex(floors, p.z) && f < |floors| && t == F.TileIndex(floors[f].tiles, p) && t < |floors[f].tiles|
        && F.StackAt(floors, p) == floors[f].tiles[t].things
      ensures !found ==> F.StackAt(floors, p) == []
    {
      f := 0;
      while f < |floors|
        invariant f <= |floors|
        invariant forall i :: 0 <= i < f && floors[i].z == p.z ==> F.TileIndex(floors[i].tiles, p) == |floors[i].tiles|
      {
        if floors[f].z == p.z {
          t := 0;
          while t < |floors[f].tiles|
            invariant t <= |floors[f].tiles|
            invariant forall j :: 0 <= j < t ==> floors[f].tiles[j].position != p
          {
            if floors[f].tiles[t].position == p { return true, f, t; }
            t := t + 1;
          }
        }
        f := f + 1;
      }
      return false, 0, 0;
    }

    /** The ids standing on a stored tile, without repetition. */
    method VisibleCreatureIds() returns (ids: set<quad>)
      ensures forall id: quad :: id in ids <==>
        exists i, j, k ::
          0 <= i < |floors| && 0 <= j < |floors[i].tiles| && 0 <= k < |floors[i].tiles[j].things|
          && Stands(floors[i].tiles[j].things[k], id)
    {
      ids := {};
      for i := 0 to |floors|
        invariant forall id: quad :: id in ids <==> exists i', j, k ::
          0 <= i' < i && 0 <= j < |floors[i'].tiles| && 0 <= k < |floors[i'].tiles[j].things|
          && Stands(floors[i'].tiles[j].things[k], id)
      {
        ghost var before := ids;
        var tiles := floors[i].tiles;
        for j := 0 to |tiles|
          invariant forall id: quad :: id in ids <==> id in before || exists j', k ::
            0 <= j' < j && 0 <= k < |tiles[j'].things| && Stands(tiles[j'].things[k], id)
        {
          ghost var before' := ids;
          var things := tiles[j].things;
          for k := 0 to |things|
            invariant forall id: quad :: id in ids <==>
              id in before' || exists k' :: 0 <= k' < k && Stands(things[k'], id)
          {
            if things[k].Creature? { ids := ids + {things[k].creature.id}; }
          }
        }
      }
    }

    // ---- floors -------------------------------------------------------------------------

    method FindOrCreateFloor(z: int, offset: int) returns (index: nat)
      modifies this`floors
      ensures floors == F.EnsureFloor(old(floors), z, offset)
      ensures index == F.FloorIndex(old(floors), z) && index < |floors| && floors[index].z == z
    {
      index := 0;
      while index < |floors|
        invariant index <= |floors| && floors == old(floors)
        invariant forall i :: 0 <= i < index ==> floors[i].z != z
      {
        if floors[index].z == z {
          floors := floors[index := floors[index].(offset := offset)];
          return;
        }
        index := index + 1;
      }
      floors := floors + [MapFloor(z, offset, [])];
    }

    method MergeFloor(incoming: MapFloor, at: MapPosition)
      modifies this`floors
      ensures floors == F.MergeFloor(old(floors), incoming, at)
    {
      var index := FindOrCreateFloor(incoming.z, at.z - incoming.z);
      ghost var held := floors;
      F.EnsureFloorLevel(old(floors), incoming.z, at.z - incoming.z, incoming.z);
      for n := 0 to |incoming.tiles|
        invariant floors == held[index := held[index].(tiles := F.PutTiles(held[index].tiles, incoming.tiles, n))]
      {
        var tile := incoming.tiles[n];
        var tiles := floors[index].tiles;
        var replaced := false;
        var i := 0;
        while i < |tiles|
          invariant i <= |tiles|
          invariant forall j :: 0 <= j < i ==> tiles[j].position != tile.position
        {
          if tiles[i].position == tile.position {
            replaced := true;
            break;
          }
          i := i + 1;
        }
        floors := floors[index := floors[index].(tiles := if replaced then tiles[i := tile] else tiles + [tile])];
      }
    }

    /** Forget what the viewport left behind and restore the server's emission order. */
    method PruneToAnchor()
      modifies this`floors, this`window
      ensures floors == F.Prune(old(floors), anchor)
      ensures window == WindowAt(anchor)
    {
      var range := ViewportFloorRange(anchor.z);
      var low := if range.first < range.last then range.first else range.last;
      var high := if range.first < range.last then range.last else range.first;
      var kept: seq<MapFloor> := [];
      for n := 0 to |floors|
        invariant floors == old(floors) && kept == F.PruneFloors(floors, anchor, n)
      {
        var floor := floors[n];
        if low <= floor.z <= high {
          var tiles: seq<MapTile> := [];
          for m := 0 to |floor.tiles|
            invariant tiles == F.KeepWithin(floor.tiles, anchor, m)
          {
            if WithinFloorWindow(anchor, floor.tiles[m].position) { tiles := tiles + [floor.tiles[m]]; }
          }
          kept := kept + [MapFloor(floor.z, anchor.z - floor.z, tiles)];
        }
      }
      floors := F.SortFloors(kept, range.step);
      window := AnchoredWindow();
    }

    function AnchoredWindow(): Window
      reads this
    {
      Window(anchor, anchor.x - OFFSET_X, anchor.y - OFFSET_Y, WIDTH, HEIGHT)
    }

    method EnsureTile(p: MapPosition) returns (f: nat, t: nat)
      requires Valid()
      modifies this`floors
      ensures floors == F.EnsureTile(old(floors), p, anchor)
      ensures F.HasTile(floors, p) && f == F.FloorIndex(floors, p.z) && f < |floors|
      ensures t == F.TileIndex(floors[f].tiles, p) && t < |floors[f].tiles|
    {
      hide F.FloorFrom, F.TileFrom;
      F.EnsureTileHas(floors, p, anchor);
      var found;
      found, f, t := FindTile(p);
      if !found {
        f := FindOrCreateFloor(p.z, anchor.z - p.z);
        F.EnsureFloorLevel(old(floors), p.z, anchor.z - p.z, p.z);
        F.EnsureFloorTiles(old(floors), p.z, anchor.z - p.z);
        var tiles := floors[f].tiles;
        t := |tiles|;
        floors := floors[f := floors[f].(tiles := tiles + [MapTile(p, [])])];
        F.SetTilesHolds(F.EnsureFloor(old(floors), p.z, anchor.z - p.z), p.z, tiles + [MapTile(p, [])]);
        assert floors[f].tiles[t].position == p;
      }
    }

    method SetThings(p: MapPosition, f: nat, t: nat, things: seq<MapThing>)
      requires F.HasTile(floors, p) && f == F.FloorIndex(floors, p.z) && t == F.TileIndex(floors[f].tiles, p)
      modifies this`floors
      ensures floors == F.SetThings(old(floors), p, things)
    {
      var tiles := floors[f].tiles;
      floors := floors[f := floors[f].(tiles := tiles[t := MapTile(p, things)])];
    }

    method RemoveTileIfEmpty(p: MapPosition)
      requires F.DistinctFloors(floors)
      modifies this`floors
      ensures floors == F.RemoveTileIfEmpty(old(floors), p)
    {
      var found, f, t := FindTile(p);
      if found && floors[f].tiles[t].things == [] {
        var tiles := floors[f].tiles;
        floors := floors[f := floors[f].(tiles := tiles[..t] + tiles[t + 1..])];
      }
    }

    // ---- creature records ---------------------------------------------------------------

    method RecordCreature(
        creature: CreatureThing, p: MapPosition, stack: nat, snapshot: bool, anomalies: seq<M.Anomaly>)
      returns (reported: seq<M.Anomaly>)
      modifies this`known
      ensures M.Registry(known, reported)
        == M.RecordCreature(M.Registry(old(known), anomalies), creature, p, stack, snapshot)
    {
      reported := anomalies;
      if creature.Introduced? && creature.evicted != 0 && creature.evicted != creature.id {
        if creature.evicted in known {
          known := known - {creature.evicted};
        } else {
          reported := reported + [M.Anomaly(M.UnknownEvictedCreature, creature.evicted, p)];
        }
      }
      var existing := creature.id in known;
      if creature.Known? && !existing {
        reported := reported + [M.Anomaly(M.UnknownCreatureReference, creature.id, p)];
      }
      if snapshot && creature.Outdated? && !existing {
        reported := reported + [M.Anomaly(M.UnknownCreatureReference, creature.id, p)];
      }
      var record := if existing then known[creature.id] else M.NewRecord(creature.id);
      record := record.(id := creature.id, position := p, stack := stack, direction := creature.Direction());
      if creature.Introduced? { record := record.(name := creature.name); }
      if !creature.Known? {
        record := record.(hasDescriptor := true, health := creature.look.health, outfit := creature.look.outfit,
          brightness := creature.look.brightness, lightColour := creature.look.lightColour,
          speed := creature.look.speed, skull := creature.look.skull, party := creature.look.party);
      }
      known := known[creature.id := record];
    }

    method RecordThings(things: seq<MapThing>, p: MapPosition, snapshot: bool, anomalies: seq<M.Anomaly>)
      returns (reported: seq<M.Anomaly>)
      modifies this`known
      ensures M.Registry(known, reported)
        == M.RecordThings(M.Registry(old(known), anomalies), things, p, |things|, snapshot)
    {
      reported := anomalies;
      for k := 0 to |things|
        invariant M.Registry(known, reported)
          == M.RecordThings(M.Registry(old(known), anomalies), things, p, k, snapshot)
      {
        if things[k].Creature? {
          reported := RecordCreature(things[k].creature, p, k, snapshot, reported);
        }
      }
    }

    method RecordFloors(described: seq<MapFloor>, snapshot: bool) returns (reported: seq<M.Anomaly>)
      modifies this`known
      ensures M.Registry(known, reported)
        == M.RecordFloors(M.Registry(old(known), []), described, |described|, snapshot)
    {
      reported := [];
      for i := 0 to |described|
        invariant M.Registry(known, reported) == M.RecordFloors(M.Registry(old(known), []), described, i, snapshot)
      {
        var tiles := described[i].tiles;
        ghost var before := M.Registry(known, reported);
        for j := 0 to |tiles|
          invariant M.Registry(known, reported) == M.RecordTiles(before, tiles, j, snapshot)
        {
          reported := RecordThings(tiles[j].things, tiles[j].position, snapshot, reported);
        }
      }
    }

    method RefreshTileCreatures(things: seq<MapThing>, p: MapPosition)
      modifies this`known
      ensures known == M.Refresh(old(known), things, p)
    {
      for k := 0 to |things|
        invariant known == M.RefreshThings(old(known), things, p, k)
      {
        var thing := things[k];
        if thing.Creature? && thing.creature.id in known {
          known := known[thing.creature.id := known[thing.creature.id].(position := p, stack := k)];
        }
      }
    }

    // ---- updates ------------------------------------------------------------------------

    method ApplyFullScreen(window: Window, described: seq<MapFloor>) returns (anomalies: seq<M.Anomaly>)
      modifies this
      ensures M.Applied(Snapshot(), anomalies) == M.ApplyFullScreen(old(Snapshot()), window, described)
    {
      this.window, floors, mapInitialized, anchor := window, described, true, window.player;
      anomalies := RecordFloors(described, true);
      if |known| > M.KNOWN_CREATURE_TABLE_SIZE {
        anomalies := anomalies + [M.Anomaly(M.KnownCreatureTableOverflow, 0, M.ORIGIN)];
      }
    }

    method ApplyRevealed(described: seq<MapFloor>, next: MapPosition) returns (anomalies: seq<M.Anomaly>)
      modifies this
      ensures M.Applied(Snapshot(), anomalies) == M.ApplyRevealed(old(Snapshot()), next, described)
    {
      hide F.MergeFloor, F.Prune, M.RecordFloors, F.WellFormed;
      anchor := next;
      for n := 0 to |described|
        invariant Snapshot() == old(Snapshot()).(anchor := next, floors := floors)
        invariant floors == F.MergeFloors(old(floors), described, n, next)
      {
        MergeFloor(described[n], next);
      }
      PruneToAnchor();
      anomalies := RecordFloors(described, false);
    }

    method ApplyFieldData(tile: MapTile) returns (anomalies: seq<M.Anomaly>)
      requires Valid()
      modifies this
      ensures M.Applied(Snapshot(), anomalies) == M.ApplyFieldData(old(Snapshot()), tile)
    {
      if !WithinFloorWindow(anchor, tile.position) {
        return [M.Anomaly(M.FieldOutsideViewport, 0, tile.position)];
      }
      var f, t := EnsureTile(tile.position);
      SetThings(tile.position, f, t, tile.things);
      RefreshTileCreatures(tile.things, tile.position);
      anomalies := RecordThings(tile.things, tile.position, false, []);
      DropIfEmpty(old(floors), tile.position, tile.things);
    }

    /** The tail of every edit, and why the floors are then those of `WriteField`. */
    method DropIfEmpty(ghost before: seq<MapFloor>, p: MapPosition, ghost things: seq<MapThing>)
      requires F.WellFormed(before) && F.HasTile(F.EnsureTile(before, p, anchor), p)
      requires floors == F.SetThings(F.EnsureTile(before, p, anchor), p, things)
      modifies this`floors
      ensures floors == F.WriteField(before, p, things, anchor)
    {
      F.EnsureTileGood(before, p, anchor);
      F.SetThingsGood(F.EnsureTile(before, p, anchor), p, things);
      RemoveTileIfEmpty(p);
    }

    /** Both arrivals of the source, ADD_FIELD and the end of MOVE_CREATURE: find the stack
        index from the priorities, insert there, renumber the creatures of the field. */
    method InsertThing(p: MapPosition, thing: MapThing, types: Types) returns (index: nat)
      requires Valid()
      modifies this`floors, this`known
      ensures index == InsertIndex(Priorities(F.StackAt(old(floors), p), types), ThingPriority(thing, types))
      ensures index <= |F.StackAt(old(floors), p)|
      ensures var grown := InsertAt(F.StackAt(old(floors), p), index, thing);
        floors == F.WriteField(old(floors), p, grown, anchor) && known == M.Refresh(old(known), grown, p)
    {
      hide F.WriteField, F.SetThings, F.EnsureTile, F.FloorFrom, F.TileFrom, M.RefreshThings, InsertIndex, F.WellFormed;
      F.EnsureTileAt(floors, p, anchor, p);
      var f, t := EnsureTile(p);
      var things := floors[f].tiles[t].things;
      index := MapStackInsertIndex(Priorities(things, types), ThingPriority(thing, types));
      var grown := InsertAt(things, index, thing);
      SetThings(p, f, t, grown);
      KeepNonEmpty(old(floors), p, grown, anchor);
      RefreshTileCreatures(grown, p);
    }

    /** Both departures, DELETE_FIELD and the start of MOVE_CREATURE. */
    method RemoveThing(p: MapPosition, f: nat, t: nat, stack: nat)
      requires Valid() && F.HasTile(floors, p) && f == F.FloorIndex(floors, p.z) && t == F.TileIndex(floors[f].tiles, p)
      requires stack < |floors[f].tiles[t].things|
      modifies this`floors, this`known
      ensures var left := RemoveAt(F.StackAt(old(floors), p), stack);
        floors == F.WriteField(old(floors), p, left, anchor) && known == M.Refresh(old(known), left, p)
    {
      var left := RemoveAt(floors[f].tiles[t].things, stack);
      SetThings(p, f, t, left);
      RefreshTileCreatures(left, p);
      DropIfEmpty(old(floors), p, left);
    }

    method ApplyAddField(p: MapPosition, thing: MapThing, types: Types) returns (anomalies: seq<M.Anomaly>)
      requires Valid()
      modifies this
      ensures M.Applied(Snapshot(), anomalies) == M.ApplyAddField(old(Snapshot()), p, thing, types)
    {
      hide F.WriteField, F.StackAt, M.RefreshThings, M.RecordCreature, InsertIndex, F.WellFormed, WithinFloorWindow,
        Priorities, ThingPriority, InsertAt;
      if !WithinFloorWindow(anchor, p) {
        return [M.Anomaly(M.FieldOutsideViewport, 0, p)];
      }
      var index := InsertThing(p, thing, types);
      anomalies := [];
      if thing.Creature? {
        anomalies := RecordCreature(thing.creature, p, index, false, []);
      }
    }

    method ApplyChangeField(p: MapPosition, stack: nat, thing: MapThing) returns (anomalies: seq<M.Anomaly>)
      requires Valid()
      modifies this
      ensures M.Applied(Snapshot(), anomalies) == M.ApplyChangeField(old(Snapshot()), p, stack, thing)
    {
      var found, f, t := FindTile(p);
      if !found || stack >= |floors[f].tiles[t].things| {
        return [M.Anomaly(M.StackIndexOutOfRange, 0, p)];
      }
      var changed := floors[f].tiles[t].things[stack := thing];
      SetThings(p, f, t, changed);
      KeepNonEmpty(old(floors), p, changed, anchor);
      RefreshTileCreatures(changed, p);
      anomalies := [];
      if thing.Creature? {
        anomalies := RecordCreature(thing.creature, p, stack, false, []);
      }
    }

    method ApplyDeleteField(p: MapPosition, stack: nat) returns (anomalies: seq<M.Anomaly>)
      requires Valid()
      modifies this
      ensures M.Applied(Snapshot(), anomalies) == M.ApplyDeleteField(old(Snapshot()), p, stack)
    {
      hide F.WriteField, M.RefreshThings;
      var found, f, t := FindTile(p);
      if !found || stack >= |floors[f].tiles[t].things| {
        return [M.Anomaly(M.StackIndexOutOfRange, 0, p)];
      }
      RemoveThing(p, f, t, stack);
      anomalies := [];
    }

    /** The arrival half of a move: insert the creature and point its record at the field. */
    method ArriveAt(destination: MapPosition, moved: MapThing, types: Types) returns (anomalies: seq<M.Anomaly>)
      requires Valid() && moved.Creature?
      modifies this`floors, this`known
      ensures var target := F.StackAt(old(floors), destination);
        var index := InsertIndex(Priorities(target, types), PRIORITY_CREATURE);
        var grown := InsertAt(target, index, moved);
        var refreshed := M.Refresh(old(known), grown, destination);
        var id := moved.creature.id;
        var record := if id in refreshed then refreshed[id] else M.NewRecord(id);
        && floors == F.WriteField(old(floors), destination, grown, anchor)
        && known == refreshed[id := record.(position := destination, stack := index)]
        && anomalies == if id in refreshed then [] else [M.Anomaly(M.UnknownCreatureReference, id, destination)]
    {
      var index := InsertThing(destination, moved, types);
      var id := moved.creature.id;
      anomalies := if id in known then [] else [M.Anomaly(M.UnknownCreatureReference, id, destination)];
      var record := if id in known then known[id] else M.NewRecord(id);
      known := known[id := record.(position := destination, stack := index)];
    }

    method ApplyMoveCreature(
        origin: MapPosition, stack: nat, destination: MapPosition, types: Types) returns (anomalies: seq<M.Anomaly>)
      requires Valid()
      modifies this
      ensures M.Applied(Snapshot(), anomalies)
        == M.ApplyMoveCreature(old(Snapshot()), origin, stack, destination, types)
    {
      var found, f, t := FindTile(origin);
      if !found || stack >= |floors[f].tiles[t].things| || !floors[f].tiles[t].things[stack].Creature? {
        return [M.Anomaly(M.MoveOriginMismatch, 0, origin)];
      }
      hide F.WriteField, F.StackAt, F.FloorIndex, F.TileIndex, M.Refresh, InsertIndex, F.WellFormed, F.HasTile,
        RemoveAt, InsertAt, Priorities;
      var moved := floors[f].tiles[t].things[stack];
      F.WriteFieldAt(floors, origin, RemoveAt(F.StackAt(floors, origin), stack), anchor, origin);
      RemoveThing(origin, f, t, stack);
      anomalies := ArriveAt(destination, moved, types);
    }

    /** `next` is the position the decoder stepped the viewport to. */
    method ApplyServerUpdate(update: ServerUpdate, next: MapPosition, types: Types) returns (anomalies: seq<M.Anomaly>)
      requires Valid() && !update.InitGame?
      modifies this
      ensures M.Applied(Snapshot(), anomalies) == M.Apply(old(Snapshot()), update, next, types)
    {
      if TouchesMap(update) {
        anomalies := ApplyMapUpdate(update, next, types);
      } else if SetsStatus(update) {
        SetStatus(update, next, types);
        anomalies := [];
      } else {
        anomalies := ApplyPlayerUpdate(update, next, types);
      }
    }

    method ApplyMapUpdate(update: ServerUpdate, next: MapPosition, types: Types) returns (anomalies: seq<M.Anomaly>)
      requires Valid() && TouchesMap(update)
      modifies this
      ensures M.Applied(Snapshot(), anomalies) == M.Apply(old(Snapshot()), update, next, types)
    {
      hide Valid, Snapshot, M.ApplyFullScreen, M.ApplyRevealed, M.ApplyFieldData, M.ApplyAddField, M.ApplyChangeField,
        M.ApplyDeleteField, M.ApplyMoveCreature;
      match update
      case FullScreen(w, described, _, _) => anomalies := ApplyFullScreen(w, described);
      case Row(_, described) => anomalies := ApplyRevealed(described, next);
      case FloorChange(_, described) => anomalies := ApplyRevealed(described, next);
      case FieldData(tile) => anomalies := ApplyFieldData(tile);
      case AddField(p, thing) => anomalies := ApplyAddField(p, thing, types);
      case ChangeField(p, stack, thing) => anomalies := ApplyChangeField(p, stack, thing);
      case DeleteField(p, stack) => anomalies := ApplyDeleteField(p, stack);
      case MoveCreature(origin, stack, destination)
        => anomalies := ApplyMoveCreature(origin, stack, destination, types);
    }

    method ApplyPlayerUpdate(update: ServerUpdate, next: MapPosition, types: Types) returns (anomalies: seq<M.Anomaly>)
      requires !TouchesMap(update) && !SetsStatus(update) && !update.InitGame?
      modifies this
      ensures M.Applied(Snapshot(), anomalies) == M.Apply(old(Snapshot()), update, next, types)
    {
      hide M.ApplyContainer, M.ApplyInventory, M.ApplySnapback, M.ApplyAttribute, M.ApplyFullScreen, M.ApplyRevealed,
        M.ApplyFieldData, M.ApplyAddField, M.ApplyChangeField, M.ApplyDeleteField, M.ApplyMoveCreature;
      anomalies := [];
      match update
      case Snapback(facing) => Face(facing);
      case CreatureAttribute(id, attribute) => anomalies := SetAttribute(id, attribute);
      case GraphicalEffect(_, _) => SetSlot(0, M.UNSET_ITEM);
      case TextualEffect(_, _, _) => SetSlot(0, M.UNSET_ITEM);
      case MissileEffect(_, _, _) => SetSlot(0, M.UNSET_ITEM);
      case Inventory(slot, worn) => SetSlot(slot, worn);
      case Container(number, change) => ChangeContainer(number, change);
      case _ =>
    }

    /** The commands that set one field of the player's status. */
    static predicate SetsStatus(update: ServerUpdate) {
      update.Ambient? || update.PlayerData? || update.PlayerSkills? || update.PlayerState? || update.ClearTarget?
    }

    method SetStatus(update: ServerUpdate, next: MapPosition, types: Types)
      requires SetsStatus(update)
      modifies this`ambient, this`stats, this`skills, this`flags, this`combat
      ensures M.Unchanged(Snapshot()) == M.Apply(old(Snapshot()), update, next, types)
    {
      match update
      case Ambient(brightness, colour) => ambient := Some((brightness, colour));
      case PlayerData(newStats) => stats := Some(newStats);
      case PlayerSkills(newSkills) => skills := Some(newSkills);
      case PlayerState(newFlags) => flags := Some(newFlags);
      case ClearTarget => combat := combat.(target := 0, following := false);
    }

    method ChangeContainer(number: nat, change: ContainerChange)
      modifies this`containers
      ensures M.Unchanged(Snapshot()) == M.ApplyContainer(old(Snapshot()), number, change)
    {
      hide M.WithChange;
      if number < |containers| {
        containers := containers[number := M.WithChange(containers[number], change)];
      }
    }

    method Face(facing: byte)
      modifies this`known
      ensures M.Unchanged(Snapshot()) == M.ApplySnapback(old(Snapshot()), facing)
    {
      if localCreature != 0 && localCreature in known {
        known := known[localCreature := known[localCreature].(direction := facing)];
      }
    }

    method SetAttribute(id: quad, attribute: Attribute) returns (anomalies: seq<M.Anomaly>)
      modifies this`known
      ensures M.Applied(Snapshot(), anomalies) == M.ApplyAttribute(old(Snapshot()), id, attribute)
    {
      hide M.WithAttribute;
      if id !in known {
        anomalies := [M.Anomaly(M.UnknownCreatureReference, id, M.ORIGIN)];
      } else {
        known := known[id := M.WithAttribute(known[id], attribute)];
        anomalies := [];
      }
    }

    method SetSlot(slot: nat, worn: Option<ItemThing>)
      modifies this`inventory
      ensures M.Unchanged(Snapshot()) == M.ApplyInventory(old(Snapshot()), slot, worn)
    {
      if slot < |inventory| { inventory := inventory[slot := worn]; }
    }
  }

  /** An edit that leaves something on the field needs no clean-up. */
  lemma KeepNonEmpty(before: seq<MapFloor>, p: MapPosition, things: seq<MapThing>, anchor: MapPosition)
    requires F.WellFormed(before) && things != []
    requires F.HasTile(F.EnsureTile(before, p, anchor), p)
    ensures F.SetThings(F.EnsureTile(before, p, anchor), p, things) == F.WriteField(before, p, things, anchor)
  {
    hide F.EnsureTile, F.SetThings, F.StackAt, F.HasTile;
    F.EnsureTileGood(before, p, anchor);
    F.SetThingsAt(F.EnsureTile(before, p, anchor), p, things, p);
  }

  predicate Stands(thing: MapThing, id: quad) {
    thing.Creature? && thing.creature.id == id
  }
}
