/** What holds in every state a run of updates can reach, and exactly when the stronger
    claims fail. */
module Runs {
  import opened World
  import opened Viewport
  import opened ObjectTypes
  import opened Updates
  import opened Floors
  import opened Mirror
  import opened Creatures
  import opened Commands

  function StateAfter(state: State, run: seq<Stepped>, types: Types): State
    decreases |run|
  {
    if run == [] then state else StateAfter(Apply(state, run[0].update, run[0].next, types).state, run[1..], types)
  }

  predicate Reveals(update: ServerUpdate) {
    update.FullScreen? || update.Row? || update.FloorChange?
  }

  lemma RevealedShape(state: State, next: MapPosition, incoming: seq<MapFloor>)
    requires WellFormed(state.floors) && WellFormed(incoming)
    ensures var after := ApplyRevealed(state, next, incoming).state;
      after.anchor == next && WellFormed(after.floors) && InsideViewport(after.floors, next)
  {
    hide WellFormed, InsideViewport, MergeFloors, Prune, RecordFloors;
    MergeFloorsGood(state.floors, incoming, |incoming|, next);
    PruneGood(MergeFloors(state.floors, incoming, |incoming|, next), next);
  }

  lemma FieldWritesShape(state: State, update: ServerUpdate, next: MapPosition, types: Types)
    requires WellFormed(state.floors)
    requires update.FieldData? || update.AddField? || update.ChangeField? || update.DeleteField? || update.MoveCreature?
    ensures WellFormed(Apply(state, update, next, types).state.floors)
  {
    hide WellFormed, WriteField, StackAt, RefreshThings, RecordThings, RecordCreature, InsertIndex;
    forall p, things ensures WellFormed(WriteField(state.floors, p, things, state.anchor)) {
      WriteFieldAt(state.floors, p, things, state.anchor, p);
    }
    if update.MoveCreature? {
      var things := StackAt(state.floors, update.origin);
      if update.stack < |things| && things[update.stack].Creature? {
        var floors := WriteField(state.floors, update.origin, RemoveAt(things, update.stack), state.anchor);
        var target := StackAt(floors, update.destination);
        var index := InsertIndex(Priorities(target, types), PRIORITY_CREATURE);
        WriteFieldAt(floors, update.destination, InsertAt(target, index, things[update.stack]), state.anchor,
          update.destination);
      }
    }
  }

  /** One step of the invariant. */
  lemma UpdateKeepsShape(state: State, update: ServerUpdate, next: MapPosition, types: Types)
    requires WellFormed(state.floors) && Decoded(update, next)
    ensures var after := Apply(state, update, next, types).state;
      WellFormed(after.floors) && (Reveals(update) ==> after.anchor == next && InsideViewport(after.floors, next))
  {
    hide WellFormed, InsideViewport, ApplyFullScreen, ApplyRevealed, ApplyFieldData, ApplyAddField,
      ApplyChangeField, ApplyDeleteField, ApplyMoveCreature;
    match update
    case FullScreen(window, floors, _, _) => FullScreenFloors(state, window, floors);
    case Row(_, floors) => RevealedShape(state, next, floors);
    case FloorChange(_, floors) => RevealedShape(state, next, floors);
    case FieldData(_) => FieldWritesShape(state, update, next, types);
    case AddField(_, _) => FieldWritesShape(state, update, next, types);
    case ChangeField(_, _, _) => FieldWritesShape(state, update, next, types);
    case DeleteField(_, _) => FieldWritesShape(state, update, next, types);
    case MoveCreature(_, _, _) => FieldWritesShape(state, update, next, types);
    case _ => AsideKeepsMap(state, update, next, types);
  }

  ghost predicate AllDecoded(run: seq<Stepped>) {
    forall i :: 0 <= i < |run| ==> Decoded(run[i].update, run[i].next)
  }

  /** Every reachable mirror has at most one floor per level, at most one tile per position,
      each tile on its own floor and no stored empty tile; right after a snapshot, row or
      floor change every tile also lies in the viewport. */
  lemma {:induction false} EveryRunKeepsShape(state: State, run: seq<Stepped>, types: Types)
    requires WellFormed(state.floors) && AllDecoded(run)
    ensures var after := StateAfter(state, run, types);
      && WellFormed(after.floors)
      && (run != [] && Reveals(run[|run| - 1].update) ==>
           after.anchor == run[|run| - 1].next && InsideViewport(after.floors, after.anchor))
    decreases |run|
  {
    hide WellFormed, InsideViewport, Decoded, Apply;
    if run != [] {
      UpdateKeepsShape(state, run[0].update, run[0].next, types);
      EveryRunKeepsShape(Apply(state, run[0].update, run[0].next, types).state, run[1..], types);
    }
  }

  /** Each creature stands on one stored field at every moment of the run, and no evicted
      creature is on the map. */
  ghost predicate Orderly(state: State, run: seq<Stepped>, types: Types)
    decreases |run|
  {
    && OneFieldEach(state.floors)
    && (run != [] ==>
         var after := Apply(state, run[0].update, run[0].next, types).state;
         EvictsNobodyVisible(run[0].update, after.floors) && Orderly(after, run[1..], types))
  }

  /** In every orderly run each creature on the map has a record that says where it stands. */
  lemma {:induction false} EveryRunPlacesCreatures(state: State, run: seq<Stepped>, types: Types)
    requires WellFormed(state.floors) && Placed(state.floors, state.known)
    requires AllDecoded(run) && Orderly(state, run, types)
    ensures var after := StateAfter(state, run, types);
      Placed(after.floors, after.known)
    decreases |run|
  {
    hide WellFormed, InsideViewport, Placed, OneFieldEach, EvictsNobodyVisible, Decoded, Apply;
    if run != [] {
      var after := Apply(state, run[0].update, run[0].next, types).state;
      assert OneFieldEach(after.floors) by { OrderlyStart(after, run[1..], types); }
      UpdatePlaces(state, run[0].update, run[0].next, types);
      UpdateKeepsShape(state, run[0].update, run[0].next, types);
      EveryRunPlacesCreatures(after, run[1..], types);
    }
  }

  lemma OrderlyStart(state: State, run: seq<Stepped>, types: Types)
    requires Orderly(state, run, types)
    ensures OneFieldEach(state.floors)
  {
  }

  /** The same two claims about everything a client can live through from its start. */
  lemma EveryStateIsSound(run: seq<Stepped>, types: Types)
    requires AllDecoded(run)
    ensures var now := StateAfter(Fresh(), run, types);
      && WellFormed(now.floors)
      && (run != [] && Reveals(run[|run| - 1].update) ==> InsideViewport(now.floors, now.anchor))
      && (Orderly(Fresh(), run, types) ==> Placed(now.floors, now.known))
  {
    hide InsideViewport, Decoded, Apply, StateAfter, Orderly;
    EveryRunKeepsShape(Fresh(), run, types);
    if Orderly(Fresh(), run, types) { EveryRunPlacesCreatures(Fresh(), run, types); }
  }

  // ---- exactly when a tile ends up outside the viewport -----------------------------------

  lemma InsideMeansShown(floors: seq<MapFloor>, anchor: MapPosition)
    requires WellFormed(floors)
    ensures InsideViewport(floors, anchor) <==> forall p :: StackAt(floors, p) != [] ==> InView(anchor, p)
  {
    hide InView;
    if InsideViewport(floors, anchor) {
      forall p | StackAt(floors, p) != [] ensures InView(anchor, p) {
        var i := FloorIndex(floors, p.z);
        assert floors[i].tiles[TileIndex(floors[i].tiles, p)].position == p;
      }
    }
    if forall p :: StackAt(floors, p) != [] ==> InView(anchor, p) {
      forall i, j | 0 <= i < |floors| && 0 <= j < |floors[i].tiles| ensures InView(anchor,
        floors[i].tiles[j].position) {
        StackOnFloor(floors, i, floors[i].tiles[j].position);
        TileStackAt(floors[i].tiles, j);
      }
    }
  }

  lemma WriteStaysInside(floors: seq<MapFloor>, anchor: MapPosition, p: MapPosition, things: seq<MapThing>)
    requires WellFormed(floors) && InsideViewport(floors, anchor)
    ensures WellFormed(WriteField(floors, p, things, anchor))
    ensures InsideViewport(WriteField(floors, p, things, anchor), anchor) <==> things == [] || InView(anchor, p)
  {
    hide InView, WellFormed, InsideViewport, StackAt, WriteField;
    var after := WriteField(floors, p, things, anchor);
    WriteFieldAt(floors, p, things, anchor, p);
    InsideMeansShown(floors, anchor);
    InsideMeansShown(after, anchor);
    forall q ensures StackAt(after, q) == if q == p then things else StackAt(floors, q) {
      WriteFieldAt(floors, p, things, anchor, q);
    }
  }

  /** `ADD_FIELD` tests the window but not the floor, so it can store a tile outside the
      viewport: exactly when the field is in the shifted window of a floor out of range. */
  lemma AddFieldStaysInside(state: State, p: MapPosition, thing: MapThing, types: Types)
    requires WellFormed(state.floors) && InsideViewport(state.floors, state.anchor)
    ensures InsideViewport(ApplyAddField(state, p, thing, types).state.floors, state.anchor)
      <==> !WithinFloorWindow(state.anchor, p) || InRange(ViewportFloorRange(state.anchor.z), p.z)
  {
    if WithinFloorWindow(state.anchor, p) {
      var things := StackAt(state.floors, p);
      var grown := InsertAt(things, InsertIndex(Priorities(things, types), ThingPriority(thing, types)), thing);
      hide WellFormed, InsideViewport, StackAt, WriteField, RefreshThings, RecordCreature, InsertIndex,
        WithinFloorWindow, ViewportFloorRange;
      WriteStaysInside(state.floors, state.anchor, p, grown);
    }
  }

  /** `MOVE_CREATURE` does not test its destination at all. */
  lemma MoveCreatureStaysInside(state: State, origin: MapPosition, stack: nat, destination: MapPosition, types: Types)
    requires WellFormed(state.floors) && InsideViewport(state.floors, state.anchor)
    requires stack < |StackAt(state.floors, origin)| && StackAt(state.floors, origin)[stack].Creature?
    ensures InsideViewport(ApplyMoveCreature(state, origin, stack, destination, types).state.floors, state.anchor)
      <==> InView(state.anchor, destination)
  {
    var things := StackAt(state.floors, origin);
    var left := RemoveAt(things, stack);
    var floors := WriteField(state.floors, origin, left, state.anchor);
    InsideMeansShown(state.floors, state.anchor);
    assert InView(state.anchor, origin);
    var target := StackAt(floors, destination);
    var grown := InsertAt(target, InsertIndex(Priorities(target, types), PRIORITY_CREATURE), things[stack]);
    hide WellFormed, InsideViewport, InView, StackAt, WriteField, RefreshThings, InsertIndex;
    WriteStaysInside(state.floors, state.anchor, origin, left);
    WriteStaysInside(floors, state.anchor, destination, grown);
  }

  // ---- effects, inventory, containers -------------------------------------------------------

  predicate IsEffect(update: ServerUpdate) {
    update.GraphicalEffect? || update.TextualEffect? || update.MissileEffect?
  }

  /** The effects share the inventory branch: an effect touches nothing but the unused slot
      zero, changes the state exactly when no effect came before, and a second one never does. */
  lemma EffectsWriteSlotZero(state: State, update: ServerUpdate, another: ServerUpdate, next: MapPosition, types: Types)
    requires IsEffect(update) && IsEffect(another) && |state.inventory| == 11
    ensures var after := Apply(state, update, next, types).state;
      && after.(inventory := state.inventory) == state && after.inventory[1..] == state.inventory[1..]
      && (after == state <==> state.inventory[0] == UNSET_ITEM)
      && Apply(after, another, next, types).state == after
  {
    assert state.inventory[0 := state.inventory[0]] == state.inventory;
    var after := Apply(state, update, next, types).state;
    assert after.inventory == state.inventory[0 := UNSET_ITEM];
    assert after.inventory[0 := UNSET_ITEM] == after.inventory;
  }

  /** Deleting slot zero undoes a creation exactly when nothing was pushed out of the end. */
  lemma DeleteUndoesCreate(container: OpenContainer, item: ItemThing)
    requires container.open && |container.objects| <= MAX_OBJECTS_PER_CONTAINER
    ensures WithChange(WithChange(container, ContainerChange.Created(item)), ContainerChange.Deleted(0)) == container
      <==> |container.objects| < MAX_OBJECTS_PER_CONTAINER
  {
    var created := WithChange(container, Created(item));
    if |container.objects| < MAX_OBJECTS_PER_CONTAINER {
      assert RemoveAt(created.objects, 0) == container.objects;
    } else {
      assert |RemoveAt(created.objects, 0)| == |container.objects| - 1;
    }
  }
}
