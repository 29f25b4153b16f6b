/** Creature records follow the map: who stands on a field has a record naming exactly that
    field and stack index. */
module Creatures {
  import opened World
  import opened Viewport
  import opened ObjectTypes
  import opened Updates
  import opened Floors
  import opened Mirror

  /** The record of `id` says field `p`, stack index `k`. */
  predicate RecordedAt(known: map<quad, CreatureRecord>, id: quad, p: MapPosition, k: nat) {
    id in known && known[id].position == p && known[id].stack == k
  }

  predicate StandsAt(floors: seq<MapFloor>, id: quad, p: MapPosition, k: nat) {
    k < |StackAt(floors, p)| && Holds(StackAt(floors, p), id, k)
  }

  predicate Holds(things: seq<MapThing>, id: quad, k: nat)
    requires k < |things|
  {
    things[k].Creature? && things[k].creature.id == id
  }

  ghost predicate Placed(floors: seq<MapFloor>, known: map<quad, CreatureRecord>) {
    forall id: quad, p, k: nat :: StandsAt(floors, id, p, k) ==> RecordedAt(known, id, p, k)
  }

  ghost predicate OneFieldEach(floors: seq<MapFloor>) {
    forall id: quad, p, k: nat, q, l: nat :: StandsAt(floors, id, p, k) && StandsAt(floors, id, q, l) ==>
      p == q && k == l
  }

  /** Nothing in `things` (lying on field `p`) puts `id` anywhere but at `(q, k)`, and
      nothing in it evicts `id`. */
  ghost predicate Agree(things: seq<MapThing>, p: MapPosition, id: quad, q: MapPosition, k: nat) {
    forall j :: 0 <= j < |things| && things[j].Creature? ==>
      && (things[j].creature.id == id ==> p == q && j == k)
      && !(Evicts(things[j].creature) && things[j].creature.evicted == id)
  }

  lemma RecordOne(
      registry: Registry, creature: CreatureThing, p: MapPosition, stack: nat, snapshot: bool, id: quad, q: MapPosition,
      k: nat)
    requires creature.id == id ==> p == q && stack == k
    requires !(Evicts(creature) && creature.evicted == id)
    ensures var after := RecordCreature(registry, creature, p, stack, snapshot).known;
      && (creature.id == id ==> RecordedAt(after, id, q, k))
      && (RecordedAt(registry.known, id, q, k) ==> RecordedAt(after, id, q, k))
  {
  }

  lemma {:induction false} RecordThingsAt(
      registry: Registry, things: seq<MapThing>, p: MapPosition, n: nat, snapshot: bool, id: quad, q: MapPosition,
      k: nat)
    requires n <= |things| && Agree(things, p, id, q, k)
    ensures var after := RecordThings(registry, things, p, n, snapshot).known;
      && (RecordedAt(registry.known, id, q, k) ==> RecordedAt(after, id, q, k))
      && (k < n && Holds(things, id, k) ==> RecordedAt(after, id, q, k))
  {
    hide RecordCreature, RecordedAt;
    if n > 0 {
      RecordThingsAt(registry, things, p, n - 1, snapshot, id, q, k);
      if things[n - 1].Creature? {
        RecordOne(RecordThings(registry, things, p, n - 1, snapshot), things[n - 1].creature, p, n - 1, snapshot, id, q,
          k);
      }
    }
  }

  ghost predicate AgreeTiles(tiles: seq<MapTile>, id: quad, q: MapPosition, k: nat) {
    forall j :: 0 <= j < |tiles| ==> Agree(tiles[j].things, tiles[j].position, id, q, k)
  }

  lemma {:induction false} RecordTilesAt(
      registry: Registry, tiles: seq<MapTile>, n: nat, snapshot: bool, id: quad, q: MapPosition, k: nat)
    requires n <= |tiles| && AgreeTiles(tiles, id, q, k)
    ensures var after := RecordTiles(registry, tiles, n, snapshot).known;
      && (RecordedAt(registry.known, id, q, k) ==> RecordedAt(after, id, q, k))
      && (forall j :: 0 <= j < n && k < |tiles[j].things| && Holds(tiles[j].things, id, k) ==>
        RecordedAt(after, id, q, k))
  {
    hide RecordThings, RecordedAt, Agree, Holds;
    if n > 0 {
      RecordTilesAt(registry, tiles, n - 1, snapshot, id, q, k);
      var tile := tiles[n - 1];
      RecordThingsAt(RecordTiles(registry, tiles, n - 1, snapshot), tile.things, tile.position, |tile.things|, snapshot,
        id, q, k);
    }
  }

  ghost predicate AgreeFloors(floors: seq<MapFloor>, id: quad, q: MapPosition, k: nat) {
    forall i :: 0 <= i < |floors| ==> AgreeTiles(floors[i].tiles, id, q, k)
  }

  lemma {:induction false} RecordFloorsAt(
      registry: Registry, floors: seq<MapFloor>, n: nat, snapshot: bool, id: quad, q: MapPosition, k: nat)
    requires n <= |floors| && AgreeFloors(floors, id, q, k)
    ensures var after := RecordFloors(registry, floors, n, snapshot).known;
      && (RecordedAt(registry.known, id, q, k) ==> RecordedAt(after, id, q, k))
      && (forall i, j ::
           (0 <= i < n && 0 <= j < |floors[i].tiles| && k < |floors[i].tiles[j].things|
           && Holds(floors[i].tiles[j].things, id, k))
           ==> RecordedAt(after, id, q, k))
  {
    hide RecordTiles, RecordedAt, AgreeTiles, Holds;
    if n > 0 {
      RecordFloorsAt(registry, floors, n - 1, snapshot, id, q, k);
      RecordTilesAt(RecordFloors(registry, floors, n - 1, snapshot), floors[n - 1].tiles, |floors[n - 1].tiles|,
        snapshot, id, q, k);
    }
  }

  lemma {:induction false} RefreshAt(
      known: map<quad, CreatureRecord>, things: seq<MapThing>, p: MapPosition, n: nat, id: quad, q: MapPosition, k: nat)
    requires n <= |things|
    requires forall j :: 0 <= j < |things| && Holds(things, id, j) ==> p == q && j == k
    ensures var after := RefreshThings(known, things, p, n);
      && after.Keys == known.Keys
      && (RecordedAt(known, id, q, k) ==> RecordedAt(after, id, q, k))
      && (k < n && Holds(things, id, k) && id in known ==> RecordedAt(after, id, q, k))
  {
    if n > 0 {
      RefreshAt(known, things, p, n - 1, id, q, k);
      assert Holds(things, id, n - 1) ==> p == q && n - 1 == k;
    }
  }

  // ---- from folds to updates ----------------------------------------------------------

  /** No creature that something in `floors` evicts stands on `map`. */
  ghost predicate EvictsNoneOf(floors: seq<MapFloor>, after: seq<MapFloor>) {
    forall i, j, l, p, k: nat ::
      0 <= i < |floors| && 0 <= j < |floors[i].tiles| && 0 <= l < |floors[i].tiles[j].things|
      && EvictsAt(floors[i].tiles[j].things, l)
      ==> !StandsAt(after, floors[i].tiles[j].things[l].creature.evicted, p, k)
  }

  predicate EvictsAt(things: seq<MapThing>, l: nat)
    requires l < |things|
  {
    things[l].Creature? && Evicts(things[l].creature)
  }

  /** A described field is on the map where it is described. */
  ghost predicate Shows(after: seq<MapFloor>, floors: seq<MapFloor>) {
    forall i, j :: 0 <= i < |floors| && 0 <= j < |floors[i].tiles| ==>
      StackAt(after, floors[i].tiles[j].position) == floors[i].tiles[j].things
  }

  lemma ShownFloorsAgree(floors: seq<MapFloor>, after: seq<MapFloor>, id: quad, q: MapPosition, k: nat)
    requires Shows(after, floors) && OneFieldEach(after) && EvictsNoneOf(floors, after)
    requires StandsAt(after, id, q, k)
    ensures AgreeFloors(floors, id, q, k)
  {
    forall i, j | 0 <= i < |floors| && 0 <= j < |floors[i].tiles|
      ensures Agree(floors[i].tiles[j].things, floors[i].tiles[j].position, id, q, k)
    {
      hide StackAt;
      var tile := floors[i].tiles[j];
      assert StackAt(after, tile.position) == tile.things;
      forall l | 0 <= l < |tile.things| && tile.things[l].Creature?
        ensures tile.things[l].creature.id == id ==> tile.position == q && l == k
        ensures !(Evicts(tile.things[l].creature) && tile.things[l].creature.evicted == id)
      {
        assert StandsAt(after, tile.things[l].creature.id, tile.position, l);
        if Evicts(tile.things[l].creature) {
          assert EvictsAt(floors[i].tiles[j].things, l);
        }
      }
    }
  }

  /** Recording every described creature places exactly what is described, and disturbs
      nothing that was placed already. */
  lemma RecordedFloorsPlace(
      registry: Registry, floors: seq<MapFloor>, after: seq<MapFloor>, snapshot: bool, id: quad, q: MapPosition, k: nat)
    requires Shows(after, floors) && OneFieldEach(after) && EvictsNoneOf(floors, after)
    requires StandsAt(after, id, q, k)
    requires RecordedAt(registry.known, id, q, k)
      || exists i, j :: 0 <= i < |floors| && 0 <= j < |floors[i].tiles| && floors[i].tiles[j].position == q
    ensures RecordedAt(RecordFloors(registry, floors, |floors|, snapshot).known, id, q, k)
  {
    hide StackAt, RecordFloors, RecordedAt, OneFieldEach, EvictsNoneOf, AgreeFloors;
    ShownFloorsAgree(floors, after, id, q, k);
    RecordFloorsAt(registry, floors, |floors|, snapshot, id, q, k);
    if i, j :| 0 <= i < |floors| && 0 <= j < |floors[i].tiles| && floors[i].tiles[j].position == q {
      assert StackAt(after, floors[i].tiles[j].position) == floors[i].tiles[j].things;
      assert Holds(floors[i].tiles[j].things, id, k);
    }
  }

  lemma FullScreenPlaces(state: State, window: Window, floors: seq<MapFloor>)
    requires WellFormed(floors) && OneFieldEach(floors) && EvictsNoneOf(floors, floors)
    ensures Placed(floors, ApplyFullScreen(state, window, floors).state.known)
  {
    var registry := Registry(state.known, []);
    hide OneFieldEach, EvictsNoneOf, RecordFloors, RecordedAt;
    FloorsShowThemselves(floors);
    forall id: quad, p, k: nat | StandsAt(floors, id, p,
      k) ensures RecordedAt(RecordFloors(registry, floors, |floors|, true).known, id, p, k) {
      StandsOnTile(floors, id, p, k);
      RecordedFloorsPlace(registry, floors, floors, true, id, p, k);
    }
  }

  lemma FloorsShowThemselves(floors: seq<MapFloor>)
    requires WellFormed(floors)
    ensures Shows(floors, floors)
  {
    forall i, j | 0 <= i < |floors| && 0 <= j < |floors[i].tiles|
      ensures StackAt(floors, floors[i].tiles[j].position) == floors[i].tiles[j].things
    {
      StackOnFloor(floors, i, floors[i].tiles[j].position);
      TileStackAt(floors[i].tiles, j);
    }
  }

  lemma StandsOnTile(floors: seq<MapFloor>, id: quad, p: MapPosition, k: nat)
    requires StandsAt(floors, id, p, k)
    ensures exists i, j :: 0 <= i < |floors| && 0 <= j < |floors[i].tiles| && floors[i].tiles[j].position == p
  {
    var i := FloorIndex(floors, p.z);
    assert floors[i].tiles[TileIndex(floors[i].tiles, p)].position == p;
  }

  /** What stands on the map after a row or a floor change stood there before or is described. */
  lemma RevealedShows(state: State, next: MapPosition, incoming: seq<MapFloor>)
    requires WellFormed(state.floors) && WellFormed(incoming) && InsideViewport(incoming, next)
    ensures var after := ApplyRevealed(state, next, incoming).state.floors;
      Shows(after, incoming)
      && forall id: quad, p, k: nat :: StandsAt(after, id, p, k) ==>
        StandsAt(incoming, id, p, k) || StandsAt(state.floors, id, p, k)
  {
    var after := ApplyRevealed(state, next, incoming).state.floors;
    var merged := MergeFloors(state.floors, incoming, |incoming|, next);
    hide MergeFloors, Prune, RecordFloors, StackAt, FloorIndex, InView;
    MergeFloorsGood(state.floors, incoming, |incoming|, next);
    FloorsShowThemselves(incoming);
    forall i, j | 0 <= i < |incoming| && 0 <= j < |incoming[i].tiles|
      ensures StackAt(after, incoming[i].tiles[j].position) == incoming[i].tiles[j].things
    {
      var p := incoming[i].tiles[j].position;
      PruneAt(merged, next, p);
      MergeFloorsAt(state.floors, incoming, |incoming|, next, p);
      StackOnFloor(incoming, i, p);
    }
    forall id: quad, p, k: nat | StandsAt(after, id, p, k)
      ensures StandsAt(incoming, id, p, k) || StandsAt(state.floors, id, p, k)
    {
      PruneAt(merged, next, p);
      MergeFloorsAt(state.floors, incoming, |incoming|, next, p);
    }
  }

  /** Rows and floor changes. */
  lemma RevealedPlaces(state: State, next: MapPosition, incoming: seq<MapFloor>)
    requires WellFormed(state.floors) && Placed(state.floors, state.known)
    requires WellFormed(incoming) && InsideViewport(incoming, next)
    requires var after := ApplyRevealed(state, next, incoming).state.floors;
      OneFieldEach(after) && EvictsNoneOf(incoming, after)
    ensures var after := ApplyRevealed(state, next, incoming).state;
      Placed(after.floors, after.known)
  {
    var after := ApplyRevealed(state, next, incoming).state;
    hide MergeFloors, Prune, RecordFloors, OneFieldEach, EvictsNoneOf, RecordedAt, StandsAt, FloorIndex, InView, Shows;
    RevealedShows(state, next, incoming);
    forall id: quad, p, k: nat | StandsAt(after.floors, id, p, k) ensures RecordedAt(after.known, id, p, k) {
      if StandsAt(incoming, id, p, k) { StandsOnTile(incoming, id, p, k); }
      RecordedFloorsPlace(Registry(state.known, []), incoming, after.floors, false, id, p, k);
    }
  }

  // ---- edits of single fields ---------------------------------------------------------

  /** `after` is `before` with field `p` holding `things`. */
  ghost predicate Edited(before: seq<MapFloor>, after: seq<MapFloor>, p: MapPosition, things: seq<MapThing>) {
    forall q :: StackAt(after, q) == if q == p then things else StackAt(before, q)
  }

  lemma WriteFieldEdits(floors: seq<MapFloor>, p: MapPosition, things: seq<MapThing>, anchor: MapPosition)
    requires WellFormed(floors)
    ensures Edited(floors, WriteField(floors, p, things, anchor), p, things)
    ensures WellFormed(WriteField(floors, p, things, anchor))
  {
    hide WellFormed, StackAt, WriteField;
    WriteFieldAt(floors, p, things, anchor, p);
    forall q ensures StackAt(WriteField(floors, p, things, anchor), q) == if q == p then things
      else StackAt(floors, q) {
      WriteFieldAt(floors, p, things, anchor, q);
    }
  }

  /** Every creature found at `j` in a stack elsewhere than `except` had a record before. */
  ghost predicate AllKnown(things: seq<MapThing>, known: map<quad, CreatureRecord>, except: int) {
    forall j :: 0 <= j < |things| && j != except && things[j].Creature? ==> things[j].creature.id in known
  }

  lemma RefreshPlaces(
      before: seq<MapFloor>, known: map<quad, CreatureRecord>, after: seq<MapFloor>, p: MapPosition,
      things: seq<MapThing>, id: quad, q: MapPosition, k: nat)
    requires Edited(before, after, p, things) && OneFieldEach(after)
    requires StandsAt(after, id, q, k)
    requires RecordedAt(known, id, q, k) || (q == p && id in known)
    ensures RecordedAt(Refresh(known, things, p), id, q, k)
  {
    hide StackAt;
    assert StackAt(after, p) == things;
    forall j | 0 <= j < |things| && Holds(things, id, j) ensures p == q && j == k {
      assert StandsAt(after, id, p, j);
    }
    RefreshAt(known, things, p, |things|, id, q, k);
  }

  lemma PlacedBefore(
      before: seq<MapFloor>, known: map<quad, CreatureRecord>, after: seq<MapFloor>, p: MapPosition,
      things: seq<MapThing>, id: quad, q: MapPosition, k: nat)
    requires Edited(before, after, p, things) && Placed(before, known)
    requires StandsAt(after, id, q, k) && q != p
    ensures RecordedAt(known, id, q, k)
  {
    hide StackAt;
    assert StandsAt(before, id, q, k);
  }

  /** Writing a stack in which only index `except` may be new, then recording that one. */
  lemma EditPlaces(
      before: seq<MapFloor>, known: map<quad, CreatureRecord>, after: seq<MapFloor>, p: MapPosition,
      things: seq<MapThing>, except: nat)
    requires Edited(before, after, p, things) && OneFieldEach(after) && Placed(before, known)
    requires except <= |things| && AllKnown(things, known, except)
    requires except < |things| && EvictsAt(things, except) ==>
      forall q, k: nat :: !StandsAt(after, things[except].creature.evicted, q, k)
    ensures var refreshed := Refresh(known, things, p);
      Placed(after,
        if except < |things| && things[except].Creature?
        then RecordCreature(Registry(refreshed, []), things[except].creature, p, except, false).known else refreshed)
  {
    hide StackAt, RecordCreature, RefreshThings, RecordedAt, OneFieldEach;
    var refreshed := Refresh(known, things, p);
    forall id: quad, q, k: nat | StandsAt(after, id, q, k)
      ensures RecordedAt(if except < |things| && things[except].Creature?
        then RecordCreature(Registry(refreshed, []), things[except].creature, p, except, false).known else refreshed,
          id, q, k)
    {
      if q != p {
        PlacedBefore(before, known, after, p, things, id, q, k);
        RefreshPlaces(before, known, after, p, things, id, q, k);
      } else if k != except || !things[except].Creature? {
        assert StackAt(after, p) == things;
        assert id in known;
        RefreshPlaces(before, known, after, p, things, id, q, k);
      }
      if except < |things| && things[except].Creature? {
        SameCreatureSamePlace(before, after, p, things, except, id, q, k);
        RecordOne(Registry(refreshed, []), things[except].creature, p, except, false, id, q, k);
      }
    }
  }

  lemma SameCreatureSamePlace(
      before: seq<MapFloor>, after: seq<MapFloor>, p: MapPosition, things: seq<MapThing>, index: nat, id: quad,
      q: MapPosition, k: nat)
    requires Edited(before, after, p, things) && OneFieldEach(after)
    requires index < |things| && things[index].Creature? && StandsAt(after, id, q, k)
    ensures things[index].creature.id == id ==> p == q && index == k
    ensures p == q && index == k ==> things[index].creature.id == id
  {
    hide StackAt;
    assert StackAt(after, p) == things;
    assert StandsAt(after, things[index].creature.id, p, index);
  }

  lemma KnownHere(floors: seq<MapFloor>, known: map<quad, CreatureRecord>, p: MapPosition)
    requires Placed(floors, known)
    ensures AllKnown(StackAt(floors, p), known, -1)
  {
    var things := StackAt(floors, p);
    forall j | 0 <= j < |things| && things[j].Creature? ensures things[j].creature.id in known {
      assert StandsAt(floors, things[j].creature.id, p, j);
    }
  }

  lemma AddFieldPlaces(state: State, p: MapPosition, thing: MapThing, types: Types)
    requires WellFormed(state.floors) && Placed(state.floors, state.known)
    requires var after := ApplyAddField(state, p, thing, types).state.floors;
      OneFieldEach(after) && (thing.Creature? && Evicts(thing.creature) ==>
        forall q, k: nat :: !StandsAt(after, thing.creature.evicted, q, k))
    ensures var after := ApplyAddField(state, p, thing, types).state;
      Placed(after.floors, after.known)
  {
    if WithinFloorWindow(state.anchor, p) {
      var things := StackAt(state.floors, p);
      var index := InsertIndex(Priorities(things, types), ThingPriority(thing, types));
      var grown := InsertAt(things, index, thing);
      hide StackAt, RecordCreature, RefreshThings, OneFieldEach, InsertIndex, Placed, WellFormed, WriteField;
      WriteFieldEdits(state.floors, p, grown, state.anchor);
      KnownHere(state.floors, state.known, p);
      Grown(things, index, thing);
      EditPlaces(state.floors, state.known, WriteField(state.floors, p, grown, state.anchor), p, grown, index);
    }
  }

  lemma ChangeFieldPlaces(state: State, p: MapPosition, stack: nat, thing: MapThing)
    requires WellFormed(state.floors) && Placed(state.floors, state.known)
    requires var after := ApplyChangeField(state, p, stack, thing).state.floors;
      OneFieldEach(after) && (thing.Creature? && Evicts(thing.creature) ==>
        forall q, k: nat :: !StandsAt(after, thing.creature.evicted, q, k))
    ensures var after := ApplyChangeField(state, p, stack, thing).state;
      Placed(after.floors, after.known)
  {
    var things := StackAt(state.floors, p);
    if stack < |things| {
      var changed := things[stack := thing];
      hide StackAt, RecordCreature, RefreshThings, OneFieldEach, Placed, WellFormed, WriteField;
      WriteFieldEdits(state.floors, p, changed, state.anchor);
      KnownHere(state.floors, state.known, p);
      EditPlaces(state.floors, state.known, WriteField(state.floors, p, changed, state.anchor), p, changed, stack);
    }
  }

  lemma DeleteFieldPlaces(state: State, p: MapPosition, stack: nat)
    requires WellFormed(state.floors) && Placed(state.floors, state.known)
    requires OneFieldEach(ApplyDeleteField(state, p, stack).state.floors)
    ensures var after := ApplyDeleteField(state, p, stack).state;
      Placed(after.floors, after.known)
  {
    var things := StackAt(state.floors, p);
    if stack < |things| {
      var left := RemoveAt(things, stack);
      hide StackAt, RecordCreature, RefreshThings, OneFieldEach, Placed, WellFormed, WriteField;
      WriteFieldEdits(state.floors, p, left, state.anchor);
      KnownHere(state.floors, state.known, p);
      EditPlaces(state.floors, state.known, WriteField(state.floors, p, left, state.anchor), p, left, |left|);
    }
  }

  lemma FieldDataPlaces(state: State, tile: MapTile)
    requires WellFormed(state.floors) && Placed(state.floors, state.known)
    requires var after := ApplyFieldData(state, tile).state.floors;
      OneFieldEach(after)
      && forall l :: 0 <= l < |tile.things| && EvictsAt(tile.things, l) ==>
           forall q, k: nat :: !StandsAt(after, tile.things[l].creature.evicted, q, k)
    ensures var after := ApplyFieldData(state, tile).state;
      Placed(after.floors, after.known)
  {
    if WithinFloorWindow(state.anchor, tile.position) {
      var p := tile.position;
      var after := WriteField(state.floors, p, tile.things, state.anchor);
      var refreshed := Refresh(state.known, tile.things, p);
      var recorded := RecordThings(Registry(refreshed, []), tile.things, p, |tile.things|, false).known;
      hide StackAt, RecordThings, RefreshThings, RecordedAt, WellFormed, WriteField;
      WriteFieldEdits(state.floors, p, tile.things, state.anchor);
      forall id: quad, q, k: nat | StandsAt(after, id, q, k) ensures RecordedAt(recorded, id, q, k) {
        assert StackAt(after, p) == tile.things;
        forall l | 0 <= l < |tile.things| && tile.things[l].Creature?
          ensures tile.things[l].creature.id == id ==> p == q && l == k
          ensures !(Evicts(tile.things[l].creature) && tile.things[l].creature.evicted == id)
        {
          assert StandsAt(after, tile.things[l].creature.id, p, l);
          if Evicts(tile.things[l].creature) { assert EvictsAt(tile.things, l); }
        }
        if q != p {
          PlacedBefore(state.floors, state.known, after, p, tile.things, id, q, k);
          RefreshPlaces(state.floors, state.known, after, p, tile.things, id, q, k);
        }
        RecordThingsAt(Registry(refreshed, []), tile.things, p, |tile.things|, false, id, q, k);
      }
    }
  }

  lemma RemovalKeepsOneFieldEach(before: seq<MapFloor>, after: seq<MapFloor>, p: MapPosition, stack: nat)
    requires stack < |StackAt(before, p)| && Edited(before, after, p, RemoveAt(StackAt(before, p), stack))
    requires OneFieldEach(before)
    ensures OneFieldEach(after)
  {
    hide StackAt;
    var left := RemoveAt(StackAt(before, p), stack);
    forall id: quad, a, k: nat, b, l: nat | StandsAt(after, id, a, k) && StandsAt(after, id, b, l) ensures a == b
      && k == l {
      StoodBefore(before, after, p, stack, id, a, k);
      StoodBefore(before, after, p, stack, id, b, l);
    }
  }

  lemma StoodBefore(
      before: seq<MapFloor>, after: seq<MapFloor>, p: MapPosition, stack: nat, id: quad, q: MapPosition, k: nat)
    requires stack < |StackAt(before, p)| && Edited(before, after, p, RemoveAt(StackAt(before, p), stack))
    requires StandsAt(after, id, q, k)
    ensures StandsAt(before, id, q, if q == p && k >= stack then k + 1 else k)
  {
    hide StackAt;
  }

  lemma MoveCreaturePlaces(state: State, origin: MapPosition, stack: nat, destination: MapPosition, types: Types)
    requires WellFormed(state.floors) && Placed(state.floors, state.known) && OneFieldEach(state.floors)
    requires OneFieldEach(ApplyMoveCreature(state, origin, stack, destination, types).state.floors)
    ensures var after := ApplyMoveCreature(state, origin, stack, destination, types).state;
      Placed(after.floors, after.known)
  {
    hide StackAt, RefreshThings, Placed, OneFieldEach, InsertIndex, WellFormed, WriteField, Edited, StandsAt;
    var things := StackAt(state.floors, origin);
    if stack < |things| && things[stack].Creature? {
      var moved := things[stack];
      var left := RemoveAt(things, stack);
      var floors := WriteField(state.floors, origin, left, state.anchor);
      var target := StackAt(floors, destination);
      var index := InsertIndex(Priorities(target, types), PRIORITY_CREATURE);
      WriteFieldEdits(state.floors, origin, left, state.anchor);
      KnownHere(state.floors, state.known, origin);
      RemovalKeepsOneFieldEach(state.floors, floors, origin, stack);
      EditPlaces(state.floors, state.known, floors, origin, left, |left|);
      assert Placed(floors, Refresh(state.known, left, origin));
      ArrivalPlaces(floors, Refresh(state.known, left, origin), state.anchor, destination, index, moved);
    }
  }

  lemma ArrivalPlaces(
      floors: seq<MapFloor>, known: map<quad, CreatureRecord>, anchor: MapPosition, p: MapPosition, index: nat,
      moved: MapThing)
    requires WellFormed(floors) && Placed(floors, known) && moved.Creature? && index <= |StackAt(floors, p)|
    requires OneFieldEach(WriteField(floors, p, InsertAt(StackAt(floors, p), index, moved), anchor))
    ensures var grown := InsertAt(StackAt(floors, p), index, moved);
      var refreshed := Refresh(known, grown, p);
      var id := moved.creature.id;
      var record := if id in refreshed then refreshed[id] else NewRecord(id);
      Placed(WriteField(floors, p, grown, anchor), refreshed[id := record.(position := p, stack := index)])
  {
    hide StackAt, RefreshThings, OneFieldEach, WellFormed, WriteField;
    var grown := InsertAt(StackAt(floors, p), index, moved);
    var after := WriteField(floors, p, grown, anchor);
    var refreshed := Refresh(known, grown, p);
    var id := moved.creature.id;
    var record := if id in refreshed then refreshed[id] else NewRecord(id);
    var final := refreshed[id := record.(position := p, stack := index)];
    Grown(StackAt(floors, p), index, moved);
    KnownHere(floors, known, p);
    WriteFieldEdits(floors, p, grown, anchor);
    forall other: quad, q, k: nat | StandsAt(after, other, q, k) ensures RecordedAt(final, other, q, k) {
      SameCreatureSamePlace(floors, after, p, grown, index, other, q, k);
      if other != id {
        if q != p {
          PlacedBefore(floors, known, after, p, grown, other, q, k);
        } else {
          assert StackAt(after, p) == grown;
          assert grown[k] == StackAt(floors, p)[if k < index then k else k - 1];
        }
        RefreshPlaces(floors, known, after, p, grown, other, q, k);
      }
    }
  }

  // ---- every update ---------------------------------------------------------------------

  /** What the decoder guarantees about an update whose viewport it stepped to `next`. */
  ghost predicate Decoded(update: ServerUpdate, next: MapPosition) {
    match update
    case FullScreen(window, floors, _, _) =>
      window.player == next && WellFormed(floors) && InsideViewport(floors, next)
    case Row(_, floors) => WellFormed(floors) && InsideViewport(floors, next)
    case FloorChange(_, floors) => WellFormed(floors) && InsideViewport(floors, next)
    case _ => true
  }

  /** No creature the update evicts is on the map afterwards. */
  ghost predicate EvictsNobodyVisible(update: ServerUpdate, after: seq<MapFloor>) {
    match update
    case FullScreen(_, floors, _, _) => EvictsNoneOf(floors, after)
    case Row(_, floors) => EvictsNoneOf(floors, after)
    case FloorChange(_, floors) => EvictsNoneOf(floors, after)
    case FieldData(tile) =>
      forall l :: 0 <= l < |tile.things| && EvictsAt(tile.things, l) ==>
        forall q, k: nat :: !StandsAt(after, tile.things[l].creature.evicted, q, k)
    case AddField(_, thing) => thing.Creature? && Evicts(thing.creature) ==>
      forall q, k: nat :: !StandsAt(after, thing.creature.evicted, q, k)
    case ChangeField(_, _, thing) => thing.Creature? && Evicts(thing.creature) ==>
      forall q, k: nat :: !StandsAt(after, thing.creature.evicted, q, k)
    case _ => true
  }

  lemma AttributesStayPlaced(state: State, update: ServerUpdate, next: MapPosition, types: Types)
    requires Placed(state.floors, state.known)
    requires !update.FullScreen? && !update.Row? && !update.FloorChange? && !update.FieldData?
    requires !update.AddField? && !update.ChangeField? && !update.DeleteField? && !update.MoveCreature?
    ensures var after := Apply(state, update, next, types).state;
      after.floors == state.floors && after.anchor == state.anchor && Placed(after.floors, after.known)
  {
    hide StandsAt, WithChange;
  }

  lemma UpdatePlaces(state: State, update: ServerUpdate, next: MapPosition, types: Types)
    requires WellFormed(state.floors) && Placed(state.floors, state.known) && OneFieldEach(state.floors)
    requires Decoded(update, next)
    requires var after := Apply(state, update, next, types).state.floors;
      OneFieldEach(after) && EvictsNobodyVisible(update, after)
    ensures var after := Apply(state, update, next, types).state;
      Placed(after.floors, after.known)
  {
    hide WellFormed, InsideViewport, OneFieldEach, Placed, ApplyFullScreen, ApplyRevealed, ApplyFieldData,
      ApplyAddField, ApplyChangeField, ApplyDeleteField, ApplyMoveCreature, StandsAt, EvictsNoneOf;
    match update
    case FullScreen(window, floors, _, _) =>
      FullScreenFloors(state, window, floors);
      FullScreenPlaces(state, window, floors);
    case Row(_, floors) => RevealedPlaces(state, next, floors);
    case FloorChange(_, floors) => RevealedPlaces(state, next, floors);
    case FieldData(tile) => FieldDataPlaces(state, tile);
    case AddField(p, thing) => AddFieldPlaces(state, p, thing, types);
    case ChangeField(p, stack, thing) => ChangeFieldPlaces(state, p, stack, thing);
    case DeleteField(p, stack) => DeleteFieldPlaces(state, p, stack);
    case MoveCreature(origin, stack, destination) => MoveCreaturePlaces(state, origin, stack, destination, types);
    case _ => AttributesStayPlaced(state, update, next, types);
  }

  lemma FullScreenFloors(state: State, window: Window, floors: seq<MapFloor>)
    ensures ApplyFullScreen(state, window, floors).state.floors == floors
    ensures ApplyFullScreen(state, window, floors).state.anchor == window.player
  {
  }
}
