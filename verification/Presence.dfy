/** Whoever the server's table holds stands where the client recorded it. */
module Presence {
  import opened World
  import opened Viewport
  import opened ObjectTypes
  import opened Updates
  import opened Floors
  import opened Mirror
  import opened Creatures
  import opened Snapshot
  import opened KnownCreatures
  import Runs

  // ---- one update -----------------------------------------------------------------------------------

  /** The place of nobody who stands on the map is free. */
  ghost predicate Guarded(t: Table, floors: seq<MapFloor>) {
    forall id: quad, p, k: nat :: StandsAt(floors, id, p, k) ==> Protected(t, id)
  }

  ghost predicate InSight(floors: seq<MapFloor>, seen: quad -> bool) {
    forall id: quad, p, k: nat :: StandsAt(floors, id, p, k) ==> id != 0 && seen(id)
  }

  /** What is described stands where it is described. */
  ghost predicate SightsStand(ss: seq<Sighting>, floors: seq<MapFloor>) {
    forall i :: 0 <= i < |ss| ==> StandsAt(floors, ss[i].creature.id, ss[i].p, ss[i].stack)
  }

  lemma SightsJoin(a: seq<Sighting>, b: seq<Sighting>, floors: seq<MapFloor>)
    requires SightsStand(a, floors) && SightsStand(b, floors)
    ensures SightsStand(a + b, floors)
  {
    hide StandsAt;
  }

  lemma SightedJoins(a: seq<Sighting>, b: seq<Sighting>, id: quad)
    ensures Sighted(a + b, id) <==> Sighted(a, id) || Sighted(b, id)
  {
    if Sighted(a, id) {
      var i :| 0 <= i < |a| && a[i].creature.id == id;
      assert (a + b)[i].creature.id == id;
    }
    if Sighted(b, id) {
      var i :| 0 <= i < |b| && b[i].creature.id == id;
      assert (a + b)[|a| + i].creature.id == id;
    }
  }

  lemma {:induction false} ThingsStand(floors: seq<MapFloor>, things: seq<MapThing>, p: MapPosition, n: nat)
    requires n <= |things| && StackAt(floors, p) == things
    ensures SightsStand(OfThings(things, p, n), floors)
    ensures forall k :: 0 <= k < n && things[k].Creature? ==> Sighted(OfThings(things, p, n), things[k].creature.id)
  {
    hide StackAt, SightsStand, Sighted;
    if n == 0 {
      assert SightsStand([], floors) by { NoSights(floors); }
    } else {
      ThingsStand(floors, things, p, n - 1);
      if things[n - 1].Creature? {
        var last := [Sighting(things[n - 1].creature, p, n - 1)];
        OneSight(last[0], floors);
        SightsJoin(OfThings(things, p, n - 1), last, floors);
        assert OfThings(things, p, n) == OfThings(things, p, n - 1) + last;
        forall k | 0 <= k < n && things[k].Creature? ensures Sighted(OfThings(things, p, n), things[k].creature.id) {
          SightedJoins(OfThings(things, p, n - 1), last, things[k].creature.id);
        }
      } else {
        assert OfThings(things, p, n) == OfThings(things, p, n - 1);
      }
    }
  }

  lemma NoSights(floors: seq<MapFloor>)
    ensures SightsStand([], floors)
  {
  }

  lemma OneSight(s: Sighting, floors: seq<MapFloor>)
    requires StandsAt(floors, s.creature.id, s.p, s.stack)
    ensures SightsStand([s], floors) && Sighted([s], s.creature.id)
  {
    hide StandsAt;
    assert [s][0] == s;
  }

  lemma {:induction false} TilesStand(floors: seq<MapFloor>, tiles: seq<MapTile>, n: nat)
    requires n <= |tiles| && forall j :: 0 <= j < |tiles| ==> StackAt(floors, tiles[j].position) == tiles[j].things
    ensures SightsStand(OfTiles(tiles, n), floors)
    ensures forall j, k :: 0 <= j < n && 0 <= k < |tiles[j].things| && tiles[j].things[k].Creature? ==>
      Sighted(OfTiles(tiles, n), tiles[j].things[k].creature.id)
  {
    hide StackAt, SightsStand, Sighted, OfThings;
    if n == 0 {
      NoSights(floors);
    } else {
      TilesStand(floors, tiles, n - 1);
      var tile := tiles[n - 1];
      ThingsStand(floors, tile.things, tile.position, |tile.things|);
      SightsJoin(OfTiles(tiles, n - 1), OfThings(tile.things, tile.position, |tile.things|), floors);
      forall j, k | 0 <= j < n && 0 <= k < |tiles[j].things| && tiles[j].things[k].Creature?
        ensures Sighted(OfTiles(tiles, n), tiles[j].things[k].creature.id)
      {
        SightedJoins(OfTiles(tiles, n - 1), OfThings(tile.things, tile.position, |tile.things|),
          tiles[j].things[k].creature.id);
      }
    }
  }

  predicate DescribesAt(floors: seq<MapFloor>, i: int, j: int, k: int) {
    0 <= i < |floors| && 0 <= j < |floors[i].tiles| && 0 <= k < |floors[i].tiles[j].things|
    && floors[i].tiles[j].things[k].Creature?
  }

  lemma {:induction false} FloorsStand(after: seq<MapFloor>, floors: seq<MapFloor>, n: nat)
    requires n <= |floors| && Shows(after, floors)
    ensures SightsStand(OfFloors(floors, n), after)
    ensures forall i, j, k :: 0 <= i < n && DescribesAt(floors, i, j, k) ==>
      Sighted(OfFloors(floors, n), floors[i].tiles[j].things[k].creature.id)
  {
    hide StackAt, SightsStand, Sighted, OfTiles;
    if n == 0 {
      NoSights(after);
    } else {
      FloorsStand(after, floors, n - 1);
      var tiles := floors[n - 1].tiles;
      TilesStand(after, tiles, |tiles|);
      SightsJoin(OfFloors(floors, n - 1), OfTiles(tiles, |tiles|), after);
      forall i, j, k | 0 <= i < n && DescribesAt(floors, i, j, k)
        ensures Sighted(OfFloors(floors, n), floors[i].tiles[j].things[k].creature.id)
      {
        SightedJoins(OfFloors(floors, n - 1), OfTiles(tiles, |tiles|), floors[i].tiles[j].things[k].creature.id);
      }
    }
  }

  /** Who stands on a described field is described. */
  lemma StandingIsSighted(after: seq<MapFloor>, floors: seq<MapFloor>, id: quad, p: MapPosition, k: nat)
    requires Shows(after, floors) && StandsAt(floors, id, p, k)
    ensures Sighted(OfFloors(floors, |floors|), id)
  {
    hide Shows, SightsStand, Sighted, OfFloors;
    FloorsStand(after, floors, |floors|);
    var i := FloorIndex(floors, p.z);
    var j := TileIndex(floors[i].tiles, p);
    assert DescribesAt(floors, i, j, k) && floors[i].tiles[j].things[k].creature.id == id;
  }

  /** Descriptions of things that stand on the map, recorded in order, place everyone who was
      placed before and everyone described. */
  lemma SightingsPlace(
      t: Table, registry: Registry, ss: seq<Sighting>, seen: quad -> bool, snapshot: bool, after: seq<MapFloor>,
      id: quad, q: MapPosition, k: nat)
    requires DistinctIds(t) && Agrees(t, registry.known) && TellsAll(t, ss, seen)
    requires OneFieldEach(after) && InSight(after, seen) && SightsStand(ss, after) && StandsAt(after, id, q, k)
    requires Sighted(ss, id) || (Protected(t, id) && RecordedAt(registry.known, id, q, k))
    ensures Protected(ToldAll(t, ss, seen), id)
    ensures RecordedAt(RecordAll(registry, ss, snapshot).known, id, q, k)
  {
    hide StandsAt, DistinctIds, Agrees, TellsAll, Protected, ToldAll, RecordAll, Sighted, RecordedAt;
    forall i | 0 <= i < |ss| && ss[i].creature.id == id ensures ss[i].p == q && ss[i].stack == k {
      assert StandsAt(after, ss[i].creature.id, ss[i].p, ss[i].stack);
    }
    ToldAllPlaces(t, registry, ss, seen, snapshot, id, q, k);
  }

  lemma SightsAreSeen(ss: seq<Sighting>, after: seq<MapFloor>, seen: quad -> bool)
    requires SightsStand(ss, after) && InSight(after, seen)
    ensures forall i :: 0 <= i < |ss| ==> ss[i].creature.id != 0 && seen(ss[i].creature.id)
  {
    hide StandsAt;
  }

  // ---- what both sides hold ----------------------------------------------------------------------------

  /** The table, what the client knows and what stands on its map are in step. */
  ghost predicate InStep(t: Table, floors: seq<MapFloor>, known: map<quad, CreatureRecord>) {
    DistinctIds(t) && Agrees(t, known) && Guarded(t, floors) && Placed(floors, known)
  }

  /** What a message that describes `ss` must leave behind, `t` being the table before it. */
  ghost predicate Kept(
      t: Table, ss: seq<Sighting>, seen: quad -> bool, known: map<quad, CreatureRecord>, floors: seq<MapFloor>,
      known': map<quad, CreatureRecord>)
  {
    var t' := ToldAll(t, ss, seen);
    InStep(t', floors, known') && |t'| == |t| && (Listed(t, known) && AtMost(|t|, seen) ==> Listed(t', known'))
  }

  /** A message that describes `ss` on the way from `before` to `after`. */
  lemma MessagePlaces(
      t: Table, before: seq<MapFloor>, registry: Registry, ss: seq<Sighting>, seen: quad -> bool, snapshot: bool,
      after: seq<MapFloor>)
    requires DistinctIds(t) && Agrees(t, registry.known) && TellsAll(t, ss, seen)
    requires OneFieldEach(after) && InSight(after, seen) && SightsStand(ss, after)
    requires forall id: quad, p, k: nat :: StandsAt(after, id, p, k) ==>
      Sighted(ss, id) || (Protected(t, id) && RecordedAt(registry.known, id, p, k))
    ensures var end := RecordAll(registry, ss, snapshot);
      Kept(t, ss, seen, registry.known, after, end.known) && end.anomalies == registry.anomalies
  {
    hide StandsAt, DistinctIds, Agrees, TellsAll, Protected, ToldAll, RecordAll, Sighted, RecordedAt, Listed, AtMost;
    ToldAllAgrees(t, registry, ss, seen, snapshot);
    forall id: quad, p, k: nat | StandsAt(after, id, p, k)
      ensures Protected(ToldAll(t, ss, seen), id) && RecordedAt(RecordAll(registry, ss, snapshot).known, id, p, k)
    {
      SightingsPlace(t, registry, ss, seen, snapshot, after, id, p, k);
    }
    SightsAreSeen(ss, after, seen);
    if Listed(t, registry.known) && AtMost(|t|, seen) { ToldAllLists(t, registry, ss, seen, snapshot); }
  }

  lemma SnapshotKeepsStep(t: Table, state: State, window: Window, floors: seq<MapFloor>, seen: quad -> bool)
    requires WellFormed(floors) && OneFieldEach(floors) && InSight(floors, seen)
    requires DistinctIds(t) && Agrees(t, state.known) && TellsAll(t, OfFloors(floors, |floors|), seen)
    ensures var applied := ApplyFullScreen(state, window, floors);
      && Kept(t, OfFloors(floors, |floors|), seen, state.known, floors, applied.state.known)
      && applied.anomalies == if |applied.state.known| > KNOWN_CREATURE_TABLE_SIZE
        then [Anomaly(KnownCreatureTableOverflow, 0, ORIGIN)] else []
  {
    hide DistinctIds, Agrees, TellsAll, ToldAll, Listed, AtMost, Protected, InStep, OneFieldEach, RecordFloors,
      RecordAll, OfFloors, StandsAt, Sighted, SightsStand, Shows;
    var registry := Registry(state.known, []);
    FloorsShowThemselves(floors);
    FloorsStand(floors, floors, |floors|);
    forall id: quad, p, k: nat | StandsAt(floors, id, p, k) ensures Sighted(OfFloors(floors, |floors|), id) {
      StandingIsSighted(floors, floors, id, p, k);
    }
    FloorsAreSightings(registry, floors, |floors|, true);
    MessagePlaces(t, floors, registry, OfFloors(floors, |floors|), seen, true, floors);
  }

  lemma RevealKeepsStep(t: Table, state: State, next: MapPosition, incoming: seq<MapFloor>, seen: quad -> bool)
    requires WellFormed(state.floors) && InStep(t, state.floors, state.known)
    requires WellFormed(incoming) && InsideViewport(incoming, next)
    requires TellsAll(t, OfFloors(incoming, |incoming|), seen)
    requires var after := ApplyRevealed(state, next, incoming).state.floors;
      OneFieldEach(after) && InSight(after, seen)
    ensures var applied := ApplyRevealed(state, next, incoming);
      && Kept(t, OfFloors(incoming, |incoming|), seen, state.known, applied.state.floors, applied.state.known)
      && applied.anomalies == []
  {
    hide DistinctIds, Agrees, TellsAll, ToldAll, Listed, AtMost, Protected, OneFieldEach, RecordFloors, RecordAll,
      OfFloors, StandsAt, Sighted, SightsStand, Shows, MergeFloors, Prune, WellFormed, InsideViewport, RecordedAt;
    var registry := Registry(state.known, []);
    var after := ApplyRevealed(state, next, incoming).state.floors;
    RevealedShows(state, next, incoming);
    FloorsStand(after, incoming, |incoming|);
    forall id: quad, p, k: nat | StandsAt(after, id, p, k)
      ensures Sighted(OfFloors(incoming, |incoming|), id) || (Protected(t, id) && RecordedAt(state.known, id, p, k))
    {
      if StandsAt(incoming, id, p, k) { StandingIsSighted(after, incoming, id, p, k); }
    }
    FloorsAreSightings(registry, incoming, |incoming|, false);
    MessagePlaces(t, state.floors, registry, OfFloors(incoming, |incoming|), seen, false, after);
  }

  lemma RefreshKeepsKeys(known: map<quad, CreatureRecord>, things: seq<MapThing>, p: MapPosition)
    ensures Refresh(known, things, p).Keys == known.Keys
  {
    RefreshedKeys(known, things, p, |things|);
  }

  lemma {:induction false} RefreshedKeys(
      known: map<quad, CreatureRecord>, things: seq<MapThing>, p: MapPosition, n: nat)
    requires n <= |things|
    ensures RefreshThings(known, things, p, n).Keys == known.Keys
  {
    if n > 0 { RefreshedKeys(known, things, p, n - 1); }
  }

  lemma SameKeysAgree(t: Table, known: map<quad, CreatureRecord>, known': map<quad, CreatureRecord>)
    requires known'.Keys == known.Keys
    ensures Agrees(t, known) ==> Agrees(t, known')
    ensures Listed(t, known) ==> Listed(t, known')
  {
    hide SlotOf;
    assert forall id :: id in known' <==> id in known'.Keys;
    assert forall id :: id in known <==> id in known.Keys;
  }

  lemma FieldDataKeepsStep(t: Table, state: State, tile: MapTile, seen: quad -> bool)
    requires WellFormed(state.floors) && InStep(t, state.floors, state.known)
    requires WithinFloorWindow(state.anchor, tile.position)
    requires TellsAll(t, OfThings(tile.things, tile.position, |tile.things|), seen)
    requires var after := ApplyFieldData(state, tile).state.floors;
      OneFieldEach(after) && InSight(after, seen)
    ensures var applied := ApplyFieldData(state, tile);
      && Kept(t, OfThings(tile.things, tile.position, |tile.things|), seen, state.known, applied.state.floors,
        applied.state.known)
      && applied.anomalies == []
  {
    hide DistinctIds, Agrees, TellsAll, ToldAll, Listed, AtMost, Protected, OneFieldEach, RecordThings, RecordAll,
      OfThings, Sighted, SightsStand, WellFormed, RecordedAt, RefreshThings, StackAt, WriteField;
    var p, things := tile.position, tile.things;
    var after := WriteField(state.floors, p, things, state.anchor);
    var refreshed := Refresh(state.known, things, p);
    WriteFieldEdits(state.floors, p, things, state.anchor);
    assert StackAt(after, p) == things;
    RefreshKeepsKeys(state.known, things, p);
    SameKeysAgree(t, state.known, refreshed);
    ThingsStand(after, things, p, |things|);
    forall id: quad, q, k: nat | StandsAt(after, id, q, k)
      ensures Sighted(OfThings(things, p, |things|), id) || (Protected(t, id) && RecordedAt(refreshed, id, q, k))
    {
      if q != p {
        assert StandsAt(state.floors, id, q, k);
        RefreshPlaces(state.floors, state.known, after, p, things, id, q, k);
      }
    }
    ThingsAreSightings(Registry(refreshed, []), things, p, |things|, false);
    MessagePlaces(t, state.floors, Registry(refreshed, []), OfThings(things, p, |things|), seen, false, after);
  }

  /** Editing one field where only the thing at `except` may be new. */
  lemma EditKeepsStep(
      t: Table, before: seq<MapFloor>, known: map<quad, CreatureRecord>, after: seq<MapFloor>, p: MapPosition,
      things: seq<MapThing>, except: nat, seen: quad -> bool)
    requires Edited(before, after, p, things) && OneFieldEach(after) && InSight(after, seen)
    requires InStep(t, before, known) && except < |things| && AllKnown(things, known, except)
    requires forall id: quad, k: nat :: StandsAt(after, id, p, k) && k != except ==> Protected(t, id)
    requires TellsAll(t, OfThings([things[except]], p, 1), seen)
    ensures var refreshed := Registry(Refresh(known, things, p), []);
      var end := if things[except].Creature? then RecordCreature(refreshed, things[except].creature, p, except, false)
        else refreshed;
      Kept(t, OfThings([things[except]], p, 1), seen, known, after, end.known) && end.anomalies == []
  {
    hide DistinctIds, Agrees, Tells, Told, Listed, AtMost, Protected, OneFieldEach, RecordCreature, RefreshThings,
      StackAt, RecordedAt;
    var refreshed := Registry(Refresh(known, things, p), []);
    RefreshKeepsKeys(known, things, p);
    SameKeysAgree(t, known, refreshed.known);
    assert StackAt(after, p) == things;
    forall id: quad, q, k: nat | StandsAt(after, id, q, k) && !(q == p && k == except) ensures Protected(t, id) {
      if q != p { assert StandsAt(before, id, q, k); }
    }
    if things[except].Creature? {
      DescribedKeepsStep(t, before, known, after, p, things, except, seen);
    } else {
      assert OfThings([things[except]], p, 1) == [];
      forall id: quad, q, k: nat | StandsAt(after, id, q, k) ensures Protected(t, id) {
      }
      EditPlaces(before, known, after, p, things, except);
    }
  }

  lemma DescribedKeepsStep(
      t: Table, before: seq<MapFloor>, known: map<quad, CreatureRecord>, after: seq<MapFloor>, p: MapPosition,
      things: seq<MapThing>, except: nat, seen: quad -> bool)
    requires Edited(before, after, p, things) && OneFieldEach(after) && InSight(after, seen)
    requires InStep(t, before, known) && except < |things| && AllKnown(things, known, except)
    requires things[except].Creature? && TellsAll(t, OfThings([things[except]], p, 1), seen)
    requires forall id: quad, q, k: nat :: StandsAt(after, id, q, k) && !(q == p && k == except) ==> Protected(t, id)
    ensures var end := RecordCreature(Registry(Refresh(known, things, p), []), things[except].creature, p, except,
      false);
      Kept(t, OfThings([things[except]], p, 1), seen, known, after, end.known) && end.anomalies == []
  {
    hide DistinctIds, Agrees, Tells, Listed, AtMost, Protected, OneFieldEach, RecordCreature, RefreshThings, StackAt,
      RecordedAt, Placed, Told, StandsAt;
    var creature := things[except].creature;
    var refreshed := Registry(Refresh(known, things, p), []);
    var end := RecordCreature(refreshed, creature, p, except, false);
    RefreshKeepsKeys(known, things, p);
    SameKeysAgree(t, known, refreshed.known);
    OneTold(t, things[except], p, seen);
    assert StandsAt(after, creature.id, p, except) by { HereStands(before, after, p, things, except); }
    ToldAgrees(t, refreshed, Sighting(creature, p, except), seen, false);
    forall id: quad, q, k: nat | StandsAt(after, id, q, k)
      ensures Protected(Told(t, creature.id, seen), id)
      ensures EvictsAt(things, except) ==> creature.evicted != id
    {
      ToldProtects(t, creature, seen, id);
      if q == p && k == except { HereStands(before, after, p, things, except); }
    }
    EditPlaces(before, known, after, p, things, except);
    if Listed(t, known) && AtMost(|t|, seen) {
      RoomUnlessCrowded(t, creature.id, seen);
      ToldLists(t, refreshed, Sighting(creature, p, except), seen, false);
    }
  }

  lemma OneTold(t: Table, thing: MapThing, p: MapPosition, seen: quad -> bool)
    requires thing.Creature? && TellsAll(t, OfThings([thing], p, 1), seen)
    ensures Tells(t, thing.creature, seen)
    ensures ToldAll(t, OfThings([thing], p, 1), seen) == Told(t, thing.creature.id, seen)
  {
    hide Tells, Told;
    var s := Sighting(thing.creature, p, 0);
    assert OfThings([thing], p, 1) == [s] && [s][..0] == [];
  }

  lemma HereStands(before: seq<MapFloor>, after: seq<MapFloor>, p: MapPosition, things: seq<MapThing>, index: nat)
    requires Edited(before, after, p, things) && index < |things| && things[index].Creature?
    ensures forall id: quad :: StandsAt(after, id, p, index) <==> id == things[index].creature.id
  {
    hide StackAt;
    assert StackAt(after, p) == things;
  }

  lemma AddFieldKeepsStep(t: Table, state: State, p: MapPosition, thing: MapThing, types: Types, seen: quad -> bool)
    requires WellFormed(state.floors) && InStep(t, state.floors, state.known)
    requires WithinFloorWindow(state.anchor, p) && TellsAll(t, OfThings([thing], p, 1), seen)
    requires var after := ApplyAddField(state, p, thing, types).state.floors;
      OneFieldEach(after) && InSight(after, seen)
    ensures var applied := ApplyAddField(state, p, thing, types);
      && Kept(t, OfThings([thing], p, 1), seen, state.known, applied.state.floors, applied.state.known)
      && applied.anomalies == []
  {
    var things := StackAt(state.floors, p);
    var index := InsertIndex(Priorities(things, types), ThingPriority(thing, types));
    var grown := InsertAt(things, index, thing);
    hide StackAt, RecordCreature, RefreshThings, OneFieldEach, InsertIndex, Placed, WellFormed, WriteField, Kept,
      TellsAll, Protected, DistinctIds, Agrees, OfThings, InSight;
    WriteFieldEdits(state.floors, p, grown, state.anchor);
    KnownHere(state.floors, state.known, p);
    Grown(things, index, thing);
    var after := WriteField(state.floors, p, grown, state.anchor);
    assert StackAt(after, p) == grown;
    forall id: quad, k: nat | StandsAt(after, id, p, k) && k != index ensures Protected(t, id) {
      assert StandsAt(state.floors, id, p, if k < index then k else k - 1);
    }
    EditKeepsStep(t, state.floors, state.known, after, p, grown, index, seen);
  }

  lemma ChangeFieldKeepsStep(t: Table, state: State, p: MapPosition, stack: nat, thing: MapThing, seen: quad -> bool)
    requires WellFormed(state.floors) && InStep(t, state.floors, state.known)
    requires stack < |StackAt(state.floors, p)| && TellsAll(t, OfThings([thing], p, 1), seen)
    requires var after := ApplyChangeField(state, p, stack, thing).state.floors;
      OneFieldEach(after) && InSight(after, seen)
    ensures var applied := ApplyChangeField(state, p, stack, thing);
      && Kept(t, OfThings([thing], p, 1), seen, state.known, applied.state.floors, applied.state.known)
      && applied.anomalies == []
  {
    var things := StackAt(state.floors, p);
    var changed := things[stack := thing];
    hide StackAt, RecordCreature, RefreshThings, OneFieldEach, Placed, WellFormed, WriteField, Kept, TellsAll,
      Protected, DistinctIds, Agrees, OfThings, InSight;
    WriteFieldEdits(state.floors, p, changed, state.anchor);
    KnownHere(state.floors, state.known, p);
    var after := WriteField(state.floors, p, changed, state.anchor);
    assert StackAt(after, p) == changed;
    forall id: quad, k: nat | StandsAt(after, id, p, k) && k != stack ensures Protected(t, id) {
      assert StandsAt(state.floors, id, p, k);
    }
    EditKeepsStep(t, state.floors, state.known, after, p, changed, stack, seen);
  }

  /** Nobody is described and nobody new stands anywhere. */
  lemma QuietKeepsStep(
      t: Table, before: seq<MapFloor>, known: map<quad, CreatureRecord>, after: seq<MapFloor>,
      known': map<quad, CreatureRecord>, seen: quad -> bool)
    requires InStep(t, before, known) && known'.Keys == known.Keys && Placed(after, known')
    requires forall id: quad, p, k: nat :: StandsAt(after, id, p, k) ==> StandsSomewhere(before, id)
    ensures Kept(t, [], seen, known, after, known')
  {
    hide DistinctIds, Agrees, Listed, AtMost, Protected, StandsAt, Placed;
    SameKeysAgree(t, known, known');
  }

  ghost predicate StandsSomewhere(floors: seq<MapFloor>, id: quad) {
    exists p, k: nat :: StandsAt(floors, id, p, k)
  }

  lemma DeleteFieldKeepsStep(t: Table, state: State, p: MapPosition, stack: nat, seen: quad -> bool)
    requires WellFormed(state.floors) && InStep(t, state.floors, state.known) && stack < |StackAt(state.floors, p)|
    requires OneFieldEach(ApplyDeleteField(state, p, stack).state.floors)
    ensures var applied := ApplyDeleteField(state, p, stack);
      Kept(t, [], seen, state.known, applied.state.floors, applied.state.known) && applied.anomalies == []
  {
    var things := StackAt(state.floors, p);
    var left := RemoveAt(things, stack);
    hide StackAt, RefreshThings, OneFieldEach, Placed, WellFormed, WriteField, Kept, Protected, DistinctIds, Agrees,
      StandsAt;
    var after := WriteField(state.floors, p, left, state.anchor);
    DeleteFieldPlaces(state, p, stack);
    RefreshKeepsKeys(state.known, left, p);
    WriteFieldEdits(state.floors, p, left, state.anchor);
    forall id: quad, q, k: nat | StandsAt(after, id, q, k) ensures StandsSomewhere(state.floors, id) {
      StoodBefore(state.floors, after, p, stack, id, q, k);
    }
    QuietKeepsStep(t, state.floors, state.known, after, Refresh(state.known, left, p), seen);
  }

  lemma MoveCreatureKeepsStep(
      t: Table, state: State, origin: MapPosition, stack: nat, destination: MapPosition, types: Types,
      seen: quad -> bool)
    requires WellFormed(state.floors) && InStep(t, state.floors, state.known) && OneFieldEach(state.floors)
    requires stack < |StackAt(state.floors, origin)| && StackAt(state.floors, origin)[stack].Creature?
    requires OneFieldEach(ApplyMoveCreature(state, origin, stack, destination, types).state.floors)
    ensures var applied := ApplyMoveCreature(state, origin, stack, destination, types);
      Kept(t, [], seen, state.known, applied.state.floors, applied.state.known) && applied.anomalies == []
  {
    hide StackAt, RefreshThings, Placed, OneFieldEach, InsertIndex, WellFormed, WriteField, Kept, Protected,
      DistinctIds, Agrees, StandsAt;
    MoveCreaturePlaces(state, origin, stack, destination, types);
    var things := StackAt(state.floors, origin);
    var moved, left := things[stack], RemoveAt(things, stack);
    var floors := WriteField(state.floors, origin, left, state.anchor);
    var target := StackAt(floors, destination);
    var index := InsertIndex(Priorities(target, types), PRIORITY_CREATURE);
    var grown := InsertAt(target, index, moved);
    var after := WriteField(floors, destination, grown, state.anchor);
    WriteFieldEdits(state.floors, origin, left, state.anchor);
    WriteFieldEdits(floors, destination, grown, state.anchor);
    RefreshKeepsKeys(state.known, left, origin);
    RefreshKeepsKeys(Refresh(state.known, left, origin), grown, destination);
    var id := moved.creature.id;
    assert id in state.known by { MovedIsKnown(state.floors, state.known, origin, stack); }
    forall other: quad, q, k: nat | StandsAt(after, other, q, k) ensures StandsSomewhere(state.floors, other) {
      MovedStoodBefore(state.floors, floors, after, origin, stack, destination, index, other, q, k);
    }
    var applied := ApplyMoveCreature(state, origin, stack, destination, types);
    assert applied.state.known.Keys == state.known.Keys;
    QuietKeepsStep(t, state.floors, state.known, after, applied.state.known, seen);
  }

  lemma MovedIsKnown(floors: seq<MapFloor>, known: map<quad, CreatureRecord>, p: MapPosition, stack: nat)
    requires Placed(floors, known) && stack < |StackAt(floors, p)| && StackAt(floors, p)[stack].Creature?
    ensures StackAt(floors, p)[stack].creature.id in known
  {
    assert StandsAt(floors, StackAt(floors, p)[stack].creature.id, p, stack);
  }

  lemma MovedStoodBefore(
      floors: seq<MapFloor>, between: seq<MapFloor>, after: seq<MapFloor>, origin: MapPosition, stack: nat,
      destination: MapPosition, index: nat, id: quad, q: MapPosition, k: nat)
    requires stack < |StackAt(floors, origin)| && StackAt(floors, origin)[stack].Creature?
    requires Edited(floors, between, origin, RemoveAt(StackAt(floors, origin), stack))
    requires index <= |StackAt(between, destination)|
    requires Edited(between, after, destination,
      InsertAt(StackAt(between, destination), index, StackAt(floors, origin)[stack]))
    requires StandsAt(after, id, q, k)
    ensures StandsSomewhere(floors, id)
  {
    hide StackAt;
    if q == destination && k == index {
      assert StandsAt(floors, id, origin, stack);
    } else {
      var l := if q == destination && k > index then k - 1 else k;
      assert StandsAt(between, id, q, l);
      StoodBefore(floors, between, origin, stack, id, q, l);
    }
  }

  /** What is not about the map moves nobody; it is refused only for a creature not known. */
  lemma AsideKeepsStep(
      t: Table, state: State, update: ServerUpdate, next: MapPosition, types: Types, seen: quad -> bool)
    requires InStep(t, state.floors, state.known) && !TouchesMap(update)
    ensures var applied := Apply(state, update, next, types);
      && Kept(t, [], seen, state.known, applied.state.floors, applied.state.known)
      && applied.anomalies == if update.CreatureAttribute? && update.creature !in state.known
        then [Anomaly(UnknownCreatureReference, update.creature, ORIGIN)] else []
  {
    hide StandsAt, WithChange, WithAttribute, Kept, Protected, DistinctIds, Agrees, Placed;
    AttributesStayPlaced(state, update, next, types);
    QuietKeepsStep(t, state.floors, state.known, state.floors, Apply(state, update, next, types).state.known, seen);
  }

  /** The update is about fields and objects the client has. */
  predicate Fits(state: State, update: ServerUpdate) {
    match update
    case FieldData(tile) => WithinFloorWindow(state.anchor, tile.position)
    case AddField(p, _) => WithinFloorWindow(state.anchor, p)
    case ChangeField(p, stack, _) => stack < |StackAt(state.floors, p)|
    case DeleteField(p, stack) => stack < |StackAt(state.floors, p)|
    case MoveCreature(origin, stack, _) =>
      stack < |StackAt(state.floors, origin)| && StackAt(state.floors, origin)[stack].Creature?
    case _ => true
  }

  /** What the client reports about an update that fits. */
  function Expected(update: ServerUpdate, before: map<quad, CreatureRecord>, after: nat): seq<Anomaly> {
    if update.FullScreen? && after > KNOWN_CREATURE_TABLE_SIZE then [Anomaly(KnownCreatureTableOverflow, 0, ORIGIN)]
    else if update.CreatureAttribute? && update.creature !in before
    then [Anomaly(UnknownCreatureReference, update.creature, ORIGIN)]
    else []
  }

  lemma UpdateKeepsStep(
      t: Table, state: State, update: ServerUpdate, next: MapPosition, types: Types, seen: quad -> bool)
    requires WellFormed(state.floors) && InStep(t, state.floors, state.known) && OneFieldEach(state.floors)
    requires Decoded(update, next) && Fits(state, update) && TellsAll(t, Sights(update), seen)
    requires var after := Apply(state, update, next, types).state.floors;
      OneFieldEach(after) && InSight(after, seen)
    ensures var applied := Apply(state, update, next, types);
      && Kept(t, Sights(update), seen, state.known, applied.state.floors, applied.state.known)
      && applied.anomalies == Expected(update, state.known, |applied.state.known|)
  {
    hide WellFormed, InsideViewport, OneFieldEach, InStep, InSight, TellsAll, Kept, ApplyFullScreen, ApplyRevealed,
      ApplyFieldData, ApplyAddField, ApplyChangeField, ApplyDeleteField, ApplyMoveCreature, OfFloors, OfThings,
      WithinFloorWindow, StackAt;
    match update
    case FullScreen(window, floors, _, _) =>
      FullScreenFloors(state, window, floors);
      StepParts(t, state.floors, state.known);
      SnapshotKeepsStep(t, state, window, floors, seen);
    case Row(_, floors) => RevealKeepsStep(t, state, next, floors, seen);
    case FloorChange(_, floors) => RevealKeepsStep(t, state, next, floors, seen);
    case FieldData(tile) => FieldDataKeepsStep(t, state, tile, seen);
    case AddField(p, thing) => AddFieldKeepsStep(t, state, p, thing, types, seen);
    case ChangeField(p, stack, thing) => ChangeFieldKeepsStep(t, state, p, stack, thing, seen);
    case DeleteField(p, stack) => DeleteFieldKeepsStep(t, state, p, stack, seen);
    case MoveCreature(origin, stack, destination) =>
      MoveCreatureKeepsStep(t, state, origin, stack, destination, types, seen);
    case _ => AsideKeepsStep(t, state, update, next, types, seen);
  }

  lemma StepParts(t: Table, floors: seq<MapFloor>, known: map<quad, CreatureRecord>)
    requires InStep(t, floors, known)
    ensures DistinctIds(t) && Agrees(t, known) && Guarded(t, floors) && Placed(floors, known)
  {
  }

  // ---- the world the table is about ------------------------------------------------------------------------

  predicate IsAt(world: Terrain, id: quad, p: MapPosition, k: nat) {
    k < |world(p)| && world(p)[k] == CreatureIdentity(id)
  }

  /** Each creature has an id of its own and stands in one place. */
  ghost predicate OnePlaceEach(world: Terrain) {
    forall id: quad, p, k: nat, q, l: nat :: IsAt(world, id, p, k) && IsAt(world, id, q, l) ==>
      id != 0 && p == q && k == l
  }

  /** The server's test, of the creature's position. */
  ghost predicate SeenFrom(anchor: MapPosition, world: Terrain, id: quad) {
    exists p, k: nat :: IsAt(world, id, p, k) && InView(anchor, p)
  }

  ghost function Eyes(anchor: MapPosition, world: Terrain): quad -> bool {
    (id: quad) => SeenFrom(anchor, world, id)
  }

  /** Who stands on an exact mirror is in sight, in one place. */
  lemma MirrorShowsSeen(floors: seq<MapFloor>, anchor: MapPosition, world: Terrain)
    requires Mirrors(floors, anchor, world) && OnePlaceEach(world)
    ensures OneFieldEach(floors) && InSight(floors, Eyes(anchor, world))
  {
    hide StackAt, InView, OnePlaceEach;
    forall id: quad, p, k: nat | StandsAt(floors, id, p, k) ensures IsAt(world, id, p, k) && InView(anchor, p) {
      assert Identities(StackAt(floors, p)) == if InView(anchor, p) then Shown(world(p)) else [];
      assert Identities(StackAt(floors, p))[k] == CreatureIdentity(id);
    }
    forall id: quad, p, k: nat | StandsAt(floors, id, p, k) ensures id != 0 && SeenFrom(anchor, world, id) {
      OnlyHere(world, id, p, k, p, k);
    }
    forall id: quad, p, k: nat, q, l: nat | StandsAt(floors, id, p, k) && StandsAt(floors, id, q, l)
      ensures p == q && k == l
    {
      OnlyHere(world, id, p, k, q, l);
    }
  }

  lemma OnlyHere(world: Terrain, id: quad, p: MapPosition, k: nat, q: MapPosition, l: nat)
    requires OnePlaceEach(world) && IsAt(world, id, p, k) && IsAt(world, id, q, l)
    ensures id != 0 && p == q && k == l
  {
  }

  /** What the server announces fits the client. */
  lemma AnnouncedFits(state: State, event: Event, update: ServerUpdate, world: Terrain)
    requires Mirrors(state.floors, state.anchor, world) && Possible(event, world)
    requires Announces(Some(update), event, state.anchor, world)
    ensures Fits(state, update) && Decoded(update, AnchorAfter(state.anchor, event))
  {
    hide StackAt, Describes, InView, InRow, InNewFloors, WithinFloorWindow, Mirrors, WellFormed, InsideViewport;
    assert ValidAnchor(state.anchor) by { MirrorsParts(state.floors, state.anchor, world); }
    var next := AnchorAfter(state.anchor, event);
    match event
    case Arrive(at) => DescribedIsDecoded(update.floors, FloorsOf(ViewportFloorRange(at.z)), p => InView(at, p), world,
      at);
    case Step(direction) =>
      RowCoversWhatAppears(state.anchor, direction);
      DescribedIsDecoded(update.floors, FloorsOf(ViewportFloorRange(next.z)), p => InRow(next, direction, p), world,
        next);
    case Climb(up) =>
      FloorChangeCoversWhatAppears(state.anchor, up);
      DescribedIsDecoded(update.floors, FloorsOf(FloorChangeRange(next.z, up)), p => InNewFloors(next, up, p), world,
        next);
    case Rewrite(p, _) => InViewIsInWindow(state.anchor, p);
    case Place(p, _) => InViewIsInWindow(state.anchor, p);
    case Replace(p, index, _) => ShownLength(state.floors, state.anchor, world, p);
    case Remove(p, index) => ShownLength(state.floors, state.anchor, world, p);
    case Walk(p, index, destination) =>
      InViewIsInWindow(state.anchor, destination);
      if index < MAX_OBJECTS_PER_POINT {
        ShownHere(state.floors, state.anchor, world, p);
        assert Identities(StackAt(state.floors, p))[index] == world(p)[index];
      }
    case Unseen(_, _) =>
    case Aside =>
  }

  lemma DescribedIsDecoded(
      floors: seq<MapFloor>, zs: seq<int>, region: MapPosition -> bool, world: Terrain, next: MapPosition)
    requires Describes(floors, zs, region, world) && forall p :: region(p) ==> InView(next, p)
    ensures WellFormed(floors) && InsideViewport(floors, next)
  {
    hide StackAt, InView, WellFormed, InsideViewport, Levels;
    forall p | StackAt(floors, p) != [] ensures InView(next, p) {
      assert Identities(StackAt(floors, p)) == if region(p) then Shown(world(p)) else [];
      assert |Identities(StackAt(floors, p))| > 0;
    }
    Runs.InsideMeansShown(floors, next);
  }

  // ---- both sides step by step ------------------------------------------------------------------------------

  datatype Server = Server(anchor: MapPosition, table: Table, world: Terrain)

  /** What the server does next. `Change` is AnnounceChangedCreature; `Mark` is a skull or party
      mark sent straight to a player, which does not look at the table; `Leave` is a creature that
      ceases to exist. */
  datatype Turn =
    | Tell(event: Event, update: Option<ServerUpdate>)
    | Change(creature: quad, attribute: Attribute)
    | Mark(creature: quad, attribute: Attribute)
    | Leave(creature: quad)

  ghost predicate TurnFits(server: Server, turn: Turn, types: Types) {
    match turn
    case Tell(event, update) =>
      && ValidAnchor(server.anchor) && Possible(event, server.world)
      && Announces(update, event, server.anchor, server.world) && Trackable(event, server.world, types)
      && var world, next := WorldAfter(server.world, event, types), AnchorAfter(server.anchor, event);
         OnePlaceEach(world)
         && (update.Some? ==>
              !update.value.CreatureAttribute? && TellsAll(server.table, Sights(update.value), Eyes(next, world)))
    case Change(_, _) => true
    case Mark(creature, _) => creature != 0
    case Leave(creature) => forall p, k: nat :: !IsAt(server.world, creature, p, k)
  }

  ghost function Sent(server: Server, turn: Turn): Option<ServerUpdate> {
    match turn
    case Tell(_, update) => update
    case Change(creature, attribute) =>
      if StateOf(server.table, creature) == UpToDate && SeenFrom(server.anchor, server.world, creature)
      then Some(CreatureAttribute(creature, attribute)) else None
    case Mark(creature, attribute) => Some(CreatureAttribute(creature, attribute))
    case Leave(_) => None
  }

  ghost function ServerAfter(server: Server, turn: Turn, types: Types): Server
    requires TurnFits(server, turn, types)
  {
    match turn
    case Tell(event, update) =>
      var world, next := WorldAfter(server.world, event, types), AnchorAfter(server.anchor, event);
      Server(next,
        if update.None? then server.table else ToldAll(server.table, Sights(update.value), Eyes(next, world)), world)
    case Change(creature, _) =>
      server.(table := Aged(server.table, creature, SeenFrom(server.anchor, server.world, creature)))
    case Mark(_, _) => server
    case Leave(creature) => server.(table := Freed(server.table, creature))
  }

  function Hear(state: State, update: Option<ServerUpdate>, next: MapPosition, types: Types): Applied {
    if update.None? then Unchanged(state) else Apply(state, update.value, next, types)
  }

  /** Everything the two sides keep in step. */
  ghost predicate Together(server: Server, state: State) {
    && state.anchor == server.anchor && Mirrors(state.floors, server.anchor, server.world)
    && OnePlaceEach(server.world) && |server.table| == KNOWN_CREATURE_TABLE_SIZE
    && InStep(server.table, state.floors, state.known)
  }

  /** The table as the client can tell: it knows those listed and no one else. */
  ghost predicate Exact(server: Server, state: State) {
    Together(server, state) && Listed(server.table, state.known)
  }

  ghost predicate Uncrowded(server: Server) {
    AtMost(KNOWN_CREATURE_TABLE_SIZE, Eyes(server.anchor, server.world))
  }

  ghost function Reports(server: Server, turn: Turn): seq<Anomaly> {
    if turn.Mark? && SlotOf(server.table, turn.creature) == |server.table|
    then [Anomaly(UnknownCreatureReference, turn.creature, ORIGIN)] else []
  }

  /** One announcement. */
  lemma TellKeepsTogether(server: Server, state: State, turn: Turn, types: Types)
    requires Together(server, state) && turn.Tell? && TurnFits(server, turn, types)
    ensures var server', heard := ServerAfter(server, turn, types),
      Hear(state, turn.update, AnchorAfter(server.anchor, turn.event), types);
      && Together(server', heard.state)
      && (Listed(server.table, state.known) && Uncrowded(server') ==> Listed(server'.table, heard.state.known))
      && heard.anomalies ==
        if turn.update.None? then [] else Expected(turn.update.value, state.known, |heard.state.known|)
  {
    hide Mirrors, Announces, Trackable, Possible, WorldAfter, AnchorAfter, OnePlaceEach, InStep, Apply, TellsAll,
      Sights, Expected, Decoded, Fits, AtMost, Listed, ToldAll, OneFieldEach, InSight;
    var event, update := turn.event, turn.update;
    var server' := ServerAfter(server, turn, types);
    EventKeepsMirror(state, event, update, server.world, types);
    if update.Some? {
      var after := Apply(state, update.value, server'.anchor, types).state;
      MirrorShowsSeen(state.floors, server.anchor, server.world);
      MirrorShowsSeen(after.floors, server'.anchor, server'.world);
      MirrorsParts(state.floors, server.anchor, server.world);
      AnnouncedFits(state, event, update.value, server.world);
      UpdateKeepsStep(server.table, state, update.value, server'.anchor, types, Eyes(server'.anchor, server'.world));
      KeptParts(server.table, Sights(update.value), Eyes(server'.anchor, server'.world), state.known, after.floors,
        after.known);
    }
  }

  lemma KeptParts(
      t: Table, ss: seq<Sighting>, seen: quad -> bool, known: map<quad, CreatureRecord>, floors: seq<MapFloor>,
      known': map<quad, CreatureRecord>)
    requires Kept(t, ss, seen, known, floors, known')
    ensures InStep(ToldAll(t, ss, seen), floors, known') && |ToldAll(t, ss, seen)| == |t|
    ensures Listed(t, known) && AtMost(|t|, seen) ==> Listed(ToldAll(t, ss, seen), known')
  {
  }

  /** Where the client looks after a turn. */
  function Looks(server: Server, turn: Turn): MapPosition {
    if turn.Tell? then AnchorAfter(server.anchor, turn.event) else server.anchor
  }

  ghost function HeardOf(server: Server, state: State, turn: Turn, types: Types): Applied {
    Hear(state, Sent(server, turn), Looks(server, turn), types)
  }

  lemma AgedKeepsStep(t: Table, id: quad, visible: bool, floors: seq<MapFloor>, known: map<quad, CreatureRecord>)
    requires InStep(t, floors, known)
    ensures InStep(Aged(t, id, visible), floors, known) && |Aged(t, id, visible)| == |t|
    ensures Listed(t, known) ==> Listed(Aged(t, id, visible), known)
  {
    hide StandsAt, Placed;
    SameIds(t, Aged(t, id, visible));
  }

  lemma FreedKeepsStep(t: Table, id: quad, floors: seq<MapFloor>, known: map<quad, CreatureRecord>)
    requires InStep(t, floors, known) && forall p, k: nat :: !StandsAt(floors, id, p, k)
    ensures InStep(Freed(t, id), floors, known) && |Freed(t, id)| == |t|
    ensures Listed(t, known) ==> Listed(Freed(t, id), known)
  {
    hide StandsAt, Placed;
    SameIds(t, Freed(t, id));
  }

  lemma SameIds(t: Table, t': Table)
    requires |t'| == |t| && forall i :: 0 <= i < |t| ==> t'[i].id == t[i].id
    ensures forall id :: SlotOf(t', id) == SlotOf(t, id)
  {
    forall id ensures SlotOf(t', id) == SlotOf(t, id) {
      assert SlotOf(t', id) < |t| ==> t[SlotOf(t', id)].id == id;
      assert SlotOf(t, id) < |t| ==> t'[SlotOf(t, id)].id == id;
    }
  }

  lemma GoneStandsNowhere(floors: seq<MapFloor>, anchor: MapPosition, world: Terrain, id: quad)
    requires Mirrors(floors, anchor, world) && forall p, k: nat :: !IsAt(world, id, p, k)
    ensures forall p, k: nat :: !StandsAt(floors, id, p, k)
  {
    hide StackAt, InView;
    forall p, k: nat | StandsAt(floors, id, p, k) ensures IsAt(world, id, p, k) {
      assert Identities(StackAt(floors, p)) == if InView(anchor, p) then Shown(world(p)) else [];
      assert Identities(StackAt(floors, p))[k] == CreatureIdentity(id);
    }
  }

  /** An attribute moves nobody, and is refused exactly for a creature the client does not know. */
  lemma AttributeKeepsStep(server: Server, state: State, creature: quad, attribute: Attribute, types: Types)
    requires Together(server, state)
    ensures var heard := Apply(state, CreatureAttribute(creature, attribute), server.anchor, types);
      && Together(server, heard.state)
      && (Listed(server.table, state.known) ==> Listed(server.table, heard.state.known))
      && heard.anomalies == if creature in state.known then []
        else [Anomaly(UnknownCreatureReference, creature, ORIGIN)]
  {
    hide Mirrors, OnePlaceEach, InStep, Listed, WithAttribute, Kept, AtMost;
    var update := CreatureAttribute(creature, attribute);
    AsideKeepsMap(state, update, server.anchor, types);
    var known' := Apply(state, update, server.anchor, types).state.known;
    AsideKeepsStep(server.table, state, update, server.anchor, types, _ => false);
    KeptParts(server.table, [], _ => false, state.known, state.floors, known');
    assert known'.Keys == state.known.Keys;
    SameKeysAgree(server.table, state.known, known');
  }

  /** One turn of either kind keeps the two sides together. The client raises nothing but an overflow
      of its own count, or a miss on a mark for a creature it was never told about. */
  lemma TurnKeepsTogether(server: Server, state: State, turn: Turn, types: Types)
    requires Together(server, state) && TurnFits(server, turn, types)
    ensures var server', heard := ServerAfter(server, turn, types), HeardOf(server, state, turn, types);
      && Together(server', heard.state)
      && (Exact(server, state) && Uncrowded(server') ==>
           Exact(server', heard.state) && heard.anomalies == Reports(server, turn))
      && forall i :: 0 <= i < |heard.anomalies| ==>
           if turn.Mark? then heard.anomalies[i] == Anomaly(UnknownCreatureReference, turn.creature, ORIGIN)
           else heard.anomalies[i].kind == KnownCreatureTableOverflow
  {
    hide Mirrors, OnePlaceEach, InStep, Listed, AtMost, Apply, TellsAll, Sights, Announces, Trackable, Possible,
      WorldAfter, AnchorAfter, ToldAll, SeenFrom, Aged, Freed, IsAt;
    match turn
    case Tell(event, update) =>
      TellKeepsTogether(server, state, turn, types);
      var server', heard := ServerAfter(server, turn, types), HeardOf(server, state, turn, types);
      if Exact(server, state) && Uncrowded(server') { ListedIsBounded(server'.table, heard.state.known); }
    case Change(creature, attribute) =>
      AgedKeepsStep(server.table, creature, SeenFrom(server.anchor, server.world, creature), state.floors, state.known);
      if Sent(server, turn).Some? {
        AttributeKeepsStep(server, state, creature, attribute, types);
        UpToDateIsKnown(server.table, creature, state.floors, state.known);
        assert ServerAfter(server, turn, types).table == server.table by { NotAged(server.table, creature); }
      }
    case Mark(creature, attribute) =>
      AttributeKeepsStep(server, state, creature, attribute, types);
      if Exact(server, state) { ListedIsExact(server.table, creature, state.floors, state.known); }
    case Leave(creature) =>
      GoneStandsNowhere(state.floors, server.anchor, server.world, creature);
      FreedKeepsStep(server.table, creature, state.floors, state.known);
  }

  lemma NotAged(t: Table, id: quad)
    ensures Aged(t, id, true) == t
  {
  }

  lemma UpToDateIsKnown(t: Table, id: quad, floors: seq<MapFloor>, known: map<quad, CreatureRecord>)
    requires InStep(t, floors, known) && StateOf(t, id) == UpToDate
    ensures id in known
  {
    hide StandsAt;
  }

  lemma ListedIsExact(t: Table, id: quad, floors: seq<MapFloor>, known: map<quad, CreatureRecord>)
    requires InStep(t, floors, known) && Listed(t, known) && id != 0
    ensures id in known <==> SlotOf(t, id) < |t|
  {
    hide StandsAt;
  }

  // ---- whole runs ---------------------------------------------------------------------------------------------

  ghost predicate RunFits(server: Server, run: seq<Turn>, types: Types)
    decreases |run|
  {
    run == [] || (TurnFits(server, run[0], types) && RunFits(ServerAfter(server, run[0], types), run[1..], types))
  }

  /** At no moment are more creatures in sight than the table has places. */
  ghost predicate NeverCrowded(server: Server, run: seq<Turn>, types: Types)
    requires RunFits(server, run, types)
    decreases |run|
  {
    Uncrowded(server) && (run != [] ==> NeverCrowded(ServerAfter(server, run[0], types), run[1..], types))
  }

  ghost function ServerNow(server: Server, run: seq<Turn>, types: Types): Server
    requires RunFits(server, run, types)
    decreases |run|
  {
    if run == [] then server else ServerNow(ServerAfter(server, run[0], types), run[1..], types)
  }

  ghost function ClientNow(server: Server, state: State, run: seq<Turn>, types: Types): State
    requires RunFits(server, run, types)
    decreases |run|
  {
    if run == [] then state
    else ClientNow(ServerAfter(server, run[0], types), HeardOf(server, state, run[0], types).state, run[1..], types)
  }

  /** Every anomaly the client raises on the way. */
  ghost function Raised(server: Server, state: State, run: seq<Turn>, types: Types): seq<Anomaly>
    requires RunFits(server, run, types)
    decreases |run|
  {
    if run == [] then []
    else
      var heard := HeardOf(server, state, run[0], types);
      heard.anomalies + Raised(ServerAfter(server, run[0], types), heard.state, run[1..], types)
  }

  /** The marks sent about creatures that have no place in the table. */
  ghost function UnlistedMarks(server: Server, run: seq<Turn>, types: Types): seq<Anomaly>
    requires RunFits(server, run, types)
    decreases |run|
  {
    if run == [] then []
    else Reports(server, run[0]) + UnlistedMarks(ServerAfter(server, run[0], types), run[1..], types)
  }

  /** However the server's world, its table and the viewport develop, the client places every creature
      where it stands, and raises no anomaly but misses on marks and the overflow of a crowd. */
  lemma {:induction false} RunKeepsTogether(server: Server, state: State, run: seq<Turn>, types: Types)
    requires Together(server, state) && RunFits(server, run, types)
    ensures Together(ServerNow(server, run, types), ClientNow(server, state, run, types))
    ensures forall i :: 0 <= i < |Raised(server, state, run, types)| ==>
      MarkOrCrowd(run, Raised(server, state, run, types)[i])
    decreases |run|
  {
    hide Together, TurnFits, ServerAfter, HeardOf, Exact, Uncrowded, Reports, MarkOrCrowd;
    if run != [] {
      TurnKeepsTogether(server, state, run[0], types);
      var server', heard := ServerAfter(server, run[0], types), HeardOf(server, state, run[0], types);
      RunKeepsTogether(server', heard.state, run[1..], types);
      forall a | a in heard.anomalies || MarkOrCrowd(run[1..], a) ensures MarkOrCrowd(run, a) {
        MarkOrCrowdGrows(run, heard.anomalies, a);
      }
    }
  }

  /** A miss on a mark sent somewhere in the run, or the overflow of a snapshot. */
  ghost predicate MarkOrCrowd(run: seq<Turn>, a: Anomaly) {
    a.kind == KnownCreatureTableOverflow || (a.kind == UnknownCreatureReference && Marked(run, a.creature))
  }

  ghost predicate Marked(run: seq<Turn>, id: quad) {
    exists i :: 0 <= i < |run| && run[i].Mark? && run[i].creature == id
  }

  lemma MarkOrCrowdGrows(run: seq<Turn>, heard: seq<Anomaly>, a: Anomaly)
    requires run != []
    requires forall b :: b in heard ==>
      (run[0].Mark? && b == Anomaly(UnknownCreatureReference, run[0].creature, ORIGIN))
      || b.kind == KnownCreatureTableOverflow
    requires a in heard || MarkOrCrowd(run[1..], a)
    ensures MarkOrCrowd(run, a)
  {
    if a !in heard && a.kind != KnownCreatureTableOverflow {
      var i :| 0 <= i < |run[1..]| && run[1..][i].Mark? && run[1..][i].creature == a.creature;
      assert run[i + 1] == run[1..][i];
    }
  }

  /** While no more creatures are in sight than the table has places, the client raises one anomaly for
      each skull or party mark about a creature the table does not list, in that order, and no other. */
  lemma {:induction false} AnomaliesAreUnlistedMarks(server: Server, state: State, run: seq<Turn>, types: Types)
    requires Exact(server, state) && RunFits(server, run, types) && NeverCrowded(server, run, types)
    ensures Exact(ServerNow(server, run, types), ClientNow(server, state, run, types))
    ensures Raised(server, state, run, types) == UnlistedMarks(server, run, types)
    decreases |run|
  {
    hide Together, TurnFits, ServerAfter, HeardOf, Exact, Uncrowded, Reports;
    if run != [] {
      assert Together(server, state) by { ExactTogether(server, state); }
      TurnKeepsTogether(server, state, run[0], types);
      var server', state' := ServerAfter(server, run[0], types), HeardOf(server, state, run[0], types).state;
      assert Uncrowded(server') by { UncrowdedFirst(server', run[1..], types); }
      AnomaliesAreUnlistedMarks(server', state', run[1..], types);
    }
  }

  lemma ExactTogether(server: Server, state: State)
    requires Exact(server, state)
    ensures Together(server, state)
  {
  }

  lemma UncrowdedFirst(server: Server, run: seq<Turn>, types: Types)
    requires RunFits(server, run, types) && NeverCrowded(server, run, types)
    ensures Uncrowded(server)
  {
  }

  /** A client that has just logged in and seen its first full screen. */
  lemma LoginIsTogether(update: ServerUpdate, at: MapPosition, world: Terrain, types: Types)
    requires ValidAnchor(at) && SnapshotOf(update, at, world) && OnePlaceEach(world)
    requires TellsAll(Cleared(), Sights(update), Eyes(at, world))
    ensures var server := Server(at, ToldAll(Cleared(), Sights(update), Eyes(at, world)), world);
      var heard := Apply(Fresh(), update, at, types);
      && Together(server, heard.state)
      && (Uncrowded(server) ==> Exact(server, heard.state) && heard.anomalies == [])
  {
    hide Mirrors, Describes, OnePlaceEach, TellsAll, ToldAll, InStep, Kept, Listed, AtMost, StackAt, OfFloors, InView,
      ApplyFullScreen, OneFieldEach, InSight;
    var floors, seen := update.floors, Eyes(at, world);
    var after := ApplyFullScreen(Fresh(), update.window, floors).state;
    FullScreenFloors(Fresh(), update.window, floors);
    SnapshotMirrors(Fresh(), update, at, world);
    MirrorShowsSeen(floors, at, world);
    MirrorsParts(floors, at, world);
    NothingKnownYet();
    SnapshotKeepsStep(Cleared(), Fresh(), update.window, floors, seen);
    KeptParts(Cleared(), Sights(update), seen, map[], floors, after.known);
    var server := Server(at, ToldAll(Cleared(), Sights(update), seen), world);
    if Uncrowded(server) { ListedIsBounded(server.table, after.known); }
  }

  lemma TogetherParts(server: Server, state: State)
    requires Together(server, state)
    ensures Placed(state.floors, state.known) && Mirrors(state.floors, state.anchor, server.world)
  {
    hide Placed, Mirrors;
  }

  lemma NothingKnownYet()
    ensures DistinctIds(Cleared()) && Agrees(Cleared(), map[]) && Listed(Cleared(), map[])
  {
  }

  /** The main result: from login on, through any run, every creature on the client's map has a record that
      says where it stands; and the client reports a creature as unknown exactly when the server marks one
      that its table does not list. */
  lemma EveryLoginIsPlaced(
      update: ServerUpdate, at: MapPosition, world: Terrain, run: seq<Turn>, types: Types)
    requires ValidAnchor(at) && SnapshotOf(update, at, world) && OnePlaceEach(world)
    requires TellsAll(Cleared(), Sights(update), Eyes(at, world))
    requires RunFits(Server(at, ToldAll(Cleared(), Sights(update), Eyes(at, world)), world), run, types)
    ensures var server := Server(at, ToldAll(Cleared(), Sights(update), Eyes(at, world)), world);
      var first := Apply(Fresh(), update, at, types);
      var now := ClientNow(server, first.state, run, types);
      && Placed(now.floors, now.known) && Mirrors(now.floors, now.anchor, ServerNow(server, run, types).world)
      && (NeverCrowded(server, run, types) ==>
           first.anomalies + Raised(server, first.state, run, types) == UnlistedMarks(server, run, types))
  {
    hide TellsAll, ToldAll, Sights, Apply, RunFits, NeverCrowded, ClientNow, ServerNow, Raised, UnlistedMarks, Mirrors,
      Placed, OnePlaceEach, Uncrowded, Together, Exact, Fresh, Cleared, Eyes, SnapshotOf, ValidAnchor;
    var server := Server(at, ToldAll(Cleared(), Sights(update), Eyes(at, world)), world);
    var first := Apply(Fresh(), update, at, types);
    LoginIsTogether(update, at, world, types);
    RunKeepsTogether(server, first.state, run, types);
    TogetherParts(ServerNow(server, run, types), ClientNow(server, first.state, run, types));
    if NeverCrowded(server, run, types) {
      UncrowdedFirst(server, run, types);
      AnomaliesAreUnlistedMarks(server, first.state, run, types);
    }
  }
}
