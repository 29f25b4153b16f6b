/** The table of creatures a connection knows, and what it makes the client know. */
module KnownCreatures {
  import opened World
  import opened Viewport
  import opened ObjectTypes
  import opened Updates
  import opened Floors
  import opened Mirror
  import opened Creatures

  datatype SlotState = Free | UpToDate | OutOfDate

  /** A free slot still names the creature the client took it for. */
  datatype Slot = Slot(id: quad, state: SlotState)

  type Table = seq<Slot>

  // ---- the table -------------------------------------------------------------------------------------

  function SlotOf(t: Table, id: quad): (i: nat)
    ensures i <= |t| && (i < |t| ==> t[i].id == id)
    ensures forall j :: 0 <= j < i ==> t[j].id != id
  {
    if t == [] || t[0].id == id then 0 else 1 + SlotOf(t[1..], id)
  }

  function FirstFree(t: Table): (i: nat)
    ensures i <= |t| && (i < |t| ==> t[i].state == Free)
    ensures forall j :: 0 <= j < i ==> t[j].state != Free
  {
    if t == [] || t[0].state == Free then 0 else 1 + FirstFree(t[1..])
  }

  function FirstHidden(t: Table, seen: quad -> bool): (i: nat)
    ensures i <= |t| && (i < |t| ==> !seen(t[i].id))
    ensures forall j :: 0 <= j < i ==> seen(t[j].id)
  {
    if t == [] || !seen(t[0].id) then 0 else 1 + FirstHidden(t[1..], seen)
  }

  function StateOf(t: Table, id: quad): SlotState {
    if SlotOf(t, id) < |t| then t[SlotOf(t, id)].state else Free
  }

  /** A description follows: what was out of date is so no longer. */
  function Updated(t: Table, id: quad): Table {
    if StateOf(t, id) == OutOfDate then t[SlotOf(t, id) := Slot(id, UpToDate)] else t
  }

  /** The slot for a new creature: its own, a free one, or one of a creature out of sight. */
  function Chosen(t: Table, id: quad, seen: quad -> bool): (i: nat)
    ensures i <= |t|
  {
    if SlotOf(t, id) < |t| then SlotOf(t, id)
    else if FirstFree(t) < |t| then FirstFree(t)
    else FirstHidden(t, seen)
  }

  function Replaced(t: Table, id: quad, seen: quad -> bool): quad {
    if Chosen(t, id, seen) < |t| then t[Chosen(t, id, seen)].id else 0
  }

  function WithNew(t: Table, id: quad, seen: quad -> bool): Table {
    if Chosen(t, id, seen) < |t| then t[Chosen(t, id, seen) := Slot(id, UpToDate)] else t
  }

  /** The creature has changed: one who sees it is told, for others the slot goes out of date. */
  function Aged(t: Table, id: quad, visible: bool): Table {
    if StateOf(t, id) == UpToDate && !visible then t[SlotOf(t, id) := Slot(id, OutOfDate)] else t
  }

  /** The creature is gone. */
  function Freed(t: Table, id: quad): Table {
    if SlotOf(t, id) < |t| then t[SlotOf(t, id) := Slot(id, Free)] else t
  }

  /** The table of a connection that has just joined. */
  function Cleared(): Table {
    seq(KNOWN_CREATURE_TABLE_SIZE, _ => Slot(0, Free))
  }

  class KnownCreatureTable {
    const slots: array<Slot>

    constructor ()
      ensures fresh(slots) && slots[..] == Cleared()
    {
      slots := new Slot[KNOWN_CREATURE_TABLE_SIZE](_ => Slot(0, Free));
    }

    method ClearKnownCreatureTable()
      requires slots.Length == KNOWN_CREATURE_TABLE_SIZE
      modifies slots
      ensures slots[..] == Cleared()
    {
      for i := 0 to slots.Length
        invariant forall j :: 0 <= j < i ==> slots[j] == Slot(0, Free)
      {
        slots[i] := Slot(0, Free);
      }
    }

    method KnownCreature(id: quad, updateFollows: bool) returns (state: SlotState)
      modifies slots
      ensures state == StateOf(old(slots[..]), id)
      ensures slots[..] == if updateFollows then Updated(old(slots[..]), id) else old(slots[..])
    {
      var i := Find(id);
      if i == slots.Length { return Free; }
      state := slots[i].state;
      if state == OutOfDate && updateFollows { slots[i] := slots[i].(state := UpToDate); }
    }

    /** True when the change is to be announced over this connection. */
    method CreatureChanged(id: quad, visible: bool) returns (announce: bool)
      modifies slots
      ensures announce <==> StateOf(old(slots[..]), id) == UpToDate && visible
      ensures slots[..] == Aged(old(slots[..]), id, visible)
    {
      var i := Find(id);
      announce := i < slots.Length && slots[i].state == UpToDate && visible;
      if i < slots.Length && slots[i].state == UpToDate && !visible { slots[i] := slots[i].(state := OutOfDate); }
    }

    method CreatureGone(id: quad)
      modifies slots
      ensures slots[..] == Freed(old(slots[..]), id)
    {
      var i := Find(id);
      if i < slots.Length { slots[i] := slots[i].(state := Free); }
    }

    method Find(id: quad) returns (i: nat)
      ensures i == SlotOf(slots[..], id)
    {
      i := 0;
      while i < slots.Length
        invariant i <= slots.Length && forall j :: 0 <= j < i ==> slots[j].id != id
      {
        if slots[i].id == id { break; }
        i := i + 1;
      }
    }

    /** The id whose place the new creature takes, or zero if there is none for it. */
    method NewKnownCreature(id: quad, seen: quad -> bool) returns (old_id: quad)
      modifies slots
      ensures old_id == Replaced(old(slots[..]), id, seen)
      ensures slots[..] == WithNew(old(slots[..]), id, seen)
    {
      var entry := Find(id);
      if entry == slots.Length {
        entry := 0;
        while entry < slots.Length
          invariant entry <= slots.Length && forall j :: 0 <= j < entry ==> slots[j].state != Free
        {
          if slots[entry].state == Free { break; }
          entry := entry + 1;
        }
        assert entry == FirstFree(slots[..]);
        if entry == slots.Length {
          entry := 0;
          while entry < slots.Length
            invariant entry <= slots.Length && forall j :: 0 <= j < entry ==> seen(slots[j].id)
          {
            if !seen(slots[entry].id) { break; }
            entry := entry + 1;
          }
        }
      }
      assert entry == Chosen(slots[..], id, seen);
      if entry == slots.Length { return 0; }
      old_id := slots[entry].id;
      slots[entry] := Slot(id, UpToDate);
    }
  }

  // ---- what is said about creatures ---------------------------------------------------------------------

  /** A described creature, and where. */
  datatype Sighting = Sighting(creature: CreatureThing, p: MapPosition, stack: nat)

  function OfThings(things: seq<MapThing>, p: MapPosition, n: nat): seq<Sighting>
    requires n <= |things|
  {
    if n == 0 then []
    else OfThings(things, p, n - 1) + if things[n - 1].Creature? then [Sighting(things[n - 1].creature, p, n - 1)]
      else []
  }

  function OfTiles(tiles: seq<MapTile>, n: nat): seq<Sighting>
    requires n <= |tiles|
  {
    if n == 0 then []
    else OfTiles(tiles, n - 1) + OfThings(tiles[n - 1].things, tiles[n - 1].position, |tiles[n - 1].things|)
  }

  function OfFloors(floors: seq<MapFloor>, n: nat): seq<Sighting>
    requires n <= |floors|
  {
    if n == 0 then [] else OfFloors(floors, n - 1) + OfTiles(floors[n - 1].tiles, |floors[n - 1].tiles|)
  }

  function RecordAll(registry: Registry, ss: seq<Sighting>, snapshot: bool): Registry {
    if ss == [] then registry
    else
      var last := ss[|ss| - 1];
      RecordCreature(RecordAll(registry, ss[..|ss| - 1], snapshot), last.creature, last.p, last.stack, snapshot)
  }

  lemma {:induction false} RecordAllJoins(registry: Registry, a: seq<Sighting>, b: seq<Sighting>, snapshot: bool)
    ensures RecordAll(registry, a + b, snapshot) == RecordAll(RecordAll(registry, a, snapshot), b, snapshot)
    decreases |b|
  {
    hide RecordCreature;
    if b == [] {
      assert a + b == a;
    } else {
      RecordAllJoins(registry, a, b[..|b| - 1], snapshot);
      assert (a + b)[..|a + b| - 1] == a + b[..|b| - 1];
    }
  }

  lemma {:induction false} ThingsAreSightings(
      registry: Registry, things: seq<MapThing>, p: MapPosition, n: nat, snapshot: bool)
    requires n <= |things|
    ensures RecordThings(registry, things, p, n, snapshot) == RecordAll(registry, OfThings(things, p, n), snapshot)
    decreases n
  {
    hide RecordCreature;
    if n > 0 {
      ThingsAreSightings(registry, things, p, n - 1, snapshot);
      var all := OfThings(things, p, n);
      if things[n - 1].Creature? {
        assert all[..|all| - 1] == OfThings(things, p, n - 1);
      } else {
        assert all == OfThings(things, p, n - 1);
      }
    }
  }

  lemma {:induction false} TilesAreSightings(registry: Registry, tiles: seq<MapTile>, n: nat, snapshot: bool)
    requires n <= |tiles|
    ensures RecordTiles(registry, tiles, n, snapshot) == RecordAll(registry, OfTiles(tiles, n), snapshot)
    decreases n
  {
    hide RecordAll, OfThings, RecordThings;
    if n > 0 {
      TilesAreSightings(registry, tiles, n - 1, snapshot);
      var tile := tiles[n - 1];
      ThingsAreSightings(RecordTiles(registry, tiles, n - 1, snapshot), tile.things, tile.position, |tile.things|,
        snapshot);
      RecordAllJoins(registry, OfTiles(tiles, n - 1), OfThings(tile.things, tile.position, |tile.things|), snapshot);
    } else {
      NothingSighted(registry, snapshot);
    }
  }

  lemma NothingSighted(registry: Registry, snapshot: bool)
    ensures RecordAll(registry, [], snapshot) == registry
  {
  }

  lemma {:induction false} FloorsAreSightings(registry: Registry, floors: seq<MapFloor>, n: nat, snapshot: bool)
    requires n <= |floors|
    ensures RecordFloors(registry, floors, n, snapshot) == RecordAll(registry, OfFloors(floors, n), snapshot)
    decreases n
  {
    hide RecordAll, OfTiles, RecordTiles;
    if n > 0 {
      FloorsAreSightings(registry, floors, n - 1, snapshot);
      var tiles := floors[n - 1].tiles;
      TilesAreSightings(RecordFloors(registry, floors, n - 1, snapshot), tiles, |tiles|, snapshot);
      RecordAllJoins(registry, OfFloors(floors, n - 1), OfTiles(tiles, |tiles|), snapshot);
    } else {
      NothingSighted(registry, snapshot);
    }
  }

  /** The creatures an update describes. For the two commands about a single object only who it
      is matters here: its place in the stack is the client's to compute. */
  function Sights(update: ServerUpdate): seq<Sighting> {
    match update
    case FullScreen(_, floors, _, _) => OfFloors(floors, |floors|)
    case Row(_, floors) => OfFloors(floors, |floors|)
    case FloorChange(_, floors) => OfFloors(floors, |floors|)
    case FieldData(tile) => OfThings(tile.things, tile.position, |tile.things|)
    case AddField(p, thing) => OfThings([thing], p, 1)
    case ChangeField(p, _, thing) => OfThings([thing], p, 1)
    case _ => []
  }

  /** The descriptor the table calls for: a bare reference, a fresh look, or an introduction that
      names whose place it takes. */
  predicate Tells(t: Table, creature: CreatureThing, seen: quad -> bool) {
    creature.id != 0
    && match StateOf(t, creature.id)
       case UpToDate => creature.Known?
       case OutOfDate => creature.Outdated?
       case Free => creature.Introduced? && creature.evicted == Replaced(t, creature.id, seen)
  }

  function Told(t: Table, id: quad, seen: quad -> bool): Table {
    if StateOf(t, id) == Free then WithNew(t, id, seen) else Updated(t, id)
  }

  function ToldAll(t: Table, ss: seq<Sighting>, seen: quad -> bool): Table {
    if ss == [] then t else Told(ToldAll(t, ss[..|ss| - 1], seen), ss[|ss| - 1].creature.id, seen)
  }

  predicate TellsAll(t: Table, ss: seq<Sighting>, seen: quad -> bool) {
    ss == []
    || (TellsAll(t, ss[..|ss| - 1], seen) && Tells(ToldAll(t, ss[..|ss| - 1], seen), ss[|ss| - 1].creature, seen))
  }

  // ---- what the client then knows ------------------------------------------------------------------------

  ghost predicate DistinctIds(t: Table) {
    && (forall i, j :: 0 <= i < j < |t| && t[i].id != 0 ==> t[i].id != t[j].id)
    && (forall i :: 0 <= i < |t| && t[i].id == 0 ==> t[i].state == Free)
  }

  /** Every creature in the table is known to the client. */
  ghost predicate Agrees(t: Table, known: map<quad, CreatureRecord>) {
    forall i :: 0 <= i < |t| && t[i].id != 0 ==> t[i].id in known
  }

  /** Every creature known to the client is in the table. */
  ghost predicate Listed(t: Table, known: map<quad, CreatureRecord>) {
    forall id :: id in known ==> id != 0 && SlotOf(t, id) < |t|
  }

  /** The table does not hold it as free to be replaced. */
  predicate Protected(t: Table, id: quad) {
    SlotOf(t, id) < |t| ==> t[SlotOf(t, id)].state != Free
  }

  /** One description keeps both in step, and raises nothing. */
  lemma ToldAgrees(t: Table, registry: Registry, s: Sighting, seen: quad -> bool, snapshot: bool)
    requires DistinctIds(t) && Agrees(t, registry.known) && Tells(t, s.creature, seen)
    ensures var t', after := Told(t, s.creature.id, seen), RecordCreature(registry, s.creature, s.p, s.stack, snapshot);
      DistinctIds(t') && Agrees(t', after.known) && after.anomalies == registry.anomalies && |t'| == |t|
  {
    hide Refreshed;
  }

  /** One description protects the creature described, and every other in sight stays so. */
  lemma ToldProtects(t: Table, creature: CreatureThing, seen: quad -> bool, id: quad)
    requires DistinctIds(t) && Tells(t, creature, seen) && id != 0 && seen(id)
    ensures creature.id == id || Protected(t, id) ==> Protected(Told(t, creature.id, seen), id)
    ensures Protected(t, id) ==> !(Evicts(creature) && creature.evicted == id)
  {
    var i := SlotOf(t, id);
    var t' := Told(t, creature.id, seen);
    if creature.id == id {
      assert Chosen(t, id, seen) < |t| ==> t'[Chosen(t, id, seen)] == Slot(id, UpToDate);
    } else if Protected(t, id) && i < |t| {
      assert Chosen(t, creature.id, seen) != i;
      assert t'[i] == t[i];
    }
  }

  /** Where there is room the table goes on listing everyone. */
  lemma ToldLists(t: Table, registry: Registry, s: Sighting, seen: quad -> bool, snapshot: bool)
    requires DistinctIds(t) && Listed(t, registry.known) && Tells(t, s.creature, seen)
    requires Chosen(t, s.creature.id, seen) < |t|
    ensures Listed(Told(t, s.creature.id, seen), RecordCreature(registry, s.creature, s.p, s.stack, snapshot).known)
  {
    hide Refreshed;
    var t', after := Told(t, s.creature.id, seen), RecordCreature(registry, s.creature, s.p, s.stack, snapshot).known;
    forall id | id in after ensures id != 0 && SlotOf(t', id) < |t'| {
      var chosen := Chosen(t, s.creature.id, seen);
      if id == s.creature.id {
        assert t'[chosen].id == id;
      } else {
        assert t'[SlotOf(t, id)].id == id;
      }
    }
  }

  lemma {:induction false} ToldAllAgrees(
      t: Table, registry: Registry, ss: seq<Sighting>, seen: quad -> bool, snapshot: bool)
    requires DistinctIds(t) && Agrees(t, registry.known) && TellsAll(t, ss, seen)
    ensures var t', after := ToldAll(t, ss, seen), RecordAll(registry, ss, snapshot);
      DistinctIds(t') && Agrees(t', after.known) && after.anomalies == registry.anomalies && |t'| == |t|
    decreases |ss|
  {
    hide Tells, Told, RecordCreature, DistinctIds, Agrees;
    if ss != [] {
      var rest := ss[..|ss| - 1];
      ToldAllAgrees(t, registry, rest, seen, snapshot);
      ToldAgrees(ToldAll(t, rest, seen), RecordAll(registry, rest, snapshot), ss[|ss| - 1], seen, snapshot);
    }
  }

  ghost predicate Sighted(ss: seq<Sighting>, id: quad) {
    exists i :: 0 <= i < |ss| && ss[i].creature.id == id
  }

  /** A whole message: whoever is in sight and described, or was held and recorded, ends up held
      and recorded, whatever the message replaces on the way. */
  lemma {:induction false} ToldAllPlaces(
      t: Table, registry: Registry, ss: seq<Sighting>, seen: quad -> bool, snapshot: bool, id: quad, q: MapPosition,
      k: nat)
    requires DistinctIds(t) && Agrees(t, registry.known) && TellsAll(t, ss, seen) && id != 0 && seen(id)
    requires forall i :: 0 <= i < |ss| && ss[i].creature.id == id ==> ss[i].p == q && ss[i].stack == k
    ensures Sighted(ss, id) || Protected(t, id) ==> Protected(ToldAll(t, ss, seen), id)
    ensures Sighted(ss, id) || (Protected(t, id) && RecordedAt(registry.known, id, q, k)) ==>
      RecordedAt(RecordAll(registry, ss, snapshot).known, id, q, k)
    decreases |ss|
  {
    hide Tells, Told, RecordCreature, DistinctIds, Agrees, Protected, RecordedAt;
    if ss != [] {
      var rest, last := ss[..|ss| - 1], ss[|ss| - 1];
      ToldAllPlaces(t, registry, rest, seen, snapshot, id, q, k);
      ToldAllAgrees(t, registry, rest, seen, snapshot);
      ToldProtects(ToldAll(t, rest, seen), last.creature, seen, id);
      var before := RecordAll(registry, rest, snapshot);
      if !(Evicts(last.creature) && last.creature.evicted == id) {
        RecordOne(before, last.creature, last.p, last.stack, snapshot, id, q, k);
      }
    }
  }

  // ---- room in the table -----------------------------------------------------------------------------

  /** No more than `n` creatures are in sight. */
  ghost predicate AtMost(n: nat, seen: quad -> bool) {
    exists crowd: set<quad> :: |crowd| <= n && Covers(crowd, seen)
  }

  ghost predicate Covers(crowd: set<quad>, seen: quad -> bool) {
    forall id :: seen(id) ==> id in crowd
  }

  function IdsOf(t: Table): (ids: set<quad>)
    ensures forall id :: id in ids <==> exists i :: 0 <= i < |t| && t[i].id == id
    ensures |ids| <= |t|
  {
    if t == [] then {} else {t[0].id} + IdsOf(t[1..])
  }

  lemma {:induction false} DistinctIdsCount(t: Table)
    requires forall i, j :: 0 <= i < j < |t| ==> t[i].id != t[j].id
    ensures |IdsOf(t)| == |t|
  {
    if t != [] {
      DistinctIdsCount(t[1..]);
      assert t[0].id !in IdsOf(t[1..]);
    }
  }

  /** A creature in sight finds no place only when more creatures are in sight than there are places. */
  lemma RoomUnlessCrowded(t: Table, id: quad, seen: quad -> bool)
    requires DistinctIds(t) && id != 0 && seen(id) && AtMost(|t|, seen)
    ensures Chosen(t, id, seen) < |t|
  {
    if Chosen(t, id, seen) == |t| {
      var crowd: set<quad> :| |crowd| <= |t| && Covers(crowd, seen);
      DistinctIdsCount(t);
      assert id !in IdsOf(t) && IdsOf(t) + {id} <= crowd;
      SubsetIsSmaller(IdsOf(t) + {id}, crowd);
    }
  }

  lemma {:induction false} ToldAllLists(
      t: Table, registry: Registry, ss: seq<Sighting>, seen: quad -> bool, snapshot: bool)
    requires DistinctIds(t) && Agrees(t, registry.known) && Listed(t, registry.known) && TellsAll(t, ss, seen)
    requires AtMost(|t|, seen) && forall i :: 0 <= i < |ss| ==> ss[i].creature.id != 0 && seen(ss[i].creature.id)
    ensures Listed(ToldAll(t, ss, seen), RecordAll(registry, ss, snapshot).known)
    decreases |ss|
  {
    hide Tells, Told, RecordCreature, DistinctIds, Agrees, Listed, AtMost;
    if ss != [] {
      var rest, last := ss[..|ss| - 1], ss[|ss| - 1];
      ToldAllLists(t, registry, rest, seen, snapshot);
      ToldAllAgrees(t, registry, rest, seen, snapshot);
      RoomUnlessCrowded(ToldAll(t, rest, seen), last.creature.id, seen);
      ToldLists(ToldAll(t, rest, seen), RecordAll(registry, rest, snapshot), last, seen, snapshot);
    }
  }

  /** What the table lists is no more than it holds. */
  lemma ListedIsBounded(t: Table, known: map<quad, CreatureRecord>)
    requires Listed(t, known)
    ensures |known| <= |t|
  {
    assert known.Keys <= IdsOf(t) by {
      forall id | id in known ensures id in IdsOf(t) {
        assert t[SlotOf(t, id)].id == id;
      }
    }
    SubsetIsSmaller(known.Keys, IdsOf(t));
  }

  /** A message may take away a creature's place and describe it anew right after: the slot of one
      that logged out is free though it has logged in again and stands on the row coming into view. */
  lemma EvictedAndShown(p: MapPosition, one: Descriptor, other: Descriptor, seen: quad -> bool)
    ensures var things := [Creature(Introduced(8, 7, [], one)), Creature(Introduced(7, 0, [], other))];
      var floors := [MapFloor(p.z, 0, [MapTile(p, things)])];
      TellsAll([Slot(7, Free), Slot(0, Free)], Sights(Row(North, floors)), seen)
      && !EvictsNobodyVisible(Row(North, floors), floors)
  {
    var t := [Slot(7, Free), Slot(0, Free)];
    var things := [Creature(Introduced(8, 7, [], one)), Creature(Introduced(7, 0, [], other))];
    var tile := MapTile(p, things);
    var floors := [MapFloor(p.z, 0, [tile])];
    var x, y := Sighting(things[0].creature, p, 0), Sighting(things[1].creature, p, 1);
    assert Sights(Row(North, floors)) == [x, y] by {
      assert OfThings(things, p, 1) == [x] && OfThings(things, p, 2) == [x, y];
      assert OfTiles([tile], 1) == OfTiles([tile], 0) + [x, y] == [x, y];
      assert OfFloors(floors, 1) == OfFloors(floors, 0) + OfTiles(floors[0].tiles, 1);
    }
    assert TellsAll(t, [x, y], seen) by {
      assert [x, y][..1] == [x];
      assert Tells(t, x.creature, seen) && TellsAll(t, [x], seen);
      assert ToldAll(t, [x], seen) == [Slot(8, UpToDate), Slot(0, Free)];
    }
    assert EvictsAt(floors[0].tiles[0].things, 0);
    assert StandsAt(floors, 7, p, 1) by {
      assert FloorIndex(floors, p.z) == 0 && TileIndex([tile], p) == 0;
      assert StackAt(floors, p) == things;
    }
  }
}
