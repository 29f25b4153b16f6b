/** What the server knows of an object and what it shows: the disguise of its type. */
module Disguise {
  import opened World
  import opened Chunks
  import opened Viewport
  import opened ObjectTypes
  import opened Updates
  import opened MapScan
  import opened MapCodec
  import opened Snapshot
  import opened Floors
  import opened Mirror
  import opened EndToEnd
  import C = Commands
  import Payload
  import Runs

  /** What the server's table says of a type, and the type it is shown as: itself, unless it is
      disguised. */
  datatype Kind = Kind(priority: Priority, container: bool, pool: bool, cumulative: bool, shown: word)

  type Kinds = word -> Kind

  /** An object as the server holds it: a creature, or an item of its real type with the colour
      of the liquid in it, of the liquid it is, and how many it is. */
  datatype Object = Being(id: quad) | Stuff(kind: word, inside: byte, spilled: byte, amount: byte)

  /** What the client can know of it. */
  function Face(o: Object, kinds: Kinds): Identity {
    match o
    case Being(id) => CreatureIdentity(id)
    case Stuff(kind, _, _, _) => ItemIdentity(FaceItem(o, kinds))
  }

  function FaceItem(o: Object, kinds: Kinds): ItemThing
    requires o.Stuff?
  {
    var kind := kinds(o.kind);
    ItemThing(kind.shown,
      if kind.container then Some(o.inside) else if kind.pool then Some(o.spilled) else None,
      if kind.cumulative then Some(o.amount) else None)
  }

  function Faces(stack: seq<Object>, kinds: Kinds): (faces: seq<Identity>)
    ensures |faces| == |stack|
  {
    seq(|stack|, i requires 0 <= i < |stack| => Face(stack[i], kinds))
  }

  // ---- on the wire -----------------------------------------------------------------------------------

  /** SendItem: the shown type, and the bytes of the real one. */
  function SendStuff(o: Object, kinds: Kinds): seq<byte>
    requires o.Stuff?
  {
    var kind := kinds(o.kind);
    Word(kind.shown) + ((if kind.container then [o.inside] else [])
      + ((if kind.pool then [o.spilled] else []) + (if kind.cumulative then [o.amount] else [])))
  }

  /** The disguise keeps what the wire does not say. */
  predicate KeepsFlags(kind: Kind, types: Types) {
    && LAST_BODY_CONTAINER < kind.shown && kind.shown != CREATURE_MARKER_KNOWN
    && kind.shown != CREATURE_MARKER_OUTDATED && kind.shown != CREATURE_MARKER_NEW
    && var encoding := Lookup(types, kind.shown);
       && encoding.known && encoding.cumulative == kind.cumulative
       && encoding.liquidColor == (kind.container || kind.pool) && !(kind.container && kind.pool)
  }

  /** Then what is sent is what the client reads as the face, wherever it stands... */
  lemma FaceIsSent(o: Object, kinds: Kinds, types: Types)
    requires o.Stuff? && KeepsFlags(kinds(o.kind), types) && |types| <= SKIP_MARKER_BASE
    ensures Sendable(Item(FaceItem(o, kinds)), types)
    ensures SendStuff(o, kinds) == SendMapObject(Item(FaceItem(o, kinds)), types)
  {
  }

  /** ...and if it does not, the client reads something else, or nothing, or stops elsewhere. */
  lemma FaceIsReadExactly(o: Object, kinds: Kinds, types: Types)
    requires o.Stuff? && |types| <= SKIP_MARKER_BASE
    ensures ReadThing(SendStuff(o, kinds), 0, types) == Ok(Item(FaceItem(o, kinds)), |SendStuff(o, kinds)|)
      <==> KeepsFlags(kinds(o.kind), types)
  {
  }

  // ---- in the stack --------------------------------------------------------------------------------------

  function Rank(o: Object, kinds: Kinds): Priority {
    match o
    case Being(_) => PRIORITY_CREATURE
    case Stuff(kind, _, _, _) => kinds(kind).priority
  }

  function Ranks(stack: seq<Object>, kinds: Kinds): (ranks: seq<Priority>)
    ensures |ranks| == |stack|
  {
    seq(|stack|, i requires 0 <= i < |stack| => Rank(stack[i], kinds))
  }

  /** PlaceObject, by the real types. */
  function PlaceReal(stack: seq<Object>, o: Object, kinds: Kinds): seq<Object> {
    InsertAt(stack, InsertIndex(Ranks(stack, kinds), Rank(o, kinds)), o)
  }

  function FaceIndex(stack: seq<Object>, o: Object, kinds: Kinds, types: Types): nat {
    InsertIndex(IdentityPriorities(Faces(stack, kinds), types), IdentityPriority(Face(o, kinds), types))
  }

  /** The faces stand to each other as the objects do. */
  predicate KeepsOrder(x: Object, o: Object, kinds: Kinds, types: Types) {
    StaysBelow(Rank(x, kinds), Rank(o, kinds))
    <==> StaysBelow(IdentityPriority(Face(x, kinds), types), IdentityPriority(Face(o, kinds), types))
  }

  lemma {:induction false} SameStandingSameIndex(
      a: seq<Priority>, b: seq<Priority>, inserted: Priority, shown: Priority)
    requires |a| == |b|
    requires forall i :: 0 <= i < |a| ==> (StaysBelow(a[i], inserted) <==> StaysBelow(b[i], shown))
    ensures InsertIndex(a, inserted) == InsertIndex(b, shown)
    decreases |a|
  {
    if a != [] && StaysBelow(a[0], inserted) { SameStandingSameIndex(a[1..], b[1..], inserted, shown); }
  }

  /** The client finds every place the server chooses, on every stack of the given objects, if
      and only if the faces of any two of them stand to each other as they do. */
  lemma PlacesAreKeptExactly(objects: iset<Object>, kinds: Kinds, types: Types)
    ensures (forall stack, o :: (forall x :: x in stack ==> x in objects) && o in objects ==>
              FaceIndex(stack, o, kinds, types) == InsertIndex(Ranks(stack, kinds), Rank(o, kinds)))
      <==> (forall x, o :: x in objects && o in objects ==> KeepsOrder(x, o, kinds, types))
  {
    if forall x, o :: x in objects && o in objects ==> KeepsOrder(x, o, kinds, types) {
      forall stack: seq<Object>, o | (forall x :: x in stack ==> x in objects) && o in objects
        ensures FaceIndex(stack, o, kinds, types) == InsertIndex(Ranks(stack, kinds), Rank(o, kinds))
      {
        OrderKeepsPlace(stack, o, kinds, types);
      }
    }
    forall x, o | !KeepsOrder(x, o, kinds, types)
      ensures FaceIndex([x], o, kinds, types) != InsertIndex(Ranks([x], kinds), Rank(o, kinds))
    {
    }
  }

  lemma OrderKeepsPlace(stack: seq<Object>, o: Object, kinds: Kinds, types: Types)
    requires forall x :: x in stack ==> KeepsOrder(x, o, kinds, types)
    ensures FaceIndex(stack, o, kinds, types) == InsertIndex(Ranks(stack, kinds), Rank(o, kinds))
    ensures Faces(PlaceReal(stack, o, kinds), kinds) == PlaceObject(Faces(stack, kinds), Face(o, kinds), types)
  {
    hide InsertIndex;
    forall i | 0 <= i < |stack| ensures StaysBelow(Ranks(stack, kinds)[i], Rank(o, kinds))
      <==> StaysBelow(IdentityPriorities(Faces(stack, kinds), types)[i], IdentityPriority(Face(o, kinds), types))
    {
      assert stack[i] in stack && KeepsOrder(stack[i], o, kinds, types);
    }
    SameStandingSameIndex(Ranks(stack, kinds), IdentityPriorities(Faces(stack, kinds), types), Rank(o, kinds),
      IdentityPriority(Face(o, kinds), types));
  }

  // ---- whole runs of real objects ------------------------------------------------------------------------

  type RealTerrain = MapPosition -> seq<Object>

  function Seen(held: RealTerrain, kinds: Kinds): Terrain {
    p => Faces(held(p), kinds)
  }

  function SeenEvent(event: EventOn<Object>, kinds: Kinds): Event {
    match event
    case Arrive(at) => Arrive(at)
    case Step(direction) => EventOn.Step(direction)
    case Climb(up) => Climb(up)
    case Rewrite(p, stack) => Rewrite(p, Faces(stack, kinds))
    case Place(p, o) => Place(p, Face(o, kinds))
    case Replace(p, index, o) => Replace(p, index, Face(o, kinds))
    case Remove(p, index) => Remove(p, index)
    case Walk(p, index, destination) => Walk(p, index, destination)
    case Unseen(p, stack) => Unseen(p, Faces(stack, kinds))
    case Aside => Aside
  }

  ghost function RealAfter(held: RealTerrain, event: EventOn<Object>, kinds: Kinds): RealTerrain
    requires Possible(SeenEvent(event, kinds), Seen(held, kinds))
  {
    match event
    case Rewrite(p, stack) => Set(held, p, stack)
    case Unseen(p, stack) => Set(held, p, stack)
    case Place(p, o) => Set(held, p, PlaceReal(held(p), o, kinds))
    case Replace(p, index, o) => Set(held, p, held(p)[index := o])
    case Remove(p, index) => Set(held, p, RemoveAt(held(p), index))
    case Walk(p, index, destination) =>
      var left := Set(held, p, RemoveAt(held(p), index));
      Set(left, destination, PlaceReal(left(destination), held(p)[index], kinds))
    case _ => held
  }

  /** No disguise changes where an object stands. */
  ghost predicate Discreet(kinds: Kinds, types: Types) {
    forall x, o :: KeepsOrder(x, o, kinds, types)
  }

  /** Then what the server does to the objects it does to the faces. */
  lemma SeenFollows(held: RealTerrain, event: EventOn<Object>, kinds: Kinds, types: Types, q: MapPosition)
    requires Discreet(kinds, types) && Possible(SeenEvent(event, kinds), Seen(held, kinds))
    ensures Seen(RealAfter(held, event, kinds), kinds)(q)
      == WorldAfter(Seen(held, kinds), SeenEvent(event, kinds), types)(q)
  {
    hide PlaceReal, PlaceObject, KeepsOrder, Face, Faces, RemoveAt, Discreet;
    match event
    case Place(p, o) => DiscreetPlaces(held(p), o, kinds, types);
    case Walk(p, index, destination) =>
      assert Seen(held, kinds)(p) == Faces(held(p), kinds);
      var left := Set(held, p, RemoveAt(held(p), index));
      FacesEdited(held(p), index, held(p)[index], kinds);
      DiscreetPlaces(left(destination), held(p)[index], kinds, types);
    case Replace(p, index, o) => FacesEdited(held(p), index, o, kinds);
    case Remove(p, index) => FacesEdited(held(p), index, held(p)[index], kinds);
    case _ =>
  }

  lemma DiscreetPlaces(stack: seq<Object>, o: Object, kinds: Kinds, types: Types)
    requires Discreet(kinds, types)
    ensures Faces(PlaceReal(stack, o, kinds), kinds) == PlaceObject(Faces(stack, kinds), Face(o, kinds), types)
  {
    hide PlaceReal, PlaceObject, KeepsOrder, Face;
    OrderKeepsPlace(stack, o, kinds, types);
  }

  lemma FacesEdited(stack: seq<Object>, index: nat, o: Object, kinds: Kinds)
    requires index < |stack|
    ensures Faces(RemoveAt(stack, index), kinds) == RemoveAt(Faces(stack, kinds), index)
    ensures Faces(stack[index := o], kinds) == Faces(stack, kinds)[index := Face(o, kinds)]
    ensures Faces(stack, kinds)[index] == Face(stack[index], kinds)
  {
    hide Face;
  }

  /** It is enough that every type has the priority of the one it is shown as. */
  lemma SamePriorityIsDiscreet(kinds: Kinds, types: Types)
    requires forall kind: word :: kinds(kind).priority == Lookup(types, kinds(kind).shown).priority
    ensures Discreet(kinds, types)
  {
    forall x, o ensures KeepsOrder(x, o, kinds, types) {
    }
  }

  datatype RealReport = RealReport(event: EventOn<Object>, sent: Option<Sent>)

  function SeenReport(report: RealReport, kinds: Kinds): Report {
    Report(SeenEvent(report.event, kinds), report.sent)
  }

  function SeenReports(reports: seq<RealReport>, kinds: Kinds): seq<Report> {
    if reports == [] then [] else [SeenReport(reports[0], kinds)] + SeenReports(reports[1..], kinds)
  }

  /** A run of the server's world of objects, truthfully reported and trackable. */
  ghost predicate RealBroadcast(
      anchor: MapPosition, held: RealTerrain, reports: seq<RealReport>, kinds: Kinds, types: Types)
    decreases |reports|
  {
    reports == [] ||
    (var report, world := SeenReport(reports[0], kinds), Seen(held, kinds);
     && ValidAnchor(anchor) && Possible(report.event, world) && Truthful(report, anchor, world)
     && Trackable(report.event, world, types)
     && (report.sent.Some? ==> GoodSent(report.sent.value, anchor, types))
     && RealBroadcast(AnchorAfter(anchor, report.event), RealAfter(held, reports[0].event, kinds), reports[1..], kinds,
          types))
  }

  ghost function RealAfterAll(
      anchor: MapPosition, held: RealTerrain, reports: seq<RealReport>, kinds: Kinds, types: Types): RealTerrain
    requires RealBroadcast(anchor, held, reports, kinds, types)
    decreases |reports|
  {
    if reports == [] then held
    else RealAfterAll(AnchorAfter(anchor, SeenEvent(reports[0].event, kinds)),
      RealAfter(held, reports[0].event, kinds), reports[1..], kinds, types)
  }

  // ---- worlds that look the same ----------------------------------------------------------------------

  ghost predicate Alike(a: Terrain, b: Terrain) {
    forall p :: a(p) == b(p)
  }

  lemma AlikeDescribes(floors: seq<MapFloor>, zs: seq<int>, region: MapPosition -> bool, a: Terrain, b: Terrain)
    requires Alike(a, b) && Describes(floors, zs, region, a)
    ensures Describes(floors, zs, region, b)
  {
  }

  lemma AlikeStep(report: Report, anchor: MapPosition, a: Terrain, b: Terrain, types: Types)
    requires Alike(a, b) && ValidAnchor(anchor) && Possible(report.event, a) && Truthful(report, anchor, a)
    requires Trackable(report.event, a, types)
    ensures Possible(report.event, b) && Truthful(report, anchor, b) && Trackable(report.event, b, types)
    ensures Alike(WorldAfter(a, report.event, types), WorldAfter(b, report.event, types))
  {
    hide InView, InRow, InNewFloors, PlaceObject, ReturnIndex, Shown, Identities, Describes, Anchored;
  }

  lemma {:induction false} AlikeBroadcasts(
      anchor: MapPosition, a: Terrain, b: Terrain, reports: seq<Report>, types: Types)
    requires Alike(a, b) && Broadcast(anchor, a, reports, types)
    ensures Broadcast(anchor, b, reports, types)
    ensures Alike(WorldAfterAll(anchor, a, reports, types), WorldAfterAll(anchor, b, reports, types))
    decreases |reports|
  {
    hide Truthful, Trackable, GoodSent, Possible, WorldAfter, AnchorAfter, Alike;
    if reports != [] {
      AlikeStep(reports[0], anchor, a, b, types);
      AlikeBroadcasts(AnchorAfter(anchor, reports[0].event), WorldAfter(a, reports[0].event, types),
        WorldAfter(b, reports[0].event, types), reports[1..], types);
    }
  }

  /** What is true of runs of faces is true of runs of objects, if no disguise changes where an
      object stands: the same commands, and at the end the faces of what is there. */
  lemma {:induction false} RealRunsAreSeen(
      anchor: MapPosition, held: RealTerrain, reports: seq<RealReport>, kinds: Kinds, types: Types)
    requires Discreet(kinds, types) && RealBroadcast(anchor, held, reports, kinds, types)
    ensures Broadcast(anchor, Seen(held, kinds), SeenReports(reports, kinds), types)
    ensures Alike(WorldAfterAll(anchor, Seen(held, kinds), SeenReports(reports, kinds), types),
      Seen(RealAfterAll(anchor, held, reports, kinds, types), kinds))
    decreases |reports|
  {
    hide Truthful, Trackable, GoodSent, Possible, WorldAfter, AnchorAfter, Discreet, Seen, SeenEvent;
    if reports != [] {
      var report := SeenReport(reports[0], kinds);
      var next, after := AnchorAfter(anchor, report.event), RealAfter(held, reports[0].event, kinds);
      forall q ensures WorldAfter(Seen(held, kinds), report.event, types)(q) == Seen(after, kinds)(q) {
        SeenFollows(held, reports[0].event, kinds, types, q);
      }
      RealRunsAreSeen(next, after, reports[1..], kinds, types);
      AlikeBroadcasts(next, Seen(after, kinds), WorldAfter(Seen(held, kinds), report.event, types),
        SeenReports(reports[1..], kinds), types);
      assert SeenReports(reports, kinds)[1..] == SeenReports(reports[1..], kinds);
    }
  }

  /** From bytes to mirror, for the server's own objects. */
  lemma RealBytesKeepMirror(
      state: State, held: RealTerrain, reports: seq<RealReport>, kinds: Kinds, types: Types)
    requires !C.EmptyTable(types) && Discreet(kinds, types)
    requires Mirrors(state.floors, state.anchor, Seen(held, kinds))
    requires RealBroadcast(state.anchor, held, reports, kinds, types)
    ensures Broadcast(state.anchor, Seen(held, kinds), SeenReports(reports, kinds), types)
    ensures var payload := Transmitted(state.anchor, Seen(held, kinds), SeenReports(reports, kinds), types);
      var walked := Payload.WalkPayload(payload, 0, state.anchor, types);
      var now := Runs.StateAfter(state, walked.steps, types);
      && walked.at == |payload| && walked.outcome == Payload.Complete
      && Mirrors(now.floors, now.anchor, Seen(RealAfterAll(state.anchor, held, reports, kinds, types), kinds))
  {
    hide Mirrors, Broadcast, RealBroadcast, Discreet, Transmitted, Payload.WalkPayload, Runs.StateAfter, C.EmptyTable,
      WorldAfterAll, RealAfterAll, Seen;
    RealRunsAreSeen(state.anchor, held, reports, kinds, types);
    BytesKeepMirror(state, Seen(held, kinds), SeenReports(reports, kinds), types);
    var payload := Transmitted(state.anchor, Seen(held, kinds), SeenReports(reports, kinds), types);
    var now := Runs.StateAfter(state, Payload.WalkPayload(payload, 0, state.anchor, types).steps, types);
    SameWorld(now.floors, now.anchor,
      WorldAfterAll(state.anchor, Seen(held, kinds), SeenReports(reports, kinds), types),
      Seen(RealAfterAll(state.anchor, held, reports, kinds, types), kinds));
  }

  /** One disguise that changes where an object stands, and one field, and the mirror is wrong. */
  lemma IndiscretionBreaksMirror(
      state: State, p: MapPosition, x: Object, o: Object, thing: MapThing, held: RealTerrain, kinds: Kinds,
      types: Types)
    requires Mirrors(state.floors, state.anchor, Seen(held, kinds)) && InView(state.anchor, p) && held(p) == [x]
    requires IdentityOf(thing) == Face(o, kinds) && Face(x, kinds) != Face(o, kinds) && !KeepsOrder(x, o, kinds, types)
    ensures var after := ApplyAddField(state, p, thing, types).state;
      !Mirrors(after.floors, after.anchor, Seen(RealAfter(held, Place(p, o), kinds), kinds))
  {
    hide Mirrors, InView, ApplyAddField, Face, KeepsOrder, PlaceObject, PlaceReal;
    var after := ApplyAddField(state, p, thing, types).state;
    var expected := Set(Seen(held, kinds), p, PlaceObject(Faces([x], kinds), Face(o, kinds), types));
    assert Seen(held, kinds)(p) == Faces([x], kinds);
    PlaceKeepsMirror(state, p, thing, Seen(held, kinds), types);
    SwappedFaces(x, o, kinds, types);
    var wanted := Seen(RealAfter(held, Place(p, o), kinds), kinds);
    assert wanted(p) == Faces(PlaceReal([x], o, kinds), kinds);
    if Mirrors(after.floors, after.anchor, wanted) {
      EditKeepsAnchor(state, AddField(p, thing), types);
      ShownHere(after.floors, state.anchor, wanted, p);
      ShownHere(after.floors, state.anchor, expected, p);
    }
  }

  lemma SwappedFaces(x: Object, o: Object, kinds: Kinds, types: Types)
    requires Face(x, kinds) != Face(o, kinds) && !KeepsOrder(x, o, kinds, types)
    ensures PlaceObject(Faces([x], kinds), Face(o, kinds), types) != Faces(PlaceReal([x], o, kinds), kinds)
    ensures |PlaceObject(Faces([x], kinds), Face(o, kinds), types)| == |PlaceReal([x], o, kinds)| == 2
  {
    var expected, got := PlaceObject(Faces([x], kinds), Face(o, kinds), types), Faces(PlaceReal([x], o, kinds), kinds);
    assert expected[0] != got[0];
  }
}
