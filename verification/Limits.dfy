/** Payloads on which the stronger promises fail, from the first byte a client receives: a
    snapshot, and then one command. */
module Limits {
  import opened World
  import opened Viewport
  import opened ObjectTypes
  import opened Updates
  import opened Floors
  import opened Mirror
  import opened MapCodec
  import opened CommandCodec
  import opened Snapshot
  import opened EndToEnd
  import Commands
  import MapScan
  import Chunks
  import Payload
  import Runs

  const HERE := MapPosition(100, 100, 7)

  /** Type 100 is known, and its items carry nothing but the type. */
  function Table(): (types: Types)
    ensures |types| == 101 && types[100].known && !Commands.EmptyTable(types)
  {
    seq(100, _ => UNDECLARED) + [Encoding(true, false, false, PRIORITY_LOW, false, false)]
  }

  const STONE := Item(ItemThing(100, None, None))

  ghost function Login(fields: Fields): seq<byte>
    requires AllSendable(fields, Table())
  {
    Encode(Screen(HERE, fields), ORIGIN, Table())
  }

  /** The state a fresh client is in after logging in at HERE. */
  function LoggedIn(fields: Fields): State {
    Apply(Fresh(), Received(Screen(HERE, fields), ORIGIN).update, HERE, Table()).state
  }

  /** What a fresh client makes of a payload. */
  function AfterPayload(payload: seq<byte>): State {
    Runs.StateAfter(Fresh(), Payload.WalkPayload(payload, 0, ORIGIN, Table()).steps, Table())
  }

  predicate IsComplete(payload: seq<byte>) {
    Payload.WalkPayload(payload, 0, ORIGIN, Table()).outcome == Payload.Complete
  }

  lemma LoginMirrors(fields: Fields, world: Terrain)
    requires AllSendable(fields, Table()) && Depicts(fields, world)
    ensures var state := LoggedIn(fields);
      state.anchor == HERE && Mirrors(state.floors, HERE, world) && WellFormed(state.floors)
      && InsideViewport(state.floors, HERE)
  {
    hide InView, Region, FullRectangle, FloorsOf, RecordFloors, Mirrors, StackAt, AllSendable, Depicts,
      ViewportFloorRange, Describes, InsideViewport, MapScan.TileCount;
    var report := Report(Arrive(HERE), Some(Screen(HERE, fields)));
    TruthfulAnnounces(report, ORIGIN, world, Table());
    var update := Received(Screen(HERE, fields), ORIGIN).update;
    SnapshotMirrors(Fresh(), update, HERE, world);
    MirrorIsInside(LoggedIn(fields).floors, HERE, world);
  }

  lemma MirrorIsInside(floors: seq<MapFloor>, anchor: MapPosition, world: Terrain)
    requires Mirrors(floors, anchor, world)
    ensures WellFormed(floors) && InsideViewport(floors, anchor)
  {
    hide InView, InsideViewport, WellFormed, StackAt, Anchored, Levels;
    Runs.InsideMeansShown(floors, anchor);
    forall p | StackAt(floors, p) != [] ensures InView(anchor, p) {
      assert Identities(StackAt(floors, p)) != [];
    }
  }

  lemma OneCommand(sent: Sent, anchor: MapPosition, types: Types)
    requires GoodSent(sent, anchor, types)
    ensures AllGood([sent], anchor, types) && EncodeAll([sent], anchor, types) == Encode(sent, anchor, types)
    ensures ReceivedAll([sent], anchor, types) == [Received(sent, anchor)]
  {
    hide GoodSent, Encode, Received;
    var rest := [sent][1..];
    assert rest == [];
    assert AllGood(rest, NextAnchor(sent, anchor), types) && EncodeAll(rest, NextAnchor(sent, anchor), types) == [];
    assert ReceivedAll(rest, NextAnchor(sent, anchor), types) == [];
  }

  lemma TwoCommands(first: Sent, second: Sent, anchor: MapPosition, types: Types)
    requires GoodSent(first, anchor, types) && GoodSent(second, NextAnchor(first, anchor), types)
    ensures AllGood([first, second], anchor, types)
    ensures EncodeAll([first, second], anchor, types)
      == Encode(first, anchor, types) + Encode(second, NextAnchor(first, anchor), types)
    ensures ReceivedAll([first, second], anchor, types)
      == [Received(first, anchor), Received(second, NextAnchor(first, anchor))]
  {
    hide GoodSent, Encode, Received;
    assert [first, second][1..] == [second];
    OneCommand(second, NextAnchor(first, anchor), types);
  }

  /** A snapshot and one more command are read to the end, and applied. */
  lemma LoginThen(fields: Fields, update: ServerUpdate)
    requires AllSendable(fields, Table()) && GoodUpdate(update, Table())
    ensures var payload := Login(fields) + SendUpdate(update, Table());
      IsComplete(payload) && AfterPayload(payload) == Apply(LoggedIn(fields), update, HERE, Table()).state
  {
    hide Encode, AllSendable, GoodUpdate, SendUpdate, Payload.WalkPayload, Apply, Table, Region, Commands.EmptyTable,
      AllGood, EncodeAll, ReceivedAll, SendRegion;
    var screen, plain := Screen(HERE, fields), Sent.Plain(update);
    TwoCommands(screen, plain, ORIGIN, Table());
    PlainEncoding(update);
    var payload := Login(fields) + SendUpdate(update, Table());
    assert Chunks.Holds(payload, 0, payload);
    WalkUndoesEncoding(payload, 0, [screen, plain], ORIGIN, Table());
    TwoSteps(Fresh(), Received(screen, ORIGIN), Commands.Stepped(update, HERE));
  }

  lemma TwoSteps(state: State, first: Commands.Stepped, second: Commands.Stepped)
    ensures Runs.StateAfter(state, [first, second], Table())
      == Apply(Apply(state, first.update, first.next, Table()).state, second.update, second.next, Table()).state
  {
    hide Apply, Table;
    var between := Apply(state, first.update, first.next, Table()).state;
    assert [first, second][1..] == [second] && [second][1..] == [];
    assert Runs.StateAfter(between, [second], Table()) == Apply(between, second.update, second.next, Table()).state by {
      assert Runs.StateAfter(Apply(between, second.update, second.next, Table()).state, [], Table())
        == Apply(between, second.update, second.next, Table()).state;
    }
  }

  lemma PlainEncoding(update: ServerUpdate)
    requires GoodUpdate(update, Table())
    ensures Encode(Sent.Plain(update), HERE, Table()) == SendUpdate(update, Table())
  {
    hide GoodUpdate, SendUpdate, Table;
  }

  // ---- an object on a level out of range -----------------------------------------------------------------

  function Bare(p: MapPosition): seq<MapThing> {
    []
  }

  function Void(p: MapPosition): seq<Identity> {
    []
  }

  /** One level below a player on the surface nothing is in view, but the object is stored. */
  lemma AddFieldLeavesViewport()
    ensures AllSendable(Bare, Table())
    ensures var payload := Login(Bare) + [106, 100, 0, 100, 0, 8, 100, 0];
      && IsComplete(payload) && InsideViewport(LoggedIn(Bare).floors, HERE)
      && AfterPayload(payload).anchor == HERE && !InsideViewport(AfterPayload(payload).floors, HERE)
  {
    hide InsideViewport, IsComplete, AfterPayload, LoggedIn, SendUpdate, Login, Mirrors, Depicts, WellFormed, StackAt,
      WriteField, GoodUpdate, Table;
    var below := MapPosition(100, 100, 8);
    AddingStone(below);
    BareIsVoid();
    LoginMirrors(Bare, Void);
    LoginThen(Bare, AddField(below, STONE));
    Runs.AddFieldStaysInside(LoggedIn(Bare), below, STONE, Table());
  }

  /** The bytes that put a stone on a field at (100, 100). */
  lemma AddingStone(p: MapPosition)
    requires p.x == p.y == 100 && 0 <= p.z <= MAX_FLOOR
    ensures GoodUpdate(AddField(p, STONE), Table())
    ensures SendUpdate(AddField(p, STONE), Table()) == [106, 100, 0, 100, 0, p.z, 100, 0]
  {
    StoneIsSent();
    hide Table, Sendable, SendMapObject;
    assert SendPosition(p) == [100, 0, 100, 0, p.z];
    assert SendBody(AddField(p, STONE), Table()) == SendPosition(p) + SendMapObject(STONE, Table());
  }

  lemma StoneIsSent()
    ensures Sendable(STONE, Table()) && SendMapObject(STONE, Table()) == [100, 0]
  {
  }

  lemma BareIsVoid()
    ensures AllSendable(Bare, Table()) && Depicts(Bare, Void)
  {
  }

  // ---- a creature that moves out of view -----------------------------------------------------------------

  function Someone(p: MapPosition): seq<MapThing> {
    if p == HERE then [Creature(Known(7, 0))] else []
  }

  function Somebody(p: MapPosition): seq<Identity> {
    if p == HERE then [CreatureIdentity(7)] else []
  }

  lemma SomeoneIsSomebody()
    ensures AllSendable(Someone, Table()) && Depicts(Someone, Somebody)
  {
  }

  /** A hundred fields to the east nothing is in view, but the creature is stored there. */
  lemma MoveCreatureLeavesViewport()
    ensures AllSendable(Someone, Table())
    ensures var payload := Login(Someone) + [109, 100, 0, 100, 0, 7, 0, 200, 0, 100, 0, 7];
      && IsComplete(payload) && InsideViewport(LoggedIn(Someone).floors, HERE)
      && AfterPayload(payload).anchor == HERE && !InsideViewport(AfterPayload(payload).floors, HERE)
  {
    hide InsideViewport, IsComplete, AfterPayload, LoggedIn, SendUpdate, Login, Mirrors, Depicts, WellFormed, StackAt,
      WriteField, GoodUpdate, Table, Someone, Identities;
    var away := MapPosition(200, 100, 7);
    MovingAway(away);
    SomeoneIsSomebody();
    LoginMirrors(Someone, Somebody);
    LoginThen(Someone, MoveCreature(HERE, 0, away));
    ShownHere(LoggedIn(Someone).floors, HERE, Somebody, HERE);
    OneStands(StackAt(LoggedIn(Someone).floors, HERE));
    Runs.MoveCreatureStaysInside(LoggedIn(Someone), HERE, 0, away, Table());
  }

  lemma OneStands(things: seq<MapThing>)
    requires Identities(things) == [CreatureIdentity(7)]
    ensures |things| == 1 && things[0].Creature?
  {
    assert IdentityOf(things[0]) == CreatureIdentity(7);
  }

  lemma MovingAway(away: MapPosition)
    requires away == MapPosition(200, 100, 7)
    ensures GoodUpdate(MoveCreature(HERE, 0, away), Table())
    ensures SendUpdate(MoveCreature(HERE, 0, away), Table()) == [109, 100, 0, 100, 0, 7, 0, 200, 0, 100, 0, 7]
  {
  }

  // ---- an eleventh object --------------------------------------------------------------------------------

  function Pile(p: MapPosition): seq<MapThing> {
    if p == HERE then seq(10, _ => STONE) else []
  }

  function Heap(p: MapPosition): seq<Identity> {
    if p == HERE then seq(10, _ => IdentityOf(STONE)) else []
  }

  lemma PileIsHeap()
    ensures AllSendable(Pile, Table()) && Depicts(Pile, Heap)
  {
  }

  /** Ten stones lie on the player's field and the mirror is exact. The server puts an eleventh
      one there, says so, and the client shows eleven where a snapshot would show ten. */
  lemma EleventhObjectBreaksMirror()
    ensures AllSendable(Pile, Table())
    ensures var payload := Login(Pile) + [106, 100, 0, 100, 0, 7, 100, 0];
      && IsComplete(payload) && Mirrors(LoggedIn(Pile).floors, HERE, Heap) && AfterPayload(payload).anchor == HERE
      && !Mirrors(AfterPayload(payload).floors, HERE, WorldAfter(Heap, Place(HERE, IdentityOf(STONE)), Table()))
  {
    hide InsideViewport, IsComplete, AfterPayload, LoggedIn, SendUpdate, Login, Mirrors, Depicts, WellFormed, StackAt,
      WriteField, GoodUpdate, Table, Pile, WorldAfter, ApplyAddField;
    AddingStone(HERE);
    PileIsHeap();
    LoginMirrors(Pile, Heap);
    LoginThen(Pile, AddField(HERE, STONE));
    UntrackableBreaksMirror(LoggedIn(Pile), Place(HERE, IdentityOf(STONE)), Some(AddField(HERE, STONE)), Heap, Table());
    EditKeepsAnchor(LoggedIn(Pile), AddField(HERE, STONE), Table());
  }
}
