/** End to end. What the server encodes about a run of events, the client's walk decodes
    command by command with nothing left over, and applying it keeps the mirror equal to the
    server's world. */
module EndToEnd {
  import opened World
  import opened Chunks
  import opened Viewport
  import opened ObjectTypes
  import opened Updates
  import opened Floors
  import opened MapScan
  import opened MapCodec
  import opened Commands
  import opened CommandCodec
  import opened Snapshot
  import opened Payload
  import M = Mirror
  import Runs
  import Geometry

  // ---- what the server sends ----------------------------------------------------------------------

  /** A command of the server: the map commands are sent from the objects on the fields, and the
      two of the handshake as they are. */
  datatype Sent =
    | Screen(player: MapPosition, fields: Fields)
    | Edge(direction: Direction, fields: Fields)
    | Storeys(up: bool, fields: Fields)
    | Plain(update: ServerUpdate)
    | GameStart(creature: quad, beat: word, bugReports: bool)
    | Entitlement(actions: seq<byte>)

  predicate Mapped(sent: Sent) {
    sent.Screen? || sent.Edge? || sent.Storeys?
  }

  function NextAnchor(sent: Sent, anchor: MapPosition): MapPosition {
    match sent
    case Screen(player, _) => player
    case Edge(direction, _) => StepPosition(anchor, direction)
    case Storeys(up, _) => FloorStep(anchor, up)
    case _ => anchor
  }

  ghost predicate GoodSent(sent: Sent, anchor: MapPosition, types: Types) {
    match sent
    case Screen(player, fields) => GoodPosition(player) && AllSendable(fields, types)
    case Edge(_, fields) => ValidAnchor(NextAnchor(sent, anchor)) && AllSendable(fields, types)
    case Storeys(_, fields) => ValidAnchor(NextAnchor(sent, anchor)) && AllSendable(fields, types)
    case Plain(update) => GoodUpdate(update, types)
    case GameStart(_, _, _) => true
    case Entitlement(actions) => |actions| == 32
  }

  function RowOpcode(direction: Direction): byte {
    match direction
    case North => 101
    case East => 102
    case South => 103
    case West => 104
  }

  ghost function SendRegion(anchor: MapPosition, rect: Rect, range: FloorRange, fields: Fields, types: Types): seq<byte>
    requires GoodRange(range) && AllSendable(fields, types)
  {
    SendPoints(-1, PointsOf(anchor, rect, FloorsOf(range)), fields, types)
  }

  ghost function Encode(sent: Sent, anchor: MapPosition, types: Types): seq<byte>
    requires GoodSent(sent, anchor, types)
  {
    var next := NextAnchor(sent, anchor);
    match sent
    case Screen(player, fields) =>
      [100] + (SendPosition(player) + SendRegion(player, FullRectangle(player), ViewportFloorRange(player.z), fields,
        types))
    case Edge(direction, fields) =>
      [RowOpcode(direction)] + SendRegion(next, RowRectangle(next, direction), ViewportFloorRange(next.z), fields,
        types)
    case Storeys(up, fields) =>
      [if up then 190 else 191] + SendRegion(next, FullRectangle(next), FloorChangeRange(next.z, up), fields, types)
    case Plain(update) => SendUpdate(update, types)
    case GameStart(creature, beat, bugReports) => [INIT_GAME] + (Quad(creature) + (Word(beat) + [Flag(bugReports)]))
    case Entitlement(actions) => [RIGHTS] + actions
  }

  /** The floors a client makes of a region. */
  function Region(anchor: MapPosition, rect: Rect, range: FloorRange, fields: Fields): seq<MapFloor>
    requires GoodRange(range)
  {
    DescribedFloors(anchor, rect, FloorsOf(range), fields)
  }

  /** The update a client should make of it. */
  function Received(sent: Sent, anchor: MapPosition): Stepped
    requires Mapped(sent) ==> ValidAnchor(NextAnchor(sent, anchor))
  {
    var next := NextAnchor(sent, anchor);
    match sent
    case Screen(player, fields) =>
      var floors := Region(player, FullRectangle(player), ViewportFloorRange(player.z), fields);
      var area := |floors| * (WIDTH * HEIGHT);
      var described := TileCount(floors);
      Stepped(FullScreen(WindowAt(player), floors, described, if described <= area then area - described else 0),
        player)
    case Edge(direction, fields) =>
      Stepped(Row(direction, Region(next, RowRectangle(next, direction), ViewportFloorRange(next.z), fields)), next)
    case Storeys(up, fields) =>
      Stepped(FloorChange(up, Region(next, FullRectangle(next), FloorChangeRange(next.z, up), fields)), next)
    case Plain(update) => Stepped(update, anchor)
    case GameStart(creature, _, _) => Stepped(InitGame(creature), anchor)
    case Entitlement(actions) => Stepped(Rights(actions), anchor)
  }

  lemma DecodeUndoesEncode(s: seq<byte>, at: nat, sent: Sent, anchor: MapPosition, types: Types)
    requires !EmptyTable(types) && GoodSent(sent, anchor, types) && Holds(s, at, Encode(sent, anchor, types))
    ensures at < |s| && Next(s, at, anchor, types) == Ok(Received(sent, anchor), at + |Encode(sent, anchor, types)|)
    ensures |Encode(sent, anchor, types)| > 0
  {
    hide EmptyTable, SendPoints, PointsOf, FloorsOf, ReadFloors, Holds, SendPosition, ReadPosition, DescribedFloors,
      AllSendable, DecodeStill, TileCount, SendUpdate, RowRectangle, FullRectangle, ViewportFloorRange,
      FloorChangeRange, DecodeFieldData, Quad, Word, U32;
    var next := NextAnchor(sent, anchor);
    match sent
    case Screen(player, fields) =>
      assert GoodRange(ViewportFloorRange(player.z));
      var zs := FloorsOf(ViewportFloorRange(player.z));
      var points := SendPoints(-1, PointsOf(player, FullRectangle(player), zs), fields, types);
      Opening(s, at, 100, SendPosition(player) + points);
      HoldsBoth(s, at + 1, SendPosition(player), points);
      ReadSentPosition(s, at + 1, player);
      ReadFloorsUndoesSending(s, at + 6, types, player, FullRectangle(player), zs, fields);
    case Edge(direction, fields) =>
      var zs := FloorsOf(ViewportFloorRange(next.z));
      Opening(s, at, RowOpcode(direction),
        SendPoints(-1, PointsOf(next, RowRectangle(next, direction), zs), fields, types));
      ReadFloorsUndoesSending(s, at + 1, types, next, RowRectangle(next, direction), zs, fields);
    case Storeys(up, fields) =>
      var zs := FloorsOf(FloorChangeRange(next.z, up));
      Opening(s, at, if up then 190 else 191, SendPoints(-1, PointsOf(next, FullRectangle(next), zs), fields, types));
      ReadFloorsUndoesSending(s, at + 1, types, next, FullRectangle(next), zs, fields);
    case Plain(update) =>
      PlainIsSent(s, at, update, anchor, types);
    case GameStart(creature, beat, bugReports) => StartIsSent(s, at, sent, anchor, types);
    case Entitlement(actions) => EntitlementIsSent(s, at, sent, anchor, types);
  }

  lemma StartIsSent(s: seq<byte>, at: nat, sent: Sent, anchor: MapPosition, types: Types)
    requires sent.GameStart? && Holds(s, at, Encode(sent, anchor, types))
    ensures at < |s| && Next(s, at, anchor, types) == Ok(Received(sent, anchor), at + |Encode(sent, anchor, types)|)
  {
    hide Quad, Word, U32, Holds, Decode;
    var body := Word(sent.beat) + [Flag(sent.bugReports)];
    Opening(s, at, INIT_GAME, Quad(sent.creature) + body);
    HoldsBoth(s, at + 1, Quad(sent.creature), body);
    ReadQuad(s, at + 1, sent.creature);
    HoldsEnds(s, at, Encode(sent, anchor, types));
  }

  lemma EntitlementIsSent(s: seq<byte>, at: nat, sent: Sent, anchor: MapPosition, types: Types)
    requires sent.Entitlement? && |sent.actions| == 32 && Holds(s, at, Encode(sent, anchor, types))
    ensures at < |s| && Next(s, at, anchor, types) == Ok(Received(sent, anchor), at + |Encode(sent, anchor, types)|)
  {
    hide Decode;
    HoldsEnds(s, at, Encode(sent, anchor, types));
    assert s[at + 1..at + 33] == sent.actions;
  }

  lemma HoldsEnds(s: seq<byte>, at: nat, bytes: seq<byte>)
    requires Holds(s, at, bytes)
    ensures at + |bytes| <= |s| && s[at..at + |bytes|] == bytes
  {
  }

  lemma PlainIsSent(s: seq<byte>, at: nat, update: ServerUpdate, anchor: MapPosition, types: Types)
    requires !EmptyTable(types) && GoodUpdate(update, types) && Holds(s, at, SendUpdate(update, types))
    ensures |SendUpdate(update, types)| > 0 && at < |s|
    ensures Next(s, at, anchor, types) == Ok(Stepped(update, anchor), at + |SendUpdate(update, types)|)
  {
    hide Decode, GoodUpdate, SendBody, Opcode;
    DecodeUndoesSendUpdate(s, at, update, anchor, types);
    OpcodeSupported(update, types);
    Opening(s, at, Opcode(update, types), SendBody(update, types));
  }

  lemma Opening(s: seq<byte>, at: nat, opcode: byte, body: seq<byte>)
    requires Holds(s, at, [opcode] + body)
    ensures at < |s| && s[at] == opcode && Holds(s, at + 1, body)
  {
    HoldsBoth(s, at, [opcode], body);
    ReadByte(s, at, opcode);
  }

  ghost predicate AllGood(commands: seq<Sent>, anchor: MapPosition, types: Types)
    decreases |commands|
  {
    commands == [] || (GoodSent(commands[0], anchor, types)
    && AllGood(commands[1..], NextAnchor(commands[0], anchor), types))
  }

  ghost function EncodeAll(commands: seq<Sent>, anchor: MapPosition, types: Types): seq<byte>
    requires AllGood(commands, anchor, types)
    decreases |commands|
  {
    if commands == [] then []
    else Encode(commands[0], anchor, types) + EncodeAll(commands[1..], NextAnchor(commands[0], anchor), types)
  }

  ghost function ReceivedAll(commands: seq<Sent>, anchor: MapPosition, types: Types): seq<Stepped>
    requires AllGood(commands, anchor, types)
    decreases |commands|
  {
    if commands == [] then []
    else [Received(commands[0], anchor)] + ReceivedAll(commands[1..], NextAnchor(commands[0], anchor), types)
  }

  lemma NeverUnsupported(sent: Sent, anchor: MapPosition, types: Types)
    requires GoodSent(sent, anchor, types)
    ensures !Received(sent, anchor).update.Unsupported? && Received(sent, anchor).next == NextAnchor(sent, anchor)
  {
    hide DescribedFloors, TileCount, FloorsOf;
  }

  /** Walking the encodings of any list of commands, one after the other, gives back that list
      and leaves nothing over. */
  lemma {:induction false} WalkUndoesEncoding(
      s: seq<byte>, at: nat, commands: seq<Sent>, anchor: MapPosition, types: Types)
    requires !EmptyTable(types) && AllGood(commands, anchor, types)
    requires Holds(s, at, EncodeAll(commands, anchor, types)) && at + |EncodeAll(commands, anchor, types)| == |s|
    ensures WalkPayload(s, at, anchor, types) == Walked(ReceivedAll(commands, anchor, types), |s|, Complete)
    decreases |commands|
  {
    hide Next, Encode, Received, EmptyTable, GoodSent, Holds, NextAnchor;
    if commands != [] {
      var next := NextAnchor(commands[0], anchor);
      var head := Encode(commands[0], anchor, types);
      HoldsBoth(s, at, head, EncodeAll(commands[1..], next, types));
      DecodeUndoesEncode(s, at, commands[0], anchor, types);
      NeverUnsupported(commands[0], anchor, types);
      WalkUndoesEncoding(s, at + |head|, commands[1..], next, types);
    }
  }

  // ---- and what that does to the mirror ---------------------------------------------------------------

  /** An event and the command the server sends about it, if any. */
  datatype Report = Report(event: Event, sent: Option<Sent>)

  /** The objects the server describes are the ones there, in whatever descriptor form. */
  ghost predicate Depicts(fields: Fields, world: Terrain) {
    forall p :: Identities(fields(p)) == world(p)
  }

  ghost predicate Truthful(report: Report, anchor: MapPosition, world: Terrain)
    requires ValidAnchor(anchor) && Possible(report.event, world)
  {
    match report.event
    case Arrive(at) =>
      ValidAnchor(at) && report.sent.Some? && report.sent.value.Screen? && report.sent.value.player == at
      && Depicts(report.sent.value.fields, world)
    case Step(direction) =>
      report.sent.Some? && report.sent.value.Edge? && report.sent.value.direction == direction
      && Depicts(report.sent.value.fields, world)
    case Climb(up) =>
      ValidAnchor(FloorStep(anchor, up)) && report.sent.Some? && report.sent.value.Storeys?
      && report.sent.value.up == up
      && Depicts(report.sent.value.fields, world)
    case _ =>
      (report.sent.Some? ==> !Mapped(report.sent.value))
      && Announces(if report.sent.Some? then Some(Received(report.sent.value, anchor).update) else None, report.event,
        anchor, world)
  }

  lemma TenAreShown(things: seq<MapThing>, stack: seq<Identity>)
    requires Identities(things) == stack
    ensures Identities(Shown(things)) == Shown(stack)
  {
  }

  /** A region sent from the world describes the world. */
  lemma RegionDescribes(
      anchor: MapPosition, rect: Rect, range: FloorRange, fields: Fields, region: MapPosition -> bool, world: Terrain)
    requires GoodRange(range) && Depicts(fields, world)
    requires forall p :: region(p) <==> range.step != 0 && InRange(range, p.z) && InShiftedRect(anchor, rect, p)
    ensures Describes(Region(anchor, rect, range, fields), FloorsOf(range), region, world)
    ensures Anchored(Region(anchor, rect, range, fields), anchor)
  {
    hide WellFormed, Anchored, DescribedFloors, StackAt, InRange, InShiftedRect, Identities, Shown;
    var zs := FloorsOf(range);
    var floors := DescribedFloors(anchor, rect, zs, fields);
    OrderedAreDistinct(range);
    Geometry.DescribedFloorsGood(anchor, rect, zs, fields);
    forall p ensures Identities(StackAt(floors, p)) == if region(p) then Shown(world(p)) else [] {
      Geometry.DescribedFloorsShow(anchor, rect, zs, fields, p);
      TenAreShown(fields(p), world(p));
      assert Identities([]) == [];
    }
  }

  /** What a client makes of a truthful command announces the event. */
  lemma TruthfulAnnounces(report: Report, anchor: MapPosition, world: Terrain, types: Types)
    requires ValidAnchor(anchor) && Possible(report.event, world) && Truthful(report, anchor, world)
    ensures report.sent.Some? && Mapped(report.sent.value) ==> ValidAnchor(NextAnchor(report.sent.value, anchor))
    ensures Announces(if report.sent.Some? then Some(Received(report.sent.value, anchor).update) else None,
      report.event, anchor, world)
    ensures AnchorAfter(anchor, report.event) == if report.sent.Some? then NextAnchor(report.sent.value, anchor)
      else anchor
  {
    hide Describes, Depicts, DescribedFloors, FloorsOf, Anchored, TileCount, StackAt, InRange, Identities,
      ViewportFloorRange, Shown;
    match report.event
    case Arrive(at) =>
      RegionDescribes(at, FullRectangle(at), ViewportFloorRange(at.z), report.sent.value.fields, p => InView(at, p),
        world);
    case Step(direction) =>
      var next := StepPosition(anchor, direction);
      RegionDescribes(next, RowRectangle(next, direction), ViewportFloorRange(next.z), report.sent.value.fields,
        p => InRow(next, direction, p), world);
    case Climb(up) =>
      var next := FloorStep(anchor, up);
      RegionDescribes(next, FullRectangle(next), FloorChangeRange(next.z, up), report.sent.value.fields,
        p => InNewFloors(next, up, p), world);
    case _ =>
  }

  /** A run of events that the server reports truthfully and that a reader can track. */
  ghost predicate Broadcast(anchor: MapPosition, world: Terrain, reports: seq<Report>, types: Types)
    decreases |reports|
  {
    reports == [] ||
    (&& ValidAnchor(anchor) && Possible(reports[0].event, world) && Truthful(reports[0], anchor, world)
     && Trackable(reports[0].event, world, types)
     && (reports[0].sent.Some? ==> GoodSent(reports[0].sent.value, anchor, types))
     && Broadcast(AnchorAfter(anchor, reports[0].event), WorldAfter(world, reports[0].event, types), reports[1..],
       types))
  }

  function CommandsOf(reports: seq<Report>): seq<Sent> {
    if reports == [] then []
    else (if reports[0].sent.Some? then [reports[0].sent.value] else []) + CommandsOf(reports[1..])
  }

  ghost function WorldAfterAll(anchor: MapPosition, world: Terrain, reports: seq<Report>, types: Types): Terrain
    requires Broadcast(anchor, world, reports, types)
    decreases |reports|
  {
    if reports == [] then world
    else WorldAfterAll(AnchorAfter(anchor, reports[0].event), WorldAfter(world, reports[0].event, types), reports[1..],
      types)
  }

  function AnchorAfterAll(anchor: MapPosition, reports: seq<Report>): MapPosition
    decreases |reports|
  {
    if reports == [] then anchor else AnchorAfterAll(AnchorAfter(anchor, reports[0].event), reports[1..])
  }

  lemma {:induction false} ReportsAreSendable(anchor: MapPosition, world: Terrain, reports: seq<Report>, types: Types)
    requires Broadcast(anchor, world, reports, types)
    ensures AllGood(CommandsOf(reports), anchor, types)
    decreases |reports|
  {
    hide Announces, Trackable, GoodSent, Possible, WorldAfter, Truthful, AnchorAfter, NextAnchor;
    if reports != [] {
      TruthfulAnnounces(reports[0], anchor, world, types);
      ReportsAreSendable(AnchorAfter(anchor, reports[0].event), WorldAfter(world, reports[0].event, types),
        reports[1..], types);
      var commands := CommandsOf(reports);
      if reports[0].sent.Some? {
        assert commands[0] == reports[0].sent.value && commands[1..] == CommandsOf(reports[1..]);
      } else {
        assert commands == CommandsOf(reports[1..]);
      }
    }
  }

  /** The bytes the server sends about the run. */
  ghost function Transmitted(anchor: MapPosition, world: Terrain, reports: seq<Report>, types: Types): seq<byte>
    requires Broadcast(anchor, world, reports, types)
  {
    ReportsAreSendable(anchor, world, reports, types);
    EncodeAll(CommandsOf(reports), anchor, types)
  }

  lemma {:induction false} ReportsKeepMirror(state: M.State, world: Terrain, reports: seq<Report>, types: Types)
    requires Mirrors(state.floors, state.anchor, world) && Broadcast(state.anchor, world, reports, types)
    requires AllGood(CommandsOf(reports), state.anchor, types)
    ensures var now := Runs.StateAfter(state, ReceivedAll(CommandsOf(reports), state.anchor, types), types);
      Mirrors(now.floors, now.anchor, WorldAfterAll(state.anchor, world, reports, types))
      && now.anchor == AnchorAfterAll(state.anchor, reports)
    decreases |reports|
  {
    hide Mirrors, Truthful, Announces, Trackable, GoodSent, Possible, WorldAfter, M.Apply, Received, AnchorAfter,
      NextAnchor;
    if reports != [] {
      var report := reports[0];
      TruthfulAnnounces(report, state.anchor, world, types);
      var update := if report.sent.Some? then Some(Received(report.sent.value, state.anchor).update) else None;
      EventKeepsMirror(state, report.event, update, world, types);
      var after := Advance(state, update, AnchorAfter(state.anchor, report.event), types);
      var commands := CommandsOf(reports);
      if report.sent.Some? {
        assert commands[0] == report.sent.value && commands[1..] == CommandsOf(reports[1..]);
      } else {
        assert commands == CommandsOf(reports[1..]);
      }
      ReportsKeepMirror(after, WorldAfter(world, report.event, types), reports[1..], types);
      if report.sent.Some? {
        NeverUnsupported(report.sent.value, state.anchor, types);
        var steps := ReceivedAll(commands, state.anchor, types);
        assert steps[1..] == ReceivedAll(CommandsOf(reports[1..]), after.anchor, types);
      }
    }
  }

  /** From bytes to mirror. If the mirror is exact and the server encodes any run of trackable
      events, the client's walk over those bytes ends exactly at their end, and the state it
      leaves mirrors the world as it is then. */
  lemma BytesKeepMirror(state: M.State, world: Terrain, reports: seq<Report>, types: Types)
    requires !EmptyTable(types)
    requires Mirrors(state.floors, state.anchor, world) && Broadcast(state.anchor, world, reports, types)
    ensures var payload := Transmitted(state.anchor, world, reports, types);
      var walked := WalkPayload(payload, 0, state.anchor, types);
      walked.at == |payload| && walked.outcome == Complete
      && var now := Runs.StateAfter(state, walked.steps, types);
         Mirrors(now.floors, now.anchor, WorldAfterAll(state.anchor, world, reports, types))
         && now.anchor == AnchorAfterAll(state.anchor, reports)
  {
    hide Mirrors, Broadcast, EncodeAll, WalkPayload, EmptyTable, AllGood;
    ReportsAreSendable(state.anchor, world, reports, types);
    ReportsKeepMirror(state, world, reports, types);
    var payload := Transmitted(state.anchor, world, reports, types);
    assert Holds(payload, 0, payload);
    WalkUndoesEncoding(payload, 0, CommandsOf(reports), state.anchor, types);
  }
}
