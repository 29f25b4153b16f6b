/** The walk over a whole payload, as clientcore's consumers run it: decode a command at the
    current viewport, apply it, go on where it ended. No payload, however malformed, takes the
    mirror out of shape. */
module Payload {
  import opened World
  import opened Viewport
  import opened ObjectTypes
  import opened Updates
  import opened Floors
  import opened MapScan
  import opened Commands
  import M = Mirror
  import Creatures
  import Runs
  import Streams
  import Geometry
  import Decoders
  import WorldStates

  // ---- the walk over a payload ----------------------------------------------------------------

  /** How a walk ended: at the end of the payload, at a command of unknown length, or at one
      that could not be decoded. */
  datatype Outcome = Complete | Residual | Broken(error: Error)

  datatype Walked = Walked(steps: seq<Stepped>, at: nat, outcome: Outcome)

  const INIT_GAME := 10
  const INIT_GAME_LENGTH := 8
  const RIGHTS := 11
  const RIGHTS_LENGTH := 33

  /** The two commands of the handshake are told by their opcode, wherever they stand. */
  datatype Handshake = NoHandshake | Started | Entitled | Cut

  function HandshakeAt(opcode: byte, available: nat): Handshake {
    if opcode == INIT_GAME then if available < INIT_GAME_LENGTH then Cut else Started
    else if opcode == RIGHTS then if available < RIGHTS_LENGTH then Cut else Entitled
    else NoHandshake
  }

  /** The command at a boundary: those two have a fixed length, all others are the decoder's. One
      of the two that has not all arrived ends the walk like a command of unknown length. */
  function Next(s: seq<byte>, at: nat, anchor: MapPosition, types: Types): Parse<Stepped>
    requires at < |s|
  {
    match HandshakeAt(s[at], |s| - at)
    case Started => Ok(Stepped(InitGame(U32(s, at + 1).value), anchor), at + INIT_GAME_LENGTH)
    case Entitled => Ok(Stepped(Rights(s[at + 1..at + RIGHTS_LENGTH]), anchor), at + RIGHTS_LENGTH)
    case Cut => Ok(Stepped(Unsupported, anchor), at)
    case NoHandshake => Decode(s, at, anchor, types)
  }

  lemma NextAdvances(s: seq<byte>, at: nat, anchor: MapPosition, types: Types)
    requires at < |s| && Next(s, at, anchor, types).Ok? && !Next(s, at, anchor, types).value.update.Unsupported?
    ensures at < Next(s, at, anchor, types).at <= |s|
  {
    hide Decode;
    Streams.DecodeStable(s, s, at, anchor, types);
  }

  /** Read a command, apply it, go on from the viewport it stepped to. */
  function WalkPayload(s: seq<byte>, at: nat, anchor: MapPosition, types: Types): Walked
    requires at <= |s|
    decreases |s| - at
  {
    if at == |s| then Walked([], at, Complete)
    else
      match Next(s, at, anchor, types)
      case Fail(error) => Walked([], at, Broken(error))
      case Ok(step, next) =>
        if step.update.Unsupported? then Walked([], at, Residual)
        else
          NextAdvances(s, at, anchor, types);
          var rest := WalkPayload(s, next, step.next, types);
          rest.(steps := [step] + rest.steps)
  }

  // ---- any bytes at all -------------------------------------------------------------------------

  lemma OrderedAreDistinct(range: FloorRange)
    requires GoodRange(range)
    ensures Geometry.DistinctLevels(FloorsOf(range))
  {
    var zs := FloorsOf(range);
    forall i, j | 0 <= i < j < |zs| ensures zs[i] != zs[j] {
      assert if range.step < 0 then zs[i] > zs[j] else zs[i] < zs[j];
    }
  }

  /** Floors that decode for the levels of `range` and a rectangle inside the window lie in view. */
  lemma SoundIsInside(floors: seq<MapFloor>, anchor: MapPosition, rect: Rect, range: FloorRange)
    requires GoodRange(range) && Geometry.Sound(floors, anchor, rect) && Levels(floors) == FloorsOf(range)
    requires forall z :: range.step != 0 && InRange(range, z) ==> InRange(ViewportFloorRange(anchor.z), z)
    requires forall p :: InShiftedRect(anchor, rect, p) ==> WithinFloorWindow(anchor, p)
    ensures WellFormed(floors) && InsideViewport(floors, anchor)
  {
    hide InShiftedRect, WithinFloorWindow, InRange, ViewportFloorRange;
    forall i, j | 0 <= i < |floors| && 0 <= j < |floors[i].tiles| ensures InView(anchor, floors[i].tiles[j].position) {
      assert GoodFloor(floors[i]);
      assert Levels(floors)[i] in FloorsOf(range);
    }
  }

  lemma RevealedDecode(s: seq<byte>, at: nat, types: Types, anchor: MapPosition, rect: Rect, range: FloorRange)
    requires GoodRange(range) && ReadFloors(s, at, types, anchor, rect, FloorsOf(range)).Ok?
    requires forall z :: range.step != 0 && InRange(range, z) ==> InRange(ViewportFloorRange(anchor.z), z)
    requires forall p :: InShiftedRect(anchor, rect, p) ==> WithinFloorWindow(anchor, p)
    ensures var floors := ReadFloors(s, at, types, anchor, rect, FloorsOf(range)).value;
      WellFormed(floors) && InsideViewport(floors, anchor)
  {
    hide InShiftedRect, WithinFloorWindow, InRange, ViewportFloorRange, ReadFloors, FloorsOf, WellFormed,
      InsideViewport, Geometry.Sound;
    OrderedAreDistinct(range);
    Geometry.DecodedFloorsAreSound(s, at, types, anchor, rect, FloorsOf(range));
    SoundIsInside(ReadFloors(s, at, types, anchor, rect, FloorsOf(range)).value, anchor, rect, range);
  }

  /** Whatever decodes, of whatever bytes, is an update the mirror's invariants allow for. */
  lemma DecodesSoundly(s: seq<byte>, at: nat, anchor: MapPosition, types: Types)
    requires Decode(s, at, anchor, types).Ok?
    ensures var step := Decode(s, at, anchor, types).value;
      Creatures.Decoded(step.update, step.next)
  {
    hide ReadFloors, WellFormed, InsideViewport, FloorsOf, DecodeStill;
    if at < |s| && Supported(s[at]) {
      if Moves(s[at]) {
        MovesSoundly(s, at + 1, anchor, s[at], types);
      } else {
        StillIsNoReveal(s, at + 1, s[at], types);
      }
    }
  }

  lemma MovesSoundly(s: seq<byte>, at: nat, anchor: MapPosition, opcode: byte, types: Types)
    requires Moves(opcode) && DecodeMoving(s, at, anchor, opcode, types).Ok?
    ensures var step := DecodeMoving(s, at, anchor, opcode, types).value;
      Creatures.Decoded(step.update, step.next)
  {
    hide ReadFloors, WellFormed, InsideViewport, FloorsOf, ReadPosition;
    if opcode == 100 {
      var player := ReadPosition(s, at);
      PositionFloor(s, at);
      RevealedDecode(s, player.at, types, player.value, FullRectangle(player.value),
        ViewportFloorRange(player.value.z));
    } else if opcode <= 104 {
      var direction := if opcode == 101 then North else if opcode == 102 then East else if opcode == 103 then South
        else West;
      var next := StepPosition(anchor, direction);
      assert ValidAnchor(next);
      RevealedDecode(s, at, types, next, RowRectangle(next, direction), ViewportFloorRange(next.z));
    } else {
      var next := FloorStep(anchor, opcode == 190);
      RevealedDecode(s, at, types, next, FullRectangle(next), FloorChangeRange(next.z, opcode == 190));
    }
  }

  lemma StillIsNoReveal(s: seq<byte>, at: nat, opcode: byte, types: Types)
    requires Supported(opcode) && !Moves(opcode) && DecodeStill(s, at, opcode, types).Ok?
    ensures var update := DecodeStill(s, at, opcode, types).value;
      !Runs.Reveals(update) && !update.InitGame?
  {
    hide Scan, ReadThing, ReadPosition, Text, ReadItem, ReadOutfit, ReadChange, ReadAttribute, ReadTalkTail,
      ReadStackIndex, U8, U16, U32;
  }

  lemma NextSoundly(s: seq<byte>, at: nat, anchor: MapPosition, types: Types)
    requires at < |s| && Next(s, at, anchor, types).Ok?
    ensures var step := Next(s, at, anchor, types).value;
      Creatures.Decoded(step.update, step.next)
  {
    hide Decode;
    if HandshakeAt(s[at], |s| - at) == NoHandshake { DecodesSoundly(s, at, anchor, types); }
  }

  lemma {:induction false} WalkDecodesSoundly(s: seq<byte>, at: nat, anchor: MapPosition, types: Types)
    requires at <= |s|
    ensures Runs.AllDecoded(WalkPayload(s, at, anchor, types).steps)
    decreases |s| - at
  {
    hide Next, Creatures.Decoded;
    if at < |s| && Next(s, at, anchor, types).Ok? && !Next(s, at, anchor, types).value.update.Unsupported? {
      var step := Next(s, at, anchor, types);
      NextAdvances(s, at, anchor, types);
      NextSoundly(s, at, anchor, types);
      WalkDecodesSoundly(s, step.at, step.value.next, types);
    }
  }

  /** No payload can break the mirror's shape: not a malformed one, not a hostile one. */
  lemma AnyPayloadKeepsShape(state: M.State, payload: seq<byte>, types: Types)
    requires WellFormed(state.floors)
    ensures WellFormed(Runs.StateAfter(state, WalkPayload(payload, 0, state.anchor, types).steps, types).floors)
  {
    hide WellFormed, WalkPayload;
    WalkDecodesSoundly(payload, 0, state.anchor, types);
    Runs.EveryRunKeepsShape(state, WalkPayload(payload, 0, state.anchor, types).steps, types);
  }

  // ---- the walk in place -------------------------------------------------------------------------

  lemma AnchorFollows(state: M.State, s: seq<byte>, at: nat, types: Types)
    requires Decode(s, at, state.anchor, types).Ok?
    ensures var step := Decode(s, at, state.anchor, types).value;
      M.Apply(state, step.update, step.next, types).state.anchor == step.next && !step.update.InitGame?
  {
    hide ReadFloors, DecodeStill, FloorsOf, ReadPosition, M.RecordFloors, M.RecordThings, M.RecordCreature,
      M.RefreshThings, StackAt, WriteField, MergeFloors, Prune, InsertIndex, M.WithChange;
    if at < |s| && Supported(s[at]) && !Moves(s[at]) && DecodeStill(s, at + 1, s[at], types).Ok? {
      StillIsNoReveal(s, at + 1, s[at], types);
    }
  }

  /** The receive loop: take a command of the handshake, or decode at the current viewport and
      apply; advance; stop at the first error or at a command of unknown length. */
  method ApplyPayload(
      state: WorldStates.WorldState, payload: seq<byte>, types: Types) returns (at: nat, outcome: Outcome)
    requires state.Valid()
    modifies state
    ensures var walked := WalkPayload(payload, 0, old(state.anchor), types);
      at == walked.at && outcome == walked.outcome
      && state.Snapshot() == Runs.StateAfter(old(state.Snapshot()), walked.steps, types)
    ensures state.Valid()
  {
    hide WalkPayload, WellFormed, Creatures.Decoded, Decode, M.Apply, Runs.Reveals;
    ghost var end := Runs.StateAfter(state.Snapshot(), WalkPayload(payload, 0, state.anchor, types).steps, types);
    ghost var whole := WalkPayload(payload, 0, state.anchor, types);
    at, outcome := 0, Complete;
    while at < |payload|
      invariant at <= |payload| && state.Valid()
      invariant var rest := WalkPayload(payload, at, state.anchor, types);
        rest.at == whole.at && rest.outcome == whole.outcome
        && Runs.StateAfter(state.Snapshot(), rest.steps, types) == end
      invariant outcome == Complete
      decreases |payload| - at
    {
      WalkStep(payload, at, state.anchor, types);
      var handshake := HandshakeAt(payload[at], |payload| - at);
      if handshake == Cut {
        outcome := Residual;
        return;
      }
      if handshake == Started {
        ApplyHandshake(state.Snapshot(), InitGame(U32(payload, at + 1).value), types);
        state.localCreature := U32(payload, at + 1).value;
        at := at + INIT_GAME_LENGTH;
        continue;
      }
      if handshake == Entitled {
        ApplyHandshake(state.Snapshot(), Rights(payload[at + 1..at + RIGHTS_LENGTH]), types);
        at := at + RIGHTS_LENGTH;
        continue;
      }
      var decoded := Decoders.DecodeServerUpdate(payload, at, state.anchor, types);
      if decoded.Fail? {
        outcome := Broken(decoded.error);
        return;
      }
      if decoded.value.update.Unsupported? {
        outcome := Residual;
        return;
      }
      NextAdvances(payload, at, state.anchor, types);
      DecodesSoundly(payload, at, state.anchor, types);
      AnchorFollows(state.Snapshot(), payload, at, types);
      Runs.UpdateKeepsShape(state.Snapshot(), decoded.value.update, decoded.value.next, types);
      var anomalies := state.ApplyServerUpdate(decoded.value.update, decoded.value.next, types);
      at := decoded.at;
    }
    WalkStep(payload, at, state.anchor, types);
  }

  lemma ApplyHandshake(state: M.State, update: ServerUpdate, types: Types)
    requires update.InitGame? || update.Rights?
    ensures M.Apply(state, update, state.anchor, types).state
      == if update.InitGame? then state.(localCreature := update.creature) else state
  {
  }

  predicate Continues(walked: Walked, step: Stepped, rest: Walked) {
    walked.at == rest.at && walked.outcome == rest.outcome && walked.steps != [] && walked.steps[0] == step
    && walked.steps[1..] == rest.steps
  }

  lemma WalkStep(s: seq<byte>, at: nat, anchor: MapPosition, types: Types)
    requires at <= |s|
    ensures at == |s| ==> WalkPayload(s, at, anchor, types) == Walked([], at, Complete)
    ensures at < |s| ==>
      match Next(s, at, anchor, types)
      case Fail(error) => WalkPayload(s, at, anchor, types) == Walked([], at, Broken(error))
      case Ok(step, next) =>
        && (step.update.Unsupported? ==> WalkPayload(s, at, anchor, types) == Walked([], at, Residual))
        && (!step.update.Unsupported? ==>
             next <= |s| && Continues(WalkPayload(s, at, anchor, types), step, WalkPayload(s, next, step.next, types)))
  {
    hide Next;
    if at < |s| && Next(s, at, anchor, types).Ok? && !Next(s, at, anchor, types).value.update.Unsupported? {
      NextAdvances(s, at, anchor, types);
    }
  }
}
