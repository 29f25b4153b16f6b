/** The whole way: events, commands, ring, packets, frames, cipher, walk, mirror. */
module WholeWay {
  import opened World
  import opened Viewport
  import opened ObjectTypes
  import opened Updates
  import opened Snapshot
  import opened EndToEnd
  import opened Delivery
  import Payload
  import Runs
  import F = Framing
  import X = Xtea
  import M = Mirror
  import C = Commands
  import CommandCodec
  import ServerOutput

  // ---- the commands of a run, one by one ----------------------------------------------------------

  ghost function Encodings(commands: seq<Sent>, anchor: MapPosition, types: Types): (encodings: seq<seq<byte>>)
    requires AllGood(commands, anchor, types)
    ensures |encodings| == |commands|
    decreases |commands|
  {
    if commands == [] then []
    else [Encode(commands[0], anchor, types)] + Encodings(commands[1..], NextAnchor(commands[0], anchor), types)
  }

  lemma {:induction false} EncodingsJoin(commands: seq<Sent>, anchor: MapPosition, types: Types)
    requires AllGood(commands, anchor, types)
    ensures Joined(Encodings(commands, anchor, types)) == EncodeAll(commands, anchor, types)
    decreases |commands|
  {
    hide Encode, GoodSent, NextAnchor, Joined;
    JoinedOne([]);
    if commands != [] {
      var next := NextAnchor(commands[0], anchor);
      EncodingsJoin(commands[1..], next, types);
      JoinedOne(Encode(commands[0], anchor, types));
      JoinedAdds([Encode(commands[0], anchor, types)], Encodings(commands[1..], next, types));
    }
  }

  /** The commands the server sends about a run. */
  ghost function Said(anchor: MapPosition, world: Terrain, reports: seq<Report>, types: Types): (said: seq<seq<byte>>)
    requires Broadcast(anchor, world, reports, types)
    ensures |said| == |CommandsOf(reports)|
  {
    ReportsAreSendable(anchor, world, reports, types);
    Encodings(CommandsOf(reports), anchor, types)
  }

  /** A run, cut after its first `n` commands and whatever follows them unannounced. */
  ghost predicate CutAt(anchor: MapPosition, world: Terrain, reports: seq<Report>, types: Types, n: nat, m: nat)
    requires Broadcast(anchor, world, reports, types)
  {
    && n <= |CommandsOf(reports)| && m <= |reports|
    && (n == |CommandsOf(reports)| ==> m == |reports|)
    && Broadcast(anchor, world, reports[..m], types)
    && var anchor', world' := AnchorAfterAll(anchor, reports[..m]), WorldAfterAll(anchor, world, reports[..m], types);
       && Broadcast(anchor', world', reports[m..], types)
       && Said(anchor, world, reports[..m], types) == Said(anchor, world, reports, types)[..n]
       && Said(anchor', world', reports[m..], types) == Said(anchor, world, reports, types)[n..]
  }

  lemma {:induction false} Cut(
      anchor: MapPosition, world: Terrain, reports: seq<Report>, types: Types, n: nat) returns (m: nat)
    requires Broadcast(anchor, world, reports, types) && n <= |CommandsOf(reports)|
    ensures CutAt(anchor, world, reports, types, n, m)
    decreases |reports|
  {
    hide Truthful, Trackable, GoodSent, Possible, WorldAfter, AnchorAfter, CutAt, Said;
    if reports == [] || (n == 0 && reports[0].sent.Some?) {
      CutAtStart(anchor, world, reports, types);
      return 0;
    }
    var n1 := if reports[0].sent.Some? then n - 1 else n;
    m := Cut(AnchorAfter(anchor, reports[0].event), WorldAfter(world, reports[0].event, types), reports[1..], types,
      n1);
    CutLater(anchor, world, reports, types, n1, m);
    m := m + 1;
  }

  lemma CutAtStart(anchor: MapPosition, world: Terrain, reports: seq<Report>, types: Types)
    requires Broadcast(anchor, world, reports, types) && (reports == [] || reports[0].sent.Some?)
    ensures CutAt(anchor, world, reports, types, 0, 0)
  {
    hide Truthful, Trackable, GoodSent, Possible, WorldAfter, AnchorAfter, Said;
    assert reports[..0] == [] && reports[0..] == reports;
  }

  lemma CutLater(anchor: MapPosition, world: Terrain, reports: seq<Report>, types: Types, n: nat, m: nat)
    requires Broadcast(anchor, world, reports, types) && reports != []
    requires CutAt(AnchorAfter(anchor, reports[0].event), WorldAfter(world, reports[0].event, types), reports[1..],
      types, n, m)
    ensures CutAt(anchor, world, reports, types, if reports[0].sent.Some? then n + 1 else n, m + 1)
  {
    hide Truthful, Trackable, GoodSent, Possible, WorldAfter, AnchorAfter, Encode, Said;
    assert reports[..m + 1][1..] == reports[1..][..m] && reports[m + 1..] == reports[1..][m..];
    SaidFirst(anchor, world, reports, types);
    SaidFirst(anchor, world, reports[..m + 1], types);
  }

  /** What is said about a run begins with what is said about its first event. */
  lemma SaidFirst(anchor: MapPosition, world: Terrain, reports: seq<Report>, types: Types)
    requires Broadcast(anchor, world, reports, types) && reports != []
    ensures var anchor1, world1 := AnchorAfter(anchor, reports[0].event), WorldAfter(world, reports[0].event, types);
      Said(anchor, world, reports, types)
        == (if reports[0].sent.Some? then [Encode(reports[0].sent.value, anchor, types)] else [])
           + Said(anchor1, world1, reports[1..], types)
  {
    hide Trackable, Possible, WorldAfter, Encode, Truthful, GoodSent, NextAnchor, AnchorAfter;
    TruthfulAnnounces(reports[0], anchor, world, types);
    ReportsAreSendable(anchor, world, reports, types);
    var commands := CommandsOf(reports);
    if reports[0].sent.Some? {
      assert commands[0] == reports[0].sent.value && commands[1..] == CommandsOf(reports[1..]);
    } else {
      assert commands == CommandsOf(reports[1..]);
    }
  }

  /** Two runs, one after the other, are one. */
  lemma {:induction false} RunsJoin(
      anchor: MapPosition, world: Terrain, first: seq<Report>, later: seq<Report>, types: Types)
    requires Broadcast(anchor, world, first, types)
    requires Broadcast(AnchorAfterAll(anchor, first), WorldAfterAll(anchor, world, first, types), later, types)
    ensures Broadcast(anchor, world, first + later, types)
    ensures WorldAfterAll(anchor, world, first + later, types)
      == WorldAfterAll(AnchorAfterAll(anchor, first), WorldAfterAll(anchor, world, first, types), later, types)
    decreases |first|
  {
    hide Truthful, Trackable, GoodSent, Possible, WorldAfter, AnchorAfter;
    if first == [] {
      assert first + later == later;
    } else {
      RunsJoin(AnchorAfter(anchor, first[0].event), WorldAfter(world, first[0].event, types), first[1..], later, types);
      assert (first + later)[1..] == first[1..] + later;
    }
  }

  // ---- what the client makes of the packets ---------------------------------------------------------

  /** One packet after the other: decrypt, walk, apply; nothing if one cannot be opened or read
      to its end. */
  function ReceivePackets(state: M.State, key: X.Key, frames: seq<seq<byte>>, types: Types): Option<M.State>
    decreases |frames|
  {
    if frames == [] then Some(state)
    else
      var got := X.Open(true, key, frames[0]);
      var walked := Payload.WalkPayload(got.message, 0, state.anchor, types);
      if got.error != X.NoError || walked.outcome != Payload.Complete then None
      else ReceivePackets(Runs.StateAfter(state, walked.steps, types), key, frames[1..], types)
  }

  predicate FrameOpens(key: X.Key, frame: seq<byte>, packet: seq<seq<byte>>) {
    X.Open(true, key, frame).error == X.NoError && X.Open(true, key, frame).message == Joined(packet)
  }

  /** Frame `i` opens to packet `i`. */
  ghost predicate Opens(key: X.Key, frames: seq<seq<byte>>, packets: seq<seq<seq<byte>>>) {
    |frames| == |packets| && forall i :: 0 <= i < |frames| ==> FrameOpens(key, frames[i], packets[i])
  }

  /** The commands of the packets, in order, and then the others. */
  function Spoken(packets: seq<seq<seq<byte>>>, rest: seq<seq<byte>>): seq<seq<byte>> {
    if packets == [] then rest else packets[0] + Spoken(packets[1..], rest)
  }

  lemma {:induction false} SpokenIsFlattened(packets: seq<seq<seq<byte>>>, rest: seq<seq<byte>>)
    ensures Spoken(packets, rest) == Flattened(packets) + rest
    decreases |packets|
  {
    if packets != [] {
      var n := |packets| - 1;
      SpokenIsFlattened(packets[..n], packets[n] + rest);
      SpokenLast(packets, rest);
      assert Flattened(packets[..n]) + (packets[n] + rest) == (Flattened(packets[..n]) + packets[n]) + rest;
    }
  }

  lemma {:induction false} SpokenLast(packets: seq<seq<seq<byte>>>, rest: seq<seq<byte>>)
    requires packets != []
    ensures Spoken(packets, rest) == Spoken(packets[..|packets| - 1], packets[|packets| - 1] + rest)
    decreases |packets|
  {
    if |packets| > 1 {
      SpokenLast(packets[1..], rest);
      assert packets[1..][..|packets| - 2] == packets[..|packets| - 1][1..];
    }
  }

  /** Packets that speak of the beginning of a run leave the mirror of the world as it is
      there. */
  lemma {:induction false} PacketsKeepMirror(
      state: M.State, world: Terrain, reports: seq<Report>, key: X.Key, frames: seq<seq<byte>>,
      packets: seq<seq<seq<byte>>>, rest: seq<seq<byte>>, types: Types) returns (m: nat)
    requires !C.EmptyTable(types) && Mirrors(state.floors, state.anchor, world)
    requires Broadcast(state.anchor, world, reports, types)
    requires Opens(key, frames, packets) && Said(state.anchor, world, reports, types) == Spoken(packets, rest)
    ensures m <= |reports| && Broadcast(state.anchor, world, reports[..m], types) && (rest == [] ==> m == |reports|)
    ensures var client := ReceivePackets(state, key, frames, types);
      client.Some? && Mirrors(client.value.floors, client.value.anchor,
        WorldAfterAll(state.anchor, world, reports[..m], types))
    decreases |packets|
  {
    hide Mirrors, Broadcast, CommandsOf, Payload.WalkPayload, Runs.StateAfter, Said, Joined, C.EmptyTable,
      WorldAfterAll, AnchorAfterAll, X.Open;
    if packets == [] {
      m := PacketKeepsMirror(state, world, reports, [], types);
      NoPacket(state, types);
    } else {
      m := PacketKeepsMirror(state, world, reports, packets[0], types);
      var after := Runs.StateAfter(state, Payload.WalkPayload(Joined(packets[0]), 0, state.anchor, types).steps, types);
      var between := WorldAfterAll(state.anchor, world, reports[..m], types);
      var m' := PacketsKeepMirror(after, between, reports[m..], key, frames[1..], packets[1..], rest, types);
      RunsJoin(state.anchor, world, reports[..m], reports[m..][..m'], types);
      assert reports[..m] + reports[m..][..m'] == reports[..m + m'];
      m := m + m';
    }
  }

  lemma NoPacket(state: M.State, types: Types)
    ensures Joined([]) == []
    ensures Runs.StateAfter(state, Payload.WalkPayload([], 0, state.anchor, types).steps, types) == state
  {
  }

  /** A packet with the first commands of a run walks to its end, and leaves the mirror of the
      world as it is after them. */
  lemma PacketKeepsMirror(
      state: M.State, world: Terrain, reports: seq<Report>, packet: seq<seq<byte>>, types: Types) returns (m: nat)
    requires !C.EmptyTable(types) && Mirrors(state.floors, state.anchor, world)
    requires Broadcast(state.anchor, world, reports, types)
    requires packet <= Said(state.anchor, world, reports, types)
    ensures m <= |reports| && Broadcast(state.anchor, world, reports[..m], types)
    ensures packet == Said(state.anchor, world, reports, types) ==> m == |reports|
    ensures var walked := Payload.WalkPayload(Joined(packet), 0, state.anchor, types);
      var after, between := Runs.StateAfter(state, walked.steps, types),
        WorldAfterAll(state.anchor, world, reports[..m], types);
      && walked.outcome == Payload.Complete
      && Mirrors(after.floors, after.anchor, between) && after.anchor == AnchorAfterAll(state.anchor, reports[..m])
      && Broadcast(after.anchor, between, reports[m..], types)
      && Said(after.anchor, between, reports[m..], types) == Said(state.anchor, world, reports, types)[|packet|..]
  {
    hide Mirrors, Broadcast, CommandsOf, Payload.WalkPayload, Runs.StateAfter, Said, Joined, C.EmptyTable,
      WorldAfterAll, AnchorAfterAll, CutAt, Transmitted;
    assert packet == Said(state.anchor, world, reports, types)[..|packet|];
    m := Cut(state.anchor, world, reports, types, |packet|);
    CutMeans(state.anchor, world, reports, types, |packet|, m);
    BytesKeepMirror(state, world, reports[..m], types);
    TransmittedIsSaid(state.anchor, world, reports[..m], types);
  }

  lemma CutMeans(anchor: MapPosition, world: Terrain, reports: seq<Report>, types: Types, n: nat, m: nat)
    requires Broadcast(anchor, world, reports, types) && CutAt(anchor, world, reports, types, n, m)
    ensures n <= |CommandsOf(reports)| == |Said(anchor, world, reports, types)| && m <= |reports|
    ensures n == |CommandsOf(reports)| ==> m == |reports|
    ensures Broadcast(anchor, world, reports[..m], types)
    ensures var anchor', world' := AnchorAfterAll(anchor, reports[..m]),
      WorldAfterAll(anchor, world, reports[..m], types);
      && Broadcast(anchor', world', reports[m..], types)
      && Said(anchor, world, reports[..m], types) == Said(anchor, world, reports, types)[..n]
      && Said(anchor', world', reports[m..], types) == Said(anchor, world, reports, types)[n..]
  {
    hide Broadcast, Said, WorldAfterAll, AnchorAfterAll, CommandsOf;
  }

  lemma TransmittedIsSaid(anchor: MapPosition, world: Terrain, reports: seq<Report>, types: Types)
    requires Broadcast(anchor, world, reports, types)
    ensures Transmitted(anchor, world, reports, types) == Joined(Said(anchor, world, reports, types))
  {
    hide Broadcast, EncodeAll, Encodings, Joined, AllGood;
    ReportsAreSendable(anchor, world, reports, types);
    EncodingsJoin(CommandsOf(reports), anchor, types);
  }

  // ---- from the first thread to the mirror -----------------------------------------------------------

  /** The packets of a pipe as they are put on the wire, each with its padding. */
  function SendingsOf(slices: seq<seq<byte>>, paddings: seq<seq<byte>>): (sendings: seq<Sending>)
    requires |slices| == |paddings|
  {
    seq(|slices|, i requires 0 <= i < |slices| => Sending(slices[i], paddings[i]))
  }

  /** Let the game thread commit the commands about a run, none of which overflowed, interleaved
      in any way with a connection thread that sends what is committed; let the packets be
      padded and encrypted, and cut in any way in transit. Then the client decrypts and reads
      all of them to their ends if and only if none is empty, and its mirror is that of the world
      at a moment of the run: at its end, when nothing waits to be sent. */
  lemma EveryPacketKeepsMirror(
      state: M.State, world: Terrain, reports: seq<Report>, steps: seq<Step>, key: X.Key, paddings: seq<seq<byte>>,
      chunks: seq<seq<byte>>, types: Types) returns (m: nat)
    requires !C.EmptyTable(types) && Mirrors(state.floors, state.anchor, world)
    requires Broadcast(state.anchor, world, reports, types)
    requires After(EMPTY_PIPE, steps).log == Said(state.anchor, world, reports, types)
    requires var slices := After(EMPTY_PIPE, steps).slices;
      && |paddings| == |slices| && GoodSendings(SendingsOf(slices, paddings))
      && F.Concat(chunks) == Wire(key, SendingsOf(slices, paddings))
    ensures m <= |reports| && Broadcast(state.anchor, world, reports[..m], types)
    ensures var pipe, received := After(EMPTY_PIPE, steps), F.FedAll([], chunks, ServerOutput.CLIENT_LIMIT);
      && received.error == F.NoError && received.buffer == []
      && var client := ReceivePackets(state, key, received.frames, types);
         && (client.Some? <==> [] !in pipe.slices)
         && (client.Some? ==>
           Mirrors(client.value.floors, client.value.anchor,
             WorldAfterAll(state.anchor, world, reports[..m], types)))
         && (client.Some? && pipe.committed == [] ==> m == |reports|)
  {
    hide Mirrors, Broadcast, Said, C.EmptyTable, WorldAfterAll, X.Open, F.FedAll, Wire, F.Concat, ReceivePackets, After,
      Joined, Flattened, Spoken, Payloads;
    var pipe := After(EMPTY_PIPE, steps);
    if i :| 0 <= i < |pipe.slices| && pipe.slices[i] == [] {
      ClientReceivesFrames(key, SendingsOf(pipe.slices, paddings), chunks);
      ClientReceivesSlices(key, SendingsOf(pipe.slices, paddings), chunks, i);
      OneRefusedEndsAll(state, key, F.FedAll([], chunks, ServerOutput.CLIENT_LIMIT).frames, types, i);
      m := 0;
      assert Broadcast(state.anchor, world, reports[..0], types) by { NothingIsBroadcast(state.anchor, world, types); }
      return;
    }
    var spread := NothingIsTorn(steps);
    var rest := spread.held + spread.waiting;
    var frames := F.FedAll([], chunks, ServerOutput.CLIENT_LIMIT).frames;
    SpokenIsFlattened(spread.packets, rest);
    FramesOpen(pipe.slices, paddings, key, chunks, spread.packets);
    m := PacketsKeepMirror(state, world, reports, key, frames, spread.packets, rest, types);
    NothingSaidIsEmpty(state.anchor, world, reports, types);
    if rest != [] { SomethingJoined(rest); }
  }

  lemma NothingIsBroadcast(anchor: MapPosition, world: Terrain, types: Types)
    ensures Broadcast(anchor, world, [], types)
  {
  }

  lemma {:induction false} OneRefusedEndsAll(state: M.State, key: X.Key, frames: seq<seq<byte>>, types: Types, i: nat)
    requires i < |frames| && X.Open(true, key, frames[i]).error != X.NoError
    ensures ReceivePackets(state, key, frames, types) == None
    decreases i
  {
    hide X.Open, Payload.WalkPayload;
    if i > 0 && X.Open(true, key, frames[0]).error == X.NoError {
      var walked := Payload.WalkPayload(X.Open(true, key, frames[0]).message, 0, state.anchor, types);
      OneRefusedEndsAll(Runs.StateAfter(state, walked.steps, types), key, frames[1..], types, i - 1);
    }
  }

  /** With the test that the sender does not make, nothing is ever refused. */
  lemma NeverIdleIsEnough(
      state: M.State, world: Terrain, reports: seq<Report>, steps: seq<Step>, key: X.Key, paddings: seq<seq<byte>>,
      chunks: seq<seq<byte>>, types: Types)
    requires !C.EmptyTable(types) && Mirrors(state.floors, state.anchor, world)
    requires Broadcast(state.anchor, world, reports, types)
    requires After(EMPTY_PIPE, steps).log == Said(state.anchor, world, reports, types)
    requires var slices := After(EMPTY_PIPE, steps).slices;
      && |paddings| == |slices| && GoodSendings(SendingsOf(slices, paddings))
      && F.Concat(chunks) == Wire(key, SendingsOf(slices, paddings))
    requires NeverIdle(EMPTY_PIPE, steps)
    ensures ReceivePackets(state, key, F.FedAll([], chunks, ServerOutput.CLIENT_LIMIT).frames, types).Some?
  {
    hide Mirrors, Broadcast, Said, C.EmptyTable, F.FedAll, Wire, F.Concat, ReceivePackets, After, NeverIdle;
    EmptyPacketsExactly(steps);
    var m := EveryPacketKeepsMirror(state, world, reports, steps, key, paddings, chunks, types);
  }

  /** Without it: the server says `Ping`, is woken twice, and the client refuses the second
      packet, whatever the key, the padding and the cuts. */
  lemma SecondWakeUpIsRefused(
      state: M.State, world: Terrain, key: X.Key, paddings: seq<seq<byte>>, chunks: seq<seq<byte>>, types: Types)
    requires !C.EmptyTable(types) && Mirrors(state.floors, state.anchor, world) && |paddings| == 2
    requires GoodSendings(SendingsOf([[30], []], paddings))
    requires F.Concat(chunks) == Wire(key, SendingsOf([[30], []], paddings))
    ensures var pipe := After(EMPTY_PIPE, SecondWakeUp([30]));
      && pipe.slices == [[30], []] && pipe.committed == []
      && var received := F.FedAll([], chunks, ServerOutput.CLIENT_LIMIT);
         |received.frames| == 2 && ReceivePackets(state, key, received.frames, types) == None
  {
    hide Mirrors, C.EmptyTable, F.FedAll, Wire, F.Concat, ReceivePackets, After, Broadcast, Said, Payloads;
    MirrorsParts(state.floors, state.anchor, world);
    SecondWakeUpSendsNothing([30]);
    PingIsSaid(state.anchor, world, types);
    ClientReceivesFrames(key, SendingsOf([[30], []], paddings), chunks);
    var m := EveryPacketKeepsMirror(
      state, world, [Report(Aside, Some(Sent.Plain(Ping)))], SecondWakeUp([30]), key, paddings, chunks, types);
    assert [[30], []][1] == [];
  }

  lemma PingIsSaid(anchor: MapPosition, world: Terrain, types: Types)
    requires ValidAnchor(anchor)
    ensures var reports := [Report(Aside, Some(Sent.Plain(Ping)))];
      Broadcast(anchor, world, reports, types) && Said(anchor, world, reports, types) == [[30]]
  {
    var reports := [Report(Aside, Some(Sent.Plain(Ping)))];
    assert reports[1..] == [];
    assert Said(anchor, world, [], types) == [];
    PingIsOneByte(anchor, types);
    SaidFirst(anchor, world, reports, types);
  }

  lemma PingIsOneByte(anchor: MapPosition, types: Types)
    ensures GoodSent(Sent.Plain(Ping), anchor, types) && Encode(Sent.Plain(Ping), anchor, types) == [30]
  {
  }

  lemma FramesOpen(
      slices: seq<seq<byte>>, paddings: seq<seq<byte>>, key: X.Key, chunks: seq<seq<byte>>,
      packets: seq<seq<seq<byte>>>)
    requires |paddings| == |slices| == |packets| && GoodSendings(SendingsOf(slices, paddings))
    requires F.Concat(chunks) == Wire(key, SendingsOf(slices, paddings)) && [] !in slices
    requires forall i :: 0 <= i < |slices| ==> slices[i] == Joined(packets[i])
    ensures var received := F.FedAll([], chunks, ServerOutput.CLIENT_LIMIT);
      received.error == F.NoError && received.buffer == [] && Opens(key, received.frames, packets)
  {
    hide Joined, X.Open, F.FedAll, Wire, F.Concat, Payloads;
    ClientReceivesFrames(key, SendingsOf(slices, paddings), chunks);
    forall i | 0 <= i < |packets| ensures FrameOpens(key, F.FedAll([], chunks, ServerOutput.CLIENT_LIMIT).frames[i],
      packets[i]) {
      assert slices[i] in slices;
      ClientReceivesSlices(key, SendingsOf(slices, paddings), chunks, i);
    }
  }

  lemma SomethingJoined(parts: seq<seq<byte>>)
    requires parts != [] && [] !in parts
    ensures Joined(parts) != []
  {
    assert parts[|parts| - 1] in parts;
  }

  lemma NothingSaidIsEmpty(anchor: MapPosition, world: Terrain, reports: seq<Report>, types: Types)
    requires Broadcast(anchor, world, reports, types)
    ensures [] !in Said(anchor, world, reports, types)
  {
    hide Broadcast, Encodings;
    ReportsAreSendable(anchor, world, reports, types);
    NoEncodingIsEmpty(CommandsOf(reports), anchor, types);
  }

  lemma {:induction false} NoEncodingIsEmpty(commands: seq<Sent>, anchor: MapPosition, types: Types)
    requires AllGood(commands, anchor, types)
    ensures [] !in Encodings(commands, anchor, types)
    decreases |commands|
  {
    hide Encode, GoodSent, NextAnchor;
    if commands != [] {
      EncodingIsSomething(commands[0], anchor, types);
      NoEncodingIsEmpty(commands[1..], NextAnchor(commands[0], anchor), types);
    }
  }

  lemma EncodingIsSomething(sent: Sent, anchor: MapPosition, types: Types)
    requires GoodSent(sent, anchor, types)
    ensures Encode(sent, anchor, types) != []
  {
    hide SendRegion, CommandCodec.SendBody, CommandCodec.GoodUpdate;
  }
}
