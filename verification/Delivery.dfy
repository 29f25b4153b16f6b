/** From the ring to the client: in any interleaving of building and sending, packets hold whole
    commands, and the client's frame decoder and cipher give back what is in them. */
module Delivery {
  import opened World
  import opened MapCodec
  import F = Framing
  import X = Xtea
  import opened ServerOutput

  // ---- the game thread and the connection thread -------------------------------------------------

  /** One step of the game thread, building commands, or of the connection thread, which
      gathers what is committed and later has sent it; meanwhile more may be committed. */
  datatype Step = Begin | Put(bytes: seq<byte>) | Finish | Gather | Deliver

  /** `slices` are the packets sent so far and `gathered` the size of the one being sent, `wanted`
      is everything the current command tried to put, and `log` the commands that were
      committed; the rest is what the connection holds. */
  datatype Pipe = Pipe(
    slices: seq<seq<byte>>, gathered: Option<nat>, committed: seq<byte>, written: seq<byte>, overflow: bool,
    begun: bool, wanted: seq<byte>, log: seq<seq<byte>>)

  const EMPTY_PIPE := Pipe([], None, [], [], false, false, [], [])

  function Stepped(pipe: Pipe, step: Step): Pipe {
    match step
    case Begin =>
      if |pipe.committed| < OUT_DATA_SIZE then pipe.(written := [], overflow := false, begun := true, wanted := [])
      else pipe.(begun := false)
    case Put(bytes) =>
      if !pipe.begun then pipe
      else if |pipe.committed| + |pipe.written| + |bytes| <= OUT_DATA_SIZE
      then pipe.(written := pipe.written + bytes, wanted := pipe.wanted + bytes)
      else pipe.(overflow := true, wanted := pipe.wanted + bytes)
    case Finish =>
      if !pipe.begun then pipe
      else if pipe.overflow then pipe.(begun := false)
      else pipe.(committed := pipe.committed + pipe.written, written := [], begun := false,
        log := pipe.log + [pipe.wanted])
    case Gather => if pipe.gathered.Some? then pipe else pipe.(gathered := Some(|pipe.committed|))
    case Deliver =>
      if pipe.gathered.None? || pipe.gathered.value > |pipe.committed| then pipe
      else pipe.(slices := pipe.slices + [pipe.committed[..pipe.gathered.value]],
                 committed := pipe.committed[pipe.gathered.value..], gathered := None)
  }

  function After(pipe: Pipe, steps: seq<Step>): Pipe
    decreases |steps|
  {
    if steps == [] then pipe else After(Stepped(pipe, steps[0]), steps[1..])
  }

  function Joined(parts: seq<seq<byte>>): seq<byte> {
    if parts == [] then [] else Joined(parts[..|parts| - 1]) + parts[|parts| - 1]
  }

  lemma {:induction false} JoinedAdds(a: seq<seq<byte>>, b: seq<seq<byte>>)
    ensures Joined(a + b) == Joined(a) + Joined(b)
    decreases |b|
  {
    if b == [] {
      assert a + b == a;
    } else {
      JoinedAdds(a, b[..|b| - 1]);
      assert (a + b)[..|a + b| - 1] == a + b[..|b| - 1];
    }
  }

  /** How the commands in the log are spread: those of each packet sent, those of the one being
      sent, and those still waiting. */
  datatype Spread = Spread(packets: seq<seq<seq<byte>>>, held: seq<seq<byte>>, waiting: seq<seq<byte>>)

  function Flattened(packets: seq<seq<seq<byte>>>): seq<seq<byte>> {
    if packets == [] then [] else Flattened(packets[..|packets| - 1]) + packets[|packets| - 1]
  }

  /** Every slice is a list of whole commands, and so are what is being sent and what waits. */
  ghost predicate WholeCommands(pipe: Pipe, spread: Spread) {
    && pipe.log == Flattened(spread.packets) + spread.held + spread.waiting
    && |pipe.slices| == |spread.packets|
    && (forall i :: 0 <= i < |pipe.slices| ==>
      pipe.slices[i] == Joined(spread.packets[i]) && |pipe.slices[i]| <= OUT_DATA_SIZE)
    && pipe.committed == Joined(spread.held) + Joined(spread.waiting)
    && (if pipe.gathered.Some? then pipe.gathered.value == |Joined(spread.held)| else spread.held == [])
    && (pipe.begun && !pipe.overflow ==> pipe.written == pipe.wanted)
    && |pipe.committed| + |pipe.written| <= OUT_DATA_SIZE
  }

  function SpreadAfter(pipe: Pipe, spread: Spread, step: Step): Spread {
    match step
    case Finish => if pipe.begun && !pipe.overflow then spread.(waiting := spread.waiting + [pipe.wanted]) else spread
    case Gather => if pipe.gathered.Some? then spread else spread.(held := spread.waiting, waiting := [])
    case Deliver =>
      if pipe.gathered.None? then spread else spread.(packets := spread.packets + [spread.held], held := [])
    case _ => spread
  }

  lemma StepKeepsWholeCommands(pipe: Pipe, spread: Spread, step: Step)
    requires WholeCommands(pipe, spread)
    ensures WholeCommands(Stepped(pipe, step), SpreadAfter(pipe, spread, step))
  {
    match step {
      case Finish => if pipe.begun && !pipe.overflow { FinishKeeps(pipe, spread); }
      case Gather => if pipe.gathered.None? { assert spread.held + spread.waiting == spread.waiting + []; }
      case Deliver => if pipe.gathered.Some? { DeliverKeeps(pipe, spread); }
      case _ =>
    }
  }

  lemma FinishKeeps(pipe: Pipe, spread: Spread)
    requires WholeCommands(pipe, spread) && pipe.begun && !pipe.overflow
    ensures WholeCommands(Stepped(pipe, Finish), SpreadAfter(pipe, spread, Finish))
  {
    hide Joined, Flattened;
    JoinedAdds(spread.waiting, [pipe.wanted]);
    JoinedOne(pipe.wanted);
    assert (Joined(spread.held) + Joined(spread.waiting)) + pipe.wanted
      == Joined(spread.held) + (Joined(spread.waiting) + pipe.wanted);
  }

  lemma JoinedOne(command: seq<byte>)
    ensures Joined([command]) == command && Joined([]) == []
  {
    assert [command][..0] == [];
  }

  lemma DeliverKeeps(pipe: Pipe, spread: Spread)
    requires WholeCommands(pipe, spread) && pipe.gathered.Some?
    ensures WholeCommands(Stepped(pipe, Deliver), SpreadAfter(pipe, spread, Deliver))
  {
    hide Joined;
    JoinedOne([]);
    var packets := spread.packets + [spread.held];
    assert packets[..|packets| - 1] == spread.packets;
    assert pipe.committed[..pipe.gathered.value] == Joined(spread.held);
    assert pipe.committed[pipe.gathered.value..] == Joined(spread.waiting);
    assert Flattened(packets) + [] + spread.waiting == pipe.log;
  }

  lemma {:induction false} StepsKeepWholeCommands(pipe: Pipe, spread: Spread, steps: seq<Step>) returns (after: Spread)
    requires WholeCommands(pipe, spread)
    ensures WholeCommands(After(pipe, steps), after)
    decreases |steps|
  {
    hide WholeCommands, Stepped, SpreadAfter;
    if steps == [] { return spread; }
    StepKeepsWholeCommands(pipe, spread, steps[0]);
    after := StepsKeepWholeCommands(Stepped(pipe, steps[0]), SpreadAfter(pipe, spread, steps[0]), steps[1..]);
  }

  /** In every interleaving of building and sending: each packet is a list of whole commands, a
      command that overflowed is in none of them, every other one is in exactly one or still
      waits, and all are in order. */
  lemma NothingIsTorn(steps: seq<Step>) returns (spread: Spread)
    ensures var pipe := After(EMPTY_PIPE, steps);
      && pipe.log == Flattened(spread.packets) + (spread.held + spread.waiting)
      && |pipe.slices| == |spread.packets|
      && (forall i :: 0 <= i < |pipe.slices| ==>
        pipe.slices[i] == Joined(spread.packets[i]) && |pipe.slices[i]| <= OUT_DATA_SIZE)
      && pipe.committed == Joined(spread.held + spread.waiting)
  {
    hide After;
    spread := StepsKeepWholeCommands(EMPTY_PIPE, Spread([], [], []), steps);
    JoinedAdds(spread.held, spread.waiting);
  }

  // ---- packets with nothing in them ------------------------------------------------------------------

  /** Whenever the connection thread gathers, there is something to gather: the test the sender
      does not make. */
  predicate NeverIdle(pipe: Pipe, steps: seq<Step>)
    decreases |steps|
  {
    steps == []
    || ((steps[0].Gather? && pipe.gathered.None? ==> pipe.committed != [])
        && NeverIdle(Stepped(pipe, steps[0]), steps[1..]))
  }

  /** No packet that was sent or is being sent is empty. */
  predicate NoneEmpty(pipe: Pipe) {
    [] !in pipe.slices && pipe.gathered != Some(0)
  }

  lemma StepIsIdle(pipe: Pipe, step: Step)
    requires pipe.gathered.Some? ==> pipe.gathered.value <= |pipe.committed|
    ensures var after := Stepped(pipe, step);
      && (after.gathered.Some? ==> after.gathered.value <= |after.committed|)
      && (NoneEmpty(after) <==> NoneEmpty(pipe) && (step.Gather? && pipe.gathered.None? ==> pipe.committed != []))
  {
    if step.Deliver? && pipe.gathered.Some? {
      var slice := pipe.committed[..pipe.gathered.value];
      assert [] in pipe.slices + [slice] <==> [] in pipe.slices || slice == [];
    }
  }

  lemma {:induction false} IdleStepsShow(pipe: Pipe, steps: seq<Step>)
    requires pipe.gathered.Some? ==> pipe.gathered.value <= |pipe.committed|
    ensures NoneEmpty(After(pipe, steps)) <==> NoneEmpty(pipe) && NeverIdle(pipe, steps)
    decreases |steps|
  {
    hide NoneEmpty, Stepped;
    if steps != [] {
      StepIsIdle(pipe, steps[0]);
      IdleStepsShow(Stepped(pipe, steps[0]), steps[1..]);
    }
  }

  /** An empty packet has been sent or is being sent if and only if the connection thread once
      woke up when everything had gone. */
  lemma EmptyPacketsExactly(steps: seq<Step>)
    ensures NoneEmpty(After(EMPTY_PIPE, steps)) <==> NeverIdle(EMPTY_PIPE, steps)
  {
    IdleStepsShow(EMPTY_PIPE, steps);
  }

  /** It can: one command, and a second wake-up that was pending when the first sent it. */
  function SecondWakeUp(command: seq<byte>): seq<Step> {
    [Begin, Put(command), Finish, Gather, Deliver, Gather, Deliver]
  }

  lemma SecondWakeUpSendsNothing(command: seq<byte>)
    requires 0 < |command| <= OUT_DATA_SIZE
    ensures var pipe := After(EMPTY_PIPE, SecondWakeUp(command));
      pipe.log == [command] && pipe.slices == [command, []] && pipe.committed == []
  {
    var steps := SecondWakeUp(command);
    var begun := EMPTY_PIPE.(begun := true);
    var put := begun.(written := command, wanted := command);
    var finished := Pipe([], None, command, [], false, false, command, [command]);
    var taken := finished.(gathered := Some(|command|));
    var gone := finished.(slices := [command], committed := []);
    var idle := gone.(gathered := Some(0));
    assert begun == Stepped(EMPTY_PIPE, Begin) && put == Stepped(begun, Put(command));
    assert finished == Stepped(put, Finish) && taken == Stepped(finished, Gather);
    assert command[..|command|] == command && command[|command|..] == [] && [] + [command] == [command];
    assert gone == Stepped(taken, Deliver) && idle == Stepped(gone, Gather);
    assert Stepped(idle, Deliver) == gone.(slices := [command, []]);
    hide After, Stepped;
    Following(EMPTY_PIPE, steps, 0);
    Following(begun, steps, 1);
    Following(put, steps, 2);
    Following(finished, steps, 3);
    Following(taken, steps, 4);
    Following(gone, steps, 5);
    Following(idle, steps, 6);
  }

  lemma Following(pipe: Pipe, steps: seq<Step>, i: nat)
    requires i < |steps|
    ensures After(pipe, steps[i..]) == After(Stepped(pipe, steps[i]), steps[i + 1..])
    ensures i + 1 == |steps| ==> After(pipe, steps[i..]) == Stepped(pipe, steps[i])
    ensures steps[0..] == steps
  {
    hide Stepped;
    assert steps[i..][1..] == steps[i + 1..];
  }

  predicate Fits(held: nat, command: seq<byte>) {
    held < OUT_DATA_SIZE && held + |command| <= OUT_DATA_SIZE
  }

  /** A whole command on the real connection, piece by piece: it is committed exactly when it
      fits, and otherwise leaves no trace. */
  method SendCommand(connection: TConnection, pieces: seq<seq<byte>>) returns (accepted: bool)
    requires connection.Valid() && forall i :: 0 <= i < |pieces| ==> pieces[i] != []
    modifies connection, connection.outData
    ensures connection.Valid() && connection.socket == old(connection.socket)
    ensures connection.state == old(connection.state)
    ensures accepted <==>
      IsLive(connection.state) && connection.state != Login && Fits(|old(connection.Committed())|, Joined(pieces))
    ensures connection.Committed() == old(connection.Committed()) + if accepted then Joined(pieces) else []
  {
    hide Ring;
    ghost var held := connection.Committed();
    accepted := connection.BeginSendData();
    if !accepted { return; }
    for i := 0 to |pieces|
      invariant connection.Valid() && connection.Committed() == held && connection.socket == old(connection.socket)
      invariant connection.state == old(connection.state)
      invariant connection.overflow <==> |held| + |Joined(pieces[..i])| > OUT_DATA_SIZE
      invariant !connection.overflow ==> connection.Written() == Joined(pieces[..i])
      invariant |connection.Written()| <= |Joined(pieces[..i])|
    {
      JoinedStep(pieces, i);
      connection.SendBytes(pieces[i]);
    }
    assert pieces[..|pieces|] == pieces;
    accepted := !connection.overflow;
    connection.FinishSendData();
  }

  lemma JoinedStep(parts: seq<seq<byte>>, i: nat)
    requires i < |parts|
    ensures Joined(parts[..i + 1]) == Joined(parts[..i]) + parts[i]
  {
    assert parts[..i + 1][..i] == parts[..i];
  }

  // ---- the client's end ----------------------------------------------------------------------------

  predicate GoodSlice(slice: seq<byte>, padding: seq<byte>) {
    |slice| <= OUT_DATA_SIZE && |padding| == X.PaddingSize(|slice|)
  }

  datatype Sending = Sending(slice: seq<byte>, padding: seq<byte>)

  ghost predicate GoodSendings(sendings: seq<Sending>) {
    forall i :: 0 <= i < |sendings| ==> GoodSlice(sendings[i].slice, sendings[i].padding)
  }

  function Payload(key: X.Key, sending: Sending): seq<byte>
    requires GoodSlice(sending.slice, sending.padding)
  {
    X.Encrypted(key, X.Inner(sending.slice, sending.padding))
  }

  function Payloads(key: X.Key, sendings: seq<Sending>): (payloads: seq<seq<byte>>)
    requires GoodSendings(sendings)
    ensures |payloads| == |sendings|
    decreases |sendings|
  {
    if sendings == [] then [] else [Payload(key, sendings[0])] + Payloads(key, sendings[1..])
  }

  lemma {:induction false} PayloadAt(key: X.Key, sendings: seq<Sending>, i: nat)
    requires GoodSendings(sendings) && i < |sendings|
    ensures Payloads(key, sendings)[i] == Payload(key, sendings[i])
    ensures F.GoodPayload(Payloads(key, sendings)[i], CLIENT_LIMIT)
    decreases |sendings|
  {
    hide Payload;
    if i == 0 {
      PayloadFits(key, sendings[0]);
    } else {
      PayloadAt(key, sendings[1..], i - 1);
    }
  }

  lemma PayloadFits(key: X.Key, sending: Sending)
    requires GoodSlice(sending.slice, sending.padding)
    ensures 1 <= |Payload(key, sending)| <= CLIENT_LIMIT
  {
    hide X.Encrypted;
  }

  /** The bytes on the wire. */
  function Wire(key: X.Key, sendings: seq<Sending>): seq<byte>
    requires GoodSendings(sendings)
  {
    if sendings == [] then [] else Packet(key, sendings[0].slice, sendings[0].padding) + Wire(key, sendings[1..])
  }

  lemma {:induction false} WireIsFrames(key: X.Key, sendings: seq<Sending>)
    requires GoodSendings(sendings)
    ensures F.GoodPayloads(Payloads(key, sendings), CLIENT_LIMIT)
    ensures Wire(key, sendings) == F.FramedAll(Payloads(key, sendings))
    decreases |sendings|
  {
    hide X.Encrypted, X.Inner, F.Framed;
    var payloads := Payloads(key, sendings);
    forall i | 0 <= i < |payloads| ensures F.GoodPayload(payloads[i], CLIENT_LIMIT) { PayloadAt(key, sendings, i); }
    if sendings != [] {
      WireIsFrames(key, sendings[1..]);
      assert payloads[1..] == Payloads(key, sendings[1..]);
      assert F.Framed(payloads[0]) == Packet(key, sendings[0].slice, sendings[0].padding);
    }
  }

  lemma ClientReceivesFrames(key: X.Key, sendings: seq<Sending>, chunks: seq<seq<byte>>)
    requires GoodSendings(sendings) && F.Concat(chunks) == Wire(key, sendings)
    ensures var received := F.FedAll([], chunks, CLIENT_LIMIT);
      received.error == F.NoError && received.buffer == [] && received.frames == Payloads(key, sendings)
  {
    hide X.Encrypted, F.FedAll, F.FramedAll, Wire, F.Concat, Payloads;
    WireIsFrames(key, sendings);
    F.FeedingUndoesFraming(Payloads(key, sendings), chunks, CLIENT_LIMIT);
  }

  /** However the stream is cut on its way, the client's frame decoder yields one frame a
      packet, and decrypting frame `i` yields slice `i`, exactly. Only a packet sent when there
      was nothing to send is refused: its inner length is zero. */
  lemma ClientReceivesSlices(key: X.Key, sendings: seq<Sending>, chunks: seq<seq<byte>>, i: nat)
    requires GoodSendings(sendings) && F.Concat(chunks) == Wire(key, sendings) && i < |sendings|
    ensures var received := F.FedAll([], chunks, CLIENT_LIMIT);
      && received.error == F.NoError && received.buffer == [] && |received.frames| == |sendings|
      && X.Open(true, key, received.frames[i])
        == if sendings[i].slice == [] then X.Opened([], [], 0, X.InnerLengthZero)
           else X.Opened(sendings[i].slice, sendings[i].padding, |sendings[i].slice|, X.NoError)
  {
    hide X.Encrypted, F.FedAll, X.Open, Wire, F.Concat, Payloads;
    ClientReceivesFrames(key, sendings, chunks);
    PayloadAt(key, sendings, i);
    if sendings[i].slice == [] {
      X.NothingDoesNotOpen(key, sendings[i].padding);
    } else {
      X.OpenUndoesSeal(key, sendings[i].slice, sendings[i].padding);
    }
  }
}
