/** The server's output path: the ring buffer of reference/game/src/sending.cc, and SendData and
    WriteToSocket of reference/game/src/communication.cc. What is committed reaches the client. */
module ServerOutput {
  import opened World
  import opened Chunks
  import opened MapCodec
  import F = Framing
  import X = Xtea

  const OUT_DATA_SIZE := 16384
  const LENGTHS := 4
  const MAX_PACKET := 0xFFFF
  const ATTEMPTS := 50

  /** What the client's game connection accepts. */
  const CLIENT_LIMIT := 16392

  // ---- the ring ---------------------------------------------------------------------------------

  /** The bytes a ring holds between two logical positions. */
  function Ring(s: seq<byte>, from: nat, to: nat): (bytes: seq<byte>)
    requires |s| == OUT_DATA_SIZE && from <= to
    ensures |bytes| == to - from
  {
    seq(to - from, i requires 0 <= i < to - from => s[(from + i) % OUT_DATA_SIZE])
  }

  lemma RingSplits(s: seq<byte>, from: nat, middle: nat, to: nat)
    requires |s| == OUT_DATA_SIZE && from <= middle <= to
    ensures Ring(s, from, to) == Ring(s, from, middle) + Ring(s, middle, to)
  {
    var whole, first, second := Ring(s, from, to), Ring(s, from, middle), Ring(s, middle, to);
    forall i | 0 <= i < to - from ensures whole[i] == (first + second)[i] {
      if i >= middle - from { assert from + i == middle + (i - (middle - from)); }
    }
  }

  /** How far behind logical position `at` cell `c` lies. */
  function Offset(at: nat, c: nat): (offset: nat)
    ensures offset < OUT_DATA_SIZE
  {
    (c - at) % OUT_DATA_SIZE
  }

  lemma CellIs(at: nat, i: nat)
    requires i <= OUT_DATA_SIZE
    ensures var start := at % OUT_DATA_SIZE;
      (at + i) % OUT_DATA_SIZE == if start + i < OUT_DATA_SIZE then start + i else start + i - OUT_DATA_SIZE
  {
  }

  lemma OffsetIs(at: nat, c: nat)
    requires c < OUT_DATA_SIZE
    ensures var start := at % OUT_DATA_SIZE;
      Offset(at, c) == if c >= start then c - start else c - start + OUT_DATA_SIZE
  {
    var start := at % OUT_DATA_SIZE;
    assert at == start + at / OUT_DATA_SIZE * OUT_DATA_SIZE;
    SameModulo(c - start, at / OUT_DATA_SIZE);
    assert c - at == c - start - at / OUT_DATA_SIZE * OUT_DATA_SIZE;
  }

  lemma SameModulo(a: int, laps: int)
    ensures (a - laps * OUT_DATA_SIZE) % OUT_DATA_SIZE == a % OUT_DATA_SIZE
  {
  }

  /** `s` with `bytes` written from logical position `at` on. */
  function Overlaid(s: seq<byte>, at: nat, bytes: seq<byte>): (out: seq<byte>)
    requires |s| == OUT_DATA_SIZE
    ensures |out| == OUT_DATA_SIZE
  {
    seq(OUT_DATA_SIZE, c requires 0 <= c < OUT_DATA_SIZE => if Offset(at, c) < |bytes| then bytes[Offset(at, c)]
      else s[c])
  }

  /** Writing behind what is held, within one lap, leaves what is held alone. */
  lemma WritingKeepsHeld(s: seq<byte>, from: nat, at: nat, bytes: seq<byte>)
    requires |s| == OUT_DATA_SIZE && from <= at && at + |bytes| <= from + OUT_DATA_SIZE
    ensures Ring(Overlaid(s, at, bytes), from, at) == Ring(s, from, at)
    ensures Ring(Overlaid(s, at, bytes), at, at + |bytes|) == bytes
  {
    hide Offset, Overlaid;
    var after := Overlaid(s, at, bytes);
    forall k | 0 <= k < at - from ensures Ring(after, from, at)[k] == Ring(s, from, at)[k] {
      HeldIsBehind(from + k, at, |bytes|);
      OverlaidAt(s, at, bytes, (from + k) % OUT_DATA_SIZE);
    }
    forall i | 0 <= i < |bytes| ensures Ring(after, at, at + |bytes|)[i] == bytes[i] {
      CellIs(at, i);
      OffsetIs(at, (at + i) % OUT_DATA_SIZE);
      OverlaidAt(s, at, bytes, (at + i) % OUT_DATA_SIZE);
    }
  }

  lemma OverlaidAt(s: seq<byte>, at: nat, bytes: seq<byte>, c: nat)
    requires |s| == OUT_DATA_SIZE && c < OUT_DATA_SIZE
    ensures Overlaid(s, at, bytes)[c] == if Offset(at, c) < |bytes| then bytes[Offset(at, c)] else s[c]
  {
  }

  lemma HeldIsBehind(p: nat, at: nat, n: nat)
    requires p < at && at + n <= p + OUT_DATA_SIZE
    ensures Offset(at, p % OUT_DATA_SIZE) >= n
  {
    hide Offset;
    CellIs(p, at - p);
    OffsetIs(at, p % OUT_DATA_SIZE);
  }

  datatype WriteOutcome = Wrote(count: nat) | Interrupted | Blocked | Refused

  function PacketSize(data: nat): (size: nat)
    ensures size % 8 == 2 && data + LENGTHS <= size < data + LENGTHS + 8
  {
    X.EncryptedSize(data) + 2
  }

  /** The packet for `data`: length, then the encrypted inner length, data and padding. */
  function Packet(key: X.Key, data: seq<byte>, padding: seq<byte>): seq<byte>
    requires |data| <= OUT_DATA_SIZE && |padding| == X.PaddingSize(|data|)
  {
    F.Framed(X.Encrypted(key, X.Inner(data, padding)))
  }

  /** `was` stood from position `from` on; it is encrypted up to position `i`. */
  ghost predicate EncryptedUpTo(key: X.Key, s: seq<byte>, was: seq<byte>, from: nat, i: nat) {
    && |s| == from + |was| && from <= i <= |s| && X.Whole(was[..i - from])
    && s[from..i] == X.Encrypted(key, was[..i - from]) && s[i..] == was[i - from..]
  }

  datatype ConnectionState = Free | Assigned | Connected | Login | Game | Dead | Logout | Disconnected

  predicate IsLive(state: ConnectionState) {
    state.Login? || state.Game? || state.Dead? || state.Logout?
  }

  class TConnection {
    var state: ConnectionState
    /** The connection waits to be told that it has something to send. */
    var willingToSend: bool
    const outData: array<byte>
    var nextToSend: nat
    var nextToCommit: nat
    var nextToWrite: nat
    var overflow: bool
    const symmetricKey: X.XteaKey
    /** What the operating system has taken so far. */
    var socket: seq<byte>

    ghost predicate Valid()
      reads this, outData
    {
      && outData.Length == OUT_DATA_SIZE
      && nextToSend <= nextToCommit <= nextToWrite <= nextToSend + OUT_DATA_SIZE
    }

    ghost function Committed(): seq<byte>
      requires Valid()
      reads this, outData
    {
      Ring(outData[..], nextToSend, nextToCommit)
    }

    ghost function Written(): seq<byte>
      requires Valid()
      reads this, outData
    {
      Ring(outData[..], nextToCommit, nextToWrite)
    }

    constructor (key: X.XteaKey)
      ensures Valid() && Committed() == [] && Written() == [] && !overflow && socket == [] && symmetricKey == key
      ensures state == Free && !willingToSend && fresh(outData)
    {
      state, willingToSend := Free, false;
      outData := new byte[OUT_DATA_SIZE](_ => 0);
      nextToSend, nextToCommit, nextToWrite, overflow := 0, 0, 0, false;
      symmetricKey, socket := key, [];
    }

    method BeginSendData() returns (ok: bool)
      requires Valid()
      modifies this`nextToWrite, this`overflow
      ensures Valid() && Committed() == old(Committed())
      ensures ok <==> IsLive(state) && state != Login && |Committed()| < OUT_DATA_SIZE
      ensures ok ==> Written() == [] && !overflow
      ensures !ok ==> Written() == old(Written()) && overflow == old(overflow)
    {
      ok := IsLive(state) && state != Login && nextToCommit - nextToSend < OUT_DATA_SIZE;
      if ok {
        nextToWrite := nextToCommit;
        overflow := false;
      }
    }

    /** All of a command or none of it. */
    method FinishSendData()
      requires Valid()
      modifies this`nextToCommit, this`willingToSend
      ensures Valid()
      ensures overflow || !IsLive(state) ==>
        Committed() == old(Committed()) && Written() == old(Written()) && willingToSend == old(willingToSend)
      ensures !overflow && IsLive(state) ==>
        Committed() == old(Committed()) + old(Written()) && Written() == [] && willingToSend
    {
      if !IsLive(state) || overflow { return; }
      RingSplits(outData[..], nextToSend, nextToCommit, nextToWrite);
      nextToCommit := nextToWrite;
      willingToSend := true;
    }

    method SendByte(value: byte)
      requires Valid()
      modifies this`nextToWrite, this`overflow, outData
      ensures Valid() && Committed() == old(Committed())
      ensures if |old(Committed())| + |old(Written())| + 1 <= OUT_DATA_SIZE
        then Written() == old(Written()) + [value] && overflow == old(overflow)
        else Written() == old(Written()) && overflow
    {
      if nextToWrite - nextToSend + 1 > OUT_DATA_SIZE {
        overflow := true;
        return;
      }
      ghost var before := outData[..];
      outData[nextToWrite % OUT_DATA_SIZE] := value;
      WroteOne(before, outData[..], nextToWrite, value);
      Wrote(before, [value]);
      nextToWrite := nextToWrite + 1;
    }

    ghost method Wrote(before: seq<byte>, bytes: seq<byte>)
      requires Valid() && |before| == OUT_DATA_SIZE && outData[..] == Overlaid(before, nextToWrite, bytes)
      requires nextToWrite + |bytes| <= nextToSend + OUT_DATA_SIZE
      ensures Ring(outData[..], nextToSend, nextToCommit) == Ring(before, nextToSend, nextToCommit)
      ensures Ring(outData[..], nextToCommit, nextToWrite + |bytes|) == Ring(before, nextToCommit, nextToWrite) + bytes
    {
      var after := outData[..];
      WritingKeepsHeld(before, nextToSend, nextToWrite, bytes);
      RingSplits(before, nextToSend, nextToCommit, nextToWrite);
      RingSplits(after, nextToSend, nextToCommit, nextToWrite);
      RingSplits(after, nextToCommit, nextToWrite, nextToWrite + |bytes|);
      Prefixes(Ring(before, nextToSend, nextToCommit), Ring(before, nextToCommit, nextToWrite),
        Ring(after, nextToSend, nextToCommit), Ring(after, nextToCommit, nextToWrite));
    }

    method SendWord(value: word)
      requires Valid()
      modifies this`nextToWrite, this`overflow, outData
      ensures Valid() && Committed() == old(Committed())
      ensures if |old(Committed())| + |old(Written())| + 2 <= OUT_DATA_SIZE
        then Written() == old(Written()) + Word(value) && overflow == old(overflow)
        else Written() == old(Written()) && overflow
    {
      if nextToWrite - nextToSend + 2 > OUT_DATA_SIZE {
        overflow := true;
        return;
      }
      ghost var before := outData[..];
      CellIs(nextToWrite, 1);
      outData[nextToWrite % OUT_DATA_SIZE] := value % 0x100;
      outData[(nextToWrite + 1) % OUT_DATA_SIZE] := value / 0x100;
      WroteTwo(before, outData[..], nextToWrite, Word(value));
      Wrote(before, Word(value));
      nextToWrite := nextToWrite + 2;
    }

    /** A run of bytes, in one or two copies. */
    method SendBytes(bytes: seq<byte>)
      requires Valid() && bytes != []
      modifies this`nextToWrite, this`overflow, outData
      ensures Valid() && Committed() == old(Committed())
      ensures if |old(Committed())| + |old(Written())| + |bytes| <= OUT_DATA_SIZE
        then Written() == old(Written()) + bytes && overflow == old(overflow)
        else Written() == old(Written()) && overflow
    {
      if nextToWrite - nextToSend + |bytes| > OUT_DATA_SIZE {
        overflow := true;
        return;
      }
      ghost var before := outData[..];
      var start := nextToWrite % OUT_DATA_SIZE;
      var end := start + |bytes|;
      if end < OUT_DATA_SIZE {
        X.Store(outData, start, bytes);
        WroteOnce(before, outData[..], nextToWrite, bytes);
      } else {
        StoreAcross(start, bytes);
        WroteTwice(before, outData[..], nextToWrite, bytes);
      }
      Wrote(before, bytes);
      nextToWrite := nextToWrite + |bytes|;
    }

    method StoreAcross(start: nat, bytes: seq<byte>)
      requires outData.Length == OUT_DATA_SIZE && start < OUT_DATA_SIZE <= start + |bytes| && |bytes| <= OUT_DATA_SIZE
      modifies outData
      ensures var size1 := OUT_DATA_SIZE - start;
        && outData[start..] == bytes[..size1] && outData[..|bytes| - size1] == bytes[size1..]
        && outData[|bytes| - size1..start] == old(outData[|bytes| - size1..start])
    {
      ghost var before := outData[..];
      var size1 := OUT_DATA_SIZE - start;
      X.Store(outData, start, bytes[..size1]);
      ghost var middle := outData[..];
      X.Store(outData, 0, bytes[size1..]);
      SecondCopy(before, middle, outData[..], start, |bytes| - size1, bytes[..size1]);
    }

    /** Everything committed, copied across the wrap, padded, encrypted and written. */
    method SendData(outcomes: seq<WriteOutcome>) returns (ok: bool, packet: seq<byte>, padding: seq<byte>)
      requires Valid() && symmetricKey.initialized
      modifies this`nextToSend, this`socket
      ensures Valid() && Written() == old(Written())
      ensures |padding| == X.PaddingSize(|old(Committed())|)
      ensures packet == Packet(symmetricKey.words, old(Committed()), padding)
      ensures ok ==> socket == old(socket) + packet && Committed() == []
      ensures !ok ==> Committed() == old(Committed())
      ensures !ok ==> exists n :: 0 <= n < |packet| && socket == old(socket) + packet[..n]
    {
      hide Ring, Packet, PacketSize;
      var dataSize := nextToCommit - nextToSend;
      var packetSize := PacketSize(dataSize);
      var buffer := new byte[packetSize](_ => 0);
      CopySlice(buffer, dataSize);
      ok, packet, padding := WriteToSocket(buffer, LENGTHS + dataSize, packetSize, outcomes);
      if ok {
        nextToSend := nextToSend + dataSize;
        NothingHeld(outData[..], nextToSend);
      }
    }

    /** One region, or two when the data wraps around the end of the ring. */
    method CopySlice(buffer: array<byte>, dataSize: nat)
      requires Valid() && dataSize == nextToCommit - nextToSend && buffer.Length >= LENGTHS + dataSize
      requires buffer != outData
      modifies buffer
      ensures buffer[LENGTHS..LENGTHS + dataSize] == Committed()
    {
      hide Ring;
      var start := nextToSend % OUT_DATA_SIZE;
      var end := start + dataSize;
      if end < OUT_DATA_SIZE {
        X.Store(buffer, LENGTHS, outData[start..end]);
      } else {
        var size1 := OUT_DATA_SIZE - start;
        X.Store(buffer, LENGTHS, outData[start..]);
        ghost var middle := buffer[..];
        X.Store(buffer, LENGTHS + size1, outData[..end - OUT_DATA_SIZE]);
        assert buffer[LENGTHS..LENGTHS + size1] == buffer[..LENGTHS + size1][LENGTHS..];
        assert middle[..LENGTHS + size1][LENGTHS..] == middle[LENGTHS..LENGTHS + size1];
      }
      CopiedSlice(buffer[..], outData[..], nextToSend, nextToCommit);
    }

    /** Pads to whole blocks, writes both lengths, encrypts in place and hands the packet over. */
    method WriteToSocket(buffer: array<byte>, size: nat, maxSize: nat, outcomes: seq<WriteOutcome>)
      returns (ok: bool, packet: seq<byte>, padding: seq<byte>)
      requires LENGTHS <= size <= maxSize == buffer.Length <= MAX_PACKET && symmetricKey.initialized
      requires maxSize == PacketSize(size - LENGTHS) && size - LENGTHS <= OUT_DATA_SIZE
      requires buffer != outData
      modifies buffer, this`socket
      ensures |padding| == X.PaddingSize(size - LENGTHS)
      ensures packet == Packet(symmetricKey.words, old(buffer[LENGTHS..size]), padding)
      ensures ok ==> socket == old(socket) + packet
      ensures !ok ==> exists n :: 0 <= n < |packet| && socket == old(socket) + packet[..n]
    {
      hide Word, X.Encrypted, PacketSize, X.PaddingSize, X.Inner, Packet;
      var full := Pad(buffer, size, maxSize);
      padding := AddLengths(buffer, size, full);
      ghost var lengths := buffer[..2];
      EncryptFrom(buffer, 2);
      packet := buffer[..];
      PacketIs(packet, lengths, symmetricKey.words, old(buffer[LENGTHS..size]), padding);
      ok := Transmit(packet, outcomes);
    }

    /** The encrypted size in front, then the size of the data. */
    method AddLengths(buffer: array<byte>, size: nat, full: nat) returns (padding: seq<byte>)
      requires LENGTHS <= size <= full == buffer.Length <= MAX_PACKET && size - LENGTHS <= OUT_DATA_SIZE
      requires full == PacketSize(size - LENGTHS)
      modifies buffer
      ensures |padding| == X.PaddingSize(size - LENGTHS)
      ensures buffer[..2] == Word(full - 2) && |X.Inner(old(buffer[LENGTHS..size]), padding)| == full - 2
      ensures buffer[2..] == X.Inner(old(buffer[LENGTHS..size]), padding)
    {
      hide Word;
      ghost var padded := buffer[..];
      padding := buffer[size..full];
      X.Store(buffer, 0, Word(full - 2));
      ghost var middle := buffer[..];
      X.Store(buffer, 2, Word(size - LENGTHS));
      assert buffer[LENGTHS..] == middle[2..][2..] == padded[2..][2..] == padded[LENGTHS..];
      assert buffer[LENGTHS..size] == buffer[LENGTHS..][..size - LENGTHS];
      assert buffer[size..] == buffer[LENGTHS..][size - LENGTHS..];
      assert buffer[2..][..2] == buffer[2..4] && buffer[2..][2..size - 2] == buffer[LENGTHS..size]
        && buffer[2..][size - 2..] == buffer[size..];
      X.ThreeParts(buffer[2..], Word(size - LENGTHS), padded[LENGTHS..size], padding);
    }

    /** Adds bytes until the encrypted part is whole blocks. */
    method Pad(buffer: array<byte>, size: nat, maxSize: nat) returns (full: nat)
      requires LENGTHS <= size <= maxSize == buffer.Length && maxSize == PacketSize(size - LENGTHS)
      modifies buffer
      ensures full == maxSize && buffer[..size] == old(buffer[..size])
    {
      full := size;
      while full % 8 != 2 && full < maxSize
        invariant size <= full <= maxSize
        invariant buffer[..size] == old(buffer[..size])
        decreases maxSize - full
      {
        var random: byte := *;
        buffer[full] := random;
        full := full + 1;
      }
    }

    method EncryptFrom(buffer: array<byte>, from: nat)
      requires from <= buffer.Length && (buffer.Length - from) % X.BLOCK_BYTES == 0
      modifies buffer
      ensures buffer[..from] == old(buffer[..from])
      ensures buffer[from..] == X.Encrypted(symmetricKey.words, old(buffer[from..]))
    {
      hide X.Encrypted, X.EncryptBlock, EncryptedUpTo;
      ghost var was := buffer[from..];
      var i := from;
      NoneEncrypted(symmetricKey.words, buffer[..], was, from);
      while i < buffer.Length
        invariant from <= i <= buffer.Length && (i - from) % X.BLOCK_BYTES == 0
        invariant buffer[..from] == old(buffer[..from]) && EncryptedUpTo(symmetricKey.words, buffer[..], was, from, i)
      {
        EncryptNext(buffer, from, i, was);
        i := i + X.BLOCK_BYTES;
      }
      AllEncrypted(symmetricKey.words, buffer[..], was, from);
      assert buffer[from..] == buffer[..][from..];
    }

    method EncryptNext(buffer: array<byte>, from: nat, i: nat, ghost was: seq<byte>)
      requires EncryptedUpTo(symmetricKey.words, buffer[..], was, from, i) && i + X.BLOCK_BYTES <= buffer.Length
      modifies buffer
      ensures buffer[..from] == old(buffer[..from])
      ensures EncryptedUpTo(symmetricKey.words, buffer[..], was, from, i + X.BLOCK_BYTES)
    {
      hide X.Encrypted, X.EncryptBlock;
      ghost var before := buffer[..];
      symmetricKey.EncryptOne(buffer, i);
      NextBlock(symmetricKey.words, before, buffer[..], was, from, i);
    }

    /** The operating system may take any part of what is offered, be interrupted, or refuse. */
    method Transmit(packet: seq<byte>, outcomes: seq<WriteOutcome>) returns (ok: bool)
      requires packet != []
      modifies this`socket
      ensures ok ==> socket == old(socket) + packet
      ensures !ok ==> exists n :: 0 <= n < |packet| && socket == old(socket) + packet[..n]
    {
      var attempts := ATTEMPTS;
      var at := 0;
      var k := 0;
      assert packet[..0] == [] && socket + [] == socket;
      while at < |packet| && k < |outcomes|
        invariant 0 <= at <= |packet| && 0 <= k <= |outcomes| && socket == old(socket) + packet[..at]
        decreases |outcomes| - k
      {
        match outcomes[k] {
          case Wrote(0) => return false;
          case Wrote(n) =>
            var taken := if n < |packet| - at then n else |packet| - at;
            assert packet[..at] + packet[at..at + taken] == packet[..at + taken];
            socket := socket + packet[at..at + taken];
            at := at + taken;
          case Interrupted =>
          case Blocked =>
            if attempts <= 0 { return false; }
            attempts := attempts - 1;
          case Refused => return false;
        }
        k := k + 1;
      }
      ok := at == |packet|;
      if ok { assert packet[..at] == packet; }
    }
  }

  lemma Prefixes(a: seq<byte>, b: seq<byte>, c: seq<byte>, d: seq<byte>)
    requires a + b == c + d && |a| == |c|
    ensures a == c && b == d
  {
    assert a == (a + b)[..|a|] && c == (c + d)[..|c|];
    assert b == (a + b)[|a|..] && d == (c + d)[|c|..];
  }

  lemma WroteOne(before: seq<byte>, after: seq<byte>, at: nat, value: byte)
    requires |before| == OUT_DATA_SIZE && after == before[at % OUT_DATA_SIZE := value]
    ensures after == Overlaid(before, at, [value])
  {
    hide Offset;
    forall c | 0 <= c < OUT_DATA_SIZE ensures after[c] == Overlaid(before, at, [value])[c] {
      OffsetIs(at, c);
    }
  }

  lemma WroteTwo(before: seq<byte>, after: seq<byte>, at: nat, bytes: seq<byte>)
    requires |before| == OUT_DATA_SIZE && |bytes| == 2
    requires after == before[at % OUT_DATA_SIZE := bytes[0]][(at + 1) % OUT_DATA_SIZE := bytes[1]]
    ensures after == Overlaid(before, at, bytes)
  {
    hide Offset;
    CellIs(at, 1);
    forall c | 0 <= c < OUT_DATA_SIZE ensures after[c] == Overlaid(before, at, bytes)[c] {
      OffsetIs(at, c);
    }
  }

  lemma WroteOnce(before: seq<byte>, after: seq<byte>, at: nat, bytes: seq<byte>)
    requires |before| == |after| == OUT_DATA_SIZE && at % OUT_DATA_SIZE + |bytes| < OUT_DATA_SIZE
    requires var start := at % OUT_DATA_SIZE;
      after[start..start + |bytes|] == bytes && after[..start] == before[..start]
      && after[start + |bytes|..] == before[start + |bytes|..]
    ensures after == Overlaid(before, at, bytes)
  {
    hide Offset;
    var start := at % OUT_DATA_SIZE;
    forall c | 0 <= c < OUT_DATA_SIZE ensures after[c] == Overlaid(before, at, bytes)[c] {
      OffsetIs(at, c);
      if c < start {
        assert after[..start][c] == before[..start][c];
      } else if c < start + |bytes| {
        assert after[start..start + |bytes|][c - start] == bytes[c - start];
      } else {
        assert after[start + |bytes|..][c - start - |bytes|] == before[start + |bytes|..][c - start - |bytes|];
      }
    }
  }

  lemma WroteTwice(before: seq<byte>, after: seq<byte>, at: nat, bytes: seq<byte>)
    requires |before| == |after| == OUT_DATA_SIZE && |bytes| <= OUT_DATA_SIZE <= at % OUT_DATA_SIZE + |bytes|
    requires var start := at % OUT_DATA_SIZE;
      var size1 := OUT_DATA_SIZE - start;
      after[start..] == bytes[..size1] && after[..|bytes| - size1] == bytes[size1..]
      && after[|bytes| - size1..start] == before[|bytes| - size1..start]
    ensures after == Overlaid(before, at, bytes)
  {
    hide Offset;
    var start := at % OUT_DATA_SIZE;
    var size1 := OUT_DATA_SIZE - start;
    var wrapped := |bytes| - size1;
    forall c | 0 <= c < OUT_DATA_SIZE ensures after[c] == Overlaid(before, at, bytes)[c] {
      OffsetIs(at, c);
      if c >= start {
        assert after[start..][c - start] == bytes[..size1][c - start];
      } else if c < wrapped {
        assert after[..wrapped][c] == bytes[size1..][c];
      } else {
        assert after[wrapped..start][c - wrapped] == before[wrapped..start][c - wrapped];
      }
    }
  }

  /** The second copy, at the front of the ring, leaves the first one and what lies between. */
  lemma SecondCopy(before: seq<byte>, middle: seq<byte>, after: seq<byte>, start: nat, wrapped: nat, tail: seq<byte>)
    requires |before| == |middle| == |after| && wrapped <= start <= |before| && |tail| == |before| - start
    requires middle[start..] == tail && middle[..start] == before[..start] && after[wrapped..] == middle[wrapped..]
    ensures after[start..] == tail && after[wrapped..start] == before[wrapped..start]
  {
    SliceOfSlice(after, wrapped, start);
    SliceOfSlice(middle, wrapped, start);
    assert after[wrapped..start] == after[wrapped..][..start - wrapped] == middle[wrapped..][..start - wrapped]
      == middle[wrapped..start];
    assert middle[wrapped..start] == middle[..start][wrapped..] == before[..start][wrapped..] == before[wrapped..start];
  }

  lemma CopiedSlice(buffer: seq<byte>, ring: seq<byte>, from: nat, to: nat)
    requires |ring| == OUT_DATA_SIZE && from <= to <= from + OUT_DATA_SIZE && LENGTHS + to - from <= |buffer|
    requires var start := from % OUT_DATA_SIZE;
      var end := start + to - from;
      && (end < OUT_DATA_SIZE ==> buffer[LENGTHS..LENGTHS + to - from] == ring[start..end])
      && (end >= OUT_DATA_SIZE ==>
           buffer[LENGTHS..LENGTHS + OUT_DATA_SIZE - start] == ring[start..]
           && buffer[LENGTHS + OUT_DATA_SIZE - start..LENGTHS + to - from] == ring[..end - OUT_DATA_SIZE])
    ensures buffer[LENGTHS..LENGTHS + to - from] == Ring(ring, from, to)
  {
    var start := from % OUT_DATA_SIZE;
    var size1 := OUT_DATA_SIZE - start;
    var slice := buffer[LENGTHS..LENGTHS + to - from];
    forall i | 0 <= i < to - from ensures slice[i] == Ring(ring, from, to)[i] {
      CellIs(from, i);
      if start + to - from < OUT_DATA_SIZE {
        assert slice[i] == ring[start..start + to - from][i];
      } else if i < size1 {
        assert buffer[LENGTHS..LENGTHS + size1][i] == ring[start..][i];
      } else {
        assert buffer[LENGTHS + size1..LENGTHS + to - from][i - size1]
          == ring[..start + to - from - OUT_DATA_SIZE][i - size1];
      }
    }
  }

  lemma NothingHeld(s: seq<byte>, at: nat)
    requires |s| == OUT_DATA_SIZE
    ensures Ring(s, at, at) == []
  {
  }

  lemma PacketIs(packet: seq<byte>, lengths: seq<byte>, key: X.Key, data: seq<byte>, padding: seq<byte>)
    requires |data| <= OUT_DATA_SIZE && |padding| == X.PaddingSize(|data|) && |packet| == PacketSize(|data|)
    requires X.Whole(X.Inner(data, padding)) && packet[..2] == lengths == Word(|packet| - 2)
    requires packet[2..] == X.Encrypted(key, X.Inner(data, padding))
    ensures packet == Packet(key, data, padding) && packet != []
  {
    hide Word, X.Encrypted;
    assert packet == packet[..2] + packet[2..];
  }

  lemma NoneEncrypted(key: X.Key, s: seq<byte>, was: seq<byte>, from: nat)
    requires from <= |s| && was == s[from..]
    ensures EncryptedUpTo(key, s, was, from, from)
  {
    hide X.Encrypted;
    X.NothingYet(key, was);
    assert s[from..from] == was[..0];
  }

  lemma AllEncrypted(key: X.Key, s: seq<byte>, was: seq<byte>, from: nat)
    requires EncryptedUpTo(key, s, was, from, |s|)
    ensures X.Whole(was) && s[from..] == X.Encrypted(key, was)
  {
    hide X.Encrypted;
    assert was[..|s| - from] == was && s[from..|s|] == s[from..];
  }

  lemma NextBlock(key: X.Key, before: seq<byte>, after: seq<byte>, was: seq<byte>, from: nat, i: nat)
    requires EncryptedUpTo(key, before, was, from, i) && i + X.BLOCK_BYTES <= |before| == |after|
    requires after[i..i + X.BLOCK_BYTES] == X.EncryptBlock(key, before[i..i + X.BLOCK_BYTES])
    requires after[..i] == before[..i] && after[i + X.BLOCK_BYTES..] == before[i + X.BLOCK_BYTES..]
    ensures after[..from] == before[..from] && EncryptedUpTo(key, after, was, from, i + X.BLOCK_BYTES)
  {
    hide X.Encrypted, X.EncryptBlock;
    var block := before[i..i + X.BLOCK_BYTES];
    TailBlock(before, was, from, i);
    X.OneMoreBlock(key, was[..i - from], block);
    TailAdvanced(before, after, was, from, i, X.EncryptBlock(key, block));
    assert i - from + X.BLOCK_BYTES == i + X.BLOCK_BYTES - from;
  }

  lemma TailBlock(before: seq<byte>, was: seq<byte>, from: nat, i: nat)
    requires from <= i && i + X.BLOCK_BYTES <= |before| == from + |was| && before[i..] == was[i - from..]
    ensures was[..i - from + X.BLOCK_BYTES] == was[..i - from] + before[i..i + X.BLOCK_BYTES]
  {
    var block := before[i..i + X.BLOCK_BYTES];
    assert block == before[i..][..X.BLOCK_BYTES] == was[i - from..][..X.BLOCK_BYTES]
      == was[i - from..i - from + X.BLOCK_BYTES];
  }

  lemma TailAdvanced(before: seq<byte>, after: seq<byte>, was: seq<byte>, from: nat, i: nat, block: seq<byte>)
    requires from <= i && i + X.BLOCK_BYTES <= |before| == |after| == from + |was| && |block| == X.BLOCK_BYTES
    requires after[i..i + X.BLOCK_BYTES] == block && after[..i] == before[..i]
    requires after[i + X.BLOCK_BYTES..] == before[i + X.BLOCK_BYTES..]
    requires before[i..] == was[i - from..]
    ensures after[..from] == before[..from]
    ensures after[from..i + X.BLOCK_BYTES] == before[from..i] + block
    ensures after[i + X.BLOCK_BYTES..] == was[i + X.BLOCK_BYTES - from..]
  {
    SliceOfSlice(before, i, i + X.BLOCK_BYTES);
    SliceOfSlice(was, i - from, i - from + X.BLOCK_BYTES);
    assert after[..i][..from] == before[..i][..from];
    var kept := after[from..i];
    assert kept == after[..i][from..] == before[..i][from..] == before[from..i];
    assert after[from..i + X.BLOCK_BYTES] == kept + after[i..i + X.BLOCK_BYTES];
  }
}
