/** The XTEA half of clientcore/src/crypto.cpp: the block cipher on little-endian words, and
    the padded payload around it. */
module Xtea {
  import opened World
  import opened Chunks
  import opened MapScan
  import opened MapCodec

  const BLOCK_BYTES := 8
  const ROUNDS := 32
  const DELTA: quad := 0x9E37_79B9
  const DECRYPT_INITIAL_SUM: quad := 0xC6EF_3720
  const WORD_RANGE := 0x1_0000_0000
  const INNER_HEADER_BYTES := 2

  datatype CryptoError =
    | NoError
    | InvalidConfiguration
    | KeyNotInitialized
    | InvalidBlockSize
    | EmptyPlaintext
    | PlaintextTooLarge
    | OutputExceedsLimit
    | RandomGenerationFailed
    | InnerLengthZero
    | InnerLengthExceedsBlock

  datatype Key = Key(k0: quad, k1: quad, k2: quad, k3: quad)

  datatype Pair = Pair(v0: quad, v1: quad)

  // ---- one block of two words ---------------------------------------------------------------

  /** Thirty-two bit words: addition and subtraction wrap around. */
  function Add(a: quad, b: quad): quad {
    (a + b) % WORD_RANGE
  }

  function Sub(a: quad, b: quad): quad {
    (a - b) % WORD_RANGE
  }

  function Xor(a: quad, b: quad): quad {
    ((a as bv32) ^ (b as bv32)) as int
  }

  function ShiftLeft4(v: quad): quad {
    (v * 16) % WORD_RANGE
  }

  function Mix(v: quad): quad {
    Add(Xor(ShiftLeft4(v), v / 32), v)
  }

  function KeyWord(key: Key, index: nat): quad
    requires index < 4
  {
    if index == 0 then key.k0 else if index == 1 then key.k1 else if index == 2 then key.k2 else key.k3
  }

  /** What a half round adds to the first and to the second word. The key word is chosen by bits
      0 and 1 of the sum, then by bits 11 and 12. */
  function First(key: Key, v: quad, sum: quad): quad {
    Xor(Mix(v), Add(sum, KeyWord(key, sum % 4)))
  }

  function Second(key: Key, v: quad, sum: quad): quad {
    Xor(Mix(v), Add(sum, KeyWord(key, sum / 2048 % 4)))
  }

  function Round(key: Key, v: Pair, sum: quad): Pair {
    var v0 := Add(v.v0, First(key, v.v1, sum));
    Pair(v0, Add(v.v1, Second(key, v0, Add(sum, DELTA))))
  }

  /** `sum` is the running sum after the round that is being undone. */
  function Unround(key: Key, v: Pair, sum: quad): Pair {
    var v1 := Sub(v.v1, Second(key, v.v0, sum));
    Pair(Sub(v.v0, First(key, v1, Sub(sum, DELTA))), v1)
  }

  /** The running sum after `n` rounds. */
  function SumAfter(n: nat): quad {
    if n == 0 then 0 else Add(SumAfter(n - 1), DELTA)
  }

  function Rounds(key: Key, v: Pair, n: nat): Pair
    decreases n
  {
    if n == 0 then v else Round(key, Rounds(key, v, n - 1), SumAfter(n - 1))
  }

  function Unrounds(key: Key, v: Pair, n: nat): Pair
    decreases n
  {
    if n == 0 then v else Unrounds(key, Unround(key, v, SumAfter(n)), n - 1)
  }

  lemma Cancel(a: quad, x: quad)
    ensures Sub(Add(a, x), x) == a && Add(Sub(a, x), x) == a
  {
  }

  lemma AddAssociates(a: quad, b: quad, c: quad)
    ensures Add(Add(a, b), c) == Add(a, Add(b, c)) && Add(a, 0) == a
  {
  }

  lemma {:induction false} SumAdds(m: nat, n: nat)
    ensures SumAfter(m + n) == Add(SumAfter(m), SumAfter(n))
    decreases n
  {
    hide Add;
    AddAssociates(SumAfter(m), 0, 0);
    if n > 0 {
      SumAdds(m, n - 1);
      AddAssociates(SumAfter(m), SumAfter(n - 1), DELTA);
    }
  }

  lemma SumDoubles(n: nat)
    ensures SumAfter(n + n) == Add(SumAfter(n), SumAfter(n))
    ensures n == 1 ==> SumAfter(n) == DELTA
  {
    hide Add;
    SumAdds(n, n);
    if n == 1 { FirstSum(); }
  }

  lemma FirstSum()
    ensures SumAfter(1) == DELTA
  {
    assert SumAfter(1) == Add(SumAfter(0), DELTA);
  }

  /** The sum that decryption starts from is the one encryption ends with. */
  lemma FinalSum()
    ensures SumAfter(ROUNDS) == DECRYPT_INITIAL_SUM
  {
    hide SumAfter;
    SumDoubles(1);
    SumDoubles(2);
    SumDoubles(4);
    SumDoubles(8);
    SumDoubles(16);
  }

  lemma UnroundUndoesRound(key: Key, v: Pair, sum: quad)
    ensures Unround(key, Round(key, v, sum), Add(sum, DELTA)) == v
  {
    hide Add, Sub, First, Second;
    var w := Round(key, v, sum);
    Cancel(sum, DELTA);
    Cancel(v.v1, Second(key, w.v0, Add(sum, DELTA)));
    Cancel(v.v0, First(key, v.v1, sum));
  }

  lemma RoundUndoesUnround(key: Key, v: Pair, sum: quad)
    ensures Round(key, Unround(key, v, Add(sum, DELTA)), sum) == v
  {
    hide Add, Sub, First, Second;
    var w := Unround(key, v, Add(sum, DELTA));
    Cancel(sum, DELTA);
    Cancel(v.v1, Second(key, v.v0, Add(sum, DELTA)));
    Cancel(v.v0, First(key, w.v1, sum));
  }

  /** Decryption undoes encryption, by induction over the rounds... */
  lemma {:induction false} UnroundsUndoRounds(key: Key, v: Pair, n: nat)
    ensures Unrounds(key, Rounds(key, v, n), n) == v
    decreases n
  {
    hide Round, Unround, Add;
    if n > 0 {
      UnroundUndoesRound(key, Rounds(key, v, n - 1), SumAfter(n - 1));
      UnroundsUndoRounds(key, v, n - 1);
    }
  }

  /** ...and encryption undoes decryption. */
  lemma {:induction false} RoundsUndoUnrounds(key: Key, v: Pair, n: nat)
    ensures Rounds(key, Unrounds(key, v, n), n) == v
    decreases n
  {
    hide Round, Unround, Add;
    if n > 0 {
      RoundsUndoUnrounds(key, Unround(key, v, SumAfter(n)), n - 1);
      RoundUndoesUnround(key, v, SumAfter(n - 1));
    }
  }

  // ---- little-endian words ----------------------------------------------------------------------

  function Read32(s: seq<byte>): quad
    requires |s| == 4
  {
    Low16(s[0], s[1]) as int + 0x1_0000 * (Low16(s[2], s[3]) as int)
  }

  lemma WordBytes(w: word, a: byte, b: byte)
    ensures Low16(Word(w)[0], Word(w)[1]) == w && Word(Low16(a, b)) == [a, b]
  {
  }

  lemma QuadIsRead(w: quad)
    ensures Read32(Quad(w)) == w
  {
  }

  lemma ReadIsQuad(s: seq<byte>)
    requires |s| == 4
    ensures Quad(Read32(s)) == s
  {
  }

  function ReadPair(block: seq<byte>): Pair
    requires |block| == BLOCK_BYTES
  {
    Pair(Read32(block[..4]), Read32(block[4..]))
  }

  function WritePair(v: Pair): (block: seq<byte>)
    ensures |block| == BLOCK_BYTES
  {
    Quad(v.v0) + Quad(v.v1)
  }

  lemma PairIsRead(v: Pair)
    ensures ReadPair(WritePair(v)) == v
  {
    hide Read32, Quad;
    QuadIsRead(v.v0);
    QuadIsRead(v.v1);
    assert WritePair(v)[..4] == Quad(v.v0) && WritePair(v)[4..] == Quad(v.v1);
  }

  lemma ReadIsPair(block: seq<byte>)
    requires |block| == BLOCK_BYTES
    ensures WritePair(ReadPair(block)) == block
  {
    hide Read32, Quad;
    ReadIsQuad(block[..4]);
    ReadIsQuad(block[4..]);
    assert block[..4] + block[4..] == block;
  }

  // ---- buffers of whole blocks --------------------------------------------------------------------

  function EncryptBlock(key: Key, block: seq<byte>): (out: seq<byte>)
    requires |block| == BLOCK_BYTES
    ensures |out| == BLOCK_BYTES
  {
    WritePair(Rounds(key, ReadPair(block), ROUNDS))
  }

  function DecryptBlock(key: Key, block: seq<byte>): (out: seq<byte>)
    requires |block| == BLOCK_BYTES
    ensures |out| == BLOCK_BYTES
  {
    WritePair(Unrounds(key, ReadPair(block), ROUNDS))
  }

  lemma BlockRoundTrip(key: Key, block: seq<byte>)
    requires |block| == BLOCK_BYTES
    ensures DecryptBlock(key, EncryptBlock(key, block)) == block
    ensures EncryptBlock(key, DecryptBlock(key, block)) == block
  {
    hide ReadPair, WritePair, Rounds, Unrounds;
    var v := ReadPair(block);
    ReadIsPair(block);
    PairIsRead(Rounds(key, v, ROUNDS));
    PairIsRead(Unrounds(key, v, ROUNDS));
    UnroundsUndoRounds(key, v, ROUNDS);
    RoundsUndoUnrounds(key, v, ROUNDS);
  }

  predicate Whole(s: seq<byte>) {
    |s| % BLOCK_BYTES == 0
  }

  function Encrypted(key: Key, s: seq<byte>): (out: seq<byte>)
    requires Whole(s)
    ensures |out| == |s|
  {
    if s == [] then [] else EncryptBlock(key, s[..BLOCK_BYTES]) + Encrypted(key, s[BLOCK_BYTES..])
  }

  function Decrypted(key: Key, s: seq<byte>): (out: seq<byte>)
    requires Whole(s)
    ensures |out| == |s|
  {
    if s == [] then [] else DecryptBlock(key, s[..BLOCK_BYTES]) + Decrypted(key, s[BLOCK_BYTES..])
  }

  /** For every key and every buffer of whole blocks, each direction undoes the other. */
  lemma {:induction false} DecryptionInvertsEncryption(key: Key, s: seq<byte>)
    requires Whole(s)
    ensures Decrypted(key, Encrypted(key, s)) == s
    ensures Encrypted(key, Decrypted(key, s)) == s
    decreases |s|
  {
    hide EncryptBlock, DecryptBlock;
    if s != [] {
      var block, rest := s[..BLOCK_BYTES], s[BLOCK_BYTES..];
      BlockRoundTrip(key, block);
      DecryptionInvertsEncryption(key, rest);
      var e, d := Encrypted(key, s), Decrypted(key, s);
      assert e[..BLOCK_BYTES] == EncryptBlock(key, block) && e[BLOCK_BYTES..] == Encrypted(key, rest);
      assert d[..BLOCK_BYTES] == DecryptBlock(key, block) && d[BLOCK_BYTES..] == Decrypted(key, rest);
      assert block + rest == s;
    }
  }

  // ---- the loops, in place -------------------------------------------------------------------------

  /** The thirty-two rounds of one direction, `v0`, `v1` and `sum` in hand. */
  method RunRounds(key: Key, v: Pair) returns (out: Pair)
    ensures out == Rounds(key, v, ROUNDS)
  {
    hide Add, First, Second;
    var v0, v1, sum: quad := v.v0, v.v1, 0;
    for round := 0 to ROUNDS
      invariant Pair(v0, v1) == Rounds(key, v, round) && sum == SumAfter(round)
    {
      v0 := Add(v0, First(key, v1, sum));
      sum := Add(sum, DELTA);
      v1 := Add(v1, Second(key, v0, sum));
    }
    out := Pair(v0, v1);
  }

  method RunUnrounds(key: Key, v: Pair) returns (out: Pair)
    ensures out == Unrounds(key, v, ROUNDS)
  {
    hide Add, Sub, First, Second;
    FinalSum();
    var v0, v1, sum := v.v0, v.v1, DECRYPT_INITIAL_SUM;
    for round := 0 to ROUNDS
      invariant sum == SumAfter(ROUNDS - round)
      invariant Unrounds(key, v, ROUNDS) == Unrounds(key, Pair(v0, v1), ROUNDS - round)
    {
      v1 := Sub(v1, Second(key, v0, sum));
      Cancel(SumAfter(ROUNDS - round - 1), DELTA);
      sum := Sub(sum, DELTA);
      v0 := Sub(v0, First(key, v1, sum));
    }
    out := Pair(v0, v1);
  }

  lemma {:induction false} OneMoreBlock(key: Key, s: seq<byte>, block: seq<byte>)
    requires Whole(s) && |block| == BLOCK_BYTES
    ensures Whole(s + block)
    ensures Encrypted(key, s + block) == Encrypted(key, s) + EncryptBlock(key, block)
    ensures Decrypted(key, s + block) == Decrypted(key, s) + DecryptBlock(key, block)
    decreases |s|
  {
    hide EncryptBlock, DecryptBlock;
    var all := s + block;
    if s == [] {
      assert all == block && block[..BLOCK_BYTES] == block && block[BLOCK_BYTES..] == [];
      assert EncryptBlock(key, block) + [] == EncryptBlock(key, block);
      assert DecryptBlock(key, block) + [] == DecryptBlock(key, block);
    } else {
      OneMoreBlock(key, s[BLOCK_BYTES..], block);
      assert all[..BLOCK_BYTES] == s[..BLOCK_BYTES] && all[BLOCK_BYTES..] == s[BLOCK_BYTES..] + block;
      Reassociate(EncryptBlock(key, s[..BLOCK_BYTES]), Encrypted(key, s[BLOCK_BYTES..]), EncryptBlock(key, block));
      Reassociate(DecryptBlock(key, s[..BLOCK_BYTES]), Decrypted(key, s[BLOCK_BYTES..]), DecryptBlock(key, block));
    }
  }

  class XteaKey {
    var words: Key
    var initialized: bool

    constructor FromWords(words: Key)
      ensures this.words == words && initialized
    {
      this.words, initialized := words, true;
    }

    method Clear()
      modifies this
      ensures words == Key(0, 0, 0, 0) && !initialized
    {
      words, initialized := Key(0, 0, 0, 0), false;
    }

    method EncryptBlocks(data: array<byte>) returns (error: CryptoError)
      modifies data
      ensures error == BlocksError(initialized, old(data[..]))
      ensures error == NoError ==> data[..] == Encrypted(words, old(data[..]))
      ensures error != NoError ==> data[..] == old(data[..])
    {
      hide EncryptBlock, Encrypted;
      if !initialized { return KeyNotInitialized; }
      if data.Length == 0 || data.Length % BLOCK_BYTES != 0 { return InvalidBlockSize; }
      ghost var was := data[..];
      var offset := 0;
      NothingYet(words, data[..]);
      while offset < data.Length
        invariant offset <= data.Length && offset % BLOCK_BYTES == 0
        invariant data[..offset] == Encrypted(words, was[..offset]) && data[offset..] == was[offset..]
      {
        ghost var before := data[..];
        BlockAt(before, was, offset);
        OneMoreBlock(words, was[..offset], before[offset..offset + BLOCK_BYTES]);
        EncryptOne(data, offset);
        Advanced(before, data[..], was, offset, EncryptBlock(words, before[offset..offset + BLOCK_BYTES]));
        offset := offset + BLOCK_BYTES;
      }
      assert data[..data.Length] == data[..] && was[..data.Length] == was;
      return NoError;
    }

    method EncryptOne(data: array<byte>, offset: nat)
      requires offset + BLOCK_BYTES <= data.Length
      modifies data
      ensures data[offset..offset + BLOCK_BYTES] == EncryptBlock(words, old(data[offset..offset + BLOCK_BYTES]))
      ensures data[..offset] == old(data[..offset]) && data[offset + BLOCK_BYTES..] == old(data[offset + BLOCK_BYTES..])
    {
      hide Rounds, Read32, Quad;
      var block := data[offset..offset + BLOCK_BYTES];
      var v := RunRounds(words, ReadPair(block));
      Store(data, offset, WritePair(v));
    }

    method DecryptBlocks(data: array<byte>) returns (error: CryptoError)
      modifies data
      ensures error == BlocksError(initialized, old(data[..]))
      ensures error == NoError ==> data[..] == Decrypted(words, old(data[..]))
      ensures error != NoError ==> data[..] == old(data[..])
    {
      hide DecryptBlock, Decrypted;
      if !initialized { return KeyNotInitialized; }
      if data.Length == 0 || data.Length % BLOCK_BYTES != 0 { return InvalidBlockSize; }
      ghost var was := data[..];
      var offset := 0;
      NothingYet(words, data[..]);
      while offset < data.Length
        invariant offset <= data.Length && offset % BLOCK_BYTES == 0
        invariant data[..offset] == Decrypted(words, was[..offset]) && data[offset..] == was[offset..]
      {
        ghost var before := data[..];
        BlockAt(before, was, offset);
        OneMoreBlock(words, was[..offset], before[offset..offset + BLOCK_BYTES]);
        DecryptOne(data, offset);
        Advanced(before, data[..], was, offset, DecryptBlock(words, before[offset..offset + BLOCK_BYTES]));
        offset := offset + BLOCK_BYTES;
      }
      assert data[..data.Length] == data[..] && was[..data.Length] == was;
      return NoError;
    }

    method DecryptOne(data: array<byte>, offset: nat)
      requires offset + BLOCK_BYTES <= data.Length
      modifies data
      ensures data[offset..offset + BLOCK_BYTES] == DecryptBlock(words, old(data[offset..offset + BLOCK_BYTES]))
      ensures data[..offset] == old(data[..offset]) && data[offset + BLOCK_BYTES..] == old(data[offset + BLOCK_BYTES..])
    {
      hide Unrounds, Read32, Quad;
      var block := data[offset..offset + BLOCK_BYTES];
      var v := RunUnrounds(words, ReadPair(block));
      Store(data, offset, WritePair(v));
    }
  }

  function BlocksError(initialized: bool, s: seq<byte>): CryptoError {
    if !initialized then KeyNotInitialized else if s == [] || !Whole(s) then InvalidBlockSize else NoError
  }

  method Store(data: array<byte>, offset: nat, bytes: seq<byte>)
    requires offset + |bytes| <= data.Length
    modifies data
    ensures data[offset..offset + |bytes|] == bytes
    ensures data[..offset] == old(data[..offset]) && data[offset + |bytes|..] == old(data[offset + |bytes|..])
  {
    forall i | 0 <= i < |bytes| {
      data[offset + i] := bytes[i];
    }
  }

  lemma NothingYet(key: Key, s: seq<byte>)
    ensures s[..0] == Encrypted(key, s[..0]) && s[..0] == Decrypted(key, s[..0]) && s[0..] == s
  {
  }

  lemma BlockAt(before: seq<byte>, was: seq<byte>, offset: nat)
    requires |before| == |was| && offset + BLOCK_BYTES <= |was| && before[offset..] == was[offset..]
    ensures before[offset..offset + BLOCK_BYTES] == was[offset..offset + BLOCK_BYTES]
    ensures was[..offset + BLOCK_BYTES] == was[..offset] + before[offset..offset + BLOCK_BYTES]
  {
    assert before[offset..][..BLOCK_BYTES] == was[offset..][..BLOCK_BYTES];
  }

  lemma Advanced(before: seq<byte>, after: seq<byte>, was: seq<byte>, offset: nat, block: seq<byte>)
    requires |before| == |after| == |was| && offset + BLOCK_BYTES <= |was| && |block| == BLOCK_BYTES
    requires after[offset..offset + BLOCK_BYTES] == block && after[..offset] == before[..offset]
    requires after[offset + BLOCK_BYTES..] == before[offset + BLOCK_BYTES..] && before[offset..] == was[offset..]
    ensures after[..offset + BLOCK_BYTES] == before[..offset] + block
    ensures after[offset + BLOCK_BYTES..] == was[offset + BLOCK_BYTES..]
  {
    assert before[offset..][BLOCK_BYTES..] == was[offset..][BLOCK_BYTES..];
  }

  // ---- payloads: an inner length, the message, and padding to whole blocks ---------------------------

  /** The bytes of the inner length and message, rounded up to whole blocks. */
  function EncryptedSize(plain: nat): (size: nat)
    ensures size % BLOCK_BYTES == 0 && INNER_HEADER_BYTES + plain <= size < INNER_HEADER_BYTES + plain + BLOCK_BYTES
  {
    (INNER_HEADER_BYTES + plain + (BLOCK_BYTES - 1)) / BLOCK_BYTES * BLOCK_BYTES
  }

  function PaddingSize(plain: nat): (n: nat)
    ensures n < BLOCK_BYTES
  {
    EncryptedSize(plain) - INNER_HEADER_BYTES - plain
  }

  function Inner(message: seq<byte>, padding: seq<byte>): seq<byte>
    requires |message| <= WIRE_PAYLOAD_LIMIT
  {
    Word(|message|) + message + padding
  }

  function SealError(initialized: bool, plain: nat, max: nat, random: bool): CryptoError {
    if !initialized then KeyNotInitialized
    else if max == 0 || max > WIRE_PAYLOAD_LIMIT then InvalidConfiguration
    else if plain == 0 then EmptyPlaintext
    else if plain > WIRE_PAYLOAD_LIMIT then PlaintextTooLarge
    else if EncryptedSize(plain) > max then OutputExceedsLimit
    else if PaddingSize(plain) > 0 && !random then RandomGenerationFailed
    else NoError
  }

  datatype Opened = Opened(message: seq<byte>, padding: seq<byte>, innerLength: nat, error: CryptoError)

  function Open(initialized: bool, key: Key, payload: seq<byte>): Opened {
    if BlocksError(initialized, payload) != NoError then Opened([], [], 0, BlocksError(initialized, payload))
    else
      var block := Decrypted(key, payload);
      var length := Low16(block[0], block[1]);
      if length == 0 then Opened([], [], 0, InnerLengthZero)
      else if INNER_HEADER_BYTES + length > |block| then Opened([], [], length, InnerLengthExceedsBlock)
      else
        var end := INNER_HEADER_BYTES + length;
        Opened(block[INNER_HEADER_BYTES..end], block[end..], length, NoError)
  }

  /** Opening undoes sealing, whatever the padding, as long as it completes the last block. */
  lemma OpenUndoesSeal(key: Key, message: seq<byte>, padding: seq<byte>)
    requires 1 <= |message| <= WIRE_PAYLOAD_LIMIT && Whole(Inner(message, padding))
    ensures Open(true, key, Encrypted(key, Inner(message, padding))) == Opened(message, padding, |message|, NoError)
  {
    hide Encrypted, Decrypted, Low16, Word;
    var inner := Inner(message, padding);
    DecryptionInvertsEncryption(key, inner);
    WordBytes(|message|, 0, 0);
    assert inner[0] == Word(|message|)[0] && inner[1] == Word(|message|)[1];
    var end := INNER_HEADER_BYTES + |message|;
    assert inner[INNER_HEADER_BYTES..end] == message && inner[end..] == padding;
  }

  /** An empty message can be sealed by the server, but never opened. */
  lemma NothingDoesNotOpen(key: Key, padding: seq<byte>)
    requires |padding| > 0 && Whole(Inner([], padding))
    ensures Open(true, key, Encrypted(key, Inner([], padding))) == Opened([], [], 0, InnerLengthZero)
  {
    hide Encrypted, Decrypted, Low16, Word;
    var inner := Inner([], padding);
    DecryptionInvertsEncryption(key, inner);
    WordBytes(0, 0, 0);
    assert inner[0] == Word(0)[0] && inner[1] == Word(0)[1];
  }

  /** And only sealed payloads open: what opens is the encryption of what it opens to. */
  lemma SealUndoesOpen(key: Key, payload: seq<byte>)
    requires Open(true, key, payload).error == NoError
    ensures var got := Open(true, key, payload);
      1 <= |got.message| <= WIRE_PAYLOAD_LIMIT && Whole(Inner(got.message, got.padding))
      && payload == Encrypted(key, Inner(got.message, got.padding))
  {
    hide Encrypted, Decrypted, Low16, Word;
    var block := Decrypted(key, payload);
    DecryptionInvertsEncryption(key, payload);
    WordBytes(0, block[0], block[1]);
    var got := Open(true, key, payload);
    assert block == [block[0], block[1]] + got.message + got.padding;
  }

  /** `random` is what the generator delivers when asked, or a failure. */
  method EncryptXteaPayload(key: XteaKey, plaintext: seq<byte>, max: nat, random: Option<seq<byte>>)
    returns (payload: seq<byte>, padding: seq<byte>, error: CryptoError)
    requires random.Some? ==> |random.value| >= BLOCK_BYTES
    ensures error == SealError(key.initialized, |plaintext|, max, random.Some?)
    ensures error == NoError ==>
      |padding| == PaddingSize(|plaintext|) && (padding != [] ==> padding <= random.value)
      && Whole(Inner(plaintext, padding)) && payload == Encrypted(key.words, Inner(plaintext, padding))
    ensures error != NoError ==> payload == []
  {
    hide Encrypted, Word;
    payload, padding := [], [];
    if !key.initialized { return payload, padding, KeyNotInitialized; }
    if max == 0 || max > WIRE_PAYLOAD_LIMIT { return payload, padding, InvalidConfiguration; }
    if |plaintext| == 0 { return payload, padding, EmptyPlaintext; }
    if |plaintext| > WIRE_PAYLOAD_LIMIT { return payload, padding, PlaintextTooLarge; }
    var unpadded := INNER_HEADER_BYTES + |plaintext|;
    var size := EncryptedSize(|plaintext|);
    if size > max { return payload, padding, OutputExceedsLimit; }
    if size - unpadded > 0 {
      if random.None? { return payload, padding, RandomGenerationFailed; }
      padding := random.value[..size - unpadded];
    }
    var block := new byte[size](_ => 0);
    Store(block, 0, Word(|plaintext|));
    Store(block, INNER_HEADER_BYTES, plaintext);
    Store(block, unpadded, padding);
    assert block[..] == Inner(plaintext, padding) by { ThreeParts(block[..], Word(|plaintext|), plaintext, padding); }
    error := key.EncryptBlocks(block);
    if error == NoError { payload := block[..]; }
  }

  lemma ThreeParts(s: seq<byte>, a: seq<byte>, b: seq<byte>, c: seq<byte>)
    requires |s| == |a| + |b| + |c|
    requires s[..|a|] == a && s[|a|..|a| + |b|] == b && s[|a| + |b|..] == c
    ensures s == a + b + c
  {
    assert s == s[..|a|] + s[|a|..|a| + |b|] + s[|a| + |b|..];
  }

  method DecryptXteaPayload(key: XteaKey, payload: seq<byte>) returns (got: Opened)
    ensures got == Open(key.initialized, key.words, payload)
  {
    hide Decrypted;
    if !key.initialized { return Opened([], [], 0, KeyNotInitialized); }
    if payload == [] || |payload| % BLOCK_BYTES != 0 { return Opened([], [], 0, InvalidBlockSize); }
    var block := new byte[|payload|](i requires 0 <= i < |payload| => payload[i]);
    assert block[..] == payload;
    var error := key.DecryptBlocks(block);
    var length := Low16(block[0], block[1]);
    if length == 0 { return Opened([], [], 0, InnerLengthZero); }
    var end := INNER_HEADER_BYTES + length;
    if end > block.Length { return Opened([], [], length, InnerLengthExceedsBlock); }
    got := Opened(block[INNER_HEADER_BYTES..end], block[end..], length, NoError);
  }
}
