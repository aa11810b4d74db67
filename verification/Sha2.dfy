/**
 The streaming SHA-2 engine: a buffer of one block, a running state, and the padding of
 sections 5.1.1 and 5.1.2 of FIPS 180-4.  The compression function is a parameter, so the
 results hold whatever it computes.
 */
module Sha2 {

  type Byte = bv8
  type Bytes = seq<Byte>
  type Words = s: seq<nat> | |s| == 8 witness [0, 0, 0, 0, 0, 0, 0, 0]
  type Compression = (Words, Bytes) -> Words

  /** Block size, size of the length field, digest size and word size in bytes, and the initial state. */
  datatype Algorithm = Algorithm(block: nat, lengthField: nat, digest: nat, word: nat, iv: Words)

  const SHA256 := Algorithm(64, 8, 32, 4,
    [0x6a09e667, 0xbb67ae85, 0x3c6ef372, 0xa54ff53a, 0x510e527f, 0x9b05688c, 0x1f83d9ab, 0x5be0cd19])

  const SHA512 := Algorithm(128, 16, 64, 8,
    [0x6a09e667f3bcc908, 0xbb67ae8584caa73b, 0x3c6ef372fe94f82b, 0xa54ff53a5f1d36f1,
     0x510e527fade682d1, 0x9b05688c2b3e6c1f, 0x1f83d9abfb41bd6b, 0x5be0cd19137e2179])

  const SHA384 := Algorithm(128, 16, 48, 8,
    [0xcbbb9d5dc1059ed8, 0x629a292a367cd507, 0x9159015a3070dd17, 0x152fecd8f70e5939,
     0x67332667ffc00b31, 0x8eb44a8768581511, 0xdb0c2e0d64f98fa7, 0x47b5481dbefa4fa4])

  predicate Supported(a: Algorithm) {
    a == SHA256 || a == SHA384 || a == SHA512
  }

  /** Messages whose length in bits fits the 64-bit counter. */
  const MAX_BYTES := 0x2000_0000_0000_0000
  const TWO_64 := 0x1_0000_0000_0000_0000

  // ---------------------------------------------------------------- the standard's definition

  /** `n` bytes of `x`, most significant first. */
  function BigEndian(x: nat, n: nat): (b: Bytes)
    ensures |b| == n
  {
    if n == 0 then [] else BigEndian(x / 256, n - 1) + [(x % 256) as Byte]
  }

  function Zeros(n: nat): Bytes {
    seq(n, _ => 0)
  }

  /** The number of zero bytes that makes the padded message a whole number of blocks. */
  function ZeroCount(a: Algorithm, n: nat): nat
    requires a.block > 0
  {
    (a.block - (n + 1 + a.lengthField) % a.block) % a.block
  }

  /** The message, a one bit, zeros, and the length of the message in bits. */
  function Padded(a: Algorithm, m: Bytes): Bytes
    requires a.block > 0
  {
    m + [0x80] + Zeros(ZeroCount(a, |m|)) + BigEndian(8 * |m|, a.lengthField)
  }

  /** Folds the compression function over the whole blocks of `m`; an unfinished block is not touched. */
  function Absorbed(a: Algorithm, f: Compression, s: Words, m: Bytes): Words
    requires a.block > 0
    decreases |m|
  {
    if |m| < a.block then s else Absorbed(a, f, f(s, m[..a.block]), m[a.block..])
  }

  function WordBytes(a: Algorithm, s: seq<nat>): (b: Bytes)
    ensures |b| == |s| * a.word
  {
    if s == [] then [] else BigEndian(s[0], a.word) + WordBytes(a, s[1..])
  }

  function Output(a: Algorithm, s: Words): (b: Bytes)
    requires Supported(a)
    ensures |b| == a.digest
  {
    WordBytes(a, s)[..a.digest]
  }

  function Digest(a: Algorithm, f: Compression, m: Bytes): (d: Bytes)
    requires Supported(a)
    ensures |d| == a.digest
  {
    Output(a, Absorbed(a, f, a.iv, Padded(a, m)))
  }

  /** The padded length is the least whole number of blocks that holds message, marker and length. */
  lemma PaddingIsLeast(a: Algorithm, m: Bytes)
    requires Supported(a)
    ensures |Padded(a, m)| % a.block == 0
    ensures |m| + 1 + a.lengthField <= |Padded(a, m)| < |m| + 1 + a.lengthField + a.block
  {
    hide Padded;
    PaddedLength(a, m);
    if a.block == 64 {
      LeastMultiple64(|m| + 1 + a.lengthField);
    } else {
      LeastMultiple128(|m| + 1 + a.lengthField);
    }
  }

  /** The example of section 5.1.1: the three letters abc, the marker, zeros, and the length, 24 bits. */
  lemma PaddedAbc()
    ensures Padded(SHA256, [0x61, 0x62, 0x63]) == [0x61, 0x62, 0x63, 0x80] + Zeros(59) + [0x18]
  {
    hide BigEndian;
    var m: Bytes := [0x61, 0x62, 0x63];
    TwentyFour();
    assert ZeroCount(SHA256, 3) == 52;
    assert m + [0x80] + Zeros(52) + (Zeros(7) + [0x18]) == [0x61, 0x62, 0x63, 0x80] + Zeros(59) + [0x18];
  }

  lemma TwentyFour()
    ensures BigEndian(24, 8) == Zeros(7) + [0x18]
  {
    assert BigEndian(24, 1) == [0x18];
    assert BigEndian(0, 7) == Zeros(7);
    HighBytesAreZero(24, 7, 1);
  }

  lemma PaddedLength(a: Algorithm, m: Bytes)
    requires a.block > 0
    ensures |Padded(a, m)| == |m| + 1 + a.lengthField + ZeroCount(a, |m|)
  {
    hide ZeroCount, BigEndian;
  }

  lemma LeastMultiple64(n: nat)
    ensures (n + (64 - n % 64) % 64) % 64 == 0
  {
  }

  lemma LeastMultiple128(n: nat)
    ensures (n + (128 - n % 128) % 128) % 128 == 0
  {
  }

  /** Whole blocks can be absorbed ahead of the rest. */
  lemma {:induction false} AbsorbedAppend(a: Algorithm, f: Compression, s: Words, m: Bytes, n: Bytes)
    requires Supported(a) && |m| % a.block == 0
    ensures Absorbed(a, f, s, m + n) == Absorbed(a, f, Absorbed(a, f, s, m), n)
    decreases |m|
  {
    if |m| < a.block {
      assert m == [] && m + n == n;
    } else {
      assert (m + n)[..a.block] == m[..a.block] && (m + n)[a.block..] == m[a.block..] + n;
      WholeRest(a, |m|);
      AbsorbedAppend(a, f, f(s, m[..a.block]), m[a.block..], n);
    }
  }

  lemma WholeRest(a: Algorithm, n: nat)
    requires Supported(a) && n >= a.block
    ensures (n - a.block) % a.block == n % a.block
  {
    if a.block == 64 {
      Rest64(n);
    } else {
      Rest128(n);
    }
  }

  lemma Rest64(n: nat)
    requires n >= 64
    ensures (n - 64) % 64 == n % 64
  {
  }

  lemma Rest128(n: nat)
    requires n >= 128
    ensures (n - 128) % 128 == n % 128
  {
  }

  lemma AbsorbedBlock(a: Algorithm, f: Compression, s: Words, m: Bytes, b: Bytes)
    requires Supported(a) && |m| % a.block == 0 && |b| == a.block
    ensures Absorbed(a, f, s, m + b) == f(Absorbed(a, f, s, m), b)
    ensures |m + b| % a.block == 0
  {
    AbsorbedAppend(a, f, s, m, b);
    assert b[..a.block] == b && b[a.block..] == [];
    WholeRest(a, |m + b|);
  }

  lemma JoinNext(w: Bytes, data: Bytes, off: nat, n: nat)
    requires off + n <= |data|
    ensures w + data[..off] + data[off..][..n] == w + data[..off + n]
  {
    assert data[..off] + data[off..][..n] == data[..off + n];
  }

  lemma JoinHeld(w: Bytes, n: nat, data: Bytes)
    requires n <= |w|
    ensures w + data == w[..|w| - n] + (w[|w| - n..] + data)
  {
  }

  // ---------------------------------------------------------------- the streaming engine

  class Hasher {
    const alg: Algorithm
    const f: Compression
    const buffer: array<Byte>
    var state: Words
    var bufferLen: nat
    var total: nat
    ghost var message: Bytes

    /** State and buffer stand for the bytes `w`: the whole blocks are absorbed, the rest is buffered. */
    ghost predicate Holds(w: Bytes)
      reads this`state, this`bufferLen, buffer
    {
      && Supported(alg) && buffer.Length == alg.block
      && bufferLen < alg.block && bufferLen <= |w| && (|w| - bufferLen) % alg.block == 0
      && buffer[..bufferLen] == w[|w| - bufferLen..]
      && state == Absorbed(alg, f, alg.iv, w[..|w| - bufferLen])
    }

    ghost predicate Valid()
      reads this, buffer
    {
      Holds(message) && total == |message| % TWO_64
    }

    constructor (a: Algorithm, compression: Compression)
      requires Supported(a)
      ensures Valid() && fresh(buffer) && alg == a && f == compression && message == []
    {
      alg, f := a, compression;
      state, bufferLen, total := a.iv, 0, 0;
      buffer := new Byte[a.block](_ => 0);
      message := [];
    }

    /** Copies bytes to the end of the buffered ones. */
    method CopyIn(data: Bytes)
      requires bufferLen + |data| <= buffer.Length
      modifies this`bufferLen, buffer
      ensures bufferLen == old(bufferLen) + |data|
      ensures buffer[..bufferLen] == old(buffer[..bufferLen]) + data
    {
      forall i | 0 <= i < |data| {
        buffer[bufferLen + i] := data[i];
      }
      bufferLen := bufferLen + |data|;
    }

    /** Moves as much of `data` as fits into the buffer, and absorbs the buffer when it is full. */
    method Fill(data: Bytes, ghost w: Bytes) returns (take: nat)
      requires Holds(w)
      modifies this`state, this`bufferLen, buffer
      ensures take <= |data| && Holds(w + data[..take])
      ensures take == |data| || (take == alg.block - old(bufferLen) && bufferLen == 0)
    {
      hide Absorbed, Supported;
      var need := alg.block - bufferLen;
      take := if |data| < need then |data| else need;
      ghost var whole, tail := w[..|w| - bufferLen], w[|w| - bufferLen..];
      CopyIn(data[..take]);
      ghost var pending := tail + data[..take];
      JoinHeld(w, bufferLen - take, data[..take]);
      assert buffer[..bufferLen] == pending;
      if bufferLen == alg.block {
        AbsorbedBlock(alg, f, alg.iv, whole, pending);
        assert buffer[..] == pending;
        state := f(state, buffer[..]);
        bufferLen := 0;
        assert (whole + pending)[..|whole + pending|] == whole + pending;
      } else {
        assert (whole + pending)[..|whole|] == whole && (whole + pending)[|whole|..] == pending;
      }
    }

    method AbsorbBlock(block: Bytes, ghost w: Bytes)
      requires Holds(w) && bufferLen == 0 && |block| == alg.block
      modifies this`state
      ensures Holds(w + block)
    {
      assert w[..|w|] == w && (w + block)[..|w + block|] == w + block;
      AbsorbedBlock(alg, f, alg.iv, w, block);
      state := f(state, block);
    }

    /** The remainder, possibly nothing, waits in the buffer. */
    method Stash(rest: Bytes, ghost w: Bytes)
      requires Holds(w) && bufferLen == 0 && |rest| < alg.block
      modifies this`bufferLen, buffer
      ensures Holds(w + rest)
    {
      forall i | 0 <= i < |rest| {
        buffer[i] := rest[i];
      }
      bufferLen := |rest|;
      assert buffer[..bufferLen] == rest;
      assert (w + rest)[..|w|] == w == w[..|w|] && (w + rest)[|w|..] == rest;
    }

    /** Whole blocks straight from the data. */
    method TakeBlocks(data: Bytes, ghost w: Bytes) returns (off: nat)
      requires Holds(w) && bufferLen == 0
      modifies this`state
      ensures off <= |data| < off + alg.block && Holds(w + data[..off])
    {
      assert alg.block > 0;
      hide Holds;
      off := 0;
      assert w + data[..0] == w;
      while |data| - off >= alg.block
        invariant off <= |data| && Holds(w + data[..off]) && bufferLen == 0
      {
        JoinNext(w, data, off, alg.block);
        AbsorbBlock(data[off..][..alg.block], w + data[..off]);
        off := off + alg.block;
      }
    }

    /** Tops up a partial block, takes whole blocks, and keeps the remainder. */
    method Take(data: Bytes, ghost w: Bytes)
      requires Holds(w)
      modifies this`state, this`bufferLen, buffer
      ensures Holds(w + data)
    {
      hide Holds;
      var first := 0;
      if bufferLen > 0 {
        first := Fill(data, w);
      } else {
        assert w + data[..0] == w;
      }
      if first == |data| {
        assert data[..first] == data;
        return;
      }
      var rest := data[first..];
      ghost var v := w + data[..first];
      var off := TakeBlocks(rest, v);
      Stash(rest[off..], v + rest[..off]);
      assert v + rest[..off] + rest[off..] == w + data;
    }

    method Update(data: Bytes)
      requires Valid()
      modifies this, buffer
      ensures Valid() && message == old(message) + data
    {
      hide Holds;
      ghost var w := message;
      if |data| == 0 {
        assert message + data == message;
        return;
      }
      CountBytes(total, |message|, |data|);
      total := (total + |data|) % TWO_64;
      message := message + data;
      Take(data, w);
    }

    /** The padding goes through the buffer; the engine is spent afterwards. */
    method Finish() returns (digest: Bytes)
      requires Valid()
      modifies this, buffer
      ensures digest == EngineDigest(alg, f, old(message))
      ensures |old(message)| < MAX_BYTES ==> digest == Digest(alg, f, old(message))
    {
      hide Holds, PadFor, Padded, EnginePadded, Supported, Absorbed;
      ghost var m := message;
      BufferHasRoom(m);
      var bitLength := (total * 8) % TWO_64;
      var pad := PadBytes(bufferLen, bitLength);
      PadIsEnginePadding(alg, m, bufferLen, total, bitLength);
      FeedPadding(pad, m);
      AllAbsorbed(EnginePadded(alg, m));
      digest := Output(alg, state);
      EnginePaddingIsStandardIff(alg, m);
    }

    method FeedPadding(pad: Bytes, ghost m: Bytes)
      requires Holds(m)
      modifies this`state, this`bufferLen, buffer
      ensures Holds(m + pad)
    {
      hide Holds;
      var off := 0;
      assert m + pad[..0] == m;
      while off < |pad|
        invariant off <= |pad| && Holds(m + pad[..off])
        decreases |pad| - off
      {
        BufferHasRoom(m + pad[..off]);
        var take := Fill(pad[off..], m + pad[..off]);
        JoinNext(m, pad, off, take);
        off := off + take;
      }
      assert pad[..off] == pad;
    }

    lemma BufferHasRoom(w: Bytes)
      requires Holds(w)
      ensures Supported(alg) && bufferLen < alg.block && bufferLen <= |w| && (|w| - bufferLen) % alg.block == 0
    {
    }

    lemma AllAbsorbed(w: Bytes)
      requires Holds(w) && |w| % alg.block == 0
      ensures state == Absorbed(alg, f, alg.iv, w)
    {
      hide Absorbed;
      RemainderIsZero(alg, |w|, bufferLen);
      assert w[..|w|] == w;
    }

    /** The marker, the zeros and the length field, computed from the number of buffered bytes. */
    method PadBytes(pending: nat, bitLength: nat) returns (pad: Bytes)
      requires Supported(alg)
      ensures pad == PadFor(alg, pending, bitLength)
    {
      assert alg.block > 0;
      hide BigEndian, Supported;
      var room := alg.block - alg.lengthField;
      var rem := (pending + 1) % alg.block;
      var zeros := if rem <= room then room - rem else room + alg.block - rem;
      assert zeros == PadZeros(alg, pending);
      hide PadZeros;
      pad := [0x80] + Zeros(zeros);
      if alg.lengthField == 16 {
        pad := pad + BigEndian(0, 8) + BigEndian(bitLength, 8);
      } else {
        pad := pad + BigEndian(bitLength, 8);
      }
    }
  }

  function PadZeros(a: Algorithm, pending: nat): nat
    requires Supported(a)
  {
    var room := a.block - a.lengthField;
    var rem := (pending + 1) % a.block;
    if rem <= room then room - rem else room + a.block - rem
  }

  /** The padding as the engine computes it. */
  function PadFor(a: Algorithm, pending: nat, bitLength: nat): Bytes
    requires Supported(a)
  {
    [0x80] + Zeros(PadZeros(a, pending)) + EngineLength(a, bitLength)
  }

  /** The length field as the engine writes it: the upper half of a long one stays zero. */
  function EngineLength(a: Algorithm, bitLength: nat): Bytes {
    if a.lengthField == 16 then BigEndian(0, 8) + BigEndian(bitLength, 8) else BigEndian(bitLength, 8)
  }

  lemma RemainderIsZero(a: Algorithm, n: nat, r: nat)
    requires Supported(a) && r < a.block && r <= n && n % a.block == 0 && (n - r) % a.block == 0
    ensures r == 0
  {
    if a.block == 64 {
      Remainder64(n, r);
    } else {
      Remainder128(n, r);
    }
  }

  lemma Remainder64(n: nat, r: nat)
    requires r < 64 && r <= n && n % 64 == 0 && (n - r) % 64 == 0
    ensures r == 0
  {
  }

  lemma Remainder128(n: nat, r: nat)
    requires r < 128 && r <= n && n % 128 == 0 && (n - r) % 128 == 0
    ensures r == 0
  {
  }

  function Pow256(n: nat): nat {
    if n == 0 then 1 else 256 * Pow256(n - 1)
  }

  /** A number that fits `k` bytes has zeros ahead of them in a longer field. */
  lemma {:induction false} HighBytesAreZero(x: nat, n: nat, k: nat)
    requires x < Pow256(k)
    ensures BigEndian(x, n + k) == BigEndian(0, n) + BigEndian(x, k)
  {
    if k == 0 {
      assert x == 0;
    } else {
      HighBytesAreZero(x / 256, n, k - 1);
      assert BigEndian(0, n) + (BigEndian(x / 256, k - 1) + [(x % 256) as Byte])
        == BigEndian(0, n) + BigEndian(x / 256, k - 1) + [(x % 256) as Byte];
    }
  }

  lemma CountBytes(total: nat, n: nat, more: nat)
    requires total == n % TWO_64
    ensures (total + more) % TWO_64 == (n + more) % TWO_64
  {
  }

  lemma ZerosFor64(n: nat, pending: nat)
    requires pending <= n && (n - pending) % 64 == 0
    ensures var rem := (pending + 1) % 64;
      (if rem <= 56 then 56 - rem else 56 + 64 - rem) == (64 - (n + 9) % 64) % 64
  {
    var k := (n - pending) / 64;
    assert n == pending + 64 * k;
    assert (n + 9) % 64 == (pending + 9) % 64;
  }

  lemma ZerosFor128(n: nat, pending: nat)
    requires pending <= n && (n - pending) % 128 == 0
    ensures var rem := (pending + 1) % 128;
      (if rem <= 112 then 112 - rem else 112 + 128 - rem) == (128 - (n + 17) % 128) % 128
  {
    var k := (n - pending) / 128;
    assert n == pending + 128 * k;
    assert (n + 17) % 128 == (pending + 17) % 128;
  }

  lemma ZerosAgree(a: Algorithm, n: nat, pending: nat)
    requires Supported(a) && pending < a.block && pending <= n && (n - pending) % a.block == 0
    ensures PadZeros(a, pending) == ZeroCount(a, n)
  {
    if a.block == 64 {
      ZerosFor64(n, pending);
    } else {
      ZerosFor128(n, pending);
    }
  }

  lemma PadIsPadding(a: Algorithm, n: nat, pending: nat, bitLength: nat)
    requires Supported(a) && pending < a.block && pending <= n && (n - pending) % a.block == 0
    requires bitLength == 8 * n < TWO_64
    ensures PadFor(a, pending, bitLength) == [0x80] + Zeros(ZeroCount(a, n)) + BigEndian(8 * n, a.lengthField)
  {
    hide BigEndian, ZeroCount, PadZeros;
    ZerosAgree(a, n, pending);
    assert Pow256(8) == TWO_64;
    HighBytesAreZero(8 * n, 8, 8);
  }

  lemma PadMakesPadded(a: Algorithm, m: Bytes, pending: nat, bitLength: nat)
    requires Supported(a) && pending < a.block && pending <= |m| && (|m| - pending) % a.block == 0
    requires bitLength == 8 * |m| < TWO_64
    ensures m + PadFor(a, pending, bitLength) == Padded(a, m) && |Padded(a, m)| % a.block == 0
  {
    PaddingIsLeast(a, m);
    hide PadFor, ZeroCount, BigEndian, Supported;
    PadIsPadding(a, |m|, pending, bitLength);
  }

  // ---------------------------------------------------------------- up to which length

  /** A message as the engine pads it: its length in bits is taken from a 64-bit counter. */
  function EnginePadded(a: Algorithm, m: Bytes): Bytes
    requires Supported(a)
  {
    m + PadFor(a, Pending(a, |m|), BitCount(|m|))
  }

  /** The bytes still buffered after a message of this length. */
  function Pending(a: Algorithm, n: nat): nat
    requires Supported(a)
  {
    if a.block == 64 then n % 64 else n % 128
  }

  /** The number of bits, through a 64-bit counter of bytes. */
  function BitCount(n: nat): nat {
    n % TWO_64 * 8 % TWO_64
  }

  /** The digest of a message of any length, as the engine pads it. */
  function EngineDigest(a: Algorithm, f: Compression, m: Bytes): Bytes
    requires Supported(a)
  {
    Output(a, Absorbed(a, f, a.iv, EnginePadded(a, m)))
  }

  lemma PendingIsRemainder(a: Algorithm, n: nat, pending: nat)
    requires Supported(a) && pending < a.block && pending <= n && (n - pending) % a.block == 0
    ensures pending == Pending(a, n)
  {
    if a.block == 64 {
      Pending64(n, pending);
    } else {
      Pending128(n, pending);
    }
  }

  lemma {:induction false} Pending64(n: nat, pending: nat)
    requires pending < 64 && pending <= n && (n - pending) % 64 == 0
    ensures pending == n % 64
  {
    if n > pending {
      Rest64(n - pending);
      Pending64(n - 64, pending);
      Rest64(n);
    }
  }

  lemma {:induction false} Pending128(n: nat, pending: nat)
    requires pending < 128 && pending <= n && (n - pending) % 128 == 0
    ensures pending == n % 128
  {
    if n > pending {
      Rest128(n - pending);
      Pending128(n - 128, pending);
      Rest128(n);
    }
  }

  lemma PadLength(a: Algorithm, pending: nat, bitLength: nat)
    requires Supported(a)
    ensures |PadFor(a, pending, bitLength)| == 1 + PadZeros(a, pending) + a.lengthField
  {
    hide PadZeros, BigEndian;
  }

  /** What the engine appends, from its buffer and its counter, always ends the last block. */
  lemma PadIsEnginePadding(a: Algorithm, m: Bytes, pending: nat, total: nat, bitLength: nat)
    requires Supported(a) && pending < a.block && pending <= |m| && (|m| - pending) % a.block == 0
    requires total == |m| % TWO_64 && bitLength == total * 8 % TWO_64
    ensures m + PadFor(a, pending, bitLength) == EnginePadded(a, m) && |EnginePadded(a, m)| % a.block == 0
  {
    PaddingIsLeast(a, m);
    ZerosAgree(a, |m|, pending);
    PaddedLength(a, m);
    PadLength(a, pending, bitLength);
    PendingIsRemainder(a, |m|, pending);
    hide PadFor, PadZeros, ZeroCount, Padded;
  }

  lemma {:induction false} BigEndianInjective(x: nat, y: nat, n: nat)
    requires x < Pow256(n) && y < Pow256(n) && BigEndian(x, n) == BigEndian(y, n)
    ensures x == y
  {
    if n > 0 {
      var hx, hy := BigEndian(x / 256, n - 1), BigEndian(y / 256, n - 1);
      assert BigEndian(x, n)[..n - 1] == hx && BigEndian(y, n)[..n - 1] == hy;
      assert BigEndian(x, n)[n - 1] == (x % 256) as Byte && BigEndian(y, n)[n - 1] == (y % 256) as Byte;
      SameByte(x % 256, y % 256);
      BigEndianInjective(x / 256, y / 256, n - 1);
    }
  }

  lemma SameByte(x: nat, y: nat)
    requires x < 256 && y < 256 && x as Byte == y as Byte
    ensures x == y
  {
    ByteValue(x);
    ByteValue(y);
  }

  /** A number below 256 survives as a byte; the cases by magnitude keep the solver's bit reasoning short. */
  lemma ByteValue(x: int)
    requires 0 <= x < 256
    ensures (x as Byte) as int == x
  {
    if x < 16 {
    } else if x < 32 {
    } else if x < 64 {
    } else if x < 128 {
    } else {
    }
  }

  /** The number of bits, once through the counter of bytes and once through that of bits. */
  lemma BitsCounted(n: nat)
    ensures BitCount(n) == 8 * n % TWO_64
  {
    var k := n / TWO_64;
    assert n == n % TWO_64 + TWO_64 * k;
    assert 8 * n == n % TWO_64 * 8 + TWO_64 * (8 * k);
    ManyTurns(n % TWO_64 * 8, 8 * k);
  }

  lemma {:induction false} ManyTurns(x: nat, k: nat)
    ensures (x + TWO_64 * k) % TWO_64 == x % TWO_64
  {
    if k > 0 {
      ManyTurns(x, k - 1);
      assert x + TWO_64 * k == (x + TWO_64 * (k - 1)) + TWO_64;
    }
  }

  lemma FieldSizes()
    ensures Pow256(8) == TWO_64 && Pow256(16) == TWO_64 * TWO_64
  {
    assert Pow256(8) == TWO_64;
    assert Pow256(12) == Pow256(8) * 0x1_0000_0000;
    assert Pow256(16) == Pow256(12) * 0x1_0000_0000;
  }

  /** The length field of the engine is the standard's exactly while the number of bits fits 64 bits. */
  lemma LengthFieldIff(a: Algorithm, bits: nat)
    requires Supported(a) && bits < Pow256(a.lengthField)
    ensures BigEndian(bits, a.lengthField) == EngineLength(a, bits % TWO_64) <==> bits < TWO_64
  {
    hide BigEndian, Pow256;
    FieldSizes();
    var low := bits % TWO_64;
    if a.lengthField == 16 {
      HighBytesAreZero(low, 8, 8);
      if BigEndian(bits, 16) == BigEndian(low, 16) {
        BigEndianInjective(bits, low, 16);
      }
    }
  }

  /**
   The engine pads as the standard does exactly below 2^61 bytes, among all lengths the
   standard itself allows: there SHA-256 ends, while SHA-384 and SHA-512 would go on to 2^128
   bits but the engine leaves the upper half of the length field zero.
   */
  lemma EnginePaddingIsStandardIff(a: Algorithm, m: Bytes)
    requires Supported(a)
    ensures |m| < MAX_BYTES ==> EnginePadded(a, m) == Padded(a, m)
    ensures 8 * |m| < Pow256(a.lengthField) ==> (EnginePadded(a, m) == Padded(a, m) <==> |m| < MAX_BYTES)
  {
    var n := |m|;
    RemainderFits(a, n);
    ZerosAgree(a, n, Pending(a, n));
    BitsCounted(n);
    if n < MAX_BYTES {
      PadMakesPadded(a, m, Pending(a, n), BitCount(n));
    } else if 8 * n < Pow256(a.lengthField) {
      LengthFieldIff(a, 8 * n);
      SameEnds(a, m);
    }
  }

  lemma RemainderFits(a: Algorithm, n: nat)
    requires Supported(a)
    ensures Pending(a, n) < a.block && Pending(a, n) <= n && (n - Pending(a, n)) % a.block == 0
  {
    if a.block == 64 {
      Whole64(n);
    } else {
      Whole128(n);
    }
  }

  lemma {:induction false} Whole64(n: nat)
    ensures n % 64 < 64 && n % 64 <= n && (n - n % 64) % 64 == 0
  {
    if n >= 64 {
      Whole64(n - 64);
      Rest64(n);
    }
  }

  lemma {:induction false} Whole128(n: nat)
    ensures n % 128 < 128 && n % 128 <= n && (n - n % 128) % 128 == 0
  {
    if n >= 128 {
      Whole128(n - 128);
      Rest128(n);
    }
  }

  /** Two paddings that agree up to their length fields agree exactly when these do. */
  lemma SameEnds(a: Algorithm, m: Bytes)
    requires Supported(a) && PadZeros(a, Pending(a, |m|)) == ZeroCount(a, |m|)
    ensures EnginePadded(a, m) == Padded(a, m) <==> BigEndian(8 * |m|, a.lengthField) == EngineLength(a, BitCount(|m|))
  {
    hide BigEndian, PadZeros, ZeroCount, EngineLength, Zeros, Pending, BitCount;
    var front := m + [0x80] + Zeros(ZeroCount(a, |m|));
    var own := EngineLength(a, BitCount(|m|));
    assert EnginePadded(a, m) == front + own by {
      assert m + ([0x80] + Zeros(ZeroCount(a, |m|)) + own) == front + own;
    }
    assert Padded(a, m) == front + BigEndian(8 * |m|, a.lengthField);
    CommonFront(front, own, BigEndian(8 * |m|, a.lengthField));
  }

  lemma CommonFront(front: Bytes, x: Bytes, y: Bytes)
    ensures front + x == front + y <==> x == y
  {
    assert (front + x)[|front|..] == x && (front + y)[|front|..] == y;
  }

  // ---------------------------------------------------------------- any chunking

  function Joined(chunks: seq<Bytes>): Bytes {
    if chunks == [] then [] else Joined(chunks[..|chunks| - 1]) + chunks[|chunks| - 1]
  }

  /** However the message is cut, feeding the pieces gives the digest of the whole. */
  method HashChunks(a: Algorithm, f: Compression, chunks: seq<Bytes>) returns (digest: Bytes)
    requires Supported(a)
    ensures digest == EngineDigest(a, f, Joined(chunks))
    ensures |Joined(chunks)| < MAX_BYTES ==> digest == Digest(a, f, Joined(chunks))
  {
    var h := new Hasher(a, f);
    for i := 0 to |chunks|
      invariant h.Valid() && h.alg == a && h.f == f && fresh(h) && fresh(h.buffer)
      invariant h.message == Joined(chunks[..i])
    {
      assert chunks[..i + 1][..i] == chunks[..i];
      h.Update(chunks[i]);
    }
    assert chunks[..|chunks|] == chunks;
    digest := h.Finish();
  }
}
