/** Keyed hashing of RFC 2104 over the streaming engine. */
module Hmac {
  import opened Sha2

  // ---------------------------------------------------------------- section 2 of RFC 2104

  /** The key made exactly one block long; a longer key is hashed first. */
  function KeyBlock(a: Algorithm, f: Compression, key: Bytes): (k: Bytes)
    requires Supported(a)
    ensures |k| == a.block
  {
    var short := if |key| > a.block then Digest(a, f, key) else key;
    short + Zeros(a.block - |short|)
  }

  function XorPad(k: Bytes, c: Byte): (p: Bytes)
    ensures |p| == |k|
  {
    seq(|k|, i requires 0 <= i < |k| => k[i] ^ c)
  }

  function InnerPad(a: Algorithm, f: Compression, key: Bytes): (p: Bytes)
    requires Supported(a)
    ensures |p| == a.block
  {
    XorPad(KeyBlock(a, f, key), 0x36)
  }

  function OuterPad(a: Algorithm, f: Compression, key: Bytes): (p: Bytes)
    requires Supported(a)
    ensures |p| == a.block
  {
    XorPad(KeyBlock(a, f, key), 0x5c)
  }

  /** H((K xor opad) || H((K xor ipad) || text)). */
  function Mac(a: Algorithm, f: Compression, key: Bytes, text: Bytes): (d: Bytes)
    requires Supported(a)
    ensures |d| == a.digest
  {
    Digest(a, f, OuterPad(a, f, key) + Digest(a, f, InnerPad(a, f, key) + text))
  }

  /** Texts that leave room for the key block in front of them. */
  predicate Fits(a: Algorithm, key: Bytes, text: Bytes) {
    |key| < MAX_BYTES && a.block + |text| < MAX_BYTES
  }

  /** One-shot hashing. */
  method Hash(a: Algorithm, f: Compression, m: Bytes) returns (d: Bytes)
    requires Supported(a) && |m| < MAX_BYTES
    ensures d == Digest(a, f, m)
  {
    hide *;
    var h := new Hasher(a, f);
    h.Update(m);
    assert [] + m == m;
    d := h.Finish();
  }

  /** The two padded key blocks. */
  method KeyPads(a: Algorithm, f: Compression, key: Bytes) returns (innerPad: array<Byte>, outerPad: array<Byte>)
    requires Supported(a) && |key| < MAX_BYTES
    ensures fresh(innerPad) && fresh(outerPad) && innerPad != outerPad
    ensures innerPad[..] == InnerPad(a, f, key) && outerPad[..] == OuterPad(a, f, key)
  {
    hide Digest;
    var prime := key;
    if |key| > a.block {
      prime := Hash(a, f, key);
    }
    prime := prime + Zeros(a.block - |prime|);
    assert prime == KeyBlock(a, f, key);
    hide KeyBlock, Supported;
    innerPad := new Byte[a.block](_ => 0);
    outerPad := new Byte[a.block](_ => 0);
    for i := 0 to a.block
      invariant forall j :: 0 <= j < i ==> innerPad[j] == prime[j] ^ 0x36 && outerPad[j] == prime[j] ^ 0x5c
    {
      innerPad[i] := prime[i] ^ 0x36;
      outerPad[i] := prime[i] ^ 0x5c;
    }
    assert innerPad[..] == XorPad(prime, 0x36) && outerPad[..] == XorPad(prime, 0x5c);
  }

  lemma DigestFitsBlock(a: Algorithm)
    requires Supported(a)
    ensures a.digest <= a.block && 2 * a.block < MAX_BYTES
  {
  }

  class Keyed {
    const alg: Algorithm
    const f: Compression
    const inner: Hasher
    const outerPad: array<Byte>
    ghost var key: Bytes
    ghost var text: Bytes

    ghost predicate Valid()
      reads this, inner, inner.buffer, outerPad
    {
      && Supported(alg) && inner.alg == alg && inner.f == f
      && inner.Valid() && inner.message == InnerPad(alg, f, key) + text
      && outerPad != inner.buffer && outerPad[..] == OuterPad(alg, f, key)
    }

    constructor (a: Algorithm, compression: Compression, k: Bytes)
      requires Supported(a) && |k| < MAX_BYTES
      ensures Valid() && fresh(inner) && fresh(inner.buffer) && fresh(outerPad)
      ensures alg == a && f == compression && key == k && text == []
    {
      hide Hasher.Valid, Digest, KeyBlock, XorPad, Supported, InnerPad, OuterPad;
      alg, f := a, compression;
      key, text := k, [];
      var innerPad, padded := KeyPads(a, compression, k);
      outerPad := padded;
      inner := new Hasher(a, compression);
      new;
      inner.Update(innerPad[..]);
      assert [] + innerPad[..] == InnerPad(a, compression, k) + [];
    }

    method Update(data: Bytes)
      requires Valid()
      modifies this, inner, inner.buffer
      ensures Valid() && key == old(key) && text == old(text) + data
    {
      hide Hasher.Valid, Digest, KeyBlock, XorPad, Supported, InnerPad, OuterPad;
      inner.Update(data);
      assert InnerPad(alg, f, key) + text + data == InnerPad(alg, f, key) + (text + data);
      text := text + data;
    }

    method Finish() returns (d: Bytes)
      requires Valid() && Fits(alg, key, text)
      modifies this, inner, inner.buffer
      ensures d == Mac(alg, f, old(key), old(text))
    {
      hide Hasher.Valid, Digest, EngineDigest, KeyBlock, XorPad, Supported, InnerPad, OuterPad;
      DigestFitsBlock(alg);
      var innerDigest := inner.Finish();
      var outer := new Hasher(alg, f);
      outer.Update(outerPad[..]);
      outer.Update(innerDigest);
      assert [] + outerPad[..] + innerDigest == outerPad[..] + innerDigest;
      d := outer.Finish();
    }
  }

  /** One-shot. */
  method ComputeMac(a: Algorithm, f: Compression, key: Bytes, text: Bytes) returns (d: Bytes)
    requires Supported(a) && Fits(a, key, text)
    ensures d == Mac(a, f, key, text)
  {
    hide Keyed.Valid, Mac, Supported;
    var h := new Keyed(a, f, key);
    h.Update(text);
    assert [] + text == text;
    d := h.Finish();
  }

  /** A key longer than a block and its digest are the same key. */
  lemma LongKeyIsItsDigest(a: Algorithm, f: Compression, key: Bytes, text: Bytes)
    requires Supported(a) && |key| > a.block
    ensures Mac(a, f, key, text) == Mac(a, f, Digest(a, f, key), text)
  {
    hide Digest, XorPad;
    assert KeyBlock(a, f, key) == KeyBlock(a, f, Digest(a, f, key));
  }
}
