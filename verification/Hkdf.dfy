/** Key derivation of sections 2.2 and 2.3 of RFC 5869 over the keyed hash. */
module Hkdf {
  import opened Sha2
  import opened Hmac

  /** No salt means a digest's length of zeros. */
  method Extract(a: Algorithm, f: Compression, salt: Bytes, ikm: Bytes) returns (prk: Bytes)
    requires Supported(a) && Fits(a, salt, ikm)
    ensures prk == Mac(a, f, if salt == [] then Zeros(a.digest) else salt, ikm)
  {
    var s := if |salt| == 0 then Zeros(a.digest) else salt;
    prk := ComputeMac(a, f, s, ikm);
  }

  /** T(i): the MAC of the previous block, the info and the counter byte. */
  function BlockOf(a: Algorithm, f: Compression, prk: Bytes, info: Bytes, i: nat): (t: Bytes)
    requires Supported(a) && i <= 255
    ensures i > 0 ==> |t| == a.digest
  {
    if i == 0 then [] else Mac(a, f, prk, BlockOf(a, f, prk, info, i - 1) + info + [i as Byte])
  }

  /** T(1) || ... || T(n). */
  function Blocks(a: Algorithm, f: Compression, prk: Bytes, info: Bytes, n: nat): (t: Bytes)
    requires Supported(a) && n <= 255
    ensures |t| == n * a.digest
  {
    if n == 0 then [] else Blocks(a, f, prk, info, n - 1) + BlockOf(a, f, prk, info, n)
  }

  function BlockCount(a: Algorithm, length: nat): nat
    requires Supported(a)
  {
    (length + a.digest - 1) / a.digest
  }

  /** The first `length` bytes of the blocks; nothing when the counter byte could not count them. */
  function Expanded(a: Algorithm, f: Compression, prk: Bytes, info: Bytes, length: nat): Bytes
    requires Supported(a)
  {
    if BlockCount(a, length) > 255 then []
    else
      CountCovers(a, length);
      Blocks(a, f, prk, info, BlockCount(a, length))[..length]
  }

  lemma CountCovers(a: Algorithm, length: nat)
    requires Supported(a)
    ensures length <= BlockCount(a, length) * a.digest < length + a.digest
    ensures BlockCount(a, length) > 255 <==> length > 255 * a.digest
  {
    if a.digest == 32 {
    } else if a.digest == 48 {
    } else {
      assert a.digest == 64;
    }
  }

  /** What one round hashes. */
  predicate RoundFits(a: Algorithm, prk: Bytes, info: Bytes) {
    |prk| < MAX_BYTES && a.block + a.digest + |info| + 1 < MAX_BYTES
  }

  /** One round: a fresh keyed hash over the previous block, the info and the counter. */
  method Round(a: Algorithm, f: Compression, prk: Bytes, info: Bytes, i: nat, t: Bytes) returns (next: Bytes)
    requires Supported(a) && RoundFits(a, prk, info) && 1 <= i <= 255 && t == BlockOf(a, f, prk, info, i - 1)
    ensures next == BlockOf(a, f, prk, info, i)
  {
    hide Mac, Keyed.Valid, Supported;
    var h := new Keyed(a, f, prk);
    if i > 1 {
      h.Update(t);
    }
    assert h.text == t;
    if |info| > 0 {
      h.Update(info);
    }
    assert h.text == t + info;
    h.Update([i as Byte]);
    next := h.Finish();
  }

  method Expand(a: Algorithm, f: Compression, prk: Bytes, info: Bytes, length: nat) returns (okm: Bytes)
    requires Supported(a) && RoundFits(a, prk, info)
    ensures okm == Expanded(a, f, prk, info, length)
  {
    hide Mac, BlockOf;
    CountCovers(a, length);
    if length == 0 {
      return [];
    }
    var n := (length + a.digest - 1) / a.digest;
    if n > 255 {
      return [];
    }
    var t: Bytes := [];
    okm := [];
    StartOfChain(a, f, prk, info);
    for i := 1 to n + 1
      invariant t == BlockOf(a, f, prk, info, i - 1)
      invariant okm == Produced(a, f, prk, info, length, i - 1)
    {
      t := Round(a, f, prk, info, i, t);
      NextProduced(a, f, prk, info, length, i);
      var take := if length - |okm| < a.digest then length - |okm| else a.digest;
      okm := okm + t[..take];
    }
  }

  lemma StartOfChain(a: Algorithm, f: Compression, prk: Bytes, info: Bytes)
    requires Supported(a)
    ensures BlockOf(a, f, prk, info, 0) == []
  {
  }

  /** The output after `i` rounds: the blocks so far, cut to the wanted length. */
  function Produced(a: Algorithm, f: Compression, prk: Bytes, info: Bytes, length: nat, i: nat): Bytes
    requires Supported(a) && i <= 255
  {
    var all := Blocks(a, f, prk, info, i);
    if |all| <= length then all else all[..length]
  }

  lemma NextProduced(a: Algorithm, f: Compression, prk: Bytes, info: Bytes, length: nat, i: nat)
    requires Supported(a) && 1 <= i <= BlockCount(a, length) <= 255
    ensures var okm := Produced(a, f, prk, info, length, i - 1);
      var take := if length - |okm| < a.digest then length - |okm| else a.digest;
      |okm| <= length && 0 <= take <= a.digest
      && Produced(a, f, prk, info, length, i) == okm + BlockOf(a, f, prk, info, i)[..take]
  {
    hide BlockOf;
  }

  /** A shorter output is a prefix of a longer one, and both have the length that was asked for. */
  lemma ShorterIsPrefix(a: Algorithm, f: Compression, prk: Bytes, info: Bytes, short: nat, long: nat)
    requires Supported(a) && short <= long <= 255 * a.digest
    ensures |Expanded(a, f, prk, info, long)| == long
    ensures Expanded(a, f, prk, info, short) == Expanded(a, f, prk, info, long)[..short]
  {
    hide Blocks, BlockCount;
    CountCovers(a, short);
    CountCovers(a, long);
    CountsGrow(a, short, long);
    BlocksPrefix(a, f, prk, info, BlockCount(a, short), BlockCount(a, long));
  }

  lemma CountsGrow(a: Algorithm, short: nat, long: nat)
    requires Supported(a) && short <= long
    ensures BlockCount(a, short) <= BlockCount(a, long)
  {
    if a.digest == 32 {
    } else if a.digest == 48 {
    } else {
      assert a.digest == 64;
    }
  }

  lemma {:induction false} BlocksPrefix(a: Algorithm, f: Compression, prk: Bytes, info: Bytes, m: nat, n: nat)
    requires Supported(a) && m <= n <= 255
    ensures m * a.digest <= n * a.digest
    ensures Blocks(a, f, prk, info, n)[..m * a.digest] == Blocks(a, f, prk, info, m)
  {
    hide BlockOf;
    if m < n {
      BlocksPrefix(a, f, prk, info, m, n - 1);
      var prior := Blocks(a, f, prk, info, n - 1);
      assert Blocks(a, f, prk, info, n)[..|prior|] == prior;
    }
  }
}
