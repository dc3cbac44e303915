/** Fixed-width unsigned integers and the little-endian byte layout that a
    store through a `uint16_t*` or `uint32_t*` produces on the engine's
    targets. */
module Bytes {
  type uint8 = x: int | 0 <= x < 0x100
  type uint16 = x: int | 0 <= x < 0x1_0000
  type uint32 = x: int | 0 <= x < 0x1_0000_0000

  /** 256 to the power `n`: the number of values `n` bytes can hold. */
  function Pow256(n: nat): (r: nat)
    ensures r >= 1
  {
    if n == 0 then 1 else 256 * Pow256(n - 1)
  }

  /** The `width` low-order bytes of `v`, least significant first; the value
      is truncated to `width` bytes as a C cast to a narrower type does. */
  function LittleEndian(v: nat, width: nat): (r: seq<uint8>)
    ensures |r| == width
  {
    if width == 0 then [] else [v % 256] + LittleEndian(v / 256, width - 1)
  }

  /** The unsigned value of a little-endian byte string. */
  function FromLittleEndian(bs: seq<uint8>): (r: nat)
    ensures r < Pow256(|bs|)
  {
    if bs == [] then 0 else bs[0] + 256 * FromLittleEndian(bs[1..])
  }

  /** Reading back what was stored gives the value modulo the width. */
  lemma {:induction false} ReadBackStored(v: nat, width: nat)
    ensures FromLittleEndian(LittleEndian(v, width)) == v % Pow256(width)
  {
    if width > 0 {
      var rest := LittleEndian(v / 256, width - 1);
      assert LittleEndian(v, width)[1..] == rest;
      ReadBackStored(v / 256, width - 1);
      DivMod256(v, Pow256(width - 1));
    }
  }

  lemma DivMod256(v: nat, p: nat)
    requires p >= 1
    ensures v % 256 + 256 * ((v / 256) % p) == v % (256 * p)
  {
    var q := v / 256;
    var r := v % 256;
    assert v == 256 * q + r;
    var q2 := q / p;
    var r2 := q % p;
    assert q == p * q2 + r2;
    assert v == (256 * p) * q2 + (256 * r2 + r);
    assert 0 <= 256 * r2 + r < 256 * p;
    LemmaUniqueMod(v, 256 * p, q2, 256 * r2 + r);
  }

  lemma LemmaUniqueMod(v: nat, m: nat, q: int, r: int)
    requires m > 0 && v == m * q + r && 0 <= r < m
    ensures v % m == r
  {
    var q', r' := v / m, v % m;
    assert m * q' + r' == m * q + r;
    assert m * (q - q') == r' - r;
    if q - q' >= 1 {
      MulAtLeast(m, q - q');
    } else if q' - q >= 1 {
      MulAtLeast(m, q' - q);
    }
  }

  lemma MulAtLeast(m: nat, k: int)
    requires k >= 1
    ensures m * k >= m
  {
    assert m * k == m + m * (k - 1);
  }

  /** Storing what was read gives back the same bytes. */
  lemma {:induction false} StoreReadBack(bs: seq<uint8>)
    ensures LittleEndian(FromLittleEndian(bs), |bs|) == bs
  {
    if bs != [] {
      var v := FromLittleEndian(bs);
      var t := FromLittleEndian(bs[1..]);
      assert v % 256 == bs[0] && v / 256 == t;
      StoreReadBack(bs[1..]);
    }
  }

  /** A value below `Pow256(width)` survives a store and a read unchanged. */
  lemma FitsRoundTrip(v: nat, width: nat)
    requires v < Pow256(width)
    ensures FromLittleEndian(LittleEndian(v, width)) == v
  {
    ReadBackStored(v, width);
  }

  /** Truncating to the width before storing changes no stored byte. */
  lemma StoreTruncated(v: nat, width: nat)
    ensures LittleEndian(v % Pow256(width), width) == LittleEndian(v, width)
  {
    StoreReadBack(LittleEndian(v, width));
    ReadBackStored(v, width);
  }

  lemma DivExact(n: nat, w: nat)
    requires w > 0
    ensures (n * w) / w == n
  {
    var q, r := (n * w) / w, (n * w) % w;
    assert w * q + r == w * n;
    assert w * (n - q) == r;
    if n - q >= 1 {
      MulAtLeast(w, n - q);
    } else if q - n >= 1 {
      MulAtLeast(w, q - n);
    }
  }

  lemma ModSmall(x: nat, m: nat)
    requires x < m
    ensures x % m == x
  {
    LemmaUniqueMod(x, m, 0, x);
  }
}
