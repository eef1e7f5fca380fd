/** The rotate-and-xor checksum of a sector. */
module Crc8 {
  /** One bit to the left, the top bit coming round. */
  function Rol(x: bv8): bv8 { ((x & 0x7f) << 1) | ((x & 0x80) >> 7) }

  function RolBy(x: bv8, n: nat): bv8 {
    if n == 0 then x else Rol(RolBy(x, n - 1))
  }

  /** The loop of the checksum: xor in a byte, take the top bit off, shift, put it back. */
  method CalcCrc8(buf: seq<bv8>) returns (crc: bv8)
    ensures crc == Crc(buf)
  {
    crc := 0;
    var i := 0;
    while i < |buf|
      invariant 0 <= i <= |buf| && crc == Crc(buf[..i])
    {
      assert buf[..i + 1] == buf[..i] + [buf[i]];
      crc := crc ^ buf[i];
      var oh := (crc & 0x80) >> 7;
      crc := crc & 0x7f;
      crc := crc << 1;
      crc := crc | oh;
      i := i + 1;
    }
    assert buf[..i] == buf;
  }

  function Fold(crc: bv8, b: bv8): bv8 { Rol(crc ^ b) }

  function Crc(buf: seq<bv8>): bv8 {
    if buf == [] then 0 else Fold(Crc(buf[..|buf| - 1]), buf[|buf| - 1])
  }

  /** The independent reading: every byte rotated by its distance from the end, all xored. */
  function Spread(buf: seq<bv8>): bv8 {
    if buf == [] then 0 else RolBy(buf[0], |buf|) ^ Spread(buf[1..])
  }

  lemma RolXor(x: bv8, y: bv8)
    ensures Rol(x ^ y) == Rol(x) ^ Rol(y)
  {
  }

  lemma {:induction false} RolByXor(x: bv8, y: bv8, n: nat)
    ensures RolBy(x ^ y, n) == RolBy(x, n) ^ RolBy(y, n)
  {
    if n > 0 {
      RolByXor(x, y, n - 1);
      RolXor(RolBy(x, n - 1), RolBy(y, n - 1));
    }
  }

  lemma {:induction false} RolByAdd(x: bv8, m: nat, n: nat)
    ensures RolBy(RolBy(x, m), n) == RolBy(x, m + n)
  {
    if n > 0 {
      RolByAdd(x, m, n - 1);
    }
  }

  /** The checksum of a concatenation. */
  lemma {:induction false} CrcConcat(a: seq<bv8>, b: seq<bv8>)
    ensures Crc(a + b) == RolBy(Crc(a), |b|) ^ Crc(b)
  {
    if b == [] {
      assert a + b == a;
    } else {
      var k := |b| - 1;
      assert (a + b)[..|a + b| - 1] == a + b[..k];
      CrcConcat(a, b[..k]);
      RolXor(RolBy(Crc(a), k), Crc(b[..k]) ^ b[k]);
      assert (RolBy(Crc(a), k) ^ Crc(b[..k])) ^ b[k] == RolBy(Crc(a), k) ^ (Crc(b[..k]) ^ b[k]);
    }
  }

  /** The loop computes the spread form, for any length. */
  lemma {:induction false} CrcIsSpread(buf: seq<bv8>)
    ensures Crc(buf) == Spread(buf)
  {
    if buf != [] {
      assert buf == [buf[0]] + buf[1..];
      CrcConcat([buf[0]], buf[1..]);
      CrcIsSpread(buf[1..]);
      CrcOne(buf[0]);
      RolByAdd(buf[0], 1, |buf| - 1);
      assert RolBy(buf[0], 1) == Rol(RolBy(buf[0], 0));
    }
  }

  lemma CrcOne(b: bv8)
    ensures Crc([b]) == Rol(b)
  {
    assert [b][..0] == [];
    assert Crc([]) == 0;
    assert (0 as bv8) ^ b == b;
  }

  function XorAll(a: seq<bv8>, b: seq<bv8>): (r: seq<bv8>)
    requires |a| == |b|
    ensures |r| == |a|
  {
    seq(|a|, i requires 0 <= i < |a| => a[i] ^ b[i])
  }

  /** The checksum is linear over xor. */
  lemma {:induction false} CrcXor(a: seq<bv8>, b: seq<bv8>)
    requires |a| == |b|
    ensures Crc(XorAll(a, b)) == Crc(a) ^ Crc(b)
  {
    if a != [] {
      var k := |a| - 1;
      assert XorAll(a, b)[..k] == XorAll(a[..k], b[..k]);
      CrcXor(a[..k], b[..k]);
      var x, y := Crc(a[..k]), Crc(b[..k]);
      assert (x ^ y) ^ (a[k] ^ b[k]) == (x ^ a[k]) ^ (y ^ b[k]);
      RolXor(x ^ a[k], y ^ b[k]);
    }
  }

  predicate Has(x: bv8, mask: bv8) { x & mask != 0 }

  /** An odd number of the low four bits are one. */
  predicate OddLow(x: bv8) { (Has(x, 1) != Has(x, 2)) != (Has(x, 4) != Has(x, 8)) }

  predicate OddHigh(x: bv8) { (Has(x, 16) != Has(x, 32)) != (Has(x, 64) != Has(x, 128)) }

  /** True for an odd number of one bits. */
  predicate Odd(x: bv8) { OddLow(x) != OddHigh(x) }

  function OddTotal(buf: seq<bv8>): bool {
    if buf == [] then false else OddTotal(buf[..|buf| - 1]) != Odd(buf[|buf| - 1])
  }

  lemma HasXor(x: bv8, y: bv8, mask: bv8)
    requires mask == 1 || mask == 2 || mask == 4 || mask == 8 || mask == 16 || mask == 32 || mask == 64 || mask == 128
    ensures Has(x ^ y, mask) == (Has(x, mask) != Has(y, mask))
  {
    if mask == 1 {
    } else if mask == 2 {
    } else if mask == 4 {
    } else if mask == 8 {
    } else if mask == 16 {
    } else if mask == 32 {
    } else if mask == 64 {
    }
  }

  lemma OddXor(x: bv8, y: bv8)
    ensures Odd(x ^ y) == (Odd(x) != Odd(y))
  {
    hide Has;
    HasXor(x, y, 1);
    HasXor(x, y, 2);
    HasXor(x, y, 4);
    HasXor(x, y, 8);
    HasXor(x, y, 16);
    HasXor(x, y, 32);
    HasXor(x, y, 64);
    HasXor(x, y, 128);
  }

  lemma HasRol(x: bv8)
    ensures Has(Rol(x), 1) == Has(x, 128) && Has(Rol(x), 2) == Has(x, 1) && Has(Rol(x), 4) == Has(x, 2)
    ensures Has(Rol(x), 8) == Has(x, 4) && Has(Rol(x), 16) == Has(x, 8) && Has(Rol(x), 32) == Has(x, 16)
    ensures Has(Rol(x), 64) == Has(x, 32) && Has(Rol(x), 128) == Has(x, 64)
  {
  }

  lemma OddRol(x: bv8)
    ensures Odd(Rol(x)) == Odd(x)
  {
    hide Has, Rol;
    HasRol(x);
  }

  lemma OddZero()
    ensures !Odd(0)
  {
  }

  lemma OddFold(crc: bv8, b: bv8)
    ensures Odd(Fold(crc, b)) == (Odd(crc) != Odd(b))
  {
    hide Odd, Rol;
    OddXor(crc, b);
    OddRol(crc ^ b);
  }

  /** The parity of the checksum is the parity of all the bits. */
  lemma {:induction false} CrcParity(buf: seq<bv8>)
    ensures Odd(Crc(buf)) == OddTotal(buf)
  {
    hide Odd, Fold;
    OddZero();
    if buf != [] {
      CrcParity(buf[..|buf| - 1]);
      OddFold(Crc(buf[..|buf| - 1]), buf[|buf| - 1]);
    }
  }

  lemma RolInjective(x: bv8, y: bv8)
    requires Rol(x) == Rol(y)
    ensures x == y
  {
  }

  lemma {:induction false} RolByInjective(x: bv8, y: bv8, n: nat)
    requires RolBy(x, n) == RolBy(y, n)
    ensures x == y
  {
    hide Rol;
    if n > 0 {
      RolInjective(RolBy(x, n - 1), RolBy(y, n - 1));
      RolByInjective(x, y, n - 1);
    }
  }

  function Mix(before: bv8, byte: bv8, after: bv8): bv8 { before ^ (byte ^ after) }

  lemma CrcOfOne(b: bv8, p: seq<bv8>, t: seq<bv8>)
    ensures Crc(p + ([b] + t)) == Mix(RolBy(Crc(p), 1 + |t|), RolBy(b, 1 + |t|), Crc(t))
  {
    CrcConcat(p, [b] + t);
    CrcConcat([b], t);
    CrcOne(b);
    assert RolBy(b, 1) == Rol(RolBy(b, 0));
    RolByAdd(b, 1, |t|);
  }

  lemma OneByteInContext(x: bv8, y: bv8, p: seq<bv8>, t: seq<bv8>)
    requires Crc(p + ([x] + t)) == Crc(p + ([y] + t))
    ensures x == y
  {
    hide Crc, RolBy, Mix;
    CrcOfOne(x, p, t);
    CrcOfOne(y, p, t);
    var n := 1 + |t|;
    Cancel(RolBy(Crc(p), n), RolBy(x, n), RolBy(y, n), Crc(t));
    RolByInjective(x, y, n);
  }

  /** Two buffers that differ in exactly one byte have different checksums. */
  lemma OneByteDetected(a: seq<bv8>, b: seq<bv8>, i: nat)
    requires |a| == |b| && i < |a| && a[i] != b[i]
    requires forall j :: 0 <= j < |a| && j != i ==> a[j] == b[j]
    ensures Crc(a) != Crc(b)
  {
    hide Crc;
    var p, t := a[..i], a[i + 1..];
    assert a == p + ([a[i]] + t);
    assert b == p + ([b[i]] + t);
    if Crc(a) == Crc(b) {
      OneByteInContext(a[i], b[i], p, t);
    }
  }

  lemma Cancel(h: bv8, x: bv8, y: bv8, t: bv8)
    requires Mix(h, x, t) == Mix(h, y, t)
    ensures x == y
  {
  }

  /** Two buffers of one length that differ in an odd number of bits have different checksums. */
  lemma OddErrorDetected(a: seq<bv8>, b: seq<bv8>)
    requires |a| == |b| && OddTotal(XorAll(a, b))
    ensures Crc(a) != Crc(b)
  {
    hide Odd, Crc;
    CrcXor(a, b);
    CrcParity(XorAll(a, b));
    OddXor(Crc(a), Crc(b));
  }
}
