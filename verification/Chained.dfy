/** What programs use ADC, SBC and DAA for: binary and packed decimal numbers of any length. */
module Chained {
  import opened Words
  import opened Alu

  /** ADC (or SBC) byte by byte, least significant first, the carry travelling in F. */
  function Chain(op: AluOp, xs: seq<byte>, ys: seq<byte>, f: Flags): (r: (seq<byte>, Flags))
    requires |xs| == |ys|
    ensures |r.0| == |xs|
  {
    if xs == [] then ([], f)
    else
      var (b, g) := Apply(op, xs[0], ys[0], f);
      var (rest, h) := Chain(op, xs[1..], ys[1..], g);
      ([b] + rest, h)
  }

  function Value(xs: seq<byte>): nat {
    if xs == [] then 0 else xs[0] + 256 * Value(xs[1..])
  }

  /** The two's complement reading of a nonempty little-endian number. */
  function SignedValue(xs: seq<byte>): int
    requires xs != []
  {
    if |xs| == 1 then Signed(xs[0]) else xs[0] + 256 * SignedValue(xs[1..])
  }

  function Pow(base: nat, n: nat): nat {
    if n == 0 then 1 else base * Pow(base, n - 1)
  }

  /** The signed numbers of `n` bytes. */
  predicate Fits(v: int, n: nat)
    requires n > 0
  {
    -128 * Pow(256, n - 1) <= v < 128 * Pow(256, n - 1)
  }

  lemma FitsOnce(r: byte, v: int, n: nat)
    requires n > 0
    ensures Fits(r + 256 * v, n + 1) == Fits(v, n)
  {
    assert Pow(256, n) == 256 * Pow(256, n - 1);
  }

  /** Chained ADC is addition of the whole numbers: the final C is the carry out. */
  lemma {:induction false} AdcChainSum(xs: seq<byte>, ys: seq<byte>, f: Flags)
    requires |xs| == |ys|
    ensures var (r, g) := Chain(Adc, xs, ys, f);
      Value(r) + (if g.c then Pow(256, |xs|) else 0) == Value(xs) + Value(ys) + B2I(f.c)
  {
    if xs == [] {
    } else {
      hide Add8;
      Add8Sum(xs[0], ys[0], f.c);
      var (b, g) := Apply(Adc, xs[0], ys[0], f);
      AdcChainSum(xs[1..], ys[1..], g);
      var (rest, h) := Chain(Adc, xs[1..], ys[1..], g);
      assert ([b] + rest)[1..] == rest;
    }
  }

  /** Chained ADC: the final V is the signed overflow of the whole numbers. */
  lemma {:induction false} AdcChainOverflow(xs: seq<byte>, ys: seq<byte>, f: Flags)
    requires |xs| == |ys| > 0
    ensures Chain(Adc, xs, ys, f).1.pv
         == !Fits(SignedValue(xs) + SignedValue(ys) + B2I(f.c), |xs|)
  {
    hide Add8;
    var (b, g) := Apply(Adc, xs[0], ys[0], f);
    if |xs| == 1 {
      Add8Overflow(xs[0], ys[0], f.c);
      assert Pow(256, 0) == 1;
    } else {
      Add8Sum(xs[0], ys[0], f.c);
      AdcChainOverflow(xs[1..], ys[1..], g);
      FitsOnce(b, SignedValue(xs[1..]) + SignedValue(ys[1..]) + B2I(g.c), |xs| - 1);
    }
  }

  /** Chained SBC is subtraction of the whole numbers: the final C is the borrow. */
  lemma {:induction false} SbcChainDifference(xs: seq<byte>, ys: seq<byte>, f: Flags)
    requires |xs| == |ys|
    ensures var (r, g) := Chain(Sbc, xs, ys, f);
      Value(r) - (if g.c then Pow(256, |xs|) else 0) == Value(xs) - Value(ys) - B2I(f.c)
  {
    if xs == [] {
    } else {
      hide Sub8;
      Sub8Difference(xs[0], ys[0], f.c);
      var (b, g) := Apply(Sbc, xs[0], ys[0], f);
      SbcChainDifference(xs[1..], ys[1..], g);
      var (rest, h) := Chain(Sbc, xs[1..], ys[1..], g);
      assert ([b] + rest)[1..] == rest;
    }
  }

  /** Chained SBC: the final V is the signed overflow of the whole numbers. */
  lemma {:induction false} SbcChainOverflow(xs: seq<byte>, ys: seq<byte>, f: Flags)
    requires |xs| == |ys| > 0
    ensures Chain(Sbc, xs, ys, f).1.pv
         == !Fits(SignedValue(xs) - SignedValue(ys) - B2I(f.c), |xs|)
  {
    hide Sub8;
    var (b, g) := Apply(Sbc, xs[0], ys[0], f);
    if |xs| == 1 {
      Sub8Overflow(xs[0], ys[0], f.c);
      assert Pow(256, 0) == 1;
    } else {
      Sub8Difference(xs[0], ys[0], f.c);
      SbcChainOverflow(xs[1..], ys[1..], g);
      FitsOnce(b, SignedValue(xs[1..]) - SignedValue(ys[1..]) - B2I(g.c), |xs| - 1);
    }
  }

  function Bytes(w: word): seq<byte> { [Lo(w), Hi(w)] }

  lemma BytesValue(w: word)
    ensures Value(Bytes(w)) == w && SignedValue(Bytes(w)) == Signed16(w)
  {
    assert Bytes(w)[1..] == [Hi(w)];
    assert Value([Hi(w)]) == Hi(w) + 256 * Value([Hi(w)][1..]);
  }

  lemma ValueBound(xs: seq<byte>)
    ensures Value(xs) < Pow(256, |xs|)
  {
  }

  /** ADC HL agrees with two chained byte additions in value, C and V. */
  lemma AdcHlIsTwoAdcs(x: word, y: word, f: Flags)
    ensures var (r, g) := Chain(Adc, Bytes(x), Bytes(y), f);
      var (z, h) := AdcHl(x, y, f);
      Value(r) == z && g.c == h.c && g.pv == h.pv
  {
    hide AdcHl, Chain;
    var (r, g) := Chain(Adc, Bytes(x), Bytes(y), f);
    AdcHlMeaning(x, y, f);
    AdcChainSum(Bytes(x), Bytes(y), f);
    AdcChainOverflow(Bytes(x), Bytes(y), f);
    BytesValue(x);
    BytesValue(y);
    ValueBound(r);
    assert Pow(256, 2) == 0x10000 && Pow(256, 1) == 256;
  }

  /** SBC HL agrees with two chained byte subtractions in value, C and V. */
  lemma SbcHlIsTwoSbcs(x: word, y: word, f: Flags)
    ensures var (r, g) := Chain(Sbc, Bytes(x), Bytes(y), f);
      var (z, h) := SbcHl(x, y, f);
      Value(r) == z && g.c == h.c && g.pv == h.pv
  {
    hide SbcHl, Chain;
    var (r, g) := Chain(Sbc, Bytes(x), Bytes(y), f);
    SbcHlMeaning(x, y, f);
    SbcChainDifference(Bytes(x), Bytes(y), f);
    SbcChainOverflow(Bytes(x), Bytes(y), f);
    BytesValue(x);
    BytesValue(y);
    ValueBound(r);
    assert Pow(256, 2) == 0x10000 && Pow(256, 1) == 256;
  }

  // Packed decimal.

  predicate Bcd(b: byte) { b / 16 <= 9 && b % 16 <= 9 }

  function Dec(b: byte): nat { 10 * (b / 16) + b % 16 }

  /** The operation followed by DAA. */
  function Adjusted(op: AluOp, a: byte, x: byte, f: Flags): (byte, Flags) {
    var (r, g) := Apply(op, a, x, f);
    Daa(r, g)
  }

  /** DAA turns a sum of two digits in each nibble into two decimal digits and a carry. */
  lemma DaaAfterAdd(s: byte, g: Flags, hi: nat, lo: nat)
    requires hi <= 18 && lo <= 19 && s + 256 * B2I(g.c) == 16 * hi + lo
    requires !g.n && g.h == (lo >= 16)
    ensures var u := if lo < 10 then hi else hi + 1;
      && Daa(s, g).1.c == (u >= 10)
      && Daa(s, g).0 == 16 * (if u < 10 then u else u - 10) + (if lo < 10 then lo else lo - 10)
  {
    hide Szyxp, Bit;
    assert s % 16 == if lo < 16 then lo else lo - 16;
    assert (s > 0x99 || g.c) == ((if lo < 10 then hi else hi + 1) >= 10);
  }

  lemma DaaAfterSub(s: byte, g: Flags, hi: int, lo: int)
    requires -9 <= hi <= 9 && -10 <= lo <= 9 && s - 256 * B2I(g.c) == 16 * hi + lo
    requires g.n && g.h == (lo < 0)
    ensures var u := if lo >= 0 then hi else hi - 1;
      && Daa(s, g).1.c == (u < 0)
      && Daa(s, g).0 == 16 * (if u < 0 then u + 10 else u) + (if lo < 0 then lo + 10 else lo)
  {
    hide Szyxp, Bit;
    assert s % 16 == if lo < 0 then lo + 16 else lo;
    assert g.c == ((if lo >= 0 then hi else hi - 1) < 0);
    assert !g.c ==> s <= 0x99;
  }

  lemma Nibbles(b: byte)
    requires Bcd(b)
    ensures 0 <= b / 16 <= 9 && 0 <= b % 16 <= 9 && b == 16 * (b / 16) + b % 16
    ensures Dec(b) == 10 * (b / 16) + b % 16
  {
  }

  lemma Digits(u: nat, v: nat)
    requires u <= 9 && v <= 9
    ensures 16 * u + v < 256 && Bcd(16 * u + v) && Dec(16 * u + v) == 10 * u + v
  {
  }

  /** ADC then DAA on two packed-decimal bytes: two decimal digits and a decimal carry. */
  lemma AdcDaa(a: byte, x: byte, f: Flags)
    requires Bcd(a) && Bcd(x)
    ensures var (r, g) := Adjusted(Adc, a, x, f);
      Bcd(r) && Dec(r) + 100 * B2I(g.c) == Dec(a) + Dec(x) + B2I(f.c)
  {
    hide Add8, Daa, Bcd, Dec;
    Add8Sum(a, x, f.c);
    Add8Half(a, x, f.c);
    var (s, g) := Apply(Adc, a, x, f);
    Nibbles(a);
    Nibbles(x);
    var hi, lo := a / 16 + x / 16, a % 16 + x % 16 + B2I(f.c);
    DaaAfterAdd(s, g, hi, lo);
    var u := if lo < 10 then hi else hi + 1;
    Digits(if u < 10 then u else u - 10, if lo < 10 then lo else lo - 10);
  }

  /** SBC then DAA on two packed-decimal bytes: two decimal digits and a decimal borrow. */
  lemma SbcDaa(a: byte, x: byte, f: Flags)
    requires Bcd(a) && Bcd(x)
    ensures var (r, g) := Adjusted(Sbc, a, x, f);
      Bcd(r) && Dec(r) - 100 * B2I(g.c) == Dec(a) - Dec(x) - B2I(f.c)
  {
    hide Sub8, Daa, Bcd, Dec;
    Sub8Difference(a, x, f.c);
    Sub8Half(a, x, f.c);
    var (s, g) := Apply(Sbc, a, x, f);
    Nibbles(a);
    Nibbles(x);
    var hi, lo := a / 16 - x / 16, a % 16 - x % 16 - B2I(f.c);
    DaaAfterSub(s, g, hi, lo);
    var u := if lo >= 0 then hi else hi - 1;
    Digits(if u < 0 then u + 10 else u, if lo < 0 then lo + 10 else lo);
  }

  /** The operation and DAA byte by byte. */
  function DecimalChain(op: AluOp, xs: seq<byte>, ys: seq<byte>, f: Flags): (r: (seq<byte>, Flags))
    requires |xs| == |ys|
    ensures |r.0| == |xs|
  {
    if xs == [] then ([], f)
    else
      var (b, g) := Adjusted(op, xs[0], ys[0], f);
      var (rest, h) := DecimalChain(op, xs[1..], ys[1..], g);
      ([b] + rest, h)
  }

  predicate AllBcd(xs: seq<byte>) { forall i :: 0 <= i < |xs| ==> Bcd(xs[i]) }

  function DecValue(xs: seq<byte>): nat {
    if xs == [] then 0 else Dec(xs[0]) + 100 * DecValue(xs[1..])
  }

  /** ADC and DAA, chained, is packed-decimal addition with C as the decimal carry. */
  lemma {:induction false} AdcDaaChainSum(xs: seq<byte>, ys: seq<byte>, f: Flags)
    requires |xs| == |ys| && AllBcd(xs) && AllBcd(ys)
    ensures var (r, g) := DecimalChain(Adc, xs, ys, f);
      && AllBcd(r)
      && DecValue(r) + (if g.c then Pow(100, |xs|) else 0) == DecValue(xs) + DecValue(ys) + B2I(f.c)
  {
    if xs == [] {
    } else {
      AdcDaa(xs[0], ys[0], f);
      hide Adjusted, Bcd;
      var (b, g) := Adjusted(Adc, xs[0], ys[0], f);
      AdcDaaChainSum(xs[1..], ys[1..], g);
      var (rest, h) := DecimalChain(Adc, xs[1..], ys[1..], g);
      assert ([b] + rest)[1..] == rest;
    }
  }

  /** SBC and DAA, chained, is packed-decimal subtraction: the ten's complement with C as borrow. */
  lemma {:induction false} SbcDaaChainDifference(xs: seq<byte>, ys: seq<byte>, f: Flags)
    requires |xs| == |ys| && AllBcd(xs) && AllBcd(ys)
    ensures var (r, g) := DecimalChain(Sbc, xs, ys, f);
      && AllBcd(r)
      && DecValue(r) - (if g.c then Pow(100, |xs|) else 0) == DecValue(xs) - DecValue(ys) - B2I(f.c)
  {
    if xs == [] {
    } else {
      SbcDaa(xs[0], ys[0], f);
      hide Adjusted, Bcd;
      var (b, g) := Adjusted(Sbc, xs[0], ys[0], f);
      SbcDaaChainDifference(xs[1..], ys[1..], g);
      var (rest, h) := DecimalChain(Sbc, xs[1..], ys[1..], g);
      assert ([b] + rest)[1..] == rest;
    }
  }
}
