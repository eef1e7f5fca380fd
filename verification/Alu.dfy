/** The flag register and the arithmetic macros, with the emulator's xor formulas for H, V and C. */
module Alu {
  import opened Words

  /** The F byte, one field a bit, from bit 7 down to bit 0. */
  datatype Flags = Flags(s: bool, z: bool, y: bool, h: bool, x: bool, pv: bool, n: bool, c: bool)

  function B2I(b: bool): (i: nat) { if b then 1 else 0 }

  function FlagsByte(f: Flags): byte {
    128 * B2I(f.s) + 64 * B2I(f.z) + 32 * B2I(f.y) + 16 * B2I(f.h)
    + 8 * B2I(f.x) + 4 * B2I(f.pv) + 2 * B2I(f.n) + B2I(f.c)
  }

  function ByteFlags(b: byte): Flags {
    Flags(Bit(b, 128), Bit(b, 64), Bit(b, 32), Bit(b, 16), Bit(b, 8), Bit(b, 4), Bit(b, 2), Bit(b, 1))
  }

  /** PUSH AF stores F as a byte and POP AF splits it again: nothing is lost either way. */
  lemma FlagsRoundTrip(f: Flags)
    ensures ByteFlags(FlagsByte(f)) == f
  {
    var hi := 8 * B2I(f.s) + 4 * B2I(f.z) + 2 * B2I(f.y) + B2I(f.h);
    var lo := 8 * B2I(f.x) + 4 * B2I(f.pv) + 2 * B2I(f.n) + B2I(f.c);
    assert FlagsByte(f) == 16 * hi + lo;
    hide Bit;
    NibbleBits(f.s, f.z, f.y, f.h, hi);
    NibbleBits(f.x, f.pv, f.n, f.c, lo);
    BitsOfNibbles(hi, lo);
  }

  lemma NibbleBits(b3: bool, b2: bool, b1: bool, b0: bool, n: int)
    requires n == 8 * B2I(b3) + 4 * B2I(b2) + 2 * B2I(b1) + B2I(b0)
    ensures Bit(n, 8) == b3 && Bit(n, 4) == b2 && Bit(n, 2) == b1 && Bit(n, 1) == b0
  {
  }

  lemma BitsOfNibbles(hi: nat, lo: nat)
    requires hi < 16 && lo < 16
    ensures var v := 16 * hi + lo;
      && Bit(v, 128) == Bit(hi, 8) && Bit(v, 64) == Bit(hi, 4) && Bit(v, 32) == Bit(hi, 2)
      && Bit(v, 16) == Bit(hi, 1) && Bit(v, 8) == Bit(lo, 8) && Bit(v, 4) == Bit(lo, 4)
      && Bit(v, 2) == Bit(lo, 2) && Bit(v, 1) == Bit(lo, 1)
  {
    var v := 16 * hi + lo;
    assert v / 128 == hi / 8 && v / 64 == hi / 4 && v / 32 == hi / 2 && v / 16 == hi;
    assert v / 8 == 2 * hi + lo / 8 && v / 4 == 4 * hi + lo / 4 && v / 2 == 8 * hi + lo / 2;
  }

  lemma FlagsByteRoundTrip(b: byte)
    ensures FlagsByte(ByteFlags(b)) == b
  {
    hide Bit;
    BitsOfNibbles(b / 16, b % 16);
    NibbleValue(b / 16);
    NibbleValue(b % 16);
    var f := ByteFlags(b);
    assert 8 * B2I(f.s) + 4 * B2I(f.z) + 2 * B2I(f.y) + B2I(f.h) == b / 16;
    assert 8 * B2I(f.x) + 4 * B2I(f.pv) + 2 * B2I(f.n) + B2I(f.c) == b % 16;
    assert FlagsByte(f) == 16 * (b / 16) + b % 16;
  }

  lemma NibbleValue(n: nat)
    requires n < 16
    ensures n == 8 * B2I(Bit(n, 8)) + 4 * B2I(Bit(n, 4)) + 2 * B2I(Bit(n, 2)) + B2I(Bit(n, 1))
  {
  }

  // Bit by bit, on the eight bits as if they were flags.

  function Both(p: Flags, q: Flags): Flags {
    Flags(p.s && q.s, p.z && q.z, p.y && q.y, p.h && q.h,
          p.x && q.x, p.pv && q.pv, p.n && q.n, p.c && q.c)
  }

  function Either(p: Flags, q: Flags): Flags {
    Flags(p.s || q.s, p.z || q.z, p.y || q.y, p.h || q.h,
          p.x || q.x, p.pv || q.pv, p.n || q.n, p.c || q.c)
  }

  function Differ(p: Flags, q: Flags): Flags {
    Flags(p.s != q.s, p.z != q.z, p.y != q.y, p.h != q.h,
          p.x != q.x, p.pv != q.pv, p.n != q.n, p.c != q.c)
  }

  function And8(a: byte, b: byte): byte { FlagsByte(Both(ByteFlags(a), ByteFlags(b))) }

  function Or8(a: byte, b: byte): byte { FlagsByte(Either(ByteFlags(a), ByteFlags(b))) }

  function Xor8(a: byte, b: byte): byte { FlagsByte(Differ(ByteFlags(a), ByteFlags(b))) }

  /** The SZYX table entry of `v`: sign, zero and the two undocumented copies, all else clear. */
  function Szyx(v: byte): Flags {
    Flags(Bit(v, 128), v == 0, Bit(v, 32), false, Bit(v, 8), false, false, false)
  }

  /** The SZYXP table entry of `v`. */
  function Szyxp(v: byte): Flags { Szyx(v).(pv := EvenParity(v)) }

  /** Carry and overflow of the operation that gave `z` from `a` and `x`: the overflow table is
      indexed by bits 8 and 7 of `a ^ x ^ z`. */
  predicate Overflow(a: int, x: int, z: int) { XorBit(a, x, z, 128) != XorBit(a, x, z, 256) }

  /** ADD and ADC: `cin` is 0 or the carry flag. */
  function Add8(a: byte, x: byte, cin: bool): (r: (byte, Flags)) {
    var z := a + x + B2I(cin);
    (Byte(z), Szyx(Byte(z)).(h := XorBit(a, x, z, 16), pv := Overflow(a, x, z), c := z / 256 != 0))
  }

  /** SUB and SBC. */
  function Sub8(a: byte, x: byte, cin: bool): (r: (byte, Flags)) {
    var z := a - x - B2I(cin);
    (Byte(z), Szyx(Byte(z)).(h := XorBit(a, x, z, 16), pv := Overflow(a, x, z), n := true,
                             c := XorBit(a, x, z, 256)))
  }

  /** CP: the flags of SUB, but bits 5 and 3 come from the operand. */
  function Compare(a: byte, x: byte): Flags {
    Sub8(a, x, false).1.(y := Bit(x, 32), x := Bit(x, 8))
  }

  datatype AluOp = Add | Adc | Sub | Sbc | And | Xor | Or | Cp

  function AluOf(y: nat): AluOp
    requires y < 8
  {
    [Add, Adc, Sub, Sbc, And, Xor, Or, Cp][y]
  }

  /** The eight-bit accumulator operations: the new A and F. */
  function Apply(op: AluOp, a: byte, x: byte, f: Flags): (byte, Flags) {
    match op
    case Add => Add8(a, x, false)
    case Adc => Add8(a, x, f.c)
    case Sub => Sub8(a, x, false)
    case Sbc => Sub8(a, x, f.c)
    case And => (And8(a, x), Szyxp(And8(a, x)).(h := true))
    case Xor => (Xor8(a, x), Szyxp(Xor8(a, x)))
    case Or => (Or8(a, x), Szyxp(Or8(a, x)))
    case Cp => (a, Compare(a, x))
  }

  function Inc8(x: byte, f: Flags): (byte, Flags) {
    var z := x + 1;
    (Byte(z), Szyx(Byte(z)).(h := XorBit(x, 0, z, 16), pv := Overflow(x, 0, z), c := f.c))
  }

  function Dec8(x: byte, f: Flags): (byte, Flags) {
    var z := x - 1;
    (Byte(z), Szyx(Byte(z)).(h := XorBit(x, 0, z, 16), pv := Overflow(x, 0, z), n := true, c := f.c))
  }

  function Negate(a: byte): (byte, Flags) {
    var z := 0 - a;
    (Byte(z), Szyx(Byte(z)).(h := XorBit(a, 0, z, 16), pv := Overflow(a, 0, z), n := true,
                             c := XorBit(a, 0, z, 256)))
  }

  function Daa(a: byte, f: Flags): (byte, Flags) {
    var c := a > 0x99 || f.c;
    var d := (if c then 0x60 else 0) + (if a % 16 > 9 || f.h then 6 else 0);
    var r := Byte(if f.n then a - d else a + d);
    (r, Szyxp(r).(h := Bit(r, 16) != Bit(a, 16), n := f.n, c := c))
  }

  function AddHl(x: word, y: word, f: Flags): (word, Flags) {
    var z := x + y;
    (Word(z), f.(y := Bit(z, 0x2000), h := XorBit(x, y, z, 0x1000), x := Bit(z, 0x800), n := false,
                 c := XorBit(x, y, z, 0x10000)))
  }

  /** Sign, zero and bits 5 and 3 of the high byte, unless the word is zero. */
  function Szyx16(z: word): Flags {
    if z == 0 then Flags(false, true, false, false, false, false, false, false)
    else Flags(Bit(z, 0x8000), false, Bit(z, 0x2000), false, Bit(z, 0x800), false, false, false)
  }

  function AdcHl(x: word, y: word, f: Flags): (r: (word, Flags)) {
    var z := x + y + B2I(f.c);
    (Word(z), Szyx16(Word(z)).(h := XorBit(x, y, z, 0x1000),
                               pv := XorBit(x, y, z, 0x8000) != XorBit(x, y, z, 0x10000),
                               c := z / 0x10000 != 0))
  }

  function SbcHl(x: word, y: word, f: Flags): (r: (word, Flags)) {
    var z := x - y - B2I(f.c);
    (Word(z), Szyx16(Word(z)).(h := XorBit(x, y, z, 0x1000), n := true,
                               pv := XorBit(x, y, z, 0x8000) != XorBit(x, y, z, 0x10000),
                               c := XorBit(x, y, z, 0x10000)))
  }

  datatype RotOp = Rlc | Rrc | Rl | Rr | Sla | Sra | Sll | Srl

  function RotOf(y: nat): RotOp
    requires y < 8
  {
    [Rlc, Rrc, Rl, Rr, Sla, Sra, Sll, Srl][y]
  }

  /** The CB-prefixed rotates and shifts. */
  function Rotate(op: RotOp, x: byte, f: Flags): (byte, Flags) {
    var r: byte := match op
      case Rlc => Byte(x * 2 + x / 128)
      case Rl => Byte(x * 2 + B2I(f.c))
      case Rrc => x / 2 + (x % 2) * 128
      case Rr => x / 2 + B2I(f.c) * 128
      case Sla => Byte(x * 2)
      case Sll => Byte(x * 2 + 1)
      case Sra => Byte(Signed(x) / 2)
      case Srl => x / 2;
    var c := match op
      case Rlc | Rl | Sla | Sll => Bit(x, 128)
      case Rrc | Rr | Sra | Srl => Bit(x, 1);
    (r, Szyxp(r).(c := c))
  }

  // The meaning of the flag formulas.

  /** Two's complement values. */
  function Signed16(w: word): int { if w < 0x8000 then w else w - 0x10000 }

  predicate Fits8(v: int) { -128 <= v < 128 }

  predicate Fits16(v: int) { -0x8000 <= v < 0x8000 }

  /** The parity of the three quotients is the carry (or borrow) `k` between them. */
  lemma CarryIn(a: int, x: int, z: int, k: int, weight: int)
    requires weight > 0 && 0 <= k <= 1
    requires z / weight == a / weight + x / weight + k || z / weight == a / weight - x / weight - k
    ensures XorBit(a, x, z, weight) == (k == 1)
  {
    Parity(a / weight, x / weight, z / weight, k);
  }

  lemma Parity(a: int, x: int, z: int, k: int)
    requires 0 <= k <= 1 && (z == a + x + k || z == a - x - k)
    ensures ((a % 2 == 1) != ((x % 2 == 1) != (z % 2 == 1))) == (k == 1)
  {
    assert z % 2 == (a % 2 + x % 2 + k) % 2;
  }

  /** ADC: A and C hold the nine-bit sum; N is clear. */
  lemma Add8Sum(a: byte, x: byte, cin: bool)
    ensures Add8(a, x, cin).0 + 256 * B2I(Add8(a, x, cin).1.c) == a + x + B2I(cin)
    ensures !Add8(a, x, cin).1.n
  {
    hide XorBit, Bit;
  }

  /** ADC: H is the carry out of bit 3. */
  lemma Add8Half(a: byte, x: byte, cin: bool)
    ensures Add8(a, x, cin).1.h == (a % 16 + x % 16 + B2I(cin) >= 16)
  {
    hide Szyx, Overflow;
    CarryIn(a, x, a + x + B2I(cin), if a % 16 + x % 16 + B2I(cin) >= 16 then 1 else 0, 16);
  }

  /** ADC: V is set exactly on signed overflow. */
  lemma Add8Overflow(a: byte, x: byte, cin: bool)
    ensures Add8(a, x, cin).1.pv == !Fits8(Signed(a) + Signed(x) + B2I(cin))
  {
    hide Szyx, Bit;
    var z := a + x + B2I(cin);
    CarryIn(a, x, z, if a % 128 + x % 128 + B2I(cin) >= 128 then 1 else 0, 128);
    CarryIn(a, x, z, if z >= 256 then 1 else 0, 256);
  }

  lemma NoBit(n: int, weight: int)
    requires 0 <= n < weight
    ensures !Bit(n, weight)
  {
    assert n == weight * 0 + n;
  }

  /** ADD, ADC and ADC HL do not mask the index of the overflow table: no bit beyond the two is set. */
  lemma OverflowIndexInTable(a: byte, x: byte, cin: bool, weight: int)
    requires weight >= 512
    ensures !XorBit(a, x, a + x + B2I(cin), weight)
  {
    hide Bit;
    NoBit(a, weight);
    NoBit(x, weight);
    NoBit(a + x + B2I(cin), weight);
  }

  lemma OverflowIndexInTable16(x: word, y: word, cin: bool, weight: int)
    requires weight >= 0x20000
    ensures !XorBit(x, y, x + y + B2I(cin), weight)
  {
    hide Bit;
    NoBit(x, weight);
    NoBit(y, weight);
    NoBit(x + y + B2I(cin), weight);
  }

  /** SBC: C is the borrow; N is set. */
  lemma Sub8Difference(a: byte, x: byte, cin: bool)
    ensures Sub8(a, x, cin).0 - 256 * B2I(Sub8(a, x, cin).1.c) == a - x - B2I(cin)
    ensures Sub8(a, x, cin).1.n
  {
    hide Szyx, Overflow;
    var z := a - x - B2I(cin);
    CarryIn(a, x, z, if z < 0 then 1 else 0, 256);
  }

  /** SBC: H is the borrow from bit 4. */
  lemma Sub8Half(a: byte, x: byte, cin: bool)
    ensures Sub8(a, x, cin).1.h == (a % 16 - x % 16 - B2I(cin) < 0)
  {
    hide Szyx, Overflow;
    CarryIn(a, x, a - x - B2I(cin), if a % 16 - x % 16 - B2I(cin) < 0 then 1 else 0, 16);
  }

  /** SBC: V is set exactly on signed overflow. */
  lemma Sub8Overflow(a: byte, x: byte, cin: bool)
    ensures Sub8(a, x, cin).1.pv == !Fits8(Signed(a) - Signed(x) - B2I(cin))
  {
    hide Szyx, Bit, XorBit;
    var z := a - x - B2I(cin);
    var low := a % 128 - x % 128 - B2I(cin);
    assert z == 128 * (a / 128 - x / 128) + low;
    CarryIn(a, x, z, if low < 0 then 1 else 0, 128);
    CarryIn(a, x, z, if z < 0 then 1 else 0, 256);
    assert Signed(a) - Signed(x) - B2I(cin) == low - 128 * (a / 128 - x / 128);
  }

  /** ADC HL, on 16 bits. */
  lemma AdcHlMeaning(x: word, y: word, f: Flags)
    ensures AdcHl(x, y, f).0 + 0x10000 * B2I(AdcHl(x, y, f).1.c) == x + y + B2I(f.c)
    ensures AdcHl(x, y, f).1.pv == !Fits16(Signed16(x) + Signed16(y) + B2I(f.c))
  {
    hide Szyx16, Bit, XorBit;
    var z := x + y + B2I(f.c);
    CarryIn(x, y, z, if x % 0x8000 + y % 0x8000 + B2I(f.c) >= 0x8000 then 1 else 0, 0x8000);
    CarryIn(x, y, z, if z >= 0x10000 then 1 else 0, 0x10000);
  }

  /** SBC HL, on 16 bits. */
  lemma SbcHlMeaning(x: word, y: word, f: Flags)
    ensures SbcHl(x, y, f).0 - 0x10000 * B2I(SbcHl(x, y, f).1.c) == x - y - B2I(f.c)
    ensures SbcHl(x, y, f).1.pv == !Fits16(Signed16(x) - Signed16(y) - B2I(f.c))
  {
    hide Szyx16, Bit, XorBit;
    var z := x - y - B2I(f.c);
    CarryIn(x, y, z, if x % 0x8000 - y % 0x8000 - B2I(f.c) < 0 then 1 else 0, 0x8000);
    CarryIn(x, y, z, if z < 0 then 1 else 0, 0x10000);
  }
}
