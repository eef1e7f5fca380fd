/** What the eight-bit operations leave: the value, and every documented flag. */
module AluMeaning {
  import opened Words
  import opened Alu

  /** S and Z as the tables give them. */
  lemma SignZero(v: byte)
    ensures Szyx(v).z <==> v == 0
    ensures Szyx(v).s <==> Signed(v) < 0
    ensures Szyxp(v).z <==> v == 0
    ensures Szyxp(v).s <==> Signed(v) < 0
    ensures Szyxp(v).pv == EvenParity(v) && !Szyxp(v).h && !Szyxp(v).n && !Szyxp(v).c
  {
    hide EvenParity;
  }

  /** ADD, ADC, SUB, SBC, AND, XOR, OR: Z exactly for a zero result, S exactly for a negative one. */
  lemma ApplySignZero(op: AluOp, a: byte, x: byte, f: Flags)
    requires op != Cp
    ensures var (r, g) := Apply(op, a, x, f); (g.z <==> r == 0) && (g.s <==> Signed(r) < 0)
  {
    hide And8, Or8, Xor8, Szyx, Szyxp, Overflow, XorBit;
    SignZero(Apply(op, a, x, f).0);
  }

  /** ADD and ADC: A and C are the sum, V its signed overflow. */
  lemma ApplySum(op: AluOp, a: byte, x: byte, f: Flags)
    requires op == Add || op == Adc
    ensures var (r, g), cin := Apply(op, a, x, f), op == Adc && f.c;
      && r + 256 * B2I(g.c) == a + x + B2I(cin) && !g.n
      && g.h == (a % 16 + x % 16 + B2I(cin) >= 16)
      && g.pv == !Fits8(Signed(a) + Signed(x) + B2I(cin))
  {
    hide Add8;
    Add8Sum(a, x, op == Adc && f.c);
    Add8Half(a, x, op == Adc && f.c);
    Add8Overflow(a, x, op == Adc && f.c);
  }

  /** SUB and SBC: A and C are the difference, V its signed overflow. */
  lemma ApplyDifference(op: AluOp, a: byte, x: byte, f: Flags)
    requires op == Sub || op == Sbc
    ensures var (r, g), cin := Apply(op, a, x, f), op == Sbc && f.c;
      && r - 256 * B2I(g.c) == a - x - B2I(cin) && g.n
      && g.h == (a % 16 - x % 16 - B2I(cin) < 0)
      && g.pv == !Fits8(Signed(a) - Signed(x) - B2I(cin))
  {
    hide Sub8;
    Sub8Difference(a, x, op == Sbc && f.c);
    Sub8Half(a, x, op == Sbc && f.c);
    Sub8Overflow(a, x, op == Sbc && f.c);
  }

  /** CP: A is kept; Z exactly if equal, C exactly if less, S, V and H those of the difference. */
  lemma CompareMeaning(a: byte, x: byte, f: Flags)
    ensures var (r, g) := Apply(Cp, a, x, f);
      && r == a && (g.z <==> a == x) && (g.c <==> a < x) && g.n
      && (g.s <==> Signed(Byte(a - x)) < 0)
      && g.pv == !Fits8(Signed(a) - Signed(x)) && g.h == (a % 16 < x % 16)
  {
    hide Sub8, Bit, Byte;
    CompareKeeps(a, x, f);
    ApplySignZero(Sub, a, x, f);
    ApplyDifference(Sub, a, x, f);
    SubValue(a, x, f);
  }

  lemma SubValue(a: byte, x: byte, f: Flags)
    ensures Apply(Sub, a, x, f).0 == Byte(a - x) && (Apply(Sub, a, x, f).0 == 0 <==> a == x)
  {
    hide Szyx, Overflow, XorBit;
  }

  /** CP has the flags of SUB, but for bits 5 and 3. */
  lemma CompareKeeps(a: byte, x: byte, f: Flags)
    ensures var (r, g), s := Apply(Cp, a, x, f), Apply(Sub, a, x, f).1;
      r == a && g.z == s.z && g.c == s.c && g.n == s.n && g.s == s.s && g.pv == s.pv && g.h == s.h
  {
    hide Sub8, Bit;
  }

  /** A weight that is one bit of a byte. */
  predicate OneBit(w: int) { w in {1, 2, 4, 8, 16, 32, 64, 128} }

  /** The flag of weight `w`. */
  function FlagOf(f: Flags, w: int): bool
    requires OneBit(w)
  {
    if w == 128 then f.s else if w == 64 then f.z else if w == 32 then f.y else if w == 16 then f.h
    else if w == 8 then f.x else if w == 4 then f.pv else if w == 2 then f.n else f.c
  }

  lemma BitIsFlag(b: byte, w: int)
    requires OneBit(w)
    ensures Bit(b, w) == FlagOf(ByteFlags(b), w)
  {
    hide Bit;
  }

  lemma FlagOfBoth(p: Flags, q: Flags, w: int)
    requires OneBit(w)
    ensures FlagOf(Both(p, q), w) == (FlagOf(p, w) && FlagOf(q, w))
  {
  }

  lemma FlagOfEither(p: Flags, q: Flags, w: int)
    requires OneBit(w)
    ensures FlagOf(Either(p, q), w) == (FlagOf(p, w) || FlagOf(q, w))
  {
  }

  lemma HighOfDiffer(p: Flags, q: Flags, w: int)
    requires w in {16, 32, 64, 128}
    ensures FlagOf(Differ(p, q), w) == (FlagOf(p, w) != FlagOf(q, w))
  {
  }

  lemma LowOfDiffer(p: Flags, q: Flags, w: int)
    requires w in {1, 2, 4, 8}
    ensures FlagOf(Differ(p, q), w) == (FlagOf(p, w) != FlagOf(q, w))
  {
  }

  lemma FlagOfDiffer(p: Flags, q: Flags, w: int)
    requires OneBit(w)
    ensures FlagOf(Differ(p, q), w) == (FlagOf(p, w) != FlagOf(q, w))
  {
    hide FlagOf, Differ;
    if w >= 16 {
      HighOfDiffer(p, q, w);
    } else {
      LowOfDiffer(p, q, w);
    }
  }

  /** AND, OR and XOR, bit by bit. */
  lemma BitwiseMeaning(a: byte, x: byte, w: int)
    requires OneBit(w)
    ensures Bit(And8(a, x), w) == (Bit(a, w) && Bit(x, w))
    ensures Bit(Or8(a, x), w) == (Bit(a, w) || Bit(x, w))
    ensures Bit(Xor8(a, x), w) == (Bit(a, w) != Bit(x, w))
  {
    hide Bit, ByteFlags, FlagsByte, FlagOf, Both, Either, Differ, OneBit;
    var p, q := ByteFlags(a), ByteFlags(x);
    FlagsRoundTrip(Both(p, q));
    FlagsRoundTrip(Either(p, q));
    FlagsRoundTrip(Differ(p, q));
    FlagOfBoth(p, q, w);
    FlagOfEither(p, q, w);
    FlagOfDiffer(p, q, w);
    BitIsFlag(a, w);
    BitIsFlag(x, w);
    BitIsFlag(And8(a, x), w);
    BitIsFlag(Or8(a, x), w);
    BitIsFlag(Xor8(a, x), w);
  }

  /** AND, XOR and OR: the bits of the result, parity in P/V, C and N clear, H set by AND only. */
  lemma ApplyLogic(op: AluOp, a: byte, x: byte, f: Flags, w: int)
    requires op in {And, Xor, Or} && OneBit(w)
    ensures var (r, g), p, q := Apply(op, a, x, f), Bit(a, w), Bit(x, w);
      && Bit(r, w) == (match op case And => p && q case Or => p || q case _ => p != q)
      && g.pv == EvenParity(r) && !g.c && !g.n && g.h == (op == And)
  {
    hide Bit, And8, Or8, Xor8, EvenParity, Szyxp;
    BitwiseMeaning(a, x, w);
    SignZero(Apply(op, a, x, f).0);
  }

  /** The overflow formula on one operand. */
  lemma StepOverflow(x: byte)
    ensures Overflow(x, 0, x + 1) == (x == 127) && XorBit(x, 0, x + 1, 16) == (x % 16 == 15)
    ensures Overflow(x, 0, x - 1) == (x == 128) && XorBit(x, 0, x - 1, 16) == (x % 16 == 0)
  {
    hide XorBit;
    CarryIn(x, 0, x + 1, if x % 16 == 15 then 1 else 0, 16);
    CarryIn(x, 0, x + 1, if x % 128 == 127 then 1 else 0, 128);
    CarryIn(x, 0, x + 1, if x == 255 then 1 else 0, 256);
    DownBy(x);
  }

  lemma DownBy(x: byte)
    ensures XorBit(x, 0, x - 1, 16) == (x % 16 == 0) && XorBit(x, 0, x - 1, 128) == (x % 128 == 0)
    ensures XorBit(x, 0, x - 1, 256) == (x == 0)
  {
    hide XorBit;
    CarryIn(x, 0, x - 1, if x % 16 == 0 then 1 else 0, 16);
    CarryIn(x, 0, x - 1, if x % 128 == 0 then 1 else 0, 128);
    CarryIn(x, 0, x - 1, if x == 0 then 1 else 0, 256);
  }

  /** INC: one up modulo 256, V at 127, carry kept. */
  lemma IncrementMeaning(x: byte, f: Flags)
    ensures var (r, g) := Inc8(x, f);
      && r == (x + 1) % 256 && (g.z <==> r == 0) && (g.s <==> Signed(r) < 0)
      && g.pv == (x == 127) && g.h == (x % 16 == 15) && !g.n && g.c == f.c
  {
    hide Szyx, XorBit, Overflow, Signed;
    SignZero(Byte(x + 1));
    StepOverflow(x);
  }

  /** DEC: one down modulo 256, V at 128, carry kept. */
  lemma DecrementMeaning(x: byte, f: Flags)
    ensures var (r, g) := Dec8(x, f);
      && r == (x - 1) % 256 && (g.z <==> r == 0) && (g.s <==> Signed(r) < 0)
      && g.pv == (x == 128) && g.h == (x % 16 == 0) && g.n && g.c == f.c
  {
    hide Szyx, XorBit, Overflow, Signed;
    SignZero(Byte(x - 1));
    StepOverflow(x);
  }

  lemma NegateOverflow(a: byte)
    ensures Overflow(a, 0, 0 - a) == (a == 128)
    ensures XorBit(a, 0, 0 - a, 16) == (a % 16 != 0) && XorBit(a, 0, 0 - a, 256) == (a != 0)
  {
    hide Bit;
    NegateBit(a, 16);
    NegateBit(a, 128);
    NegateBit(a, 256);
  }

  lemma NegateBit(a: byte, weight: int)
    requires weight in {16, 128, 256}
    ensures XorBit(a, 0, 0 - a, weight) == (a % weight != 0)
  {
    hide Bit;
    CarryIn(0, a, 0 - a, if a % weight != 0 then 1 else 0, weight);
  }

  /** NEG: the two's complement. */
  lemma NegateMeaning(a: byte)
    ensures var (r, g) := Negate(a);
      && r == (0 - a) % 256 && (g.z <==> r == 0) && (g.s <==> Signed(r) < 0)
      && g.pv == (a == 128) && g.c == (a != 0) && g.h == (a % 16 != 0) && g.n
  {
    hide Szyx, XorBit, Overflow, Signed;
    SignZero(Byte(0 - a));
    NegateOverflow(a);
  }

  /** DAA: Z and S of the result, P/V its parity, N kept. */
  lemma DaaSignZero(a: byte, f: Flags)
    ensures var (r, g) := Daa(a, f);
      (g.z <==> r == 0) && (g.s <==> Signed(r) < 0) && g.pv == EvenParity(r) && g.n == f.n
  {
    hide Szyxp, EvenParity, Bit;
    SignZero(Daa(a, f).0);
  }

  lemma Doubled(x: byte, e: nat)
    requires e <= 1
    ensures 256 * B2I(Bit(x, 128)) + Byte(x * 2 + e) == 2 * x + e && x / 128 == B2I(Bit(x, 128))
  {
  }

  /** The value: a shift of nine bits through C, with the bit that comes in. */
  lemma ShiftLeft(op: RotOp, x: byte, f: Flags)
    requires op in {Rlc, Rl, Sla, Sll}
    ensures var (r, g) := Rotate(op, x, f);
      256 * B2I(g.c) + r == 2 * x + match op case Rlc => B2I(g.c) case Rl => B2I(f.c) case Sla => 0 case _ => 1
  {
    hide Szyxp, Signed, Bit, Byte;
    Doubled(x, B2I(Bit(x, 128)));
    Doubled(x, B2I(f.c));
    Doubled(x, 0);
    Doubled(x, 1);
  }

  lemma ShiftRight(op: RotOp, x: byte, f: Flags)
    requires op in {Rrc, Rr, Srl, Sra}
    ensures var (r, g) := Rotate(op, x, f);
      2 * r + B2I(g.c) == x + match op case Rrc => 256 * B2I(g.c) case Rr => 256 * B2I(f.c) case Srl => 0
                                       case _ => if x >= 128 then 256 else 0
  {
    hide Szyxp;
  }

  /** The rotates and shifts: Z, S and parity of the result, H and N clear. */
  lemma RotateFlags(op: RotOp, x: byte, f: Flags)
    ensures var (r, g) := Rotate(op, x, f);
      (g.z <==> r == 0) && (g.s <==> Signed(r) < 0) && g.pv == EvenParity(r) && !g.h && !g.n
  {
    hide Szyxp, EvenParity, Bit, Byte, Signed;
    SignZero(Rotate(op, x, f).0);
  }

  lemma WordTable(z: word)
    ensures Szyx16(z).z == (z == 0) && Szyx16(z).s == (Signed16(z) < 0) && !Szyx16(z).n
  {
  }

  /** ADC HL and SBC HL: Z and S of the whole word, N for the subtraction. ADD HL keeps S, Z and V. */
  lemma WordSignZero(x: word, y: word, f: Flags)
    ensures var (r, g) := AdcHl(x, y, f); (g.z <==> r == 0) && (g.s <==> Signed16(r) < 0) && !g.n
    ensures var (r, g) := SbcHl(x, y, f); (g.z <==> r == 0) && (g.s <==> Signed16(r) < 0) && g.n
  {
    hide XorBit, Szyx16, Signed16, Word;
    WordTable(AdcHl(x, y, f).0);
    WordTable(SbcHl(x, y, f).0);
  }

  lemma AddHlMeaning(x: word, y: word, f: Flags)
    ensures var (r, g) := AddHl(x, y, f);
      && r + 0x10000 * B2I(g.c) == x + y && g.h == (x % 0x1000 + y % 0x1000 >= 0x1000)
      && g.s == f.s && g.z == f.z && g.pv == f.pv && !g.n
  {
    hide XorBit, Bit;
    WordCarry(x, y);
  }

  lemma WordCarry(x: word, y: word)
    ensures XorBit(x, y, x + y, 0x1000) == (x % 0x1000 + y % 0x1000 >= 0x1000)
    ensures XorBit(x, y, x + y, 0x10000) == (x + y >= 0x10000)
  {
    hide XorBit;
    CarryIn(x, y, x + y, if x % 0x1000 + y % 0x1000 >= 0x1000 then 1 else 0, 0x1000);
    CarryIn(x, y, x + y, if x + y >= 0x10000 then 1 else 0, 0x10000);
  }
}
