/** What single instructions do, from the opcode bytes in memory to the state after the step: the
    decoding, the conditions, the registers an opcode names, and the cycles. */
module Opcodes {
  import opened Words
  import opened BankedMemory
  import opened Alu
  import opened Instructions
  import opened Machine

  /** `op` is the opcode at `pc`, behind a DD or FD prefix if `mode` says so; its operands start at `at`. */
  predicate OpAt(m: Memory, pc: int, mode: Index, op: byte, at: int) {
    hide Read;
    !IsPrefix(op) && op != 0xcb && op != 0xed && Read(m, at - 1) == op
    && match mode
       case PlainHL => at == pc + 1
       case UseIX => at == pc + 2 && Read(m, pc) == 0xdd
       case UseIY => at == pc + 2 && Read(m, pc) == 0xfd
  }

  lemma FetchAt(m: Memory, pc: int, mode: Index, op: byte, at: int)
    requires OpAt(m, pc, mode, op, at)
    ensures Fetch(m, pc) == Fetched(Main(op), op, mode, at - pc, at - pc, 4 * (at - pc))
  {
    hide Read, PrefixCount, Main;
    var k: int := PrefixCount(m, pc, 65536);
    assert k > 0 ==> IsPrefix(Read(m, pc));
    assert k > 1 ==> IsPrefix(Read(m, pc + 1));
  }

  function CodeAt<D>(s: State<D>, mode: Index, op: byte, at: int): Code {
    hide Read;
    Code(op, mode, Read(s.core.mem, at), Read(s.core.mem, at + 1), Word(at), (s.r + (at - s.pc)) % 128)
  }

  /** The step at an opcode: its effect, the next address, and four cycles a fetch besides its own. */
  lemma StepAt<D>(bus: Bus<D>, s: State<D>, mode: Index, op: byte, at: int)
    requires OpAt(s.core.mem, s.pc, mode, op, at)
    ensures var e, t := Exec(bus, Main(op), CodeAt(s, mode, op, at), s.core), Step(bus, s);
      && t.Tick? && t.s.core == e.core && t.s.pc == Word(Follow(at, e.next))
      && t.cost == 4 * (at - s.pc) + e.cost && t.signal == e.signal
  {
    hide Exec, Fetch, Read, Main, Follow, Word;
    FetchAt(s.core.mem, s.pc, mode, op, at);
    StepOf(bus, s);
  }

  // Conditions.

  /** The condition in bits 5-3 of an opcode, on F as a byte: Z, C, P/V or S, clear or set. */
  predicate Taken(f: byte, k: nat)
    requires k < 8
  {
    Bit(f, [0x40, 0x01, 0x04, 0x80][k / 2]) == (k % 2 == 1)
  }

  lemma ConditionIs(f: Flags, k: nat)
    requires k < 8
    ensures Condition(f, k) == Taken(FlagsByte(f), k)
  {
    hide Bit, FlagsByte;
    FlagsRoundTrip(f);
  }

  /** An opcode by its two, three and three bits. */
  lemma Parts(x: nat, y: nat, z: nat)
    requires x < 4 && y < 8 && z < 8
    ensures var op := 64 * x + 8 * y + z; op < 256 && Y(op) == y && Z(op) == z && P(op) == y / 2
  {
    var op := 64 * x + 8 * y + z;
    assert op / 8 == 8 * x + y && op / 16 == 4 * x + y / 2;
  }

  lemma JumpCodes(k: nat)
    requires k < 8
    ensures Main(0xc2 + 8 * k) == JpCC && Y(0xc2 + 8 * k) == k
    ensures Main(0xc4 + 8 * k) == CallCC && Y(0xc4 + 8 * k) == k
    ensures Main(0xc0 + 8 * k) == RetCC && Y(0xc0 + 8 * k) == k
  {
    hide Y, Z, P;
    Parts(3, k, 2);
    Parts(3, k, 4);
    Parts(3, k, 0);
  }

  lemma RelativeCodes(k: nat)
    requires k < 4
    ensures Main(0x20 + 8 * k) == JrCC && Y(0x20 + 8 * k) == k + 4
  {
    hide Y, Z, P;
    Parts(0, k + 4, 0);
  }

  // What the effects of jumps, calls and returns are.

  lemma JpCCExec<D>(bus: Bus<D>, x: Instr, c: Code, m: Core<D>)
    requires x.JpCC?
    ensures var e := Exec(bus, x, c, m);
      e.core == m && e.cost == 6 && e.next == if Condition(m.regs.f, Y(c.op)) then Abs(NN(c)) else Rel(2)
  {
    hide ExecLoad8, ExecLoad16, ExecSingle, ExecRepeat, ExecAlu, ExecGeneral, ExecArith16, ExecRotate, ExecPort,
      Condition, HlOf, Signed, SetB, Regs, Pop, Popped, Push, NN, B, Byte, Word, Y;
  }

  lemma CallCCExec<D>(bus: Bus<D>, x: Instr, c: Code, m: Core<D>)
    requires x.CallCC?
    ensures var e := Exec(bus, x, c, m);
      var taken := Condition(m.regs.f, Y(c.op));
      && e.core == (if taken then Push(m, Word(c.here + 2)) else m)
      && e.cost == (if taken then 13 else 6) && e.next == if taken then Abs(NN(c)) else Rel(2)
  {
    hide ExecLoad8, ExecLoad16, ExecSingle, ExecRepeat, ExecAlu, ExecGeneral, ExecArith16, ExecRotate, ExecPort,
      Condition, HlOf, Signed, SetB, Regs, Pop, Popped, Push, NN, B, Byte, Word, Y;
  }

  lemma RetCCExec<D>(bus: Bus<D>, x: Instr, c: Code, m: Core<D>)
    requires x.RetCC?
    ensures var e := Exec(bus, x, c, m);
      var taken := Condition(m.regs.f, Y(c.op));
      && e.core == (if taken then Pop(m) else m)
      && e.cost == (if taken then 7 else 1) && e.next == if taken then Abs(Popped(m)) else Rel(0)
  {
    hide ExecLoad8, ExecLoad16, ExecSingle, ExecRepeat, ExecAlu, ExecGeneral, ExecArith16, ExecRotate, ExecPort,
      Condition, HlOf, Signed, SetB, Regs, Pop, Popped, Push, NN, B, Byte, Word, Y;
  }

  lemma JrExec<D>(bus: Bus<D>, x: Instr, c: Code, m: Core<D>)
    requires x.Jr?
    ensures var e := Exec(bus, x, c, m);
      e.core == m && e.cost == 8 && e.next == Rel(Signed(c.n1) + 1)
  {
    hide ExecLoad8, ExecLoad16, ExecSingle, ExecRepeat, ExecAlu, ExecGeneral, ExecArith16, ExecRotate, ExecPort,
      Condition, HlOf, Signed, SetB, Regs, Pop, Popped, Push, NN, B, Byte, Word, Y;
  }

  lemma JrCCExec<D>(bus: Bus<D>, x: Instr, c: Code, m: Core<D>)
    requires x.JrCC?
    ensures var e := Exec(bus, x, c, m);
      var taken := Condition(m.regs.f, Y(c.op) % 4);
      && e.core == m
      && e.cost == (if taken then 8 else 3) && e.next == Rel(if taken then Signed(c.n1) + 1 else 1)
  {
    hide ExecLoad8, ExecLoad16, ExecSingle, ExecRepeat, ExecAlu, ExecGeneral, ExecArith16, ExecRotate, ExecPort,
      Condition, HlOf, Signed, SetB, Regs, Pop, Popped, Push, NN, B, Byte, Word, Y;
  }

  lemma DjnzExec<D>(bus: Bus<D>, x: Instr, c: Code, m: Core<D>)
    requires x.Djnz?
    ensures var e := Exec(bus, x, c, m);
      var b := Byte(B(m.regs) - 1);
      && e.core == Regs(m, SetB(m.regs, b))
      && e.cost == (if b != 0 then 9 else 4) && e.next == Rel(if b != 0 then Signed(c.n1) + 1 else 1)
  {
    hide ExecLoad8, ExecLoad16, ExecSingle, ExecRepeat, ExecAlu, ExecGeneral, ExecArith16, ExecRotate, ExecPort,
      Condition, HlOf, Signed, SetB, Regs, Pop, Popped, Push, NN, B, Byte, Word, Y;
  }

  lemma JpExec<D>(bus: Bus<D>, x: Instr, c: Code, m: Core<D>)
    requires x.JpNN?
    ensures var e := Exec(bus, x, c, m);
      e.core == m && e.cost == 6 && e.next == Abs(NN(c))
  {
    hide ExecLoad8, ExecLoad16, ExecSingle, ExecRepeat, ExecAlu, ExecGeneral, ExecArith16, ExecRotate, ExecPort,
      Condition, HlOf, Signed, SetB, Regs, Pop, Popped, Push, NN, B, Byte, Word, Y;
  }

  lemma JpHLExec<D>(bus: Bus<D>, x: Instr, c: Code, m: Core<D>)
    requires x.JpHL?
    ensures var e := Exec(bus, x, c, m);
      e.core == m && e.cost == 0 && e.next == Abs(HlOf(m.regs, c.mode))
  {
    hide ExecLoad8, ExecLoad16, ExecSingle, ExecRepeat, ExecAlu, ExecGeneral, ExecArith16, ExecRotate, ExecPort,
      Condition, HlOf, Signed, SetB, Regs, Pop, Popped, Push, NN, B, Byte, Word, Y;
  }

  lemma CallExec<D>(bus: Bus<D>, x: Instr, c: Code, m: Core<D>)
    requires x.Call?
    ensures var e := Exec(bus, x, c, m);
      e.core == Push(m, Word(c.here + 2)) && e.cost == 13 && e.next == Abs(NN(c))
  {
    hide ExecLoad8, ExecLoad16, ExecSingle, ExecRepeat, ExecAlu, ExecGeneral, ExecArith16, ExecRotate, ExecPort,
      Condition, HlOf, Signed, SetB, Regs, Pop, Popped, Push, NN, B, Byte, Word, Y;
  }

  lemma RetExec<D>(bus: Bus<D>, x: Instr, c: Code, m: Core<D>)
    requires x.Ret?
    ensures var e := Exec(bus, x, c, m);
      e.core == Pop(m) && e.cost == 6 && e.next == Abs(Popped(m))
  {
    hide ExecLoad8, ExecLoad16, ExecSingle, ExecRepeat, ExecAlu, ExecGeneral, ExecArith16, ExecRotate, ExecPort,
      Condition, HlOf, Signed, SetB, Regs, Pop, Popped, Push, NN, B, Byte, Word, Y;
  }

  lemma RstExec<D>(bus: Bus<D>, x: Instr, c: Code, m: Core<D>)
    requires x.Rst?
    ensures var e := Exec(bus, x, c, m);
      e.core == Push(m, c.here) && e.cost == 7 && e.next == Abs(8 * Y(c.op))
  {
    hide ExecLoad8, ExecLoad16, ExecSingle, ExecRepeat, ExecAlu, ExecGeneral, ExecArith16, ExecRotate, ExecPort,
      Condition, HlOf, Signed, SetB, Regs, Pop, Popped, Push, NN, B, Byte, Word, Y;
  }

  // Jumps, calls and returns.

  /** JP cc: the operand word exactly if the condition holds, or on past it. */
  lemma JumpIf<D>(bus: Bus<D>, s: State<D>, mode: Index, k: nat, at: int)
    requires k < 8 && OpAt(s.core.mem, s.pc, mode, 0xc2 + 8 * k, at)
    ensures var t := Step(bus, s);
      && t.Tick? && t.s.core == s.core && t.cost == 4 * (at - s.pc) + 6
      && t.s.pc == if Taken(FlagsByte(s.core.regs.f), k) then ReadWord(s.core.mem, at) else Word(at + 2)
  {
    hide OpAt, Step, Exec, Read, Main, Y, Taken, Condition, FlagsByte, Word;
    StepAt(bus, s, mode, 0xc2 + 8 * k, at);
    JumpCodes(k);
    var c := CodeAt(s, mode, 0xc2 + 8 * k, at);
    JpCCExec(bus, JpCC, c, s.core);
    ConditionIs(s.core.regs.f, k);
    WordOf(ReadWord(s.core.mem, at));
  }

  lemma WordOf(w: word)
    ensures Word(w) == w
  {
  }

  /** CALL cc: with the address after it pushed, exactly if the condition holds. */
  lemma CallIf<D>(bus: Bus<D>, s: State<D>, mode: Index, k: nat, at: int)
    requires k < 8 && OpAt(s.core.mem, s.pc, mode, 0xc4 + 8 * k, at)
    ensures var t, taken := Step(bus, s), Taken(FlagsByte(s.core.regs.f), k);
      && t.Tick? && t.cost == 4 * (at - s.pc) + (if taken then 13 else 6)
      && t.s.core == (if taken then Push(s.core, Word(at + 2)) else s.core)
      && t.s.pc == if taken then ReadWord(s.core.mem, at) else Word(at + 2)
  {
    hide OpAt, Step, Exec, Read, Main, Y, Taken, Condition, FlagsByte, Word, Push;
    StepAt(bus, s, mode, 0xc4 + 8 * k, at);
    JumpCodes(k);
    var c := CodeAt(s, mode, 0xc4 + 8 * k, at);
    CallCCExec(bus, CallCC, c, s.core);
    ConditionIs(s.core.regs.f, k);
    WordOf(ReadWord(s.core.mem, at));
    WordAbsorbs(at, 2);
  }

  /** RET cc: to the word on the stack, which is popped, exactly if the condition holds. */
  lemma ReturnIf<D>(bus: Bus<D>, s: State<D>, mode: Index, k: nat, at: int)
    requires k < 8 && OpAt(s.core.mem, s.pc, mode, 0xc0 + 8 * k, at)
    ensures var t, m, taken := Step(bus, s), s.core, Taken(FlagsByte(s.core.regs.f), k);
      && t.Tick? && t.cost == 4 * (at - s.pc) + (if taken then 7 else 1)
      && t.s.core == (if taken then m.(regs := m.regs.(sp := Word(m.regs.sp + 2))) else m)
      && t.s.pc == if taken then ReadWord(m.mem, m.regs.sp) else Word(at)
  {
    hide OpAt, Step, Exec, Read, Main, Y, Taken, Condition, FlagsByte, Word;
    StepAt(bus, s, mode, 0xc0 + 8 * k, at);
    JumpCodes(k);
    var c := CodeAt(s, mode, 0xc0 + 8 * k, at);
    RetCCExec(bus, RetCC, c, s.core);
    ConditionIs(s.core.regs.f, k);
    WordOf(ReadWord(s.core.mem, s.core.regs.sp));
  }

  /** JR: by the signed displacement, counted from after it. */
  lemma JumpRelative<D>(bus: Bus<D>, s: State<D>, mode: Index, at: int)
    requires OpAt(s.core.mem, s.pc, mode, 0x18, at)
    ensures var t := Step(bus, s);
      && t.Tick? && t.s.core == s.core && t.cost == 4 * (at - s.pc) + 8
      && t.s.pc == Word(at + 1 + Signed(Read(s.core.mem, at)))
  {
    hide OpAt, Step, Exec, Read, Word;
    StepAt(bus, s, mode, 0x18, at);
    JrExec(bus, Jr, CodeAt(s, mode, 0x18, at), s.core);
  }

  /** JR NZ, Z, NC, C. */
  lemma JumpRelativeIf<D>(bus: Bus<D>, s: State<D>, mode: Index, k: nat, at: int)
    requires k < 4 && OpAt(s.core.mem, s.pc, mode, 0x20 + 8 * k, at)
    ensures var t, taken := Step(bus, s), Taken(FlagsByte(s.core.regs.f), k);
      && t.Tick? && t.s.core == s.core && t.cost == 4 * (at - s.pc) + (if taken then 8 else 3)
      && t.s.pc == Word(at + 1 + (if taken then Signed(Read(s.core.mem, at)) else 0))
  {
    hide OpAt, Step, Exec, Read, Main, Y, Taken, Condition, FlagsByte, Word;
    StepAt(bus, s, mode, 0x20 + 8 * k, at);
    RelativeCodes(k);
    JrCCExec(bus, JrCC, CodeAt(s, mode, 0x20 + 8 * k, at), s.core);
    ConditionIs(s.core.regs.f, k);
  }

  /** DJNZ: B goes down by one modulo 256; the jump is taken unless it reaches zero. */
  lemma CountDown<D>(bus: Bus<D>, s: State<D>, mode: Index, at: int)
    requires OpAt(s.core.mem, s.pc, mode, 0x10, at)
    ensures var t, b := Step(bus, s), Byte(Hi(s.core.regs.bc) - 1);
      && t.Tick? && t.s.core == s.core.(regs := s.core.regs.(bc := 256 * b + Lo(s.core.regs.bc)))
      && t.cost == 4 * (at - s.pc) + (if b != 0 then 9 else 4)
      && t.s.pc == Word(at + 1 + (if b != 0 then Signed(Read(s.core.mem, at)) else 0))
  {
    hide OpAt, Step, Exec, Read, Word, Byte, Hi, Lo;
    StepAt(bus, s, mode, 0x10, at);
    DjnzExec(bus, Djnz, CodeAt(s, mode, 0x10, at), s.core);
  }

  /** JP, and JP (HL), which takes the register itself. */
  lemma JumpAlways<D>(bus: Bus<D>, s: State<D>, mode: Index, at: int)
    ensures OpAt(s.core.mem, s.pc, mode, 0xc3, at) ==>
      var t := Step(bus, s);
      t.Tick? && t.s.core == s.core && t.s.pc == ReadWord(s.core.mem, at) && t.cost == 4 * (at - s.pc) + 6
    ensures OpAt(s.core.mem, s.pc, mode, 0xe9, at) ==>
      var t, r := Step(bus, s), s.core.regs;
      && t.Tick? && t.s.core == s.core && t.cost == 4 * (at - s.pc)
      && t.s.pc == match mode case PlainHL => r.hl case UseIX => r.ix case UseIY => r.iy
  {
    hide OpAt, Step, Exec, Read, Word;
    if OpAt(s.core.mem, s.pc, mode, 0xc3, at) {
      StepAt(bus, s, mode, 0xc3, at);
      JpExec(bus, JpNN, CodeAt(s, mode, 0xc3, at), s.core);
      WordOf(ReadWord(s.core.mem, at));
    }
    if OpAt(s.core.mem, s.pc, mode, 0xe9, at) {
      StepAt(bus, s, mode, 0xe9, at);
      JpHLExec(bus, JpHL, CodeAt(s, mode, 0xe9, at), s.core);
      WordOf(HlOf(s.core.regs, mode));
    }
  }

  /** CALL and RET. */
  lemma CallAlways<D>(bus: Bus<D>, s: State<D>, mode: Index, at: int)
    ensures OpAt(s.core.mem, s.pc, mode, 0xcd, at) ==>
      var t := Step(bus, s);
      && t.Tick? && t.s.core == Push(s.core, Word(at + 2)) && t.s.pc == ReadWord(s.core.mem, at)
      && t.cost == 4 * (at - s.pc) + 13
    ensures OpAt(s.core.mem, s.pc, mode, 0xc9, at) ==>
      var t, m := Step(bus, s), s.core;
      && t.Tick? && t.s.core == m.(regs := m.regs.(sp := Word(m.regs.sp + 2)))
      && t.s.pc == ReadWord(m.mem, m.regs.sp) && t.cost == 4 * (at - s.pc) + 6
  {
    hide OpAt, Step, Exec, Read, Word, Push;
    if OpAt(s.core.mem, s.pc, mode, 0xcd, at) {
      StepAt(bus, s, mode, 0xcd, at);
      CallExec(bus, Call, CodeAt(s, mode, 0xcd, at), s.core);
      WordOf(ReadWord(s.core.mem, at));
      WordAbsorbs(at, 2);
    }
    if OpAt(s.core.mem, s.pc, mode, 0xc9, at) {
      StepAt(bus, s, mode, 0xc9, at);
      RetExec(bus, Ret, CodeAt(s, mode, 0xc9, at), s.core);
      WordOf(ReadWord(s.core.mem, s.core.regs.sp));
    }
  }

  /** RST p calls address p = 8 y. */
  lemma Restart<D>(bus: Bus<D>, s: State<D>, mode: Index, y: nat, at: int)
    requires y < 8 && OpAt(s.core.mem, s.pc, mode, 0xc7 + 8 * y, at)
    ensures var t := Step(bus, s);
      && t.Tick? && t.s.core == Push(s.core, Word(at)) && t.s.pc == 8 * y && t.cost == 4 * (at - s.pc) + 7
  {
    hide OpAt, Step, Exec, Read, Word, Push, Y, Z, P;
    StepAt(bus, s, mode, 0xc7 + 8 * y, at);
    Parts(3, y, 7);
    RstExec(bus, Rst, CodeAt(s, mode, 0xc7 + 8 * y, at), s.core);
    WordOf(8 * y);
  }
}
