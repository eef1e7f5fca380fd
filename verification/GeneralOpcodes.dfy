/** General-purpose instructions, accumulator rotates, register ports and the single block instructions, from
    the opcode bytes to the state afterwards. */
module GeneralOpcodes {
  import opened Words
  import opened BankedMemory
  import opened Alu
  import opened Instructions
  import opened Machine
  import opened Opcodes
  import opened LoadOpcodes
  import opened AluOpcodes

  // The effects.

  lemma DaaExec<D>(bus: Bus<D>, x: Instr, c: Code, m: Core<D>)
    requires x.DaaA?
    ensures var e := Exec(bus, x, c, m);
      var (a, f) := Daa(m.regs.a, m.regs.f);
      e.core == Regs(m, m.regs.(a := a, f := f)) && e.next == Rel(0) && e.cost == 0 && e.signal.Plain?
  {
    hide ExecLoad8, ExecLoad16, ExecSingle, ExecRepeat, ExecAlu, ExecArith16, ExecRotate, ExecJump, ExecPort,
      Regs, Daa, Negate, Bit;
  }

  lemma NegExec<D>(bus: Bus<D>, x: Instr, c: Code, m: Core<D>)
    requires x.Neg?
    ensures var e := Exec(bus, x, c, m);
      var (a, f) := Negate(m.regs.a);
      e.core == Regs(m, m.regs.(a := a, f := f)) && e.next == Rel(0) && e.cost == 0 && e.signal.Plain?
  {
    hide ExecLoad8, ExecLoad16, ExecSingle, ExecRepeat, ExecAlu, ExecArith16, ExecRotate, ExecJump, ExecPort,
      Regs, Daa, Negate, Bit;
  }

  lemma CplExec<D>(bus: Bus<D>, x: Instr, c: Code, m: Core<D>)
    requires x.Cpl?
    ensures var e := Exec(bus, x, c, m);
      var r := e.core.regs;
      && r.a == 255 - m.regs.a && r == m.regs.(a := r.a, f := r.f) && e.core.mem == m.mem && e.core.dev == m.dev
      && r.f == m.regs.f.(y := r.f.y, x := r.f.x, h := true, n := true)
      && e.next == Rel(0) && e.cost == 0 && e.signal.Plain?
  {
    hide ExecLoad8, ExecLoad16, ExecSingle, ExecRepeat, ExecAlu, ExecArith16, ExecRotate, ExecJump, ExecPort,
      Daa, Negate, Bit;
  }

  lemma CarryExec<D>(bus: Bus<D>, x: Instr, c: Code, m: Core<D>)
    requires x.Scf? || x.Ccf?
    ensures var e := Exec(bus, x, c, m);
      var r, f := e.core.regs, m.regs.f;
      && r == m.regs.(f := r.f) && e.core.mem == m.mem && e.core.dev == m.dev
      && r.f == f.(y := r.f.y, x := r.f.x, h := x.Ccf? && f.c, n := false, c := x.Scf? || !f.c)
      && e.next == Rel(0) && e.cost == 0 && e.signal.Plain?
  {
    hide ExecLoad8, ExecLoad16, ExecSingle, ExecRepeat, ExecAlu, ExecArith16, ExecRotate, ExecJump, ExecPort,
      Daa, Negate, Bit;
  }

  lemma SwitchExec<D>(bus: Bus<D>, x: Instr, c: Code, m: Core<D>)
    requires x.Di? || x.Ei?
    ensures var e := Exec(bus, x, c, m);
      && e.core == m.(regs := m.regs.(iff1 := x.Ei?, iff2 := x.Ei?))
      && e.next == Rel(0) && e.cost == 0 && e.signal.Lengthen?
  {
    hide ExecLoad8, ExecLoad16, ExecSingle, ExecRepeat, ExecAlu, ExecArith16, ExecRotate, ExecJump, ExecPort,
      Daa, Negate, Bit;
  }

  lemma HaltExec<D>(bus: Bus<D>, x: Instr, c: Code, m: Core<D>)
    requires x.HaltOp?
    ensures var e := Exec(bus, x, c, m);
      e.core == m && e.next == Rel(0) && e.cost == 0 && e.signal.Halted?
  {
    hide ExecLoad8, ExecLoad16, ExecSingle, ExecRepeat, ExecAlu, ExecArith16, ExecRotate, ExecJump, ExecPort,
      Regs, Daa, Negate, Bit;
  }

  lemma NopExec<D>(bus: Bus<D>, x: Instr, c: Code, m: Core<D>)
    requires x.Nop?
    ensures var e := Exec(bus, x, c, m);
      e.core == m && e.next == Rel(0) && e.cost == 0 && e.signal.Plain?
  {
    hide ExecLoad8, ExecLoad16, ExecSingle, ExecRepeat, ExecAlu, ExecArith16, ExecRotate, ExecJump, ExecPort,
      Regs, Daa, Negate, Bit;
  }

  /** A byte and a carry into A and F; S, Z and P/V are kept. */
  ghost predicate Turned<D>(m: Core<D>, n: Core<D>, v: byte, carry: bool) {
    n == m.(regs := m.regs.(a := v, f := AccumulatorFlags(m.regs.f, v, carry)))
  }

  lemma RlcaExec<D>(bus: Bus<D>, x: Instr, c: Code, m: Core<D>)
    requires x.Rlca?
    ensures var e, a := Exec(bus, x, c, m), m.regs.a;
      var v := Byte(a * 2 + a / 128);
      Turned(m, e.core, v, Bit(v, 1)) && e.next == Rel(0) && e.cost == 0
  {
    hide ExecLoad8, ExecLoad16, ExecSingle, ExecRepeat, ExecAlu, ExecGeneral, ExecArith16, ExecJump, ExecPort,
      Set8, Get8, Read, Write, Store, Address, Rotate, RotOf, Mask, Byte, Bit, Szyxp, And8, Or8, BitFlags,
      AccumulatorFlags, Signed, Pair, Hi, Lo;
  }

  lemma RlaExec<D>(bus: Bus<D>, x: Instr, c: Code, m: Core<D>)
    requires x.Rla?
    ensures var e, a := Exec(bus, x, c, m), m.regs.a;
      var v := Byte(a * 2 + B2I(m.regs.f.c));
      Turned(m, e.core, v, a >= 128) && e.next == Rel(0) && e.cost == 0
  {
    hide ExecLoad8, ExecLoad16, ExecSingle, ExecRepeat, ExecAlu, ExecGeneral, ExecArith16, ExecJump, ExecPort,
      Set8, Get8, Read, Write, Store, Address, Rotate, RotOf, Mask, Byte, Bit, Szyxp, And8, Or8, BitFlags,
      AccumulatorFlags, Signed, Pair, Hi, Lo;
  }

  lemma RrcaExec<D>(bus: Bus<D>, x: Instr, c: Code, m: Core<D>)
    requires x.Rrca?
    ensures var e, a := Exec(bus, x, c, m), m.regs.a;
      var v := a / 2 + a % 2 * 128;
      Turned(m, e.core, v, a % 2 == 1) && e.next == Rel(0) && e.cost == 0
  {
    hide ExecLoad8, ExecLoad16, ExecSingle, ExecRepeat, ExecAlu, ExecGeneral, ExecArith16, ExecJump, ExecPort,
      Set8, Get8, Read, Write, Store, Address, Rotate, RotOf, Mask, Byte, Bit, Szyxp, And8, Or8, BitFlags,
      AccumulatorFlags, Signed, Pair, Hi, Lo;
  }

  lemma RraExec<D>(bus: Bus<D>, x: Instr, c: Code, m: Core<D>)
    requires x.Rra?
    ensures var e, a := Exec(bus, x, c, m), m.regs.a;
      var v := a / 2 + B2I(m.regs.f.c) * 128;
      Turned(m, e.core, v, a % 2 == 1) && e.next == Rel(0) && e.cost == 0
  {
    hide ExecLoad8, ExecLoad16, ExecSingle, ExecRepeat, ExecAlu, ExecGeneral, ExecArith16, ExecJump, ExecPort,
      Set8, Get8, Read, Write, Store, Address, Rotate, RotOf, Mask, Byte, Bit, Szyxp, And8, Or8, BitFlags,
      AccumulatorFlags, Signed, Pair, Hi, Lo;
  }

  lemma TurnedIs<D>(m: Core<D>, n: Core<D>, v: byte, carry: bool)
    requires Turned(m, n, v, carry)
    ensures var r, f := n.regs, m.regs.f;
      && n == m.(regs := m.regs.(a := v, f := r.f))
      && r.f == f.(y := r.f.y, x := r.f.x, h := false, n := false, c := carry)
  {
    hide Bit;
  }

  /** These are the values and carries of the rotates on any register. */
  lemma TurnsAre(a: byte, f: Flags)
    ensures var v := Byte(a * 2 + a / 128); Rotate(Rlc, a, f).0 == v && Rotate(Rlc, a, f).1.c == Bit(v, 1)
    ensures Rotate(Rl, a, f).0 == Byte(a * 2 + B2I(f.c)) && Rotate(Rl, a, f).1.c == (a >= 128)
    ensures Rotate(Rrc, a, f).0 == a / 2 + a % 2 * 128 && Rotate(Rrc, a, f).1.c == (a % 2 == 1)
    ensures Rotate(Rr, a, f).0 == a / 2 + B2I(f.c) * 128 && Rotate(Rr, a, f).1.c == (a % 2 == 1)
  {
    hide Szyxp, Signed;
  }

  lemma InCExec<D>(bus: Bus<D>, x: Instr, c: Code, m: Core<D>)
    requires x.InRC?
    ensures var e := Exec(bus, x, c, m);
      var (dev, v) := bus.input(m.dev, C(m.regs));
      var y, r := Y(c.op), e.core.regs;
      && e.core.mem == m.mem && e.core.dev == dev && e.next == Rel(0) && e.cost == 4
      && r == (if y == 6 then m.regs else Set8(m.regs, c.mode, y, v)).(f := Szyxp(v).(c := m.regs.f.c))
  {
    hide ExecLoad8, ExecLoad16, ExecSingle, ExecRepeat, ExecAlu, ExecGeneral, ExecArith16, ExecRotate, ExecJump,
      Set8, Get8, Out, Szyxp, Pair, Hi, Lo;
  }

  lemma OutCExec<D>(bus: Bus<D>, x: Instr, c: Code, m: Core<D>)
    requires x.OutCR?
    ensures var e := Exec(bus, x, c, m);
      var y := Y(c.op);
      e.core == Out(bus, m, C(m.regs), if y == 6 then 0 else Get8(m.regs, c.mode, y)) && e.next == Rel(0) && e.cost == 4
  {
    hide ExecLoad8, ExecLoad16, ExecSingle, ExecRepeat, ExecAlu, ExecGeneral, ExecArith16, ExecRotate, ExecJump,
      Regs, Set8, Get8, In, Out, Szyxp, Pair, Hi, Lo;
  }

  lemma LoadPairExec<D>(bus: Bus<D>, x: Instr, c: Code, m: Core<D>)
    requires x.LdRrIndNN?
    ensures var e := Exec(bus, x, c, m);
      e.core == Regs(m, Set16(m.regs, c.mode, P(c.op), ReadWord(m.mem, NN(c)))) && e.next == Rel(2) && e.cost == 12
  {
    hide ExecLoad8, ExecSingle, ExecRepeat, ExecAlu, ExecGeneral, ExecArith16, ExecRotate, ExecJump, ExecPort,
      Set16, SetHl, SetSs, GetSs, Get16, Read, Write, ReadWord, WriteWord, StoreWord, Regs, Push, Pop,
      Popped, NN, HlOf, Pair, Hi, Lo, Word;
  }

  lemma StorePairExec<D>(bus: Bus<D>, x: Instr, c: Code, m: Core<D>)
    requires x.LdIndNNRr?
    ensures var e := Exec(bus, x, c, m);
      e.core == StoreWord(m, NN(c), Get16(m.regs, c.mode, P(c.op))) && e.next == Rel(2) && e.cost == 12
  {
    hide ExecLoad8, ExecSingle, ExecRepeat, ExecAlu, ExecGeneral, ExecArith16, ExecRotate, ExecJump, ExecPort,
      Set16, SetHl, SetSs, GetSs, Get16, Read, Write, ReadWord, WriteWord, StoreWord, Regs, Push, Pop,
      Popped, NN, HlOf, Pair, Hi, Lo, Word;
  }

  // On opcode bytes.

  /** DAA. */
  lemma DecimalAdjust<D>(bus: Bus<D>, s: State<D>, mode: Index, at: int)
    requires OpAt(s.core.mem, s.pc, mode, 0x27, at)
    ensures var t, m := Step(bus, s), s.core;
      && t.Tick? && t.s.pc == Word(at) && t.cost == 4 * (at - s.pc)
      && var (a, f) := Daa(m.regs.a, m.regs.f);
         t.s.core == m.(regs := m.regs.(a := a, f := f))
  {
    hide OpAt, Step, Exec, Read, Word, Daa;
    StepAt(bus, s, mode, 0x27, at);
    DaaExec(bus, Main(0x27), CodeAt(s, mode, 0x27, at), s.core);
  }

  /** CPL: every bit of A; H and N are set, the documented rest is kept. */
  lemma Complement<D>(bus: Bus<D>, s: State<D>, mode: Index, at: int)
    requires OpAt(s.core.mem, s.pc, mode, 0x2f, at)
    ensures var t, m := Step(bus, s), s.core;
      && t.Tick? && t.s.pc == Word(at) && t.cost == 4 * (at - s.pc)
      && var r, f := t.s.core.regs, m.regs.f;
         && t.s.core == m.(regs := m.regs.(a := 255 - m.regs.a, f := r.f))
         && r.f == f.(y := r.f.y, x := r.f.x, h := true, n := true)
  {
    hide OpAt, Step, Exec, Read, Word;
    StepAt(bus, s, mode, 0x2f, at);
    CplExec(bus, Main(0x2f), CodeAt(s, mode, 0x2f, at), s.core);
  }

  /** SCF. */
  lemma SetCarry<D>(bus: Bus<D>, s: State<D>, mode: Index, at: int)
    requires OpAt(s.core.mem, s.pc, mode, 0x37, at)
    ensures var t, m := Step(bus, s), s.core;
      && t.Tick? && t.s.pc == Word(at) && t.cost == 4 * (at - s.pc)
      && var r, f := t.s.core.regs, m.regs.f;
         && t.s.core == m.(regs := m.regs.(f := r.f))
         && r.f == f.(y := r.f.y, x := r.f.x, h := false, n := false, c := true)
  {
    hide OpAt, Step, Exec, Read, Word;
    StepAt(bus, s, mode, 0x37, at);
    CarryExec(bus, Main(0x37), CodeAt(s, mode, 0x37, at), s.core);
  }

  /** CCF: the old carry goes to H. */
  lemma ComplementCarry<D>(bus: Bus<D>, s: State<D>, mode: Index, at: int)
    requires OpAt(s.core.mem, s.pc, mode, 0x3f, at)
    ensures var t, m := Step(bus, s), s.core;
      && t.Tick? && t.s.pc == Word(at) && t.cost == 4 * (at - s.pc)
      && var r, f := t.s.core.regs, m.regs.f;
         && t.s.core == m.(regs := m.regs.(f := r.f))
         && r.f == f.(y := r.f.y, x := r.f.x, h := f.c, n := false, c := !f.c)
  {
    hide OpAt, Step, Exec, Read, Word;
    StepAt(bus, s, mode, 0x3f, at);
    CarryExec(bus, Main(0x3f), CodeAt(s, mode, 0x3f, at), s.core);
  }

  /** DI. */
  lemma DisableInterrupts<D>(bus: Bus<D>, s: State<D>, mode: Index, at: int)
    requires OpAt(s.core.mem, s.pc, mode, 0xf3, at)
    ensures var t, m := Step(bus, s), s.core;
      && t.Tick? && t.s.pc == Word(at) && t.cost == 4 * (at - s.pc)
      && t.s.core == m.(regs := m.regs.(iff1 := false, iff2 := false)) && t.signal.Lengthen?
  {
    hide OpAt, Step, Exec, Read, Word;
    StepAt(bus, s, mode, 0xf3, at);
    SwitchExec(bus, Main(0xf3), CodeAt(s, mode, 0xf3, at), s.core);
  }

  /** EI. */
  lemma EnableInterrupts<D>(bus: Bus<D>, s: State<D>, mode: Index, at: int)
    requires OpAt(s.core.mem, s.pc, mode, 0xfb, at)
    ensures var t, m := Step(bus, s), s.core;
      && t.Tick? && t.s.pc == Word(at) && t.cost == 4 * (at - s.pc)
      && t.s.core == m.(regs := m.regs.(iff1 := true, iff2 := true)) && t.signal.Lengthen?
  {
    hide OpAt, Step, Exec, Read, Word;
    StepAt(bus, s, mode, 0xfb, at);
    SwitchExec(bus, Main(0xfb), CodeAt(s, mode, 0xfb, at), s.core);
  }

  /** HALT stops the run. */
  lemma Halt<D>(bus: Bus<D>, s: State<D>, mode: Index, at: int)
    requires OpAt(s.core.mem, s.pc, mode, 0x76, at)
    ensures var t, m := Step(bus, s), s.core;
      && t.Tick? && t.s.pc == Word(at) && t.cost == 4 * (at - s.pc)
      && t.s.core == m && t.signal.Halted?
  {
    hide OpAt, Step, Exec, Read, Word;
    StepAt(bus, s, mode, 0x76, at);
    HaltExec(bus, Main(0x76), CodeAt(s, mode, 0x76, at), s.core);
  }

  /** NOP. */
  lemma NoOperation<D>(bus: Bus<D>, s: State<D>, mode: Index, at: int)
    requires OpAt(s.core.mem, s.pc, mode, 0x00, at)
    ensures var t, m := Step(bus, s), s.core;
      && t.Tick? && t.s.pc == Word(at) && t.cost == 4 * (at - s.pc)
      && t.s.core == m && t.signal.Plain?
  {
    hide OpAt, Step, Exec, Read, Word;
    StepAt(bus, s, mode, 0x00, at);
    NopExec(bus, Main(0x00), CodeAt(s, mode, 0x00, at), s.core);
  }

  /** RLCA, RRCA, RLA, RRA: the value and carry of the rotate on A; S, Z and P/V are kept. */
  lemma RotateA<D>(bus: Bus<D>, s: State<D>, mode: Index, y: nat, at: int)
    requires y < 4 && OpAt(s.core.mem, s.pc, mode, 0x07 + 8 * y, at)
    ensures var t, m := Step(bus, s), s.core;
      var r, f, (v, g) := t.s.core.regs, m.regs.f, Rotate(Shift(y), m.regs.a, m.regs.f);
      && t.Tick? && t.s.pc == Word(at) && t.cost == 4 * (at - s.pc)
      && t.s.core == m.(regs := m.regs.(a := v, f := r.f))
      && r.f == f.(y := r.f.y, x := r.f.x, h := false, n := false, c := g.c)
  {
    hide OpAt, Step, Exec, Read, Main, Word, Rotate, Bit, Byte, Turned;
    var op: byte := 0x07 + 8 * y;
    TurnCodes(y);
    StepAt(bus, s, mode, op, at);
    TurnsAre(s.core.regs.a, s.core.regs.f);
    var c := CodeAt(s, mode, op, at);
    if y == 0 {
      RlcaExec(bus, Rlca, c, s.core);
    } else if y == 1 {
      RrcaExec(bus, Rrca, c, s.core);
    } else if y == 2 {
      RlaExec(bus, Rla, c, s.core);
    } else {
      RraExec(bus, Rra, c, s.core);
    }
    var turn := Rotate(Shift(y), s.core.regs.a, s.core.regs.f);
    TurnedIs(s.core, Step(bus, s).s.core, turn.0, turn.1.c);
  }

  lemma TurnCodes(y: nat)
    requires y < 4
    ensures Main(0x07 + 8 * y) == [Rlca, Rrca, Rla, Rra][y]
  {
    hide Y, Z, P;
    Parts(0, y, 7);
  }

  // After ED.

  /** NEG. */
  lemma NegateA<D>(bus: Bus<D>, s: State<D>)
    requires EdAt(s.core.mem, s.pc, 0x44)
    ensures var t, m := Step(bus, s), s.core;
      var (a, f) := Negate(m.regs.a);
      && t.Tick? && t.s.pc == Word(s.pc + 2) && t.cost == 8 && t.s.core == m.(regs := m.regs.(a := a, f := f))
  {
    hide EdAt, Step, Exec, Read, Word, Negate;
    EdStepAt(bus, s, 0x44);
    NegExec(bus, EdInstr(0x44), CodeAt(s, PlainHL, 0x44, s.pc + 2), s.core);
  }

  lemma RegisterPortCodes(y: nat)
    requires y < 8
    ensures EdInstr(0x40 + 8 * y) == InRC && Y(0x40 + 8 * y) == y
    ensures EdInstr(0x41 + 8 * y) == OutCR && Y(0x41 + 8 * y) == y
  {
    hide Y, Z, P;
    Parts(1, y, 0);
    Parts(1, y, 1);
  }

  /** IN r,(C): the register, and the flags of the byte with the carry kept; encoding 6 sets flags only. */
  lemma InputRegister<D>(bus: Bus<D>, s: State<D>, y: nat)
    requires y < 8 && EdAt(s.core.mem, s.pc, 0x40 + 8 * y)
    ensures var t, m, (dev, v) := Step(bus, s), s.core, bus.input(s.core.dev, Lo(s.core.regs.bc));
      var f := Szyxp(v).(c := m.regs.f.c);
      && t.Tick? && t.s.pc == Word(s.pc + 2) && t.cost == 12
      && t.s.core == Core(t.s.core.regs, m.mem, dev)
      && if y == 6 then t.s.core.regs == m.regs.(f := f)
         else Loaded(m.regs.(f := f), t.s.core.regs, PlainHL, y, v)
  {
    hide EdAt, Step, Exec, Read, EdInstr, Y, Word, Set8, Named, Loaded, Szyxp, Lo;
    RegisterPortCodes(y);
    EdStepAt(bus, s, 0x40 + 8 * y);
    InCExec(bus, InRC, CodeAt(s, PlainHL, 0x40 + 8 * y, s.pc + 2), s.core);
    var r, v := s.core.regs, bus.input(s.core.dev, Lo(s.core.regs.bc)).1;
    if y != 6 {
      SetNamedFlags(r, PlainHL, y, v, Szyxp(v).(c := r.f.c));
    }
  }

  /** OUT (C),r; encoding 6 sends zero. */
  lemma OutputRegister<D>(bus: Bus<D>, s: State<D>, y: nat)
    requires y < 8 && EdAt(s.core.mem, s.pc, 0x41 + 8 * y)
    ensures var t, m, port := Step(bus, s), s.core, Lo(s.core.regs.bc);
      var v := if y == 6 then 0 else Named(m.regs, PlainHL, y);
      && t.Tick? && t.s.pc == Word(s.pc + 2) && t.cost == 12
      && t.s.core == Core(m.regs, MapPort(m.mem, port, v), bus.output(m.dev, port, v))
  {
    hide EdAt, Step, Exec, Read, EdInstr, Y, Word, Get8, Named, MapPort, Lo;
    RegisterPortCodes(y);
    EdStepAt(bus, s, 0x41 + 8 * y);
    OutCExec(bus, OutCR, CodeAt(s, PlainHL, 0x41 + 8 * y, s.pc + 2), s.core);
    if y != 6 {
      GetNamed(s.core.regs, PlainHL, y);
    }
  }

  lemma DirectCodes(p: nat)
    requires p < 4
    ensures EdInstr(0x43 + 16 * p) == LdIndNNRr && P(0x43 + 16 * p) == p
    ensures EdInstr(0x4b + 16 * p) == LdRrIndNN && P(0x4b + 16 * p) == p
  {
    hide Y, Z, P;
    Parts(1, 2 * p, 3);
    Parts(1, 2 * p + 1, 3);
  }

  /** LD rr,(nn). */
  lemma LoadPairDirect<D>(bus: Bus<D>, s: State<D>, p: nat)
    requires p < 4 && EdAt(s.core.mem, s.pc, 0x4b + 16 * p)
    ensures var t, m := Step(bus, s), s.core;
      && t.Tick? && t.s.pc == Word(s.pc + 4) && t.cost == 20 && t.s.core == m.(regs := t.s.core.regs)
      && PairLoaded(m.regs, t.s.core.regs, PlainHL, p, ReadWord(m.mem, ReadWord(m.mem, s.pc + 2)))
  {
    hide EdAt, Step, Exec, Read, EdInstr, P, Word, Pair, Set16, PairLoaded;
    DirectCodes(p);
    EdStepAt(bus, s, 0x4b + 16 * p);
    LoadPairExec(bus, LdRrIndNN, CodeAt(s, PlainHL, 0x4b + 16 * p, s.pc + 2), s.core);
    PairLaws(s.core.regs, PlainHL, p, ReadWord(s.core.mem, ReadWord(s.core.mem, s.pc + 2)));
  }

  /** LD (nn),rr. */
  lemma StorePairDirect<D>(bus: Bus<D>, s: State<D>, p: nat)
    requires p < 4 && EdAt(s.core.mem, s.pc, 0x43 + 16 * p)
    ensures var t, m := Step(bus, s), s.core;
      && t.Tick? && t.s.pc == Word(s.pc + 4) && t.cost == 20
      && t.s.core == m.(mem := WriteWord(m.mem, ReadWord(m.mem, s.pc + 2), NamedPair(m.regs, PlainHL, p)))
  {
    hide EdAt, Step, Exec, Read, EdInstr, P, Word, Pair, Get16, WriteWord, NamedPair;
    DirectCodes(p);
    EdStepAt(bus, s, 0x43 + 16 * p);
    StorePairExec(bus, LdIndNNRr, CodeAt(s, PlainHL, 0x43 + 16 * p, s.pc + 2), s.core);
    PairLaws(s.core.regs, PlainHL, p, 0);
  }

  // The single block instructions.

  lemma BlockCodes(k: nat, down: bool)
    requires k < 4
    ensures var block := [Block.Load, Block.Compare, Block.Input, Block.Output][k];
      var op := 0xa0 + (if down then 8 else 0) + k;
      EdInstr(op) == Single(block, !down) && EdInstr(op + 16) == Repeat(block, !down)
  {
  }

  lemma BlockExec<D>(bus: Bus<D>, block: Block, up: bool, c: Code, m: Core<D>, c': Code)
    ensures Exec(bus, Single(block, up), c, m).core == Exec(bus, Repeat(block, up), c', m).core
    ensures Exec(bus, Single(block, up), c, m).next == Rel(0)
  {
    hide ExecLoad8, ExecLoad16, ExecSingle, ExecAlu, ExecGeneral, ExecArith16, ExecRotate, ExecJump, ExecPort,
      Unfinished;
    SingleNext(bus, block, up, m);
  }

  lemma SingleNext<D>(bus: Bus<D>, block: Block, up: bool, m: Core<D>)
    ensures ExecSingle(bus, block, up, m).next == Rel(0)
  {
    hide Read, Write, MapPort, PortFlags, LoadFlags, SearchFlags, Hi, Lo, Pair, Word, Byte;
  }

  /** LDI, CPI, INI, OUTI and their downward forms do what one iteration of the repeating form does, and go on
      to the next instruction. */
  lemma SingleIsIteration<D>(bus: Bus<D>, s: State<D>, s': State<D>, k: nat, down: bool)
    requires k < 4 && s'.core.regs == s.core.regs && s'.core.dev == s.core.dev && s'.core.mem == s.core.mem
    requires EdAt(s.core.mem, s.pc, 0xa0 + (if down then 8 else 0) + k)
    requires EdAt(s'.core.mem, s'.pc, 0xb0 + (if down then 8 else 0) + k)
    ensures Step(bus, s).Tick? && Step(bus, s').Tick? && Step(bus, s).s.core == Step(bus, s').s.core
    ensures Step(bus, s).s.pc == Word(s.pc + 2)
  {
    hide EdAt, Step, Exec, Read, EdInstr, Word;
    var op := 0xa0 + (if down then 8 else 0) + k;
    var block := [Block.Load, Block.Compare, Block.Input, Block.Output][k];
    BlockCodes(k, down);
    EdStepAt(bus, s, op);
    EdStepAt(bus, s', op + 16);
    BlockExec(bus, block, !down, CodeAt(s, PlainHL, op, s.pc + 2), s.core, CodeAt(s', PlainHL, op + 16, s'.pc + 2));
    assert s'.core == s.core;
  }
}
