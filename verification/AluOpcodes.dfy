/** Arithmetic, rotates, bits and ports, from the opcode bytes to the state afterwards. */
module AluOpcodes {
  import opened Words
  import opened BankedMemory
  import opened Alu
  import opened AluMeaning
  import opened Instructions
  import opened Machine
  import opened Opcodes
  import opened LoadOpcodes

  // The effects.

  lemma AluRExec<D>(bus: Bus<D>, x: Instr, c: Code, m: Core<D>)
    requires x.AluR?
    ensures var e := Exec(bus, x, c, m);
      var (a, f) := Apply(AluOf(Y(c.op)), m.regs.a, Get8(m.regs, c.mode, Z(c.op)), m.regs.f);
      e.core == Regs(m, m.regs.(a := a, f := f)) && e.next == Rel(0) && e.cost == 0
  {
    hide ExecLoad8, ExecLoad16, ExecSingle, ExecRepeat, ExecGeneral, ExecArith16, ExecRotate, ExecJump,
      ExecPort, Set8, Get8, Read, Write, Store, Regs, Address, Apply, AluOf, Inc8, Dec8, Pair, Hi, Lo;
  }

  lemma AluNExec<D>(bus: Bus<D>, x: Instr, c: Code, m: Core<D>)
    requires x.AluN?
    ensures var e := Exec(bus, x, c, m);
      var (a, f) := Apply(AluOf(Y(c.op)), m.regs.a, c.n1, m.regs.f);
      e.core == Regs(m, m.regs.(a := a, f := f)) && e.next == Rel(1) && e.cost == 3
  {
    hide ExecLoad8, ExecLoad16, ExecSingle, ExecRepeat, ExecGeneral, ExecArith16, ExecRotate, ExecJump,
      ExecPort, Set8, Get8, Read, Write, Store, Regs, Address, Apply, AluOf, Inc8, Dec8, Pair, Hi, Lo;
  }

  lemma AluIndExec<D>(bus: Bus<D>, x: Instr, c: Code, m: Core<D>)
    requires x.AluInd?
    ensures var e := Exec(bus, x, c, m);
      var (a, f) := Apply(AluOf(Y(c.op)), m.regs.a, Read(m.mem, Address(c, m.regs)), m.regs.f);
      var idx := Displacement(c);
      e.core == Regs(m, m.regs.(a := a, f := f)) && e.next == Rel(idx) && e.cost == 3 + 8 * idx
  {
    hide ExecLoad8, ExecLoad16, ExecSingle, ExecRepeat, ExecGeneral, ExecArith16, ExecRotate, ExecJump,
      ExecPort, Set8, Get8, Read, Write, Store, Regs, Address, Apply, AluOf, Inc8, Dec8, Pair, Hi, Lo;
  }

  lemma IncRExec<D>(bus: Bus<D>, x: Instr, c: Code, m: Core<D>)
    requires x.IncR?
    ensures var e := Exec(bus, x, c, m);
      var (v, f) := Inc8(Get8(m.regs, c.mode, Y(c.op)), m.regs.f);
      e.core == Regs(m, Set8(m.regs, c.mode, Y(c.op), v).(f := f)) && e.next == Rel(0) && e.cost == 0
  {
    hide ExecLoad8, ExecLoad16, ExecSingle, ExecRepeat, ExecGeneral, ExecArith16, ExecRotate, ExecJump,
      ExecPort, Set8, Get8, Read, Write, Store, Regs, Address, Apply, AluOf, Inc8, Dec8, Pair, Hi, Lo;
  }

  lemma DecRExec<D>(bus: Bus<D>, x: Instr, c: Code, m: Core<D>)
    requires x.DecR?
    ensures var e := Exec(bus, x, c, m);
      var (v, f) := Dec8(Get8(m.regs, c.mode, Y(c.op)), m.regs.f);
      e.core == Regs(m, Set8(m.regs, c.mode, Y(c.op), v).(f := f)) && e.next == Rel(0) && e.cost == 0
  {
    hide ExecLoad8, ExecLoad16, ExecSingle, ExecRepeat, ExecGeneral, ExecArith16, ExecRotate, ExecJump,
      ExecPort, Set8, Get8, Read, Write, Store, Regs, Address, Apply, AluOf, Inc8, Dec8, Pair, Hi, Lo;
  }

  lemma IncIndExec<D>(bus: Bus<D>, x: Instr, c: Code, m: Core<D>)
    requires x.IncInd?
    ensures var e := Exec(bus, x, c, m);
      var (v, f) := Inc8(Read(m.mem, Address(c, m.regs)), m.regs.f);
      var idx := Displacement(c);
      && e.core == Regs(Store(m, Address(c, m.regs), v), m.regs.(f := f))
      && e.next == Rel(idx) && e.cost == 7 + 8 * idx
  {
    hide ExecLoad8, ExecLoad16, ExecSingle, ExecRepeat, ExecGeneral, ExecArith16, ExecRotate, ExecJump,
      ExecPort, Set8, Get8, Read, Write, Store, Regs, Address, Apply, AluOf, Inc8, Dec8, Pair, Hi, Lo;
  }

  lemma DecIndExec<D>(bus: Bus<D>, x: Instr, c: Code, m: Core<D>)
    requires x.DecInd?
    ensures var e := Exec(bus, x, c, m);
      var (v, f) := Dec8(Read(m.mem, Address(c, m.regs)), m.regs.f);
      var idx := Displacement(c);
      && e.core == Regs(Store(m, Address(c, m.regs), v), m.regs.(f := f))
      && e.next == Rel(idx) && e.cost == 7 + 8 * idx
  {
    hide ExecLoad8, ExecLoad16, ExecSingle, ExecRepeat, ExecGeneral, ExecArith16, ExecRotate, ExecJump,
      ExecPort, Set8, Get8, Read, Write, Store, Regs, Address, Apply, AluOf, Inc8, Dec8, Pair, Hi, Lo;
  }

  lemma IncPairExec<D>(bus: Bus<D>, x: Instr, c: Code, m: Core<D>)
    requires x.IncRr?
    ensures var e := Exec(bus, x, c, m);
      var v := Get16(m.regs, c.mode, P(c.op));
      e.core == Regs(m, Set16(m.regs, c.mode, P(c.op), Word(v + 1))) && e.next == Rel(0) && e.cost == 2
  {
    hide ExecLoad8, ExecLoad16, ExecSingle, ExecRepeat, ExecAlu, ExecGeneral, ExecRotate, ExecJump, ExecPort,
      Set16, SetHl, Get16, Regs, AddHl, AdcHl, SbcHl, Word, HlOf, P;
  }

  lemma DecPairExec<D>(bus: Bus<D>, x: Instr, c: Code, m: Core<D>)
    requires x.DecRr?
    ensures var e := Exec(bus, x, c, m);
      var v := Get16(m.regs, c.mode, P(c.op));
      e.core == Regs(m, Set16(m.regs, c.mode, P(c.op), Word(v - 1))) && e.next == Rel(0) && e.cost == 2
  {
    hide ExecLoad8, ExecLoad16, ExecSingle, ExecRepeat, ExecAlu, ExecGeneral, ExecRotate, ExecJump, ExecPort,
      Set16, SetHl, Get16, Regs, AddHl, AdcHl, SbcHl, Word, HlOf, P;
  }

  lemma AddHLExec<D>(bus: Bus<D>, x: Instr, c: Code, m: Core<D>)
    requires x.AddHLRr?
    ensures var e := Exec(bus, x, c, m);
      var (w, f) := AddHl(HlOf(m.regs, c.mode), Get16(m.regs, c.mode, P(c.op)), m.regs.f);
      e.core == Regs(m, SetHl(m.regs, c.mode, w).(f := f)) && e.next == Rel(0) && e.cost == 7
  {
    hide ExecLoad8, ExecLoad16, ExecSingle, ExecRepeat, ExecAlu, ExecGeneral, ExecRotate, ExecJump, ExecPort,
      Set16, SetHl, Get16, Regs, AddHl, AdcHl, SbcHl, Word, HlOf, P;
  }

  lemma AdcHLExec<D>(bus: Bus<D>, x: Instr, c: Code, m: Core<D>)
    requires x.AdcHLRr?
    ensures var e := Exec(bus, x, c, m);
      var (w, f) := AdcHl(m.regs.hl, Get16(m.regs, c.mode, P(c.op)), m.regs.f);
      e.core == Regs(m, m.regs.(hl := w, f := f)) && e.next == Rel(0) && e.cost == 7
  {
    hide ExecLoad8, ExecLoad16, ExecSingle, ExecRepeat, ExecAlu, ExecGeneral, ExecRotate, ExecJump, ExecPort,
      Set16, SetHl, Get16, Regs, AddHl, AdcHl, SbcHl, Word, HlOf, P;
  }

  lemma SbcHLExec<D>(bus: Bus<D>, x: Instr, c: Code, m: Core<D>)
    requires x.SbcHLRr?
    ensures var e := Exec(bus, x, c, m);
      var (w, f) := SbcHl(m.regs.hl, Get16(m.regs, c.mode, P(c.op)), m.regs.f);
      e.core == Regs(m, m.regs.(hl := w, f := f)) && e.next == Rel(0) && e.cost == 7
  {
    hide ExecLoad8, ExecLoad16, ExecSingle, ExecRepeat, ExecAlu, ExecGeneral, ExecRotate, ExecJump, ExecPort,
      Set16, SetHl, Get16, Regs, AddHl, AdcHl, SbcHl, Word, HlOf, P;
  }

  lemma InAExec<D>(bus: Bus<D>, x: Instr, c: Code, m: Core<D>)
    requires x.InAN?
    ensures var e := Exec(bus, x, c, m);
      var (m', v) := In(bus, m, c.n1);
      e.core == Regs(m', m.regs.(a := v)) && e.next == Rel(1) && e.cost == 7
  {
    hide ExecLoad8, ExecLoad16, ExecSingle, ExecRepeat, ExecAlu, ExecGeneral, ExecArith16, ExecRotate, ExecJump,
      Regs, Set8, Get8, In, Out, Szyxp, Pair, Hi, Lo;
  }

  lemma OutAExec<D>(bus: Bus<D>, x: Instr, c: Code, m: Core<D>)
    requires x.OutNA?
    ensures var e := Exec(bus, x, c, m);
      e.core == Out(bus, m, c.n1, m.regs.a) && e.next == Rel(1) && e.cost == 7
  {
    hide ExecLoad8, ExecLoad16, ExecSingle, ExecRepeat, ExecAlu, ExecGeneral, ExecArith16, ExecRotate, ExecJump,
      Regs, Set8, Get8, In, Out, Szyxp, Pair, Hi, Lo;
  }

  lemma RotRExec<D>(bus: Bus<D>, x: Instr, c: Code, m: Core<D>)
    requires x.RotR?
    ensures var e := Exec(bus, x, c, m);
      var (v, f) := Rotate(RotOf(Y(c.op)), Get8(m.regs, c.mode, Z(c.op)), m.regs.f);
      e.core == Regs(m, Set8(m.regs, c.mode, Z(c.op), v).(f := f)) && e.next == Rel(0) && e.cost == 0
  {
    hide ExecLoad8, ExecLoad16, ExecSingle, ExecRepeat, ExecAlu, ExecGeneral, ExecArith16, ExecJump, ExecPort,
      Set8, Get8, Read, Write, Store, Regs, Address, Rotate, RotOf, Mask, Byte, Bit, Szyxp, And8, Or8,
      BitFlags, AccumulatorFlags, Pair, Hi, Lo;
  }

  lemma BitRExec<D>(bus: Bus<D>, x: Instr, c: Code, m: Core<D>)
    requires x.BitR?
    ensures var e := Exec(bus, x, c, m);
      var v := Get8(m.regs, c.mode, Z(c.op));
      e.core == Regs(m, m.regs.(f := BitFlags(v, Y(c.op), v, m.regs.f.c))) && e.next == Rel(0) && e.cost == 0
  {
    hide ExecLoad8, ExecLoad16, ExecSingle, ExecRepeat, ExecAlu, ExecGeneral, ExecArith16, ExecJump, ExecPort,
      Set8, Get8, Read, Write, Store, Regs, Address, Rotate, RotOf, Mask, Byte, Bit, Szyxp, And8, Or8,
      BitFlags, AccumulatorFlags, Pair, Hi, Lo;
  }

  lemma SetRExec<D>(bus: Bus<D>, x: Instr, c: Code, m: Core<D>)
    requires x.SetR?
    ensures var e := Exec(bus, x, c, m);
      var v := Or8(Get8(m.regs, c.mode, Z(c.op)), Mask(Y(c.op)));
      e.core == Regs(m, Set8(m.regs, c.mode, Z(c.op), v)) && e.next == Rel(0) && e.cost == 0
  {
    hide ExecLoad8, ExecLoad16, ExecSingle, ExecRepeat, ExecAlu, ExecGeneral, ExecArith16, ExecJump, ExecPort,
      Set8, Get8, Read, Write, Store, Regs, Address, Rotate, RotOf, Mask, Byte, Bit, Szyxp, And8, Or8,
      BitFlags, AccumulatorFlags, Pair, Hi, Lo;
  }

  lemma ResRExec<D>(bus: Bus<D>, x: Instr, c: Code, m: Core<D>)
    requires x.ResR?
    ensures var e := Exec(bus, x, c, m);
      var v := And8(Get8(m.regs, c.mode, Z(c.op)), 255 - Mask(Y(c.op)));
      e.core == Regs(m, Set8(m.regs, c.mode, Z(c.op), v)) && e.next == Rel(0) && e.cost == 0
  {
    hide ExecLoad8, ExecLoad16, ExecSingle, ExecRepeat, ExecAlu, ExecGeneral, ExecArith16, ExecJump, ExecPort,
      Set8, Get8, Read, Write, Store, Regs, Address, Rotate, RotOf, Mask, Byte, Bit, Szyxp, And8, Or8,
      BitFlags, AccumulatorFlags, Pair, Hi, Lo;
  }

  // ADD A,r to CP r.

  /** The operations, as bits 5-3 of the opcode number them. */
  function Operation(y: nat): AluOp
    requires y < 8
  {
    [Add, Adc, Sub, Sbc, And, Xor, Or, Cp][y]
  }

  lemma OperationIs(y: nat)
    requires y < 8
    ensures AluOf(y) == Operation(y)
  {
  }

  lemma AluCodes(y: nat, z: nat)
    requires y < 8 && z < 8
    ensures Main(0x80 + 8 * y + z) == (if z == 6 then AluInd else AluR)
    ensures Y(0x80 + 8 * y + z) == y && Z(0x80 + 8 * y + z) == z
    ensures Main(0xc6 + 8 * y) == AluN && Y(0xc6 + 8 * y) == y
  {
    hide Y, Z, P;
    Parts(2, y, z);
    Parts(3, y, 6);
  }

  /** What the operation does to A and F, and nothing else: its operand is `x`. */
  ghost predicate Operated<D>(m: Core<D>, n: Core<D>, y: nat, x: byte)
    requires y < 8
  {
    hide Apply, Operation;
    var (a, f) := Apply(Operation(y), m.regs.a, x, m.regs.f);
    n == m.(regs := m.regs.(a := a, f := f))
  }

  lemma AluRegister<D>(bus: Bus<D>, s: State<D>, mode: Index, y: nat, z: nat, at: int)
    requires y < 8 && z < 8 && z != 6 && OpAt(s.core.mem, s.pc, mode, 0x80 + 8 * y + z, at)
    ensures var t := Step(bus, s);
      && t.Tick? && t.s.pc == Word(at) && t.cost == 4 * (at - s.pc)
      && Operated(s.core, t.s.core, y, Named(s.core.regs, mode, z))
  {
    hide OpAt, Step, Exec, Read, Main, Y, Z, Word, Get8, Named, Apply, AluOf, Operation;
    var op := 0x80 + 8 * y + z;
    AluCodes(y, z);
    OperationIs(y);
    StepAt(bus, s, mode, op, at);
    AluRExec(bus, Main(op), CodeAt(s, mode, op, at), s.core);
    GetNamed(s.core.regs, mode, z);
  }

  lemma AluImmediate<D>(bus: Bus<D>, s: State<D>, mode: Index, y: nat, at: int)
    requires y < 8 && OpAt(s.core.mem, s.pc, mode, 0xc6 + 8 * y, at)
    ensures var t := Step(bus, s);
      && t.Tick? && t.s.pc == Word(at + 1) && t.cost == 4 * (at - s.pc) + 3
      && Operated(s.core, t.s.core, y, Read(s.core.mem, at))
  {
    hide OpAt, Step, Exec, Read, Main, Y, Z, Word, Apply, AluOf, Operation;
    AluCodes(y, 0);
    OperationIs(y);
    StepAt(bus, s, mode, 0xc6 + 8 * y, at);
    AluNExec(bus, AluN, CodeAt(s, mode, 0xc6 + 8 * y, at), s.core);
  }

  lemma AluPointed<D>(bus: Bus<D>, s: State<D>, mode: Index, y: nat, at: int)
    requires y < 8 && OpAt(s.core.mem, s.pc, mode, 0x86 + 8 * y, at)
    ensures var t, idx := Step(bus, s), if mode.PlainHL? then 0 else 1;
      && t.Tick? && t.s.pc == Word(at + idx) && t.cost == 4 * (at - s.pc) + 3 + 8 * idx
      && Operated(s.core, t.s.core, y, Read(s.core.mem, Pointed(s, mode, at)))
  {
    hide OpAt, Step, Exec, Read, Main, Y, Z, Word, Apply, AluOf, Operation, Address, Pointed;
    var op: byte := 0x86 + 8 * y;
    AluCodes(y, 6);
    OperationIs(y);
    StepAt(bus, s, mode, op, at);
    AluIndExec(bus, AluInd, CodeAt(s, mode, op, at), s.core);
    PointedAddress(s, mode, op, at);
  }

  /** CP n: the jump on Z after it is taken exactly if A is n, the jump on C exactly if A is less; A and all
      other registers are kept. */
  lemma CompareImmediate<D>(bus: Bus<D>, s: State<D>, mode: Index, at: int)
    requires OpAt(s.core.mem, s.pc, mode, 0xfe, at)
    ensures var t, m, n := Step(bus, s), s.core, Read(s.core.mem, at);
      && t.Tick? && t.s.pc == Word(at + 1) && t.s.core == m.(regs := m.regs.(f := t.s.core.regs.f))
      && (Taken(FlagsByte(t.s.core.regs.f), 1) <==> m.regs.a == n)
      && (Taken(FlagsByte(t.s.core.regs.f), 3) <==> m.regs.a < n)
  {
    hide OpAt, Step, Read, Word, Apply, Taken, FlagsByte, Bit;
    AluImmediate(bus, s, mode, 7, at);
    CompareMeaning(s.core.regs.a, Read(s.core.mem, at), s.core.regs.f);
    ConditionIs(Step(bus, s).s.core.regs.f, 1);
    ConditionIs(Step(bus, s).s.core.regs.f, 3);
  }

  // INC, DEC, ADD HL.

  lemma CountCodes(y: nat)
    requires y < 8
    ensures Main(0x04 + 8 * y) == (if y == 6 then IncInd else IncR) && Y(0x04 + 8 * y) == y
    ensures Main(0x05 + 8 * y) == (if y == 6 then DecInd else DecR) && Y(0x05 + 8 * y) == y
  {
    hide Y, Z, P;
    Parts(0, y, 4);
    Parts(0, y, 5);
  }

  lemma SetNamedFlags(r: Registers, mode: Index, k: nat, v: byte, f: Flags)
    requires k < 8 && k != 6
    ensures Loaded(r.(f := f), Set8(r, mode, k, v).(f := f), mode, k, v)
  {
    hide Hi, Lo, Pair, Loaded, Named;
    SetNamed(r.(f := f), mode, k, v);
  }

  /** INC r. */
  lemma IncrementRegister<D>(bus: Bus<D>, s: State<D>, mode: Index, y: nat, at: int)
    requires y < 8 && y != 6 && OpAt(s.core.mem, s.pc, mode, 0x04 + 8 * y, at)
    ensures var t, m := Step(bus, s), s.core;
      var (v, f) := Inc8(Named(m.regs, mode, y), m.regs.f);
      && t.Tick? && t.s.pc == Word(at) && t.cost == 4 * (at - s.pc) && t.s.core == m.(regs := t.s.core.regs)
      && Loaded(m.regs.(f := f), t.s.core.regs, mode, y, v)
  {
    hide OpAt, Step, Exec, Read, Main, Y, Word, Get8, Set8, Named, Loaded, Inc8;
    var op: byte, r := 0x04 + 8 * y, s.core.regs;
    CountCodes(y);
    StepAt(bus, s, mode, op, at);
    IncRExec(bus, IncR, CodeAt(s, mode, op, at), s.core);
    GetNamed(r, mode, y);
    SetNamedFlags(r, mode, y, Inc8(Named(r, mode, y), r.f).0, Inc8(Named(r, mode, y), r.f).1);
  }

  /** DEC r. */
  lemma DecrementRegister<D>(bus: Bus<D>, s: State<D>, mode: Index, y: nat, at: int)
    requires y < 8 && y != 6 && OpAt(s.core.mem, s.pc, mode, 0x05 + 8 * y, at)
    ensures var t, m := Step(bus, s), s.core;
      var (v, f) := Dec8(Named(m.regs, mode, y), m.regs.f);
      && t.Tick? && t.s.pc == Word(at) && t.cost == 4 * (at - s.pc) && t.s.core == m.(regs := t.s.core.regs)
      && Loaded(m.regs.(f := f), t.s.core.regs, mode, y, v)
  {
    hide OpAt, Step, Exec, Read, Main, Y, Word, Get8, Set8, Named, Loaded, Dec8;
    var op: byte, r := 0x05 + 8 * y, s.core.regs;
    CountCodes(y);
    StepAt(bus, s, mode, op, at);
    DecRExec(bus, DecR, CodeAt(s, mode, op, at), s.core);
    GetNamed(r, mode, y);
    SetNamedFlags(r, mode, y, Dec8(Named(r, mode, y), r.f).0, Dec8(Named(r, mode, y), r.f).1);
  }

  /** INC (HL) and INC (IX+d). */
  lemma IncrementPointed<D>(bus: Bus<D>, s: State<D>, mode: Index, at: int)
    requires OpAt(s.core.mem, s.pc, mode, 0x34, at)
    ensures var t, m, idx := Step(bus, s), s.core, if mode.PlainHL? then 0 else 1;
      var (v, f) := Inc8(Read(m.mem, Pointed(s, mode, at)), m.regs.f);
      && t.Tick? && t.s.pc == Word(at + idx) && t.cost == 4 * (at - s.pc) + 7 + 8 * idx
      && t.s.core == Core(m.regs.(f := f), Write(m.mem, Pointed(s, mode, at), v), m.dev)
  {
    hide OpAt, Step, Exec, Read, Write, Word, Address, Pointed, Inc8;
    StepAt(bus, s, mode, 0x34, at);
    IncIndExec(bus, Main(0x34), CodeAt(s, mode, 0x34, at), s.core);
    PointedAddress(s, mode, 0x34, at);
  }

  /** DEC (HL) and DEC (IX+d). */
  lemma DecrementPointed<D>(bus: Bus<D>, s: State<D>, mode: Index, at: int)
    requires OpAt(s.core.mem, s.pc, mode, 0x35, at)
    ensures var t, m, idx := Step(bus, s), s.core, if mode.PlainHL? then 0 else 1;
      var (v, f) := Dec8(Read(m.mem, Pointed(s, mode, at)), m.regs.f);
      && t.Tick? && t.s.pc == Word(at + idx) && t.cost == 4 * (at - s.pc) + 7 + 8 * idx
      && t.s.core == Core(m.regs.(f := f), Write(m.mem, Pointed(s, mode, at), v), m.dev)
  {
    hide OpAt, Step, Exec, Read, Write, Word, Address, Pointed, Dec8;
    StepAt(bus, s, mode, 0x35, at);
    DecIndExec(bus, Main(0x35), CodeAt(s, mode, 0x35, at), s.core);
    PointedAddress(s, mode, 0x35, at);
  }

  /** INC rr and DEC rr: modulo 65536, no flags. */
  lemma CountPair<D>(bus: Bus<D>, s: State<D>, mode: Index, p: nat, down: bool, at: int)
    requires p < 4 && OpAt(s.core.mem, s.pc, mode, (if down then 0x0b else 0x03) + 16 * p, at)
    ensures var t, m := Step(bus, s), s.core;
      && t.Tick? && t.s.pc == Word(at) && t.cost == 4 * (at - s.pc) + 2 && t.s.core == m.(regs := t.s.core.regs)
      && PairLoaded(m.regs, t.s.core.regs, mode, p, Word(NamedPair(m.regs, mode, p) + if down then -1 else 1))
  {
    hide OpAt, Step, Exec, Read, Main, P, Word, Get16, Set16, NamedPair, PairLoaded;
    var op: byte, v: int := (if down then 0x0b else 0x03) + 16 * p, NamedPair(s.core.regs, mode, p);
    PairParts3(p);
    StepAt(bus, s, mode, op, at);
    PairLaws(s.core.regs, mode, p, Word(v + if down then -1 else 1));
    if down {
      DecPairExec(bus, DecRr, CodeAt(s, mode, op, at), s.core);
    } else {
      IncPairExec(bus, IncRr, CodeAt(s, mode, op, at), s.core);
    }
  }

  lemma PairFlags(r: Registers, mode: Index, w: word, f: Flags)
    ensures PairLoaded(r.(f := f), SetHl(r, mode, w).(f := f), mode, 2, w)
  {
  }

  /** ADD HL,rr, and ADD IX,rr. */
  lemma AddPair<D>(bus: Bus<D>, s: State<D>, mode: Index, p: nat, at: int)
    requires p < 4 && OpAt(s.core.mem, s.pc, mode, 0x09 + 16 * p, at)
    ensures var t, m := Step(bus, s), s.core;
      var (w, f) := AddHl(NamedPair(m.regs, mode, 2), NamedPair(m.regs, mode, p), m.regs.f);
      && t.Tick? && t.s.pc == Word(at) && t.cost == 4 * (at - s.pc) + 7 && t.s.core == m.(regs := t.s.core.regs)
      && PairLoaded(m.regs.(f := f), t.s.core.regs, mode, 2, w)
  {
    hide OpAt, Step, Exec, Read, Main, P, Word, Get16, SetHl, HlOf, NamedPair, PairLoaded, AddHl;
    var op: byte, r := 0x09 + 16 * p, s.core.regs;
    PairParts3(p);
    StepAt(bus, s, mode, op, at);
    AddHLExec(bus, AddHLRr, CodeAt(s, mode, op, at), s.core);
    PairLaws(r, mode, p, 0);
    PairLaws(r, mode, 2, 0);
    var a := AddHl(NamedPair(r, mode, 2), NamedPair(r, mode, p), r.f);
    PairFlags(r, mode, a.0, a.1);
  }

  // Ports.

  /** IN A,(n): A takes what the devices give on port n; no flags. */
  lemma InputA<D>(bus: Bus<D>, s: State<D>, mode: Index, at: int)
    requires OpAt(s.core.mem, s.pc, mode, 0xdb, at)
    ensures var t, m := Step(bus, s), s.core;
      var (dev, v) := bus.input(m.dev, Read(m.mem, at));
      && t.Tick? && t.s.pc == Word(at + 1) && t.cost == 4 * (at - s.pc) + 7
      && t.s.core == Core(m.regs.(a := v), m.mem, dev)
  {
    hide OpAt, Step, Exec, Read, Word;
    StepAt(bus, s, mode, 0xdb, at);
    InAExec(bus, InAN, CodeAt(s, mode, 0xdb, at), s.core);
  }

  /** OUT (n),A: the devices get A on port n, and ports A0h-AFh also map a page. */
  lemma OutputA<D>(bus: Bus<D>, s: State<D>, mode: Index, at: int)
    requires OpAt(s.core.mem, s.pc, mode, 0xd3, at)
    ensures var t, m, n := Step(bus, s), s.core, Read(s.core.mem, at);
      && t.Tick? && t.s.pc == Word(at + 1) && t.cost == 4 * (at - s.pc) + 7
      && t.s.core == Core(m.regs, MapPort(m.mem, n, m.regs.a), bus.output(m.dev, n, m.regs.a))
  {
    hide OpAt, Step, Exec, Read, Word, MapPort;
    StepAt(bus, s, mode, 0xd3, at);
    OutAExec(bus, OutNA, CodeAt(s, mode, 0xd3, at), s.core);
  }

  // Opcodes after CB, on plain registers.

  predicate CbAt(m: Memory, pc: int, op: byte) {
    hide Read;
    Read(m, pc) == 0xcb && Read(m, pc + 1) == op
  }

  lemma CbStepAt<D>(bus: Bus<D>, s: State<D>, op: byte)
    requires CbAt(s.core.mem, s.pc, op)
    ensures var e, t := Exec(bus, CbInstr(op), CodeAt(s, PlainHL, op, s.pc + 2), s.core), Step(bus, s);
      && t.Tick? && t.s.core == e.core && t.s.pc == Word(Follow(s.pc + 2, e.next)) && t.cost == 8 + e.cost
  {
    hide Exec, Fetch, Read, CbInstr, Follow, Word;
    CbFetch(s.core.mem, s.pc, op);
    StepOf(bus, s);
  }

  lemma CbFetch(m: Memory, pc: int, op: byte)
    requires CbAt(m, pc, op)
    ensures Fetch(m, pc) == Fetched(CbInstr(op), op, PlainHL, 2, 2, 8)
  {
    hide Read, PrefixCount, CbInstr;
    var k: int := PrefixCount(m, pc, 65536);
    assert k > 0 ==> IsPrefix(Read(m, pc));
  }

  lemma CbCodes(y: nat, z: nat)
    requires y < 8 && z < 8 && z != 6
    ensures CbInstr(8 * y + z) == RotR && CbInstr(0x40 + 8 * y + z) == BitR
    ensures CbInstr(0x80 + 8 * y + z) == ResR && CbInstr(0xc0 + 8 * y + z) == SetR
    ensures forall x :: 0 <= x < 4 ==> Y(64 * x + 8 * y + z) == y && Z(64 * x + 8 * y + z) == z
  {
    hide Y, Z, P;
    Parts(0, y, z);
    Parts(1, y, z);
    Parts(2, y, z);
    Parts(3, y, z);
  }

  /** The rotates and shifts, as bits 5-3 of the opcode number them. */
  function Shift(y: nat): RotOp
    requires y < 8
  {
    [Rlc, Rrc, Rl, Rr, Sla, Sra, Sll, Srl][y]
  }

  lemma ShiftIs(y: nat)
    requires y < 8
    ensures RotOf(y) == Shift(y)
  {
  }

  /** RLC r to SRL r. */
  lemma RotateRegister<D>(bus: Bus<D>, s: State<D>, y: nat, z: nat)
    requires y < 8 && z < 8 && z != 6 && CbAt(s.core.mem, s.pc, 8 * y + z)
    ensures var t, m := Step(bus, s), s.core;
      var (v, f) := Rotate(Shift(y), Named(m.regs, PlainHL, z), m.regs.f);
      && t.Tick? && t.s.pc == Word(s.pc + 2) && t.cost == 8 && t.s.core == m.(regs := t.s.core.regs)
      && Loaded(m.regs.(f := f), t.s.core.regs, PlainHL, z, v)
  {
    hide CbAt, Step, Exec, Read, CbInstr, Y, Z, Word, Get8, Set8, Named, Loaded, Rotate, RotOf, Shift;
    var op: byte, r := 8 * y + z, s.core.regs;
    CbCodes(y, z);
    ShiftIs(y);
    assert op == 64 * 0 + 8 * y + z;
    CbStepAt(bus, s, op);
    RotRExec(bus, RotR, CodeAt(s, PlainHL, op, s.pc + 2), s.core);
    GetNamed(r, PlainHL, z);
    var a := Rotate(Shift(y), Named(r, PlainHL, z), r.f);
    SetNamedFlags(r, PlainHL, z, a.0, a.1);
  }

  /** The weight of bit `y`. */
  function Weight(y: nat): (w: int)
    requires y < 8
    ensures OneBit(w)
  {
    [1, 2, 4, 8, 16, 32, 64, 128][y]
  }

  /** BIT b,r: Z exactly if the bit is clear; carry and all registers are kept. */
  lemma TestBit<D>(bus: Bus<D>, s: State<D>, y: nat, z: nat)
    requires y < 8 && z < 8 && z != 6 && CbAt(s.core.mem, s.pc, 0x40 + 8 * y + z)
    ensures var t, m := Step(bus, s), s.core;
      && t.Tick? && t.s.pc == Word(s.pc + 2) && t.cost == 8
      && t.s.core == m.(regs := m.regs.(f := t.s.core.regs.f))
      && t.s.core.regs.f.z == !Bit(Named(m.regs, PlainHL, z), Weight(y))
      && t.s.core.regs.f.c == m.regs.f.c && t.s.core.regs.f.h && !t.s.core.regs.f.n
  {
    hide CbAt, Step, Exec, Read, CbInstr, Y, Z, Word, Get8, Named, Bit;
    var op: byte := 0x40 + 8 * y + z;
    CbCodes(y, z);
    assert op == 64 * 1 + 8 * y + z;
    CbStepAt(bus, s, op);
    BitRExec(bus, BitR, CodeAt(s, PlainHL, op, s.pc + 2), s.core);
    GetNamed(s.core.regs, PlainHL, z);
  }

  lemma OneBitSet(y: nat, w: int)
    requires y < 8 && OneBit(w)
    ensures Mask(y) == Weight(y) && Bit(Weight(y), w) == (w == Weight(y)) && Bit(255 - Weight(y), w) == (w != Weight(y))
  {
  }

  /** SET b,r and RES b,r: the bit, every other bit and everything else kept. */
  lemma ChangeBit<D>(bus: Bus<D>, s: State<D>, y: nat, z: nat, set1: bool, w: int)
    requires y < 8 && z < 8 && z != 6 && OneBit(w)
    requires CbAt(s.core.mem, s.pc, (if set1 then 0xc0 else 0x80) + 8 * y + z)
    ensures var t, m, old1 := Step(bus, s), s.core, Named(s.core.regs, PlainHL, z);
      var v := Named(t.s.core.regs, PlainHL, z);
      && t.Tick? && t.s.pc == Word(s.pc + 2) && t.cost == 8 && t.s.core == m.(regs := t.s.core.regs)
      && Loaded(m.regs, t.s.core.regs, PlainHL, z, v)
      && Bit(v, w) == if w == Weight(y) then set1 else Bit(old1, w)
  {
    hide CbAt, Step, Exec, Read, CbInstr, Y, Z, Word, Get8, Set8, OnlyNamed, Named, Bit, And8, Or8, Mask, Weight;
    var op: byte, r := (if set1 then 0xc0 else 0x80) + 8 * y + z, s.core.regs;
    var b := Named(r, PlainHL, z);
    CbCodes(y, z);
    assert op == 64 * (if set1 then 3 else 2) + 8 * y + z;
    CbStepAt(bus, s, op);
    GetNamed(r, PlainHL, z);
    OneBitSet(y, w);
    if set1 {
      SetRExec(bus, SetR, CodeAt(s, PlainHL, op, s.pc + 2), s.core);
      SetNamed(r, PlainHL, z, Or8(b, Mask(y)));
      BitwiseMeaning(b, Mask(y), w);
    } else {
      ResRExec(bus, ResR, CodeAt(s, PlainHL, op, s.pc + 2), s.core);
      SetNamed(r, PlainHL, z, And8(b, 255 - Mask(y)));
      BitwiseMeaning(b, 255 - Mask(y), w);
    }
  }

  // ADC HL and SBC HL, after ED.

  predicate EdAt(m: Memory, pc: int, op: byte) {
    hide Read;
    Read(m, pc) == 0xed && Read(m, pc + 1) == op
  }

  lemma EdFetch(m: Memory, pc: int, op: byte)
    requires EdAt(m, pc, op)
    ensures Fetch(m, pc) == Fetched(EdInstr(op), op, PlainHL, 2, 2, 8)
  {
    hide Read, PrefixCount, EdInstr;
    var k: int := PrefixCount(m, pc, 65536);
    assert k > 0 ==> IsPrefix(Read(m, pc));
  }

  lemma EdStepAt<D>(bus: Bus<D>, s: State<D>, op: byte)
    requires EdAt(s.core.mem, s.pc, op)
    ensures var e, t := Exec(bus, EdInstr(op), CodeAt(s, PlainHL, op, s.pc + 2), s.core), Step(bus, s);
      && t.Tick? && t.s.core == e.core && t.s.pc == Word(Follow(s.pc + 2, e.next)) && t.cost == 8 + e.cost
  {
    hide Exec, Fetch, Read, EdInstr, Follow, Word;
    EdFetch(s.core.mem, s.pc, op);
    StepOf(bus, s);
  }

  lemma EdCodes(p: nat)
    requires p < 4
    ensures EdInstr(0x42 + 16 * p) == SbcHLRr && P(0x42 + 16 * p) == p
    ensures EdInstr(0x4a + 16 * p) == AdcHLRr && P(0x4a + 16 * p) == p
  {
    hide Y, Z, P;
    Parts(1, 2 * p, 2);
    Parts(1, 2 * p + 1, 2);
  }

  lemma AddPairCarry<D>(bus: Bus<D>, s: State<D>, p: nat)
    requires p < 4 && EdAt(s.core.mem, s.pc, 0x4a + 16 * p)
    ensures var t, m := Step(bus, s), s.core;
      var (w, f) := AdcHl(m.regs.hl, NamedPair(m.regs, PlainHL, p), m.regs.f);
      && t.Tick? && t.s.pc == Word(s.pc + 2) && t.cost == 15
      && t.s.core == m.(regs := m.regs.(hl := w, f := f))
  {
    hide EdAt, Step, Exec, Read, EdInstr, P, Word, Get16, NamedPair, AdcHl;
    EdCodes(p);
    EdStepAt(bus, s, 0x4a + 16 * p);
    AdcHLExec(bus, AdcHLRr, CodeAt(s, PlainHL, 0x4a + 16 * p, s.pc + 2), s.core);
    PairLaws(s.core.regs, PlainHL, p, 0);
  }

  lemma SubtractPairCarry<D>(bus: Bus<D>, s: State<D>, p: nat)
    requires p < 4 && EdAt(s.core.mem, s.pc, 0x42 + 16 * p)
    ensures var t, m := Step(bus, s), s.core;
      var (w, f) := SbcHl(m.regs.hl, NamedPair(m.regs, PlainHL, p), m.regs.f);
      && t.Tick? && t.s.pc == Word(s.pc + 2) && t.cost == 15
      && t.s.core == m.(regs := m.regs.(hl := w, f := f))
  {
    hide EdAt, Step, Exec, Read, EdInstr, P, Word, Get16, NamedPair, SbcHl;
    EdCodes(p);
    EdStepAt(bus, s, 0x42 + 16 * p);
    SbcHLExec(bus, SbcHLRr, CodeAt(s, PlainHL, 0x42 + 16 * p, s.pc + 2), s.core);
    PairLaws(s.core.regs, PlainHL, p, 0);
  }
}
