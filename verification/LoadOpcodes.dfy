/** Loads and exchanges, from the opcode bytes to the registers and memory afterwards. */
module LoadOpcodes {
  import opened Words
  import opened BankedMemory
  import opened Alu
  import opened Instructions
  import opened Machine
  import opened Opcodes

  /** The registers as opcodes number them: B C D E H L, none, A; H and L those of IX or IY behind a
      prefix. */
  function Named(r: Registers, mode: Index, i: nat): byte
    requires i < 8
  {
    var hl := match mode case PlainHL => r.hl case UseIX => r.ix case UseIY => r.iy;
    [Hi(r.bc), Lo(r.bc), Hi(r.de), Lo(r.de), Hi(hl), Lo(hl), 0, r.a][i]
  }

  /** Nothing but the numbered registers differs. */
  predicate OnlyNamed(r: Registers, s: Registers, mode: Index) {
    match mode
    case PlainHL => s == r.(a := s.a, bc := s.bc, de := s.de, hl := s.hl)
    case UseIX => s == r.(a := s.a, bc := s.bc, de := s.de, ix := s.ix)
    case UseIY => s == r.(a := s.a, bc := s.bc, de := s.de, iy := s.iy)
  }

  /** Register `k` is `v`, all others are as they were. */
  predicate Loaded(r: Registers, s: Registers, mode: Index, k: nat, v: byte)
    requires k < 8
  {
    && OnlyNamed(r, s, mode)
    && forall i :: 0 <= i < 8 && i != 6 ==> Named(s, mode, i) == if i == k then v else Named(r, mode, i)
  }

  lemma GetNamed(r: Registers, mode: Index, k: nat)
    requires k < 8 && k != 6
    ensures Get8(r, mode, k) == Named(r, mode, k)
  {
    hide Hi, Lo;
  }

  lemma SetNamed(r: Registers, mode: Index, k: nat, v: byte)
    requires k < 8 && k != 6
    ensures Loaded(r, Set8(r, mode, k, v), mode, k, v)
  {
    hide Hi, Lo, Pair;
    PairParts(v, Lo(r.bc));
    PairParts(Hi(r.bc), v);
    PairParts(v, Lo(r.de));
    PairParts(Hi(r.de), v);
    PairParts(v, Lo(HlOf(r, mode)));
    PairParts(Hi(HlOf(r, mode)), v);
  }

  /** (HL), or (IX+d) and (IY+d) with a signed displacement. */
  function Pointed<D>(s: State<D>, mode: Index, at: int): int {
    hide Read;
    var r, d := s.core.regs, Signed(Read(s.core.mem, at));
    match mode case PlainHL => r.hl case UseIX => r.ix + d case UseIY => r.iy + d
  }

  lemma PointedAddress<D>(s: State<D>, mode: Index, op: byte, at: int)
    ensures Address(CodeAt(s, mode, op, at), s.core.regs) == Pointed(s, mode, at)
  {
    hide Read;
  }

  // The effects.

  lemma LdRRExec<D>(bus: Bus<D>, x: Instr, c: Code, m: Core<D>)
    requires x.LdRR?
    ensures var e := Exec(bus, x, c, m);
      e.core == Regs(m, Set8(m.regs, c.mode, Y(c.op), Get8(m.regs, c.mode, Z(c.op)))) && e.next == Rel(0) && e.cost == 0
  {
    hide ExecLoad16, ExecSingle, ExecRepeat, ExecAlu, ExecGeneral, ExecArith16, ExecRotate, ExecJump, ExecPort,
      Set8, Get8, Read, Write, Store, Regs, Address, Pair, Hi, Lo, NN, Szyx, Bit, Byte;
  }

  lemma LdRNExec<D>(bus: Bus<D>, x: Instr, c: Code, m: Core<D>)
    requires x.LdRN?
    ensures var e := Exec(bus, x, c, m);
      e.core == Regs(m, Set8(m.regs, c.mode, Y(c.op), c.n1)) && e.next == Rel(1) && e.cost == 3
  {
    hide ExecLoad16, ExecSingle, ExecRepeat, ExecAlu, ExecGeneral, ExecArith16, ExecRotate, ExecJump, ExecPort,
      Set8, Get8, Read, Write, Store, Regs, Address, Pair, Hi, Lo, NN, Szyx, Bit, Byte;
  }

  lemma LdRIndExec<D>(bus: Bus<D>, x: Instr, c: Code, m: Core<D>)
    requires x.LdRInd?
    ensures var e := Exec(bus, x, c, m);
      var idx := Displacement(c);
      && e.core == Regs(m, Set8(m.regs, PlainHL, Y(c.op), Read(m.mem, Address(c, m.regs))))
      && e.next == Rel(idx) && e.cost == 3 + 8 * idx
  {
    hide ExecLoad16, ExecSingle, ExecRepeat, ExecAlu, ExecGeneral, ExecArith16, ExecRotate, ExecJump, ExecPort,
      Set8, Get8, Read, Write, Store, Regs, Address, Pair, Hi, Lo, NN, Szyx, Bit, Byte;
  }

  lemma LdIndRExec<D>(bus: Bus<D>, x: Instr, c: Code, m: Core<D>)
    requires x.LdIndR?
    ensures var e := Exec(bus, x, c, m);
      var idx := Displacement(c);
      && e.core == Store(m, Address(c, m.regs), Get8(m.regs, PlainHL, Z(c.op)))
      && e.next == Rel(idx) && e.cost == 3 + 8 * idx
  {
    hide ExecLoad16, ExecSingle, ExecRepeat, ExecAlu, ExecGeneral, ExecArith16, ExecRotate, ExecJump, ExecPort,
      Set8, Get8, Read, Write, Store, Regs, Address, Pair, Hi, Lo, NN, Szyx, Bit, Byte;
  }

  lemma LdIndNExec<D>(bus: Bus<D>, x: Instr, c: Code, m: Core<D>)
    requires x.LdIndN?
    ensures var e := Exec(bus, x, c, m);
      if c.mode.PlainHL? then e.core == Store(m, m.regs.hl, c.n1) && e.next == Rel(1) && e.cost == 6
      else e.core == Store(m, Address(c, m.regs), c.n2) && e.next == Rel(2) && e.cost == 11
  {
    hide ExecLoad16, ExecSingle, ExecRepeat, ExecAlu, ExecGeneral, ExecArith16, ExecRotate, ExecJump, ExecPort,
      Set8, Get8, Read, Write, Store, Regs, Address, Pair, Hi, Lo, NN, Szyx, Bit, Byte;
  }

  lemma LoadAExec<D>(bus: Bus<D>, x: Instr, c: Code, m: Core<D>)
    requires x.LdAIndBC? || x.LdAIndDE? || x.LdAIndNN?
    ensures var e, wide := Exec(bus, x, c, m), x.LdAIndNN?;
      var a: int := if wide then NN(c) else if x.LdAIndBC? then m.regs.bc else m.regs.de;
      && e.core == Regs(m, m.regs.(a := Read(m.mem, a)))
      && e.next == Rel(if wide then 2 else 0) && e.cost == if wide then 9 else 3
  {
    hide ExecLoad16, ExecSingle, ExecRepeat, ExecAlu, ExecGeneral, ExecArith16, ExecRotate, ExecJump, ExecPort,
      Set8, Get8, Read, Write, Store, Regs, Address, Pair, Hi, Lo, NN, Szyx, Bit, Byte;
  }

  lemma StoreAExec<D>(bus: Bus<D>, x: Instr, c: Code, m: Core<D>)
    requires x.LdIndBCA? || x.LdIndDEA? || x.LdIndNNA?
    ensures var e, wide := Exec(bus, x, c, m), x.LdIndNNA?;
      var a: int := if wide then NN(c) else if x.LdIndBCA? then m.regs.bc else m.regs.de;
      && e.core == Store(m, a, m.regs.a)
      && e.next == Rel(if wide then 2 else 0) && e.cost == if wide then 9 else 3
  {
    hide ExecLoad16, ExecSingle, ExecRepeat, ExecAlu, ExecGeneral, ExecArith16, ExecRotate, ExecJump, ExecPort,
      Set8, Get8, Read, Write, Store, Regs, Address, Pair, Hi, Lo, NN, Szyx, Bit, Byte;
  }

  // LD r,r' and the others, on opcode bytes.

  lemma LoadCodes(y: nat, z: nat)
    requires y < 8 && z < 8 && y != z
    ensures y != 6 && z != 6 ==> Main(0x40 + 8 * y + z) == LdRR
    ensures y != 6 && z == 6 ==> Main(0x40 + 8 * y + z) == LdRInd
    ensures y == 6 && z != 6 ==> Main(0x40 + 8 * y + z) == LdIndR
    ensures Y(0x40 + 8 * y + z) == y && Z(0x40 + 8 * y + z) == z
  {
    hide Y, Z, P;
    Parts(1, y, z);
  }

  /** LD r,r': the named register takes the value of the other; everything else is as it was. */
  lemma LoadRegister<D>(bus: Bus<D>, s: State<D>, mode: Index, y: nat, z: nat, at: int)
    requires y < 8 && z < 8 && y != z && y != 6 && z != 6
    requires OpAt(s.core.mem, s.pc, mode, 0x40 + 8 * y + z, at)
    ensures var t, m := Step(bus, s), s.core;
      && t.Tick? && t.s.pc == Word(at) && t.cost == 4 * (at - s.pc)
      && t.s.core == m.(regs := t.s.core.regs)
      && Loaded(m.regs, t.s.core.regs, mode, y, Named(m.regs, mode, z))
  {
    hide OpAt, Step, Exec, Read, Main, Y, Z, Word, Set8, Get8, Named, Loaded;
    var op := 0x40 + 8 * y + z;
    LoadCodes(y, z);
    StepAt(bus, s, mode, op, at);
    LdRRExec(bus, Main(op), CodeAt(s, mode, op, at), s.core);
    GetNamed(s.core.regs, mode, z);
    SetNamed(s.core.regs, mode, y, Get8(s.core.regs, mode, z));
  }

  /** LD r,n. */
  lemma LoadImmediate<D>(bus: Bus<D>, s: State<D>, mode: Index, y: nat, at: int)
    requires y < 8 && y != 6 && OpAt(s.core.mem, s.pc, mode, 0x06 + 8 * y, at)
    ensures var t, m := Step(bus, s), s.core;
      && t.Tick? && t.s.pc == Word(at + 1) && t.cost == 4 * (at - s.pc) + 3
      && t.s.core == m.(regs := t.s.core.regs)
      && Loaded(m.regs, t.s.core.regs, mode, y, Read(m.mem, at))
  {
    hide OpAt, Step, Exec, Read, Y, Z, P, Word, Set8, Named, Loaded;
    var op: byte := 0x06 + 8 * y;
    Parts(0, y, 6);
    StepAt(bus, s, mode, op, at);
    LdRNExec(bus, Main(op), CodeAt(s, mode, op, at), s.core);
    SetNamed(s.core.regs, mode, y, Read(s.core.mem, at));
  }

  /** LD r,(HL) and LD r,(IX+d): H and L are always the plain ones here. */
  lemma LoadPointed<D>(bus: Bus<D>, s: State<D>, mode: Index, y: nat, at: int)
    requires y < 8 && y != 6 && OpAt(s.core.mem, s.pc, mode, 0x46 + 8 * y, at)
    ensures var t, m, idx := Step(bus, s), s.core, if mode.PlainHL? then 0 else 1;
      && t.Tick? && t.s.pc == Word(at + idx) && t.cost == 4 * (at - s.pc) + 3 + 8 * idx
      && t.s.core == m.(regs := t.s.core.regs)
      && Loaded(m.regs, t.s.core.regs, PlainHL, y, Read(m.mem, Pointed(s, mode, at)))
  {
    hide OpAt, Step, Exec, Read, Main, Y, Z, Word, Set8, Named, Loaded, Address, Pointed;
    var op: byte := 0x46 + 8 * y;
    LoadCodes(y, 6);
    StepAt(bus, s, mode, op, at);
    LdRIndExec(bus, Main(op), CodeAt(s, mode, op, at), s.core);
    PointedAddress(s, mode, op, at);
    SetNamed(s.core.regs, PlainHL, y, Read(s.core.mem, Pointed(s, mode, at)));
  }

  /** LD (HL),r and LD (IX+d),r. */
  lemma StorePointed<D>(bus: Bus<D>, s: State<D>, mode: Index, z: nat, at: int)
    requires z < 8 && z != 6 && OpAt(s.core.mem, s.pc, mode, 0x70 + z, at)
    ensures var t, m, idx := Step(bus, s), s.core, if mode.PlainHL? then 0 else 1;
      && t.Tick? && t.s.pc == Word(at + idx) && t.cost == 4 * (at - s.pc) + 3 + 8 * idx
      && t.s.core == m.(mem := Write(m.mem, Pointed(s, mode, at), Named(m.regs, PlainHL, z)))
  {
    hide OpAt, Step, Exec, Read, Write, Main, Y, Z, Word, Get8, Named, Address, Pointed;
    var op: byte := 0x70 + z;
    LoadCodes(6, z);
    StepAt(bus, s, mode, op, at);
    LdIndRExec(bus, Main(op), CodeAt(s, mode, op, at), s.core);
    PointedAddress(s, mode, op, at);
    GetNamed(s.core.regs, PlainHL, z);
  }

  /** LD (HL),n, and LD (IX+d),n with the displacement before the byte. */
  lemma StoreImmediate<D>(bus: Bus<D>, s: State<D>, mode: Index, at: int)
    requires OpAt(s.core.mem, s.pc, mode, 0x36, at)
    ensures var t, m, idx := Step(bus, s), s.core, if mode.PlainHL? then 0 else 1;
      && t.Tick? && t.s.pc == Word(at + 1 + idx) && t.cost == 4 * (at - s.pc) + 6 + 5 * idx
      && t.s.core == m.(mem := Write(m.mem, Pointed(s, mode, at), Read(m.mem, at + idx)))
  {
    hide OpAt, Step, Exec, Read, Write, Word, Address, Signed;
    StepAt(bus, s, mode, 0x36, at);
    LdIndNExec(bus, Main(0x36), CodeAt(s, mode, 0x36, at), s.core);
    PointedAddress(s, mode, 0x36, at);
  }

  /** LD A,(BC), (DE), (nn). */
  lemma LoadA<D>(bus: Bus<D>, s: State<D>, mode: Index, op: byte, at: int)
    requires op in {0x0a, 0x1a, 0x3a} && OpAt(s.core.mem, s.pc, mode, op, at)
    ensures var t, m, wide := Step(bus, s), s.core, op == 0x3a;
      var a: int := if wide then ReadWord(m.mem, at) else if op == 0x0a then m.regs.bc else m.regs.de;
      && t.Tick? && t.s.pc == Word(at + if wide then 2 else 0) && t.cost == 4 * (at - s.pc) + (if wide then 9 else 3)
      && t.s.core == m.(regs := m.regs.(a := Read(m.mem, a)))
  {
    hide OpAt, Step, Exec, Read, Word, Pair;
    StepAt(bus, s, mode, op, at);
    LoadAExec(bus, Main(op), CodeAt(s, mode, op, at), s.core);
  }

  /** LD (BC), (DE), (nn),A. */
  lemma StoreA<D>(bus: Bus<D>, s: State<D>, mode: Index, op: byte, at: int)
    requires op in {0x02, 0x12, 0x32} && OpAt(s.core.mem, s.pc, mode, op, at)
    ensures var t, m, wide := Step(bus, s), s.core, op == 0x32;
      var a: int := if wide then ReadWord(m.mem, at) else if op == 0x02 then m.regs.bc else m.regs.de;
      && t.Tick? && t.s.pc == Word(at + if wide then 2 else 0) && t.cost == 4 * (at - s.pc) + (if wide then 9 else 3)
      && t.s.core == m.(mem := Write(m.mem, a, m.regs.a))
  {
    hide OpAt, Step, Exec, Read, Write, Word, Pair;
    StepAt(bus, s, mode, op, at);
    StoreAExec(bus, Main(op), CodeAt(s, mode, op, at), s.core);
  }

  // Sixteen bits.

  /** BC, DE, HL (or IX, IY) and SP, as opcodes number them. */
  function NamedPair(r: Registers, mode: Index, p: nat): word
    requires p < 4
  {
    [r.bc, r.de, match mode case PlainHL => r.hl case UseIX => r.ix case UseIY => r.iy, r.sp][p]
  }

  /** Pair `p` is `w`, everything else is as it was. */
  predicate PairLoaded(r: Registers, s: Registers, mode: Index, p: nat, w: word)
    requires p < 4
  {
    match p
    case 0 => s == r.(bc := w)
    case 1 => s == r.(de := w)
    case 2 => s == (match mode case PlainHL => r.(hl := w) case UseIX => r.(ix := w) case UseIY => r.(iy := w))
    case _ => s == r.(sp := w)
  }

  lemma PairLaws(r: Registers, mode: Index, p: nat, w: word)
    requires p < 4
    ensures Get16(r, mode, p) == NamedPair(r, mode, p) && PairLoaded(r, Set16(r, mode, p, w), mode, p, w)
    ensures HlOf(r, mode) == NamedPair(r, mode, 2) && PairLoaded(r, SetHl(r, mode, w), mode, 2, w)
  {
  }

  lemma PairParts3(p: nat)
    requires p < 4
    ensures P(0x01 + 16 * p) == p && Main(0x01 + 16 * p) == LdRrNN
    ensures P(0x03 + 16 * p) == p && Main(0x03 + 16 * p) == IncRr
    ensures P(0x0b + 16 * p) == p && Main(0x0b + 16 * p) == DecRr
    ensures P(0x09 + 16 * p) == p && Main(0x09 + 16 * p) == AddHLRr
  {
    hide Y, Z, P;
    Parts(0, 2 * p, 1);
    Parts(0, 2 * p, 3);
    Parts(0, 2 * p + 1, 3);
    Parts(0, 2 * p + 1, 1);
  }

  lemma LdRrNNExec<D>(bus: Bus<D>, x: Instr, c: Code, m: Core<D>)
    requires x.LdRrNN?
    ensures var e := Exec(bus, x, c, m);
      e.core == Regs(m, Set16(m.regs, c.mode, P(c.op), NN(c))) && e.next == Rel(2) && e.cost == 6
  {
    hide ExecLoad8, ExecSingle, ExecRepeat, ExecAlu, ExecGeneral, ExecArith16, ExecRotate, ExecJump, ExecPort,
      Set16, SetHl, SetSs, GetSs, Get16, Read, Write, ReadWord, WriteWord, StoreWord, Regs, Push, Pop,
      Popped, NN, HlOf, Pair, Hi, Lo, Word;
  }

  lemma LdHLIndNNExec<D>(bus: Bus<D>, x: Instr, c: Code, m: Core<D>)
    requires x.LdHLIndNN?
    ensures var e := Exec(bus, x, c, m);
      e.core == Regs(m, SetHl(m.regs, c.mode, ReadWord(m.mem, NN(c)))) && e.next == Rel(2) && e.cost == 12
  {
    hide ExecLoad8, ExecSingle, ExecRepeat, ExecAlu, ExecGeneral, ExecArith16, ExecRotate, ExecJump, ExecPort,
      Set16, SetHl, SetSs, GetSs, Get16, Read, Write, ReadWord, WriteWord, StoreWord, Regs, Push, Pop,
      Popped, NN, HlOf, Pair, Hi, Lo, Word;
  }

  lemma LdIndNNHLExec<D>(bus: Bus<D>, x: Instr, c: Code, m: Core<D>)
    requires x.LdIndNNHL?
    ensures var e := Exec(bus, x, c, m);
      e.core == StoreWord(m, NN(c), HlOf(m.regs, c.mode)) && e.next == Rel(2) && e.cost == 12
  {
    hide ExecLoad8, ExecSingle, ExecRepeat, ExecAlu, ExecGeneral, ExecArith16, ExecRotate, ExecJump, ExecPort,
      Set16, SetHl, SetSs, GetSs, Get16, Read, Write, ReadWord, WriteWord, StoreWord, Regs, Push, Pop,
      Popped, NN, HlOf, Pair, Hi, Lo, Word;
  }

  lemma LdSPHLExec<D>(bus: Bus<D>, x: Instr, c: Code, m: Core<D>)
    requires x.LdSPHL?
    ensures var e := Exec(bus, x, c, m);
      e.core == Regs(m, m.regs.(sp := HlOf(m.regs, c.mode))) && e.next == Rel(0) && e.cost == 2
  {
    hide ExecLoad8, ExecSingle, ExecRepeat, ExecAlu, ExecGeneral, ExecArith16, ExecRotate, ExecJump, ExecPort,
      Set16, SetHl, SetSs, GetSs, Get16, Read, Write, ReadWord, WriteWord, StoreWord, Regs, Push, Pop,
      Popped, NN, HlOf, Pair, Hi, Lo, Word;
  }

  lemma ExDEHLExec<D>(bus: Bus<D>, x: Instr, c: Code, m: Core<D>)
    requires x.ExDEHL?
    ensures var e := Exec(bus, x, c, m);
      e.core == Regs(m, m.regs.(de := m.regs.hl, hl := m.regs.de)) && e.next == Rel(0) && e.cost == 0
  {
    hide ExecLoad8, ExecSingle, ExecRepeat, ExecAlu, ExecGeneral, ExecArith16, ExecRotate, ExecJump, ExecPort,
      Set16, SetHl, SetSs, GetSs, Get16, Read, Write, ReadWord, WriteWord, StoreWord, Regs, Push, Pop,
      Popped, NN, HlOf, Pair, Hi, Lo, Word;
  }

  lemma ExAFExec<D>(bus: Bus<D>, x: Instr, c: Code, m: Core<D>)
    requires x.ExAF?
    ensures var e := Exec(bus, x, c, m);
      var r := m.regs;
      && e.core == Regs(m, r.(a := r.altA, f := r.altF, altA := r.a, altF := r.f))
      && e.next == Rel(0) && e.cost == 0
  {
    hide ExecLoad8, ExecSingle, ExecRepeat, ExecAlu, ExecGeneral, ExecArith16, ExecRotate, ExecJump, ExecPort,
      Set16, SetHl, SetSs, GetSs, Get16, Read, Write, ReadWord, WriteWord, StoreWord, Regs, Push, Pop,
      Popped, NN, HlOf, Pair, Hi, Lo, Word;
  }

  lemma ExxExec<D>(bus: Bus<D>, x: Instr, c: Code, m: Core<D>)
    requires x.Exx?
    ensures var e := Exec(bus, x, c, m);
      var r := m.regs;
      && e.core == Regs(m, r.(bc := r.altBc, de := r.altDe, hl := r.altHl,
                              altBc := r.bc, altDe := r.de, altHl := r.hl))
      && e.next == Rel(0) && e.cost == 0
  {
    hide ExecLoad8, ExecSingle, ExecRepeat, ExecAlu, ExecGeneral, ExecArith16, ExecRotate, ExecJump, ExecPort,
      Set16, SetHl, SetSs, GetSs, Get16, Read, Write, ReadWord, WriteWord, StoreWord, Regs, Push, Pop,
      Popped, NN, HlOf, Pair, Hi, Lo, Word;
  }

  lemma ExSPHLExec<D>(bus: Bus<D>, x: Instr, c: Code, m: Core<D>)
    requires x.ExIndSPHL?
    ensures var e := Exec(bus, x, c, m);
      var r := m.regs;
      && e.core == Core(SetHl(r, c.mode, ReadWord(m.mem, r.sp)), WriteWord(m.mem, r.sp, HlOf(r, c.mode)), m.dev)
      && e.next == Rel(0) && e.cost == 15
  {
    hide ExecLoad8, ExecSingle, ExecRepeat, ExecAlu, ExecGeneral, ExecArith16, ExecRotate, ExecJump, ExecPort,
      Set16, SetHl, SetSs, GetSs, Get16, Read, Write, ReadWord, WriteWord, StoreWord, Regs, Push, Pop,
      Popped, NN, HlOf, Pair, Hi, Lo, Word;
  }

  /** LD rr,nn. */
  lemma LoadPair<D>(bus: Bus<D>, s: State<D>, mode: Index, p: nat, at: int)
    requires p < 4 && OpAt(s.core.mem, s.pc, mode, 0x01 + 16 * p, at)
    ensures var t, m := Step(bus, s), s.core;
      && t.Tick? && t.s.pc == Word(at + 2) && t.cost == 4 * (at - s.pc) + 6
      && t.s.core == m.(regs := t.s.core.regs)
      && PairLoaded(m.regs, t.s.core.regs, mode, p, ReadWord(m.mem, at))
  {
    hide OpAt, Step, Exec, Read, Word, Main, P, Pair, Set16, PairLoaded;
    PairParts3(p);
    StepAt(bus, s, mode, 0x01 + 16 * p, at);
    LdRrNNExec(bus, LdRrNN, CodeAt(s, mode, 0x01 + 16 * p, at), s.core);
    PairLaws(s.core.regs, mode, p, ReadWord(s.core.mem, at));
  }

  /** LD HL,(nn). */
  lemma LoadHLDirect<D>(bus: Bus<D>, s: State<D>, mode: Index, at: int)
    requires OpAt(s.core.mem, s.pc, mode, 0x2a, at)
    ensures var t, m := Step(bus, s), s.core;
      && t.Tick? && t.s.pc == Word(at + 2) && t.cost == 4 * (at - s.pc) + 12
      && t.s.core == m.(regs := t.s.core.regs)
      && PairLoaded(m.regs, t.s.core.regs, mode, 2, ReadWord(m.mem, ReadWord(m.mem, at)))
  {
    hide OpAt, Step, Exec, Read, Word, Pair, SetHl, PairLoaded;
    StepAt(bus, s, mode, 0x2a, at);
    LdHLIndNNExec(bus, Main(0x2a), CodeAt(s, mode, 0x2a, at), s.core);
    PairLaws(s.core.regs, mode, 2, ReadWord(s.core.mem, ReadWord(s.core.mem, at)));
  }

  /** LD (nn),HL. */
  lemma StoreHLDirect<D>(bus: Bus<D>, s: State<D>, mode: Index, at: int)
    requires OpAt(s.core.mem, s.pc, mode, 0x22, at)
    ensures var t, m := Step(bus, s), s.core;
      && t.Tick? && t.s.pc == Word(at + 2) && t.cost == 4 * (at - s.pc) + 12
      && t.s.core == m.(mem := WriteWord(m.mem, ReadWord(m.mem, at), NamedPair(m.regs, mode, 2)))
  {
    hide OpAt, Step, Exec, Read, Word, Pair, WriteWord, HlOf, NamedPair;
    StepAt(bus, s, mode, 0x22, at);
    LdIndNNHLExec(bus, Main(0x22), CodeAt(s, mode, 0x22, at), s.core);
    PairLaws(s.core.regs, mode, 2, 0);
  }

  /** LD SP,HL. */
  lemma LoadSP<D>(bus: Bus<D>, s: State<D>, mode: Index, at: int)
    requires OpAt(s.core.mem, s.pc, mode, 0xf9, at)
    ensures var t, m := Step(bus, s), s.core;
      && t.Tick? && t.s.pc == Word(at) && t.cost == 4 * (at - s.pc) + 2
      && t.s.core == m.(regs := m.regs.(sp := NamedPair(m.regs, mode, 2)))
  {
    hide OpAt, Step, Exec, Read, Word, HlOf, NamedPair;
    StepAt(bus, s, mode, 0xf9, at);
    LdSPHLExec(bus, Main(0xf9), CodeAt(s, mode, 0xf9, at), s.core);
    PairLaws(s.core.regs, mode, 2, 0);
  }

  /** EX DE,HL, which no prefix changes. */
  lemma ExchangePairs<D>(bus: Bus<D>, s: State<D>, mode: Index, at: int)
    requires OpAt(s.core.mem, s.pc, mode, 0xeb, at)
    ensures var t, m := Step(bus, s), s.core;
      && t.Tick? && t.s.pc == Word(at) && t.cost == 4 * (at - s.pc)
      && t.s.core == m.(regs := m.regs.(de := m.regs.hl, hl := m.regs.de))
  {
    hide OpAt, Step, Exec, Read, Word, Pair;
    StepAt(bus, s, mode, 0xeb, at);
    ExDEHLExec(bus, Main(0xeb), CodeAt(s, mode, 0xeb, at), s.core);
  }

  /** EX AF,AF'. */
  lemma ExchangeAF<D>(bus: Bus<D>, s: State<D>, mode: Index, at: int)
    requires OpAt(s.core.mem, s.pc, mode, 0x08, at)
    ensures var t, m := Step(bus, s), s.core;
      var r := m.regs;
      && t.Tick? && t.s.pc == Word(at) && t.cost == 4 * (at - s.pc)
      && t.s.core == m.(regs := r.(a := r.altA, f := r.altF, altA := r.a, altF := r.f))
  {
    hide OpAt, Step, Exec, Read, Word, Pair;
    StepAt(bus, s, mode, 0x08, at);
    ExAFExec(bus, Main(0x08), CodeAt(s, mode, 0x08, at), s.core);
  }

  /** EXX. */
  lemma ExchangeAll<D>(bus: Bus<D>, s: State<D>, mode: Index, at: int)
    requires OpAt(s.core.mem, s.pc, mode, 0xd9, at)
    ensures var t, m := Step(bus, s), s.core;
      var r := m.regs;
      && t.Tick? && t.s.pc == Word(at) && t.cost == 4 * (at - s.pc)
      && t.s.core == m.(regs := r.(bc := r.altBc, de := r.altDe, hl := r.altHl,
                                   altBc := r.bc, altDe := r.de, altHl := r.hl))
  {
    hide OpAt, Step, Exec, Read, Word, Pair;
    StepAt(bus, s, mode, 0xd9, at);
    ExxExec(bus, Main(0xd9), CodeAt(s, mode, 0xd9, at), s.core);
  }

  /** EX (SP),HL. */
  lemma ExchangeTop<D>(bus: Bus<D>, s: State<D>, mode: Index, at: int)
    requires OpAt(s.core.mem, s.pc, mode, 0xe3, at)
    ensures var t, m := Step(bus, s), s.core;
      var r := m.regs;
      && t.Tick? && t.s.pc == Word(at) && t.cost == 4 * (at - s.pc) + 15
      && t.s.core.mem == WriteWord(m.mem, r.sp, NamedPair(r, mode, 2)) && t.s.core.dev == m.dev
      && PairLoaded(r, t.s.core.regs, mode, 2, ReadWord(m.mem, r.sp))
  {
    hide OpAt, Step, Exec, Read, Word, ReadWord, WriteWord, SetHl, HlOf, NamedPair, PairLoaded;
    StepAt(bus, s, mode, 0xe3, at);
    ExSPHLExec(bus, Main(0xe3), CodeAt(s, mode, 0xe3, at), s.core);
    PairLaws(s.core.regs, mode, 2, ReadWord(s.core.mem, s.core.regs.sp));
  }
}
