/** The instruction set: how opcodes decode, and what one instruction does to registers, memory and
    devices. Repeating instructions do one iteration here; see `Machine`. */
module Instructions {
  import opened Words
  import opened BankedMemory
  import opened Alu

  /** What HL stands for: HL itself, or IX or IY after a DD or FD prefix. */
  datatype Index = PlainHL | UseIX | UseIY

  datatype Registers = Registers(
    a: byte, f: Flags, bc: word, de: word, hl: word, ix: word, iy: word, sp: word,
    altA: byte, altF: Flags, altBc: word, altDe: word, altHl: word,
    i: byte, r7: bool, iff1: bool, iff2: bool, im: Mode)

  datatype Mode = Im0 | Im1 | Im2

  /** The devices behind the I/O ports. */
  datatype Bus<!D> = Bus(input: (D, byte) -> (D, byte), output: (D, byte, byte) -> D)

  datatype Core<D> = Core(regs: Registers, mem: Memory, dev: D)

  datatype Block = Load | Compare | Input | Output

  datatype Instr =
    // 8-bit loads
    | LdRR | LdRN | LdRInd | LdIndR | LdIndN | LdAIndBC | LdAIndDE | LdAIndNN
    | LdIndBCA | LdIndDEA | LdIndNNA | LdAI | LdAR | LdIA | LdRA
    // 16-bit loads
    | LdRrNN | LdHLIndNN | LdRrIndNN | LdIndNNHL | LdIndNNRr | LdSPHL | PushSs | PopSs
    // exchanges and the block group; `up` tells LDI from LDD
    | ExDEHL | ExAF | Exx | ExIndSPHL | Single(block: Block, up: bool) | Repeat(block: Block, up: bool)
    // 8-bit arithmetic
    | AluR | AluN | AluInd | IncR | IncInd | DecR | DecInd
    // general purpose
    | DaaA | Cpl | Neg | Ccf | Scf | Nop | HaltOp | Di | Ei | ImN
    // 16-bit arithmetic
    | AddHLRr | AdcHLRr | SbcHLRr | IncRr | DecRr
    // rotates and bits
    | Rlca | Rla | Rrca | Rra | RotR | RotInd | Rld | Rrd
    | BitR | BitInd | SetR | SetInd | ResR | ResInd
    // jumps and calls
    | JpNN | JpCC | Jr | JrCC | JpHL | Djnz | Call | CallCC | Ret | RetCC | RetN | Rst
    // ports
    | InAN | InRC | OutNA | OutCR
    | EdUndefined

  function Y(op: byte): (r: nat) ensures r < 8 { op / 8 % 8 }

  function Z(op: byte): (r: nat) ensures r < 8 { op % 8 }

  function P(op: byte): (r: nat) ensures r < 4 { op / 16 % 4 }

  predicate IsPrefix(op: byte) { op == 0xdd || op == 0xfd }

  /** Unprefixed opcodes, apart from the four prefix bytes. */
  function Main(op: byte): Instr
    requires !IsPrefix(op) && op != 0xcb && op != 0xed
  {
    var y, z := Y(op), Z(op);
    if op < 0x40 then
      match z
      case 0 => if y == 0 then Nop else if y == 1 then ExAF else if y == 2 then Djnz
                else if y == 3 then Jr else JrCC
      case 1 => if y % 2 == 0 then LdRrNN else AddHLRr
      case 2 => [LdIndBCA, LdAIndBC, LdIndDEA, LdAIndDE, LdIndNNHL, LdHLIndNN, LdIndNNA, LdAIndNN][y]
      case 3 => if y % 2 == 0 then IncRr else DecRr
      case 4 => if y == 6 then IncInd else IncR
      case 5 => if y == 6 then DecInd else DecR
      case 6 => if y == 6 then LdIndN else LdRN
      case _ => [Rlca, Rrca, Rla, Rra, DaaA, Cpl, Scf, Ccf][y]
    else if op < 0x80 then
      if op == 0x76 then HaltOp else if y == z then Nop
      else if z == 6 then LdRInd else if y == 6 then LdIndR else LdRR
    else if op < 0xc0 then
      if z == 6 then AluInd else AluR
    else
      match z
      case 0 => RetCC
      case 1 => if y % 2 == 0 then PopSs else if y == 1 then Ret else if y == 3 then Exx
                else if y == 5 then JpHL else LdSPHL
      case 2 => JpCC
      case 3 => if y == 0 then JpNN else if y == 2 then OutNA else if y == 3 then InAN
                else if y == 4 then ExIndSPHL else if y == 5 then ExDEHL else if y == 6 then Di else Ei
      case 4 => CallCC
      case 5 => if y == 1 then Call else PushSs
      case 6 => AluN
      case _ => Rst
  }

  /** Opcodes after CB. */
  function CbInstr(op: byte): Instr {
    var ind := Z(op) == 6;
    if op < 0x40 then if ind then RotInd else RotR
    else if op < 0x80 then if ind then BitInd else BitR
    else if op < 0xc0 then if ind then ResInd else ResR
    else if ind then SetInd else SetR
  }

  /** Opcodes after ED. */
  function EdInstr(op: byte): Instr {
    var y, z := Y(op), Z(op);
    if 0x40 <= op < 0x80 then
      match z
      case 0 => InRC
      case 1 => OutCR
      case 2 => if y % 2 == 0 then SbcHLRr else AdcHLRr
      case 3 => if y % 2 == 0 then LdIndNNRr else LdRrIndNN
      case 4 => Neg
      case 5 => RetN
      case 6 => ImN
      case _ => [LdIA, LdRA, LdAI, LdAR, Rrd, Rld, EdUndefined, EdUndefined][y]
    else if 0xa0 <= op < 0xc0 && z < 4 then
      var block := [Load, Compare, Input, Output][z];
      if op < 0xb0 then Single(block, y % 2 == 0) else Repeat(block, y % 2 == 0)
    else EdUndefined
  }

  function HlOf(r: Registers, mode: Index): word {
    match mode case PlainHL => r.hl case UseIX => r.ix case UseIY => r.iy
  }

  function SetHl(r: Registers, mode: Index, w: word): (s: Registers)
    ensures s.r7 == r.r7
  {
    match mode case PlainHL => r.(hl := w) case UseIX => r.(ix := w) case UseIY => r.(iy := w)
  }

  function B(r: Registers): byte { Hi(r.bc) }

  function C(r: Registers): byte { Lo(r.bc) }

  function SetB(r: Registers, v: byte): (s: Registers)
    ensures s.r7 == r.r7
  {
    r.(bc := Pair(v, Lo(r.bc)))
  }

  /** The eight-bit register with encoding `k`; encoding 6 is memory and does not reach here. */
  function Get8(r: Registers, mode: Index, k: nat): byte {
    match k
    case 0 => Hi(r.bc) case 1 => Lo(r.bc) case 2 => Hi(r.de) case 3 => Lo(r.de)
    case 4 => Hi(HlOf(r, mode)) case 5 => Lo(HlOf(r, mode)) case _ => r.a
  }

  function Set8(r: Registers, mode: Index, k: nat, v: byte): (s: Registers)
    ensures s.r7 == r.r7
  {
    match k
    case 0 => r.(bc := Pair(v, Lo(r.bc)))
    case 1 => r.(bc := Pair(Hi(r.bc), v))
    case 2 => r.(de := Pair(v, Lo(r.de)))
    case 3 => r.(de := Pair(Hi(r.de), v))
    case 4 => SetHl(r, mode, Pair(v, Lo(HlOf(r, mode))))
    case 5 => SetHl(r, mode, Pair(Hi(HlOf(r, mode)), v))
    case _ => r.(a := v)
  }

  /** BC, DE, HL (or IX, IY) and SP. */
  function Get16(r: Registers, mode: Index, k: nat): word {
    match k case 0 => r.bc case 1 => r.de case 2 => HlOf(r, mode) case _ => r.sp
  }

  function Set16(r: Registers, mode: Index, k: nat, w: word): (s: Registers)
    ensures s.r7 == r.r7
  {
    match k case 0 => r.(bc := w) case 1 => r.(de := w) case 2 => SetHl(r, mode, w) case _ => r.(sp := w)
  }

  /** BC, DE, HL (or IX, IY) and AF, for PUSH and POP. */
  function GetSs(r: Registers, mode: Index, k: nat): word {
    if k == 3 then Pair(r.a, FlagsByte(r.f)) else Get16(r, mode, k)
  }

  function SetSs(r: Registers, mode: Index, k: nat, w: word): (s: Registers)
    ensures s.r7 == r.r7
  {
    if k == 3 then r.(a := Hi(w), f := ByteFlags(Lo(w))) else Set16(r, mode, k, w)
  }

  /** The condition codes NZ, Z, NC, C, PO, PE, P, M. */
  predicate Condition(f: Flags, cc: nat)
    requires cc < 8
  {
    var flag := [f.z, f.c, f.pv, f.s][cc / 2];
    if cc % 2 == 0 then !flag else flag
  }

  /** Where the program goes on: relative to the byte after the opcode, or at an address. */
  datatype Next = Rel(k: int) | Abs(w: word)

  /** DI and EI lengthen the budget by four cycles; HALT uses it up and stops. */
  datatype Signal = Plain | Lengthen | Halted

  datatype Effect<D> = Effect(core: Core<D>, next: Next, newR: Option<byte>, cost: nat, signal: Signal)

  datatype Option<T> = None | Some(value: T)

  /** The operand bytes after the opcode, the address they start at, and R's low seven bits. */
  datatype Code = Code(op: byte, mode: Index, n1: byte, n2: byte, here: word, r: byte)

  function NN(c: Code): word { Pair(c.n2, c.n1) }

  /** (HL), or (IX+d) with d the byte after the opcode. */
  function Address(c: Code, r: Registers): int {
    if c.mode.PlainHL? then r.hl else HlOf(r, c.mode) + Signed(c.n1)
  }

  /** One for the displacement byte of an indexed operand. */
  function Displacement(c: Code): nat { if c.mode.PlainHL? then 0 else 1 }

  function Go<D>(m: Core<D>, k: int, cost: nat): (e: Effect<D>)
    ensures e.core == m && e.signal.Plain?
  {
    Effect(m, Rel(k), None, cost, Plain)
  }

  function Jump<D>(m: Core<D>, w: word, cost: nat): (e: Effect<D>)
    ensures e.core == m && e.signal.Plain?
  {
    Effect(m, Abs(w), None, cost, Plain)
  }

  function Regs<D>(m: Core<D>, r: Registers): (n: Core<D>)
    ensures n.mem == m.mem && n.regs == r
  {
    m.(regs := r)
  }

  function Store<D>(m: Core<D>, a: int, v: byte): (n: Core<D>)
    ensures Prom(n.mem) == Prom(m.mem) && n.mem.slots == m.mem.slots && n.regs == m.regs
  {
    m.(mem := Write(m.mem, a, v))
  }

  function StoreWord<D>(m: Core<D>, a: int, v: word): (n: Core<D>)
    ensures Prom(n.mem) == Prom(m.mem) && n.mem.slots == m.mem.slots && n.regs == m.regs
  {
    m.(mem := WriteWord(m.mem, a, v))
  }

  function Push<D>(m: Core<D>, w: word): (n: Core<D>)
    ensures Prom(n.mem) == Prom(m.mem) && n.mem.slots == m.mem.slots && n.regs.r7 == m.regs.r7
  {
    var sp := Word(m.regs.sp - 2);
    Core(m.regs.(sp := sp), WriteWord(m.mem, sp, w), m.dev)
  }

  function Popped<D>(m: Core<D>): word { ReadWord(m.mem, m.regs.sp) }

  function Pop<D>(m: Core<D>): (n: Core<D>)
    ensures n.mem == m.mem && n.regs.r7 == m.regs.r7
  {
    m.(regs := m.regs.(sp := Word(m.regs.sp + 2)))
  }

  function In<D>(bus: Bus<D>, m: Core<D>, port: byte): (r: (Core<D>, byte))
    ensures r.0.mem == m.mem && r.0.regs == m.regs
  {
    var (dev, v) := bus.input(m.dev, port);
    (m.(dev := dev), v)
  }

  /** Every write reaches the devices; writes to A0h-AFh also remap a memory slot. */
  function Out<D>(bus: Bus<D>, m: Core<D>, port: byte, v: byte): (n: Core<D>)
    ensures Prom(n.mem) == Prom(m.mem) && n.regs == m.regs
  {
    Core(m.regs, MapPort(m.mem, port, v), bus.output(m.dev, port, v))
  }

  function ExecLoad8<D>(x: Instr, c: Code, m: Core<D>): Effect<D> {
    var r, y, z := m.regs, Y(c.op), Z(c.op);
    var idx := Displacement(c);
    match x
    case LdRR => Go(Regs(m, Set8(r, c.mode, y, Get8(r, c.mode, z))), 0, 0)
    case LdRN => Go(Regs(m, Set8(r, c.mode, y, c.n1)), 1, 3)
    // With a prefix the register operand is the unsubstituted one.
    case LdRInd => Go(Regs(m, Set8(r, PlainHL, y, Read(m.mem, Address(c, r)))), idx, 3 + 8 * idx)
    case LdIndR => Go(Store(m, Address(c, r), Get8(r, PlainHL, z)), idx, 3 + 8 * idx)
    case LdIndN =>
      if c.mode.PlainHL? then Go(Store(m, r.hl, c.n1), 1, 6) else Go(Store(m, Address(c, r), c.n2), 2, 11)
    case LdAIndBC => Go(Regs(m, r.(a := Read(m.mem, r.bc))), 0, 3)
    case LdAIndDE => Go(Regs(m, r.(a := Read(m.mem, r.de))), 0, 3)
    case LdAIndNN => Go(Regs(m, r.(a := Read(m.mem, NN(c)))), 2, 9)
    case LdIndBCA => Go(Store(m, r.bc, r.a), 0, 3)
    case LdIndDEA => Go(Store(m, r.de, r.a), 0, 3)
    case LdIndNNA => Go(Store(m, NN(c), r.a), 2, 9)
    case LdAI => Go(Regs(m, r.(a := r.i, f := Szyx(r.i).(pv := r.iff2, c := r.f.c))), 0, 1)
    case LdAR =>
      var v := (if r.r7 then 128 else 0) + c.r % 128;
      Go(Regs(m, r.(a := v, f := Szyx(v).(pv := r.iff2, c := r.f.c))), 0, 1)
    case LdIA => Go(Regs(m, r.(i := r.a)), 0, 1)
    case _ => Effect(Regs(m, r.(r7 := r.a >= 128)), Rel(0), Some(r.a % 128), 1, Plain)
  }

  function ExecLoad16<D>(x: Instr, c: Code, m: Core<D>): Effect<D> {
    var r, p := m.regs, P(c.op);
    match x
    case LdRrNN => Go(Regs(m, Set16(r, c.mode, p, NN(c))), 2, 6)
    case LdHLIndNN => Go(Regs(m, SetHl(r, c.mode, ReadWord(m.mem, NN(c)))), 2, 12)
    case LdRrIndNN => Go(Regs(m, Set16(r, c.mode, p, ReadWord(m.mem, NN(c)))), 2, 12)
    case LdIndNNHL => Go(StoreWord(m, NN(c), HlOf(r, c.mode)), 2, 12)
    case LdIndNNRr => Go(StoreWord(m, NN(c), Get16(r, c.mode, p)), 2, 12)
    case LdSPHL => Go(Regs(m, r.(sp := HlOf(r, c.mode))), 0, 2)
    case PushSs => Go(Push(m, GetSs(r, c.mode, p)), 0, 7)
    case PopSs => Go(Regs(m, SetSs(Pop(m).regs, c.mode, p, Popped(m))), 0, 6)
    case ExDEHL => Go(Regs(m, r.(de := r.hl, hl := r.de)), 0, 0)
    case ExAF => Go(Regs(m, r.(a := r.altA, f := r.altF, altA := r.a, altF := r.f)), 0, 0)
    case Exx =>
      Go(Regs(m, r.(bc := r.altBc, de := r.altDe, hl := r.altHl,
                    altBc := r.bc, altDe := r.de, altHl := r.hl)), 0, 0)
    case _ =>
      var t := ReadWord(m.mem, r.sp);
      Go(Core(SetHl(r, c.mode, t), WriteWord(m.mem, r.sp, HlOf(r, c.mode)), m.dev), 0, 15)
  }

  function Step1(up: bool): int { if up then 1 else -1 }

  /** Flags of LDI and LDD: bit 1 and bit 3 of A + n are copied to bits 5 and 3. */
  function LoadFlags(f: Flags, a: byte, n: byte, more: bool): Flags {
    Flags(f.s, f.z, Bit(a + n, 2), false, Bit(a + n, 8), more, false, f.c)
  }

  /** Flags of CPI and CPD. */
  function SearchFlags(f: Flags, a: byte, n: byte, more: bool): Flags {
    var z := a - n;
    var h := XorBit(a, n, z, 16);
    var t := z - B2I(h);
    Flags(Bit(Byte(z), 128), Byte(z) == 0, Bit(t, 2), h, Bit(t, 8), more, true, f.c)
  }

  /** Flags of INI, IND, OUTI and OUTD: `b` is the decremented counter, `v` the byte moved and
      `t` the byte added to it. Bits 7 and 6 of `v` both land in F, as N and C. */
  function PortFlags(b: byte, v: byte, t: byte): Flags {
    var carry := v + t >= 256;
    Szyx(b).(n := Bit(v, 128), h := carry, c := Bit(v, 64) || carry,
             pv := EvenParity(Xor8((v + t) % 8, b)))
  }

  function ExecSingle<D>(bus: Bus<D>, block: Block, up: bool, m: Core<D>): Effect<D> {
    var r, d := m.regs, Step1(up);
    match block
    case Load =>
      var n := Read(m.mem, r.hl);
      var bc := Word(r.bc - 1);
      Go(Core(r.(bc := bc, de := Word(r.de + d), hl := Word(r.hl + d), f := LoadFlags(r.f, r.a, n, bc != 0)),
              Write(m.mem, r.de, n), m.dev), 0, 8)
    case Compare =>
      var n := Read(m.mem, r.hl);
      var bc := Word(r.bc - 1);
      Go(Regs(m, r.(bc := bc, hl := Word(r.hl + d), f := SearchFlags(r.f, r.a, n, bc != 0))), 0, 8)
    case Input =>
      var (m1, v) := In(bus, m, C(r));
      var b := Byte(B(r) - 1);
      Go(Core(SetB(r, b).(hl := Word(r.hl + d), f := PortFlags(b, v, Byte(C(r) + d))),
              Write(m1.mem, r.hl, v), m1.dev), 0, 8)
    case Output =>
      var v := Read(m.mem, r.hl);
      var b := Byte(B(r) - 1);
      var hl := Word(r.hl + d);
      Go(Regs(Out(bus, m, C(r), v), SetB(r, b).(hl := hl, f := PortFlags(b, v, Lo(hl)))), 0, 3)
  }

  /** After one iteration of a repeating instruction: is there another to do? */
  predicate Unfinished(block: Block, r: Registers) {
    match block
    case Load => r.bc != 0
    case Compare => r.bc != 0 && !r.f.z
    case Input | Output => B(r) != 0
  }

  /** One iteration: the single instruction, then back over the two opcode bytes if unfinished. */
  function ExecRepeat<D>(bus: Bus<D>, block: Block, up: bool, m: Core<D>): Effect<D> {
    var e := ExecSingle(bus, block, up, m);
    if Unfinished(block, e.core.regs) then Go(e.core, -2, 13) else Go(e.core, 0, 8)
  }

  function ExecAlu<D>(x: Instr, c: Code, m: Core<D>): Effect<D> {
    var r, y, z, idx := m.regs, Y(c.op), Z(c.op), Displacement(c);
    match x
    case AluR =>
      var (a, f) := Apply(AluOf(y), r.a, Get8(r, c.mode, z), r.f);
      Go(Regs(m, r.(a := a, f := f)), 0, 0)
    case AluN =>
      var (a, f) := Apply(AluOf(y), r.a, c.n1, r.f);
      Go(Regs(m, r.(a := a, f := f)), 1, 3)
    case AluInd =>
      var (a, f) := Apply(AluOf(y), r.a, Read(m.mem, Address(c, r)), r.f);
      Go(Regs(m, r.(a := a, f := f)), idx, 3 + 8 * idx)
    case IncR =>
      var (v, f) := Inc8(Get8(r, c.mode, y), r.f);
      Go(Regs(m, Set8(r, c.mode, y, v).(f := f)), 0, 0)
    case DecR =>
      var (v, f) := Dec8(Get8(r, c.mode, y), r.f);
      Go(Regs(m, Set8(r, c.mode, y, v).(f := f)), 0, 0)
    case IncInd =>
      var (v, f) := Inc8(Read(m.mem, Address(c, r)), r.f);
      Go(Regs(Store(m, Address(c, r), v), r.(f := f)), idx, 7 + 8 * idx)
    case _ =>
      var (v, f) := Dec8(Read(m.mem, Address(c, r)), r.f);
      Go(Regs(Store(m, Address(c, r), v), r.(f := f)), idx, 7 + 8 * idx)
  }

  function ExecGeneral<D>(x: Instr, c: Code, m: Core<D>): Effect<D> {
    var r := m.regs;
    var f := r.f;
    match x
    case DaaA =>
      var (a, g) := Daa(r.a, f);
      Go(Regs(m, r.(a := a, f := g)), 0, 0)
    case Cpl =>
      var a := 255 - r.a;
      Go(Regs(m, r.(a := a, f := f.(y := Bit(a, 32), h := true, x := Bit(a, 8), n := true))), 0, 0)
    case Neg =>
      var (a, g) := Negate(r.a);
      Go(Regs(m, r.(a := a, f := g)), 0, 0)
    case Ccf =>
      Go(Regs(m, r.(f := f.(y := Bit(r.a, 32), h := f.c, x := Bit(r.a, 8), n := false, c := !f.c))), 0, 0)
    case Scf =>
      Go(Regs(m, r.(f := f.(y := Bit(r.a, 32), h := false, x := Bit(r.a, 8), n := false, c := true))), 0, 0)
    case HaltOp => Effect(m, Rel(0), None, 0, Halted)
    case Di => Effect(Regs(m, r.(iff1 := false, iff2 := false)), Rel(0), None, 0, Lengthen)
    case Ei => Effect(Regs(m, r.(iff1 := true, iff2 := true)), Rel(0), None, 0, Lengthen)
    case ImN =>
      var y := Y(c.op) % 4;
      Go(Regs(m, r.(im := if y <= 1 then Im0 else if y == 2 then Im1 else Im2)), 0, 0)
    case _ => Go(m, 0, 0)
  }

  function ExecArith16<D>(x: Instr, c: Code, m: Core<D>): Effect<D> {
    var r, p := m.regs, P(c.op);
    var v := Get16(r, c.mode, p);
    match x
    case AddHLRr =>
      var (w, f) := AddHl(HlOf(r, c.mode), v, r.f);
      Go(Regs(m, SetHl(r, c.mode, w).(f := f)), 0, 7)
    case AdcHLRr =>
      var (w, f) := AdcHl(r.hl, v, r.f);
      Go(Regs(m, r.(hl := w, f := f)), 0, 7)
    case SbcHLRr =>
      var (w, f) := SbcHl(r.hl, v, r.f);
      Go(Regs(m, r.(hl := w, f := f)), 0, 7)
    case IncRr => Go(Regs(m, Set16(r, c.mode, p, Word(v + 1))), 0, 2)
    case _ => Go(Regs(m, Set16(r, c.mode, p, Word(v - 1))), 0, 2)
  }

  function AccumulatorFlags(f: Flags, a: byte, carry: bool): Flags {
    Flags(f.s, f.z, Bit(a, 32), false, Bit(a, 8), f.pv, false, carry)
  }

  /** CB-prefixed memory operands read their displacement without paying for it, and step over both
      the displacement and the opcode. A prefixed register form does not step at all. */
  function CbStep(c: Code): nat { if c.mode.PlainHL? then 0 else 2 }

  function Mask(y: nat): byte
    requires y < 8
  {
    [1, 2, 4, 8, 16, 32, 64, 128][y]
  }

  function BitFlags(v: byte, y: nat, source: byte, carry: bool): Flags
    requires y < 8
  {
    var set1 := Bit(v, Mask(y));
    Flags(set1 && y == 7, !set1, Bit(source, 32), true, Bit(source, 8), !set1, false, carry)
  }

  function ExecRotate<D>(x: Instr, c: Code, m: Core<D>): Effect<D> {
    var r, y, z := m.regs, Y(c.op), Z(c.op);
    var a, ind := r.a, Address(c, r);
    var n := if c.mode.PlainHL? then 7 else 11;
    match x
    case Rlca =>
      var v := Byte(a * 2 + a / 128);
      Go(Regs(m, r.(a := v, f := AccumulatorFlags(r.f, v, Bit(v, 1)))), 0, 0)
    case Rla =>
      var v := Byte(a * 2 + B2I(r.f.c));
      Go(Regs(m, r.(a := v, f := AccumulatorFlags(r.f, v, a >= 128))), 0, 0)
    case Rrca =>
      var v := a / 2 + a % 2 * 128;
      Go(Regs(m, r.(a := v, f := AccumulatorFlags(r.f, v, a % 2 == 1))), 0, 0)
    case Rra =>
      var v := a / 2 + B2I(r.f.c) * 128;
      Go(Regs(m, r.(a := v, f := AccumulatorFlags(r.f, v, a % 2 == 1))), 0, 0)
    case RotR =>
      var (v, f) := Rotate(RotOf(y), Get8(r, c.mode, z), r.f);
      Go(Regs(m, Set8(r, c.mode, z, v).(f := f)), 0, 0)
    case RotInd =>
      var (v, f) := Rotate(RotOf(y), Read(m.mem, ind), r.f);
      Go(Regs(Store(m, ind, v), r.(f := f)), CbStep(c), n)
    case Rld =>
      var v := Read(m.mem, r.hl);
      var a' := a / 16 * 16 + v / 16;
      Go(Regs(Store(m, r.hl, v % 16 * 16 + a % 16), r.(a := a', f := Szyxp(a').(c := r.f.c))), 0, 10)
    case Rrd =>
      var v := Read(m.mem, r.hl);
      var a' := a / 16 * 16 + v % 16;
      Go(Regs(Store(m, r.hl, a % 16 * 16 + v / 16), r.(a := a', f := Szyxp(a').(c := r.f.c))), 0, 10)
    case BitR =>
      var v := Get8(r, c.mode, z);
      Go(Regs(m, r.(f := BitFlags(v, y, v, r.f.c))), 0, 0)
    case BitInd =>
      Go(Regs(m, r.(f := BitFlags(Read(m.mem, ind), y, Byte(ind), r.f.c))), CbStep(c), n - 3)
    case SetR => Go(Regs(m, Set8(r, c.mode, z, Or8(Get8(r, c.mode, z), Mask(y)))), 0, 0)
    case SetInd => Go(Store(m, ind, Or8(Read(m.mem, ind), Mask(y))), CbStep(c), n)
    case ResR => Go(Regs(m, Set8(r, c.mode, z, And8(Get8(r, c.mode, z), 255 - Mask(y)))), 0, 0)
    case _ => Go(Store(m, ind, And8(Read(m.mem, ind), 255 - Mask(y))), CbStep(c), n)
  }

  function ExecJump<D>(x: Instr, c: Code, m: Core<D>): Effect<D> {
    var r, y := m.regs, Y(c.op);
    match x
    case JpNN => Jump(m, NN(c), 6)
    case JpCC => if Condition(r.f, y) then Jump(m, NN(c), 6) else Go(m, 2, 6)
    case Jr => Go(m, Signed(c.n1) + 1, 8)
    case JrCC => if Condition(r.f, y % 4) then Go(m, Signed(c.n1) + 1, 8) else Go(m, 1, 3)
    case JpHL => Jump(m, HlOf(r, c.mode), 0)
    case Djnz =>
      var b := Byte(B(r) - 1);
      if b != 0 then Go(Regs(m, SetB(r, b)), Signed(c.n1) + 1, 9) else Go(Regs(m, SetB(r, b)), 1, 4)
    case Call => Jump(Push(m, Word(c.here + 2)), NN(c), 13)
    case CallCC =>
      if Condition(r.f, y) then Jump(Push(m, Word(c.here + 2)), NN(c), 13) else Go(m, 2, 6)
    case Ret => Jump(Pop(m), Popped(m), 6)
    case RetCC => if Condition(r.f, y) then Jump(Pop(m), Popped(m), 7) else Go(m, 0, 1)
    case RetN => Jump(Pop(Regs(m, r.(iff1 := r.iff2))), Popped(m), 6)
    case _ => Jump(Push(m, c.here), 8 * y, 7)
  }

  function ExecPort<D>(bus: Bus<D>, x: Instr, c: Code, m: Core<D>): Effect<D> {
    var r, y := m.regs, Y(c.op);
    match x
    case InAN =>
      var (m1, v) := In(bus, m, c.n1);
      Go(Regs(m1, r.(a := v)), 1, 7)
    case InRC =>
      var (m1, v) := In(bus, m, C(r));
      var r1 := if y == 6 then r else Set8(r, c.mode, y, v);
      Go(Regs(m1, r1.(f := Szyxp(v).(c := r.f.c))), 0, 4)
    case OutNA => Go(Out(bus, m, c.n1, r.a), 1, 7)
    case _ => Go(Out(bus, m, C(r), if y == 6 then 0 else Get8(r, c.mode, y)), 0, 4)
  }

  /** The families of instructions, one function each. */
  datatype Family = Bytes | Pairs | Blocks | Alus | Generals | Sums | Rotates | Jumps | Ports

  function FamilyOf(x: Instr): Family {
    match x
    case LdRR | LdRN | LdRInd | LdIndR | LdIndN | LdAIndBC | LdAIndDE | LdAIndNN
       | LdIndBCA | LdIndDEA | LdIndNNA | LdAI | LdAR | LdIA | LdRA => Bytes
    case LdRrNN | LdHLIndNN | LdRrIndNN | LdIndNNHL | LdIndNNRr | LdSPHL | PushSs | PopSs
       | ExDEHL | ExAF | Exx | ExIndSPHL => Pairs
    case Single(_, _) | Repeat(_, _) => Blocks
    case AluR | AluN | AluInd | IncR | IncInd | DecR | DecInd => Alus
    case DaaA | Cpl | Neg | Ccf | Scf | Nop | HaltOp | Di | Ei | ImN | EdUndefined => Generals
    case AddHLRr | AdcHLRr | SbcHLRr | IncRr | DecRr => Sums
    case Rlca | Rla | Rrca | Rra | RotR | RotInd | Rld | Rrd
       | BitR | BitInd | SetR | SetInd | ResR | ResInd => Rotates
    case JpNN | JpCC | Jr | JrCC | JpHL | Djnz | Call | CallCC | Ret | RetCC | RetN | Rst => Jumps
    case InAN | InRC | OutNA | OutCR => Ports
  }

  /** Everything but the opcode fetches. */
  function Exec<D>(bus: Bus<D>, x: Instr, c: Code, m: Core<D>): Effect<D> {
    match FamilyOf(x)
    case Bytes => ExecLoad8(x, c, m)
    case Pairs => ExecLoad16(x, c, m)
    case Blocks => if x.Single? then ExecSingle(bus, x.block, x.up, m) else ExecRepeat(bus, x.block, x.up, m)
    case Alus => ExecAlu(x, c, m)
    case Generals => ExecGeneral(x, c, m)
    case Sums => ExecArith16(x, c, m)
    case Rotates => ExecRotate(x, c, m)
    case Jumps => ExecJump(x, c, m)
    case Ports => ExecPort(bus, x, c, m)
  }
}
