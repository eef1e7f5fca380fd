/** What every instruction keeps, whatever its operands. */
module Keeping {
  import opened Words
  import opened BankedMemory
  import opened Alu
  import opened Instructions

  predicate IsOutput(x: Instr) {
    x.OutNA? || x.OutCR? || ((x.Single? || x.Repeat?) && x.block.Output?)
  }

  /** The PROM is never written, only output instructions map pages, only LD R,A changes R's bit 7, and
      only DI and EI, which do nothing else to memory or pc, give cycles back. */
  ghost predicate Keeps<D>(x: Instr, m: Core<D>, e: Effect<D>) {
    && Prom(e.core.mem) == Prom(m.mem)
    && (!IsOutput(x) ==> e.core.mem.slots == m.mem.slots)
    && (x != LdRA ==> e.core.regs.r7 == m.regs.r7)
    && (e.signal.Lengthen? ==> (x == Di || x == Ei) && e.core.mem == m.mem && e.next == Rel(0))
  }

  lemma BlockKeeps<D>(bus: Bus<D>, block: Block, up: bool, m: Core<D>)
    ensures Keeps(Single(block, up), m, ExecSingle(bus, block, up, m))
  {
    hide Prom, Read, Write, LoadFlags, SearchFlags, PortFlags, Word, Byte, Pair, Hi, Lo;
  }

  lemma RepeatKeeps<D>(bus: Bus<D>, block: Block, up: bool, m: Core<D>)
    ensures Keeps(Repeat(block, up), m, ExecRepeat(bus, block, up, m))
  {
    hide Prom, ExecSingle, Unfinished;
    BlockKeeps(bus, block, up, m);
  }

  lemma BytesKeep<D>(x: Instr, c: Code, m: Core<D>)
    requires x in {LdRR, LdRN, LdRInd, LdIndR, LdIndN, LdAIndBC, LdAIndDE, LdAIndNN, LdIndBCA, LdIndDEA,
                   LdIndNNA, LdAI, LdAR, LdIA, LdRA}
    ensures Keeps(x, m, ExecLoad8(x, c, m))
  {
    hide Prom, Set8, Read, Write, Address, Get8, Pair, Hi, Lo, NN, Szyx, Bit;
  }

  lemma PairsKeep<D>(x: Instr, c: Code, m: Core<D>)
    requires x in {LdRrNN, LdHLIndNN, LdRrIndNN, LdIndNNHL, LdIndNNRr, LdSPHL, PushSs, PopSs, ExDEHL, ExAF,
                   Exx, ExIndSPHL}
    ensures Keeps(x, m, ExecLoad16(x, c, m))
  {
    hide Prom, Set16, SetHl, SetSs, Read, Write, ReadWord, WriteWord, Popped, NN, GetSs, Get16, Pair,
      Hi, Lo, Word, ByteFlags;
  }

  lemma AlusKeep<D>(x: Instr, c: Code, m: Core<D>)
    requires x in {AluR, AluN, AluInd, IncR, IncInd, DecR, DecInd}
    ensures Keeps(x, m, ExecAlu(x, c, m))
  {
    hide Prom, Go, Regs, Store, Set8, Read, Write, Address, Get8, Apply, Inc8, Dec8, AluOf, Pair, Hi, Lo;
  }

  lemma GeneralsKeep<D>(x: Instr, c: Code, m: Core<D>)
    requires x in {DaaA, Cpl, Neg, Ccf, Scf, Nop, HaltOp, Di, Ei, ImN, EdUndefined}
    ensures Keeps(x, m, ExecGeneral(x, c, m))
  {
    hide Prom, Daa, Negate, Bit;
  }

  lemma SumsKeep<D>(x: Instr, c: Code, m: Core<D>)
    requires x in {AddHLRr, AdcHLRr, SbcHLRr, IncRr, DecRr}
    ensures Keeps(x, m, ExecArith16(x, c, m))
  {
    hide Prom, Set16, SetHl, Get16, AddHl, AdcHl, SbcHl, Word, HlOf;
  }

  lemma RotatesKeep<D>(x: Instr, c: Code, m: Core<D>)
    requires x in {Rlca, Rla, Rrca, Rra, RotR, RotInd, Rld, Rrd}
    ensures Keeps(x, m, ExecRotate(x, c, m))
  {
    hide Prom, Go, Regs, Store, Set8, Read, Write, Address, Get8, Rotate, RotOf, Mask, Byte, Bit, Szyxp,
      And8, Or8, BitFlags, AccumulatorFlags, Pair, Hi, Lo;
  }

  lemma BitsKeep<D>(x: Instr, c: Code, m: Core<D>)
    requires x in {BitR, BitInd, SetR, SetInd, ResR, ResInd}
    ensures Keeps(x, m, ExecRotate(x, c, m))
  {
    hide Prom, Go, Regs, Store, Set8, Read, Write, Address, Get8, Rotate, RotOf, Mask, Byte, Bit, Szyxp,
      And8, Or8, BitFlags, AccumulatorFlags, Pair, Hi, Lo;
  }

  lemma JumpsKeep<D>(x: Instr, c: Code, m: Core<D>)
    requires x in {JpNN, JpCC, Jr, JrCC, JpHL, Djnz, Call, CallCC, Ret, RetCC, RetN, Rst}
    ensures Keeps(x, m, ExecJump(x, c, m))
  {
    hide Prom, Go, Regs, Store, SetB, Jump, Pop, Push, Read, ReadWord, WriteWord, Popped, Condition,
      NN, HlOf, Signed, Word, Byte, Pair, Hi, Lo;
  }

  lemma PortsKeep<D>(bus: Bus<D>, x: Instr, c: Code, m: Core<D>)
    requires x in {InAN, InRC, OutNA, OutCR}
    ensures Keeps(x, m, ExecPort(bus, x, c, m))
  {
    hide Prom, Set8, In, Out, Szyxp, Get8, Pair, Hi, Lo, EvenParity;
  }

  lemma ExecKeeps<D>(bus: Bus<D>, x: Instr, c: Code, m: Core<D>)
    ensures Keeps(x, m, Exec(bus, x, c, m))
  {
    hide Keeps, ExecLoad8, ExecLoad16, ExecSingle, ExecRepeat, ExecAlu, ExecGeneral, ExecArith16, ExecRotate,
      ExecJump, ExecPort;
    match FamilyOf(x) {
      case Blocks =>
        BlockKeeps(bus, x.block, x.up, m);
        RepeatKeeps(bus, x.block, x.up, m);
      case Bytes => BytesKeep(x, c, m);
      case Pairs => PairsKeep(x, c, m);
      case Alus => AlusKeep(x, c, m);
      case Generals => GeneralsKeep(x, c, m);
      case Sums => SumsKeep(x, c, m);
      case Rotates =>
        if x in {BitR, BitInd, SetR, SetInd, ResR, ResInd} {
          BitsKeep(x, c, m);
        } else {
          RotatesKeep(x, c, m);
        }
      case Jumps => JumpsKeep(x, c, m);
      case Ports => PortsKeep(bus, x, c, m);
    }
  }
}
