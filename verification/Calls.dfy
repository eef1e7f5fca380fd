/** Calls and returns as runs of the machine: stretches of any steps that keep to the stack discipline,
    nested to any depth. */
module Calls {
  import opened Words
  import opened BankedMemory
  import opened Alu
  import opened Instructions
  import opened Machine
  import opened Stack

  /** A stretch of steps: a push of `w`, an inner stretch and a pop, or a step of any other kind. */
  datatype Shape = Done | Nested(w: word, inner: Shape, rest: Shape) | Other(rest: Shape)

  ghost function Next<D>(bus: Bus<D>, s: State<D>): State<D> {
    hide Step;
    if Step(bus, s).Hang? then s else Step(bus, s).s
  }

  function Length(t: Shape): nat {
    match t
    case Done => 0
    case Nested(_, inner, rest) => 2 + Length(inner) + Length(rest)
    case Other(rest) => 1 + Length(rest)
  }

  /** Where the stretch ends. */
  ghost function End<D>(bus: Bus<D>, s: State<D>, t: Shape): State<D>
    decreases t
  {
    hide Next;
    match t
    case Done => s
    case Nested(_, inner, rest) => End(bus, Next(bus, End(bus, Next(bus, s), inner)), rest)
    case Other(rest) => End(bus, Next(bus, s), rest)
  }

  lemma OneNext<D>(bus: Bus<D>, s: State<D>, k: nat)
    ensures Steps(bus, s, 0) == s && Steps(bus, Next(bus, s), k) == Steps(bus, s, k + 1)
  {
    hide Step;
    if Step(bus, s).Hang? {
      StuckSteps(bus, s, k);
      StuckSteps(bus, s, k + 1);
    }
  }

  /** One step, `i` steps, one step, `r` steps. */
  lemma Joined<D>(bus: Bus<D>, s: State<D>, i: nat, r: nat)
    ensures Steps(bus, Next(bus, Steps(bus, Next(bus, s), i)), r) == Steps(bus, s, 2 + i + r)
  {
    hide Next, Steps, Cost;
    var a := Next(bus, s);
    OneNext(bus, Steps(bus, a, i), r);
    StepsAdd(bus, a, i, r + 1);
    OneNext(bus, s, i + (r + 1));
  }

  /** A stretch is that many steps of the machine. */
  lemma {:induction false} EndIsSteps<D>(bus: Bus<D>, s: State<D>, t: Shape)
    ensures End(bus, s, t) == Steps(bus, s, Length(t))
    decreases t
  {
    hide Next, Steps;
    match t
    case Done => OneNext(bus, s, 0);
    case Nested(_, inner, rest) =>
      var a := Next(bus, s);
      EndIsSteps(bus, a, inner);
      EndIsSteps(bus, Next(bus, End(bus, a, inner)), rest);
      Joined(bus, s, Length(inner), Length(rest));
    case Other(rest) =>
      EndIsSteps(bus, Next(bus, s), rest);
      OneNext(bus, s, Length(rest));
  }

  // Steps that push and pop.

  /** The step pushes `w` and does nothing else to registers, memory and devices: CALL, RST, PUSH. */
  ghost predicate Pushes<D>(bus: Bus<D>, s: State<D>, w: word) {
    hide Step, Push;
    Step(bus, s).Tick? && Step(bus, s).s.core == Push(s.core, w)
  }

  /** The step moves SP up by two and leaves memory: RET, POP. */
  ghost predicate Pops<D>(bus: Bus<D>, s: State<D>) {
    hide Step, Word;
    Step(bus, s).Tick? && Step(bus, s).s.core.mem == s.core.mem
    && Step(bus, s).s.core.regs.sp == Word(s.core.regs.sp + 2)
  }

  /** The instruction at `s`. */
  ghost predicate Is<D>(s: State<D>, x: Instr) {
    hide Fetch;
    Fetch(s.core.mem, s.pc).Fetched? && Fetch(s.core.mem, s.pc).x == x
  }

  ghost function After<D>(s: State<D>): int
    requires Fetch(s.core.mem, s.pc).Fetched?
  {
    hide Fetch;
    s.pc + Fetch(s.core.mem, s.pc).len
  }

  lemma CallStep<D>(bus: Bus<D>, s: State<D>)
    requires Is(s, Call)
    ensures Pushes(bus, s, Word(After(s) + 2)) && Next(bus, s).pc == ReadWord(s.core.mem, Word(After(s)))
  {
    hide Fetch, Step, Exec, Push, Read;
    var f := Fetch(s.core.mem, s.pc);
    var here := After(s);
    var c := Operands(s.core.mem, f, here, s.r + f.refresh);
    StepOf(bus, s);
    CallPushes(bus, c, s.core);
    WordAbsorbs(here, 2);
    ReadWraps(s.core.mem, here, 0);
    ReadWraps(s.core.mem, here, 1);
  }

  lemma RetStep<D>(bus: Bus<D>, s: State<D>)
    requires Is(s, Ret)
    ensures Pops(bus, s) && Next(bus, s).pc == Popped(s.core)
  {
    hide Fetch, Step, Exec, Popped, Operands;
    var f := Fetch(s.core.mem, s.pc);
    StepOf(bus, s);
    RetPops(bus, Operands(s.core.mem, f, After(s), s.r + f.refresh), s.core);
  }

  lemma RstExec<D>(bus: Bus<D>, c: Code, m: Core<D>)
    ensures Exec(bus, Rst, c, m).core == Push(m, c.here)
  {
    hide Jump, Push;
  }

  lemma RstStep<D>(bus: Bus<D>, s: State<D>)
    requires Is(s, Rst)
    ensures Pushes(bus, s, Word(After(s)))
  {
    hide Fetch, Step, Exec, Push, Read, Word;
    var f := Fetch(s.core.mem, s.pc);
    StepOf(bus, s);
    RstExec(bus, Operands(s.core.mem, f, After(s), s.r + f.refresh), s.core);
  }

  lemma PushExec<D>(bus: Bus<D>, c: Code, m: Core<D>)
    ensures Exec(bus, PushSs, c, m).core == Push(m, GetSs(m.regs, c.mode, P(c.op)))
  {
    hide Go, Push, GetSs, P;
  }

  lemma PushStep<D>(bus: Bus<D>, s: State<D>)
    requires Is(s, PushSs)
    ensures var f := Fetch(s.core.mem, s.pc); Pushes(bus, s, GetSs(s.core.regs, f.mode, P(f.op)))
  {
    hide Fetch, Step, Exec, Push, Read, Word, GetSs, P;
    var f := Fetch(s.core.mem, s.pc);
    StepOf(bus, s);
    PushExec(bus, Operands(s.core.mem, f, After(s), s.r + f.refresh), s.core);
  }

  lemma PopExec<D>(bus: Bus<D>, c: Code, m: Core<D>)
    ensures Exec(bus, PopSs, c, m).core == Regs(m, SetSs(Pop(m).regs, c.mode, P(c.op), Popped(m)))
  {
    hide Go, Regs, Pop, Popped, SetSs, P;
  }

  /** POP loads the word it finds into its register, never into SP. */
  lemma PopStep<D>(bus: Bus<D>, s: State<D>)
    requires Is(s, PopSs)
    ensures var f := Fetch(s.core.mem, s.pc);
      Pops(bus, s) && GetSs(Next(bus, s).core.regs, f.mode, P(f.op)) == Popped(s.core)
  {
    hide Fetch, Step, Exec, Popped, Operands, P, Word, GetSs, SetSs;
    var f := Fetch(s.core.mem, s.pc);
    var c := Operands(s.core.mem, f, After(s), s.r + f.refresh);
    StepOf(bus, s);
    PopExec(bus, c, s.core);
    OperandsOf(s.core.mem, f, After(s), s.r + f.refresh);
    GetAfterSet(Pop(s.core).regs, f.mode, P(f.op), Popped(s.core));
  }

  lemma OperandsOf(m: Memory, f: Fetched, here: int, r: int)
    requires f.Fetched?
    ensures Operands(m, f, here, r).op == f.op && Operands(m, f, here, r).mode == f.mode
  {
    hide Read;
  }

  lemma GetAfterSet(r: Registers, mode: Index, k: nat, w: word)
    requires k < 4
    ensures GetSs(SetSs(r, mode, k, w), mode, k) == w && SetSs(r, mode, k, w).sp == r.sp
  {
    hide FlagsByte, ByteFlags;
    FlagsByteRoundTrip(Lo(w));
    WordParts(w);
  }

  // The discipline.

  /** The `n` cells below `top` show the same places of the RAM, and the first `used` of them the same
      bytes. */
  ghost predicate Spares(m: Memory, m': Memory, top: word, n: nat, used: nat) {
    hide Decode, Read, Cell;
    && (forall i :: 0 <= i < n ==> Decode(m', Cell(top, i)) == Decode(m, Cell(top, i)))
    && (forall i :: 0 <= i < used ==> Read(m', Cell(top, i)) == Read(m, Cell(top, i)))
  }

  /** A stretch from `s` that stays within `n` bytes below `top`, `used` of which are in use: other steps
      leave SP, the bytes in use and the mapping of all `n`, and may do anything else: access ports, map
      other pages, store elsewhere, even below SP. */
  ghost predicate Proper<D>(bus: Bus<D>, s: State<D>, t: Shape, top: word, n: nat, used: nat)
    decreases t
  {
    hide Step, Next, Spares, Pushes, Pops, End;
    match t
    case Done => true
    case Nested(w, inner, rest) =>
      var a, b := Next(bus, s), End(bus, Next(bus, s), inner);
      && used + 2 <= n && Pushes(bus, s, w) && Proper(bus, a, inner, top, n, used + 2)
      && Pops(bus, b) && Proper(bus, Next(bus, b), rest, top, n, used)
    case Other(rest) =>
      var a := Next(bus, s);
      && Step(bus, s).Tick? && a.core.regs.sp == s.core.regs.sp
      && Spares(s.core.mem, a.core.mem, top, n, used)
      && Proper(bus, a, rest, top, n, used)
  }

  /** Every pop in the stretch finds the word of its push. */
  ghost predicate Restores<D>(bus: Bus<D>, s: State<D>, t: Shape)
    decreases t
  {
    hide Next, End, Popped;
    match t
    case Done => true
    case Nested(w, inner, rest) =>
      var a, b := Next(bus, s), End(bus, Next(bus, s), inner);
      Popped(b.core) == w && Restores(bus, a, inner) && Restores(bus, Next(bus, b), rest)
    case Other(rest) => Restores(bus, Next(bus, s), rest)
  }

  lemma RoomSpared(m: Memory, m': Memory, top: word, n: nat, used: nat)
    requires Room(m, top, n) && Spares(m, m', top, n, used)
    ensures Room(m', top, n)
  {
    hide Decode, Cell, Read;
    forall i | 0 <= i < n
      ensures Writable(m', Cell(top, i))
    {
      assert Decode(m', Cell(top, i)) == Decode(m, Cell(top, i));
    }
  }

  lemma SparesOn(m: Memory, m': Memory, m'': Memory, top: word, n: nat, used: nat, more: nat)
    requires Spares(m, m', top, n, used) && Spares(m', m'', top, n, more) && used <= more
    ensures Spares(m, m'', top, n, used)
  {
    hide Decode, Cell, Read;
  }

  /** The cells below SP, counted from `top`. */
  lemma CellsBelow(top: word, used: nat, i: nat)
    ensures Cell(Word(top - used), i) == Cell(top, used + i)
  {
    WordAbsorbs(top - used, -1 - i);
  }

  lemma RoomAtSp(m: Memory, top: word, n: nat, used: nat)
    requires Room(m, top, n) && used + 2 <= n
    ensures Room(m, Word(top - used), 2)
  {
    hide Decode, Cell, Word;
    CellsBelow(top, used, 0);
    CellsBelow(top, used, 1);
    RoomOfTwo(m, Word(top - used));
  }

  /** A push leaves the bytes in use. */
  lemma PushSpares<D>(m: Core<D>, w: word, top: word, n: nat, used: nat)
    requires Room(m.mem, top, n) && used + 2 <= n && m.regs.sp == Word(top - used)
    ensures Spares(m.mem, Push(m, w).mem, top, n, used) && Push(m, w).regs.sp == Word(top - (used + 2))
  {
    hide Decode, Cell, Read, WriteWord, Hi, Lo, Word;
    var sp: int := m.regs.sp;
    var a: int := Word(sp - 2);
    WordAbsorbs(top - used, -2);
    TopCells(m.regs.sp);
    CellsBelow(top, used, 0);
    CellsBelow(top, used, 1);
    WordId(sp - 2);
    forall i | 0 <= i < used
      ensures Read(Push(m, w).mem, Cell(top, i)) == Read(m.mem, Cell(top, i))
    {
      CellIsWord(top, i);
      ByteAfterWord(m.mem, a, w, Cell(top, i));
    }
    forall i | 0 <= i < n
      ensures Decode(Push(m, w).mem, Cell(top, i)) == Decode(m.mem, Cell(top, i))
    {
      SameDecode(m.mem, Push(m, w).mem, Cell(top, i));
    }
  }

  lemma CellIsWord(top: word, i: nat)
    ensures Word(Cell(top, i)) == Cell(top, i)
  {
    WordId(top - 1 - i);
  }

  /** The word just pushed is what a pop finds as long as its two bytes are spared. */
  lemma PopFinds<D>(m: Core<D>, w: word, n: Core<D>, top: word, room: nat, used: nat)
    requires Room(m.mem, top, room) && used + 2 <= room && m.regs.sp == Word(top - used)
    requires n.regs.sp == Push(m, w).regs.sp && Spares(Push(m, w).mem, n.mem, top, room, used + 2)
    ensures Popped(n) == w
  {
    hide Decode, Cell, Read, WriteWord, Pair, Room, Word;
    var sp: int := m.regs.sp;
    var low: int := Word(sp - 2);
    RoomAtSp(m.mem, top, room, used);
    PushedWord(m.mem, m.regs.sp, w);
    TopCells(m.regs.sp);
    CellsBelow(top, used, 0);
    CellsBelow(top, used, 1);
    assert Read(n.mem, Cell(top, used + 0)) == Read(Push(m, w).mem, Cell(top, used + 0));
    assert Read(n.mem, Cell(top, used + 1)) == Read(Push(m, w).mem, Cell(top, used + 1));
    ReadWraps(n.mem, low + 1, 0);
    ReadWraps(Push(m, w).mem, low + 1, 0);
  }

  lemma BackAtSp(top: word, used: nat)
    ensures Word(Word(top - (used + 2)) + 2) == Word(top - used)
  {
    WordAbsorbs(top - (used + 2), 2);
  }

  /** A proper stretch on room for its depth: every pop finds its word, SP ends where it began, and the
      bytes in use are as they were. */
  lemma {:induction false} ProperRestores<D>(bus: Bus<D>, s: State<D>, t: Shape, top: word, n: nat, used: nat)
    requires Proper(bus, s, t, top, n, used) && used <= n
    requires Room(s.core.mem, top, n) && s.core.regs.sp == Word(top - used)
    ensures var e := End(bus, s, t);
      && Restores(bus, s, t) && e.core.regs.sp == s.core.regs.sp
      && Spares(s.core.mem, e.core.mem, top, n, used)
    decreases t
  {
    hide Step, Next, Pushes, Pops, Room, Spares, Push, Popped, Word;
    match t
    case Done => SparesSelf(s.core.mem, top, n, used);
    case Nested(w, inner, rest) =>
      var a, b := Next(bus, s), End(bus, Next(bus, s), inner);
      var c := Next(bus, b);
      PushedBy(bus, s, w);
      PushSpares(s.core, w, top, n, used);
      RoomSpared(s.core.mem, a.core.mem, top, n, used);
      ProperRestores(bus, a, inner, top, n, used + 2);
      PopFinds(s.core, w, b.core, top, n, used);
      SparesOn(s.core.mem, a.core.mem, b.core.mem, top, n, used, used + 2);
      RoomSpared(s.core.mem, b.core.mem, top, n, used);
      PoppedBy(bus, b);
      BackAtSp(top, used);
      ProperRestores(bus, c, rest, top, n, used);
      SparesOn(s.core.mem, b.core.mem, End(bus, c, rest).core.mem, top, n, used, used);
    case Other(rest) =>
      var a := Next(bus, s);
      RoomSpared(s.core.mem, a.core.mem, top, n, used);
      ProperRestores(bus, a, rest, top, n, used);
      SparesOn(s.core.mem, a.core.mem, End(bus, a, rest).core.mem, top, n, used, used);
  }

  lemma SparesSelf(m: Memory, top: word, n: nat, used: nat)
    ensures Spares(m, m, top, n, used)
  {
    hide Decode, Cell, Read;
  }

  /** From a CALL through any proper stretch, with calls of its own, to a RET: the step after it goes on
      just after the CALL, with SP as it was before the CALL. */
  lemma CallRunReturns<D>(bus: Bus<D>, s: State<D>, body: Shape, n: nat)
    requires Is(s, Call) && n >= 2 && Room(s.core.mem, s.core.regs.sp, n)
    requires Proper(bus, Next(bus, s), body, s.core.regs.sp, n, 2)
    requires Is(Steps(bus, s, 1 + Length(body)), Ret)
    ensures var e := Steps(bus, s, 2 + Length(body));
      e.pc == Word(After(s) + 2) && e.core.regs.sp == s.core.regs.sp
  {
    hide Fetch, Step, Steps, Proper, Room, Spares, Popped, Push, Word, End, Next, Length;
    var sp, w, a := s.core.regs.sp, Word(After(s) + 2), Next(bus, s);
    var b := End(bus, a, body);
    EndIsSteps(bus, a, body);
    OneNext(bus, s, Length(body));
    Joined(bus, s, Length(body), 0);
    OneNext(bus, Next(bus, b), 0);
    CallStep(bus, s);
    PushedBy(bus, s, w);
    SpIsWord(sp);
    PushSpares(s.core, w, sp, n, 0);
    RoomSpared(s.core.mem, a.core.mem, sp, n, 0);
    ProperRestores(bus, a, body, sp, n, 2);
    PopFinds(s.core, w, b.core, sp, n, 0);
    RetStep(bus, b);
    PoppedBy(bus, b);
    BackAtSp(sp, 0);
  }

  lemma PushedBy<D>(bus: Bus<D>, s: State<D>, w: word)
    requires Pushes(bus, s, w)
    ensures Next(bus, s).core == Push(s.core, w)
  {
    hide Step, Push;
  }

  lemma PoppedBy<D>(bus: Bus<D>, s: State<D>)
    requires Pops(bus, s)
    ensures Next(bus, s).core.mem == s.core.mem && Next(bus, s).core.regs.sp == Word(s.core.regs.sp + 2)
  {
    hide Step, Word;
  }

  lemma SpIsWord(sp: word)
    ensures Word(sp - 0) == sp
  {
  }
}
