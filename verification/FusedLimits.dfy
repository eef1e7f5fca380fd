/** Exactly when the fused loops are right: conditions a caller can check before the instruction. */
module FusedLimits {
  import opened Words
  import opened BankedMemory
  import opened Alu
  import opened Instructions
  import opened Machine
  import opened Fused
  import opened BlockMeaning

  /** The fused loop of the instruction at `s`, reached after `elapsed` of `number` cycles. */
  ghost function Exited<D>(bus: Bus<D>, s: State<D>, elapsed: int, number: int): Exit<D>
    requires Fetch(s.core.mem, s.pc).Fetched? && Fetch(s.core.mem, s.pc).x.Repeat?
  {
    hide Fetch, RunLoop, Enter;
    var f := Fetch(s.core.mem, s.pc);
    RunLoop(bus, f.x.block, f.x.up, s.core.regs, Here(s), number,
            Enter(f.x.block, s.core, s.r + f.refresh, elapsed + f.cost))
  }

  ghost function Outcome<D>(bus: Bus<D>, s: State<D>, elapsed: int, number: int): State<D>
    requires Fetch(s.core.mem, s.pc).Fetched? && Fetch(s.core.mem, s.pc).x.Repeat?
  {
    hide Fetch, Exited, After;
    var f := Fetch(s.core.mem, s.pc);
    Norm(After(f.x.block, f.x.up, s.core.regs, Here(s), Exited(bus, s, elapsed, number)))
  }

  /** The loop leaves what as many iterations of the reference machine leave, and no more than one
      instruction can make. */
  ghost predicate Faithful<D>(bus: Bus<D>, s: State<D>, elapsed: int, number: int)
    requires Fetch(s.core.mem, s.pc).Fetched? && Fetch(s.core.mem, s.pc).x.Repeat?
  {
    hide Fetch, Exited, Outcome, Steps;
    var passes := Exited(bus, s, elapsed, number).passes;
    passes <= 65536 && Steps(bus, s, passes) == Outcome(bus, s, elapsed, number)
  }

  /** No other address can change the byte at `a`. */
  ghost predicate Protected(m: Memory, a: word) {
    Writable(m, a) ==> forall b: word :: Decode(m, b) == Decode(m, a) ==> b == a
  }

  /** An output to `port` does not remap a slot that holds a byte of the opcode ending at `here`. */
  predicate Stays(port: byte, here: int) {
    port / 16 == 10 ==> port % 4 != Word(here - 2) / SLOT_SIZE && port % 4 != Word(here - 1) / SLOT_SIZE
  }

  /** What keeps the opcode ending at `here` in place while the instruction repeats. */
  ghost predicate Fixed(block: Block, m: Memory, regs: Registers, here: int) {
    hide Protected;
    match block
    case Load | Input => Protected(m, Word(here - 2)) && Protected(m, Word(here - 1))
    case Compare => true
    case Output => Stays(C(regs), here)
  }

  lemma ProtectedRead(m: Memory, a: int, v: byte, b: word)
    requires Protected(m, b) && Word(a) != b
    ensures Read(Write(m, a, v), b) == Read(m, b)
  {
    ReadAfterWrite(m, a, v, b);
  }

  lemma MapElsewhere(m: Memory, port: byte, v: byte, a: word)
    requires port / 16 == 10 ==> port % 4 != a / SLOT_SIZE
    ensures Read(MapPort(m, port, v), a) == Read(m, a)
  {
  }

  lemma FixedOpcode<D>(bus: Bus<D>, s: State<D>, block: Block, up: bool)
    requires At(s, block, up) && Fixed(block, s.core.mem, s.core.regs, Here(s))
    ensures !AliasTrap(bus, s)
  {
    hide Fetch, Step, Read, Write, MapPort, Protected, PortFlags, LoadFlags, SearchFlags;
    StepOfRepeat(bus, s);
    var m, r, here := s.core.mem, s.core.regs, Here(s);
    var m' := ExecSingle(bus, block, up, s.core).core.mem;
    var w := Target(block, r);
    if block.Output? {
      assert m' == MapPort(m, C(r), Read(m, r.hl));
      MapElsewhere(m, C(r), Read(m, r.hl), Word(here - 2));
      MapElsewhere(m, C(r), Read(m, r.hl), Word(here - 1));
      BytesStay(s, m');
    } else if w.None? {
      assert m' == m;
      BytesStay(s, m');
    } else if !OwnOpcode(here, w.value) {
      var v := if block.Load? then Read(m, r.hl) else bus.input(s.core.dev, C(r)).1;
      assert m' == Write(m, w.value, v);
      ProtectedRead(m, w.value, v, Word(here - 2));
      ProtectedRead(m, w.value, v, Word(here - 1));
      BytesStay(s, m');
    }
  }

  lemma PassSlots<D>(bus: Bus<D>, block: Block, up: bool, regs: Registers, l: Loop<D>)
    ensures block.Output? || Pass(bus, block, up, regs, l).mem.slots == l.mem.slots
    ensures block.Compare? ==> Pass(bus, block, up, regs, l).mem == l.mem
    ensures Pass(bus, block, up, regs, l).n == l.n - 1
  {
    hide Read, Decode;
  }

  lemma FixedKept(block: Block, m: Memory, m': Memory, regs: Registers, here: int)
    requires Fixed(block, m, regs, here) && (block.Output? || m'.slots == m.slots)
    ensures Fixed(block, m', regs, here)
  {
    match block {
      case Load | Input => ProtectedKept(m, m', Word(here - 2)); ProtectedKept(m, m', Word(here - 1));
      case _ =>
    }
  }

  lemma ProtectedKept(m: Memory, m': Memory, a: word)
    requires Protected(m, a) && m'.slots == m.slots
    ensures Protected(m', a)
  {
    if Writable(m', a) {
      forall b: word | Decode(m', b) == Decode(m', a)
        ensures b == a
      {
        assert Decode(m, b) == Decode(m, a);
      }
    }
  }

  lemma FixedSame(block: Block, m: Memory, regs: Registers, r: Registers, here: int, here': int)
    requires Word(here) == Word(here') && Fixed(block, m, regs, here) && (block.Output? ==> C(r) == C(regs))
    ensures Fixed(block, m, r, here')
  {
    hide Protected;
    WordAbsorbs(here, -2);
    WordAbsorbs(here', -2);
    WordAbsorbs(here, -1);
    WordAbsorbs(here', -1);
  }

  lemma AlignedNoTrap<D>(bus: Bus<D>, block: Block, up: bool, regs: Registers, here: int, number: int,
                         l: Loop<D>, s: State<D>, left: int)
    requires Aligned(block, up, regs, here, number, l, s, left) && Fixed(block, l.mem, regs, here)
    ensures !Trap(bus, s, left)
  {
    hide Fetch, Step, Read, AliasTrap, NoMatch, Fixed;
    NotPast65536(block, up, regs, here, number, l);
    var r := s.core.regs;
    if block.Output? || block.Input? {
      ByteParts(l.n, C(regs));
    }
    FixedSame(block, l.mem, regs, r, here, Here(s));
    FixedOpcode(bus, s, block, up);
    if block.Compare? && r.bc == 0 {
      assert l.n == 0 && Behind(up, l.hl, 0) == l.hl;
      NoMatchWraps(l.mem, up, l.hl, regs.a, 65535);
    }
  }

  lemma NoMatchWraps(m: Memory, up: bool, hl: int, a: byte, n: nat)
    ensures NoMatch(m, up, Word(hl), a, n) ==> NoMatch(m, up, hl, a, n)
  {
    hide Read;
    forall i | 0 <= i < n && NoMatch(m, up, Word(hl), a, n)
      ensures Read(m, Along(up, hl, i)) != a
    {
      assert Read(m, Along(up, Word(hl), i)) != a;
      ReadWraps(m, hl, if up then i else -i);
    }
  }

  /** A pass that goes round again, and one that does not. */
  lemma PassCount<D>(bus: Bus<D>, block: Block, up: bool, regs: Registers, here: int, number: int, l: Loop<D>)
    ensures var q := Pass(bus, block, up, regs, l).(elapsed := l.elapsed + 21);
      RunLoop(bus, block, up, regs, here, number, l).passes
      == if !Done(block, regs, q) && !SelfHit(block, up, here, q) && q.elapsed < number
         then 1 + RunLoop(bus, block, up, regs, here, number, q).passes else 1
  {
    hide Pass, SelfHit, Done;
    SameDone(block, regs, Pass(bus, block, up, regs, l), l.elapsed + 21);
  }

  /** With the opcode fixed, every pass of the loop is a safe step. */
  lemma {:induction false} FixedSafe<D>(bus: Bus<D>, block: Block, up: bool, regs: Registers, here: int,
                                        number: int, l: Loop<D>, s: State<D>, left: int)
    requires Aligned(block, up, regs, here, number, l, s, left) && Fixed(block, l.mem, regs, here)
    ensures Safe(bus, s, left, RunLoop(bus, block, up, regs, here, number, l).passes)
    decreases if number > l.elapsed then number - l.elapsed else 0
  {
    hide Aligned, Step, Done, SelfHit, Pass, Trap, Fixed, Safe, RunLoop;
    var q := Pass(bus, block, up, regs, l).(elapsed := l.elapsed + 21);
    PassCount(bus, block, up, regs, here, number, l);
    AlignedNoTrap(bus, block, up, regs, here, number, l, s, left);
    if !Done(block, regs, q) && !SelfHit(block, up, here, q) && q.elapsed < number {
      PassSlots(bus, block, up, regs, l);
      NotAlias(bus, s, left);
      AlignedNext(bus, block, up, regs, here, number, l, s, left);
      FixedKept(block, l.mem, q.mem, regs, here);
      FixedSafe(bus, block, up, regs, here, number, q, Step(bus, s).s, Left(Step(bus, s), left));
      SafeOnce(bus, s, left, RunLoop(bus, block, up, regs, here, number, l).passes);
    } else {
      SafeNone(bus, Step(bus, s), left);
      SafeOnce(bus, s, left, 1);
    }
  }

  lemma SafeNone<D>(bus: Bus<D>, t: Tick<D>, left: int)
    ensures t.Tick? ==> Safe(bus, t.s, Left(t, left), 0)
  {
  }

  /** A loop entered with a good counter never takes it past -65535. */
  lemma {:induction false} CounterLow<D>(bus: Bus<D>, block: Block, up: bool, regs: Registers, here: int,
                                         number: int, l: Loop<D>)
    requires CounterOk(block, up, regs, here, number, l)
    ensures -65536 < RunLoop(bus, block, up, regs, here, number, l).l.n
    decreases if number > l.elapsed then number - l.elapsed else 0
  {
    hide Pass, SelfHit, Done, CounterOk;
    var p := Pass(bus, block, up, regs, l);
    var q := p.(elapsed := l.elapsed + 21);
    SameDone(block, regs, p, q.elapsed);
    PassSlots(bus, block, up, regs, l);
    NotPast65536(block, up, regs, here, number, l);
    if !Done(block, regs, p) && !SelfHit(block, up, here, q) && q.elapsed < number {
      CounterStays(bus, block, up, regs, here, number, l, q);
      CounterLow(bus, block, up, regs, here, number, q);
    }
  }

  lemma NotAlias<D>(bus: Bus<D>, s: State<D>, left: int)
    requires !Trap(bus, s, left)
    ensures !AliasTrap(bus, s)
  {
    hide AliasTrap, CounterTrap;
  }

  /** A block instruction whose opcode nothing else can change, entered with a counter the code gets
      right, is the reference machine's iterations, under any budget. */
  lemma BlockRefines<D>(bus: Bus<D>, s: State<D>, elapsed: int, number: int)
    requires Fetch(s.core.mem, s.pc).Fetched? && Fetch(s.core.mem, s.pc).x.Repeat?
    requires Fixed(Fetch(s.core.mem, s.pc).x.block, s.core.mem, s.core.regs, Here(s))
    requires !CounterTrap(s, number - elapsed)
    ensures var x := Exited(bus, s, elapsed, number);
      && 0 < x.passes
      && Steps(bus, s, x.passes) == Outcome(bus, s, elapsed, number)
      && Cost(bus, s, x.passes) == x.l.elapsed - elapsed
      && Unbroken(bus, s, number - elapsed, x.passes)
      && x.passes <= 65536
  {
    hide Fetch, Step, CounterTrap, CounterOk, RunLoop, Aligned, After, Fixed, Steps, Cost, Unbroken, Safe;
    var f := Fetch(s.core.mem, s.pc);
    var l := Enter(f.x.block, s.core, s.r + f.refresh, elapsed + f.cost);
    EnterAligned(s, number, elapsed);
    FixedSafe(bus, f.x.block, f.x.up, s.core.regs, Here(s), number, l, s, number - elapsed);
    FusedRefines(bus, f.x.block, f.x.up, s.core.regs, Here(s), number, l, s, number - elapsed);
    AlignedCounter(f.x.block, f.x.up, s.core.regs, Here(s), number, l, s, number - elapsed);
    CounterLow(bus, f.x.block, f.x.up, s.core.regs, Here(s), number, l);
    CounterFinal(bus, s, elapsed, number);
  }

  lemma AlignedCounter<D>(block: Block, up: bool, regs: Registers, here: int, number: int,
                          l: Loop<D>, s: State<D>, left: int)
    requires Aligned(block, up, regs, here, number, l, s, left)
    ensures CounterOk(block, up, regs, here, number, l)
  {
    hide Fetch, Agrees, CounterOk;
  }

  /** The loop never leaves a positive counter below zero. */
  lemma {:induction false} CounterLeft<D>(bus: Bus<D>, block: Block, up: bool, regs: Registers, here: int,
                                          number: int, l: Loop<D>)
    ensures var x := RunLoop(bus, block, up, regs, here, number, l);
      && (l.n > 0 ==> 0 <= x.l.n < l.n) && (l.n <= 0 ==> x.l.n < l.n) && x.l.n == l.n - x.passes
    decreases if number > l.elapsed then number - l.elapsed else 0
  {
    hide Pass, SelfHit;
    var p := Pass(bus, block, up, regs, l);
    var q := p.(elapsed := l.elapsed + 21);
    PassSlots(bus, block, up, regs, l);
    if !Done(block, regs, p) && !SelfHit(block, up, here, q) && q.elapsed < number {
      CounterLeft(bus, block, up, regs, here, number, q);
    }
  }

  lemma CounterFinal<D>(bus: Bus<D>, s: State<D>, elapsed: int, number: int)
    requires Fetch(s.core.mem, s.pc).Fetched? && Fetch(s.core.mem, s.pc).x.Repeat?
    requires var x := Exited(bus, s, elapsed, number); -65536 < x.l.n
    ensures Exited(bus, s, elapsed, number).passes <= 65536
  {
    hide Fetch, RunLoop;
    var f := Fetch(s.core.mem, s.pc);
    CounterLeft(bus, f.x.block, f.x.up, s.core.regs, Here(s), number,
                Enter(f.x.block, s.core, s.r + f.refresh, elapsed + f.cost));
  }

  /** INIR and OTIR index the 256-entry flag table with the counter they leave: inside the table
      exactly when B is not zero on entry. */
  lemma PortTableIndex<D>(bus: Bus<D>, s: State<D>, up: bool, elapsed: int, number: int)
    requires At(s, Input, up) || At(s, Output, up)
    ensures 0 <= Exited(bus, s, elapsed, number).l.n < 256 <==> B(s.core.regs) != 0
  {
    hide Fetch, RunLoop;
    var f := Fetch(s.core.mem, s.pc);
    CounterLeft(bus, f.x.block, f.x.up, s.core.regs, Here(s), number,
                Enter(f.x.block, s.core, s.r + f.refresh, elapsed + f.cost));
  }

  /** As long as nothing matches and the budget lasts, an exhausted search counter runs on. */
  lemma {:induction false} SearchRunsOn<D>(bus: Bus<D>, up: bool, regs: Registers, here: int, number: int,
                                           l: Loop<D>, i: nat) returns (q: Loop<D>)
    requires l.n <= 0 && NoMatch(l.mem, up, l.hl, regs.a, i) && l.elapsed + 21 * i < number
    ensures q.n == l.n - i
    ensures var x := RunLoop(bus, Compare, up, regs, here, number, q);
      RunLoop(bus, Compare, up, regs, here, number, l) == x.(passes := x.passes + i)
    decreases i
  {
    hide Read;
    q := l;
    if i > 0 {
      var p := Pass(bus, Compare, up, regs, l);
      var l' := p.(elapsed := l.elapsed + 21);
      assert Along(up, l.hl, 0) == l.hl;
      forall k | 0 <= k < i - 1
        ensures Read(l'.mem, Along(up, l'.hl, k)) != regs.a
      {
        assert Along(up, l'.hl, k) == Along(up, l.hl, k + 1);
      }
      assert !Done(Compare, regs, p);
      q := SearchRunsOn(bus, up, regs, here, number, l', i - 1);
    }
  }

  /** CPIR and CPDR are right exactly unless BC is zero, the budget lasts for 65536 iterations and the
      first 65535 bytes do not match. */
  lemma SearchFaithfulIff<D>(bus: Bus<D>, s: State<D>, up: bool, elapsed: int, number: int)
    requires At(s, Compare, up)
    ensures Faithful(bus, s, elapsed, number) <==> !CounterTrap(s, number - elapsed)
  {
    hide Fetch, Read, RunLoop, Steps, Along, Unbroken, Safe, Step, Cost;
    var f, r := Fetch(s.core.mem, s.pc), s.core.regs;
    if CounterTrap(s, number - elapsed) {
      var l := Enter(Compare, s.core, s.r + f.refresh, elapsed + f.cost);
      var q := SearchRunsOn(bus, up, r, Here(s), number, l, 65535);
      CounterLeft(bus, Compare, up, r, Here(s), number, q);
      SearchRun(bus, s, up, 65536);
    } else {
      BlockRefines(bus, s, elapsed, number);
    }
  }

  // An opcode that is not fixed.

  /** With the copy set to put `from` over an alias of opcode byte `a`. */
  ghost function Sabotaged<D>(s: State<D>, alias: word, from: word): State<D> {
    s.(core := s.core.(regs := s.core.regs.(bc := 2, de := alias, hl := from)))
  }

  /** Two passes of the loop, where two steps of the reference machine leave another BC. */
  lemma NotFaithful<D>(bus: Bus<D>, s: State<D>, elapsed: int, number: int)
    requires Fetch(s.core.mem, s.pc).Fetched? && Fetch(s.core.mem, s.pc).x.Repeat?
    requires Exited(bus, s, elapsed, number).passes == 2
    requires Step(bus, s).Tick? && Step(bus, Step(bus, s).s).Tick?
    requires Step(bus, Step(bus, s).s).s.core.regs.bc != Outcome(bus, s, elapsed, number).core.regs.bc
    ensures !Faithful(bus, s, elapsed, number)
  {
    hide Fetch, Step, Exited, Outcome, Steps, Cost;
    StepsAdd(bus, s, 1, 1);
    OneStep(bus, s);
    OneStep(bus, Step(bus, s).s);
  }

  /** The fused loop makes both passes of a two-byte copy. */
  lemma LoadOutcome<D>(bus: Bus<D>, s: State<D>, up: bool)
    requires At(s, Load, up) && s.core.regs.bc == 2 && !OwnOpcode(Here(s), s.core.regs.de)
    ensures var number := Fetch(s.core.mem, s.pc).cost + 100;
      Exited(bus, s, 0, number).passes == 2 && Outcome(bus, s, 0, number).core.regs.bc == 0
  {
    hide Fetch, Read, Write, LoadFlags, RunLoop, OwnOpcode;
    var f := Fetch(s.core.mem, s.pc);
    TwoPasses(bus, up, s.core.regs, Here(s), f.cost + 100, Enter(Load, s.core, s.r + f.refresh, f.cost));
  }

  /** A two-byte copy whose first byte lands, under another name, on the instruction itself: the
      fused loop makes its second pass regardless, and the reference machine does not. */
  lemma AliasBreaksLoad<D>(bus: Bus<D>, s: State<D>, up: bool, alias: word, first: bool)
    requires At(s, Load, up) && !OwnOpcode(Here(s), alias)
    requires var a: word := Word(Here(s) - (if first then 2 else 1));
      Writable(s.core.mem, a) && Decode(s.core.mem, alias) == Decode(s.core.mem, a)
    ensures var t := Sabotaged(s, alias, Word(Here(s) - (if first then 1 else 2)));
      At(t, Load, up) && !Faithful(bus, t, 0, Fetch(s.core.mem, s.pc).cost + 100)
  {
    hide Fetch, Read, Write, Step, LoadFlags, Faithful, Exited, Outcome, Decode, OwnOpcode;
    var f, here, m := Fetch(s.core.mem, s.pc), Here(s), s.core.mem;
    var t := Sabotaged(s, alias, Word(here - (if first then 1 else 2)));
    LoadOutcome(bus, t, up);
    // The reference machine finds something else the second time.
    LoadIteration(bus, t, up);
    RepeatIsEd(m, s.pc);
    Overwritten(s, Load, up, alias, first);
    OtherInstruction(bus, Step(bus, t).s, f.op, Load, up, first);
    NotFaithful(bus, t, 0, f.cost + 100);
  }

  lemma Overwritten<D>(s: State<D>, block: Block, up: bool, alias: word, first: bool)
    requires At(s, block, up)
    requires var a: word := Word(Here(s) - (if first then 2 else 1));
      Writable(s.core.mem, a) && Decode(s.core.mem, alias) == Decode(s.core.mem, a)
    ensures var m, f := s.core.mem, Fetch(s.core.mem, s.pc);
      var m' := Write(m, alias, Read(m, Word(Here(s) - (if first then 1 else 2))));
      && Read(m', Word(Here(s) - 2)) == (if first then f.op else 0xed)
      && (!first ==> Read(m', Word(Here(s) - 2) + 1) == 0xed)
  {
    hide Fetch, Read, Write, Decode;
    var m, here := s.core.mem, Here(s);
    BytesStay(s, m);
    ReadWraps(m, here - 2, 1);
    ReadWraps(m, here - 1, 0);
    var v := Read(m, Word(here - (if first then 1 else 2)));
    var m' := Write(m, alias, v);
    ReadWraps(m', here - 2, 1);
    ReadWraps(m', here - 1, 0);
    var a := Word(here - (if first then 2 else 1));
    SameWritable(m, alias, a);
    ReadAfterWrite(m, alias, v, a);
    ReadAfterWrite(m, alias, v, Word(here - 2));
  }

  lemma SameWritable(m: Memory, a: word, b: word)
    requires Decode(m, a) == Decode(m, b)
    ensures Writable(m, a) == Writable(m, b)
  {
  }

  lemma TwoPasses<D>(bus: Bus<D>, up: bool, regs: Registers, here: int, number: int, l: Loop<D>)
    requires l.n == 2 && l.elapsed + 42 < number && !OwnOpcode(here, l.de)
    ensures var x := RunLoop(bus, Load, up, regs, here, number, l); x.passes == 2 && x.l.n == 0
  {
    hide Read, Write, OwnOpcode;
    var p := Pass(bus, Load, up, regs, l);
    var q := p.(elapsed := l.elapsed + 21);
    assert q.de - Step1(up) == l.de;
    var p2 := Pass(bus, Load, up, regs, q);
    assert p2.n == 0;
    assert RunLoop(bus, Load, up, regs, here, number, q) == Exit(p2.(elapsed := q.elapsed + 16), true, 1);
  }

  /** The second byte of LDIR, LDDR, INIR or INDR twice is OR or CP with a register, and ED twice is
      no instruction: BC stays. */
  lemma OtherInstruction<D>(bus: Bus<D>, u: State<D>, op: byte, block: Block, up: bool, first: bool)
    requires EdInstr(op) == Repeat(block, up) && (block.Load? || block.Input?)
    requires Read(u.core.mem, u.pc) == if first then op else 0xed
    requires !first ==> Read(u.core.mem, u.pc + 1) == 0xed
    ensures Step(bus, u).Tick? && Step(bus, u).s.core.regs.bc == u.core.regs.bc
  {
    hide Read, Fetch, Step, Exec, Operands, EdInstr;
    OtherFetch(u.core.mem, u.pc, op, block, up, first);
    StepCore(bus, u);
    var f := Fetch(u.core.mem, u.pc);
    var c := Operands(u.core.mem, f, u.pc + f.len, u.r + f.refresh);
    if first {
      AluKeepsBc(bus, c, u.core);
    } else {
      UndefinedKeepsBc(bus, c, u.core);
    }
  }

  lemma StepCore<D>(bus: Bus<D>, u: State<D>)
    requires Fetch(u.core.mem, u.pc).Fetched?
    ensures var f := Fetch(u.core.mem, u.pc);
      var c := Operands(u.core.mem, f, u.pc + f.len, u.r + f.refresh);
      Step(bus, u).Tick? && Step(bus, u).s.core == Exec(bus, f.x, c, u.core).core
  {
    hide Read, Fetch, Step, Exec, Operands;
    StepOf(bus, u);
  }

  lemma OtherFetch(m: Memory, pc: int, op: byte, block: Block, up: bool, first: bool)
    requires EdInstr(op) == Repeat(block, up) && (block.Load? || block.Input?)
    requires Read(m, pc) == if first then op else 0xed
    requires !first ==> Read(m, pc + 1) == 0xed
    ensures Fetch(m, pc).Fetched? && Fetch(m, pc).x == if first then AluR else EdUndefined
  {
    hide Read;
    assert op == 0xb0 || op == 0xb8 || op == 0xb2 || op == 0xba;
    assert PrefixCount(m, pc, 65536) == 0;
    hide PrefixCount;
  }

  lemma AluKeepsBc<D>(bus: Bus<D>, c: Code, m: Core<D>)
    ensures Exec(bus, AluR, c, m).core.regs.bc == m.regs.bc
  {
    hide Apply, Get8, Read;
  }

  lemma UndefinedKeepsBc<D>(bus: Bus<D>, c: Code, m: Core<D>)
    ensures Exec(bus, EdUndefined, c, m).core.regs.bc == m.regs.bc
  {
  }

  ghost function WithRegs<D>(s: State<D>, r: Registers): State<D> { s.(core := s.core.(regs := r)) }

  /** An alias of one opcode byte is not the other: the two bytes differ. */
  lemma AliasNotOwn<D>(s: State<D>, block: Block, up: bool, alias: word, first: bool)
    requires At(s, block, up)
    requires var a: word := Word(Here(s) - (if first then 2 else 1));
      alias != a && Decode(s.core.mem, alias) == Decode(s.core.mem, a)
    ensures !OwnOpcode(Here(s), alias)
  {
    hide Fetch, Decode;
    BytesStay(s, s.core.mem);
    ReadWraps(s.core.mem, Here(s) - 2, 1);
    ReadWraps(s.core.mem, Here(s) - 1, 0);
    RepeatIsEd(s.core.mem, s.pc);
    assert Read(s.core.mem, alias) == Read(s.core.mem, Word(Here(s) - (if first then 2 else 1)));
  }

  /** LDIR and LDDR are right for all registers and budgets, a zero BC included, exactly when no
      other address can change their opcode bytes. */
  lemma LoadFaithfulIff<D>(bus: Bus<D>, s: State<D>, up: bool)
    requires At(s, Load, up)
    ensures (forall r: Registers, e: int, n: int :: Faithful(bus, WithRegs(s, r), e, n))
       <==> Protected(s.core.mem, Word(Here(s) - 2)) && Protected(s.core.mem, Word(Here(s) - 1))
  {
    hide Fetch, Faithful, Decode, Steps, Cost, Unbroken;
    var m, here := s.core.mem, Here(s);
    if Protected(m, Word(here - 2)) && Protected(m, Word(here - 1)) {
      forall r: Registers, e: int, n: int
        ensures Faithful(bus, WithRegs(s, r), e, n)
      {
        LoadFaithful(bus, WithRegs(s, r), up, e, n);
      }
    } else {
      var first := !Protected(m, Word(here - 2));
      var alias: word :| Decode(m, alias) == Decode(m, Word(here - (if first then 2 else 1)))
                         && alias != Word(here - (if first then 2 else 1));
      AliasNotOwn(s, Load, up, alias, first);
      AliasBreaksLoad(bus, s, up, alias, first);
      var t := Sabotaged(s, alias, Word(here - (if first then 1 else 2)));
      assert t == WithRegs(s, t.core.regs);
    }
  }

  lemma LoadFaithful<D>(bus: Bus<D>, s: State<D>, up: bool, elapsed: int, number: int)
    requires At(s, Load, up)
    requires Protected(s.core.mem, Word(Here(s) - 2)) && Protected(s.core.mem, Word(Here(s) - 1))
    ensures Faithful(bus, s, elapsed, number)
  {
    hide Fetch, Protected, Steps, Cost, Unbroken, Exited, Outcome;
    BlockRefines(bus, s, elapsed, number);
  }

  // INIR and INDR: the devices choose the bytes.

  /** Devices that answer every read with `v`. */
  function Answering<D>(v: byte): Bus<D> { Bus((d, port) => (d, v), (d, port, data) => d) }

  lemma InputIteration<D>(bus: Bus<D>, s: State<D>, up: bool)
    requires At(s, Input, up) && B(s.core.regs) == 2
    ensures var r, m, t := s.core.regs, s.core.mem, Step(bus, s);
      && t.Tick? && t.s.pc == Word(Here(s) - 2) && B(t.s.core.regs) == 1
      && t.s.core.mem == Write(m, r.hl, bus.input(s.core.dev, C(r)).1)
  {
    hide Fetch, Step, Read, Write, PortFlags, Hi, Lo, Pair;
    StepOfRepeat(bus, s);
    ByteParts(2, C(s.core.regs));
  }

  lemma TwoInputs<D>(bus: Bus<D>, up: bool, regs: Registers, here: int, number: int, l: Loop<D>)
    requires l.n == 2 && l.elapsed + 42 < number && !OwnOpcode(here, l.hl)
    ensures var x := RunLoop(bus, Input, up, regs, here, number, l); x.passes == 2 && x.l.n == 0
  {
    hide Read, Write, OwnOpcode;
    var p := Pass(bus, Input, up, regs, l);
    var q := p.(elapsed := l.elapsed + 21);
    assert q.hl - Step1(up) == l.hl;
    var p2 := Pass(bus, Input, up, regs, q);
    assert p2.n == 0;
    assert RunLoop(bus, Input, up, regs, here, number, q) == Exit(p2.(elapsed := q.elapsed + 16), true, 1);
  }

  /** Two bytes input, the first of them to an alias of the opcode. */
  ghost function Misled<D>(s: State<D>, alias: word): State<D> {
    WithRegs(s, s.core.regs.(bc := 0x200, hl := alias))
  }

  lemma InputOutcome<D>(bus: Bus<D>, s: State<D>, up: bool)
    requires At(s, Input, up) && B(s.core.regs) == 2 && !OwnOpcode(Here(s), s.core.regs.hl)
    ensures var number := Fetch(s.core.mem, s.pc).cost + 100;
      Exited(bus, s, 0, number).passes == 2 && B(Outcome(bus, s, 0, number).core.regs) == 0
  {
    hide Fetch, Read, Write, PortFlags, RunLoop, OwnOpcode, Hi, Lo, Pair;
    var f := Fetch(s.core.mem, s.pc);
    TwoInputs(bus, up, s.core.regs, Here(s), f.cost + 100, Enter(Input, s.core, s.r + f.refresh, f.cost));
    PairParts(0, C(s.core.regs));
  }

  lemma AliasBreaksInput<D>(s: State<D>, up: bool, alias: word, first: bool)
    requires At(s, Input, up) && !OwnOpcode(Here(s), alias)
    requires var a: word := Word(Here(s) - (if first then 2 else 1));
      Writable(s.core.mem, a) && Decode(s.core.mem, alias) == Decode(s.core.mem, a)
    ensures var v := Read(s.core.mem, Word(Here(s) - (if first then 1 else 2)));
      !Faithful(Answering(v), Misled(s, alias), 0, Fetch(s.core.mem, s.pc).cost + 100)
  {
    hide Fetch, Read, Write, Step, Faithful, Exited, Outcome, Decode, OwnOpcode, PortFlags;
    var f, here, m := Fetch(s.core.mem, s.pc), Here(s), s.core.mem;
    var bus: Bus<D>, t := Answering(Read(m, Word(here - (if first then 1 else 2)))), Misled(s, alias);
    InputOutcome(bus, t, up);
    InputIteration(bus, t, up);
    RepeatIsEd(m, s.pc);
    Overwritten(s, Input, up, alias, first);
    OtherInstruction(bus, Step(bus, t).s, f.op, Input, up, first);
    NotFaithful(bus, t, 0, f.cost + 100);
  }

  lemma InputFaithful<D>(bus: Bus<D>, s: State<D>, up: bool, elapsed: int, number: int)
    requires At(s, Input, up) && B(s.core.regs) != 0
    requires Protected(s.core.mem, Word(Here(s) - 2)) && Protected(s.core.mem, Word(Here(s) - 1))
    ensures Faithful(bus, s, elapsed, number)
  {
    hide Fetch, Protected, Steps, Cost, Unbroken, Exited, Outcome;
    BlockRefines(bus, s, elapsed, number);
  }

  /** INIR and INDR are right for all devices, budgets and registers with B not zero exactly when no
      other address can change their opcode bytes. */
  lemma InputFaithfulIff<D>(s: State<D>, up: bool)
    requires At(s, Input, up)
    ensures (forall bus: Bus<D>, r: Registers, e: int, n: int :: B(r) != 0 ==> Faithful(bus, WithRegs(s, r), e, n))
       <==> Protected(s.core.mem, Word(Here(s) - 2)) && Protected(s.core.mem, Word(Here(s) - 1))
  {
    hide Fetch, Faithful, Decode, Steps, Cost, Unbroken;
    var m, here := s.core.mem, Here(s);
    if Protected(m, Word(here - 2)) && Protected(m, Word(here - 1)) {
      forall bus: Bus<D>, r: Registers, e: int, n: int | B(r) != 0
        ensures Faithful(bus, WithRegs(s, r), e, n)
      {
        InputFaithful(bus, WithRegs(s, r), up, e, n);
      }
    } else {
      var first := !Protected(m, Word(here - 2));
      var alias: word :| Decode(m, alias) == Decode(m, Word(here - (if first then 2 else 1)))
                         && alias != Word(here - (if first then 2 else 1));
      AliasNotOwn(s, Input, up, alias, first);
      AliasBreaksInput(s, up, alias, first);
      assert B(Misled(s, alias).core.regs) == 2;
    }
  }

  // OTIR and OTDR: an output that remaps the page of the opcode.

  lemma OutputIteration<D>(bus: Bus<D>, s: State<D>, up: bool)
    requires At(s, Output, up) && B(s.core.regs) == 2
    ensures var r, m, t := s.core.regs, s.core.mem, Step(bus, s);
      && t.Tick? && t.s.pc == Word(Here(s) - 2) && B(t.s.core.regs) == 1
      && t.s.core.mem == MapPort(m, C(r), Read(m, r.hl))
  {
    hide Fetch, Step, Read, MapPort, PortFlags, Hi, Lo, Pair;
    StepOfRepeat(bus, s);
    ByteParts(2, C(s.core.regs));
  }

  lemma TwoOutputs<D>(bus: Bus<D>, up: bool, regs: Registers, here: int, number: int, l: Loop<D>)
    requires l.n == 2 && l.elapsed + 42 < number
    ensures var x := RunLoop(bus, Output, up, regs, here, number, l); x.passes == 2 && x.l.n == 0
  {
    hide Read, MapPort;
    var q := Pass(bus, Output, up, regs, l).(elapsed := l.elapsed + 21);
    var p2 := Pass(bus, Output, up, regs, q);
    assert RunLoop(bus, Output, up, regs, here, number, q) == Exit(p2.(elapsed := q.elapsed + 16), true, 1);
  }

  /** A NOP, or ED and then a NOP: no instruction that touches BC. */
  predicate Gone(m: Memory, pc: int) { Read(m, pc) == 0 || (Read(m, pc) == 0xed && Read(m, pc + 1) == 0) }

  lemma GoneFetch(m: Memory, pc: int)
    requires Gone(m, pc)
    ensures Fetch(m, pc).Fetched? && Fetch(m, pc).x == if Read(m, pc) == 0 then Nop else EdUndefined
  {
    hide Read;
    assert PrefixCount(m, pc, 65536) == 0;
    hide PrefixCount;
  }

  lemma NopKeepsBc<D>(bus: Bus<D>, c: Code, m: Core<D>)
    ensures Exec(bus, Nop, c, m).core.regs.bc == m.regs.bc
  {
  }

  lemma GoneKeepsBc<D>(bus: Bus<D>, u: State<D>)
    requires Gone(u.core.mem, u.pc)
    ensures Step(bus, u).Tick? && Step(bus, u).s.core.regs.bc == u.core.regs.bc
  {
    hide Read, Fetch, Step, Exec, Operands;
    GoneFetch(u.core.mem, u.pc);
    StepOf(bus, u);
    var f := Fetch(u.core.mem, u.pc);
    var c := Operands(u.core.mem, f, u.pc + f.len, u.r + f.refresh);
    NopKeepsBc(bus, c, u.core);
    UndefinedKeepsBc(bus, c, u.core);
  }

  lemma OutputOutcome<D>(bus: Bus<D>, s: State<D>, up: bool)
    requires At(s, Output, up) && B(s.core.regs) == 2
    ensures var number := Fetch(s.core.mem, s.pc).cost + 100;
      Exited(bus, s, 0, number).passes == 2 && B(Outcome(bus, s, 0, number).core.regs) == 0
  {
    hide Fetch, Read, MapPort, PortFlags, RunLoop, Hi, Lo, Pair;
    var f := Fetch(s.core.mem, s.pc);
    TwoOutputs(bus, up, s.core.regs, Here(s), f.cost + 100, Enter(Output, s.core, s.r + f.refresh, f.cost));
    PairParts(0, C(s.core.regs));
  }

  /** When the first of two outputs puts a page in place that no longer shows the opcode, the fused
      loop makes the second output all the same, and the reference machine does not. */
  lemma RemapBreaksOutput<D>(bus: Bus<D>, s: State<D>, up: bool)
    requires At(s, Output, up) && B(s.core.regs) == 2
    requires var m, r := s.core.mem, s.core.regs; Gone(MapPort(m, C(r), Read(m, r.hl)), Word(Here(s) - 2))
    ensures !Faithful(bus, s, 0, Fetch(s.core.mem, s.pc).cost + 100)
  {
    hide Fetch, Read, MapPort, Step, Faithful, Exited, Outcome, Gone;
    OutputOutcome(bus, s, up);
    OutputIteration(bus, s, up);
    GoneKeepsBc(bus, Step(bus, s).s);
    NotFaithful(bus, s, 0, Fetch(s.core.mem, s.pc).cost + 100);
  }

  /** Memory with zero in one cell and `v` in another. */
  function Planted(m: Memory, zero: nat, cell: nat, v: byte): Memory
    requires zero < RAM_SIZE && cell < RAM_SIZE
  {
    m.(ram := m.ram[zero := 0][cell := v])
  }

  lemma PlantedRead(m: Memory, zero: nat, cell: nat, v: byte, a: word)
    requires zero < RAM_SIZE && cell < RAM_SIZE && zero != cell
    ensures Read(Planted(m, zero, cell, v), a)
         == if Decode(m, a) == cell then v else if Decode(m, a) == zero then 0 else Read(m, a)
  {
    BankSafety(m, a);
  }

  /** With main page `p` mapped into its slot, `a` shows the zero planted there. */
  lemma PlantedShows(m: Memory, zero: nat, cell: nat, p: page, port: byte, a: word)
    requires p < 3 && zero == p * 0x4000 + a % SLOT_SIZE && zero != cell < RAM_SIZE
    requires port / 16 == 10 && port % 4 == a / SLOT_SIZE
    ensures Read(MapPort(Planted(m, zero, cell, p), port, p), a) == 0
  {
  }

  /** A page that shows more than one byte shows at least four. */
  lemma WideSlot(m: Memory, j: nat, i: nat) returns (a: word)
    requires j < 4 && i < 4 && PageSize(m.slots[j]) > 1
    ensures Decode(m, a) == PageBase(m.slots[j]) + i
  {
    a := j * SLOT_SIZE + i;
    assert a / SLOT_SIZE == j && a % SLOT_SIZE == i;
  }

  lemma WideExists(m: Memory, a: word, b: word) returns (j: nat)
    requires Decode(m, a) != Decode(m, b)
    ensures j < 4 && PageSize(m.slots[j]) > 1
  {
    j := if PageSize(m.slots[a / SLOT_SIZE]) > 1 then a / SLOT_SIZE else b / SLOT_SIZE;
  }

  /** Two addresses that show different cells: some address shows none of three given cells. */
  lemma SpareAddress(m: Memory, a: word, b: word, x: nat, y: nat, z: nat) returns (hl: word)
    requires Decode(m, a) != Decode(m, b)
    ensures Decode(m, hl) != x && Decode(m, hl) != y && Decode(m, hl) != z
  {
    hide Decode, PageSize, PageBase;
    var j := WideExists(m, a, b);
    var base := PageBase(m.slots[j]);
    hl := WideSlot(m, j, if base !in {x, y, z} then 0 else if base + 1 !in {x, y, z} then 1
                         else if base + 2 !in {x, y, z} then 2 else 3);
  }

  /** A main page in which the cell that `a` would show is not one of two given cells. */
  lemma SparePage(a: word, x: nat, y: nat) returns (p: page)
    ensures p < 3 && p * 0x4000 + a % SLOT_SIZE != x && p * 0x4000 + a % SLOT_SIZE != y
  {
    var rel := a % SLOT_SIZE;
    p := if rel != x && rel != y then 0 else if 0x4000 + rel != x && 0x4000 + rel != y then 1 else 2;
  }

  lemma DifferentCells(m: Memory, a: word, b: word)
    requires Read(m, a) != Read(m, b)
    ensures Decode(m, a) != Decode(m, b) && Decode(m, a) < RAM_SIZE && Decode(m, b) < RAM_SIZE
  {
    BankSafety(m, a);
    BankSafety(m, b);
  }

  /** Memory under the same map, with the opcode at `a` and `b` in place and a byte at `hl` that maps
      it away. */
  lemma Ambush(m: Memory, port: byte, a: word, b: word) returns (m': Memory, hl: word)
    requires port / 16 == 10 && (port % 4 == a / SLOT_SIZE || port % 4 == b / SLOT_SIZE)
    requires Read(m, a) == 0xed && Read(m, b) != 0xed
    ensures m'.slots == m.slots && Read(m', a) == 0xed && Read(m', b) == Read(m, b)
    ensures var n := MapPort(m', port, Read(m', hl)); Read(n, a) == 0 || (Read(n, a) == 0xed && Read(n, b) == 0)
  {
    hide Read, Decode, MapPort, Planted;
    var first := port % 4 == a / SLOT_SIZE;
    var at := if first then a else b;
    DifferentCells(m, a, b);
    var p := SparePage(at, Decode(m, a), Decode(m, b));
    var zero: nat := p * 0x4000 + at % SLOT_SIZE;
    hl := SpareAddress(m, a, b, Decode(m, a), Decode(m, b), zero);
    var cell := Decode(m, hl);
    BankSafety(m, hl);
    m' := Planted(m, zero, cell, p);
    PlantedRead(m, zero, cell, p, a);
    PlantedRead(m, zero, cell, p, b);
    PlantedRead(m, zero, cell, p, hl);
    PlantedShows(m, zero, cell, p, port, at);
    PlantedMap(m, zero, cell, p);
    if !first {
      MapElsewhere(m', port, p, a);
    }
  }

  lemma PlantedMap(m: Memory, zero: nat, cell: nat, v: byte)
    requires zero < RAM_SIZE && cell < RAM_SIZE
    ensures Planted(m, zero, cell, v).slots == m.slots
  {
  }

  /** The same instruction at the same place under the same page map, with other memory, registers
      and prefixes. */
  ghost predicate Likewise<D>(s: State<D>, t: State<D>, up: bool)
    requires At(s, Output, up)
  {
    hide Fetch;
    At(t, Output, up) && t.core.mem.slots == s.core.mem.slots && Word(Here(t)) == Word(Here(s))
    && C(t.core.regs) == C(s.core.regs) && B(t.core.regs) != 0
  }

  lemma AmbushState<D>(s: State<D>, up: bool) returns (t: State<D>)
    requires At(s, Output, up) && !Stays(C(s.core.regs), Here(s))
    ensures Likewise(s, t, up) && B(t.core.regs) == 2
    ensures Gone(MapPort(t.core.mem, C(t.core.regs), Read(t.core.mem, t.core.regs.hl)), Word(Here(t) - 2))
  {
    hide Fetch, Read, MapPort, Hi, Lo, Pair;
    var m, here, port := s.core.mem, Here(s), C(s.core.regs);
    var a, b := Word(here - 2), Word(here - 1);
    BytesStay(s, m);
    RepeatIsEd(m, s.pc);
    ReadWraps(m, here - 2, 1);
    ReadWraps(m, here - 1, 0);
    var m', hl := Ambush(m, port, a, b);
    t := State(Core(s.core.regs.(bc := Pair(2, port), hl := hl), m', s.core.dev), a, 0);
    PairParts(2, port);
    ReadWraps(m', here - 2, 1);
    ReadWraps(m', here - 1, 0);
    FetchAgain(m', a, Fetch(m, s.pc).op);
    WordAbsorbs(here - 2, 2);
    assert Word(Here(t)) == Word(here) && Word(Here(t) - 2) == a;
    var n := MapPort(m', port, Read(m', hl));
    ReadWraps(n, here - 2, 1);
    ReadWraps(n, here - 1, 0);
  }

  lemma OutputFaithful<D>(bus: Bus<D>, t: State<D>, up: bool, elapsed: int, number: int)
    requires At(t, Output, up) && B(t.core.regs) != 0 && Stays(C(t.core.regs), Here(t))
    ensures Faithful(bus, t, elapsed, number)
  {
    hide Fetch, Stays, Steps, Cost, Unbroken, Exited, Outcome;
    BlockRefines(bus, t, elapsed, number);
  }

  lemma StaysWraps(port: byte, here: int, here': int)
    requires Word(here) == Word(here')
    ensures Stays(port, here) == Stays(port, here')
  {
    WordAbsorbs(here, -2);
    WordAbsorbs(here', -2);
    WordAbsorbs(here, -1);
    WordAbsorbs(here', -1);
  }

  /** OTIR and OTDR with B not zero are right for all devices, budgets, memory contents and other
      registers exactly when their port does not remap a slot that holds a byte of their opcode. */
  lemma OutputFaithfulIff<D>(s: State<D>, up: bool)
    requires At(s, Output, up)
    ensures (forall bus: Bus<D>, t: State<D>, e: int, n: int :: Likewise(s, t, up) ==> Faithful(bus, t, e, n))
       <==> Stays(C(s.core.regs), Here(s))
  {
    hide Fetch, Stays, Faithful, Gone, MapPort, Read;
    if Stays(C(s.core.regs), Here(s)) {
      forall bus: Bus<D>, t: State<D>, e: int, n: int | Likewise(s, t, up)
        ensures Faithful(bus, t, e, n)
      {
        StaysWraps(C(s.core.regs), Here(s), Here(t));
        OutputFaithful(bus, t, up, e, n);
      }
    } else {
      var t := AmbushState(s, up);
      var bus: Bus<D> := Answering(0);
      RemapBreaksOutput(bus, t, up);
    }
  }

  /** A check on one step that keeps `Emulate` on the reference trajectory: a repeating instruction
      has a fixed opcode and, LDIR apart, a nonzero counter. */
  lemma FixedStepIsNoTrap<D>(bus: Bus<D>, s: State<D>, left: int)
    requires var f, r := Fetch(s.core.mem, s.pc), s.core.regs;
      f.Fetched? && f.x.Repeat? ==>
        && Fixed(f.x.block, s.core.mem, r, Here(s))
        && (f.x.block.Compare? ==> r.bc != 0) && (f.x.block.Input? || f.x.block.Output? ==> B(r) != 0)
    ensures !Trap(bus, s, left)
  {
    hide Fetch, Fixed, AliasTrap, NoMatch;
    var f := Fetch(s.core.mem, s.pc);
    if f.Fetched? && f.x.Repeat? {
      FixedOpcode(bus, s, f.x.block, f.x.up);
    } else {
      assert !AliasTrap(bus, s) by { NoRepeatNoTrap(bus, s); }
    }
  }

  lemma NoRepeatNoTrap<D>(bus: Bus<D>, s: State<D>)
    requires var f := Fetch(s.core.mem, s.pc); !(f.Fetched? && f.x.Repeat?)
    ensures !AliasTrap(bus, s)
  {
    hide Fetch, Step, Read;
  }

  /** Distinct full pages in the four slots protect every address. */
  lemma DistinctPagesProtect(m: Memory, a: word)
    requires forall i, j :: 0 <= i < j < 4 ==> m.slots[i] != m.slots[j]
    requires forall i :: 0 <= i < 4 ==> FullPage(m.slots[i])
    ensures Protected(m, a)
  {
    hide Decode, FullPage;
    DistinctFullPagesAreSole(m, a);
  }
}
