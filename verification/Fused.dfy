/** The fused inner loops of LDIR, CPIR, INIR, OTIR and their downward forms, as coded: counters and
    pointers are plain ints, the opcode is fetched once, and a cycle budget may cut the loop. */
module Fused {
  import opened Words
  import opened BankedMemory
  import opened Alu
  import opened Instructions
  import opened Machine

  /** The loop's locals; `n` is the counter (BC or B) and `v` the last byte moved. */
  datatype Loop<D> = Loop(n: int, de: int, hl: int, mem: Memory, dev: D, v: byte, r: int, elapsed: int)

  datatype Exit<D> = Exit(l: Loop<D>, done: bool, passes: nat)

  /** The loop on entry, before its first pass: two R counts and eight cycles are taken back. */
  function Enter<D>(block: Block, m: Core<D>, r: int, elapsed: int): Loop<D> {
    var n := if block.Load? || block.Compare? then m.regs.bc else B(m.regs);
    Loop(n, m.regs.de, m.regs.hl, m.mem, m.dev, 0, r - 2, elapsed - 8)
  }

  /** One pass of the loop body, up to the decremented counter. */
  function Pass<D>(bus: Bus<D>, block: Block, up: bool, regs: Registers, l: Loop<D>): Loop<D> {
    var d := Step1(up);
    match block
    case Load =>
      var v := Read(l.mem, l.hl);
      l.(n := l.n - 1, de := l.de + d, hl := l.hl + d, mem := Write(l.mem, l.de, v), v := v, r := l.r + 2)
    case Compare =>
      l.(n := l.n - 1, hl := l.hl + d, v := Read(l.mem, l.hl), r := l.r + 2)
    case Input =>
      var (dev, v) := bus.input(l.dev, C(regs));
      l.(n := l.n - 1, hl := l.hl + d, mem := Write(l.mem, l.hl, v), dev := dev, v := v, r := l.r + 2)
    case Output =>
      var v := Read(l.mem, l.hl);
      l.(n := l.n - 1, hl := l.hl + d, mem := MapPort(l.mem, C(regs), v),
         dev := bus.output(l.dev, C(regs), v), v := v, r := l.r + 2)
  }

  /** The counter is spent, or the search has found A. */
  predicate Done<D>(block: Block, regs: Registers, l: Loop<D>) {
    l.n == 0 || (block.Compare? && regs.a == l.v)
  }

  /** `a` is one of the two opcode bytes that end at `here`. */
  predicate OwnOpcode(here: int, a: int) {
    Word(a) == Word(here - 2) || Word(a) == Word(here - 1)
  }

  /** The pass just made wrote over the instruction's own opcode. */
  predicate SelfHit<D>(block: Block, up: bool, here: int, l: Loop<D>) {
    match block
    case Load => OwnOpcode(here, l.de - Step1(up))
    case Input => OwnOpcode(here, l.hl - Step1(up))
    case _ => false
  }

  function RunLoop<D>(bus: Bus<D>, block: Block, up: bool, regs: Registers, here: int, number: int, l: Loop<D>)
    : Exit<D>
    decreases if number > l.elapsed then number - l.elapsed else 0
  {
    hide Pass;
    var p := Pass(bus, block, up, regs, l);
    if Done(block, regs, p) then Exit(p.(elapsed := l.elapsed + 16), true, 1)
    else
      var q := p.(elapsed := l.elapsed + 21);
      if SelfHit(block, up, here, q) || q.elapsed >= number then Exit(q, false, 1)
      else
        var x := RunLoop(bus, block, up, regs, here, number, q);
        x.(passes := x.passes + 1)
  }

  /** The registers stored back from the locals; `more` is the P/V flag of LDIR. */
  function StoreBack<D>(block: Block, up: bool, regs: Registers, l: Loop<D>, more: bool): Registers {
    match block
    case Load =>
      regs.(bc := Word(l.n), de := Word(l.de), hl := Word(l.hl), f := LoadFlags(regs.f, regs.a, l.v, more))
    case Compare =>
      regs.(bc := Word(l.n), hl := Word(l.hl), f := SearchFlags(regs.f, regs.a, l.v, l.n != 0))
    case Input =>
      SetB(regs, Byte(l.n)).(hl := Word(l.hl), f := PortFlags(Byte(l.n), l.v, Byte(C(regs) + Step1(up))))
    case Output =>
      SetB(regs, Byte(l.n)).(hl := Word(l.hl), f := PortFlags(Byte(l.n), l.v, Lo(Word(l.hl))))
  }

  /** The state after the whole fused instruction whose opcode ends at `here`. */
  function After<D>(block: Block, up: bool, regs: Registers, here: int, x: Exit<D>): State<D> {
    State(Core(StoreBack(block, up, regs, x.l, !x.done), x.l.mem, x.l.dev),
          if x.done then here else here - 2, x.l.r)
  }

  // When a fused loop is the same as fetching its opcode again for every iteration.

  /** The address the next iteration writes to, if any. */
  function Target(block: Block, r: Registers): Option<word> {
    match block case Load => Some(r.de) case Input => Some(r.hl) case _ => None
  }

  /** The iteration at `s` leaves the instruction unfinished and changes its opcode bytes without
      writing to their addresses: through an alias, or by an output that remaps the page. */
  ghost predicate AliasTrap<D>(bus: Bus<D>, s: State<D>) {
    hide Fetch, Step, Read;
    var f := Fetch(s.core.mem, s.pc);
    f.Fetched? && f.x.Repeat? &&
    var t := Step(bus, s);
    t.Tick? && Unfinished(f.x.block, t.s.core.regs)
    && (var w := Target(f.x.block, s.core.regs); w.Some? ==> !OwnOpcode(s.pc + f.len, w.value))
    && !(Read(t.s.core.mem, t.s.pc) == 0xed && Read(t.s.core.mem, t.s.pc + 1) == f.op)
  }

  /** The address `i` steps along. */
  function Along(up: bool, a: int, i: int): int { if up then a + i else a - i }

  /** The address `i` steps back. */
  function Behind(up: bool, a: int, i: int): int { if up then a - i else a + i }

  ghost predicate NoMatch(m: Memory, up: bool, hl: int, a: byte, n: nat) {
    hide Read;
    forall i :: 0 <= i < n ==> Read(m, Along(up, hl, i)) != a
  }

  /** A zero counter that the int arithmetic gets wrong. INIR and OTIR index the flag table with a
      negative number; CPIR counts past 65536 if the budget lasts and nothing matches. LDIR is
      safe: it meets its own opcode first. */
  ghost predicate CounterTrap<D>(s: State<D>, left: int) {
    hide Fetch, NoMatch;
    var f, r := Fetch(s.core.mem, s.pc), s.core.regs;
    f.Fetched? && f.x.Repeat? &&
    match f.x.block
    case Load => false
    case Compare =>
      r.bc == 0 && left - f.cost + 8 > 21 * 65535 && NoMatch(s.core.mem, f.x.up, r.hl, r.a, 65535)
    case _ => B(r) == 0
  }

  ghost predicate Trap<D>(bus: Bus<D>, s: State<D>, left: int) {
    AliasTrap(bus, s) || CounterTrap(s, left)
  }

  /** No trap at any of the next `k` steps that the run gets to make. */
  ghost predicate Safe<D>(bus: Bus<D>, s: State<D>, left: int, k: nat)
    decreases k
  {
    hide Step, Trap;
    k == 0 ||
    (!Trap(bus, s, left) &&
     var t := Step(bus, s);
     t.Tick? && !Stops(t, left) ==> Safe(bus, t.s, Left(t, left), k - 1))
  }

  lemma SafeOnce<D>(bus: Bus<D>, s: State<D>, left: int, k: nat)
    requires k > 0 && !Trap(bus, s, left)
    requires var t := Step(bus, s); t.Tick? && !Stops(t, left) ==> Safe(bus, t.s, Left(t, left), k - 1)
    ensures Safe(bus, s, left, k)
  {
    hide Trap, Step;
  }

  /** The next `n` steps are ordinary ones, and none before the last uses up the budget. */
  ghost predicate Unbroken<D>(bus: Bus<D>, s: State<D>, left: int, n: nat)
    decreases n
  {
    hide Step;
    n == 0 ||
    (var t := Step(bus, s);
     t.Tick? && t.signal.Plain? && (n > 1 ==> Left(t, left) > 0 && Unbroken(bus, t.s, Left(t, left), n - 1)))
  }

  /** The registers of the reference machine agree with the loop's locals. */
  predicate Agrees<D>(block: Block, regs: Registers, l: Loop<D>, r: Registers) {
    match block
    case Load =>
      && r == regs.(bc := Word(l.n), de := Word(l.de), hl := Word(l.hl), f := r.f)
      && r.f.s == regs.f.s && r.f.z == regs.f.z && r.f.c == regs.f.c
    case Compare =>
      r == regs.(bc := Word(l.n), hl := Word(l.hl), f := r.f) && r.f.c == regs.f.c
    case _ =>
      r == SetB(regs, Byte(l.n)).(hl := Word(l.hl), f := r.f)
  }

  /** What is known of the counter at the top of the loop. Zero or negative means that the loop was
      entered with zero and has made `-n` passes. */
  ghost predicate CounterOk<D>(block: Block, up: bool, regs: Registers, here: int, number: int, l: Loop<D>) {
    hide NoMatch;
    match block
    case Load =>
      l.n < 65536 && forall i :: 0 < i <= -l.n ==> !OwnOpcode(here, Behind(up, l.de, i))
    case Compare =>
      && l.n < 65536
      && (l.n < 0 ==> l.elapsed < number)
      && (l.n <= 0 ==> NoMatch(l.mem, up, Behind(up, l.hl, -l.n), regs.a, -l.n))
      && (l.n <= 0 ==> number - (l.elapsed + 21 * l.n) <= 21 * 65535
                       || !NoMatch(l.mem, up, Behind(up, l.hl, -l.n), regs.a, 65535))
    case _ => 0 < l.n < 256
  }

  lemma StepsBack(up: bool, a: int, b: int) returns (i: int)
    ensures i == Word(if up then a - b else b - a) && Word(Behind(up, a, i)) == Word(b)
  {
    i := Word(if up then a - b else b - a);
    WordAbsorbs(b - a, a);
    assert (a - b) % 65536 == a - b - 65536 * ((a - b) / 65536);
    assert Word(b) == Word(b + 65536 * ((a - b) / 65536));
  }

  lemma NoMatchSooner(m: Memory, up: bool, hl: int, a: byte, n: nat, k: nat)
    requires NoMatch(m, up, hl, a, n) && k <= n
    ensures NoMatch(m, up, hl, a, k)
  {
    hide Read;
  }

  lemma NotPast65536<D>(block: Block, up: bool, regs: Registers, here: int, number: int, l: Loop<D>)
    requires CounterOk(block, up, regs, here, number, l)
    ensures -65535 < l.n
  {
    hide Read, NoMatch;
    match block {
      case Load =>
        // Of two distinct addresses, stepping back from anywhere meets one within 65535 steps.
        var p := StepsBack(up, l.de, here - 2);
        var q := StepsBack(up, l.de, here - 1);
        var i := if p != 0 then p else q;
        assert 0 < i <= 65535 && OwnOpcode(here, Behind(up, l.de, i));
      case Compare =>
        if l.n <= -65535 {
          NoMatchSooner(l.mem, up, Behind(up, l.hl, -l.n), regs.a, -l.n, 65535);
          assert false;
        }
      case _ =>
    }
  }

  lemma Writes(m: Memory, a: int, v: byte)
    ensures Write(m, Word(a), v) == Write(m, a, v) && Read(m, Word(a)) == Read(m, a)
  {
  }

  lemma ByteParts(n: int, lo: byte)
    requires 0 < n < 256
    ensures Byte(n) == n && Byte(n - 1) == n - 1
    ensures Hi(Pair(n, lo)) == n && Lo(Pair(n, lo)) == lo
    ensures Hi(Pair(n - 1, lo)) == n - 1 && Lo(Pair(n - 1, lo)) == lo
  {
    PairParts(n, lo);
    PairParts(n - 1, lo);
  }

  /** A pass and an iteration of the reference machine have the same result, and the loop ends
      exactly when the reference iteration is the last. */
  ghost predicate SamePass<D>(bus: Bus<D>, block: Block, up: bool, regs: Registers, l: Loop<D>, m: Core<D>) {
    var p := Pass(bus, block, up, regs, l);
    var e := ExecSingle(bus, block, up, m).core;
    && e == Core(StoreBack(block, up, regs, p, p.n != 0), p.mem, p.dev)
    && Unfinished(block, e.regs) == !Done(block, regs, p)
  }

  lemma WordZero(n: int)
    requires -65536 < n < 65536
    ensures Word(n) == 0 <==> n == 0
  {
  }

  /** LDI and LDD look at three of the old flags only. */
  lemma SameLoadFlags(f: Flags, g: Flags)
    requires f.s == g.s && f.z == g.z && f.c == g.c
    ensures forall a, n, more :: LoadFlags(f, a, n, more) == LoadFlags(g, a, n, more)
  {
    hide Bit;
  }

  lemma LoadPass<D>(bus: Bus<D>, up: bool, regs: Registers, l: Loop<D>, m: Core<D>)
    requires m.mem == l.mem && m.dev == l.dev && Agrees(Load, regs, l, m.regs) && -65535 < l.n < 65536
    ensures SamePass(bus, Load, up, regs, l, m)
  {
    hide Read, Write, LoadFlags, Word;
    WordAbsorbs(l.hl, Step1(up));
    WordAbsorbs(l.de, Step1(up));
    WordAbsorbs(l.n, -1);
    WordZero(l.n - 1);
    SameLoadFlags(m.regs.f, regs.f);
    Writes(l.mem, l.hl, 0);
    Writes(l.mem, l.de, Read(l.mem, l.hl));
  }

  /** CPI and CPD look at the carry only, and set Z exactly on a match. */
  lemma SameSearchFlags(f: Flags, g: Flags, a: byte)
    requires f.c == g.c
    ensures forall n, more :: SearchFlags(f, a, n, more) == SearchFlags(g, a, n, more)
    ensures forall n, more :: SearchFlags(f, a, n, more).z == (a == n)
  {
    hide Bit, XorBit;
  }

  lemma ComparePass<D>(bus: Bus<D>, up: bool, regs: Registers, l: Loop<D>, m: Core<D>)
    requires m.mem == l.mem && m.dev == l.dev && Agrees(Compare, regs, l, m.regs) && -65535 < l.n < 65536
    ensures SamePass(bus, Compare, up, regs, l, m)
  {
    hide Read, SearchFlags, Word;
    WordAbsorbs(l.hl, Step1(up));
    WordAbsorbs(l.n, -1);
    WordZero(l.n - 1);
    SameSearchFlags(m.regs.f, regs.f, regs.a);
    Writes(l.mem, l.hl, 0);
  }

  lemma InputPass<D>(bus: Bus<D>, up: bool, regs: Registers, l: Loop<D>, m: Core<D>)
    requires m.mem == l.mem && m.dev == l.dev && Agrees(Input, regs, l, m.regs) && 0 < l.n < 256
    ensures SamePass(bus, Input, up, regs, l, m)
  {
    hide Write, PortFlags, Hi, Lo, Pair, Byte;
    WordAbsorbs(l.hl, Step1(up));
    Writes(l.mem, l.hl, bus.input(l.dev, C(regs)).1);
    ByteParts(l.n, C(regs));
  }

  lemma OutputPass<D>(bus: Bus<D>, up: bool, regs: Registers, l: Loop<D>, m: Core<D>)
    requires m.mem == l.mem && m.dev == l.dev && Agrees(Output, regs, l, m.regs) && 0 < l.n < 256
    ensures SamePass(bus, Output, up, regs, l, m)
  {
    hide Read, MapPort, PortFlags, Hi, Lo, Pair, Byte;
    WordAbsorbs(l.hl, Step1(up));
    Writes(l.mem, l.hl, 0);
    ByteParts(l.n, C(regs));
  }

  lemma PassAgrees<D>(bus: Bus<D>, block: Block, up: bool, regs: Registers, here: int, number: int,
                      l: Loop<D>, m: Core<D>)
    requires m.mem == l.mem && m.dev == l.dev && Agrees(block, regs, l, m.regs)
    requires CounterOk(block, up, regs, here, number, l)
    ensures SamePass(bus, block, up, regs, l, m)
  {
    hide SamePass, Agrees, NoMatch, OwnOpcode;
    NotPast65536(block, up, regs, here, number, l);
    match block {
      case Load => LoadPass(bus, up, regs, l, m);
      case Compare => ComparePass(bus, up, regs, l, m);
      case Input => InputPass(bus, up, regs, l, m);
      case Output => OutputPass(bus, up, regs, l, m);
    }
  }

  lemma RepeatIsEd(m: Memory, pc: int)
    ensures var f := Fetch(m, pc); f.Fetched? && f.x.Repeat? ==> EdInstr(f.op) == f.x
  {
    hide Read, PrefixCount;
  }

  lemma FetchAgain(m: Memory, pc: int, op: byte)
    requires Read(m, pc) == 0xed && Read(m, pc + 1) == op && EdInstr(op).Repeat?
    ensures Fetch(m, pc) == Fetched(EdInstr(op), op, PlainHL, 2, 2, 8)
  {
    hide Read;
    assert PrefixCount(m, pc, 65536) == 0;
  }

  /** A repeating instruction as one step: the single instruction, 13 or 8 cycles on top of the
      fetches, and back to the opcode while unfinished. */
  lemma StepOfRepeat<D>(bus: Bus<D>, s: State<D>)
    requires var f := Fetch(s.core.mem, s.pc); f.Fetched? && f.x.Repeat?
    ensures var f := Fetch(s.core.mem, s.pc);
      var m := ExecSingle(bus, f.x.block, f.x.up, s.core).core;
      var more := Unfinished(f.x.block, m.regs);
      Step(bus, s) == Tick(State(m, Word(s.pc + f.len - (if more then 2 else 0)), (s.r + f.refresh) % 128),
                           f.cost + (if more then 13 else 8), Plain)
  {
    hide Fetch, ExecSingle, Unfinished, Read;
  }

  /** The reference state `s` is at the same instruction as the loop `l`, about to make the same
      iteration; `left` is its budget before fetching. */
  ghost predicate Aligned<D>(block: Block, up: bool, regs: Registers, here: int, number: int, l: Loop<D>,
                             s: State<D>, left: int) {
    hide Fetch, Agrees, CounterOk;
    var f := Fetch(s.core.mem, s.pc);
    && f.Fetched? && f.x == Repeat(block, up)
    && Word(s.pc + f.len) == Word(here)
    && (s.r + f.refresh - 2 - l.r) % 128 == 0
    && left == number - (l.elapsed + 8 - f.cost)
    && s.core.mem == l.mem && s.core.dev == l.dev
    && Agrees(block, regs, l, s.core.regs)
    && CounterOk(block, up, regs, here, number, l)
  }

  lemma OwnOpcodeWraps(here: int, here': int, a: int, a': int)
    requires Word(here) == Word(here') && Word(a) == Word(a')
    ensures OwnOpcode(here, a) == OwnOpcode(here', a')
  {
    WordAbsorbs(here, -2);
    WordAbsorbs(here', -2);
    WordAbsorbs(here, -1);
    WordAbsorbs(here', -1);
  }

  lemma CounterStays<D>(bus: Bus<D>, block: Block, up: bool, regs: Registers, here: int, number: int,
                        l: Loop<D>, q: Loop<D>)
    requires CounterOk(block, up, regs, here, number, l)
    requires q == Pass(bus, block, up, regs, l).(elapsed := l.elapsed + 21)
    requires !Done(block, regs, q) && !SelfHit(block, up, here, q) && q.elapsed < number
    ensures CounterOk(block, up, regs, here, number, q)
  {
    hide Read, Write, MapPort, OwnOpcode;
    match block {
      case Load =>
        forall i | 0 < i <= -q.n
          ensures !OwnOpcode(here, Behind(up, q.de, i))
        {
          assert i > 1 ==> Behind(up, q.de, i) == Behind(up, l.de, i - 1);
        }
      case Compare =>
        if q.n < 0 {
          var a := Behind(up, l.hl, -l.n);
          assert a == Behind(up, q.hl, -q.n);
          forall i | 0 <= i < -q.n
            ensures Read(q.mem, Along(up, a, i)) != regs.a
          {
            assert i == -l.n ==> Along(up, a, i) == l.hl;
          }
        }
      case _ =>
    }
  }

  lemma AgreesAfter<D>(block: Block, up: bool, regs: Registers, q: Loop<D>, more: bool)
    ensures Agrees(block, regs, q, StoreBack(block, up, regs, q, more))
  {
    hide Bit, XorBit, Byte, Word, Hi, Lo, Pair, PortFlags;
  }

  lemma AlignedNext<D>(bus: Bus<D>, block: Block, up: bool, regs: Registers, here: int, number: int,
                       l: Loop<D>, s: State<D>, left: int)
    requires Aligned(block, up, regs, here, number, l, s, left)
    requires !AliasTrap(bus, s)
    requires var q := Pass(bus, block, up, regs, l).(elapsed := l.elapsed + 21);
      !Done(block, regs, q) && !SelfHit(block, up, here, q) && q.elapsed < number
    ensures var q := Pass(bus, block, up, regs, l).(elapsed := l.elapsed + 21);
      var t := Step(bus, s);
      && t.Tick? && t.signal.Plain? && Left(t, left) == number - q.elapsed
      && Aligned(block, up, regs, here, number, q, t.s, Left(t, left))
  {
    hide Fetch, Step, Agrees, CounterOk, Read, OwnOpcode, ExecSingle, Unfinished;
    var q := Pass(bus, block, up, regs, l).(elapsed := l.elapsed + 21);
    var f := Fetch(s.core.mem, s.pc);
    PassAgrees(bus, block, up, regs, here, number, l, s.core);
    StepOfRepeat(bus, s);
    CounterStays(bus, block, up, regs, here, number, l, q);
    AgreesAfter(block, up, regs, q, true);
    RepeatIsEd(s.core.mem, s.pc);
    var t := Step(bus, s);
    var w := Target(block, s.core.regs);
    TargetIs(bus, block, up, regs, l, s.core.regs);
    if w.Some? {
      OwnOpcodeWraps(s.pc + f.len, here, w.value, if block.Load? then q.de - Step1(up) else q.hl - Step1(up));
    }
    FetchAgain(t.s.core.mem, t.s.pc, f.op);
    WordAbsorbs(s.pc + f.len - 2, 2);
  }

  lemma TargetIs<D>(bus: Bus<D>, block: Block, up: bool, regs: Registers, l: Loop<D>, r: Registers)
    requires Agrees(block, regs, l, r)
    ensures var p := Pass(bus, block, up, regs, l);
      match block
      case Load => Word(r.de) == Word(p.de - Step1(up))
      case Input => Word(r.hl) == Word(p.hl - Step1(up))
      case _ => true
  {
    hide Read, Write;
  }

  /** The last pass of the loop is the last step of the reference machine: the instruction is over,
      or rewound to its opcode. */
  lemma ExitMatches<D>(bus: Bus<D>, block: Block, up: bool, regs: Registers, here: int, number: int,
                       l: Loop<D>, s: State<D>, left: int)
    requires Aligned(block, up, regs, here, number, l, s, left)
    ensures var p := Pass(bus, block, up, regs, l);
      var done := Done(block, regs, p);
      var x := Exit(p.(elapsed := l.elapsed + (if done then 16 else 21)), done, 1);
      var t := Step(bus, s);
      && t.Tick? && t.signal.Plain? && t.s == Norm(After(block, up, regs, here, x))
      && Left(t, left) == number - x.l.elapsed
  {
    hide Fetch, Step, Agrees, CounterOk, Read, ExecSingle, Unfinished, StoreBack, Pass, Done;
    PassAgrees(bus, block, up, regs, here, number, l, s.core);
    StepOfRepeat(bus, s);
    var f := Fetch(s.core.mem, s.pc);
    WordAbsorbs(s.pc + f.len, -2);
    WordAbsorbs(here, -2);
    var p := Pass(bus, block, up, regs, l);
    PassRefresh(bus, block, up, regs, l);
    StoreBackMore(block, up, regs, p, Done(block, regs, p));
  }

  lemma PassRefresh<D>(bus: Bus<D>, block: Block, up: bool, regs: Registers, l: Loop<D>)
    ensures Pass(bus, block, up, regs, l).r == l.r + 2
  {
    hide Read, Write, MapPort;
  }

  lemma StoreBackMore<D>(block: Block, up: bool, regs: Registers, p: Loop<D>, done: bool)
    requires done == Done(block, regs, p)
    ensures StoreBack(block, up, regs, p, p.n != 0) == StoreBack(block, up, regs, p, !done)
    ensures forall e :: StoreBack(block, up, regs, p.(elapsed := e), !done) == StoreBack(block, up, regs, p, !done)
  {
    hide Bit, XorBit, Byte, Word, Hi, Lo, Pair, PortFlags;
  }

  /** The fused loop, cut wherever the budget or its own opcode cuts it, leaves exactly what
      `passes` steps of the reference machine leave: registers, flags, R, memory, devices, the
      address to go on from and the cycles spent. */
  lemma {:induction false} FusedRefines<D>(bus: Bus<D>, block: Block, up: bool, regs: Registers, here: int,
                                           number: int, l: Loop<D>, s: State<D>, left: int)
    requires Aligned(block, up, regs, here, number, l, s, left)
    requires Safe(bus, s, left, RunLoop(bus, block, up, regs, here, number, l).passes)
    ensures var x := RunLoop(bus, block, up, regs, here, number, l);
      && x.passes > 0
      && Steps(bus, s, x.passes) == Norm(After(block, up, regs, here, x))
      && Cost(bus, s, x.passes) == left - (number - x.l.elapsed)
      && Unbroken(bus, s, left, x.passes)
    decreases if number > l.elapsed then number - l.elapsed else 0
  {
    hide Aligned, Step, Done, SelfHit, StoreBack, Pass, AliasTrap, CounterTrap;
    var p := Pass(bus, block, up, regs, l);
    var q := p.(elapsed := l.elapsed + 21);
    SameDone(block, regs, p, q.elapsed);
    ExitMatches(bus, block, up, regs, here, number, l, s, left);
    var t := Step(bus, s);
    if !Done(block, regs, p) && !SelfHit(block, up, here, q) && q.elapsed < number {
      AlignedNext(bus, block, up, regs, here, number, l, s, left);
      FusedRefines(bus, block, up, regs, here, number, q, t.s, Left(t, left));
    } else {
      assert Steps(bus, s, 1) == t.s && Cost(bus, s, 1) == t.cost;
    }
  }

  lemma SameDone<D>(block: Block, regs: Registers, p: Loop<D>, e: int)
    ensures Done(block, regs, p.(elapsed := e)) == Done(block, regs, p)
  {
  }

  /** Entering the loop just after the opcode was fetched at `s`. */
  lemma EnterAligned<D>(s: State<D>, number: int, elapsed: int)
    requires var f := Fetch(s.core.mem, s.pc); f.Fetched? && f.x.Repeat?
    requires !CounterTrap(s, number - elapsed)
    ensures var f := Fetch(s.core.mem, s.pc);
      var l := Enter(f.x.block, s.core, s.r + f.refresh, elapsed + f.cost);
      Aligned(f.x.block, f.x.up, s.core.regs, s.pc + f.len, number, l, s, number - elapsed)
  {
    hide Fetch, Read, OwnOpcode;
    var f := Fetch(s.core.mem, s.pc);
    var l := Enter(f.x.block, s.core, s.r + f.refresh, elapsed + f.cost);
    assert Agrees(f.x.block, s.core.regs, l, s.core.regs);
    assert CounterOk(f.x.block, f.x.up, s.core.regs, s.pc + f.len, number, l);
  }
}
