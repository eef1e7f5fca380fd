/** The emulator itself: a loop over instructions that works on local ints and reduces them once, at
    the end, with the repeating instructions as fused inner loops. */
module Z80Emulator {
  import opened Words
  import opened BankedMemory
  import opened Alu
  import opened Instructions
  import opened Machine
  import opened Fused

  lemma TrapWraps<D>(bus: Bus<D>, s: State<D>, left: int)
    ensures Trap(bus, Norm(s), left) == Trap(bus, s, left)
  {
    hide Fetch, Read, Step, NoMatch, OwnOpcode;
    UnreducedRefines(bus, s);
    FetchWraps(s.core.mem, s.pc);
    var f := Fetch(s.core.mem, s.pc);
    if f.Fetched? && f.x.Repeat? {
      WordAbsorbs(s.pc, f.len);
      var w := Target(f.x.block, s.core.regs);
      if w.Some? {
        OwnOpcodeWraps(Word(s.pc) + f.len, s.pc + f.len, w.value, w.value);
      }
    }
  }

  /** The reference machine cannot tell a state from its reduced form. */
  lemma RunWraps<D>(bus: Bus<D>, s: State<D>, left: int, elapsed: int, number: int, k: nat)
    requires k > 0
    ensures Finishes(bus, Norm(s), left, k) == Finishes(bus, s, left, k)
    ensures Safe(bus, Norm(s), left, k) == Safe(bus, s, left, k)
    ensures Step(bus, s).Tick? ==> Steps(bus, Norm(s), k) == Steps(bus, s, k)
    ensures Step(bus, s).Tick? ==> Reported(bus, Norm(s), elapsed, number, k) == Reported(bus, s, elapsed, number, k)
  {
    hide Step, Trap;
    UnreducedRefines(bus, s);
    TrapWraps(bus, s, left);
  }

  /** After an unbroken run of steps the reference machine is still on its way, or has just stopped. */
  lemma {:induction false} AfterUnbroken<D>(bus: Bus<D>, s: State<D>, elapsed: int, number: int, n: nat, rem: nat)
    requires n > 0 && Unbroken(bus, s, number - elapsed, n)
    requires Finishes(bus, s, number - elapsed, rem) && Safe(bus, s, number - elapsed, rem)
    ensures n <= rem
    ensures var e := elapsed + Cost(bus, s, n);
      && (e >= number <==> n == rem)
      && (n < rem ==> Finishes(bus, Steps(bus, s, n), number - e, rem - n))
      && Safe(bus, Steps(bus, s, n), number - e, rem - n)
      && Steps(bus, s, rem) == Steps(bus, Steps(bus, s, n), rem - n)
      && Reported(bus, s, elapsed, number, rem) == Reported(bus, Steps(bus, s, n), e, number, rem - n)
    decreases n
  {
    hide Step, Trap;
    var t := Step(bus, s);
    if n > 1 {
      AfterUnbroken(bus, t.s, elapsed + t.cost, number, n - 1, rem - 1);
    } else {
      assert Steps(bus, s, 1) == t.s && Cost(bus, s, 1) == t.cost;
    }
  }

  /** The fused loop makes no more passes than the run still has steps, and they are safe. */
  lemma {:induction false} SafeBeyond<D>(bus: Bus<D>, s: State<D>, left: int, k: nat, n: nat)
    requires Finishes(bus, s, left, k) && Safe(bus, s, left, k)
    ensures Safe(bus, s, left, n)
    decreases n
  {
    hide Step, Trap;
    if n > 0 {
      var t := Step(bus, s);
      if !Stops(t, left) {
        SafeBeyond(bus, t.s, Left(t, left), k - 1, n - 1);
      }
    }
  }

  lemma TickIsFetched<D>(bus: Bus<D>, s: State<D>, left: int, rem: nat)
    requires Finishes(bus, s, left, rem)
    ensures Fetch(s.core.mem, s.pc).Fetched?
  {
    hide Fetch, Exec, Read;
  }

  /** What the fused loop of the instruction at `s` amounts to: `passes` steps of the run. */
  lemma FusedSteps<D>(bus: Bus<D>, s: State<D>, elapsed: int, number: int, rem: nat) returns (passes: nat)
    requires var f := Fetch(s.core.mem, s.pc); f.Fetched? && f.x.Repeat?
    requires Finishes(bus, s, number - elapsed, rem) && Safe(bus, s, number - elapsed, rem)
    ensures var f := Fetch(s.core.mem, s.pc);
      var l := Enter(f.x.block, s.core, s.r + f.refresh, elapsed + f.cost);
      var x := RunLoop(bus, f.x.block, f.x.up, s.core.regs, s.pc + f.len, number, l);
      var s' := After(f.x.block, f.x.up, s.core.regs, s.pc + f.len, x);
      && 0 < passes <= rem
      && Steps(bus, s, passes) == Norm(s')
      && (x.l.elapsed >= number <==> passes == rem)
      && (passes < rem ==> Finishes(bus, Norm(s'), number - x.l.elapsed, rem - passes))
      && Safe(bus, Norm(s'), number - x.l.elapsed, rem - passes)
      && Steps(bus, s, rem) == Steps(bus, Norm(s'), rem - passes)
      && Reported(bus, s, elapsed, number, rem) == Reported(bus, Norm(s'), x.l.elapsed, number, rem - passes)
  {
    hide Fetch, Step, AliasTrap, CounterTrap, RunLoop, Aligned, After, Enter;
    var f := Fetch(s.core.mem, s.pc);
    var l := Enter(f.x.block, s.core, s.r + f.refresh, elapsed + f.cost);
    var x := RunLoop(bus, f.x.block, f.x.up, s.core.regs, s.pc + f.len, number, l);
    EnterAligned(s, number, elapsed);
    SafeBeyond(bus, s, number - elapsed, rem, x.passes);
    FusedRefines(bus, f.x.block, f.x.up, s.core.regs, s.pc + f.len, number, l, s, number - elapsed);
    passes := x.passes;
    AfterUnbroken(bus, s, elapsed, number, passes, rem);
  }

  class Z80<D> {
    const bus: Bus<D>
    var regs: Registers
    var mem: Memory
    var dev: D
    var pc: int
    var r: int

    ghost function Now(): State<D>
      reads this
    {
      State(Core(regs, mem, dev), pc, r)
    }

    constructor (bus: Bus<D>, s: State<D>)
      ensures Now() == s && this.bus == bus
    {
      this.bus := bus;
      regs, mem, dev, pc, r := s.core.regs, s.core.mem, s.core.dev, s.pc, s.r;
    }

    /** Power-on values. The other registers, memory and devices keep theirs. */
    method Reset()
      modifies this`regs, this`pc
      ensures pc == 0
      ensures regs == old(regs).(a := 0xff, f := ByteFlags(0xff), sp := 0xffff, i := 0,
                                 iff1 := false, iff2 := false, im := Im0)
    {
      regs := regs.(a := 0xff, f := ByteFlags(0xff), sp := 0xffff, i := 0,
                    iff1 := false, iff2 := false, im := Im0);
      pc := 0;
    }

    /** The first opcode byte that is not a DD or FD prefix; the last prefix before it counts. */
    method SkipPrefixes(pc0: int, r0: int, elapsed0: int)
      returns (op: byte, mode: Index, pc': int, r': int, elapsed: int)
      requires Fetch(mem, pc0).Fetched?
      ensures var k := PrefixCount(mem, pc0, 65536);
        && op == Read(mem, pc0 + k) && mode == Prefixed(mem, pc0, k)
        && pc' == pc0 + k + 1 && r' == r0 + k + 1 && elapsed == elapsed0 + 4 * (k + 1)
    {
      hide Read, FetchAfter, PrefixCount;
      op := Read(mem, pc0);
      pc', r', elapsed, mode := pc0 + 1, r0 + 1, elapsed0 + 4, PlainHL;
      ghost var all := PrefixCount(mem, pc0, 65536);
      while IsPrefix(op)
        invariant pc0 < pc' <= pc0 + all + 1 && op == Read(mem, pc' - 1)
        invariant r' - r0 == pc' - pc0 && elapsed == elapsed0 + 4 * (pc' - pc0)
        invariant mode == Prefixed(mem, pc0, pc' - 1 - pc0)
        decreases pc0 + all - pc'
      {
        mode := if op == 0xdd then UseIX else UseIY;
        op := Read(mem, pc');
        pc', r', elapsed := pc' + 1, r' + 1, elapsed + 4;
      }
    }

    /** The opcode fetches of one instruction, prefixes and all. */
    method FetchInstruction(pc0: int, r0: int, elapsed0: int)
      returns (x: Instr, op: byte, mode: Index, pc': int, r': int, elapsed: int)
      requires Fetch(mem, pc0).Fetched?
      ensures var f := Fetch(mem, pc0);
        && x == f.x && op == f.op && mode == f.mode && pc' == pc0 + f.len
        && r' == r0 + f.refresh && elapsed == elapsed0 + f.cost
    {
      hide Read, EdInstr, CbInstr, Main, PrefixCount, Prefixed;
      op, mode, pc', r', elapsed := SkipPrefixes(pc0, r0, elapsed0);
      if op == 0xed {
        mode := PlainHL;
        op := Read(mem, pc');
        x := EdInstr(op);
        pc', r', elapsed := pc' + 1, r' + 1, elapsed + 4;
      } else if op == 0xcb {
        if mode != PlainHL {
          r' := r' - 1;
          op := Read(mem, pc' + 1);
        } else {
          op := Read(mem, pc');
          pc' := pc' + 1;
        }
        x := CbInstr(op);
        r', elapsed := r' + 1, elapsed + 4;
      } else {
        x := Main(op);
      }
    }

    /** A repeating instruction whose opcode ends at `here`. */
    method RunBlock(block: Block, up: bool, here: int, r0: int, elapsed0: int, number: int)
      returns (pc': int, r': int, elapsed: int)
      modifies this`regs, this`mem, this`dev
      ensures var x := RunLoop(bus, block, up, old(regs), here, number, Enter(block, old(Now().core), r0, elapsed0));
        State(Core(regs, mem, dev), pc', r') == After(block, up, old(regs), here, x) && elapsed == x.l.elapsed
    {
      hide Read, Write, MapPort, SelfHit, OwnOpcode, LoadFlags, SearchFlags, PortFlags;
      var d := Step1(up);
      var n: int := if block.Load? || block.Compare? then regs.bc else B(regs);
      var de: int, hl: int, v: byte, done := regs.de, regs.hl, 0, false;
      r', elapsed, pc' := r0 - 2, elapsed0 - 8, here;
      ghost var entry := Enter(block, Now().core, r0, elapsed0);
      ghost var all := RunLoop(bus, block, up, regs, here, number, entry);
      ghost var passes := 0;
      while true
        invariant regs == old(regs) && pc' == here
        invariant var x := RunLoop(bus, block, up, regs, here, number, Loop(n, de, hl, mem, dev, v, r', elapsed));
          all == x.(passes := x.passes + passes)
        decreases if number > elapsed then number - elapsed else 0
      {
        ghost var l := Loop(n, de, hl, mem, dev, v, r', elapsed);
        r' := r' + 2;
        match block {
          case Load =>
            v := Read(mem, hl);
            mem := Write(mem, de, v);
            de := de + d;
          case Compare =>
            v := Read(mem, hl);
          case Input =>
            var (dev', v') := bus.input(dev, C(regs));
            dev, v := dev', v';
            mem := Write(mem, hl, v);
          case Output =>
            v := Read(mem, hl);
            mem, dev := MapPort(mem, C(regs), v), bus.output(dev, C(regs), v);
        }
        hl, n := hl + d, n - 1;
        assert Loop(n, de, hl, mem, dev, v, r', elapsed) == Pass(bus, block, up, regs, l);
        if n == 0 || (block == Compare && regs.a == v) {
          elapsed, done := elapsed + 16, true;
          assert all == Exit(Loop(n, de, hl, mem, dev, v, r', elapsed), true, passes + 1);
          break;
        }
        elapsed := elapsed + 21;
        var hit := SelfHit(block, up, here, Loop(n, de, hl, mem, dev, v, r', elapsed));
        if hit || elapsed >= number {
          assert all == Exit(Loop(n, de, hl, mem, dev, v, r', elapsed), false, passes + 1);
          break;
        }
        passes := passes + 1;
      }
      regs := StoreBack(block, up, regs, Loop(n, de, hl, mem, dev, v, r', elapsed), !done);
      if !done {
        pc' := here - 2;
      }
    }

    /** Z80Emulate: run until the budget is used up, a HALT is met, or for one instruction if the
        budget is nothing. `steps` is how many reference steps that takes; a budget that DI and EI
        keep extending, or memory full of prefixes, is never used up. */
    method Emulate(number0: nat, ghost steps: nat) returns (elapsed: int)
      requires Finishes(bus, Now(), number0, steps) && Safe(bus, Now(), number0, steps)
      modifies this
      ensures Now() == Steps(bus, old(Now()), steps)
      ensures elapsed == Reported(bus, old(Now()), 0, number0, steps)
    {
      hide Fetch, RawStep, Exec, Trap, Read, RunLoop, After, Enter, Aligned;
      ghost var start := Now();
      var pc', r', number := pc, r, number0;
      elapsed := 0;
      ghost var rem := steps;
      while true
        invariant rem > 0
        invariant var s := State(Core(regs, mem, dev), pc', r');
          && Finishes(bus, s, number - elapsed, rem) && Safe(bus, s, number - elapsed, rem)
          && Steps(bus, start, steps) == Steps(bus, s, rem)
          && Reported(bus, start, 0, number0, steps) == Reported(bus, s, elapsed, number, rem)
        decreases rem
      {
        ghost var s := State(Core(regs, mem, dev), pc', r');
        ghost var f, e0, left := Fetch(mem, pc'), elapsed, number - elapsed;
        assert f.Fetched? by {
          hide *;
          TickIsFetched(bus, s, left, rem);
        }
        var x, op, mode;
        x, op, mode, pc', r', elapsed := FetchInstruction(pc', r', elapsed);
        if x.Repeat? {
          ghost var passes := FusedSteps(bus, s, e0, number, rem);
          pc', r', elapsed := RunBlock(x.block, x.up, pc', r', elapsed, number);
          ghost var s' := State(Core(regs, mem, dev), pc', r');
          assert Steps(bus, s, passes) == Norm(s');
          rem := rem - passes;
          if elapsed >= number {
            break;
          }
          RunWraps(bus, s', number - elapsed, elapsed, number, rem);
        } else {
          var e := Exec(bus, x, Code(op, mode, Read(mem, pc'), Read(mem, pc' + 1), Word(pc'), r' % 128),
                        Core(regs, mem, dev));
          regs, mem, dev := e.core.regs, e.core.mem, e.core.dev;
          pc' := match e.next case Rel(k) => pc' + k case Abs(w) => w;
          r' := if e.newR.Some? then e.newR.value else r';
          elapsed := elapsed + e.cost;
          ghost var s' := State(Core(regs, mem, dev), pc', r');
          StepOf(bus, s);
          assert Step(bus, s) == Tick(Norm(s'), elapsed - e0, e.signal);
          if e.signal.Halted? {
            if elapsed < number {
              elapsed := number;
            }
            rem := rem - 1;
            break;
          }
          if e.signal.Lengthen? {
            number := number + 4;
          }
          rem := rem - 1;
          if elapsed >= number {
            break;
          }
          RunWraps(bus, s', number - elapsed, elapsed, number, rem);
        }
      }
      assert rem == 0;
      pc, r := Word(pc'), r' % 128;
    }
  }
}
