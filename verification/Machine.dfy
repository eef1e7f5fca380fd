/** The one-instruction-at-a-time machine: the reference for `Z80.Emulate`. A repeating instruction
    takes one step an iteration. */
module Machine {
  import opened Words
  import opened BankedMemory
  import opened Instructions

  /** `pc` and `r` are ints that the emulator reduces only when it stops. */
  datatype State<D> = State(core: Core<D>, pc: int, r: int)

  function Norm<D>(s: State<D>): State<D> { State(s.core, Word(s.pc), s.r % 128) }

  /** The number of DD and FD bytes at `pc`, looking at `n` bytes. */
  function PrefixCount(m: Memory, pc: int, n: nat): (k: nat)
    ensures k <= n
    ensures forall a :: pc <= a < pc + k ==> IsPrefix(Read(m, a))
    ensures k < n ==> !IsPrefix(Read(m, pc + k))
    decreases n
  {
    hide Read;
    if n == 0 || !IsPrefix(Read(m, pc)) then 0 else PrefixCount(m, pc + 1, n - 1) + 1
  }

  /** A decoded instruction: `len` bytes up to its operands, the refresh count and the cycles of its
      opcode fetches. All 64 KB being prefix bytes, no instruction is ever found. */
  datatype Fetched = Endless | Fetched(x: Instr, op: byte, mode: Index, len: nat, refresh: nat, cost: nat)

  function Prefixed(m: Memory, pc: int, k: nat): Index {
    hide Read;
    if k == 0 then PlainHL else if Read(m, pc + k - 1) == 0xdd then UseIX else UseIY
  }

  function FetchAfter(m: Memory, pc: int, k: nat): (f: Fetched)
    requires !IsPrefix(Read(m, pc + k))
    ensures f.Fetched?
  {
    hide Read;
    var op, mode := Read(m, pc + k), Prefixed(m, pc, k);
    if op == 0xed then
      var op2 := Read(m, pc + k + 1);
      Fetched(EdInstr(op2), op2, PlainHL, k + 2, k + 2, 4 * (k + 2))
    else if op == 0xcb && mode.PlainHL? then
      var op2 := Read(m, pc + k + 1);
      Fetched(CbInstr(op2), op2, mode, k + 2, k + 2, 4 * (k + 2))
    else if op == 0xcb then
      // The displacement comes before the opcode and is left for the instruction to read.
      var op2 := Read(m, pc + k + 2);
      Fetched(CbInstr(op2), op2, mode, k + 1, k + 1, 4 * (k + 2))
    else Fetched(Main(op), op, mode, k + 1, k + 1, 4 * (k + 1))
  }

  function Fetch(m: Memory, pc: int): Fetched {
    hide Read, PrefixCount;
    var k := PrefixCount(m, pc, 65536);
    if k == 65536 then Endless else FetchAfter(m, pc, k)
  }

  datatype Tick<D> = Hang | Tick(s: State<D>, cost: nat, signal: Signal)

  /** The operands of an instruction whose opcode ends at `here`. */
  function Operands(m: Memory, f: Fetched, here: int, r: int): Code
    requires f.Fetched?
  {
    Code(f.op, f.mode, Read(m, here), Read(m, here + 1), Word(here), r % 128)
  }

  function Follow(here: int, next: Next): int {
    match next case Rel(k) => here + k case Abs(w) => w
  }

  function Landed<D>(e: Effect<D>, here: int, r: int): State<D> {
    State(e.core, Follow(here, e.next), if e.newR.Some? then e.newR.value else r)
  }

  /** One step on the emulator's own unreduced ints. */
  function RawStep<D>(bus: Bus<D>, s: State<D>): Tick<D> {
    var f := Fetch(s.core.mem, s.pc);
    if f.Endless? then Hang
    else
      var here, r := s.pc + f.len, s.r + f.refresh;
      var e := Exec(bus, f.x, Operands(s.core.mem, f, here, r), s.core);
      Tick(Landed(e, here, r), f.cost + e.cost, e.signal)
  }

  /** One step of the reference machine: `pc` kept in 16 bits, R in seven. */
  function Step<D>(bus: Bus<D>, s: State<D>): Tick<D> {
    hide RawStep;
    var t := RawStep(bus, s);
    if t.Hang? then Hang else t.(s := Norm(t.s))
  }

  lemma StepOf<D>(bus: Bus<D>, s: State<D>)
    requires Fetch(s.core.mem, s.pc).Fetched?
    ensures var f := Fetch(s.core.mem, s.pc);
      var here, r := s.pc + f.len, s.r + f.refresh;
      var e := Exec(bus, f.x, Operands(s.core.mem, f, here, r), s.core);
      Step(bus, s) == Tick(Norm(Landed(e, here, r)), f.cost + e.cost, e.signal)
  {
    hide Exec, Fetch, Read, Operands;
  }

  lemma {:induction false} PrefixCountWraps(m: Memory, a: int, b: int, n: nat)
    requires Word(a) == Word(b)
    ensures PrefixCount(m, a, n) == PrefixCount(m, b, n)
    decreases n
  {
    hide Read;
    if n > 0 {
      ReadWraps(m, a, 0);
      ReadWraps(m, b, 0);
      WordAbsorbs(a, 1);
      WordAbsorbs(b, 1);
      PrefixCountWraps(m, a + 1, b + 1, n - 1);
    }
  }

  lemma FetchWraps(m: Memory, a: int)
    ensures Fetch(m, Word(a)) == Fetch(m, a)
  {
    hide Read, PrefixCount;
    PrefixCountWraps(m, a, Word(a), 65536);
    var k: int := PrefixCount(m, a, 65536);
    ReadWraps(m, a, k - 1);
    ReadWraps(m, a, k);
    ReadWraps(m, a, k + 1);
    ReadWraps(m, a, k + 2);
  }

  /** Running on unreduced ints and reducing at the end is running the reduced machine: signed
      jumps, fetches, pushed return addresses and R all agree. */
  lemma UnreducedRefines<D>(bus: Bus<D>, s: State<D>)
    ensures Step(bus, Norm(s)) == Step(bus, s)
  {
    hide Exec, FetchAfter, Read;
    FetchWraps(s.core.mem, s.pc);
    var f := Fetch(s.core.mem, s.pc);
    if f.Fetched? {
      var here, here', r, r' := s.pc + f.len, Word(s.pc) + f.len, s.r + f.refresh, s.r % 128 + f.refresh;
      WordAbsorbs(s.pc, f.len);
      assert Word(here') == Word(here);
      ReadWraps(s.core.mem, here, 0);
      ReadWraps(s.core.mem, here, 1);
      ReadWraps(s.core.mem, here', 0);
      ReadWraps(s.core.mem, here', 1);
      assert r % 128 == r' % 128;
      var e := Exec(bus, f.x, Operands(s.core.mem, f, here, r), s.core);
      match e.next {
        case Rel(k) => WordAbsorbs(here, k); WordAbsorbs(here', k);
        case Abs(_) =>
      }
    }
  }

  /** What is left of the budget after a step: DI and EI give four cycles back. */
  function Left<D>(t: Tick<D>, left: int): int
    requires t.Tick?
  {
    left - t.cost + (if t.signal.Lengthen? then 4 else 0)
  }

  predicate Stops<D>(t: Tick<D>, left: int)
    requires t.Tick?
  {
    t.signal.Halted? || Left(t, left) <= 0
  }

  /** From `s` with `left` cycles to go, the run stops after exactly `k` steps. */
  ghost predicate Finishes<D>(bus: Bus<D>, s: State<D>, left: int, k: nat)
    decreases k
  {
    hide Step;
    k > 0 &&
    var t := Step(bus, s);
    t.Tick? && if Stops(t, left) then k == 1 else Finishes(bus, t.s, Left(t, left), k - 1)
  }

  /** The trajectory of the reference machine; it stays put in an endless prefix run. */
  ghost function Steps<D>(bus: Bus<D>, s: State<D>, k: nat): State<D>
    decreases k
  {
    hide Step;
    if k == 0 then s
    else
      var t := Step(bus, s);
      if t.Hang? then s else Steps(bus, t.s, k - 1)
  }

  ghost function Cost<D>(bus: Bus<D>, s: State<D>, k: nat): nat
    decreases k
  {
    hide Step;
    if k == 0 then 0
    else
      var t := Step(bus, s);
      if t.Hang? then 0 else t.cost + Cost(bus, t.s, k - 1)
  }

  /** What `Z80Emulate` returns after `k` more steps: HALT rounds the cycles up to the budget. */
  ghost function Reported<D>(bus: Bus<D>, s: State<D>, elapsed: int, number: int, k: nat): int
    decreases k
  {
    hide Step;
    if k == 0 then elapsed
    else
      var t := Step(bus, s);
      if t.Hang? then elapsed
      else
        var e := elapsed + t.cost;
        var n := if t.signal.Lengthen? then number + 4 else number;
        if t.signal.Halted? then (if e < n then n else e) else Reported(bus, t.s, e, n, k - 1)
  }

  lemma {:induction false} FinishesUnique<D>(bus: Bus<D>, s: State<D>, left: int, j: nat, k: nat)
    requires Finishes(bus, s, left, j) && Finishes(bus, s, left, k)
    ensures j == k
    decreases j
  {
    hide Step;
    var t := Step(bus, s);
    if !Stops(t, left) {
      FinishesUnique(bus, t.s, Left(t, left), j - 1, k - 1);
    }
  }

  lemma {:induction false} StepsAdd<D>(bus: Bus<D>, s: State<D>, j: nat, k: nat)
    ensures Steps(bus, s, j + k) == Steps(bus, Steps(bus, s, j), k)
    ensures Cost(bus, s, j + k) == Cost(bus, s, j) + Cost(bus, Steps(bus, s, j), k)
    decreases j
  {
    hide Step;
    if j > 0 {
      var t := Step(bus, s);
      if t.Tick? {
        StepsAdd(bus, t.s, j - 1, k);
      } else {
        StuckSteps(bus, s, k);
      }
    }
  }

  lemma {:induction false} StuckSteps<D>(bus: Bus<D>, s: State<D>, k: nat)
    requires Step(bus, s).Hang?
    ensures Steps(bus, s, k) == s && Cost(bus, s, k) == 0
  {
    hide Step;
  }

  /** Every visible byte is a prefix. */
  ghost predicate AllPrefixes(m: Memory) {
    hide Read;
    forall a: word :: IsPrefix(Read(m, a))
  }

  /** No instruction is ever found exactly when every visible byte is a DD or FD prefix. */
  lemma EndlessIffAllPrefixes(m: Memory, pc: int)
    ensures Fetch(m, pc).Endless? <==> AllPrefixes(m)
  {
    hide FetchAfter, Read, PrefixCount;
    var k: int := PrefixCount(m, pc, 65536);
    if k == 65536 {
      forall a: word
        ensures IsPrefix(Read(m, a))
      {
        var i: int := Word(a - pc);
        assert pc <= pc + i < pc + k;
        assert Word(pc + i) == a;
        ReadWraps(m, pc + i, 0);
        assert Read(m, a) == Read(m, pc + i);
      }
    } else {
      ReadWraps(m, pc + k, 0);
      assert !IsPrefix(Read(m, Word(pc + k)));
    }
  }

  /** The emulator hangs on fetching exactly when every visible byte is a DD or FD prefix. */
  lemma HangsIffAllPrefixes<D>(bus: Bus<D>, s: State<D>)
    ensures Step(bus, s).Hang? <==> AllPrefixes(s.core.mem)
  {
    hide Exec, Fetch, Read, AllPrefixes;
    EndlessIffAllPrefixes(s.core.mem, s.pc);
  }
}
