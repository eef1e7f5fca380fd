/** Which runs end: a positive budget is used up unless the program comes to memory that shows nothing
    but prefixes, or nothing but DI and EI. */
module Endings {
  import opened Words
  import opened BankedMemory
  import opened Instructions
  import opened Keeping
  import opened Machine

  predicate IsDiEi(op: byte) { op == 0xf3 || op == 0xfb }

  /** Every visible byte is DI or EI. */
  ghost predicate Flooded(m: Memory) {
    hide Read;
    forall a: word :: IsDiEi(Read(m, a))
  }

  /** After `j` steps the run has not stopped. */
  ghost predicate Going<D>(bus: Bus<D>, s: State<D>, left: int, j: nat)
    decreases j
  {
    hide Step;
    j == 0 ||
    (var t := Step(bus, s); t.Tick? && !Stops(t, left) && Going(bus, t.s, Left(t, left), j - 1))
  }

  // A flood never ends.

  lemma FloodStep<D>(bus: Bus<D>, s: State<D>)
    requires Flooded(s.core.mem)
    ensures var t := Step(bus, s);
      t.Tick? && t.cost == 4 && t.signal.Lengthen? && t.s.core.mem == s.core.mem
  {
    hide Read, Exec, Operands;
    var m := s.core.mem;
    ReadWraps(m, s.pc, 0);
    assert !IsPrefix(Read(m, s.pc)) && PrefixCount(m, s.pc, 65536) == 0;
    hide PrefixCount;
    var f := Fetch(m, s.pc);
    assert f.x == Di || f.x == Ei;
    StepOf(bus, s);
    DiEiLengthens(bus, f.x, Operands(m, f, s.pc + f.len, s.r + f.refresh), s.core);
  }

  lemma DiEiLengthens<D>(bus: Bus<D>, x: Instr, c: Code, m: Core<D>)
    requires x == Di || x == Ei
    ensures var e := Exec(bus, x, c, m); e.signal.Lengthen? && e.cost == 0 && e.core.mem == m.mem
  {
    hide ExecGeneral;
    assert Exec(bus, x, c, m) == ExecGeneral(x, c, m);
    DiEiEffect(x, c, m);
  }

  lemma DiEiEffect<D>(x: Instr, c: Code, m: Core<D>)
    requires x == Di || x == Ei
    ensures var e := ExecGeneral(x, c, m); e.signal.Lengthen? && e.cost == 0 && e.core.mem == m.mem
  {
  }

  /** DI and EI give back the four cycles they cost: memory that shows nothing else never uses up a
      budget, so the emulator does not return. */
  lemma {:induction false} InterruptFloodNeverFinishes<D>(bus: Bus<D>, s: State<D>, left: int, k: nat)
    requires left > 0 && Flooded(s.core.mem)
    ensures !Finishes(bus, s, left, k)
    decreases k
  {
    hide Step, Flooded;
    if k > 0 {
      FloodStep(bus, s);
      var t := Step(bus, s);
      InterruptFloodNeverFinishes(bus, t.s, Left(t, left), k - 1);
    }
  }

  // Everything else does.

  /** Every instruction fetched costs at least four cycles, so DI and EI never raise what is left; and
      a step that keeps it is an unprefixed DI or EI. */
  lemma LeftNeverRises<D>(bus: Bus<D>, s: State<D>, left: int)
    requires Step(bus, s).Tick?
    ensures var t := Step(bus, s);
      && Left(t, left) <= left
      && (Left(t, left) == left ==>
           t.s.core.mem == s.core.mem && t.s.pc == Word(s.pc + 1) && IsDiEi(Read(s.core.mem, s.pc)))
  {
    hide Exec, Read, Fetch, Operands, Keeps;
    var m, f := s.core.mem, Fetch(s.core.mem, s.pc);
    CheapFetch(m, s.pc);
    StepOf(bus, s);
    var c := Operands(m, f, s.pc + f.len, s.r + f.refresh);
    ExecKeeps(bus, f.x, c, s.core);
    if Exec(bus, f.x, c, s.core).signal.Lengthen? {
      GivesBack(f.x, s.core, Exec(bus, f.x, c, s.core));
    }
  }

  lemma GivesBack<D>(x: Instr, m: Core<D>, e: Effect<D>)
    requires Keeps(x, m, e) && e.signal.Lengthen?
    ensures (x == Di || x == Ei) && e.core.mem == m.mem && e.next == Rel(0)
  {
    hide Prom;
  }

  /** A fetch costs four cycles or more, and DI and EI without a prefix are one byte. */
  lemma CheapFetch(m: Memory, pc: int)
    requires Fetch(m, pc).Fetched?
    ensures var f := Fetch(m, pc);
      && f.cost >= 4
      && (f.cost == 4 && (f.x == Di || f.x == Ei) ==> f.len == 1 && IsDiEi(Read(m, pc)))
  {
    hide Read, PrefixCount;
  }

  lemma {:induction false} GoingOn<D>(bus: Bus<D>, s: State<D>, left: int, j: nat, k: nat) returns (rest: int)
    requires left > 0 && Going(bus, s, left, j) && Finishes(bus, s, left, k)
    ensures rest > 0 && j < k && Finishes(bus, Steps(bus, s, j), rest, k - j)
    decreases j
  {
    hide Step;
    rest := left;
    if j > 0 {
      var t := Step(bus, s);
      rest := GoingOn(bus, t.s, Left(t, left), j - 1, k - 1);
    }
  }

  /** No state that the run comes to before it stops shows nothing but prefixes or nothing but DI and EI. */
  ghost predicate Free<D>(bus: Bus<D>, s: State<D>, left: int) {
    hide Going, Steps, Flooded, AllPrefixes;
    forall j: nat :: Going(bus, s, left, j) ==>
      !Flooded(Steps(bus, s, j).core.mem) && !AllPrefixes(Steps(bus, s, j).core.mem)
  }

  lemma FreeNext<D>(bus: Bus<D>, s: State<D>, left: int)
    requires Free(bus, s, left)
    ensures !Flooded(s.core.mem) && !AllPrefixes(s.core.mem)
    ensures var t := Step(bus, s); t.Tick? && !Stops(t, left) ==> Free(bus, t.s, Left(t, left))
  {
    hide Step, Flooded, AllPrefixes;
    assert Going(bus, s, left, 0) && Steps(bus, s, 0) == s;
    var t := Step(bus, s);
    if t.Tick? && !Stops(t, left) {
      forall j: nat | Going(bus, t.s, Left(t, left), j)
        ensures !Flooded(Steps(bus, t.s, j).core.mem) && !AllPrefixes(Steps(bus, t.s, j).core.mem)
      {
        assert Going(bus, s, left, j + 1) && Steps(bus, s, j + 1) == Steps(bus, t.s, j);
      }
    }
  }

  function Back(pc: int, d: int): int { pc - d }

  /** The `i` bytes before `pc` are DI or EI. */
  ghost predicate Behind(m: Memory, pc: int, i: nat) {
    hide Read;
    forall d :: 1 <= d <= i ==> IsDiEi(Read(m, Back(pc, d)))
  }

  lemma AllBehind(m: Memory, pc: int)
    requires Behind(m, pc, 65536)
    ensures Flooded(m)
  {
    hide Read;
    forall a: word
      ensures IsDiEi(Read(m, a))
    {
      var d := Word(pc - 1 - a) + 1;
      assert Word(pc - d) == a;
      ReadWraps(m, pc - d, 0);
      assert IsDiEi(Read(m, Back(pc, d)));
    }
  }

  lemma OneMoreBehind(m: Memory, pc: int, i: nat)
    requires Behind(m, pc, i) && IsDiEi(Read(m, pc))
    ensures Behind(m, Word(pc + 1), i + 1)
  {
    hide Read, IsDiEi;
    var next: int := Word(pc + 1);
    forall d | 1 <= d <= i + 1
      ensures IsDiEi(Read(m, Back(next, d)))
    {
      ReadWraps(m, pc + 1, -d);
      assert d > 1 ==> IsDiEi(Read(m, Back(pc, d - 1)));
    }
  }

  /** A run that is free of both ends: each step uses up cycles or lengthens the stretch of DI and EI
      behind pc, which is never all of memory. */
  lemma {:induction false} FreeEnds<D>(bus: Bus<D>, s: State<D>, left: int, i: nat) returns (k: nat)
    requires left > 0 && i <= 65536 && Free(bus, s, left) && Behind(s.core.mem, s.pc, i)
    ensures Finishes(bus, s, left, k)
    decreases left, 65536 - i
  {
    hide Step, Free, Flooded, AllPrefixes, Behind, Read;
    FreeNext(bus, s, left);
    HangsIffAllPrefixes(bus, s);
    if i == 65536 {
      AllBehind(s.core.mem, s.pc);
    }
    var t := Step(bus, s);
    LeftNeverRises(bus, s, left);
    if Stops(t, left) {
      k := 1;
    } else if Left(t, left) < left {
      NoneBehind(t.s.core.mem, t.s.pc);
      k := FreeEnds(bus, t.s, Left(t, left), 0);
      k := k + 1;
    } else {
      OneMoreBehind(s.core.mem, s.pc, i);
      k := FreeEnds(bus, t.s, left, i + 1);
      k := k + 1;
    }
  }

  lemma NoneBehind(m: Memory, pc: int)
    ensures Behind(m, pc, 0)
  {
  }

  /** A positive budget is used up if and only if the run does not come, before that, to memory that
      shows nothing but prefixes or nothing but DI and EI. */
  lemma FinishesIff<D>(bus: Bus<D>, s: State<D>, left: int)
    requires left > 0
    ensures (exists k: nat :: Finishes(bus, s, left, k)) <==> Free(bus, s, left)
  {
    hide Finishes, Going, Steps, Flooded, AllPrefixes, Behind, Step;
    if k: nat :| Finishes(bus, s, left, k) {
      forall j: nat | Going(bus, s, left, j)
        ensures !Flooded(Steps(bus, s, j).core.mem) && !AllPrefixes(Steps(bus, s, j).core.mem)
      {
        var u := Steps(bus, s, j);
        var rest := GoingOn(bus, s, left, j, k);
        if Flooded(u.core.mem) {
          InterruptFloodNeverFinishes(bus, u, rest, k - j);
        }
        HangsIffAllPrefixes(bus, u);
        FinishesTicks(bus, u, rest, k - j);
      }
    }
    if Free(bus, s, left) {
      NoneBehind(s.core.mem, s.pc);
      var k := FreeEnds(bus, s, left, 0);
    }
  }

  lemma FinishesTicks<D>(bus: Bus<D>, s: State<D>, left: int, k: nat)
    requires Finishes(bus, s, left, k)
    ensures Step(bus, s).Tick?
  {
    hide Step;
  }

  /** With no budget at all one step is made, unless there is none. */
  lemma NothingLeft<D>(bus: Bus<D>, s: State<D>, left: int)
    requires left <= 0
    ensures (exists k: nat :: Finishes(bus, s, left, k)) <==> !AllPrefixes(s.core.mem)
  {
    hide Step, AllPrefixes;
    HangsIffAllPrefixes(bus, s);
    if Step(bus, s).Tick? {
      LeftNeverRises(bus, s, left);
      assert Finishes(bus, s, left, 1);
    }
  }
}
