/** What LDIR, LDDR, CPIR and CPDR are for, on the reference machine: whole runs, from the first
    iteration to the last. */
module BlockMeaning {
  import opened Words
  import opened BankedMemory
  import opened Alu
  import opened Instructions
  import opened Machine
  import opened Fused

  /** A counter of zero counts 65536. */
  function Count(bc: word): nat { if bc == 0 then 65536 else bc }

  /** How far `b` lies from `a` in the copying direction. */
  function Distance(up: bool, a: int, b: int): word { Word(if up then b - a else a - b) }

  lemma AlongDistance(up: bool, a: int, b: int, i: int)
    ensures Word(Along(up, b, i)) == Word(Along(up, a, Distance(up, a, b) + i))
  {
    if up {
      WordAbsorbs(b - a, a + i);
    } else {
      var d := Word(a - b);
      assert a - b == 65536 * ((a - b) / 65536) + d;
      assert Word(b - i) == Word(b - i + 65536 * ((a - b) / 65536));
    }
  }

  lemma AlongInjective(up: bool, a: int, i: int, j: int)
    requires Word(Along(up, a, i)) == Word(Along(up, a, j)) && -65536 < i - j < 65536
    ensures i == j
  {
    var x, y := Along(up, a, i), Along(up, a, j);
    assert x - y == 65536 * (x / 65536 - y / 65536);
  }

  // Copying.

  /** Memory after `j` bytes have been moved one by one. */
  function Moved(m: Memory, up: bool, hl: int, de: int, j: nat): (r: Memory)
    ensures r.slots == m.slots
    decreases j
  {
    hide Read, Write;
    if j == 0 then m
    else
      var m' := Moved(m, up, hl, de, j - 1);
      Write(m', Along(up, de, j - 1), Read(m', Along(up, hl, j - 1)))
  }

  ghost predicate SoleRange(m: Memory, up: bool, de: int, n: nat) {
    hide Sole;
    forall i :: 0 <= i < n ==> Sole(m, Word(Along(up, de, i)))
  }

  /** Where the byte moved `i`th came from: with the destination `k` bytes ahead of the source, the
      first `k` bytes come round again and again. */
  function Origin(k: nat, i: nat): nat
    decreases i
  {
    if k == 0 || i < k then i else Origin(k, i - k)
  }

  ghost predicate OutsideRange(up: bool, de: int, n: nat, a: word) {
    forall i :: 0 <= i < n ==> Word(Along(up, de, i)) != a
  }

  lemma SoleWrite(m: Memory, m0: Memory, a: int, v: byte, b: int)
    requires m.slots == m0.slots && Sole(m0, Word(a))
    ensures Read(Write(m, a, v), b) == if Word(a) == Word(b) then v else Read(m, b)
  {
    ReadAfterWrite(m, a, v, b);
    assert Decode(m, Word(a)) == Decode(m0, Word(a)) && Decode(m, Word(b)) == Decode(m0, Word(b));
  }

  /** The meaning of the copy: byte `i` of the destination holds byte `Origin(k, i)` of the source as
      it was, `k` being how far the destination is ahead; everything else is as it was. */
  lemma {:induction false} MovedMeaning(m: Memory, up: bool, hl: int, de: int, j: nat)
    requires j <= 65536 && SoleRange(m, up, de, j)
    ensures forall i :: 0 <= i < j ==>
      Read(Moved(m, up, hl, de, j), Along(up, de, i)) == Read(m, Along(up, hl, Origin(Distance(up, hl, de), i)))
    ensures forall a: word :: OutsideRange(up, de, j, a) ==> Read(Moved(m, up, hl, de, j), a) == Read(m, a)
    decreases j
  {
    hide Read, Write, Sole, Distance, Origin, Along, OutsideRange;
    if j > 0 {
      assert SoleRange(m, up, de, j - 1);
      MovedMeaning(m, up, hl, de, j - 1);
      var k := Distance(up, hl, de);
      var m' := Moved(m, up, hl, de, j - 1);
      var v := Read(m', Along(up, hl, j - 1));
      assert Sole(m, Word(Along(up, de, j - 1)));
      SourceByte(m, m', up, hl, de, j - 1);
      forall i | 0 <= i < j
        ensures Read(Moved(m, up, hl, de, j), Along(up, de, i)) == Read(m, Along(up, hl, Origin(k, i)))
      {
        SoleWrite(m', m, Along(up, de, j - 1), v, Along(up, de, i));
        if Word(Along(up, de, i)) == Word(Along(up, de, j - 1)) {
          AlongInjective(up, de, i, j - 1);
        }
      }
      forall a: word | OutsideRange(up, de, j, a)
        ensures Read(Moved(m, up, hl, de, j), a) == Read(m, a)
      {
        SoleWrite(m', m, Along(up, de, j - 1), v, a);
        OutsideShorter(up, de, j, a);
      }
    }
  }

  lemma OutsideShorter(up: bool, de: int, j: nat, a: word)
    requires j > 0 && OutsideRange(up, de, j, a)
    ensures OutsideRange(up, de, j - 1, a) && Word(Along(up, de, j - 1)) != Word(a)
  {
    hide Along;
  }

  /** The `j`th source byte when its turn comes: untouched so far, or written `k` moves ago. */
  lemma SourceByte(m: Memory, m': Memory, up: bool, hl: int, de: int, j: nat)
    requires j < 65536
    requires forall i :: 0 <= i < j ==>
      Read(m', Along(up, de, i)) == Read(m, Along(up, hl, Origin(Distance(up, hl, de), i)))
    requires forall a: word :: OutsideRange(up, de, j, a) ==> Read(m', a) == Read(m, a)
    ensures Read(m', Along(up, hl, j)) == Read(m, Along(up, hl, Origin(Distance(up, hl, de), j)))
  {
    hide Read, Distance, Along, OutsideRange;
    var k: int := Distance(up, hl, de);
    if k != 0 && k <= j {
      AlongDistance(up, hl, de, j - k);
      ReadSame(m', Along(up, de, j - k), Along(up, hl, j));
    } else {
      var a := Word(Along(up, hl, j));
      SourceUntouched(up, hl, de, j);
      ReadSame(m', a, Along(up, hl, j));
      ReadSame(m, a, Along(up, hl, j));
    }
  }

  lemma SourceUntouched(up: bool, hl: int, de: int, j: nat)
    requires j < 65536 && (Distance(up, hl, de) == 0 || j < Distance(up, hl, de))
    ensures OutsideRange(up, de, j, Word(Along(up, hl, j)))
  {
    hide Distance, Along;
    var k: int := Distance(up, hl, de);
    forall i | 0 <= i < j
      ensures Word(Along(up, de, i)) != Word(Along(up, hl, j))
    {
      AlongDistance(up, hl, de, i);
      if Word(Along(up, hl, k + i)) == Word(Along(up, hl, j)) {
        AlongInjective(up, hl, k + i, j);
      }
    }
  }

  /** `Origin` is the index modulo the distance. */
  lemma {:induction false} OriginIsModulo(k: nat, i: nat)
    requires k > 0
    ensures Origin(k, i) == i % k
    decreases i
  {
    if i >= k {
      OriginIsModulo(k, i - k);
      ModMinus(i, k);
    }
  }

  lemma ModMinus(j: nat, k: nat)
    requires 0 < k <= j
    ensures (j - k) % k == j % k
  {
    var q, r, q', r' := j / k, j % k, (j - k) / k, (j - k) % k;
    assert j == k * q + r && j - k == k * q' + r';
    var d := q' + 1 - q;
    assert k * d == r - r' by {
      assert k * d == k * q' + k - k * q;
    }
    SmallMultiple(k, d);
  }

  lemma ReadSame(m: Memory, a: int, b: int)
    requires Word(a) == Word(b)
    ensures Read(m, a) == Read(m, b)
  {
  }

  // LDIR and LDDR.

  /** The instruction at `s`. */
  ghost predicate At<D>(s: State<D>, block: Block, up: bool) {
    hide Fetch;
    Fetch(s.core.mem, s.pc).Fetched? && Fetch(s.core.mem, s.pc).x == Repeat(block, up)
  }

  function Here<D>(s: State<D>): int
    requires Fetch(s.core.mem, s.pc).Fetched?
  {
    hide Fetch;
    s.pc + Fetch(s.core.mem, s.pc).len
  }

  /** The whole destination is writable, not aliased, and clear of the instruction itself. */
  ghost predicate Clear<D>(s: State<D>, up: bool)
    requires Fetch(s.core.mem, s.pc).Fetched?
  {
    hide Fetch, SoleRange, OutsideRange;
    var de, n := s.core.regs.de, Count(s.core.regs.bc);
    && SoleRange(s.core.mem, up, de, n)
    && OutsideRange(up, de, n, Word(Here(s) - 2)) && OutsideRange(up, de, n, Word(Here(s) - 1))
  }

  lemma LoadIteration<D>(bus: Bus<D>, s: State<D>, up: bool)
    requires At(s, Load, up)
    ensures var f, r, m := Fetch(s.core.mem, s.pc), s.core.regs, s.core.mem;
      var bc, n := Word(r.bc - 1), Read(m, r.hl);
      Step(bus, s) ==
        Tick(State(Core(r.(bc := bc, de := Word(Along(up, r.de, 1)), hl := Word(Along(up, r.hl, 1)),
                           f := LoadFlags(r.f, r.a, n, bc != 0)), Write(m, r.de, n), s.core.dev),
                   Word(Here(s) - (if bc != 0 then 2 else 0)), (s.r + f.refresh) % 128),
             f.cost + (if bc != 0 then 13 else 8), Plain)
  {
    hide Fetch, Step, Read, Write, LoadFlags;
    StepOfRepeat(bus, s);
  }

  lemma AlongAgain(up: bool, a: int, i: int)
    ensures Word(Along(up, Word(Along(up, a, i)), 1)) == Word(Along(up, a, i + 1))
  {
    WordAbsorbs(Along(up, a, i), if up then 1 else -1);
  }

  lemma OpcodeStays<D>(s: State<D>, m: Memory)
    requires Fetch(s.core.mem, s.pc).Fetched? && Fetch(s.core.mem, s.pc).x.Repeat?
    requires var a := Word(Here(s) - 2); Read(m, a) == Read(s.core.mem, a)
    requires var a := Word(Here(s) - 1); Read(m, a) == Read(s.core.mem, a)
    ensures var f := Fetch(s.core.mem, s.pc);
      Fetch(m, Word(Here(s) - 2)) == Fetched(f.x, f.op, PlainHL, 2, 2, 8)
  {
    hide Read, PrefixCount;
    var f := Fetch(s.core.mem, s.pc);
    var here := Here(s);
    ReadWraps(s.core.mem, here - 2, 0);
    ReadWraps(s.core.mem, here - 1, 0);
    ReadWraps(m, here - 2, 1);
    ReadWraps(m, here - 1, 0);
    RepeatIsEd(s.core.mem, s.pc);
    OpcodeBytes(s.core.mem, s.pc);
    FetchAgain(m, Word(here - 2), f.op);
  }

  lemma OpcodeBytes(m: Memory, pc: int)
    requires Fetch(m, pc).Fetched? && Fetch(m, pc).x.Repeat?
    ensures var f := Fetch(m, pc); Read(m, pc + f.len - 2) == 0xed && Read(m, pc + f.len - 1) == f.op
  {
    hide Read, PrefixCount;
  }

  /** The state after `j` iterations of LDIR or LDDR from `s`. */
  ghost function Loaded<D>(s: State<D>, up: bool, j: nat): State<D>
    requires At(s, Load, up) && 0 < j <= Count(s.core.regs.bc)
  {
    hide Fetch, Read, Moved, LoadFlags;
    var f, r, m := Fetch(s.core.mem, s.pc), s.core.regs, s.core.mem;
    var more := j < Count(r.bc);
    var v := Read(Moved(m, up, r.hl, r.de, j - 1), Along(up, r.hl, j - 1));
    State(Core(r.(bc := Word(r.bc - j), de := Word(Along(up, r.de, j)), hl := Word(Along(up, r.hl, j)),
                  f := LoadFlags(r.f, r.a, v, more)),
               Moved(m, up, r.hl, r.de, j), s.core.dev),
          Word(Here(s) - (if more then 2 else 0)), (s.r + f.refresh + 2 * (j - 1)) % 128)
  }

  lemma LoadFirst<D>(bus: Bus<D>, s: State<D>, up: bool)
    requires At(s, Load, up)
    ensures Step(bus, s)
         == Tick(Loaded(s, up, 1), Fetch(s.core.mem, s.pc).cost + (if 1 < Count(s.core.regs.bc) then 13 else 8), Plain)
  {
    hide Fetch, Step, Read, Write, Along, LoadFlags;
    var r, m := s.core.regs, s.core.mem;
    LoadIteration(bus, s, up);
    AlongZero(up, r.hl);
    AlongZero(up, r.de);
    assert Moved(m, up, r.hl, r.de, 0) == m;
    MovedNext(m, up, r.hl, r.de, 1);
  }

  /** The counter register reaches zero with the last iteration. */
  lemma MoreLeft(bc: word, j: nat)
    requires 0 < j <= Count(bc)
    ensures Word(bc - j) != 0 <==> j < Count(bc)
  {
  }

  lemma LoadFlagsAgain(f: Flags, a: byte, n: byte, more: bool, n': byte, more': bool)
    ensures LoadFlags(LoadFlags(f, a, n, more), a, n', more') == LoadFlags(f, a, n', more')
  {
    hide Bit;
  }

  lemma LoadNext<D>(bus: Bus<D>, s: State<D>, up: bool, j: nat)
    requires At(s, Load, up) && Clear(s, up) && 1 < j <= Count(s.core.regs.bc)
    ensures Step(bus, Loaded(s, up, j - 1))
         == Tick(Loaded(s, up, j), if j < Count(s.core.regs.bc) then 21 else 16, Plain)
  {
    hide Fetch, Step, Read, Write, Along, Moved, Clear, LoadFlags, Word, Count;
    var r, m := s.core.regs, s.core.mem;
    var t := Loaded(s, up, j - 1);
    var m' := Moved(m, up, r.hl, r.de, j - 1);
    var v := Read(m', Along(up, r.hl, j - 1));
    MoreLeft(r.bc, j - 1);
    MoreLeft(r.bc, j);
    LoadFlagsAgain(r.f, r.a, Read(Moved(m, up, r.hl, r.de, j - 2), Along(up, r.hl, j - 2)), true, v, j < Count(r.bc));
    OpcodeStaysMoved(s, up, j - 1);
    OpcodeStays(s, m');
    LoadIteration(bus, t, up);
    AlongAgain(up, r.hl, j - 1);
    AlongAgain(up, r.de, j - 1);
    WordAbsorbs(r.bc - (j - 1), -1);
    WordAbsorbs(Here(s) - 2, 2);
    WordAbsorbs(Here(s) - 2, 0);
    MovedNext(m, up, r.hl, r.de, j);
    Writes(m', Along(up, r.hl, j - 1), 0);
    Writes(m', Along(up, r.de, j - 1), v);
  }

  /** LDIR and LDDR: 21 cycles an iteration, 16 for the last, besides any prefixes. */
  lemma {:induction false} LoadRun<D>(bus: Bus<D>, s: State<D>, up: bool, j: nat)
    requires At(s, Load, up) && Clear(s, up) && 0 < j <= Count(s.core.regs.bc)
    ensures Steps(bus, s, j) == Loaded(s, up, j)
    ensures Cost(bus, s, j)
         == Fetch(s.core.mem, s.pc).cost - 8 + 21 * j - (if j < Count(s.core.regs.bc) then 0 else 5)
    decreases j
  {
    hide Fetch, Step, Clear, Loaded, Steps, Cost;
    if j == 1 {
      LoadFirst(bus, s, up);
      OneStep(bus, s);
    } else {
      LoadRun(bus, s, up, j - 1);
      StepsAdd(bus, s, j - 1, 1);
      LoadNext(bus, s, up, j);
      OneStep(bus, Loaded(s, up, j - 1));
    }
  }

  /** A whole LDIR or LDDR on writable, unaliased memory clear of its own opcode. `k` is how far the
      destination is ahead of the source in the direction of the copy, modulo 65536. Byte `i` of
      the destination gets byte `Origin(k, i)` of the source; every other address keeps its byte. */
  lemma LoadMeaning<D>(bus: Bus<D>, s: State<D>, up: bool)
    requires At(s, Load, up) && Clear(s, up)
    ensures var r, m, n := s.core.regs, s.core.mem, Count(s.core.regs.bc);
      var t := Steps(bus, s, n);
      && (forall i :: 0 <= i < n ==>
           Read(t.core.mem, Along(up, r.de, i)) == Read(m, Along(up, r.hl, Origin(Distance(up, r.hl, r.de), i))))
      && (forall a: word :: OutsideRange(up, r.de, n, a) ==> Read(t.core.mem, a) == Read(m, a))
      && t.core.regs.bc == 0 && t.core.regs.de == Word(Along(up, r.de, n))
      && t.core.regs.hl == Word(Along(up, r.hl, n)) && !t.core.regs.f.pv
      && t.pc == Word(Here(s)) && t.core.dev == s.core.dev
      && Cost(bus, s, n) == Fetch(s.core.mem, s.pc).cost - 8 + 21 * n - 5
  {
    hide Fetch, Step, Steps, Cost, Read, Along, Moved, OutsideRange, Distance, Origin;
    var r, n := s.core.regs, Count(s.core.regs.bc);
    LoadRun(bus, s, up, n);
    MovedMeaning(s.core.mem, up, r.hl, r.de, n);
  }

  /** When the destination is not ahead within the length moved, the copy is a memmove. */
  lemma LoadIsMemmove<D>(bus: Bus<D>, s: State<D>, up: bool, i: nat)
    requires At(s, Load, up) && Clear(s, up) && i < Count(s.core.regs.bc)
    requires var k := Distance(up, s.core.regs.hl, s.core.regs.de); k == 0 || Count(s.core.regs.bc) <= k
    ensures var r := s.core.regs;
      Read(Steps(bus, s, Count(r.bc)).core.mem, Along(up, r.de, i)) == Read(s.core.mem, Along(up, r.hl, i))
  {
    hide Fetch, Step, Steps, Cost, Read, Along, Distance, OutsideRange, Here;
    LoadMeaning(bus, s, up);
    var r := s.core.regs;
    assert Origin(Distance(up, r.hl, r.de), i) == i;
  }

  /** When it is `k` bytes ahead, the first `k` bytes of the source repeat with period `k`. */
  lemma LoadReplicates<D>(bus: Bus<D>, s: State<D>, up: bool, i: nat)
    requires At(s, Load, up) && Clear(s, up) && i < Count(s.core.regs.bc)
    requires Distance(up, s.core.regs.hl, s.core.regs.de) > 0
    ensures var r, k := s.core.regs, Distance(up, s.core.regs.hl, s.core.regs.de);
      Read(Steps(bus, s, Count(r.bc)).core.mem, Along(up, r.de, i)) == Read(s.core.mem, Along(up, r.hl, i % k))
  {
    hide Fetch, Step, Steps, Cost, Read, Along, Distance, OutsideRange, Here;
    LoadMeaning(bus, s, up);
    OriginIsModulo(Distance(up, s.core.regs.hl, s.core.regs.de), i);
  }

  lemma AlongZero(up: bool, a: int)
    ensures Along(up, a, 0) == a
  {
  }

  lemma MovedNext(m: Memory, up: bool, hl: int, de: int, j: nat)
    requires j > 0
    ensures var m' := Moved(m, up, hl, de, j - 1);
      Moved(m, up, hl, de, j) == Write(m', Along(up, de, j - 1), Read(m', Along(up, hl, j - 1)))
  {
    hide Read, Write, Along;
  }

  lemma OneStep<D>(bus: Bus<D>, s: State<D>)
    requires Step(bus, s).Tick?
    ensures Steps(bus, s, 1) == Step(bus, s).s && Cost(bus, s, 1) == Step(bus, s).cost
  {
    hide Step;
    assert Steps(bus, Step(bus, s).s, 0) == Step(bus, s).s && Cost(bus, Step(bus, s).s, 0) == 0;
  }

  lemma OpcodeStaysMoved<D>(s: State<D>, up: bool, j: nat)
    requires At(s, Load, up) && Clear(s, up) && j <= Count(s.core.regs.bc)
    ensures var r, m := s.core.regs, s.core.mem;
      && Read(Moved(m, up, r.hl, r.de, j), Word(Here(s) - 2)) == Read(m, Word(Here(s) - 2))
      && Read(Moved(m, up, r.hl, r.de, j), Word(Here(s) - 1)) == Read(m, Word(Here(s) - 1))
  {
    hide Fetch, Read, Moved, Along, Sole;
    var r := s.core.regs;
    MovedMeaning(s.core.mem, up, r.hl, r.de, j);
    assert OutsideRange(up, r.de, j, Word(Here(s) - 2)) && OutsideRange(up, r.de, j, Word(Here(s) - 1));
  }

  lemma BytesStay<D>(s: State<D>, m: Memory)
    requires Fetch(s.core.mem, s.pc).Fetched? && Fetch(s.core.mem, s.pc).x.Repeat?
    requires var a := Word(Here(s) - 2); Read(m, a) == Read(s.core.mem, a)
    requires var a := Word(Here(s) - 1); Read(m, a) == Read(s.core.mem, a)
    ensures Read(m, Word(Here(s) - 2)) == 0xed && Read(m, Word(Here(s) - 2) + 1) == Fetch(s.core.mem, s.pc).op
  {
    hide Read, PrefixCount;
    var here := Here(s);
    ReadWraps(s.core.mem, here - 2, 0);
    ReadWraps(s.core.mem, here - 1, 0);
    ReadWraps(m, here - 2, 1);
    ReadWraps(m, here - 1, 0);
    OpcodeBytes(s.core.mem, s.pc);
  }

  /** Iteration `j + 1` of such a copy is no trap. */
  lemma LoadNoTrap<D>(bus: Bus<D>, s: State<D>, up: bool, left: int, j: nat)
    requires At(s, Load, up) && Clear(s, up) && j < Count(s.core.regs.bc)
    ensures var t := if j == 0 then s else Loaded(s, up, j);
      !Trap(bus, t, left) && Step(bus, t).Tick? && Step(bus, t).s == Loaded(s, up, j + 1)
  {
    hide Fetch, Step, Clear, Read, Moved, Along, NoMatch, OwnOpcode, LoadFlags, Word, Count;
    var r := s.core.regs;
    if j == 0 {
      LoadFirst(bus, s, up);
    } else {
      LoadNext(bus, s, up, j + 1);
      OpcodeStaysMoved(s, up, j);
      OpcodeStays(s, Moved(s.core.mem, up, r.hl, r.de, j));
    }
    MoreLeft(r.bc, j + 1);
    OpcodeStaysMoved(s, up, j + 1);
    BytesStay(s, Moved(s.core.mem, up, r.hl, r.de, j + 1));
  }

  /** Such a copy meets no trap: by `FusedRefines` and `Emulate` it may be cut anywhere. */
  lemma {:induction false} LoadIsSafe<D>(bus: Bus<D>, s: State<D>, up: bool, left: int, j: nat, k: nat)
    requires At(s, Load, up) && Clear(s, up) && j + k <= Count(s.core.regs.bc)
    ensures Safe(bus, if j == 0 then s else Loaded(s, up, j), left, k)
    decreases k
  {
    hide Fetch, Step, Clear, Loaded, Trap;
    if k > 0 {
      var t := if j == 0 then s else Loaded(s, up, j);
      LoadNoTrap(bus, s, up, left, j);
      LoadIsSafe(bus, s, up, Left(Step(bus, t), left), j + 1, k - 1);
      SafeOnce(bus, t, left, k);
    }
  }

  // CPIR and CPDR.

  predicate Searching<D>(s: State<D>, up: bool, j: nat) {
    hide Read;
    var r := s.core.regs;
    j < Count(r.bc) && Read(s.core.mem, Along(up, r.hl, j - 1)) != r.a
  }

  /** The state after `j` iterations of CPIR or CPDR from `s`. */
  ghost function Searched<D>(s: State<D>, up: bool, j: nat): State<D>
    requires At(s, Compare, up) && 0 < j <= Count(s.core.regs.bc)
  {
    hide Fetch, Read, SearchFlags;
    var f, r, m := Fetch(s.core.mem, s.pc), s.core.regs, s.core.mem;
    State(Core(r.(bc := Word(r.bc - j), hl := Word(Along(up, r.hl, j)),
                  f := SearchFlags(r.f, r.a, Read(m, Along(up, r.hl, j - 1)), j < Count(r.bc))), m, s.core.dev),
          Word(Here(s) - (if Searching(s, up, j) then 2 else 0)), (s.r + f.refresh + 2 * (j - 1)) % 128)
  }

  lemma SearchIteration<D>(bus: Bus<D>, s: State<D>, up: bool)
    requires At(s, Compare, up)
    ensures var f, r, n := Fetch(s.core.mem, s.pc), s.core.regs, Read(s.core.mem, s.core.regs.hl);
      var bc := Word(r.bc - 1);
      var more := bc != 0 && n != r.a;
      Step(bus, s) ==
        Tick(State(Core(r.(bc := bc, hl := Word(Along(up, r.hl, 1)), f := SearchFlags(r.f, r.a, n, bc != 0)),
                        s.core.mem, s.core.dev),
                   Word(Here(s) - (if more then 2 else 0)), (s.r + f.refresh) % 128),
             f.cost + (if more then 13 else 8), Plain)
  {
    hide Fetch, Step, Read, Bit, XorBit;
    StepOfRepeat(bus, s);
  }

  lemma SearchFlagsAgain(f: Flags, a: byte, n: byte, more: bool, n': byte, more': bool)
    ensures SearchFlags(SearchFlags(f, a, n, more), a, n', more') == SearchFlags(f, a, n', more')
  {
    hide Bit, XorBit;
  }

  lemma SearchFirst<D>(bus: Bus<D>, s: State<D>, up: bool)
    requires At(s, Compare, up)
    ensures Step(bus, s)
         == Tick(Searched(s, up, 1), Fetch(s.core.mem, s.pc).cost + (if Searching(s, up, 1) then 13 else 8), Plain)
  {
    hide Fetch, Step, Read, Along, SearchFlags;
    SearchIteration(bus, s, up);
    AlongZero(up, s.core.regs.hl);
  }

  lemma SearchNext<D>(bus: Bus<D>, s: State<D>, up: bool, j: nat)
    requires At(s, Compare, up) && 1 < j <= Count(s.core.regs.bc) && Searching(s, up, j - 1)
    ensures Step(bus, Searched(s, up, j - 1))
         == Tick(Searched(s, up, j), if Searching(s, up, j) then 21 else 16, Plain)
  {
    hide Fetch, Step, Read, Along, SearchFlags, Word, Count;
    var r, m := s.core.regs, s.core.mem;
    var t := Searched(s, up, j - 1);
    MoreLeft(r.bc, j - 1);
    MoreLeft(r.bc, j);
    OpcodeStays(s, m);
    SearchIteration(bus, t, up);
    AlongAgain(up, r.hl, j - 1);
    WordAbsorbs(r.bc - (j - 1), -1);
    WordAbsorbs(Here(s) - 2, 2);
    WordAbsorbs(Here(s) - 2, 0);
    Writes(m, Along(up, r.hl, j - 1), 0);
    var n := Read(m, Along(up, r.hl, j - 1));
    SearchFlagsAgain(r.f, r.a, Read(m, Along(up, r.hl, j - 2)), true, n, j < Count(r.bc));
  }

  lemma {:induction false} SearchRun<D>(bus: Bus<D>, s: State<D>, up: bool, j: nat)
    requires At(s, Compare, up) && 0 < j <= Count(s.core.regs.bc)
    requires NoMatch(s.core.mem, up, s.core.regs.hl, s.core.regs.a, j - 1)
    ensures Steps(bus, s, j) == Searched(s, up, j)
    ensures Cost(bus, s, j)
         == Fetch(s.core.mem, s.pc).cost - 8 + 21 * j - (if Searching(s, up, j) then 0 else 5)
    decreases j
  {
    hide Fetch, Step, Searched, Steps, Cost, Read, Along;
    if j == 1 {
      SearchFirst(bus, s, up);
      OneStep(bus, s);
    } else {
      SearchRun(bus, s, up, j - 1);
      StepsAdd(bus, s, j - 1, 1);
      SearchNext(bus, s, up, j);
      OneStep(bus, Searched(s, up, j - 1));
    }
  }

  /** Where the search ends: just past the first byte equal to A, or after the whole count. */
  lemma {:induction false} SearchEnds(m: Memory, up: bool, hl: int, a: byte, n: nat) returns (j: nat)
    requires n > 0
    ensures 0 < j <= n && NoMatch(m, up, hl, a, j - 1)
    ensures j < n ==> Read(m, Along(up, hl, j - 1)) == a
  {
    hide Read, Along;
    j := 1;
    while j < n && Read(m, Along(up, hl, j - 1)) != a
      invariant 0 < j <= n && NoMatch(m, up, hl, a, j - 1)
    {
      j := j + 1;
    }
  }

  /** A whole CPIR or CPDR: if byte `j - 1` is the first equal to A, or there is none and `j` is the
      count, it ends after `j` iterations just past that byte, with BC less `j`, Z set exactly when
      found, P/V exactly when BC is not zero, carry and memory as they were. */
  lemma SearchMeaning<D>(bus: Bus<D>, s: State<D>, up: bool, j: nat)
    requires At(s, Compare, up) && 0 < j <= Count(s.core.regs.bc)
    requires NoMatch(s.core.mem, up, s.core.regs.hl, s.core.regs.a, j - 1)
    requires var r := s.core.regs; j == Count(r.bc) || Read(s.core.mem, Along(up, r.hl, j - 1)) == r.a
    ensures var r, t := s.core.regs, Steps(bus, s, j);
      && t.core.mem == s.core.mem && t.core.dev == s.core.dev
      && t.core.regs == r.(bc := Word(r.bc - j), hl := Word(Along(up, r.hl, j)), f := t.core.regs.f)
      && (t.core.regs.f.z <==> Read(s.core.mem, Along(up, r.hl, j - 1)) == r.a)
      && (t.core.regs.f.pv <==> t.core.regs.bc != 0)
      && t.core.regs.f.c == r.f.c && t.core.regs.f.n
      && t.pc == Word(Here(s))
      && Cost(bus, s, j) == Fetch(s.core.mem, s.pc).cost - 8 + 21 * j - 5
  {
    hide Fetch, Step, Steps, Cost, Read, Along, SearchFlags, Word, Count;
    var r := s.core.regs;
    SearchRun(bus, s, up, j);
    MoreLeft(r.bc, j);
    SearchFlagsMean(r.f, r.a, Read(s.core.mem, Along(up, r.hl, j - 1)), j < Count(r.bc));
  }

  lemma SearchFlagsMean(f: Flags, a: byte, n: byte, more: bool)
    ensures var g := SearchFlags(f, a, n, more); g.z == (a == n) && g.pv == more && g.c == f.c && g.n
  {
    hide Bit, XorBit;
  }
}
