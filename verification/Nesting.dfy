/** Balanced use of the stack: pushes and pops, calls and returns, nested to any depth, with other work
    in between. */
module Nesting {
  import opened Words
  import opened BankedMemory
  import opened Instructions
  import opened Stack

  /** A word pushed (by PUSH, or by CALL its return address), a balanced stretch, the word popped, and a
      balanced stretch after it; or other work, which stores a byte, leaves the devices in any state and
      loads any register but SP (the one that POP loads among them). */
  datatype Nest<D> =
    | Empty
    | Around(w: word, inner: Nest<D>, rest: Nest<D>)
    | Work(a: word, v: byte, r: Registers, dev: D, rest: Nest<D>)

  function Depth<D>(t: Nest<D>): nat {
    match t
    case Empty => 0
    case Around(_, inner, rest) => if 1 + Depth(inner) > Depth(rest) then 1 + Depth(inner) else Depth(rest)
    case Work(_, _, _, _, rest) => Depth(rest)
  }

  function Others(r: Registers, sp: word): Registers { r.(sp := sp) }

  /** The machine afterwards, and the words popped, in order. */
  function Play<D>(m: Core<D>, t: Nest<D>): (Core<D>, seq<word>)
    decreases t
  {
    hide Push, Pop, Popped;
    match t
    case Empty => (m, [])
    case Around(w, inner, rest) =>
      var (n, out1) := Play(Push(m, w), inner);
      var (n', out2) := Play(Pop(n), rest);
      (n', out1 + [Popped(n)] + out2)
    case Work(a, v, r, dev, rest) =>
      Play(Core(Others(r, m.regs.sp), Write(m.mem, a, v), dev), rest)
  }

  /** The words pushed, in the order in which they should come back. */
  function Expected<D>(t: Nest<D>): seq<word> {
    match t
    case Empty => []
    case Around(w, inner, rest) => Expected(inner) + [w] + Expected(rest)
    case Work(_, _, _, _, rest) => Expected(rest)
  }

  /** Registers, devices and memory after the work alone. */
  function WorkedRegs<D>(r: Registers, t: Nest<D>): (s: Registers)
    ensures s.sp == r.sp
    decreases t
  {
    match t
    case Empty => r
    case Around(_, inner, rest) => WorkedRegs(WorkedRegs(r, inner), rest)
    case Work(_, _, r', _, rest) => WorkedRegs(Others(r', r.sp), rest)
  }

  function WorkedDev<D>(dev: D, t: Nest<D>): D
    decreases t
  {
    match t
    case Empty => dev
    case Around(_, inner, rest) => WorkedDev(WorkedDev(dev, inner), rest)
    case Work(_, _, _, dev', rest) => WorkedDev(dev', rest)
  }

  function Worked<D>(m: Memory, t: Nest<D>): (n: Memory)
    ensures n.slots == m.slots
    decreases t
  {
    hide Write;
    match t
    case Empty => m
    case Around(_, inner, rest) => Worked(Worked(m, inner), rest)
    case Work(a, v, _, _, rest) => Worked(Write(m, a, v), rest)
  }

  /** `b` is none of the `n` cells below `sp`. */
  ghost predicate Outside(m: Memory, sp: word, n: nat, b: word) {
    hide Decode;
    forall i :: 0 <= i < n ==> Decode(m, Cell(sp, i)) != Decode(m, b)
  }

  /** No work stores to the `n` cells below `sp`. */
  ghost predicate Away<D>(t: Nest<D>, m: Memory, sp: word, n: nat) {
    hide Outside;
    match t
    case Empty => true
    case Around(_, inner, rest) => Away(inner, m, sp, n) && Away(rest, m, sp, n)
    case Work(a, _, _, _, rest) => Outside(m, sp, n, a) && Away(rest, m, sp, n)
  }

  // The cells below a lower SP, and fewer cells.

  lemma LowerCells(sp: word, i: nat)
    ensures Cell(Word(sp - 2), i) == Cell(sp, i + 2)
  {
    WordAbsorbs(sp - 2, -1 - i);
  }

  lemma OutsideLower(m: Memory, sp: word, n: nat, k: nat, b: word)
    requires Outside(m, sp, n, b) && k + 2 <= n
    ensures Outside(m, Word(sp - 2), k, b)
  {
    hide Decode, Cell, Word;
    var low := Word(sp - 2);
    forall i | 0 <= i < k
      ensures Decode(m, Cell(low, i)) != Decode(m, b)
    {
      LowerCells(sp, i);
    }
  }

  lemma OutsideFewer(m: Memory, m': Memory, sp: word, n: nat, k: nat, b: word)
    requires Outside(m, sp, n, b) && k <= n && m.slots == m'.slots
    ensures Outside(m', sp, k, b)
  {
    hide Decode, Cell;
    SameDecode(m, m', b);
    forall i | 0 <= i < k
      ensures Decode(m', Cell(sp, i)) != Decode(m', b)
    {
      SameDecode(m, m', Cell(sp, i));
    }
  }

  lemma {:induction false} AwayLower<D>(t: Nest<D>, m: Memory, m': Memory, sp: word, n: nat, k: nat)
    requires Away(t, m, sp, n) && k + 2 <= n && m.slots == m'.slots
    ensures Away(t, m', Word(sp - 2), k)
    decreases t
  {
    hide Outside, Word;
    match t
    case Empty =>
    case Around(_, inner, rest) =>
      AwayLower(inner, m, m', sp, n, k);
      AwayLower(rest, m, m', sp, n, k);
    case Work(a, _, _, _, rest) =>
      OutsideLower(m, sp, n, k, a);
      OutsideFewer(m, m', Word(sp - 2), k, k, a);
      AwayLower(rest, m, m', sp, n, k);
  }

  lemma {:induction false} AwayFewer<D>(t: Nest<D>, m: Memory, m': Memory, sp: word, n: nat, k: nat)
    requires Away(t, m, sp, n) && k <= n && m.slots == m'.slots
    ensures Away(t, m', sp, k)
    decreases t
  {
    hide Outside;
    match t
    case Empty =>
    case Around(_, inner, rest) =>
      AwayFewer(inner, m, m', sp, n, k);
      AwayFewer(rest, m, m', sp, n, k);
    case Work(a, _, _, _, rest) =>
      OutsideFewer(m, m', sp, n, k, a);
      AwayFewer(rest, m, m', sp, n, k);
  }

  lemma RoomLower(m: Memory, m': Memory, sp: word, n: nat, k: nat)
    requires Room(m, sp, n) && k + 2 <= n && m.slots == m'.slots
    ensures Room(m', Word(sp - 2), k)
  {
    hide Decode, Cell, Word;
    var low := Word(sp - 2);
    forall i | 0 <= i < k
      ensures Writable(m', Cell(low, i)) && Decode(m', Cell(low, i)) == Decode(m, Cell(sp, i + 2))
    {
      LowerCells(sp, i);
      SameDecode(m, m', Cell(sp, i + 2));
    }
  }

  lemma RoomFewer(m: Memory, m': Memory, sp: word, n: nat, k: nat)
    requires Room(m, sp, n) && k <= n && m.slots == m'.slots
    ensures Room(m', sp, k)
  {
    hide Decode, Cell;
    forall i | 0 <= i < k
      ensures Decode(m', Cell(sp, i)) == Decode(m, Cell(sp, i))
    {
      SameDecode(m, m', Cell(sp, i));
    }
  }

  // Reading one address through work and through a push.

  /** Work leaves the cells that it keeps away from. */
  lemma {:induction false} WorkLeaves<D>(m: Memory, t: Nest<D>, m0: Memory, sp: word, n: nat, i: nat, b: word)
    requires Away(t, m0, sp, n) && m.slots == m0.slots && i < n && Decode(m0, b) == Decode(m0, Cell(sp, i))
    ensures Read(Worked(m, t), b) == Read(m, b)
    decreases t
  {
    hide Decode, Read, Write, Cell;
    match t
    case Empty =>
    case Around(_, inner, rest) =>
      WorkLeaves(m, inner, m0, sp, n, i, b);
      WorkLeaves(Worked(m, inner), rest, m0, sp, n, i, b);
    case Work(a, v, _, _, rest) =>
      ReadAfterWrite(m, a, v, b);
      SameDecode(m, m0, a);
      SameDecode(m, m0, b);
      WordOfWord(a);
      WordOfWord(b);
      WorkLeaves(Write(m, a, v), rest, m0, sp, n, i, b);
  }

  lemma WordOfWord(a: word)
    ensures Word(a) == a
  {
  }

  /** What work shows at an address depends only on what that address showed before. */
  lemma {:induction false} WorkLocal<D>(m: Memory, m': Memory, t: Nest<D>, b: word)
    requires m.slots == m'.slots && Read(m, b) == Read(m', b)
    ensures Read(Worked(m, t), b) == Read(Worked(m', t), b)
    decreases t
  {
    hide Decode, Read, Write;
    match t
    case Empty =>
    case Around(_, inner, rest) =>
      WorkLocal(m, m', inner, b);
      WorkLocal(Worked(m, inner), Worked(m', inner), rest, b);
    case Work(a, v, _, _, rest) =>
      ReadAfterWrite(m, a, v, b);
      ReadAfterWrite(m', a, v, b);
      SameDecode(m, m', Word(a));
      SameDecode(m, m', Word(b));
      WorkLocal(Write(m, a, v), Write(m', a, v), rest, b);
  }

  lemma PushElsewhere<D>(m: Core<D>, w: word, n: nat, b: word)
    requires Outside(m.mem, m.regs.sp, n, b) && n >= 2
    ensures Read(Push(m, w).mem, b) == Read(m.mem, b)
  {
    hide Decode, Read, WriteWord, Cell, Word, Hi, Lo;
    var a: int := Word(m.regs.sp - 2);
    TopCells(m.regs.sp);
    WordId(m.regs.sp - 2);
    WordOfWord(b);
    ByteAfterWord(m.mem, a, w, b);
  }

  /** The two bytes of the pushed word are outside the cells below them. */
  lemma TopOutside(m: Memory, sp: word, n: nat)
    requires Room(m, sp, n + 2)
    ensures Outside(m, Word(sp - 2), n, Cell(sp, 0)) && Outside(m, Word(sp - 2), n, Cell(sp, 1))
  {
    hide Decode, Cell, Word;
    var low := Word(sp - 2);
    forall i | 0 <= i < n
      ensures Decode(m, Cell(low, i)) != Decode(m, Cell(sp, 0)) && Decode(m, Cell(low, i)) != Decode(m, Cell(sp, 1))
    {
      LowerCells(sp, i);
    }
  }

  /** The word is still there, if its two bytes read as they did just after the push. */
  lemma StillThere<D>(m: Core<D>, w: word, n: Core<D>)
    requires Room(m.mem, m.regs.sp, 2) && n.regs.sp == Word(m.regs.sp - 2)
    requires forall i :: 0 <= i < 2 ==> Read(n.mem, Cell(m.regs.sp, i)) == Read(Push(m, w).mem, Cell(m.regs.sp, i))
    ensures Popped(n) == w
  {
    hide Decode, Read, WriteWord, Cell, Word, Pair, Room;
    var sp: int := m.regs.sp;
    PushedWord(m.mem, sp, w);
    TopCells(sp);
    assert Read(n.mem, Cell(sp, 0)) == Read(Push(m, w).mem, Cell(sp, 0));
    assert Read(n.mem, Cell(sp, 1)) == Read(Push(m, w).mem, Cell(sp, 1));
    var low: int := Word(sp - 2);
    ReadWraps(n.mem, low + 1, 0);
    ReadWraps(Push(m, w).mem, low + 1, 0);
  }

  // Balanced use.

  /** What a balanced stretch leaves: every word comes back, SP is as before, the other registers,
      the devices and all memory but the cells below SP, within the depth, are as the work alone leaves
      them. */
  ghost predicate Transparent<D>(m: Core<D>, t: Nest<D>) {
    hide Read, Outside;
    var (n, out) := Play(m, t);
    && out == Expected(t)
    && n.regs == WorkedRegs(m.regs, t)
    && n.dev == WorkedDev(m.dev, t) && n.mem.slots == m.mem.slots
    && forall b: word :: Outside(m.mem, m.regs.sp, 2 * Depth(t), b) ==> Read(n.mem, b) == Read(Worked(m.mem, t), b)
  }

  lemma RegsShift<D>(r: Registers, t: Nest<D>, sp: word)
    ensures WorkedRegs(Others(r, sp), t) == Others(WorkedRegs(r, t), sp)
    decreases t
  {
    match t
    case Empty =>
    case Around(_, inner, rest) =>
      RegsShift(r, inner, sp);
      RegsShift(WorkedRegs(r, inner), rest, sp);
    case Work(_, _, r', _, rest) =>
      RegsShift(Others(r', r.sp), rest, sp);
  }

  /** The stretch inside a push, and the pop after it. */
  lemma InnerDone<D>(m: Core<D>, w: word, inner: Nest<D>, d: nat)
    requires d >= 1 + Depth(inner) && Room(m.mem, m.regs.sp, 2 * d) && Away(inner, m.mem, m.regs.sp, 2 * d)
    requires Transparent(Push(m, w), inner)
    ensures var n := Play(Push(m, w), inner).0;
      && Popped(n) == w && Pop(n).regs == WorkedRegs(m.regs, inner)
      && Pop(n).dev == WorkedDev(m.dev, inner) && Pop(n).mem.slots == m.mem.slots
      && forall b: word :: Outside(m.mem, m.regs.sp, 2 * d, b) ==>
           Read(Pop(n).mem, b) == Read(Worked(m.mem, inner), b)
  {
    hide Decode, Read, WriteWord, Room, Away, Outside, Cell, Word, Play, Worked, Expected;
    var sp: int, p, k := m.regs.sp, Push(m, w), 2 * Depth(inner);
    var n := Play(p, inner).0;
    RegsShift(m.regs, inner, Word(sp - 2));
    BackUp(sp, 1, 1);
    RoomFewer(m.mem, m.mem, sp, 2 * d, k + 2);
    RoomFewer(m.mem, m.mem, sp, 2 * d, 2);
    TopOutside(m.mem, sp, k);
    forall i | 0 <= i < 2
      ensures Read(n.mem, Cell(sp, i)) == Read(p.mem, Cell(sp, i))
    {
      OutsideFewer(m.mem, p.mem, Word(sp - 2), k, k, Cell(sp, i));
      WorkLeaves(p.mem, inner, m.mem, sp, 2 * d, i, Cell(sp, i));
    }
    StillThere(m, w, n);
    forall b: word | Outside(m.mem, sp, 2 * d, b)
      ensures Read(Pop(n).mem, b) == Read(Worked(m.mem, inner), b)
    {
      OutsideLower(m.mem, sp, 2 * d, k, b);
      OutsideFewer(m.mem, p.mem, Word(sp - 2), k, k, b);
      PushElsewhere(m, w, 2 * d, b);
      WorkLocal(p.mem, m.mem, inner, b);
    }
  }

  /** Nested pushes and pops, and so nested calls and returns, are transparent whenever the cells they
      reach are writable, distinct, and not stored to by the work in between. */
  lemma {:induction false} NestingIsTransparent<D>(m: Core<D>, t: Nest<D>)
    requires Room(m.mem, m.regs.sp, 2 * Depth(t)) && Away(t, m.mem, m.regs.sp, 2 * Depth(t))
    ensures Transparent(m, t)
    decreases t
  {
    hide Decode, Read, Write, WriteWord, Room, Outside, Word, Pop, Popped;
    var sp, d := m.regs.sp, Depth(t);
    match t
    case Empty =>
    case Around(w, inner, rest) =>
      var p := Push(m, w);
      RoomLower(m.mem, p.mem, sp, 2 * d, 2 * Depth(inner));
      AwayLower(inner, m.mem, p.mem, sp, 2 * d, 2 * Depth(inner));
      NestingIsTransparent(p, inner);
      InnerDone(m, w, inner, d);
      var q := Pop(Play(p, inner).0);
      RoomFewer(m.mem, q.mem, sp, 2 * d, 2 * Depth(rest));
      AwayFewer(rest, m.mem, q.mem, sp, 2 * d, 2 * Depth(rest));
      NestingIsTransparent(q, rest);
      RestDone(m, q, inner, rest, 2 * d);
    case Work(a, v, r, dev, rest) =>
      var q := Core(Others(r, sp), Write(m.mem, a, v), dev);
      RoomFewer(m.mem, q.mem, sp, 2 * d, 2 * d);
      AwayFewer(rest, m.mem, q.mem, sp, 2 * d, 2 * d);
      NestingIsTransparent(q, rest);
      forall b: word | Outside(m.mem, sp, 2 * d, b)
        ensures Outside(q.mem, sp, 2 * d, b)
      {
        OutsideFewer(m.mem, q.mem, sp, 2 * d, 2 * d, b);
      }
  }

  /** Memory after both parts, where neither has pushed. */
  lemma RestDone<D>(m: Core<D>, q: Core<D>, inner: Nest<D>, rest: Nest<D>, n: nat)
    requires Transparent(q, rest) && q.mem.slots == m.mem.slots && q.regs.sp == m.regs.sp && 2 * Depth(rest) <= n
    requires forall b: word :: Outside(m.mem, m.regs.sp, n, b) ==> Read(q.mem, b) == Read(Worked(m.mem, inner), b)
    ensures forall b: word :: Outside(m.mem, m.regs.sp, n, b) ==>
      Read(Play(q, rest).0.mem, b) == Read(Worked(Worked(m.mem, inner), rest), b)
  {
    hide Decode, Read, Outside, Play, Worked;
    forall b: word | Outside(m.mem, m.regs.sp, n, b)
      ensures Read(Play(q, rest).0.mem, b) == Read(Worked(Worked(m.mem, inner), rest), b)
    {
      OutsideFewer(m.mem, q.mem, m.regs.sp, n, 2 * Depth(rest), b);
      WorkLocal(q.mem, Worked(m.mem, inner), rest, b);
    }
  }

  predicate Bare<D>(t: Nest<D>) {
    match t
    case Empty => true
    case Around(_, inner, rest) => Bare(inner) && Bare(rest)
    case Work(_, _, _, _, _) => false
  }

  /** Without other work, registers and devices are as before, and so is memory outside the cells below SP. */
  lemma {:induction false} BareKeeps<D>(t: Nest<D>, r: Registers, m: Memory, dev: D)
    requires Bare(t)
    ensures WorkedRegs(r, t) == r && Worked(m, t) == m && WorkedDev(dev, t) == dev
    decreases t
  {
    if t.Around? {
      BareKeeps(t.inner, r, m, dev);
      BareKeeps(t.rest, r, m, dev);
    }
  }

  /** CALL, a balanced body with calls of its own, and RET: execution goes on just after the CALL, with
      SP as it was before it, nothing being assumed of what the body leaves on the stack. */
  lemma CallReturns<D>(bus: Bus<D>, c: Code, m: Core<D>, body: Nest<D>, c': Code)
    requires Room(m.mem, m.regs.sp, 2 * (1 + Depth(body))) && Away(body, m.mem, m.regs.sp, 2 * (1 + Depth(body)))
    ensures var n := Play(Exec(bus, Call, c, m).core, body).0;
      && Exec(bus, Call, c, m).next == Abs(NN(c))
      && Exec(bus, Ret, c', n).next == Abs(Word(c.here + 2))
      && Exec(bus, Ret, c', n).core.regs == WorkedRegs(m.regs, body)
      && Exec(bus, Ret, c', n).core.dev == WorkedDev(m.dev, body)
  {
    hide Exec, Decode, Read, WriteWord, Room, Away, Outside, Word, Play, WorkedRegs, WorkedDev;
    var sp, d, w := m.regs.sp, 1 + Depth(body), Word(c.here + 2);
    var p := Push(m, w);
    CallPushes(bus, c, m);
    RoomLower(m.mem, p.mem, sp, 2 * d, 2 * Depth(body));
    AwayLower(body, m.mem, p.mem, sp, 2 * d, 2 * Depth(body));
    NestingIsTransparent(p, body);
    InnerDone(m, w, body, d);
    RetPops(bus, c', Play(p, body).0);
  }
}
