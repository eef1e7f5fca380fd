/** The stack: PUSH and POP, CALL and RET, on banked memory. */
module Stack {
  import opened Words
  import opened BankedMemory
  import opened Instructions

  /** Address of the byte `i + 1` below the stack pointer `sp`. */
  function Cell(sp: word, i: nat): word { Word(sp - 1 - i) }

  /** The `n` bytes below the stack pointer are writable and no two are the same cell. */
  ghost predicate Room(m: Memory, sp: word, n: nat) {
    hide Decode;
    && (forall i :: 0 <= i < n ==> Writable(m, Cell(sp, i)))
    && (forall i, j :: 0 <= i < j < n ==> Decode(m, Cell(sp, i)) != Decode(m, Cell(sp, j)))
  }

  /** Reading a byte after a word was written at `a`: the high byte was written last. */
  lemma ByteAfterWord(m: Memory, a: int, w: word, b: int)
    ensures Read(WriteWord(m, a, w), b) ==
      if Decode(m, Word(a + 1)) == Decode(m, Word(b)) && Writable(m, Word(a + 1)) then Hi(w)
      else if Decode(m, Word(a)) == Decode(m, Word(b)) && Writable(m, Word(a)) then Lo(w)
      else Read(m, b)
  {
    hide Decode, Read, Write;
    var m1 := Write(m, a, Lo(w));
    SameDecode(m, m1, Word(a + 1));
    SameDecode(m, m1, Word(b));
    ReadAfterWrite(m, a, Lo(w), b);
    ReadAfterWrite(m1, a + 1, Hi(w), b);
  }

  lemma WordParts(w: word)
    ensures Pair(Hi(w), Lo(w)) == w
  {
  }

  lemma TopCells(sp: word)
    ensures Cell(sp, 1) == Word(sp - 2) && Cell(sp, 0) == Word(Word(sp - 2) + 1)
  {
    WordAbsorbs(sp - 2, 1);
  }

  lemma PushedWord(m: Memory, sp: word, w: word)
    requires Room(m, sp, 2)
    ensures ReadWord(WriteWord(m, Word(sp - 2), w), Word(sp - 2)) == w
  {
    hide Decode, Read, WriteWord, Hi, Lo, Pair, Cell, Word;
    var a: int := Word(sp - 2);
    TopCells(sp);
    RoomOfTwo(m, sp);
    ByteAfterWord(m, a, w, a);
    ByteAfterWord(m, a, w, a + 1);
    WordParts(w);
    WordId(sp - 2);
  }

  lemma SameDecode(m: Memory, n: Memory, a: word)
    requires m.slots == n.slots
    ensures Decode(m, a) == Decode(n, a)
  {
  }

  /** POP undoes PUSH for every word exactly when the two stack bytes are distinct writable cells. */
  lemma PopUndoesPushIff<D>(m: Core<D>)
    ensures (forall w: word :: Popped(Push(m, w)) == w) <==> Room(m.mem, m.regs.sp, 2)
  {
    hide ReadWord, WriteWord, Room, Word, Hi, Lo, Pair, Read;
    var sp := m.regs.sp;
    if Room(m.mem, sp, 2) {
      forall w: word
        ensures Popped(Push(m, w)) == w
      {
        PushedWord(m.mem, sp, w);
      }
    } else {
      var w := LostWord(m.mem, sp);
      assert Popped(Push(m, w)) != w;
    }
  }

  lemma OtherWord(x: byte, y: byte) returns (w: word)
    ensures Lo(w) != x && Hi(w) != y && Hi(w) != Lo(w)
  {
    var lo: byte := if x != 0 then 0 else 1;
    var hi: byte := if y != 2 then 2 else 3;
    w := Pair(hi, lo);
    assert Lo(w) == lo && Hi(w) == hi;
  }

  /** Without room a word is lost: one with bytes unlike what is there and unlike each other. */
  lemma LostWord(m: Memory, sp: word) returns (w: word)
    requires !Room(m, sp, 2)
    ensures ReadWord(WriteWord(m, Word(sp - 2), w), Word(sp - 2)) != w
  {
    hide Decode, Read, WriteWord, Cell, Word, Hi, Lo, Pair;
    var a: int := Word(sp - 2);
    w := OtherWord(Read(m, a), Read(m, a + 1));
    TopCells(sp);
    RoomOfTwo(m, sp);
    ByteAfterWord(m, a, w, a);
    ByteAfterWord(m, a, w, a + 1);
    WordId(sp - 2);
    var m' := WriteWord(m, a, w);
    PairParts(Read(m', a + 1), Read(m', a));
  }

  lemma RoomOfTwo(m: Memory, sp: word)
    ensures Room(m, sp, 2) == (Writable(m, Cell(sp, 0)) && Writable(m, Cell(sp, 1))
                               && Decode(m, Cell(sp, 0)) != Decode(m, Cell(sp, 1)))
  {
    hide Decode, Writable, Cell;
    var p, q := Decode(m, Cell(sp, 0)), Decode(m, Cell(sp, 1));
  }

  function PushAll<D>(m: Core<D>, ws: seq<word>): Core<D> {
    if ws == [] then m else Push(PushAll(m, ws[..|ws| - 1]), ws[|ws| - 1])
  }

  /** The words that `n` POPs return, in order. */
  function PopAll<D>(m: Core<D>, n: nat): (r: (seq<word>, Core<D>))
    ensures |r.0| == n
    decreases n
  {
    hide Popped;
    if n == 0 then ([], m)
    else
      var (ws, m') := PopAll(Pop(m), n - 1);
      ([Popped(m)] + ws, m')
  }

  /** Pushing keeps every word already on the stack. */
  lemma {:induction false} PushAllHolds<D>(m: Core<D>, ws: seq<word>)
    requires Room(m.mem, m.regs.sp, 2 * |ws|)
    ensures var n := PushAll(m, ws);
      && n.regs == m.regs.(sp := Word(m.regs.sp - 2 * |ws|)) && n.dev == m.dev
      && n.mem.slots == m.mem.slots
      && forall i :: 0 <= i < |ws| ==> ReadWord(n.mem, Word(m.regs.sp - 2 * (i + 1))) == ws[i]
  {
    hide Decode, ReadWord, WriteWord;
    if ws != [] {
      var k, ws' := |ws| - 1, ws[..|ws| - 1];
      var sp := m.regs.sp;
      assert Room(m.mem, sp, 2 * k);
      PushAllHolds(m, ws');
      var n := PushAll(m, ws');
      WordAbsorbs(sp - 2 * k, -2);
      RoomBelow(m.mem, n.mem, sp, k);
      PushedWord(n.mem, n.regs.sp, ws[k]);
      forall i | 0 <= i < k
        ensures ReadWord(PushAll(m, ws).mem, Word(sp - 2 * (i + 1))) == ws[i]
      {
        WordElsewhere(m.mem, n.mem, sp, k, i, ws[k]);
        assert ws'[i] == ws[i];
      }
    }
  }

  lemma RoomBelow(m: Memory, n: Memory, sp: word, k: nat)
    requires Room(m, sp, 2 * (k + 1)) && n.slots == m.slots
    ensures Room(n, Word(sp - 2 * k), 2)
  {
    hide Decode;
    var sp' := Word(sp - 2 * k);
    WordAbsorbs(sp - 2 * k, -1);
    WordAbsorbs(sp - 2 * k, -2);
    assert Cell(sp', 0) == Cell(sp, 2 * k) && Cell(sp', 1) == Cell(sp, 2 * k + 1);
    SameDecode(m, n, Cell(sp', 0));
    SameDecode(m, n, Cell(sp', 1));
    RoomOfTwo(n, sp');
  }

  /** A push at depth `k` leaves the word at depth `i < k`. */
  lemma WordElsewhere(m: Memory, n: Memory, sp: word, k: nat, i: nat, w: word)
    requires Room(m, sp, 2 * (k + 1)) && n.slots == m.slots && i < k
    ensures var a := Word(sp - 2 * (i + 1));
      ReadWord(WriteWord(n, Word(Word(sp - 2 * k) - 2), w), a) == ReadWord(n, a)
  {
    hide Decode, Read, WriteWord, Hi, Lo, Pair, Cell, Word;
    var a: int, b: int := Word(sp - 2 * (i + 1)), Word(Word(sp - 2 * k) - 2);
    DeepCells(sp, i);
    DeepCells(sp, k);
    DeepTop(sp, k);
    SameDecode(m, n, Word(a));
    SameDecode(m, n, Word(b));
    SameDecode(m, n, Word(a + 1));
    SameDecode(m, n, Word(b + 1));
    ByteAfterWord(n, b, w, a);
    ByteAfterWord(n, b, w, a + 1);
  }

  lemma DeepCells(sp: word, i: nat)
    ensures var a := Word(sp - 2 * (i + 1));
      Word(a) == Cell(sp, 2 * i + 1) && Word(a + 1) == Cell(sp, 2 * i)
  {
    WordAbsorbs(sp - 2 * (i + 1), 1);
  }

  lemma DeepTop(sp: word, k: nat)
    ensures Word(Word(sp - 2 * k) - 2) == Word(sp - 2 * (k + 1))
  {
    WordAbsorbs(sp - 2 * k, -2);
  }

  function Reversed(ws: seq<word>): (r: seq<word>)
    ensures |r| == |ws|
    ensures forall i :: 0 <= i < |ws| ==> r[i] == ws[|ws| - 1 - i]
  {
    if ws == [] then [] else [ws[|ws| - 1]] + Reversed(ws[..|ws| - 1])
  }

  /** Two up, then `2 * i` up. */
  lemma Higher(sp: word, i: nat)
    ensures Word(Word(sp + 2) + 2 * i) == Word(sp + 2 * (i + 1)) && Word(sp + 2 * 0) == sp
  {
    WordAbsorbs(sp + 2, 2 * i);
  }

  lemma PopOne<D>(m: Core<D>, n: nat)
    requires n > 0
    ensures var r, rest := PopAll(m, n), PopAll(Pop(m), n - 1);
      r.1 == rest.1 && r.0 == [Popped(m)] + rest.0
  {
    hide Pop, Popped;
  }

  lemma {:induction false} PopAllReads<D>(m: Core<D>, n: nat)
    ensures PopAll(m, n).1 == m.(regs := m.regs.(sp := Word(m.regs.sp + 2 * n)))
    ensures forall i :: 0 <= i < n ==> PopAll(m, n).0[i] == ReadWord(m.mem, Word(m.regs.sp + 2 * i))
    decreases n
  {
    hide ReadWord, Word;
    Higher(m.regs.sp, 0);
    if n > 0 {
      hide PopAll;
      PopOne(m, n);
      PopAllReads(Pop(m), n - 1);
      Higher(m.regs.sp, n - 1);
      forall i | 0 < i < n
        ensures PopAll(m, n).0[i] == ReadWord(m.mem, Word(m.regs.sp + 2 * i))
      {
        Higher(m.regs.sp, i - 1);
      }
    }
  }

  /** Any number of words pushed onto distinct writable cells come back in reverse order, with SP
      and every other register restored. */
  lemma StackIsLifo<D>(m: Core<D>, ws: seq<word>)
    requires Room(m.mem, m.regs.sp, 2 * |ws|)
    ensures var (out, n) := PopAll(PushAll(m, ws), |ws|);
      out == Reversed(ws) && n.regs == m.regs && n.dev == m.dev
  {
    hide ReadWord, Room, PushAll, PopAll, Reversed, Word;
    PushAllHolds(m, ws);
    var p := PushAll(m, ws);
    PopAllReads(p, |ws|);
    forall i | 0 <= i < |ws|
      ensures PopAll(p, |ws|).0[i] == ws[|ws| - 1 - i]
    {
      BackUp(m.regs.sp, |ws|, i);
    }
    BackUp(m.regs.sp, |ws|, |ws|);
    assert PopAll(p, |ws|).0 == Reversed(ws);
  }

  lemma BackUp(sp: word, n: nat, i: nat)
    ensures Word(Word(sp - 2 * n) + 2 * i) == Word(sp - 2 * (n - 1 - i + 1))
    ensures i == n ==> Word(Word(sp - 2 * n) + 2 * i) == sp
  {
    WordAbsorbs(sp - 2 * n, 2 * i);
  }

  lemma CallPushes<D>(bus: Bus<D>, c: Code, m: Core<D>)
    ensures Exec(bus, Call, c, m) == Jump(Push(m, Word(c.here + 2)), NN(c), 13)
  {
    hide Jump, Push, Word, NN;
  }

  lemma RetPops<D>(bus: Bus<D>, c: Code, m: Core<D>)
    ensures Exec(bus, Ret, c, m) == Jump(Pop(m), Popped(m), 6)
  {
    hide Jump, Pop, Popped;
  }

  /** RET goes back to just after the CALL that matches it: whatever ran in between, if it leaves SP
      where the CALL left it and the return address unharmed. */
  lemma ReturnsToCaller<D>(bus: Bus<D>, c: Code, m: Core<D>, c': Code, n: Core<D>)
    requires Room(m.mem, m.regs.sp, 2)
    requires var e := Exec(bus, Call, c, m).core;
      && n.regs.sp == e.regs.sp
      && Read(n.mem, e.regs.sp) == Read(e.mem, e.regs.sp)
      && Read(n.mem, e.regs.sp + 1) == Read(e.mem, e.regs.sp + 1)
    ensures Exec(bus, Call, c, m).next == Abs(NN(c))
    ensures Exec(bus, Ret, c', n).next == Abs(Word(c.here + 2))
    ensures Exec(bus, Ret, c', n).core == n.(regs := n.regs.(sp := m.regs.sp))
  {
    hide Exec, Read, WriteWord, Room, Pair;
    CallPushes(bus, c, m);
    RetPops(bus, c', n);
    PushedWord(m.mem, m.regs.sp, Word(c.here + 2));
    WordAbsorbs(m.regs.sp - 2, 2);
  }
}
