/** What OTIR, OTDR, INIR and INDR are for, on the reference machine: the bytes that reach the devices
    and the bytes that come from them. */
module PortMeaning {
  import opened Words
  import opened BankedMemory
  import opened Alu
  import opened Instructions
  import opened Machine
  import opened Fused
  import opened BlockMeaning

  // Output.

  /** The devices after `j` bytes from memory were sent to `port`, in order. */
  ghost function Sent<D>(bus: Bus<D>, dev: D, m: Memory, port: byte, up: bool, hl: int, j: nat): D
    decreases j
  {
    hide Read, Along;
    if j == 0 then dev
    else bus.output(Sent(bus, dev, m, port, up, hl, j - 1), port, Read(m, Along(up, hl, j - 1)))
  }

  /** The state after `j` iterations of OTIR or OTDR from `s`. */
  ghost function Sending<D>(bus: Bus<D>, s: State<D>, up: bool, j: nat): State<D>
    requires At(s, Output, up) && 0 < j <= B(s.core.regs)
  {
    hide Fetch, Read, PortFlags, Sent, Along, Hi, Lo, Pair;
    var f, r, m := Fetch(s.core.mem, s.pc), s.core.regs, s.core.mem;
    var b, hl := B(r) - j, Word(Along(up, r.hl, j));
    State(Core(SetB(r, b).(hl := hl, f := PortFlags(b, Read(m, Along(up, r.hl, j - 1)), Lo(hl))), m,
               Sent(bus, s.core.dev, m, C(r), up, r.hl, j)),
          Word(Here(s) - (if b != 0 then 2 else 0)), (s.r + f.refresh + 2 * (j - 1)) % 128)
  }

  lemma OtherPort(m: Memory, port: byte, v: byte)
    requires port / 16 != 10
    ensures MapPort(m, port, v) == m
  {
  }

  lemma OutputOnce<D>(bus: Bus<D>, s: State<D>, up: bool)
    requires At(s, Output, up) && B(s.core.regs) != 0 && C(s.core.regs) / 16 != 10
    ensures var f, r, v := Fetch(s.core.mem, s.pc), s.core.regs, Read(s.core.mem, s.core.regs.hl);
      var b, hl := B(r) - 1, Word(Along(up, r.hl, 1));
      Step(bus, s) ==
        Tick(State(Core(SetB(r, b).(hl := hl, f := PortFlags(b, v, Lo(hl))), s.core.mem,
                        bus.output(s.core.dev, C(r), v)),
                   Word(Here(s) - (if b != 0 then 2 else 0)), (s.r + f.refresh) % 128),
             f.cost + (if b != 0 then 13 else 8), Plain)
  {
    hide Fetch, Step, Read, MapPort, PortFlags, Hi, Lo, Pair;
    StepOfRepeat(bus, s);
    OtherPort(s.core.mem, C(s.core.regs), Read(s.core.mem, s.core.regs.hl));
    PairParts(B(s.core.regs) - 1, C(s.core.regs));
  }

  lemma SendFirst<D>(bus: Bus<D>, s: State<D>, up: bool)
    requires At(s, Output, up) && B(s.core.regs) != 0 && C(s.core.regs) / 16 != 10
    ensures Step(bus, s)
         == Tick(Sending(bus, s, up, 1), Fetch(s.core.mem, s.pc).cost + (if 1 < B(s.core.regs) then 13 else 8), Plain)
  {
    hide Fetch, Step, Read, Along, PortFlags, Hi, Lo, Pair;
    OutputOnce(bus, s, up);
    AlongZero(up, s.core.regs.hl);
    SentNext(bus, s.core.dev, s.core.mem, C(s.core.regs), up, s.core.regs.hl, 1);
    assert Sent(bus, s.core.dev, s.core.mem, C(s.core.regs), up, s.core.regs.hl, 0) == s.core.dev;
  }

  lemma SentNext<D>(bus: Bus<D>, dev: D, m: Memory, port: byte, up: bool, hl: int, j: nat)
    requires j > 0
    ensures Sent(bus, dev, m, port, up, hl, j)
         == bus.output(Sent(bus, dev, m, port, up, hl, j - 1), port, Read(m, Along(up, hl, j - 1)))
  {
    hide Read, Along;
  }

  lemma SetBParts(r: Registers, b: byte)
    ensures B(SetB(r, b)) == b && C(SetB(r, b)) == C(r)
  {
    hide Hi, Lo, Pair;
    PairParts(b, Lo(r.bc));
  }

  /** A transfer in progress is at its own instruction. */
  lemma SendingAt<D>(bus: Bus<D>, s: State<D>, up: bool, j: nat)
    requires At(s, Output, up) && 0 < j < B(s.core.regs)
    ensures var t := Sending(bus, s, up, j);
      && At(t, Output, up) && B(t.core.regs) == B(s.core.regs) - j && C(t.core.regs) == C(s.core.regs)
      && Fetch(t.core.mem, t.pc).cost == 8 && Fetch(t.core.mem, t.pc).refresh == 2
      && Word(Here(t)) == Word(Here(s)) && Here(t) == Word(Here(s) - 2) + 2
  {
    hide Fetch, Read, Along, PortFlags, Sent, Hi, Lo, Pair, Word;
    SetBParts(s.core.regs, B(s.core.regs) - j);
    OpcodeStays(s, s.core.mem);
    WordAbsorbs(Here(s) - 2, 2);
  }

  lemma SendNext<D>(bus: Bus<D>, s: State<D>, up: bool, j: nat)
    requires At(s, Output, up) && C(s.core.regs) / 16 != 10 && 1 < j <= B(s.core.regs)
    ensures Step(bus, Sending(bus, s, up, j - 1))
         == Tick(Sending(bus, s, up, j), if j < B(s.core.regs) then 21 else 16, Plain)
  {
    hide Fetch, Step, Read, Along, PortFlags, Sent, Hi, Lo, Pair, Word;
    var r, m := s.core.regs, s.core.mem;
    var t := Sending(bus, s, up, j - 1);
    SendingAt(bus, s, up, j - 1);
    OutputOnce(bus, t, up);
    AlongAgain(up, r.hl, j - 1);
    WordAbsorbs(Here(s) - 2, 2);
    WordAbsorbs(Here(s) - 2, 0);
    Writes(m, Along(up, r.hl, j - 1), 0);
    SentNext(bus, s.core.dev, m, C(r), up, r.hl, j);
    SetBAgain(r, B(r) - (j - 1), B(r) - j);
  }

  lemma SetBAgain(r: Registers, b: byte, b': byte)
    ensures SetB(SetB(r, b), b') == SetB(r, b')
  {
    hide Hi, Lo, Pair;
    PairParts(b, Lo(r.bc));
  }

  /** OTIR and OTDR: 21 cycles an iteration, 16 for the last, besides any prefixes. */
  lemma {:induction false} SendRun<D>(bus: Bus<D>, s: State<D>, up: bool, j: nat)
    requires At(s, Output, up) && C(s.core.regs) / 16 != 10 && 0 < j <= B(s.core.regs)
    ensures Steps(bus, s, j) == Sending(bus, s, up, j)
    ensures Cost(bus, s, j)
         == Fetch(s.core.mem, s.pc).cost - 8 + 21 * j - (if j < B(s.core.regs) then 0 else 5)
    decreases j
  {
    hide Fetch, Step, Sending, Steps, Cost, Hi, Lo;
    if j == 1 {
      SendFirst(bus, s, up);
      OneStep(bus, s);
    } else {
      SendRun(bus, s, up, j - 1);
      StepsAdd(bus, s, j - 1, 1);
      SendNext(bus, s, up, j);
      OneStep(bus, Sending(bus, s, up, j - 1));
    }
  }

  lemma ZeroSet(v: byte, t: byte)
    ensures PortFlags(0, v, t).z
  {
    hide Bit, EvenParity, Xor8;
  }

  /** A whole OTIR or OTDR on a port that maps no page: the B bytes from HL on go to port C in order, and
      nothing else happens to the devices; memory is as it was, B is zero, C is kept, HL has moved past
      the bytes, Z is set. */
  lemma SendMeaning<D>(bus: Bus<D>, s: State<D>, up: bool)
    requires At(s, Output, up) && B(s.core.regs) != 0 && C(s.core.regs) / 16 != 10
    ensures var r, n := s.core.regs, B(s.core.regs);
      var t := Steps(bus, s, n);
      && t.core.dev == Sent(bus, s.core.dev, s.core.mem, C(r), up, r.hl, n)
      && t.core.mem == s.core.mem
      && B(t.core.regs) == 0 && C(t.core.regs) == C(r) && t.core.regs.hl == Word(Along(up, r.hl, n))
      && t.core.regs == r.(bc := t.core.regs.bc, hl := t.core.regs.hl, f := t.core.regs.f) && t.core.regs.f.z
      && t.pc == Word(Here(s))
      && Cost(bus, s, n) == Fetch(s.core.mem, s.pc).cost - 8 + 21 * n - 5
  {
    hide Fetch, Step, Steps, Cost, Read, Along, Sent, PortFlags, Hi, Lo, Pair, Word;
    var r, n := s.core.regs, B(s.core.regs);
    SendRun(bus, s, up, n);
    SetBParts(r, 0);
    ZeroSet(Read(s.core.mem, Along(up, r.hl, n - 1)), Lo(Word(Along(up, r.hl, n))));
  }

  /** No trap on the way. */
  lemma {:induction false} SendIsSafe<D>(bus: Bus<D>, s: State<D>, up: bool, left: int, j: nat, k: nat)
    requires At(s, Output, up) && C(s.core.regs) / 16 != 10 && B(s.core.regs) != 0 && j + k <= B(s.core.regs)
    ensures Safe(bus, if j == 0 then s else Sending(bus, s, up, j), left, k)
    decreases k
  {
    hide Fetch, Step, Sending, Trap, Hi, Lo;
    if k > 0 {
      var t := if j == 0 then s else Sending(bus, s, up, j);
      if j == 0 {
        SendFirst(bus, s, up);
      } else {
        SendingAt(bus, s, up, j);
        SendNext(bus, s, up, j + 1);
      }
      SendNoTrap(bus, t, up, left);
      SendIsSafe(bus, s, up, Left(Step(bus, t), left), j + 1, k - 1);
      SafeOnce(bus, t, left, k);
    }
  }

  lemma SendNoTrap<D>(bus: Bus<D>, t: State<D>, up: bool, left: int)
    requires At(t, Output, up) && C(t.core.regs) / 16 != 10 && B(t.core.regs) != 0
    ensures !Trap(bus, t, left)
  {
    hide Fetch, Step, Read, NoMatch, PortFlags, Hi, Lo, Pair;
    OutputOnce(bus, t, up);
    SetBParts(t.core.regs, B(t.core.regs) - 1);
    BytesStay(t, t.core.mem);
  }

  // Input.

  /** The devices after `j` bytes were read from `port`. */
  ghost function Asked<D>(bus: Bus<D>, dev: D, port: byte, j: nat): D {
    if j == 0 then dev else bus.input(Asked(bus, dev, port, j - 1), port).0
  }

  /** The byte that the read after `i` others gives. */
  ghost function Given<D>(bus: Bus<D>, dev: D, port: byte, i: nat): byte {
    bus.input(Asked(bus, dev, port, i), port).1
  }

  /** Memory after `j` bytes were stored one by one. */
  ghost function Filled<D>(bus: Bus<D>, dev: D, m: Memory, port: byte, up: bool, hl: int, j: nat): (r: Memory)
    ensures r.slots == m.slots
    decreases j
  {
    hide Write, Along, Given;
    if j == 0 then m
    else Write(Filled(bus, dev, m, port, up, hl, j - 1), Along(up, hl, j - 1), Given(bus, dev, port, j - 1))
  }

  lemma FilledNext<D>(bus: Bus<D>, dev: D, m: Memory, port: byte, up: bool, hl: int, j: nat)
    requires j > 0
    ensures Filled(bus, dev, m, port, up, hl, j)
         == Write(Filled(bus, dev, m, port, up, hl, j - 1), Along(up, hl, j - 1), Given(bus, dev, port, j - 1))
    ensures Asked(bus, dev, port, j) == bus.input(Asked(bus, dev, port, j - 1), port).0
    ensures Given(bus, dev, port, j - 1) == bus.input(Asked(bus, dev, port, j - 1), port).1
  {
    hide Write, Along;
  }

  /** Byte `i` given is at the `i`th address; everything else is as it was. */
  lemma {:induction false} FilledMeaning<D>(bus: Bus<D>, dev: D, m: Memory, port: byte, up: bool, hl: int, j: nat)
    requires j <= 65536 && SoleRange(m, up, hl, j)
    ensures forall i :: 0 <= i < j ==>
      Read(Filled(bus, dev, m, port, up, hl, j), Along(up, hl, i)) == Given(bus, dev, port, i)
    ensures forall a: word :: OutsideRange(up, hl, j, a) ==>
      Read(Filled(bus, dev, m, port, up, hl, j), a) == Read(m, a)
    decreases j
  {
    hide Read, Write, Sole, Along, OutsideRange, Given, Filled;
    if j == 0 {
      NothingFilled(bus, dev, m, port, up, hl);
    } else {
      assert SoleRange(m, up, hl, j - 1);
      FilledMeaning(bus, dev, m, port, up, hl, j - 1);
      FilledNext(bus, dev, m, port, up, hl, j);
      var m', v := Filled(bus, dev, m, port, up, hl, j - 1), Given(bus, dev, port, j - 1);
      assert Sole(m, Word(Along(up, hl, j - 1)));
      forall i | 0 <= i < j
        ensures Read(Filled(bus, dev, m, port, up, hl, j), Along(up, hl, i)) == Given(bus, dev, port, i)
      {
        SoleWrite(m', m, Along(up, hl, j - 1), v, Along(up, hl, i));
        if Word(Along(up, hl, i)) == Word(Along(up, hl, j - 1)) {
          AlongInjective(up, hl, i, j - 1);
        }
      }
      forall a: word | OutsideRange(up, hl, j, a)
        ensures Read(Filled(bus, dev, m, port, up, hl, j), a) == Read(m, a)
      {
        SoleWrite(m', m, Along(up, hl, j - 1), v, a);
        OutsideShorter(up, hl, j, a);
      }
    }
  }

  lemma NothingFilled<D>(bus: Bus<D>, dev: D, m: Memory, port: byte, up: bool, hl: int)
    ensures Filled(bus, dev, m, port, up, hl, 0) == m
  {
  }

  /** The cells that the input fills are writable, not aliased, and clear of the instruction itself. */
  ghost predicate ClearInput<D>(s: State<D>, up: bool)
    requires Fetch(s.core.mem, s.pc).Fetched?
  {
    hide Fetch, SoleRange, OutsideRange;
    var hl, n := s.core.regs.hl, B(s.core.regs);
    && SoleRange(s.core.mem, up, hl, n)
    && OutsideRange(up, hl, n, Word(Here(s) - 2)) && OutsideRange(up, hl, n, Word(Here(s) - 1))
  }

  /** The state after `j` iterations of INIR or INDR from `s`. */
  ghost function Filling<D>(bus: Bus<D>, s: State<D>, up: bool, j: nat): State<D>
    requires At(s, Input, up) && 0 < j <= B(s.core.regs)
  {
    hide Fetch, PortFlags, Filled, Asked, Given, Along, Hi, Lo, Pair;
    var f, r, m := Fetch(s.core.mem, s.pc), s.core.regs, s.core.mem;
    var b, v := B(r) - j, Given(bus, s.core.dev, C(r), j - 1);
    State(Core(SetB(r, b).(hl := Word(Along(up, r.hl, j)), f := PortFlags(b, v, Byte(C(r) + Step1(up)))),
               Filled(bus, s.core.dev, m, C(r), up, r.hl, j), Asked(bus, s.core.dev, C(r), j)),
          Word(Here(s) - (if b != 0 then 2 else 0)), (s.r + f.refresh + 2 * (j - 1)) % 128)
  }

  lemma InputOnce<D>(bus: Bus<D>, s: State<D>, up: bool)
    requires At(s, Input, up) && B(s.core.regs) != 0
    ensures var f, r, (dev, v) := Fetch(s.core.mem, s.pc), s.core.regs, bus.input(s.core.dev, C(s.core.regs));
      var b := B(r) - 1;
      Step(bus, s) ==
        Tick(State(Core(SetB(r, b).(hl := Word(Along(up, r.hl, 1)), f := PortFlags(b, v, Byte(C(r) + Step1(up)))),
                        Write(s.core.mem, r.hl, v), dev),
                   Word(Here(s) - (if b != 0 then 2 else 0)), (s.r + f.refresh) % 128),
             f.cost + (if b != 0 then 13 else 8), Plain)
  {
    hide Fetch, Step, Read, Write, PortFlags, Hi, Lo, Pair;
    StepOfRepeat(bus, s);
    PairParts(B(s.core.regs) - 1, C(s.core.regs));
  }

  lemma FillFirst<D>(bus: Bus<D>, s: State<D>, up: bool)
    requires At(s, Input, up) && B(s.core.regs) != 0
    ensures Step(bus, s)
         == Tick(Filling(bus, s, up, 1), Fetch(s.core.mem, s.pc).cost + (if 1 < B(s.core.regs) then 13 else 8), Plain)
  {
    hide Fetch, Step, Write, Along, PortFlags, Filled, Given, Hi, Lo, Pair, Byte;
    var r := s.core.regs;
    InputOnce(bus, s, up);
    AlongZero(up, r.hl);
    NothingFilled(bus, s.core.dev, s.core.mem, C(r), up, r.hl);
    FilledNext(bus, s.core.dev, s.core.mem, C(r), up, r.hl, 1);
  }

  lemma OpcodeStaysFilled<D>(bus: Bus<D>, s: State<D>, up: bool, j: nat)
    requires At(s, Input, up) && ClearInput(s, up) && j <= B(s.core.regs)
    ensures var r, m := s.core.regs, s.core.mem;
      var m' := Filled(bus, s.core.dev, m, C(r), up, r.hl, j);
      && Read(m', Word(Here(s) - 2)) == Read(m, Word(Here(s) - 2))
      && Read(m', Word(Here(s) - 1)) == Read(m, Word(Here(s) - 1))
  {
    hide Fetch, Read, Filled, Along, Sole, Hi, Lo;
    var r := s.core.regs;
    FilledMeaning(bus, s.core.dev, s.core.mem, C(r), up, r.hl, j);
    assert OutsideRange(up, r.hl, j, Word(Here(s) - 2)) && OutsideRange(up, r.hl, j, Word(Here(s) - 1));
  }

  lemma FillingAt<D>(bus: Bus<D>, s: State<D>, up: bool, j: nat)
    requires At(s, Input, up) && ClearInput(s, up) && 0 < j < B(s.core.regs)
    ensures var t := Filling(bus, s, up, j);
      && At(t, Input, up) && B(t.core.regs) == B(s.core.regs) - j && C(t.core.regs) == C(s.core.regs)
      && Fetch(t.core.mem, t.pc).cost == 8 && Fetch(t.core.mem, t.pc).refresh == 2
      && Here(t) == Word(Here(s) - 2) + 2
  {
    hide Fetch, Read, Along, PortFlags, Filled, Asked, Given, Hi, Lo, Pair, Word, ClearInput;
    var r := s.core.regs;
    SetBParts(r, B(r) - j);
    OpcodeStaysFilled(bus, s, up, j);
    OpcodeStays(s, Filled(bus, s.core.dev, s.core.mem, C(r), up, r.hl, j));
  }

  lemma FillNext<D>(bus: Bus<D>, s: State<D>, up: bool, j: nat)
    requires At(s, Input, up) && ClearInput(s, up) && 1 < j <= B(s.core.regs)
    ensures Step(bus, Filling(bus, s, up, j - 1))
         == Tick(Filling(bus, s, up, j), if j < B(s.core.regs) then 21 else 16, Plain)
  {
    hide Fetch, Step, Read, Write, Along, PortFlags, Filled, Asked, Given, Hi, Lo, Pair, Word, Byte, ClearInput;
    var r, m, dev := s.core.regs, s.core.mem, s.core.dev;
    var t := Filling(bus, s, up, j - 1);
    FillingAt(bus, s, up, j - 1);
    InputOnce(bus, t, up);
    AlongAgain(up, r.hl, j - 1);
    WordAbsorbs(Here(s) - 2, 2);
    WordAbsorbs(Here(s) - 2, 0);
    FilledNext(bus, dev, m, C(r), up, r.hl, j);
    Writes(Filled(bus, dev, m, C(r), up, r.hl, j - 1), Along(up, r.hl, j - 1), Given(bus, dev, C(r), j - 1));
    SetBAgain(r, B(r) - (j - 1), B(r) - j);
  }

  /** INIR and INDR: 21 cycles an iteration, 16 for the last, besides any prefixes. */
  lemma {:induction false} FillRun<D>(bus: Bus<D>, s: State<D>, up: bool, j: nat)
    requires At(s, Input, up) && ClearInput(s, up) && 0 < j <= B(s.core.regs)
    ensures Steps(bus, s, j) == Filling(bus, s, up, j)
    ensures Cost(bus, s, j)
         == Fetch(s.core.mem, s.pc).cost - 8 + 21 * j - (if j < B(s.core.regs) then 0 else 5)
    decreases j
  {
    hide Fetch, Step, Filling, Steps, Cost, Hi, Lo, ClearInput;
    if j == 1 {
      FillFirst(bus, s, up);
      OneStep(bus, s);
    } else {
      FillRun(bus, s, up, j - 1);
      StepsAdd(bus, s, j - 1, 1);
      FillNext(bus, s, up, j);
      OneStep(bus, Filling(bus, s, up, j - 1));
    }
  }

  /** A whole INIR or INDR on writable, unaliased memory clear of its own opcode: B bytes are read from port
      C, byte `i` of them lands at the `i`th address from HL on, and nothing else changes in memory; B is
      zero, C is kept, HL has moved past the bytes, Z is set. */
  lemma FillMeaning<D>(bus: Bus<D>, s: State<D>, up: bool)
    requires At(s, Input, up) && ClearInput(s, up) && B(s.core.regs) != 0
    ensures var r, m, n := s.core.regs, s.core.mem, B(s.core.regs);
      var t := Steps(bus, s, n);
      && t.core.dev == Asked(bus, s.core.dev, C(r), n)
      && (forall i :: 0 <= i < n ==> Read(t.core.mem, Along(up, r.hl, i)) == Given(bus, s.core.dev, C(r), i))
      && (forall a: word :: OutsideRange(up, r.hl, n, a) ==> Read(t.core.mem, a) == Read(m, a))
      && B(t.core.regs) == 0 && C(t.core.regs) == C(r) && t.core.regs.hl == Word(Along(up, r.hl, n))
      && t.core.regs == r.(bc := t.core.regs.bc, hl := t.core.regs.hl, f := t.core.regs.f) && t.core.regs.f.z
      && t.pc == Word(Here(s))
      && Cost(bus, s, n) == Fetch(m, s.pc).cost - 8 + 21 * n - 5
  {
    hide Fetch, Step, Steps, Cost, Read, Along, Filled, Asked, Given, PortFlags, Hi, Lo, Pair, Word, Byte, SoleRange,
      OutsideRange;
    var r, n := s.core.regs, B(s.core.regs);
    FillRun(bus, s, up, n);
    FilledMeaning(bus, s.core.dev, s.core.mem, C(r), up, r.hl, n);
    SetBParts(r, 0);
    ZeroSet(Given(bus, s.core.dev, C(r), n - 1), Byte(C(r) + Step1(up)));
  }

  lemma FillNoTrap<D>(bus: Bus<D>, s: State<D>, up: bool, left: int, j: nat)
    requires At(s, Input, up) && ClearInput(s, up) && j < B(s.core.regs)
    ensures var t := if j == 0 then s else Filling(bus, s, up, j);
      !Trap(bus, t, left) && Step(bus, t).Tick? && Step(bus, t).s == Filling(bus, s, up, j + 1)
  {
    hide Fetch, Step, Read, Write, Along, NoMatch, OwnOpcode, PortFlags, Filled, Asked, Given, Hi, Lo, Pair, ClearInput;
    var r := s.core.regs;
    if j == 0 {
      FillFirst(bus, s, up);
    } else {
      FillNext(bus, s, up, j + 1);
      FillingAt(bus, s, up, j);
    }
    SetBParts(r, B(r) - (j + 1));
    OpcodeStaysFilled(bus, s, up, j + 1);
    BytesStay(s, Filled(bus, s.core.dev, s.core.mem, C(r), up, r.hl, j + 1));
    RepeatIsEd(s.core.mem, s.pc);
    if j > 0 {
      OpcodeStaysFilled(bus, s, up, j);
      OpcodeStays(s, Filled(bus, s.core.dev, s.core.mem, C(r), up, r.hl, j));
    }
  }

  /** No trap on the way. */
  lemma {:induction false} FillIsSafe<D>(bus: Bus<D>, s: State<D>, up: bool, left: int, j: nat, k: nat)
    requires At(s, Input, up) && ClearInput(s, up) && j + k <= B(s.core.regs)
    ensures Safe(bus, if j == 0 then s else Filling(bus, s, up, j), left, k)
    decreases k
  {
    hide Fetch, Step, Filling, Trap, Hi, Lo, ClearInput;
    if k > 0 {
      var t := if j == 0 then s else Filling(bus, s, up, j);
      FillNoTrap(bus, s, up, left, j);
      FillIsSafe(bus, s, up, Left(Step(bus, t), left), j + 1, k - 1);
      SafeOnce(bus, t, left, k);
    }
  }
}
