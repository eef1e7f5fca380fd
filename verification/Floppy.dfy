/** The floppy disk controller as a state machine over values: one function an operation. */
module Floppy {
  import opened DiskLayout
  import opened Crc8

  const MARK_HOLD := 25
  const DATA_HOLD := 1000
  const PREAMBLE := 34

  type image = s: seq<bv8> | |s| == FD_MAX_SIZE witness seq(FD_MAX_SIZE, _ => 0)
  type trackNo = t: nat | t < FD_TRACKS
  type sectorNo = s: nat | s < FD_SECTORS

  datatype Drive = Drive(image: image, track: trackNo, sector: sectorNo)

  /** The two drives and the one selected, with the side of its disk. */
  datatype Drives = Drives(a: Drive, b: Drive, disk: bool, sideOne: bool) {
    function Selected(): Drive { if disk then b else a }

    function Other(): Drive { if disk then a else b }

    function With(d: Drive): Drives { if disk then Drives(a, d, true, sideOne) else Drives(d, b, false, sideOne) }

    function Side(): nat { if sideOne then 1 else 0 }
  }

  /** A transfer in progress. */
  datatype Transfer = Transfer(reading: bool, writing: bool, preamble: nat, sync: nat, index: nat)

  /** The disk's rotation: the sector mark, the updates to its next edge, and the number shown. */
  datatype Turn = Turn(powered: bool, motor: bool, mark: bool, hold: nat, serialData: bool, sectorPrn: nat)

  datatype Stepper = Stepper(pulse: bool, out: bool, trackZero: bool)

  datatype Controller = Controller(drives: Drives, xfer: Transfer, turn: Turn, step: Stepper)

  /** Holds initially and after every guest operation. */
  predicate Inv(c: Controller) {
    && c.xfer.preamble <= PREAMBLE && c.xfer.sync <= 2 && c.xfer.index <= FD_BLKSIZE
    && c.turn.sectorPrn < 16 && c.turn.hold <= (if c.turn.mark then MARK_HOLD else DATA_HOLD)
  }

  function Init(a: image, b: image): Controller {
    Controller(Drives(Drive(a, 0, 0), Drive(b, 0, 0), false, false), Transfer(false, false, 0, 0, 0),
               Turn(true, false, false, 0, false, 15), Stepper(false, false, false))
  }

  function Selected(c: Controller): Drive { c.drives.Selected() }

  function SetReadMode(c: Controller, on: bool): Controller {
    c.(xfer := Transfer(on, c.xfer.writing, 0, 0, 0))
  }

  function SetWriteMode(c: Controller, on: bool): Controller {
    c.(xfer := Transfer(c.xfer.reading, on, 0, 0, 0))
  }

  function Following(s: sectorNo): sectorNo { (s + 1) % FD_SECTORS }

  /** The number shown for the sector that has passed: 15 for 9. */
  function Shown(s: sectorNo): nat { if s == 9 then 15 else s }

  /** The leading edge of a sector mark: transfers end and the next sector comes under the head. */
  function SecmarkLow(c: Controller): Controller {
    var d := Selected(c);
    Controller(c.drives.With(d.(sector := Following(d.sector))), Transfer(false, false, 0, 0, 0),
               c.turn.(mark := true, hold := MARK_HOLD, serialData := false, sectorPrn := Shown(d.sector)), c.step)
  }

  function SecmarkHigh(c: Controller): Controller {
    c.(xfer := c.xfer.(reading := false, writing := false),
       turn := c.turn.(mark := false, hold := DATA_HOLD, serialData := true))
  }

  /** One turn of the clock. */
  function Update(c: Controller): Controller {
    if c.turn.hold == 0 && c.turn.mark then SecmarkHigh(c)
    else if c.turn.hold == 0 then SecmarkLow(c)
    else if c.turn.powered && c.turn.motor then c.(turn := c.turn.(hold := c.turn.hold - 1))
    else c
  }

  function StepTrack(out: bool, track: trackNo): trackNo {
    if !out then (if track > 0 then track - 1 else 0)
    else if track < FD_TRACKS - 1 then track + 1 else track
  }

  predicate Pulse(data: bv8) { data & 0x10 != 0 }

  /** The drive control register: the head steps, on the drive selected so far, when the pulse bit
      rises; the drive selection comes last. */
  function DriveControl(c: Controller, data: bv8): Controller {
    var out := data & 0x20 != 0;
    var stepping := !c.step.pulse && Pulse(data);
    var t := if stepping then StepTrack(out, Selected(c).track) else Selected(c).track;
    c.(drives := c.drives.With(Selected(c).(track := t)).(sideOne := data & 0x40 != 0, disk := data & 0x02 != 0),
       step := Stepper(Pulse(data), out, if stepping then t == 0 else c.step.trackZero))
  }

  function Base(side: nat, track: trackNo, sector: sectorNo): (n: nat)
    requires side < FD_SIDES
    ensures n + FD_BLKSIZE <= FD_MAX_SIZE
  {
    OffsetInImage(FD_TRACKS, FD_SECTORS, FD_BLKSIZE, side, track, sector, 0);
    OffsetInImage(FD_TRACKS, FD_SECTORS, FD_BLKSIZE, side, track, sector, FD_BLKSIZE - 1);
    DiskOffset(side, track, sector, 0)
  }

  function SectorBase(c: Controller): (n: nat)
    ensures n + FD_BLKSIZE <= FD_MAX_SIZE
  {
    Base(c.drives.Side(), Selected(c).track, Selected(c).sector)
  }

  function Block(m: image, base: nat): (s: seq<bv8>)
    requires base + FD_BLKSIZE <= FD_MAX_SIZE
    ensures |s| == FD_BLKSIZE
  {
    m[base..base + FD_BLKSIZE]
  }

  /** The 512 bytes under the head. */
  function SectorData(c: Controller): (s: seq<bv8>)
    ensures |s| == FD_BLKSIZE
  {
    hide SectorBase;
    Block(Selected(c).image, SectorBase(c))
  }

  function Sync2(c: Controller): bv8 {
    Sync2Fast(Selected(c).track as bv8, Selected(c).sector as bv8, c.drives.Side() as bv8)
  }

  lemma SideBit(c: Controller)
    ensures c.drives.Side() as bv8 == if c.drives.sideOne then 1 else 0
  {
  }

  lemma SmallBytes(track: trackNo, sector: sectorNo)
    ensures track as bv8 < 35 && sector as bv8 < 10
  {
  }

  /** The byte names the place under the head. */
  lemma Sync2Names(c: Controller)
    ensures SyncNames(Sync2(c), Selected(c).track, Selected(c).sector, c.drives.sideOne)
  {
    hide Sync2Fast;
    SideBit(c);
    SmallBytes(Selected(c).track, Selected(c).sector);
    FastNames(Selected(c).track as bv8, Selected(c).sector as bv8, c.drives.sideOne);
  }

  /** It is the byte that the boot loader forms of track, sector and side. */
  lemma Sync2IsNative(c: Controller)
    ensures var d := Selected(c);
      Sync2(c) == Sync2Native(d.track as bv8, d.sector as bv8, if c.drives.sideOne then 1 else 0)
  {
    hide Sync2Fast, Sync2Native;
    SideBit(c);
    SmallBytes(Selected(c).track, Selected(c).sector);
    Sync2Agree(Selected(c).track as bv8, Selected(c).sector as bv8, if c.drives.sideOne then 1 else 0);
  }

  /** A byte from the disk: after sync 1 the second sync byte, then the data, then their checksum. */
  function ReadByte(c: Controller): (Controller, bv8) {
    hide SectorData;
    if !c.xfer.reading then (c, 0)
    else if c.xfer.sync == 1 then (c.(xfer := c.xfer.(sync := 2)), Sync2(c))
    else if c.xfer.index >= FD_BLKSIZE then (SecmarkLow(c), Crc(SectorData(c)))
    else (c.(xfer := c.xfer.(index := c.xfer.index + 1)), SectorData(c)[c.xfer.index])
  }

  function Poked(m: image, at: nat, data: bv8): image
    requires at < FD_MAX_SIZE
  {
    m[at := data]
  }

  /** A byte to the disk: preamble, first and second sync byte, 512 data bytes, checksum. Only the
      number of bytes is checked, and only the data bytes are stored. */
  function WriteByte(c: Controller, data: bv8): Controller {
    hide SectorBase, Poked;
    var x := c.xfer;
    if !x.writing then c
    else if x.preamble < PREAMBLE then c.(xfer := x.(preamble := x.preamble + 1))
    else if x.sync < 2 then c.(xfer := x.(sync := x.sync + 1))
    else if x.index >= FD_BLKSIZE then SecmarkLow(c)
    else
      var d := Selected(c);
      c.(drives := c.drives.With(d.(image := Poked(d.image, SectorBase(c) + x.index, data))),
         xfer := x.(index := x.index + 1))
  }

  /** What the guest can make the controller do through its ports, and the clock. */
  datatype Op = Tick | Control(data: bv8) | ReadOn | ReadOff | WriteOn | MotorOn
              | GetSync | Get | Put(data: bv8)

  /** The new state, and the byte read if the operation reads one. */
  function Do(c: Controller, op: Op): (r: (Controller, seq<bv8>))
    ensures |r.1| == if op.GetSync? || op.Get? then 1 else 0
  {
    hide Update, DriveControl, ReadByte, WriteByte;
    match op
    case Tick => (Update(c), [])
    case Control(data) => (DriveControl(c, data), [])
    case ReadOn => (SetReadMode(c, true), [])
    case ReadOff => (SetReadMode(c, false), [])
    case WriteOn => (SetWriteMode(c, true), [])
    case MotorOn => (c.(turn := c.turn.(motor := true)), [])
    case GetSync => (c.(xfer := c.xfer.(sync := 1)), [0xfb])
    case Get => var (d, v) := ReadByte(c); (d, [v])
    case Put(data) => (WriteByte(c, data), [])
  }

  function Run(c: Controller, ops: seq<Op>): (Controller, seq<bv8>)
    decreases |ops|
  {
    hide Do;
    if ops == [] then (c, [])
    else
      var (d, out) := Run(c, ops[..|ops| - 1]);
      var (e, v) := Do(d, ops[|ops| - 1]);
      (e, out + v)
  }

  lemma {:induction false} RunConcat(c: Controller, a: seq<Op>, b: seq<Op>)
    ensures var (d, out1) := Run(c, a);
      var (e, out2) := Run(d, b);
      Run(c, a + b) == (e, out1 + out2)
    decreases |b|
  {
    hide Do;
    if b == [] {
      assert a + b == a && Run(c, a).1 + [] == Run(c, a).1;
    } else {
      var k := |b| - 1;
      assert (a + b)[..|a + b| - 1] == a + b[..k];
      RunConcat(c, a, b[..k]);
      var out1, out2 := Run(c, a).1, Run(Run(c, a).0, b[..k]).1;
      var v := Do(Run(Run(c, a).0, b[..k]).0, b[k]).1;
      assert (out1 + out2) + v == out1 + (out2 + v);
    }
  }

  // What every guest keeps.

  lemma DoKeepsInv(c: Controller, op: Op)
    requires Inv(c)
    ensures Inv(Do(c, op).0)
  {
    hide SectorBase, SectorData, Poked, Sync2, Crc, StepTrack, Following, Pulse;
  }

  lemma {:induction false} RunKeepsInv(c: Controller, ops: seq<Op>)
    requires Inv(c)
    ensures Inv(Run(c, ops).0)
    decreases |ops|
  {
    hide Do, Inv;
    if ops != [] {
      RunKeepsInv(c, ops[..|ops| - 1]);
      DoKeepsInv(Run(c, ops[..|ops| - 1]).0, ops[|ops| - 1]);
    }
  }

  /** The sector number shown names the sector before the one under the head. */
  predicate Numbered(c: Controller) { Selected(c).sector == (c.turn.sectorPrn + 1) % 16 }

  /** Once true it stays true while the drive stays selected, and every sector mark makes it true. */
  lemma NumberedKept(c: Controller, op: Op)
    ensures var d := Do(c, op).0; Numbered(c) && d.drives.disk == c.drives.disk ==> Numbered(d)
    ensures Numbered(SecmarkLow(c))
  {
    hide SectorBase, SectorData, Poked, Sync2, Crc, StepTrack, Pulse;
  }

  /** A write changes at most one byte, and only inside the sector under the head. */
  lemma WriteStaysInSector(c: Controller, data: bv8, i: nat)
    requires i < FD_MAX_SIZE && Selected(WriteByte(c, data)).image[i] != Selected(c).image[i]
    ensures c.xfer.writing && c.xfer.preamble >= PREAMBLE && c.xfer.sync >= 2 && c.xfer.index < FD_BLKSIZE
    ensures i == SectorBase(c) + c.xfer.index && Selected(WriteByte(c, data)).image[i] == data
    ensures DiskOffset(c.drives.Side(), Selected(c).track, Selected(c).sector, c.xfer.index) == i
  {
    hide Following, Shown;
  }

  /** The drive that was selected before an operation, as it is afterwards. */
  function Was(c: Controller, d: Controller): Drive { if c.drives.disk then d.drives.b else d.drives.a }

  function WasOther(c: Controller, d: Controller): Drive { if c.drives.disk then d.drives.a else d.drives.b }

  /** No operation touches the drive that is not selected, and only data writes touch an image. */
  lemma ImagesKept(c: Controller, op: Op)
    ensures WasOther(c, Do(c, op).0) == c.drives.Other()
    ensures !op.Put? ==> Was(c, Do(c, op).0).image == Selected(c).image
  {
    hide SectorBase, SectorData, Poked, Sync2, Crc, StepTrack, Following, Pulse, Shown;
  }

  /** The head moves exactly when the pulse bit rises. */
  lemma StepsOnRisingEdge(c: Controller, op: Op)
    ensures Was(c, Do(c, op).0).track
         == if op.Control? && !c.step.pulse && Pulse(op.data)
            then StepTrack(op.data & 0x20 != 0, Selected(c).track) else Selected(c).track
  {
    hide SectorBase, SectorData, Poked, Sync2, Crc, StepTrack, Following, Pulse, Shown;
  }

  // Whole runs of any operations, the clock and other accesses between the pulses.

  /** The pulse bit as the last drive control left it. */
  function PulseAfter(pulse: bool, ops: seq<Op>): bool
    decreases |ops|
  {
    if ops == [] then pulse
    else
      var last := ops[|ops| - 1];
      if last.Control? then last.data & 0x10 != 0 else PulseAfter(pulse, ops[..|ops| - 1])
  }

  /** The rising edges of the pulse bit. */
  function Rises(pulse: bool, ops: seq<Op>): nat
    decreases |ops|
  {
    if ops == [] then 0
    else
      var rest, last := ops[..|ops| - 1], ops[|ops| - 1];
      Rises(pulse, rest) + if last.Control? && last.data & 0x10 != 0 && !PulseAfter(pulse, rest) then 1 else 0
  }

  /** A drive control that keeps `disk` selected. */
  predicate Selects(op: Op, disk: bool) { op.Control? ==> (op.data & 0x02 != 0) == disk }

  /** A drive control with the head direction `out`. */
  predicate Heads(op: Op, out: bool) { op.Control? ==> (op.data & 0x20 != 0) == out }

  lemma DriveStays(c: Controller, op: Op)
    requires Selects(op, c.drives.disk)
    ensures Do(c, op).0.drives.disk == c.drives.disk
  {
    hide SectorBase, SectorData, Poked, Sync2, Crc, StepTrack, Following, Pulse, Shown;
  }

  /** While one drive stays selected, the number shown stays right over any run. */
  lemma {:induction false} NumberedRun(c: Controller, ops: seq<Op>)
    requires Numbered(c) && forall i :: 0 <= i < |ops| ==> Selects(ops[i], c.drives.disk)
    ensures Numbered(Run(c, ops).0) && Run(c, ops).0.drives.disk == c.drives.disk
    decreases |ops|
  {
    hide Do, Numbered, Selects;
    if ops != [] {
      var d, op := Run(c, ops[..|ops| - 1]).0, ops[|ops| - 1];
      NumberedRun(c, ops[..|ops| - 1]);
      NumberedKept(d, op);
      DriveStays(d, op);
    }
  }

  lemma InitHolds(a: image, b: image)
    ensures Inv(Init(a, b)) && Numbered(Init(a, b))
  {
  }

  /** One operation that keeps drive and direction: the head steps on a rising edge, and only then. */
  lemma HeadsOn(c: Controller, op: Op, out: bool)
    requires Selects(op, c.drives.disk) && Heads(op, out)
    ensures var d, rise := Do(c, op).0, op.Control? && op.data & 0x10 != 0 && !c.step.pulse;
      && d.drives.disk == c.drives.disk
      && d.step.pulse == (if op.Control? then op.data & 0x10 != 0 else c.step.pulse)
      && Selected(d).track == (if rise then StepTrack(out, Selected(c).track) else Selected(c).track)
      && d.step.trackZero == (if rise then Selected(d).track == 0 else c.step.trackZero)
  {
    hide SectorBase, SectorData, Poked, Sync2, Crc, StepTrack, Following, Shown;
  }

  /** Bits 1 and 6 of the control byte are the drive and the side from then on. */
  lemma ControlSelects(c: Controller, data: bv8)
    ensures var d := Do(c, Control(data)).0;
      && d.drives.disk == (data & 0x02 != 0) && d.drives.sideOne == (data & 0x40 != 0)
      && Selected(d).sector == (if d.drives.disk then c.drives.b.sector else c.drives.a.sector)
  {
    hide StepTrack, Pulse;
  }

  /** Where `m` steps in one direction lead: inward to `max(0, t - m)`, outward to `min(34, t + m)`. */
  function Reached(out: bool, t: trackNo, m: nat): trackNo {
    if out then (if t + m < 35 then t + m else 34) else if m < t then t - m else 0
  }

  /** Any run that keeps the drive and the direction: as many steps as rising edges, and after any step
      the track-zero flag is exact. */
  lemma {:induction false} StepsOneWay(c: Controller, ops: seq<Op>, out: bool)
    requires forall i :: 0 <= i < |ops| ==> Selects(ops[i], c.drives.disk) && Heads(ops[i], out)
    ensures var d, m := Run(c, ops).0, Rises(c.step.pulse, ops);
      && d.drives.disk == c.drives.disk
      && d.step.pulse == PulseAfter(c.step.pulse, ops)
      && Selected(d).track == Reached(out, Selected(c).track, m)
      && (m > 0 ==> d.step.trackZero == (Selected(d).track == 0))
    decreases |ops|
  {
    hide Do, Selects, Heads;
    if ops != [] {
      var rest, op := ops[..|ops| - 1], ops[|ops| - 1];
      StepsOneWay(c, rest, out);
      HeadsOn(Run(c, rest).0, op, out);
    }
  }

  /** Inward: from track `t`, with `m` rising edges, to `max(0, t - m)`. */
  lemma StepsInward(c: Controller, ops: seq<Op>)
    requires forall i :: 0 <= i < |ops| && ops[i].Control? ==>
      ops[i].data & 0x20 == 0 && (ops[i].data & 0x02 != 0) == c.drives.disk
    ensures var d, m := Run(c, ops).0, Rises(c.step.pulse, ops);
      && d.drives.disk == c.drives.disk
      && d.step.pulse == PulseAfter(c.step.pulse, ops)
      && Selected(d).track == (if m < Selected(c).track then Selected(c).track - m else 0)
      && (m > 0 ==> d.step.trackZero == (Selected(d).track == 0))
  {
    hide Run, Rises, PulseAfter;
    StepsOneWay(c, ops, false);
  }
}
