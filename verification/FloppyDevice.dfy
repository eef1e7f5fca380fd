/** The controller with its fields updated in place, proved against the functions of `Floppy`. */
module FloppyDevice {
  import opened DiskLayout
  import opened Crc8
  import opened Floppy

  class Fdc {
    const dataA: array<bv8>
    const dataB: array<bv8>
    var trackA: trackNo
    var trackB: trackNo
    var sectorA: sectorNo
    var sectorB: sectorNo
    var disk: bool
    var side: bool
    var xfer: Transfer
    var turn: Turn
    var step: Stepper

    ghost predicate Valid()
      reads this
    {
      dataA.Length == FD_MAX_SIZE && dataB.Length == FD_MAX_SIZE && dataA != dataB
    }

    ghost function State(): Controller
      requires Valid()
      reads this, dataA, dataB
    {
      Controller(Drives(Drive(dataA[..], trackA, sectorA), Drive(dataB[..], trackB, sectorB), disk, side),
                 xfer, turn, step)
    }

    /** Both drives on track and sector 0, powered, motor off. */
    constructor (a: array<bv8>, b: array<bv8>)
      requires a.Length == FD_MAX_SIZE && b.Length == FD_MAX_SIZE && a != b
      ensures Valid() && dataA == a && dataB == b
      ensures State() == Init(a[..], b[..])
    {
      dataA, dataB := a, b;
      trackA, trackB, sectorA, sectorB := 0, 0, 0, 0;
      disk, side := false, false;
      xfer := Transfer(false, false, 0, 0, 0);
      turn := Turn(true, false, false, 0, false, 15);
      step := Stepper(false, false, false);
    }

    method SetRead(on: bool)
      requires Valid()
      modifies this`xfer
      ensures Valid() && State() == SetReadMode(old(State()), on)
    {
      xfer := xfer.(reading := on, preamble := 0, sync := 0, index := 0);
    }

    method SetWrite(on: bool)
      requires Valid()
      modifies this`xfer
      ensures Valid() && State() == SetWriteMode(old(State()), on)
    {
      xfer := xfer.(writing := on, preamble := 0, sync := 0, index := 0);
    }

    method NextSector()
      requires Valid()
      modifies this`turn, this`sectorA, this`sectorB
      ensures Valid()
      ensures turn == old(turn).(sectorPrn := Shown(if disk then old(sectorB) else old(sectorA)))
      ensures sectorA == (if disk then old(sectorA) else Following(old(sectorA)))
      ensures sectorB == (if disk then Following(old(sectorB)) else old(sectorB))
    {
      var shown: nat := if disk then sectorB else sectorA;
      if shown == 9 {
        shown := 15;
      }
      turn := turn.(sectorPrn := shown);
      if disk {
        sectorB := (sectorB + 1) % FD_SECTORS;
      } else {
        sectorA := (sectorA + 1) % FD_SECTORS;
      }
    }

    method MarkLow()
      requires Valid()
      modifies this
      ensures Valid() && State() == SecmarkLow(old(State()))
    {
      hide Following, Shown;
      SetRead(false);
      SetWrite(false);
      turn := turn.(mark := true, hold := MARK_HOLD);
      NextSector();
      turn := turn.(serialData := false);
    }

    method MarkHigh()
      requires Valid()
      modifies this
      ensures Valid() && State() == SecmarkHigh(old(State()))
    {
      turn := turn.(mark := false, hold := DATA_HOLD, serialData := true);
      xfer := xfer.(reading := false, writing := false);
    }

    method Tick()
      requires Valid()
      modifies this
      ensures Valid() && State() == Update(old(State()))
    {
      hide SecmarkLow, SecmarkHigh;
      if turn.hold == 0 && turn.mark {
        MarkHigh();
      } else if turn.hold == 0 && !turn.mark {
        MarkLow();
      } else if turn.powered && turn.motor && turn.hold != 0 {
        turn := turn.(hold := turn.hold - 1);
      }
    }

    method StepHead()
      requires Valid()
      modifies this`trackA, this`trackB, this`step
      ensures Valid()
      ensures trackA == (if disk then old(trackA) else StepTrack(old(step).out, old(trackA)))
      ensures trackB == (if disk then StepTrack(old(step).out, old(trackB)) else old(trackB))
      ensures step == old(step).(trackZero := (if disk then trackB else trackA) == 0)
    {
      var track := if disk then trackB else trackA;
      if !step.out {
        if track > 0 {
          track := track - 1;
        }
      } else if track < FD_TRACKS - 1 {
        track := track + 1;
      }
      if disk {
        trackB := track;
      } else {
        trackA := track;
      }
      step := step.(trackZero := track == 0);
    }

    method LoadDriveControl(data: bv8)
      requires Valid()
      modifies this
      ensures Valid() && State() == DriveControl(old(State()), data)
    {
      hide StepTrack;
      step := step.(out := data & 0x20 != 0);
      side := data & 0x40 != 0;
      if !step.pulse && Pulse(data) {
        StepHead();
      }
      step := step.(pulse := Pulse(data));
      disk := data & 0x02 != 0;
    }

    method StartMotor()
      requires Valid()
      modifies this`turn
      ensures Valid() && State() == Do(old(State()), Op.MotorOn).0
    {
      turn := turn.(motor := true);
    }

    /** The sector number for the status port. Once a sector mark has gone by since the drive was
        selected (`Floppy.NumberedKept`) the sector under the head is the one after it, 15 counting as
        the one before 0; without power it is 14, which comes before no sector. */
    method GetSector() returns (n: nat)
      requires Valid()
      ensures turn.powered && Numbered(State()) ==> (n + 1) % 16 == Selected(State()).sector
      ensures turn.powered ==> n == turn.sectorPrn
      ensures !turn.powered ==> n == 14 && (n + 1) % 16 >= FD_SECTORS
    {
      if !turn.powered {
        return 14;
      }
      return turn.sectorPrn;
    }

    method ReadSync1() returns (v: bv8)
      requires Valid()
      modifies this`xfer
      ensures Valid() && (State(), [v]) == Do(old(State()), Op.GetSync)
    {
      xfer := xfer.(sync := 1);
      return 0xfb;
    }

    method SectorCrc(base: nat) returns (crc: bv8)
      requires Valid() && base + FD_BLKSIZE <= FD_MAX_SIZE
      ensures crc == Crc(Block(Selected(State()).image, base))
    {
      var buf := if disk then dataB[base..base + FD_BLKSIZE] else dataA[base..base + FD_BLKSIZE];
      assert buf == Block(Selected(State()).image, base);
      crc := CalcCrc8(buf);
    }

    method Read() returns (v: bv8)
      requires Valid()
      modifies this
      ensures Valid() && (State(), v) == ReadByte(old(State()))
    {
      hide Base, Crc, Sync2Fast, SecmarkLow, Block;
      ghost var c := State();
      if !xfer.reading {
        return 0;
      }
      var track, sector := if disk then trackB else trackA, if disk then sectorB else sectorA;
      if xfer.sync == 1 {
        xfer := xfer.(sync := 2);
        return Sync2Fast(track as bv8, sector as bv8, if side then 1 else 0);
      }
      var base := Base(if side then 1 else 0, track, sector);
      assert base == SectorBase(c);
      if xfer.index >= FD_BLKSIZE {
        v := SectorCrc(base);
        MarkLow();
        return;
      }
      v := if disk then dataB[base + xfer.index] else dataA[base + xfer.index];
      assert v == SectorData(c)[xfer.index] by { BlockAt(Selected(c).image, base, xfer.index); }
      xfer := xfer.(index := xfer.index + 1);
    }

    method Write(data: bv8)
      requires Valid()
      modifies this, dataA, dataB
      ensures Valid() && State() == WriteByte(old(State()), data)
    {
      hide Base, SecmarkLow;
      if !xfer.writing {
        return;
      }
      if xfer.preamble < PREAMBLE {
        xfer := xfer.(preamble := xfer.preamble + 1);
        return;
      }
      if xfer.sync == 0 {
        xfer := xfer.(sync := xfer.sync + 1);
        return;
      }
      if xfer.sync == 1 {
        xfer := xfer.(sync := xfer.sync + 1);
        return;
      }
      if xfer.index >= FD_BLKSIZE {
        MarkLow();
        return;
      }
      ghost var c := State();
      var track, sector := if disk then trackB else trackA, if disk then sectorB else sectorA;
      var base := Base(if side then 1 else 0, track, sector);
      assert base == SectorBase(c);
      if disk {
        dataB[base + xfer.index] := data;
        assert dataB[..] == Poked(c.drives.b.image, base + xfer.index, data);
      } else {
        dataA[base + xfer.index] := data;
        assert dataA[..] == Poked(c.drives.a.image, base + xfer.index, data);
      }
      xfer := xfer.(index := xfer.index + 1);
    }

    /** One operation of the guest or the clock. */
    method Obey(op: Op) returns (out: seq<bv8>)
      requires Valid()
      modifies this, dataA, dataB
      ensures Valid() && (State(), out) == Do(old(State()), op)
    {
      hide Update, DriveControl, ReadByte, WriteByte;
      out := [];
      match op {
        case Tick => Tick();
        case Control(data) => LoadDriveControl(data);
        case ReadOn => SetRead(true);
        case ReadOff => SetRead(false);
        case WriteOn => SetWrite(true);
        case MotorOn => StartMotor();
        case GetSync =>
          var v := ReadSync1();
          out := [v];
        case Get =>
          var v := Read();
          out := [v];
        case Put(data) => Write(data);
      }
    }

    /** Any run of operations: what is proved of `Floppy.Run` holds of the controller itself. */
    method Serve(ops: seq<Op>) returns (out: seq<bv8>)
      requires Valid()
      modifies this, dataA, dataB
      ensures Valid() && (State(), out) == Run(old(State()), ops)
    {
      hide Do;
      out := [];
      for i := 0 to |ops|
        invariant Valid() && (State(), out) == Run(old(State()), ops[..i])
      {
        assert ops[..i + 1][..i] == ops[..i];
        var v := Obey(ops[i]);
        out := out + v;
      }
      assert ops[..|ops|] == ops;
    }
  }

  lemma BlockAt(m: image, base: nat, i: nat)
    requires base + FD_BLKSIZE <= FD_MAX_SIZE && i < FD_BLKSIZE
    ensures Block(m, base)[i] == m[base + i]
  {
  }
}
