/** How the disk turns: the sector clock in closed form. */
module FloppyRotation {
  import opened DiskLayout
  import opened Floppy

  /** Updates from one sector mark to the next: 26 with the mark, 1001 without. */
  const PERIOD := MARK_HOLD + 1 + DATA_HOLD + 1

  predicate Turning(c: Controller) { c.turn.powered && c.turn.motor }

  function Updates(c: Controller, n: nat): Controller {
    hide Update;
    if n == 0 then c else Update(Updates(c, n - 1))
  }

  /** How far the disk has turned since the last sector mark. */
  function Phase(c: Controller): int {
    if c.turn.mark then MARK_HOLD - c.turn.hold else MARK_HOLD + 1 + DATA_HOLD - c.turn.hold
  }

  lemma OneUpdate(c: Controller)
    requires Inv(c) && Turning(c)
    ensures var d := Update(c);
      && Inv(d) && Turning(d) && 0 <= Phase(c) < PERIOD
      && d.drives.disk == c.drives.disk && d.drives.sideOne == c.drives.sideOne
      && d.drives.Other() == c.drives.Other()
      && Selected(d).track == Selected(c).track && Selected(d).image == Selected(c).image
      && Phase(d) == (if Phase(c) == PERIOD - 1 then 0 else Phase(c) + 1)
      && Selected(d).sector == (if Phase(c) == PERIOD - 1 then Following(Selected(c).sector) else Selected(c).sector)
  {
    hide Following;
  }

  /** `n` updates with the motor on: the clock has period 1027, the sector under the head advances
      once a wrap, modulo 10, and nothing on the disks changes. */
  lemma {:induction false} Rotation(c: Controller, n: nat)
    requires Inv(c) && Turning(c)
    ensures var d := Updates(c, n);
      && Inv(d) && Turning(d)
      && Phase(d) == (Phase(c) + n) % 1027
      && Selected(d).sector == (Selected(c).sector + (Phase(c) + n) / 1027) % 10
      && d.drives.disk == c.drives.disk && d.drives.sideOne == c.drives.sideOne
      && d.drives.Other() == c.drives.Other()
      && Selected(d).track == Selected(c).track && Selected(d).image == Selected(c).image
  {
    hide Update, Inv, Turning, Selected;
    OneUpdateRange(c);
    if n > 0 {
      Rotation(c, n - 1);
      OneUpdate(Updates(c, n - 1));
      hide Phase, Following;
      OneTick(Phase(c) + n, Selected(c).sector);
    }
  }

  /** Phase and sector after one more tick, `p` ticks after a mark at sector `s`. */
  lemma OneTick(p: nat, s: sectorNo)
    requires p > 0
    ensures var q := (p - 1) % PERIOD;
      && p % PERIOD == (if q == PERIOD - 1 then 0 else q + 1)
      && (s + p / PERIOD) % FD_SECTORS
         == (var t: sectorNo := (s + (p - 1) / PERIOD) % FD_SECTORS; if q == PERIOD - 1 then Following(t) else t)
  {
    if (p - 1) % PERIOD == PERIOD - 1 {
      assert p / PERIOD == (p - 1) / PERIOD + 1;
      assert Following((s + (p - 1) / PERIOD) % FD_SECTORS) == (s + (p - 1) / PERIOD + 1) % FD_SECTORS;
    } else {
      assert p / PERIOD == (p - 1) / PERIOD;
    }
  }

  lemma OneUpdateRange(c: Controller)
    requires Inv(c)
    ensures 0 <= Phase(c) < PERIOD
  {
  }

  /** Every sector comes under the head within ten turns of the sector clock. */
  lemma EverySectorComes(c: Controller, sector: sectorNo) returns (n: nat)
    requires Inv(c) && Turning(c)
    ensures n < 10270 && Selected(Updates(c, n)).sector == sector
  {
    hide Updates, Inv, Turning, Selected, Phase;
    OneUpdateRange(c);
    var k := (sector - Selected(c).sector) % FD_SECTORS;
    n := if k == 0 then 0 else k * PERIOD - Phase(c);
    Rotation(c, n);
    if k == 0 {
      assert Phase(c) / PERIOD == 0;
    } else {
      assert (Phase(c) + n) / PERIOD == k;
    }
    assert (Selected(c).sector + k) % FD_SECTORS == sector;
  }

  /** The motor command makes the disk turn, and it turns from then on. */
  lemma MotorTurns(c: Controller, op: Op)
    requires c.turn.powered
    ensures Turning(Do(c, Op.MotorOn).0)
    ensures Turning(c) ==> Turning(Do(c, op).0)
  {
    hide SectorBase, SectorData, Poked, Sync2, StepTrack, Following, Pulse, Shown;
  }

  /** The clock stands still while the motor is off, except that a mark whose time is up still turns. */
  lemma MotorOff(c: Controller)
    requires Inv(c) && !Turning(c) && c.turn.hold > 0
    ensures Update(c) == c
  {
  }
}
