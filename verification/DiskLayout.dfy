/** Where a sector lies in a disk image, and the second sync byte that names it. */
module DiskLayout {
  import opened Words

  const FD_SIDES := 2
  const FD_TRACKS := 35
  const FD_SECTORS := 10
  const FD_BLKSIZE := 512
  const FD_MAX_SIZE := 358400

  /** Side 1 runs backwards, from the last track to the first. */
  function AbsTrack(tracks: nat, side: nat, track: nat): int {
    if side == 1 then 2 * tracks - 1 - track else track
  }

  function Offset(tracks: nat, sectors: nat, block: nat, side: nat, track: nat, sector: nat, i: nat): int {
    (AbsTrack(tracks, side, track) * sectors + sector) * block + i
  }

  /** The offset of byte `i` of a sector on this controller's disks. */
  function DiskOffset(side: nat, track: nat, sector: nat, i: nat): int {
    Offset(FD_TRACKS, FD_SECTORS, FD_BLKSIZE, side, track, sector, i)
  }

  predicate Place(tracks: nat, sectors: nat, block: nat, side: nat, track: nat, sector: nat, i: nat) {
    side < FD_SIDES && track < tracks && sector < sectors && i < block
  }

  lemma DivModUnique(n: int, d: int, q: int, r: int)
    requires d > 0 && 0 <= r < d && n == q * d + r
    ensures n / d == q && n % d == r
  {
    var e := n / d - q;
    assert d * e == r - n % d by {
      assert n == d * (n / d) + n % d;
      assert d * e == d * (n / d) - d * q;
      assert q * d == d * q;
    }
    SmallMultiple(d, e);
  }

  /** The layout is one to one and stays inside the image, for any positive geometry. */
  lemma OffsetInjective(tracks: nat, sectors: nat, block: nat, side: nat, track: nat, sector: nat, i: nat,
                        side': nat, track': nat, sector': nat, i': nat)
    requires Place(tracks, sectors, block, side, track, sector, i)
    requires Place(tracks, sectors, block, side', track', sector', i')
    ensures Offset(tracks, sectors, block, side, track, sector, i)
         == Offset(tracks, sectors, block, side', track', sector', i')
       <==> side == side' && track == track' && sector == sector' && i == i'
  {
    var t, t' := AbsTrack(tracks, side, track), AbsTrack(tracks, side', track');
    var n := Offset(tracks, sectors, block, side, track, sector, i);
    if n == Offset(tracks, sectors, block, side', track', sector', i') {
      DivModUnique(n, block, t * sectors + sector, i);
      DivModUnique(n, block, t' * sectors + sector', i');
      DivModUnique(t * sectors + sector, sectors, t, sector);
      DivModUnique(t' * sectors + sector', sectors, t', sector');
    }
  }

  lemma MulMonotone(a: int, b: int, k: int)
    requires a <= b && k >= 0
    ensures a * k <= b * k
  {
  }

  lemma OffsetInImage(tracks: nat, sectors: nat, block: nat, side: nat, track: nat, sector: nat, i: nat)
    requires Place(tracks, sectors, block, side, track, sector, i)
    ensures 0 <= Offset(tracks, sectors, block, side, track, sector, i) < 2 * tracks * sectors * block
  {
    var t := AbsTrack(tracks, side, track);
    MulMonotone(0, t, sectors);
    MulMonotone(t, 2 * tracks - 1, sectors);
    var s := t * sectors + sector;
    assert 0 <= s <= 2 * tracks * sectors - 1;
    MulMonotone(0, s, block);
    MulMonotone(s, 2 * tracks * sectors - 1, block);
    assert (2 * tracks * sectors - 1) * block == 2 * tracks * sectors * block - block;
  }

  lemma BelowProduct(n: nat, a: nat, d: nat)
    requires d > 0 && n < a * d
    ensures n / d < a
  {
    var q := n / d;
    if q >= a {
      MulMonotone(a, q, d);
    }
  }

  lemma Split(n: nat, a: nat, d: nat) returns (q: nat, r: nat)
    requires d > 0 && n < a * d
    ensures n == q * d + r && q < a && r < d
  {
    q, r := n / d, n % d;
    BelowProduct(n, a, d);
  }

  /** Every byte of the image belongs to a sector: the inverse of the layout. */
  lemma OffsetOnto(tracks: nat, sectors: nat, block: nat, n: nat)
    returns (side: nat, track: nat, sector: nat, i: nat)
    requires tracks > 0 && sectors > 0 && block > 0 && n < 2 * tracks * sectors * block
    ensures Place(tracks, sectors, block, side, track, sector, i)
    ensures Offset(tracks, sectors, block, side, track, sector, i) == n
  {
    var s: nat;
    s, i := Split(n, 2 * tracks * sectors, block);
    var t: nat;
    t, sector := Split(s, 2 * tracks, sectors);
    if t < tracks {
      side, track := 0, t;
    } else {
      side, track := 1, 2 * tracks - 1 - t;
    }
    assert AbsTrack(tracks, side, track) == t;
  }

  /** Rotation to the right by `d` places. */
  function RightRotate8(n: bv8, d: nat): bv8
    requires d < 8
  {
    var mask: bv8 := (1 << d) - 1;
    ((n & mask) << (8 - d)) | ((n & !mask) >> d)
  }

  /** Sync 2 as the CP/M boot loader forms it: track and side rotated into place. */
  function Sync2Native(track: bv8, sector: bv8, side: bv8): bv8 {
    var a := track | (side << 6);
    (RightRotate8(a, 2) & 0xf0) | sector
  }

  function Sync2Fast(track: bv8, sector: bv8, side: bv8): bv8 {
    ((track & 0x03) << 6) | (side << 4) | sector
  }

  /** The shift form equals the rotated form wherever both are defined. */
  lemma Sync2Agree(track: bv8, sector: bv8, side: bv8)
    requires track < 35 && sector < 10 && side < 2
    ensures Sync2Native(track, sector, side) == Sync2Fast(track, sector, side)
  {
  }

  /** What the boot loader reads out of a second sync byte: the sector in the low four bits, the side in
      bit 4, the track modulo 4 in the top two; bit 5 is clear. */
  predicate SyncNames(v: bv8, track: nat, sector: nat, sideOne: bool)
    requires track < FD_TRACKS && sector < FD_SECTORS
  {
    && v & 0x0f == sector as bv8 && (v & 0x10 != 0) == sideOne && v & 0x20 == 0
    && v >> 6 == (track as bv8) % 4
  }

  lemma FastNames(track: bv8, sector: bv8, sideOne: bool)
    requires track < 35 && sector < 10
    ensures var v := Sync2Fast(track, sector, if sideOne then 1 else 0);
      && v & 0x0f == sector && (v & 0x10 != 0) == sideOne && v & 0x20 == 0 && v >> 6 == track % 4
  {
  }
}
