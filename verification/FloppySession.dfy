/** Whole sessions: write a sector, let the disk turn, read it back. */
module FloppySession {
  import opened DiskLayout
  import opened Crc8
  import opened Floppy
  import opened FloppyRotation

  /** The clock ticks and transfers of one session. */
  predicate OnlyPuts(ops: seq<Op>) { forall i :: 0 <= i < |ops| ==> ops[i].Tick? || ops[i].Put? }

  predicate OnlyGets(ops: seq<Op>) { forall i :: 0 <= i < |ops| ==> ops[i].Tick? || ops[i].Get? }

  function Ticks(ops: seq<Op>): (n: nat) {
    if ops == [] then 0 else Ticks(ops[..|ops| - 1]) + (if ops[|ops| - 1].Tick? then 1 else 0)
  }

  function Gets(ops: seq<Op>): nat {
    if ops == [] then 0 else Gets(ops[..|ops| - 1]) + (if ops[|ops| - 1].Get? then 1 else 0)
  }

  /** The bytes written, in order. */
  function Written(ops: seq<Op>): seq<bv8> {
    if ops == [] then []
    else
      var rest, op := Written(ops[..|ops| - 1]), ops[|ops| - 1];
      if op.Put? then rest + [op.data] else rest
  }

  function AtMost(n: int, k: int): nat
    requires k >= 0
  {
    if n < 0 then 0 else if n < k then n else k
  }

  /** The image with `data` laid over its bytes from `base` on. */
  function Laid(m: image, base: nat, data: seq<bv8>): (r: image)
    requires base + |data| <= FD_MAX_SIZE
  {
    m[..base] + data + m[base + |data|..]
  }

  /** `u` ticks that do not reach the next edge of the sector mark. */
  function Waited(c: Controller, u: nat): Turn {
    if c.turn.powered && c.turn.motor && u <= c.turn.hold then c.turn.(hold := c.turn.hold - u) else c.turn
  }

  const FRAME := PREAMBLE + 2

  /** Data bytes among the first `k` bytes of a frame. */
  function DataCount(k: nat): nat { AtMost(k - FRAME, FD_BLKSIZE) }

  /** The controller after a session's first bytes `bytes` and `u` ticks, from `c`. */
  function Writing(c: Controller, bytes: seq<bv8>, u: nat): Controller {
    hide SectorBase, Laid, Waited;
    var k := |bytes|;
    var d, n := Selected(c), DataCount(k);
    var stored := if n == 0 then [] else bytes[FRAME..FRAME + n];
    Controller(c.drives.With(d.(image := Laid(d.image, SectorBase(c), stored))),
               Transfer(c.xfer.reading, true, AtMost(k, PREAMBLE), AtMost(k - PREAMBLE, 2), n),
               Waited(c, u), c.step)
  }

  lemma LaidNone(m: image, base: nat)
    requires base <= FD_MAX_SIZE
    ensures Laid(m, base, []) == m
  {
  }

  lemma LaidMore(m: image, base: nat, data: seq<bv8>, b: bv8)
    requires base + |data| < FD_MAX_SIZE
    ensures Poked(Laid(m, base, data), base + |data|, b) == Laid(m, base, data + [b])
  {
  }

  lemma TickWaits(c: Controller, d: Controller, u: nat)
    requires d.turn == Waited(c, u) && u < c.turn.hold
    ensures Update(d) == d.(turn := Waited(c, u + 1))
  {
    hide SecmarkLow, SecmarkHigh;
  }

  /** One more byte of the frame. */
  lemma PutOne(c: Controller, bytes: seq<bv8>, u: nat, b: bv8)
    requires |bytes| < FRAME + FD_BLKSIZE
    ensures WriteByte(Writing(c, bytes, u), b) == Writing(c, bytes + [b], u)
  {
    hide SectorBase, Laid, Waited, Poked, Base, SecmarkLow;
    var k, d, base := |bytes|, Selected(c), SectorBase(c);
    LaidNone(d.image, base);
    if k >= FRAME {
      var n := DataCount(k);
      var stored := if n == 0 then [] else bytes[FRAME..FRAME + n];
      assert (bytes + [b])[FRAME..FRAME + n + 1] == stored + [b];
      LaidMore(d.image, base, stored, b);
      SameBaseWriting(c, bytes, u);
    }
  }

  lemma SameBaseWriting(c: Controller, bytes: seq<bv8>, u: nat)
    ensures SectorBase(Writing(c, bytes, u)) == SectorBase(c)
  {
    hide Base, Laid, Waited;
  }

  /** A write session in progress, whatever the clock does in between. */
  lemma {:induction false} WriteProgress(c: Controller, ops: seq<Op>)
    requires OnlyPuts(ops) && Ticks(ops) <= c.turn.hold && |Written(ops)| <= FRAME + FD_BLKSIZE
    ensures Run(SetWriteMode(c, true), ops).0 == Writing(c, Written(ops), Ticks(ops))
    decreases |ops|
  {
    hide Writing, WriteByte, Update, Selected;
    if ops == [] {
      WritingStart(c);
    } else {
      var rest, op := ops[..|ops| - 1], ops[|ops| - 1];
      WriteProgress(c, rest);
      var d := Writing(c, Written(rest), Ticks(rest));
      if op.Tick? {
        WritingTurn(c, Written(rest), Ticks(rest));
        TickWaits(c, d, Ticks(rest));
      } else {
        PutOne(c, Written(rest), Ticks(rest), op.data);
      }
    }
  }

  lemma WritingStart(c: Controller)
    ensures Writing(c, [], 0) == SetWriteMode(c, true)
  {
    hide SectorBase, Laid;
    LaidNone(Selected(c).image, SectorBase(c));
  }

  lemma WritingTurn(c: Controller, bytes: seq<bv8>, u: nat)
    ensures Writing(c, bytes, u).turn == Waited(c, u)
    ensures Writing(c, bytes, u).(turn := Waited(c, u + 1)) == Writing(c, bytes, u + 1)
  {
    hide SectorBase, Laid, Waited;
  }

  /** The frame a guest writes: 34 preamble bytes, two sync bytes, the data and the checksum. */
  predicate Framed(bytes: seq<bv8>, data: seq<bv8>) {
    |bytes| == 34 + 2 + 512 && |data| == 512 && bytes[36..] == data
  }

  /** A whole write session stores the data in the sector under the head and nothing else anywhere;
      the checksum byte ends it and brings the next sector on. */
  lemma WriteSession(c: Controller, ops: seq<Op>, data: seq<bv8>, crc: bv8)
    requires OnlyPuts(ops) && Ticks(ops) <= c.turn.hold && Framed(Written(ops), data)
    ensures var d := Run(c, [WriteOn] + ops + [Put(crc)]).0;
      && Selected(d) == Drive(Laid(Selected(c).image, SectorBase(c), data), Selected(c).track,
                              Following(Selected(c).sector))
      && d.drives.Other() == c.drives.Other()
      && d.drives.disk == c.drives.disk && d.drives.sideOne == c.drives.sideOne
      && d.turn.mark && d.turn.hold == MARK_HOLD && !d.xfer.reading && !d.xfer.writing
      && d.turn.powered == c.turn.powered && d.turn.motor == c.turn.motor
  {
    hide SectorBase, Laid, Waited, Following, Shown, Run, WriteByte, SetWriteMode;
    RunConcat(c, [WriteOn] + ops, [Put(crc)]);
    RunConcat(c, [WriteOn], ops);
    RunOne(c, WriteOn);
    WriteProgress(c, ops);
    var e := Writing(c, Written(ops), Ticks(ops));
    RunOne(e, Put(crc));
    LastPut(c, Written(ops), Ticks(ops), crc);
    WaitedMotor(c, Ticks(ops));
    assert Written(ops)[FRAME..FRAME + FD_BLKSIZE] == data;
  }

  lemma WaitedMotor(c: Controller, u: nat)
    ensures Waited(c, u).powered == c.turn.powered && Waited(c, u).motor == c.turn.motor
  {
  }

  lemma LastPut(c: Controller, bytes: seq<bv8>, u: nat, crc: bv8)
    requires |bytes| == FRAME + FD_BLKSIZE
    ensures WriteByte(Writing(c, bytes, u), crc) == SecmarkLow(Writing(c, bytes, u))
  {
    hide SectorBase, Laid, Waited, SecmarkLow;
  }

  lemma RunOne(c: Controller, op: Op)
    ensures Run(c, [op]) == Do(c, op)
  {
    hide Do;
    assert [op][..0] == [];
    assert Run(c, []) == (c, []);
    assert [] + Do(c, op).1 == Do(c, op).1;
  }

  lemma RunLast(c: Controller, ops: seq<Op>)
    requires ops != []
    ensures var (d, out) := Run(c, ops[..|ops| - 1]);
      var (e, v) := Do(d, ops[|ops| - 1]);
      Run(c, ops) == (e, out + v)
  {
    hide Do;
  }

  // Reading.

  /** The controller after `k` bytes of a read session past the first sync byte, and `u` ticks. */
  function Reading(c: Controller, k: nat, u: nat): Controller {
    hide Waited;
    c.(xfer := Transfer(true, c.xfer.writing, 0, if k == 0 then 1 else 2, AtMost(k - 1, FD_BLKSIZE)),
       turn := Waited(c, u))
  }

  /** The bytes a read session gives after the first sync byte. */
  function Stream(c: Controller): (s: seq<bv8>)
    ensures |s| == FD_BLKSIZE + 2
  {
    hide SectorData;
    [Sync2(c)] + SectorData(c) + [Crc(SectorData(c))]
  }

  lemma GetOne(c: Controller, k: nat, u: nat)
    requires k <= FD_BLKSIZE
    ensures ReadByte(Reading(c, k, u)) == (Reading(c, k + 1, u), Stream(c)[k])
  {
    hide SecmarkLow, Waited, Crc, SectorBase, Block, Sync2;
    SameHead(c, k, u);
  }

  lemma SameHead(c: Controller, k: nat, u: nat)
    ensures SectorData(Reading(c, k, u)) == SectorData(c) && Sync2(Reading(c, k, u)) == Sync2(c)
  {
    hide Waited, Base, Block, Sync2Fast;
  }

  lemma {:induction false} ReadProgress(c: Controller, ops: seq<Op>)
    requires OnlyGets(ops) && Ticks(ops) <= c.turn.hold && Gets(ops) <= FD_BLKSIZE + 1
    ensures Run(Reading(c, 0, 0), ops) == (Reading(c, Gets(ops), Ticks(ops)), Stream(c)[..Gets(ops)])
    decreases |ops|
  {
    hide Reading, ReadByte, Update, Stream;
    if ops != [] {
      var rest, op := ops[..|ops| - 1], ops[|ops| - 1];
      ReadProgress(c, rest);
      var k, u := Gets(rest), Ticks(rest);
      if op.Tick? {
        ReadingTurn(c, k, u);
        TickWaits(c, Reading(c, k, u), u);
        assert Stream(c)[..k] + [] == Stream(c)[..k];
      } else {
        GetOne(c, k, u);
        assert Stream(c)[..k] + [Stream(c)[k]] == Stream(c)[..k + 1];
      }
    }
  }

  lemma ReadingTurn(c: Controller, k: nat, u: nat)
    ensures Reading(c, k, u).turn == Waited(c, u)
    ensures Reading(c, k, u).(turn := Waited(c, u + 1)) == Reading(c, k, u + 1)
  {
    hide Waited;
  }

  /** One operation, some others, and one more. */
  lemma RunAround(c: Controller, x: Op, mid: seq<Op>, y: Op)
    ensures var (c1, out1) := Do(c, x);
      var (c2, out2) := Run(c1, mid);
      var (c3, out3) := Do(c2, y);
      Run(c, [x] + mid + [y]) == (c3, out1 + out2 + out3)
  {
    hide Do, Run;
    RunConcat(c, [x] + mid, [y]);
    RunConcat(c, [x], mid);
    RunOne(c, x);
    RunOne(Run(Do(c, x).0, mid).0, y);
  }

  /** A read session up to its first sync byte. */
  lemma ReadStart(c: Controller, before: seq<Op>)
    requires (forall i :: 0 <= i < |before| ==> before[i].Tick?) && |before| <= c.turn.hold
    ensures Run(c, [ReadOn] + before + [GetSync]).0 == Reading(c.(turn := Waited(c, |before|)), 0, 0)
    ensures Run(c, [ReadOn] + before + [GetSync]).1 == [0xfb]
  {
    hide Waited, Run, Reading, SetReadMode, Do;
    var c1 := SetReadMode(c, true);
    RunAround(c, ReadOn, before, GetSync);
    DoSimple(c);
    SameWait(c, c1, |before|);
    TicksOnly(c1, before);
    DoSimple(c1.(turn := Waited(c1, |before|)));
    ReadingStart(c, c1, |before|);
  }

  lemma DoSimple(c: Controller)
    ensures Do(c, ReadOn) == (SetReadMode(c, true), [])
    ensures Do(c, GetSync) == (c.(xfer := c.xfer.(sync := 1)), [0xfb])
  {
    hide SetReadMode;
  }

  lemma SameWait(c: Controller, d: Controller, u: nat)
    ensures d == SetReadMode(c, true) ==> Waited(d, u) == Waited(c, u)
    ensures SetReadMode(c, true).turn == c.turn
  {
  }

  /** The 515 bytes of a session: sync 1, a byte that names the place under the head, the data and their
      checksum. */
  predicate Delivered(out: seq<bv8>, c: Controller, data: seq<bv8>) {
    && |data| == 512 && |out| == 515
    && out == [0xfb, out[1]] + data + [Crc(data)]
    && SyncNames(out[1], Selected(c).track, Selected(c).sector, c.drives.sideOne)
  }

  lemma StreamDelivered(c: Controller)
    ensures Delivered([0xfb] + Stream(c), c, SectorData(c))
  {
    hide SectorData, Sync2, Crc, SyncNames;
    Sync2Names(c);
    var d := SectorData(c);
    assert [0xfb] + Stream(c) == [0xfb, Sync2(c)] + d + [Crc(d)];
  }

  /** A whole read session gives sync 1, the sync 2 of the place under the head, its 512 bytes and
      their checksum, and changes no disk byte. */
  lemma ReadSession(c: Controller, before: seq<Op>, ops: seq<Op>)
    requires (forall i :: 0 <= i < |before| ==> before[i].Tick?) && OnlyGets(ops)
    requires |before| + Ticks(ops) <= c.turn.hold && Gets(ops) == FD_BLKSIZE + 1
    ensures var (d, out) := Run(c, [ReadOn] + before + [GetSync] + ops + [Get]);
      && out == [0xfb] + Stream(c) && Delivered(out, c, SectorData(c))
      && Selected(d).image == Selected(c).image && d.drives.Other() == c.drives.Other()
  {
    hide Delivered, SectorData, Waited, Following, Shown, Run, ReadByte, Reading, Stream, SectorBase, Sync2, Crc;
    var first := [ReadOn] + before + [GetSync];
    RunConcat(c, first + ops, [Get]);
    RunConcat(c, first, ops);
    ReadStart(c, before);
    var b := c.(turn := Waited(c, |before|));
    HoldLeft(c, |before|);
    ReadProgress(b, ops);
    var e := Reading(b, FD_BLKSIZE + 1, Ticks(ops));
    RunOne(e, Get);
    LastGet(b, Ticks(ops));
    StreamSame(c, |before|);
    var s := Stream(c);
    assert ([0xfb] + s[..FD_BLKSIZE + 1]) + [s[FD_BLKSIZE + 1]] == [0xfb] + s;
    StreamDelivered(c);
  }

  lemma HoldLeft(c: Controller, u: nat)
    requires u <= c.turn.hold
    ensures Waited(c, u).hold >= c.turn.hold - u
  {
  }

  lemma ReadingStart(c: Controller, c1: Controller, u: nat)
    requires c1 == SetReadMode(c, true)
    ensures var d := c1.(turn := Waited(c1, u));
      d.(xfer := d.xfer.(sync := 1)) == Reading(c.(turn := Waited(c, u)), 0, 0)
  {
  }

  lemma StreamSame(c: Controller, u: nat)
    ensures Stream(c.(turn := Waited(c, u))) == Stream(c)
  {
    hide Waited, Base, Block, Sync2Fast, Crc;
  }

  lemma LastGet(c: Controller, u: nat)
    ensures var e := Reading(c, FD_BLKSIZE + 1, u);
      ReadByte(e) == (SecmarkLow(e), Stream(c)[FD_BLKSIZE + 1]) && e.drives == c.drives
  {
    hide SecmarkLow, Waited, Crc, SectorBase, Block, Sync2;
    SameHead(c, FD_BLKSIZE + 1, u);
  }

  lemma {:induction false} TicksOnly(c: Controller, ops: seq<Op>)
    requires (forall i :: 0 <= i < |ops| ==> ops[i].Tick?) && |ops| <= c.turn.hold
    ensures Run(c, ops) == (c.(turn := Waited(c, |ops|)), [])
    decreases |ops|
  {
    hide Update;
    if ops != [] {
      var d := c.(turn := Waited(c, |ops| - 1));
      TicksOnly(c, ops[..|ops| - 1]);
      TickWaits(c, d, |ops| - 1);
      RunLast(c, ops);
      assert Do(d, Tick) == (Update(d), []);
      assert [] + Do(d, Tick).1 == [];
    }
  }

  lemma LaidBlock(m: image, base: nat, data: seq<bv8>)
    requires base + FD_BLKSIZE <= FD_MAX_SIZE && |data| == FD_BLKSIZE
    ensures Block(Laid(m, base, data), base) == data
  {
  }

  /** A write session and a whole turn later the frame's data lie under the head. */
  lemma WrittenComesRound(c: Controller, puts: seq<Op>, data: seq<bv8>, crc: bv8, n: nat)
    requires Inv(c) && Turning(c)
    requires OnlyPuts(puts) && Ticks(puts) <= c.turn.hold && Framed(Written(puts), data)
    requires (n / PERIOD) % FD_SECTORS == FD_SECTORS - 1
    ensures var e := Updates(Run(c, [WriteOn] + puts + [Put(crc)]).0, n);
      && Selected(e).image == Laid(Selected(c).image, SectorBase(c), data)
      && e.drives.Other() == c.drives.Other()
      && SectorBase(e) == SectorBase(c) && SectorData(e) == data
      && Selected(e).track == Selected(c).track && Selected(e).sector == Selected(c).sector
      && e.drives.sideOne == c.drives.sideOne
  {
    hide Run, Updates, SectorBase, Laid, Base, Block, Sync2, Following, SectorData, Inv, Ticks, Written, OnlyPuts;
    var write := [WriteOn] + puts + [Put(crc)];
    var d := Run(c, write).0;
    WriteSession(c, puts, data, crc);
    RunKeepsInv(c, write);
    Rotation(d, n);
    var e := Updates(d, n);
    RoundAgain(Selected(c).sector, n);
    SamePlace(c, e);
    LaidBlock(Selected(c).image, SectorBase(c), data);
    DataUnderHead(e, Selected(e).image, SectorBase(c));
  }

  /** The sector round trip. A frame is written to the sector under the head, with ticks anywhere in
      the session as long as they do not reach the next sector mark; then the disk turns until the
      same sector comes round, one or more revolutions later; then a read session, with ticks
      anywhere, gives back sync 1, the sync 2 of that place, the 512 bytes and their checksum. Every
      other byte of both disks is as it was. */
  lemma SectorRoundTrip(c: Controller, puts: seq<Op>, data: seq<bv8>, crc: bv8, n: nat, before: seq<Op>, gets: seq<Op>)
    requires Inv(c) && Turning(c)
    requires OnlyPuts(puts) && Ticks(puts) <= c.turn.hold && Framed(Written(puts), data)
    requires (n / PERIOD) % FD_SECTORS == FD_SECTORS - 1
    requires (forall i :: 0 <= i < |before| ==> before[i].Tick?) && OnlyGets(gets) && Gets(gets) == FD_BLKSIZE + 1
    requires var d := Run(c, [WriteOn] + puts + [Put(crc)]).0; |before| + Ticks(gets) <= Updates(d, n).turn.hold
    ensures var d := Run(c, [WriteOn] + puts + [Put(crc)]).0;
      var e := Updates(d, n);
      var (f, out) := Run(e, [ReadOn] + before + [GetSync] + gets + [Get]);
      && Delivered(out, c, data)
      && Selected(f).image == Laid(Selected(c).image, SectorBase(c), data)
      && f.drives.Other().image == c.drives.Other().image
  {
    hide Run, Updates, SectorBase, Laid, Sync2, Crc, SectorData, Inv, Turning, OnlyPuts, OnlyGets, Ticks, Gets,
      Framed, Written, SyncNames, Stream;
    var e := Updates(Run(c, [WriteOn] + puts + [Put(crc)]).0, n);
    WrittenComesRound(c, puts, data, crc, n);
    ReadSession(e, before, gets);
  }

  lemma DataUnderHead(e: Controller, m: image, base: nat)
    requires Selected(e).image == m && SectorBase(e) == base
    ensures SectorData(e) == Block(m, base)
  {
    hide SectorBase, Block;
  }

  lemma SamePlace(c: Controller, e: Controller)
    requires e.drives.disk == c.drives.disk && e.drives.sideOne == c.drives.sideOne
    requires Selected(e).track == Selected(c).track && Selected(e).sector == Selected(c).sector
    ensures SectorBase(e) == SectorBase(c) && Sync2(e) == Sync2(c)
  {
    hide Base, Sync2Fast;
  }

  lemma RoundAgain(s: sectorNo, n: nat)
    requires (n / PERIOD) % FD_SECTORS == FD_SECTORS - 1
    ensures (Following(s) + (0 + n) / PERIOD) % FD_SECTORS == s
  {
  }

  function TicksOf(n: nat): seq<Op> { if n == 0 then [] else TicksOf(n - 1) + [Tick] }

  lemma {:induction false} TicksAreUpdates(c: Controller, n: nat)
    ensures Run(c, TicksOf(n)) == (Updates(c, n), [])
  {
    hide Update, Run, Do;
    if n == 0 {
      NoOps(c);
    } else {
      TicksAreUpdates(c, n - 1);
      RunLast(c, TicksOf(n));
      assert TicksOf(n)[..|TicksOf(n)| - 1] == TicksOf(n - 1) && TicksOf(n)[|TicksOf(n)| - 1] == Tick;
      DoTick(Updates(c, n - 1));
      assert [] + Do(Updates(c, n - 1), Tick).1 == [];
    }
  }

  lemma NoOps(c: Controller)
    ensures Run(c, []) == (c, [])
  {
  }

  lemma DoTick(c: Controller)
    ensures Do(c, Tick) == (Update(c), [])
  {
    hide Update;
  }

  lemma {:induction false} NothingRead(c: Controller, ops: seq<Op>)
    requires forall i :: 0 <= i < |ops| ==> !ops[i].Get? && !ops[i].GetSync?
    ensures Run(c, ops).1 == []
    decreases |ops|
  {
    hide Do;
    if ops != [] {
      NothingRead(c, ops[..|ops| - 1]);
      RunLast(c, ops);
    }
  }

  /** The operations of a write session, of a read session, and of the whole round trip. */
  function WriteOps(puts: seq<Op>, crc: bv8): seq<Op> { [WriteOn] + puts + [Put(crc)] }

  function ReadOps(before: seq<Op>, gets: seq<Op>): seq<Op> { [ReadOn] + before + [GetSync] + gets + [Get] }

  function Whole(puts: seq<Op>, crc: bv8, n: nat, before: seq<Op>, gets: seq<Op>): seq<Op> {
    WriteOps(puts, crc) + TicksOf(n) + ReadOps(before, gets)
  }

  /** The round trip as one run of operations. */
  lemma WholeSession(c: Controller, puts: seq<Op>, data: seq<bv8>, crc: bv8, n: nat, before: seq<Op>, gets: seq<Op>)
    requires Inv(c) && Turning(c)
    requires OnlyPuts(puts) && Ticks(puts) <= c.turn.hold && Framed(Written(puts), data)
    requires (n / PERIOD) % FD_SECTORS == FD_SECTORS - 1
    requires (forall i :: 0 <= i < |before| ==> before[i].Tick?) && OnlyGets(gets) && Gets(gets) == FD_BLKSIZE + 1
    requires |before| + Ticks(gets) <= Updates(Run(c, WriteOps(puts, crc)).0, n).turn.hold
    ensures Delivered(Run(c, Whole(puts, crc, n, before, gets)).1, c, data)
    ensures var f := Run(c, Whole(puts, crc, n, before, gets)).0;
      && Selected(f).image == Laid(Selected(c).image, SectorBase(c), data)
      && f.drives.Other().image == c.drives.Other().image
  {
    hide Run, Updates, SectorBase, Laid, Sync2, Crc, SectorData, Inv, Turning, Selected, Ticks, Gets, Framed,
      Written, TicksOf, Delivered;
    var write, read := WriteOps(puts, crc), ReadOps(before, gets);
    NothingRead(c, write);
    var d := Run(c, write).0;
    TicksAreUpdates(d, n);
    RunConcat(c, write, TicksOf(n));
    RunConcat(c, write + TicksOf(n), read);
    SectorRoundTrip(c, puts, data, crc, n, before, gets);
    assert [] + [] + Run(Updates(d, n), read).1 == Run(Updates(d, n), read).1;
  }
}
