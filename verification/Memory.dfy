/** The banked memory of the Advantage, as a value: four 16 KB slots, sixteen pages, one RAM image. */
module BankedMemory {
  import opened Words

  const RAM_BASE_VRAM_8 := 0x10000
  const RAM_BASE_VRAM_9 := 0x14000
  const RAM_BASE_PROM := 0x15000
  const RAM_SIZE := 0x15800
  const SLOT_SIZE := 0x4000

  type page = p: int | 0 <= p < 16

  /** Size of the window a page shows; its mask is one less, so `rel & mask` is `rel % PageSize`. */
  function PageSize(p: page): (n: nat)
    ensures 0 < n <= SLOT_SIZE
  {
    if p <= 3 || p == 8 then 0x4000
    else if p == 9 then 0x1000
    else if p >= 12 then 0x0800
    else 1
  }

  function PageBase(p: page): nat {
    if p <= 3 then p * 0x4000
    else if p == 8 then RAM_BASE_VRAM_8
    else if p == 9 then RAM_BASE_VRAM_9
    else if p >= 12 then RAM_BASE_PROM
    else 0
  }

  datatype Image = Image(ram: seq<byte>, slots: seq<page>) {
    predicate Valid() { |ram| == RAM_SIZE && |slots| == 4 }
  }

  type Memory = m: Image | m.Valid() witness Image(seq(RAM_SIZE, _ => 0), [0, 0, 0, 0])

  function Decode(m: Memory, a: word): nat {
    var p := m.slots[a / SLOT_SIZE];
    a % SLOT_SIZE % PageSize(p) + PageBase(p)
  }

  /** Every 16-bit address decodes inside the RAM image, whatever pages are mapped. */
  lemma BankSafety(m: Memory, a: word)
    ensures Decode(m, a) < RAM_SIZE
  {
    var p := m.slots[a / SLOT_SIZE];
    assert a % SLOT_SIZE % PageSize(p) < PageSize(p);
  }

  predicate Writable(m: Memory, a: word) { Decode(m, a) < RAM_BASE_PROM }

  /** The contents of the PROM. */
  function Prom(m: Memory): seq<byte> { m.ram[RAM_BASE_PROM..] }

  /** A memory read by the CPU; `a` is truncated to 16 bits on the way in. */
  function Read(m: Memory, a: int): byte {
    BankSafety(m, Word(a));
    m.ram[Decode(m, Word(a))]
  }

  lemma ReadWraps(m: Memory, a: int, k: int)
    ensures Read(m, Word(a) + k) == Read(m, a + k)
  {
    WordAbsorbs(a, k);
  }

  /** A memory write by the CPU: stores to the PROM are dropped. */
  function Write(m: Memory, a: int, v: byte): (r: Memory)
    ensures r.slots == m.slots
    ensures Prom(r) == Prom(m)
  {
    BankSafety(m, Word(a));
    var d := Decode(m, Word(a));
    if d >= RAM_BASE_PROM then m else m.(ram := m.ram[d := v])
  }

  /** Little-endian word access: the second byte's address wraps at 64 KB. */
  function ReadWord(m: Memory, a: int): word {
    Pair(Read(m, a + 1), Read(m, a))
  }

  function WriteWord(m: Memory, a: int, v: word): (r: Memory)
    ensures r.slots == m.slots
    ensures Prom(r) == Prom(m)
  {
    Write(Write(m, a, Lo(v)), a + 1, Hi(v))
  }

  /** A write to port A0h-AFh: the low two port bits name the slot, data bits 7 and 2-0 the page. */
  function MapPort(m: Memory, port: byte, data: byte): (r: Memory)
    ensures r.ram == m.ram && Prom(r) == Prom(m)
  {
    if port / 16 == 10
    then m.(slots := m.slots[port % 4 := (if data >= 128 then 8 else 0) + data % 8])
    else m
  }

  /** The layout: main pages 0-3 and video page 8 of 16 KB, the rest of the video memory in page 9, the
      PROM in pages C to F; pages without memory of their own show the first byte. */
  lemma PageTable(p: page)
    ensures PageBase(p)
         == [0, 0x4000, 0x8000, 0xc000, 0, 0, 0, 0, 0x10000, 0x14000, 0, 0, 0x15000, 0x15000, 0x15000, 0x15000][p]
    ensures PageSize(p)
         == [0x4000, 0x4000, 0x4000, 0x4000, 1, 1, 1, 1, 0x4000, 0x1000, 1, 1, 0x800, 0x800, 0x800, 0x800][p]
  {
  }

  /** After a write to a mapping port its slot shows the page that data bits 7 and 2-0 name: an address
      in that slot reads from there, in every other slot as before. Other ports map nothing. */
  lemma MappedRead(m: Memory, port: byte, data: byte, a: word)
    ensures var n := MapPort(m, port, data);
      var p: page := if data < 128 then data % 8 else 8 + data % 8;
      Read(n, a) == if 160 <= port < 176 && port % 4 == a / 0x4000
                    then m.ram[(PageTableRam(p); PageBase(p) + a % 0x4000 % PageSize(p))] else Read(m, a)
  {
  }

  lemma PageTableRam(p: page)
    ensures PageBase(p) + PageSize(p) <= RAM_SIZE
  {
  }

  /** Read after write: the new byte shows exactly at the addresses that decode alike below the
      PROM, and every other address is unchanged. */
  lemma ReadAfterWrite(m: Memory, a: int, v: byte, b: int)
    ensures Read(Write(m, a, v), b)
         == if Decode(m, Word(a)) == Decode(m, Word(b)) && Writable(m, Word(a)) then v else Read(m, b)
  {
    BankSafety(m, Word(a));
    BankSafety(m, Word(b));
  }

  /** `a` is writable, and no other address names its cell. */
  ghost predicate Sole(m: Memory, a: word) {
    Writable(m, a) && forall b: word :: Decode(m, b) == Decode(m, a) ==> b == a
  }

  /** The pages that fill a slot: the four 16 KB main pages and the first video page. */
  predicate FullPage(p: page) { p <= 3 || p == 8 }

  /** With distinct full pages in all four slots nothing is aliased and everything is writable. */
  lemma DistinctFullPagesAreSole(m: Memory, a: word)
    requires forall i, j :: 0 <= i < j < 4 ==> m.slots[i] != m.slots[j]
    requires forall i :: 0 <= i < 4 ==> FullPage(m.slots[i])
    ensures Sole(m, a)
  {
    forall b: word | Decode(m, b) == Decode(m, a)
      ensures b == a
    {
      var p, q := m.slots[a / SLOT_SIZE], m.slots[b / SLOT_SIZE];
      assert FullPage(p) && FullPage(q);
      assert p == q;
    }
  }
}
