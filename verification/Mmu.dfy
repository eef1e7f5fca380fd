/** The MMU and RAM as updated in place, proved against the value `BankedMemory.Memory`. */
module Mmu {
  import opened Words
  import opened BankedMemory

  const RAM_PROM_SIZE := 0x800
  const MMU_SLOT_CNT := 4
  const MMU_PAGE_CNT := 16

  class Ram {
    const m: array<byte>

    /** Blank memory with the PROM at its base; a PROM that is too large is not loaded. */
    constructor (prom: seq<byte>)
      ensures fresh(m) && m.Length == RAM_SIZE
      ensures forall i :: 0 <= i < RAM_SIZE ==>
        m[i] == if RAM_BASE_PROM <= i < RAM_BASE_PROM + |prom| && |prom| <= RAM_PROM_SIZE
                then prom[i - RAM_BASE_PROM] else 0
    {
      m := new byte[RAM_SIZE](_ => 0);
      new;
      if |prom| <= RAM_PROM_SIZE {
        for i := 0 to |prom|
          invariant forall j :: 0 <= j < RAM_SIZE ==>
            m[j] == if RAM_BASE_PROM <= j < RAM_BASE_PROM + i then prom[j - RAM_BASE_PROM] else 0
        {
          m[RAM_BASE_PROM + i] := prom[i];
        }
      }
    }

    method Write(addr: nat, data: byte) returns (rc: nat)
      requires m.Length == RAM_SIZE && addr < RAM_SIZE
      modifies m
      ensures rc == if addr >= RAM_BASE_PROM then 1 else 0
      ensures m[..] == if rc == 0 then old(m[..])[addr := data] else old(m[..])
    {
      if addr >= RAM_BASE_PROM {
        return 1;
      }
      m[addr] := data;
      return 0;
    }
  }

  class Mmu {
    const ram: Ram
    const slots: array<page>
    const bases: array<nat>
    const masks: array<nat>

    /** The page map of the Advantage is in place. */
    ghost predicate Configured()
      reads this, slots, bases, masks, ram, ram.m
    {
      && ram.m.Length == RAM_SIZE && slots.Length == MMU_SLOT_CNT
      && Sized() && forall p: page :: Set(p)
    }

    ghost function Image(): Memory
      requires Configured()
      reads this, slots, bases, masks, ram, ram.m
    {
      BankedMemory.Image(ram.m[..], slots[..])
    }

    /** Power on: ten pages are given, the other six show one byte each, and the slots show the video
        pages, the PROM and the first main page. */
    constructor (ram: Ram)
      requires ram.m.Length == RAM_SIZE
      ensures this.ram == ram && fresh(slots) && fresh(bases) && fresh(masks)
      ensures Configured() && Image() == BankedMemory.Image(ram.m[..], [8, 9, 12, 0])
    {
      this.ram := ram;
      slots := new page[MMU_SLOT_CNT](_ => 0);
      bases := new nat[MMU_PAGE_CNT](_ => 0);
      masks := new nat[MMU_PAGE_CNT](_ => 0);
      new;
      InitPages();
      slots[0], slots[1], slots[2], slots[3] := 8, 9, 12, 0;
      assert forall p: page :: Set(p);
      assert slots[..] == [8, 9, 12, 0];
    }

    ghost predicate Sized()
      reads this, bases, masks
    {
      bases.Length == MMU_PAGE_CNT && masks.Length == MMU_PAGE_CNT && bases != masks
    }

    ghost predicate Set(p: page)
      requires Sized()
      reads this, bases, masks
    {
      bases[p] == PageBase(p) && masks[p] + 1 == PageSize(p)
    }

    method InitPages()
      requires Sized() && forall p: page :: bases[p] == 0 && masks[p] == 0
      modifies bases, masks
      ensures forall p: page :: Set(p)
    {
      InitRam();
      InitProm();
    }

    method InitRam()
      requires Sized()
      modifies bases, masks
      ensures forall p: page :: if p < 4 || p == 8 || p == 9 then Set(p)
                                else bases[p] == old(bases[p]) && masks[p] == old(masks[p])
    {
      InitPage(0x0, 0x3fff, 0x00000);
      InitPage(0x1, 0x3fff, 0x04000);
      InitPage(0x2, 0x3fff, 0x08000);
      InitPage(0x3, 0x3fff, 0x0c000);
      InitPage(0x8, 0x3fff, RAM_BASE_VRAM_8);
      InitPage(0x9, 0x0fff, RAM_BASE_VRAM_9);
    }

    method InitProm()
      requires Sized()
      modifies bases, masks
      ensures forall p: page :: if p >= 12 then Set(p)
                                else bases[p] == old(bases[p]) && masks[p] == old(masks[p])
    {
      InitPage(0xc, 0x07ff, RAM_BASE_PROM);
      InitPage(0xd, 0x07ff, RAM_BASE_PROM);
      InitPage(0xe, 0x07ff, RAM_BASE_PROM);
      InitPage(0xf, 0x07ff, RAM_BASE_PROM);
    }

    method InitPage(p: page, mask: nat, base: nat)
      requires Sized()
      modifies bases, masks
      ensures forall q: page :: bases[q] == (if q == p then base else old(bases[q]))
                             && masks[q] == (if q == p then mask else old(masks[q]))
    {
      bases[p] := base;
      masks[p] := mask;
    }

    method LoadPage(slot: nat, p: page)
      requires Configured() && slot < MMU_SLOT_CNT
      modifies slots
      ensures Configured() && Image() == old(Image()).(slots := old(Image()).slots[slot := p])
    {
      slots[slot] := p;
    }

    /** Slot from the top two address bits, then page mask and base: always inside the RAM. */
    method DecodeAddress(addr: word) returns (a: nat)
      requires Configured()
      ensures a == Decode(Image(), addr) && a < RAM_SIZE
    {
      var p := slots[addr / SLOT_SIZE];
      assert Set(p);
      a := addr % SLOT_SIZE % (masks[p] + 1) + bases[p];
      BankSafety(Image(), addr);
    }

    method ReadByte(addr: word) returns (v: byte)
      requires Configured()
      ensures v == Read(Image(), addr)
    {
      var a := DecodeAddress(addr);
      v := ram.m[a];
    }

    method WriteByte(addr: word, data: byte)
      requires Configured()
      requires ram.m as object != slots && ram.m as object != bases && ram.m as object != masks
      modifies ram.m
      ensures Configured() && Image() == Write(old(Image()), addr, data)
    {
      var a := DecodeAddress(addr);
      var _ := ram.Write(a, data);
    }
  }
}
