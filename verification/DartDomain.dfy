/** An IOMMU domain over one DART page table. */
module DartDomain {
  import opened Bits
  import opened DartWalk
  import opened DartGeometry
  import opened DartMemory
  import opened DartPageTable
  import opened DartRanges

  const IAS_SIZE: nat := 0x1_0000_0000

  const VALID: nat := 0x1
  const SP_DIS: nat := 0x2
  const NO_WRITE: nat := 0x80
  const NO_READ: nat := 0x100

  /** `dart_pte_flags`; the bits are distinct, so or-ing them adds them. */
  function PteFlags(read: bool, write: bool): (flags: Pte)
    ensures flags.frame == 0 && IsValid(flags)
  {
    Pte(VALID + SP_DIS + (if read then 0 else NO_READ) + (if write then 0 else NO_WRITE), 0, 0, 0, 0)
  }

  // ---- What an entry permits, read off its bits ----

  /** The entry is in use, and without subpage protection. */
  predicate Plain(e: Pte) {
    Bit(e.low, 0) && Bit(e.low, 1) && e.end == SUBPAGE_ALL
  }

  predicate MayWrite(e: Pte) {
    !Bit(e.low, 7)
  }

  predicate MayRead(e: Pte) {
    !Bit(e.low, 8)
  }

  /** An entry with these flags permits what was asked for, and has no other flag. */
  lemma FlagsPermit(paddr: nat, read: bool, write: bool)
    ensures var e := LeafPte(paddr, PteFlags(read, write));
            && Plain(e) && (MayRead(e) <==> read) && (MayWrite(e) <==> write)
            && e.mid == 0 && e.high == 0 && forall k :: 0 <= k < 12 && Bit(e.low, k) ==> k in {0, 1, 7, 8}
  {
    FlagBits();
    var low := PteFlags(read, write).low;
    assert low in {0x3, 0x83, 0x103, 0x183};
  }

  lemma FlagBits()
    ensures Bit(0x3, 0) && Bit(0x3, 1) && !Bit(0x3, 2) && !Bit(0x3, 3) && !Bit(0x3, 4) && !Bit(0x3, 5)
        && !Bit(0x3, 6) && !Bit(0x3, 7) && !Bit(0x3, 8) && !Bit(0x3, 9) && !Bit(0x3, 10) && !Bit(0x3, 11)
    ensures Bit(0x83, 0) && Bit(0x83, 1) && !Bit(0x83, 2) && !Bit(0x83, 3) && !Bit(0x83, 4) && !Bit(0x83, 5)
        && !Bit(0x83, 6) && Bit(0x83, 7) && !Bit(0x83, 8) && !Bit(0x83, 9) && !Bit(0x83, 10) && !Bit(0x83, 11)
    ensures Bit(0x103, 0) && Bit(0x103, 1) && !Bit(0x103, 2) && !Bit(0x103, 3) && !Bit(0x103, 4) && !Bit(0x103, 5)
        && !Bit(0x103, 6) && !Bit(0x103, 7) && Bit(0x103, 8) && !Bit(0x103, 9) && !Bit(0x103, 10) && !Bit(0x103, 11)
    ensures Bit(0x183, 0) && Bit(0x183, 1) && !Bit(0x183, 2) && !Bit(0x183, 3) && !Bit(0x183, 4) && !Bit(0x183, 5)
        && !Bit(0x183, 6) && Bit(0x183, 7) && Bit(0x183, 8) && !Bit(0x183, 9) && !Bit(0x183, 10) && !Bit(0x183, 11)
  {
  }

  /** Every mapped page of the run permits exactly that. */
  ghost predicate Permits(pages: map<nat, Pte>, first: nat, count: nat, read: bool, write: bool) {
    forall v :: InRun(v, first, count) ==>
                  v in pages && Plain(pages[v]) && (MayRead(pages[v]) <==> read) && (MayWrite(pages[v]) <==> write)
  }

  lemma RunPermits(g: Geometry, was: map<nat, Pte>, first: nat, paddr: nat, count: nat, read: bool, write: bool)
    ensures Permits(MapRun(g, was, first, paddr, count, PteFlags(read, write)), first, count, read, write)
  {
    hide Plain, MayRead, MayWrite, MapRun;
    var now := MapRun(g, was, first, paddr, count, PteFlags(read, write));
    forall v: nat | InRun(v, first, count)
      ensures v in now && Plain(now[v]) && (MayRead(now[v]) <==> read) && (MayWrite(now[v]) <==> write) {
      MapRunAt(g, was, first, paddr, count, PteFlags(read, write), v);
      FlagsPermit(paddr + Shl(v - first, g.pageShift), read, write);
    }
  }

  class Domain {
    const table: PageTable

    constructor (table: PageTable)
      ensures this.table == table
    {
      this.table := table;
    }

    /** The masked range stays inside the space of the table. */
    predicate InSpace(iova: nat, len: nat) {
      PageOf(table.g, iova % IAS_SIZE) + PagesFor(table.g, len) <= PageCount(table.g)
    }

    /** `sync_page_tables` may time out. */
    method Flush() returns (ok: bool) {
      ok := *;
    }

    method Map(iova: nat, paddr: nat, len: nat, read: bool, write: bool) returns (ok: bool, ghost done: nat)
      requires table.Valid() && InSpace(iova, len)
      modifies table, table.mem
      ensures table.Valid() && done <= PagesFor(table.g, len) && (ok ==> done == PagesFor(table.g, len))
      ensures table.Pages() == MapRun(table.g, old(table.Pages()), PageOf(table.g, iova % IAS_SIZE), paddr, done,
                                      PteFlags(read, write))
      ensures Permits(table.Pages(), PageOf(table.g, iova % IAS_SIZE), done, read, write)
      ensures KeepsOthers(table.g, old(table.Pages()), table.Pages(), iova % IAS_SIZE, len)
      ensures ok && Mappable(table.g, iova % IAS_SIZE, paddr, len) ==>
                Translates(table.g, table.Pages(), iova % IAS_SIZE, paddr, len)
    {
      hide Permits, KeepsOthers, Translates, Mappable;
      ghost var was := table.Pages();
      ok, done := table.MapContiguous(iova % IAS_SIZE, paddr, len, PteFlags(read, write));
      RunPermits(table.g, was, PageOf(table.g, iova % IAS_SIZE), paddr, done, read, write);
      if ok {
        ok := Flush();
      }
    }

    method Unmap(iova: nat, len: nat) returns (ok: bool)
      requires table.Valid() && InSpace(iova, len)
      modifies table`firmwareTables, table.mem
      ensures table.Valid()
      ensures table.Pages() == UnmapRun(old(table.Pages()), PageOf(table.g, iova % IAS_SIZE), PagesFor(table.g, len))
      ensures KeepsOthers(table.g, old(table.Pages()), table.Pages(), iova % IAS_SIZE, len)
      ensures PageAligned(table.g, iova % IAS_SIZE) ==> Absent(table.g, table.Pages(), iova % IAS_SIZE, len)
    {
      ok := table.UnmapRange(iova % IAS_SIZE, len);
      if ok {
        ok := Flush();
      }
    }
  }
}
