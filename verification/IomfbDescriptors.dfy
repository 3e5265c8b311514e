/** The buffers and register windows the display firmware asks for, and who has them mapped. */
module IomfbDescriptors {
  import opened Wrappers

  const MAX_ID: nat := 0xffff_ffff
  const U64: nat := 0x1_0000_0000_0000_0000

  datatype Range = Range(dva: nat, size: nat)

  datatype Allocation = Allocation(range: Range, paddr: nat, id: nat, piodma: bool)

  datatype Physical = Physical(range: Range, id: nat)

  // ---- Identifiers ----

  /** The `n`-th identifier handed out: the counter saturates. */
  function IdOf(n: nat): nat {
    if n < MAX_ID then n else MAX_ID
  }

  /** Identifiers stay distinct for as long as no more than 2^32 - 1 are handed out, and no longer. */
  lemma IdsDistinctIff(count: nat)
    ensures (forall i, j :: 0 < i < j <= count ==> IdOf(i) != IdOf(j)) <==> count <= MAX_ID
  {
    if count > MAX_ID {
      assert IdOf(MAX_ID) == IdOf(MAX_ID + 1);
    }
  }

  // ---- Tables ----

  function FindAllocation(table: seq<Allocation>, id: nat): (k: nat)
    ensures k <= |table| && (forall i :: 0 <= i < k ==> table[i].id != id)
    ensures k < |table| ==> table[k].id == id
  {
    if table == [] || table[0].id == id then 0 else 1 + FindAllocation(table[1..], id)
  }

  function FindPhysical(table: seq<Physical>, id: nat): (k: nat)
    ensures k <= |table| && (forall i :: 0 <= i < k ==> table[i].id != id)
    ensures k < |table| ==> table[k].id == id
  {
    if table == [] || table[0].id == id then 0 else 1 + FindPhysical(table[1..], id)
  }

  /** The first allocation with this identifier and address that PIODMA has mapped. */
  function FindMapped(table: seq<Allocation>, id: nat, dva: nat): (k: nat)
    ensures k <= |table|
    ensures k < |table| ==> table[k].id == id && table[k].range.dva == dva && table[k].piodma
    ensures k == |table| ==> forall a :: a in table ==> !(a.id == id && a.range.dva == dva && a.piodma)
  {
    if table == [] then 0
    else if table[0].id == id && table[0].range.dva == dva && table[0].piodma then 0
    else
      assert table == [table[0]] + table[1..];
      1 + FindMapped(table[1..], id, dva)
  }

  function Without<T>(s: seq<T>, k: nat): seq<T>
    requires k < |s|
  {
    s[..k] + s[k + 1..]
  }

  ghost function Ranges(allocations: seq<Allocation>, physical: seq<Physical>): set<Range> {
    (set a | a in allocations :: a.range) + (set p | p in physical :: p.range)
  }

  ghost function PiodmaRanges(allocations: seq<Allocation>): set<Range> {
    set a | a in allocations && a.piodma :: a.range
  }

  ghost predicate Live(allocations: seq<Allocation>, physical: seq<Physical>, id: nat) {
    (exists i :: 0 <= i < |allocations| && allocations[i].id == id)
    || (exists i :: 0 <= i < |physical| && physical[i].id == id)
  }

  /** No two descriptors share an identifier or an address. */
  ghost predicate Distinct(allocations: seq<Allocation>, physical: seq<Physical>, shmem: Range) {
    && (forall i, j :: 0 <= i < j < |allocations| ==>
                         allocations[i].id != allocations[j].id && allocations[i].range.dva != allocations[j].range.dva)
    && (forall i, j :: 0 <= i < j < |physical| ==>
                         physical[i].id != physical[j].id && physical[i].range.dva != physical[j].range.dva)
    && (forall i, j :: 0 <= i < |allocations| && 0 <= j < |physical| ==>
                         allocations[i].id != physical[j].id && allocations[i].range.dva != physical[j].range.dva)
    && (forall i :: 0 <= i < |allocations| ==> allocations[i].range.dva != shmem.dva)
    && (forall i :: 0 <= i < |physical| ==> physical[i].range.dva != shmem.dva)
  }

  class Descriptors {
    const registers: seq<(nat, nat)>
    const shmem: Range
    var allocations: seq<Allocation>
    var physical: seq<Physical>
    var nextId: nat
    var mapped: set<Range>     // what RTKit maps for this transport
    var piodma: set<Range>     // what the PIODMA domain maps
    ghost var issued: nat      // identifiers handed out so far

    ghost predicate Valid()
      reads this
    {
      && nextId == IdOf(issued + 1) && issued <= MAX_ID
      && (forall i :: 0 <= i < |allocations| ==> 0 < allocations[i].id <= issued)
      && (forall i :: 0 <= i < |physical| ==> 0 < physical[i].id <= issued)
      && Distinct(allocations, physical, shmem)
      && mapped == {shmem} + Ranges(allocations, physical)
      && piodma == PiodmaRanges(allocations)
    }

    constructor (registers: seq<(nat, nat)>, shmem: Range)
      ensures Valid() && allocations == [] && physical == [] && mapped == {shmem} && piodma == {}
      ensures this.registers == registers && this.shmem == shmem && issued == 0
    {
      this.registers, this.shmem := registers, shmem;
      allocations, physical, nextId := [], [], 1;
      mapped, piodma := {shmem}, {};
      issued := 0;
    }

    /** The address RTKit answers with is not one it has given out and not taken back. */
    ghost predicate FreshDva(answer: Option<nat>)
      reads this
    {
      answer.Some? ==> forall r :: r in mapped ==> r.dva != answer.value
    }

    method NextDescriptorId() returns (id: nat)
      requires nextId == IdOf(issued + 1) && issued < MAX_ID
      modifies this`nextId, this`issued
      ensures id == issued == old(issued) + 1 && nextId == IdOf(issued + 1)
    {
      id := nextId;
      nextId := if nextId < MAX_ID then nextId + 1 else nextId;
      issued := issued + 1;
    }

    // The three requests below map first and look at the room for their response last: an `outputLen` too short, or 0
    // for an area outside shared memory, is found when the mapping is already made.

    /** D411: map a register window. */
    method MapRegister(inputLen: nat, index: nat, answer: Option<nat>, outputLen: nat) returns (ok: bool)
      requires Valid() && FreshDva(answer) && issued < MAX_ID
      modifies this
      ensures Valid() <==> !(inputLen >= 8 && index < |registers| && answer.Some? && outputLen < 28)
      ensures ok <==> inputLen >= 8 && index < |registers| && answer.Some? && outputLen >= 28
      ensures !ok ==> physical == old(physical) && piodma == old(piodma)
                      && mapped == if Valid() then old(mapped) else old(mapped) + {Range(answer.value, registers[index].1)}
      ensures allocations == old(allocations) && (ok ==> issued == old(issued) + 1)
      ensures ok ==> index < |registers| && answer.Some?
                     && physical == old(physical) + [Physical(Range(answer.value, registers[index].1), issued)]
    {
      hide Ranges, PiodmaRanges, Distinct;
      if inputLen < 8 || index >= |registers| || answer.None? {
        return false;
      }
      var range := Range(answer.value, registers[index].1);
      assert range !in mapped;
      mapped := mapped + {range};
      if outputLen < 28 {
        return false;
      }
      var id := NextDescriptorId();
      PhysicalGrows(allocations, physical, shmem, Physical(range, id));
      physical := physical + [Physical(range, id)];
      ok := true;
    }

    /** D452: map a physical range inside the display's registers. */
    method MapPhysical(inputLen: nat, paddr: nat, size: nat, answer: Option<nat>, outputLen: nat) returns (ok: bool)
      requires Valid() && FreshDva(answer) && issued < MAX_ID
      modifies this
      ensures Valid() <==> !(inputLen >= 16 && paddr + size < U64 && Inside(registers, paddr, size) && answer.Some?
                             && outputLen < 20)
      ensures ok <==> inputLen >= 16 && paddr + size < U64 && Inside(registers, paddr, size) && answer.Some?
                      && outputLen >= 20
      ensures !ok ==> physical == old(physical) && piodma == old(piodma)
                      && mapped == if Valid() then old(mapped) else old(mapped) + {Range(answer.value, size)}
      ensures allocations == old(allocations) && (ok ==> issued == old(issued) + 1)
      ensures ok ==> answer.Some? && physical == old(physical) + [Physical(Range(answer.value, size), issued)]
      ensures ok ==> exists r :: r in registers && r.0 <= paddr && paddr + size <= r.0 + r.1
    {
      hide Ranges, PiodmaRanges, Distinct;
      if inputLen < 16 || paddr + size >= U64 || !Inside(registers, paddr, size) || answer.None? {
        return false;
      }
      var range := Range(answer.value, size);
      assert range !in mapped;
      mapped := mapped + {range};
      PhysicalGrows(allocations, physical, shmem, Physical(range, issued + 1));
      var id := NextDescriptorId();
      if outputLen < 20 {
        return false;
      }
      physical := physical + [Physical(range, id)];
      ok := true;
    }

    /** D451: allocate a buffer and map it. `paddr` is the allocator's answer, `size` already rounded up. */
    method AllocateBuffer(inputLen: nat, size: nat, paddr: Option<nat>, answer: Option<nat>, outputLen: nat)
      returns (ok: bool)
      requires Valid() && FreshDva(answer) && issued < MAX_ID
      modifies this
      ensures Valid() <==> !(inputLen >= 12 && size > 0 && paddr.Some? && answer.Some? && outputLen < 28)
      ensures ok <==> inputLen >= 12 && size > 0 && paddr.Some? && answer.Some? && outputLen >= 28
      ensures !ok ==> allocations == old(allocations) && piodma == old(piodma)
                      && mapped == if Valid() then old(mapped) else old(mapped) + {Range(answer.value, size)}
      ensures physical == old(physical) && (ok ==> issued == old(issued) + 1)
      ensures ok ==> size > 0 && paddr.Some? && answer.Some?
                     && allocations == old(allocations)
                                       + [Allocation(Range(answer.value, size), paddr.value, issued, false)]
    {
      hide Ranges, PiodmaRanges, Distinct;
      if inputLen < 12 || size == 0 || paddr.None? || answer.None? {
        return false;
      }
      var range := Range(answer.value, size);
      assert range !in mapped;
      mapped := mapped + {range};
      AllocationsGrow(allocations, physical, shmem, Allocation(range, paddr.value, issued + 1, false));
      var id := NextDescriptorId();
      if outputLen < 28 {
        return false;
      }
      allocations := allocations + [Allocation(range, paddr.value, id, false)];
      ok := true;
    }

    /** Take allocation `k` out of the PIODMA domain if it is there; `unmapped` is the domain's answer. */
    method DropPiodma(k: nat, unmapped: bool) returns (ok: bool)
      requires Valid() && k < |allocations|
      modifies this`allocations, this`piodma
      ensures Valid() && ok == (!old(allocations[k].piodma) || unmapped)
      ensures allocations == if ok then old(allocations)[k := old(allocations[k]).(piodma := false)] else old(allocations)
    {
      var a := allocations[k];
      if !a.piodma {
        assert allocations == allocations[k := a.(piodma := false)];
        return true;
      }
      if !unmapped {
        return false;
      }
      PiodmaCleared(allocations, physical, shmem, k);
      piodma := piodma - {a.range};
      allocations := allocations[k := a.(piodma := false)];
      ok := true;
    }

    /** D454: give a descriptor back. An unknown identifier is ignored. */
    method Release(inputLen: nat, id: nat, unmapped: bool, outputFits: bool) returns (ok: bool)
      requires Valid()
      modifies this
      ensures Valid() && issued == old(issued)
      ensures ok ==> !Live(allocations, physical, id)
      ensures ok ==> var k := FindAllocation(old(allocations), id);
                     if k < |old(allocations)| then
                       allocations == Without(old(allocations), k) && physical == old(physical)
                     else
                       allocations == old(allocations)
                       && var j := FindPhysical(old(physical), id);
                          physical == if j < |old(physical)| then Without(old(physical), j) else old(physical)
    {
      hide Ranges, PiodmaRanges, Without, Distinct;
      if inputLen < 4 {
        return false;
      }
      var k := FindAllocation(allocations, id);
      if k < |allocations| {
        var freed := FreeAllocation(k, unmapped);
        if !freed {
          return false;
        }
      } else {
        var j := FindPhysical(physical, id);
        if j < |physical| {
          FreePhysical(j);
        }
      }
      ok := outputFits;
    }

    method FreeAllocation(k: nat, unmapped: bool) returns (ok: bool)
      requires Valid() && k < |allocations|
      modifies this`allocations, this`piodma, this`mapped
      ensures Valid()
      ensures ok ==> allocations == Without(old(allocations), k) && !Live(allocations, physical, old(allocations)[k].id)
    {
      hide Ranges, PiodmaRanges, Live, Without, Distinct;
      ok := DropPiodma(k, unmapped);
      if ok {
        AllocationLeaves(allocations, physical, shmem, k);
        mapped := mapped - {allocations[k].range};
        WithoutAt(allocations, k);
        KeepsBounds(allocations, k);
        SameWithout(old(allocations), allocations, k);
        allocations := Without(allocations, k);
      }
    }

    method FreePhysical(k: nat)
      requires Valid() && k < |physical|
      requires forall i :: 0 <= i < |allocations| ==> allocations[i].id != physical[k].id
      modifies this`physical, this`mapped
      ensures Valid() && physical == Without(old(physical), k)
      ensures !Live(allocations, physical, old(physical)[k].id)
    {
      hide Ranges, PiodmaRanges;
      PhysicalLeaves(allocations, physical, shmem, k);
      WithoutIn(physical, k);
      mapped := mapped - {physical[k].range};
      physical := Without(physical, k);
    }

    /** D201: show a buffer to PIODMA. `aligned` and `accepted` are the domain's answers; a buffer that is unknown or
        refused is reported in the response, which is no failure of the callback. */
    method MapPiodma(inputLen: nat, id: nat, outputLen: nat, aligned: bool, accepted: bool)
      returns (ok: bool, status: nat)
      requires Valid()
      modifies this`allocations, this`piodma
      ensures Valid()
      ensures ok <==> inputLen >= 8 && outputLen >= 20
      ensures var k := FindAllocation(old(allocations), id);
              allocations == if ok && k < |old(allocations)| && (old(allocations)[k].piodma || (aligned && accepted))
                             then old(allocations)[k := old(allocations)[k].(piodma := true)] else old(allocations)
      ensures ok ==> (status == 0 <==> exists i :: 0 <= i < |allocations| && allocations[i].id == id && allocations[i].piodma)
    {
      if inputLen < 8 || outputLen < 20 {
        return false, 0;
      }
      var k := FindAllocation(allocations, id);
      if k == |allocations| {
        return true, 22;
      }
      var a := allocations[k];
      if !a.piodma {
        if !aligned || !accepted {
          return true, 22;
        }
        PiodmaSet(allocations, physical, shmem, k);
        piodma := piodma + {a.range};
        allocations := allocations[k := a.(piodma := true)];
      }
      assert allocations[k].id == id && allocations[k].piodma;
      assert allocations == old(allocations)[k := a.(piodma := true)];
      return true, 0;
    }

    /** D202: hide a buffer from PIODMA again. */
    method UnmapPiodma(inputLen: nat, id: nat, dva: nat, unmapped: bool) returns (ok: bool)
      requires Valid()
      modifies this`allocations, this`piodma
      ensures Valid()
      ensures var k := FindMapped(old(allocations), id, dva);
              && ok == (inputLen >= 24 && (k < |old(allocations)| ==> unmapped))
              && allocations == if ok && k < |old(allocations)|
                                then old(allocations)[k := old(allocations)[k].(piodma := false)] else old(allocations)
    {
      if inputLen < 24 {
        return false;
      }
      var k := FindMapped(allocations, id, dva);
      if k == |allocations| {
        return true;
      }
      ok := DropPiodma(k, unmapped);
    }

    /** `Drop`: whatever the domain answers, RTKit maps nothing afterwards; the domain still maps exactly the buffers
        it refused to unmap. */
    method Close(answers: seq<bool>)
      requires Valid() && |answers| == |allocations|
      modifies this
      ensures mapped == {}
      ensures piodma == set k | 0 <= k < |answers| && old(allocations)[k].piodma && !answers[k]
                          :: old(allocations)[k].range
    {
      hide Ranges, PiodmaRanges, Distinct;
      for k := 0 to |allocations|
        invariant Valid() && physical == old(physical) && mapped == old(mapped) && |allocations| == |answers|
        invariant forall i :: 0 <= i < |allocations| ==> allocations[i].range == old(allocations)[i].range
        invariant forall i :: k <= i < |allocations| ==> allocations[i].piodma == old(allocations)[i].piodma
        invariant forall i :: 0 <= i < k ==> allocations[i].piodma == (old(allocations)[i].piodma && !answers[i])
      {
        ghost var before := allocations;
        var dropped := DropPiodma(k, answers[k]);
        assert forall i :: 0 <= i < |allocations| && i != k ==> allocations[i] == before[i];
      }
      PiodmaByIndex(allocations);
      ghost var all := allocations;
      assert all[0..] == all && physical[0..] == physical;
      for k := 0 to |allocations|
        invariant allocations == all && physical == old(physical) && piodma == PiodmaRanges(all)
        invariant Distinct(all[k..], physical, shmem) && mapped == {shmem} + Ranges(all[k..], physical)
      {
        RangesFirst(all[k..], physical, shmem);
        assert all[k..][1..] == all[k + 1..];
        mapped := mapped - {allocations[k].range};
      }
      assert all[|all|..] == [];
      for k := 0 to |physical|
        invariant physical == old(physical) && piodma == PiodmaRanges(all)
        invariant Distinct([], physical[k..], shmem) && mapped == {shmem} + Ranges([], physical[k..])
      {
        PhysicalFirst(physical[k..], shmem);
        assert physical[k..][1..] == physical[k + 1..];
        mapped := mapped - {physical[k].range};
      }
      NoRanges();
      assert physical[|physical|..] == [];
      mapped := mapped - {shmem};
    }
  }

  function Inside(registers: seq<(nat, nat)>, paddr: nat, size: nat): (r: bool)
    ensures r <==> exists w :: w in registers && w.0 <= paddr && paddr + size <= w.0 + w.1
  {
    if registers == [] then false
    else if paddr >= registers[0].0 && paddr + size <= registers[0].0 + registers[0].1 then
      assert registers[0] in registers;
      true
    else
      assert registers == [registers[0]] + registers[1..];
      Inside(registers[1..], paddr, size)
  }

  /** The new entry has an address nothing has and an identifier above all others. */
  ghost predicate Newcomer(allocations: seq<Allocation>, physical: seq<Physical>, shmem: Range, range: Range, id: nat) {
    && (forall i :: 0 <= i < |allocations| ==> allocations[i].id < id)
    && (forall i :: 0 <= i < |physical| ==> physical[i].id < id)
    && (forall r :: r in {shmem} + Ranges(allocations, physical) ==> r.dva != range.dva)
  }

  lemma NewcomerApart(allocations: seq<Allocation>, physical: seq<Physical>, shmem: Range, range: Range, id: nat)
    requires Newcomer(allocations, physical, shmem, range, id)
    ensures forall i :: 0 <= i < |allocations| ==> allocations[i].range.dva != range.dva
    ensures forall i :: 0 <= i < |physical| ==> physical[i].range.dva != range.dva
    ensures shmem.dva != range.dva
  {
    forall i | 0 <= i < |allocations| ensures allocations[i].range.dva != range.dva {
      assert allocations[i] in allocations;
      assert allocations[i].range in {shmem} + Ranges(allocations, physical);
    }
    forall i | 0 <= i < |physical| ensures physical[i].range.dva != range.dva {
      assert physical[i] in physical;
      assert physical[i].range in {shmem} + Ranges(allocations, physical);
    }
    assert shmem in {shmem} + Ranges(allocations, physical);
  }

  lemma PhysicalGrows(allocations: seq<Allocation>, physical: seq<Physical>, shmem: Range, p: Physical)
    requires Distinct(allocations, physical, shmem) && Newcomer(allocations, physical, shmem, p.range, p.id)
    ensures Ranges(allocations, physical + [p]) == Ranges(allocations, physical) + {p.range}
    ensures Distinct(allocations, physical + [p], shmem)
  {
    NewcomerApart(allocations, physical, shmem, p.range, p.id);
    PhysicalAppended(allocations, physical, p);
  }

  lemma PhysicalAppended(allocations: seq<Allocation>, physical: seq<Physical>, p: Physical)
    ensures Ranges(allocations, physical + [p]) == Ranges(allocations, physical) + {p.range}
  {
    assert forall q :: q in physical + [p] <==> q in physical || q == p;
  }

  lemma AllocationsGrow(allocations: seq<Allocation>, physical: seq<Physical>, shmem: Range, a: Allocation)
    requires Distinct(allocations, physical, shmem) && Newcomer(allocations, physical, shmem, a.range, a.id)
    requires !a.piodma
    ensures Ranges(allocations + [a], physical) == Ranges(allocations, physical) + {a.range}
    ensures PiodmaRanges(allocations + [a]) == PiodmaRanges(allocations)
    ensures Distinct(allocations + [a], physical, shmem)
  {
    NewcomerApart(allocations, physical, shmem, a.range, a.id);
    AllocationAppended(allocations, physical, a);
  }

  lemma AllocationAppended(allocations: seq<Allocation>, physical: seq<Physical>, a: Allocation)
    requires !a.piodma
    ensures Ranges(allocations + [a], physical) == Ranges(allocations, physical) + {a.range}
    ensures PiodmaRanges(allocations + [a]) == PiodmaRanges(allocations)
  {
    assert forall b :: b in allocations + [a] <==> b in allocations || b == a;
  }

  lemma PiodmaCleared(allocations: seq<Allocation>, physical: seq<Physical>, shmem: Range, k: nat)
    requires Distinct(allocations, physical, shmem) && k < |allocations|
    ensures var rest := allocations[k := allocations[k].(piodma := false)];
            && PiodmaRanges(rest) == PiodmaRanges(allocations) - {allocations[k].range}
            && Ranges(rest, physical) == Ranges(allocations, physical) && Distinct(rest, physical, shmem)
  {
    var rest := allocations[k := allocations[k].(piodma := false)];
    forall r ensures r in PiodmaRanges(rest) <==> r in PiodmaRanges(allocations) && r != allocations[k].range {
      if r in PiodmaRanges(rest) {
        var i :| 0 <= i < |rest| && rest[i].piodma && rest[i].range == r;
        assert i != k && allocations[i] in allocations;
      }
      if r in PiodmaRanges(allocations) && r != allocations[k].range {
        var i :| 0 <= i < |allocations| && allocations[i].piodma && allocations[i].range == r;
        assert rest[i] in rest;
      }
    }
    SameRanges(allocations, rest, physical);
  }

  lemma PiodmaSet(allocations: seq<Allocation>, physical: seq<Physical>, shmem: Range, k: nat)
    requires Distinct(allocations, physical, shmem) && k < |allocations|
    ensures var more := allocations[k := allocations[k].(piodma := true)];
            && PiodmaRanges(more) == PiodmaRanges(allocations) + {allocations[k].range}
            && Ranges(more, physical) == Ranges(allocations, physical) && Distinct(more, physical, shmem)
  {
    var more := allocations[k := allocations[k].(piodma := true)];
    forall r ensures r in PiodmaRanges(more) <==> r in PiodmaRanges(allocations) || r == allocations[k].range {
      if r in PiodmaRanges(more) {
        var i :| 0 <= i < |more| && more[i].piodma && more[i].range == r;
        if i != k { assert allocations[i] in allocations; }
      }
      if r in PiodmaRanges(allocations) {
        var i :| 0 <= i < |allocations| && allocations[i].piodma && allocations[i].range == r;
        assert more[i] in more;
      }
      assert more[k] in more;
    }
    SameRanges(allocations, more, physical);
  }

  lemma NoRanges()
    ensures Ranges([], []) == {}
  {
  }

  lemma SameRanges(a: seq<Allocation>, b: seq<Allocation>, physical: seq<Physical>)
    requires |a| == |b| && forall i :: 0 <= i < |a| ==> a[i].range == b[i].range
    ensures Ranges(a, physical) == Ranges(b, physical)
  {
    forall x | x in a ensures x.range in Ranges(b, physical) {
      var i :| 0 <= i < |a| && a[i] == x;
      assert b[i] in b;
    }
    forall x | x in b ensures x.range in Ranges(a, physical) {
      var i :| 0 <= i < |b| && b[i] == x;
      assert a[i] in a;
    }
  }

  lemma WithoutIn<T>(s: seq<T>, k: nat)
    requires k < |s|
    ensures forall x :: x in s <==> x in Without(s, k) || x == s[k]
  {
    assert s == s[..k] + [s[k]] + s[k + 1..];
  }

  /** Where an entry of the shortened table was. */
  function Was(k: nat, i: nat): nat {
    if i < k then i else i + 1
  }

  lemma WithoutAt<T>(s: seq<T>, k: nat)
    requires k < |s|
    ensures |Without(s, k)| == |s| - 1
    ensures forall i: nat :: i < |s| - 1 ==> Without(s, k)[i] == s[Was(k, i)]
  {
  }

  lemma KeepsBounds(allocations: seq<Allocation>, k: nat)
    requires k < |allocations|
    ensures forall i :: 0 <= i < |allocations| - 1 ==> Without(allocations, k)[i] in allocations
  {
    WithoutIn(allocations, k);
  }

  lemma SameWithout(a: seq<Allocation>, b: seq<Allocation>, k: nat)
    requires k < |a| == |b| && forall i :: 0 <= i < |a| && i != k ==> a[i] == b[i]
    ensures Without(a, k) == Without(b, k)
  {
  }

  lemma AllocationsApart(allocations: seq<Allocation>, physical: seq<Physical>, shmem: Range, k: nat)
    requires Distinct(allocations, physical, shmem) && k < |allocations|
    ensures Distinct(Without(allocations, k), physical, shmem)
    ensures !Live(Without(allocations, k), physical, allocations[k].id)
    ensures forall a :: a in Without(allocations, k) ==> a.range != allocations[k].range
  {
    var rest := Without(allocations, k);
    WithoutAt(allocations, k);
    forall i: nat | i < |rest| ensures rest[i].id != allocations[k].id && rest[i].range != allocations[k].range {
      assert rest[i] == allocations[Was(k, i)];
    }
    forall i: nat, j: nat | i < j < |rest|
      ensures rest[i].id != rest[j].id && rest[i].range.dva != rest[j].range.dva {
      assert rest[i] == allocations[Was(k, i)] && rest[j] == allocations[Was(k, j)];
    }
    forall i: nat | i < |rest| ensures rest[i] in allocations {
      assert rest[i] == allocations[Was(k, i)];
    }
  }

  lemma AllocationLeaves(allocations: seq<Allocation>, physical: seq<Physical>, shmem: Range, k: nat)
    requires Distinct(allocations, physical, shmem) && k < |allocations| && !allocations[k].piodma
    ensures var rest := Without(allocations, k);
            && {shmem} + Ranges(rest, physical) == {shmem} + Ranges(allocations, physical) - {allocations[k].range}
            && PiodmaRanges(rest) == PiodmaRanges(allocations) && Distinct(rest, physical, shmem)
            && !Live(rest, physical, allocations[k].id)
  {
    hide Live, Without;
    AllocationsApart(allocations, physical, shmem, k);
    WithoutIn(allocations, k);
    assert forall p :: p in physical ==> p.range != allocations[k].range;
  }

  lemma PhysicalApart(allocations: seq<Allocation>, physical: seq<Physical>, shmem: Range, k: nat)
    requires Distinct(allocations, physical, shmem) && k < |physical|
    ensures Distinct(allocations, Without(physical, k), shmem)
    ensures forall i :: 0 <= i < |physical| - 1 ==> Without(physical, k)[i].id != physical[k].id
    ensures forall p :: p in Without(physical, k) ==> p.range != physical[k].range
  {
    var rest := Without(physical, k);
    WithoutAt(physical, k);
    forall i: nat | i < |rest| ensures rest[i].id != physical[k].id && rest[i].range != physical[k].range {
      assert rest[i] == physical[Was(k, i)];
    }
    forall i: nat, j: nat | i < j < |rest|
      ensures rest[i].id != rest[j].id && rest[i].range.dva != rest[j].range.dva {
      assert rest[i] == physical[Was(k, i)] && rest[j] == physical[Was(k, j)];
    }
    forall i: nat | i < |rest| ensures rest[i] in physical {
      assert rest[i] == physical[Was(k, i)];
    }
  }

  lemma PhysicalLeaves(allocations: seq<Allocation>, physical: seq<Physical>, shmem: Range, k: nat)
    requires Distinct(allocations, physical, shmem) && k < |physical|
    ensures var rest := Without(physical, k);
            && {shmem} + Ranges(allocations, rest) == {shmem} + Ranges(allocations, physical) - {physical[k].range}
            && Distinct(allocations, rest, shmem) && !Live(allocations, rest, physical[k].id)
  {
    hide Without;
    PhysicalApart(allocations, physical, shmem, k);
    WithoutAt(physical, k);
    WithoutIn(physical, k);
    assert forall a :: a in allocations ==> a.range != physical[k].range;
  }

  lemma PiodmaByIndex(allocations: seq<Allocation>)
    ensures PiodmaRanges(allocations) == set k | 0 <= k < |allocations| && allocations[k].piodma :: allocations[k].range
  {
    forall r | r in PiodmaRanges(allocations)
      ensures exists k :: 0 <= k < |allocations| && allocations[k].piodma && allocations[k].range == r {
    }
  }

  lemma RangesFirst(allocations: seq<Allocation>, physical: seq<Physical>, shmem: Range)
    requires allocations != [] && Distinct(allocations, physical, shmem)
    ensures Distinct(allocations[1..], physical, shmem)
    ensures {shmem} + Ranges(allocations[1..], physical)
         == {shmem} + Ranges(allocations, physical) - {allocations[0].range}
  {
    AllocationsApart(allocations, physical, shmem, 0);
    WithoutIn(allocations, 0);
    assert Without(allocations, 0) == allocations[1..];
    assert forall p :: p in physical ==> p.range != allocations[0].range;
  }

  lemma PhysicalFirst(physical: seq<Physical>, shmem: Range)
    requires physical != [] && Distinct([], physical, shmem)
    ensures Distinct([], physical[1..], shmem)
    ensures {shmem} + Ranges([], physical[1..]) == {shmem} + Ranges([], physical) - {physical[0].range}
  {
    PhysicalLeaves([], physical, shmem, 0);
    assert Without(physical, 0) == physical[1..];
  }
}
