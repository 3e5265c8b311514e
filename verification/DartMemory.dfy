/** The memory that holds page tables, and the kernel's views of it. */
module DartMemory {
  import opened Bits
  import opened Wrappers
  import opened DartWalk

  datatype Mapping = Mapping(paddr: nat, vaddr: nat)

  ghost predicate Grows(a: map<nat, nat>, b: map<nat, nat>) {
    forall x :: x in a ==> x in b && b[x] == a[x]
  }

  lemma GrowsOn(a: map<nat, nat>, b: map<nat, nat>, c: map<nat, nat>)
    requires Grows(a, b) && Grows(b, c)
    ensures Grows(a, c)
  {
  }

  class Memory {
    const bits: nat
    var tables: Tables
    var views: map<nat, nat>

    ghost predicate SizesOk()
      reads this
    {
      Sized(tables, bits)
    }

    constructor (bits: nat, tables: Tables)
      requires Sized(tables, bits)
      ensures this.bits == bits && this.tables == tables && views == map[]
    {
      this.bits := bits;
      this.tables := tables;
      views := map[];
    }

    ghost predicate Sees(vaddr: nat, paddr: nat)
      reads this
    {
      vaddr in views && views[vaddr] == paddr && paddr in tables
    }

    method ReadPte(vaddr: nat, index: nat) returns (e: Pte)
      requires SizesOk() && vaddr in views && views[vaddr] in tables && index < Pow2(bits)
      ensures e == tables[views[vaddr]][index]
    {
      e := tables[views[vaddr]][index];
    }

    method WritePte(vaddr: nat, index: nat, e: Pte)
      requires SizesOk() && vaddr in views && views[vaddr] in tables && index < Pow2(bits)
      modifies this`tables
      ensures SizesOk()
      ensures tables == Write(old(tables), views[vaddr], index, e)
    {
      tables := Write(tables, views[vaddr], index, e);
    }

    method FreshVaddr() returns (vaddr: nat)
      ensures vaddr !in views
    {
      ghost var unused := Above(views.Keys);
      assert unused !in views;
      vaddr :| vaddr !in views;
    }

    /** `memremap_normal`: may fail; a view it gives shows the table at `paddr`. */
    method Remap(paddr: nat) returns (r: Option<nat>)
      modifies this`views
      ensures Grows(old(views), views)
      ensures r.Some? ==> Sees(r.value, paddr)
    {
      var give: bool := *;
      if give && paddr in tables {
        var vaddr := FreshVaddr();
        views := views[vaddr := paddr];
        r := Some(vaddr);
      } else {
        r := None;
      }
    }

    /** `allocate_table`: may fail; else a zeroed table in memory no table uses, below the address field's limit. */
    method Allocate() returns (r: Option<Mapping>)
      requires SizesOk()
      modifies this
      ensures SizesOk() && Grows(old(views), views)
      ensures match r
              case Some(m) => m.paddr !in old(tables) && FitsPte(m.paddr) && Sees(m.vaddr, m.paddr)
                              && tables == old(tables)[m.paddr := Blank(bits)]
              case None => tables == old(tables)
    {
      var give: bool := *;
      var candidates := set p: nat | p < PADDR_LIMIT && p !in tables && FitsPte(p);
      if give && candidates != {} {
        var paddr :| paddr in candidates;
        var vaddr := FreshVaddr();
        tables := tables[paddr := Blank(bits)];
        views := views[vaddr := paddr];
        r := Some(Mapping(paddr, vaddr));
      } else {
        r := None;
      }
    }
  }

  ghost function Above(s: set<nat>): (x: nat)
    ensures forall y :: y in s ==> y < x
  {
    if s == {} then 0
    else
      var y :| y in s;
      var x := Above(s - {y});
      assert forall z :: z in s ==> z == y || z in s - {y};
      if x <= y then y + 1 else x
  }
}
