/** The DART page table driver: map, unmap and translate, against a plain map from pages to entries. */
module DartPageTable {
  import opened Bits
  import opened Wrappers
  import opened DartWalk
  import opened DartGeometry
  import opened DartMemory
  import opened DartImport
  import opened DartRanges

  function FindVaddr(list: seq<Mapping>, paddr: nat): Option<nat> {
    if list == [] then None
    else if list[0].paddr == paddr then Some(list[0].vaddr)
    else FindVaddr(list[1..], paddr)
  }

  /** The first mapping filed under `paddr`, if any. */
  lemma {:induction false} FindVaddrMember(list: seq<Mapping>, paddr: nat)
    ensures match FindVaddr(list, paddr)
            case Some(vaddr) => Mapping(paddr, vaddr) in list
            case None => forall m :: m in list ==> m.paddr != paddr
  {
    if list != [] {
      assert list == [list[0]] + list[1..];
      FindVaddrMember(list[1..], paddr);
    }
  }

  /** `level` describes the hierarchy under `root`. */
  ghost predicate Hierarchy(mem: Tables, g: Geometry, root: nat, level: map<nat, nat>) {
    g.levels > 0 && root in level && level[root] == g.levels - 1 && Layered(mem, g.bits, level)
  }

  /** One level of a descent: the entry for `iova` in the table at level `lvl` on its path. */
  lemma StepDown(mem: Tables, g: Geometry, root: nat, level: map<nat, nat>, iova: nat, lvl: nat, t: nat)
    requires Hierarchy(mem, g, root, level) && lvl < g.levels
    requires TableAt(mem, g.bits, root, g.levels - 1, lvl, PageOf(g, iova)) == Some(t)
    ensures TableIndex(g, iova, lvl) == Digit(PageOf(g, iova), g.bits, lvl)
    ensures t in level && level[t] == lvl && t in mem && |mem[t]| == Pow2(g.bits)
    ensures lvl > 0 && IsValid(mem[t][TableIndex(g, iova, lvl)]) ==>
              var next := Addr(mem[t][TableIndex(g, iova, lvl)]);
              next in level && TableAt(mem, g.bits, root, g.levels - 1, lvl - 1, PageOf(g, iova)) == Some(next)
  {
    IndexIsDigit(g, iova, lvl);
    PathLevel(mem, g.bits, level, root, g.levels - 1, lvl, PageOf(g, iova));
    var i := TableIndex(g, iova, lvl);
    if lvl > 0 && IsValid(mem[t][i]) { assert Points(mem, t, i, Addr(mem[t][i])); }
  }

  lemma AttachKeepsPages(mem: Tables, mem': Tables, g: Geometry, root: nat, level: map<nat, nat>,
                         t: nat, lvl: nat, blank: nat, v: nat)
    requires Hierarchy(mem, g, root, level) && t in level && level[t] == lvl > 0
    requires !IsValid(mem[t][Digit(v, g.bits, lvl)]) && blank !in mem && FitsPte(blank)
    requires mem' == Attach(mem, g.bits, t, Digit(v, g.bits, lvl), blank)
    requires TableAt(mem, g.bits, root, g.levels - 1, lvl, v) == Some(t)
    ensures Hierarchy(mem', g, root, level[blank := lvl - 1])
    ensures Unshared(mem, level) ==> Unshared(mem', level[blank := lvl - 1])
    ensures PagesIn(mem', g, root) == PagesIn(mem, g, root)
    ensures TableAt(mem', g.bits, root, g.levels - 1, lvl - 1, v) == Some(blank)
  {
    var i := Digit(v, g.bits, lvl);
    AttachKeepsShape(mem, g.bits, level, t, i, blank);
    forall w: nat ensures Found(mem', g, root, w) == Found(mem, g, root, w) {
      AttachShowsNothing(mem, g.bits, level, root, g.levels - 1, t, i, blank, w);
    }
    AttachKeepsPaths(mem, g.bits, level, root, g.levels - 1, v, t, i, blank, lvl);
  }

  lemma LeafWriteOnPages(mem: Tables, g: Geometry, root: nat, level: map<nat, nat>, t: nat, v: nat, e: Pte)
    requires Hierarchy(mem, g, root, level) && v < PageCount(g)
    requires TableAt(mem, g.bits, root, g.levels - 1, 0, v) == Some(t)
    ensures t in level && level[t] == 0
    ensures var mem' := Write(mem, t, Digit(v, g.bits, 0), e);
            && Hierarchy(mem', g, root, level) && (Unshared(mem, level) ==> Unshared(mem', level))
            && Found(mem', g, root, v) == Shown(e)
            && (Unshared(mem, level) ==>
                  PagesIn(mem', g, root) ==
                  if IsValid(e) then PagesIn(mem, g, root)[v := e] else PagesIn(mem, g, root) - {v})
  {
    var top, i := g.levels - 1, Digit(v, g.bits, 0);
    PathLevel(mem, g.bits, level, root, top, 0, v);
    LeafWriteKeepsShape(mem, g.bits, level, t, i, e);
    InRange(g, v);
    forall w: nat | w < PageCount(g) && (w == v || Unshared(mem, level))
      ensures Found(Write(mem, t, i, e), g, root, w) == if w == v then Shown(e) else Found(mem, g, root, w) {
      InRange(g, w);
      LeafWriteIsExact(mem, g.bits, level, root, top, v, e, w);
    }
  }

  class PageTable {
    const mem: Memory
    const g: Geometry
    const rootVaddr: nat
    const rootPaddr: nat
    var tables: seq<Mapping>
    var firmwareTables: seq<Mapping>
    ghost var level: map<nat, nat>   // the level of every table reachable from the root

    // ---- What the driver knows ----

    function MappedTableVaddr(paddr: nat): Option<nat>
      reads this
    {
      if paddr == rootPaddr then Some(rootVaddr)
      else if FindVaddr(tables, paddr).Some? then FindVaddr(tables, paddr)
      else FindVaddr(firmwareTables, paddr)
    }

    predicate Knows(paddr: nat)
      reads this
    {
      MappedTableVaddr(paddr).Some?
    }

    /** Every view the driver keeps shows the table it is filed under. */
    ghost predicate ViewsOk()
      reads this, mem
    {
      && mem.bits == g.bits && mem.SizesOk() && g.levels >= 2
      && mem.Sees(rootVaddr, rootPaddr)
      && (forall m :: m in tables || m in firmwareTables ==> mem.Sees(m.vaddr, m.paddr))
    }

    lemma KnownIsSeen(paddr: nat)
      requires ViewsOk() && Knows(paddr)
      ensures mem.Sees(MappedTableVaddr(paddr).value, paddr)
    {
      FindVaddrMember(tables, paddr);
      FindVaddrMember(firmwareTables, paddr);
    }

    /** Every table a walk can reach sits at one level and is known to the driver. */
    ghost predicate Adopted()
      reads this, mem
    {
      && ViewsOk()
      && Hierarchy(mem.tables, g, rootPaddr, level)
      && (forall t :: t in level ==> Knows(t))
    }

    ghost predicate Valid()
      reads this, mem
    {
      Adopted() && Unshared(mem.tables, level)
    }

    /** What the hardware finds. */
    ghost function Pages(): map<nat, Pte>
      reads this, mem
    {
      PagesIn(mem.tables, g, rootPaddr)
    }

    /** `t` is the table at level `lvl` on the way to `iova`. */
    ghost predicate OnPath(iova: nat, lvl: nat, t: nat)
      requires g.levels > 0
      reads this, mem
    {
      TableAt(mem.tables, g.bits, rootPaddr, g.levels - 1, lvl, PageOf(g, iova)) == Some(t)
    }

    /** Tables outside the hierarchy are left alone, and it grows by newly allocated ones only. */
    twostate predicate OthersKept()
      reads this, mem
    {
      && (forall t :: t in old(mem.tables) && t !in old(level) ==>
                        t in mem.tables && mem.tables[t] == old(mem.tables)[t])
      && (forall t :: t in old(level) ==> t in level)
      && (forall t :: t in level && t !in old(level) ==> t !in old(mem.tables))
      && (forall t :: t in old(mem.tables) ==> t in mem.tables)
      && Grows(old(mem.views), mem.views)
    }

    constructor Over(mem: Memory, g: Geometry, root: Mapping, firmware: seq<Mapping>, ghost level: map<nat, nat>)
      ensures this.mem == mem && this.g == g && rootVaddr == root.vaddr && rootPaddr == root.paddr
      ensures tables == [] && firmwareTables == firmware && this.level == level
    {
      this.mem := mem;
      this.g := g;
      rootVaddr := root.vaddr;
      rootPaddr := root.paddr;
      tables := [];
      firmwareTables := firmware;
      this.level := level;
    }

    // ---- Descending ----

    method MapFirmwareTable(paddr: nat) returns (r: Option<nat>, newlyMapped: bool)
      requires ViewsOk()
      modifies this`firmwareTables, mem`views
      ensures ViewsOk() && Grows(old(mem.views), mem.views)
      ensures r.Some? ==> mem.Sees(r.value, paddr) && Knows(paddr)
      ensures old(Knows(paddr)) ==> r.Some? && !newlyMapped && firmwareTables == old(firmwareTables)
      ensures r.Some? && !old(Knows(paddr)) ==> newlyMapped
      ensures forall t :: Knows(t) <==> old(Knows(t)) || (r.Some? && t == paddr)
      ensures (old(Adopted()) ==> Adopted()) && (old(Valid()) ==> Valid())
    {
      var known := MappedTableVaddr(paddr);
      if known.Some? {
        KnownIsSeen(paddr);
        return known, false;
      }
      r := mem.Remap(paddr);
      if r.Some? {
        firmwareTables := firmwareTables + [Mapping(paddr, r.value)];
        FindAppended(old(firmwareTables), Mapping(paddr, r.value));
      }
      newlyMapped := r.Some?;
    }

    method TranslateIova(iova: nat) returns (r: Option<nat>)
      requires Adopted()
      ensures PageOf(g, iova) < PageCount(g) ==> r == Lookup(g, Pages(), iova)
    {
      var tableVaddr := rootVaddr;
      ghost var v := PageOf(g, iova);
      for lvl := g.levels downto 1
        invariant tableVaddr in mem.views && mem.views[tableVaddr] in level
        invariant level[mem.views[tableVaddr]] == lvl - 1
        invariant Found(mem.tables, g, rootPaddr, v)
               == Walk(mem.tables, g.bits, mem.views[tableVaddr], lvl - 1, v)
      {
        IndexIsDigit(g, iova, lvl);
        ghost var t := mem.views[tableVaddr];
        var index := TableIndex(g, iova, lvl);
        var pte := mem.ReadPte(tableVaddr, index);
        if !IsValid(pte) {
          return None;
        }
        assert Points(mem.tables, t, index, Addr(pte));
        var next := MappedTableVaddr(Addr(pte));
        KnownIsSeen(Addr(pte));
        tableVaddr := next.value;
      }
      IndexIsDigit(g, iova, 0);
      var pte := mem.ReadPte(tableVaddr, TableIndex(g, iova, 0));
      if !IsValid(pte) {
        return None;
      }
      r := Some(Or(Addr(pte), Low(iova, g.pageShift)));
    }

    /** `allocate_table`, and the new table filed in `tables`. */
    method FileNewTable() returns (r: Option<Mapping>)
      requires ViewsOk()
      modifies this`tables, mem
      ensures ViewsOk() && Grows(old(mem.views), mem.views)
      ensures forall t :: Knows(t) <==> old(Knows(t)) || (r.Some? && t == r.value.paddr)
      ensures match r
              case Some(m) => m.paddr !in old(mem.tables) && FitsPte(m.paddr) && mem.Sees(m.vaddr, m.paddr)
                              && mem.tables == old(mem.tables)[m.paddr := Blank(g.bits)]
              case None => mem.tables == old(mem.tables)
    {
      r := mem.Allocate();
      if r.Some? {
        tables := tables + [r.value];
        FindAppended(old(tables), r.value);
      }
    }

    /** Hang the filed, still empty table under its entry of table `t`. */
    method Hang(tableVaddr: nat, index: nat, table: Mapping, ghost t: nat, ghost v: nat, ghost was: Tables)
      requires ViewsOk() && mem.Sees(tableVaddr, t) && (forall u :: u in level || u == table.paddr ==> Knows(u))
      requires Hierarchy(was, g, rootPaddr, level) && t in level && level[t] > 0
      requires index == Digit(v, g.bits, level[t]) && !IsValid(was[t][index])
      requires TableAt(was, g.bits, rootPaddr, g.levels - 1, level[t], v) == Some(t)
      requires table.paddr !in was && FitsPte(table.paddr) && mem.tables == was[table.paddr := Blank(g.bits)]
      modifies mem`tables, this`level
      ensures Adopted() && (Unshared(was, old(level)) ==> Valid())
      ensures mem.tables == Attach(was, g.bits, t, index, table.paddr)
      ensures level == old(level)[table.paddr := old(level)[t] - 1]
      ensures Pages() == PagesIn(was, g, rootPaddr)
      ensures TableAt(mem.tables, g.bits, rootPaddr, g.levels - 1, old(level)[t] - 1, v) == Some(table.paddr)
    {
      mem.WritePte(tableVaddr, index, TablePte(table.paddr));
      assert mem.tables == Attach(was, g.bits, t, index, table.paddr);
      AttachKeepsPages(was, mem.tables, g, rootPaddr, level, t, level[t], table.paddr, v);
      level := level[table.paddr := level[t] - 1];
    }

    /** An entry without a table gets a new, empty one. */
    method AllocateUnder(tableVaddr: nat, index: nat, ghost t: nat, ghost v: nat, ghost lvl: nat)
      returns (r: Option<nat>)
      requires Adopted() && mem.Sees(tableVaddr, t) && t in level && level[t] == lvl && 0 < lvl < g.levels
      requires index == Digit(v, g.bits, lvl) && !IsValid(mem.tables[t][index])
      requires TableAt(mem.tables, g.bits, rootPaddr, g.levels - 1, lvl, v) == Some(t)
      modifies this, mem
      ensures Adopted() && OthersKept() && (old(Valid()) ==> Valid())
      ensures Pages() == old(Pages())
      ensures r.Some? ==> r.value in mem.views
      ensures r.Some? ==>
                TableAt(mem.tables, g.bits, rootPaddr, g.levels - 1, lvl - 1, v) == Some(mem.views[r.value])
    {
      ghost var was := mem.tables;
      var table := FileNewTable();
      if table.None? {
        return None;
      }
      Hang(tableVaddr, index, table.value, t, v, was);
      r := Some(table.value.vaddr);
    }

    /** The write of a leaf entry changes its own page and no other. */
    method WriteLeaf(tableVaddr: nat, index: nat, ghost v: nat, e: Pte)
      requires Adopted() && v < PageCount(g) && tableVaddr in mem.views
      requires TableAt(mem.tables, g.bits, rootPaddr, g.levels - 1, 0, v) == Some(mem.views[tableVaddr])
      requires index == Digit(v, g.bits, 0)
      modifies mem`tables
      ensures Adopted() && OthersKept() && (old(Valid()) ==> Valid())
      ensures old(Valid()) ==> Pages() == if IsValid(e) then old(Pages())[v := e] else old(Pages()) - {v}
      ensures if IsValid(e) then v in Pages() && Pages()[v] == e else v !in Pages()
    {
      LeafWriteOnPages(mem.tables, g, rootPaddr, level, mem.views[tableVaddr], v, e);
      mem.WritePte(tableVaddr, index, e);
    }

    /** The table below the entry for `iova`, allocated if there is none yet. */
    method NextTable(tableVaddr: nat, iova: nat, lvl: nat) returns (r: Option<nat>)
      requires Adopted() && 0 < lvl < g.levels && tableVaddr in mem.views
      requires OnPath(iova, lvl, mem.views[tableVaddr])
      modifies this, mem
      ensures Adopted() && OthersKept() && (old(Valid()) ==> Valid())
      ensures Pages() == old(Pages())
      ensures r.Some? ==> r.value in mem.views && OnPath(iova, lvl - 1, mem.views[r.value])
    {
      ghost var t := mem.views[tableVaddr];
      StepDown(mem.tables, g, rootPaddr, level, iova, lvl, t);
      var index := TableIndex(g, iova, lvl);
      var pte := mem.ReadPte(tableVaddr, index);
      if !IsValid(pte) {
        r := AllocateUnder(tableVaddr, index, t, PageOf(g, iova), lvl);
      } else {
        var newlyMapped;
        r, newlyMapped := MapFirmwareTable(Addr(pte));
      }
    }

    method MapPage(iova: nat, paddr: nat, flags: Pte) returns (ok: bool)
      requires Adopted() && PageOf(g, iova) < PageCount(g)
      requires flags.frame == 0 && IsValid(flags)
      modifies this, mem
      ensures Adopted() && OthersKept() && (old(Valid()) ==> Valid())
      ensures old(Valid()) && ok ==> Pages() == old(Pages())[PageOf(g, iova) := LeafPte(paddr, flags)]
      ensures old(Valid()) && !ok ==> Pages() == old(Pages())
      ensures ok ==> PageOf(g, iova) in Pages() && Pages()[PageOf(g, iova)] == LeafPte(paddr, flags)
    {
      var tableVaddr := rootVaddr;
      for lvl := g.levels downto 1
        invariant Adopted() && OthersKept() && (old(Valid()) ==> Valid())
        invariant Pages() == old(Pages())
        invariant tableVaddr in mem.views && OnPath(iova, lvl - 1, mem.views[tableVaddr])
      {
        var next := NextTable(tableVaddr, iova, lvl);
        if next.None? {
          return false;
        }
        tableVaddr := next.value;
      }
      StepDown(mem.tables, g, rootPaddr, level, iova, 0, mem.views[tableVaddr]);
      WriteLeaf(tableVaddr, TableIndex(g, iova, 0), PageOf(g, iova), LeafPte(paddr, flags));
      ok := true;
    }

    method UnmapPage(iova: nat) returns (ok: bool)
      requires Adopted() && PageOf(g, iova) < PageCount(g)
      modifies this`firmwareTables, mem
      ensures ok && Adopted() && OthersKept() && (old(Valid()) ==> Valid())
      ensures old(Valid()) ==> Pages() == old(Pages()) - {PageOf(g, iova)}
      ensures PageOf(g, iova) !in Pages()
    {
      var tableVaddr := rootVaddr;
      ghost var v, top := PageOf(g, iova), g.levels - 1;
      for lvl := g.levels downto 1
        invariant Adopted() && mem.tables == old(mem.tables) && Grows(old(mem.views), mem.views)
        invariant tableVaddr in mem.views
        invariant TableAt(mem.tables, g.bits, rootPaddr, top, lvl - 1, v) == Some(mem.views[tableVaddr])
      {
        StepDown(mem.tables, g, rootPaddr, level, iova, lvl, mem.views[tableVaddr]);
        var index := TableIndex(g, iova, lvl);
        var pte := mem.ReadPte(tableVaddr, index);
        if !IsValid(pte) {
          WalkVia(mem.tables, g.bits, rootPaddr, top, lvl, v);
          assert Found(mem.tables, g, rootPaddr, v) == None;
          assert Pages() == old(Pages()) - {v};
          return true;
        }
        var next, _ := MapFirmwareTable(Addr(pte));
        if next.None? {
          return false;
        }
        tableVaddr := next.value;
      }
      StepDown(mem.tables, g, rootPaddr, level, iova, 0, mem.views[tableVaddr]);
      WriteLeaf(tableVaddr, TableIndex(g, iova, 0), v, ZERO);
      ok := true;
    }

    /** `MapPage`, stated for callers that have the wanted page map at hand. */
    method MapPageTo(iova: nat, paddr: nat, flags: Pte, ghost wanted: map<nat, Pte>) returns (ok: bool)
      requires Valid() && flags.frame == 0 && IsValid(flags) && PageOf(g, iova) < PageCount(g)
      requires wanted == Pages()[PageOf(g, iova) := LeafPte(paddr, flags)]
      modifies this, mem
      ensures Valid() && OthersKept()
      ensures ok ==> Pages() == wanted
      ensures !ok ==> Pages() == old(Pages())
    {
      ok := MapPage(iova, paddr, flags);
    }

    method MapContiguous(iova: nat, paddr: nat, size: nat, flags: Pte) returns (ok: bool, ghost done: nat)
      requires Valid() && flags.frame == 0 && IsValid(flags)
      requires PageOf(g, iova) + PagesFor(g, size) <= PageCount(g)
      modifies this, mem
      ensures Valid() && OthersKept()
      ensures ok ==> done == PagesFor(g, size)
      ensures done <= PagesFor(g, size)
      ensures Pages() == MapRun(g, old(Pages()), PageOf(g, iova), paddr, done, flags)
      ensures KeepsOthers(g, old(Pages()), Pages(), iova, size)
      ensures ok && Mappable(g, iova, paddr, size) ==> Translates(g, Pages(), iova, paddr, size)
    {
      hide KeepsOthers, Translates, PagesIn, Mappable;
      var pages := PagesFor(g, size);
      ghost var was, first := Pages(), PageOf(g, iova);
      done := 0;
      for i := 0 to pages
        invariant Valid() && OthersKept() && done == i
        invariant Pages() == MapRun(g, was, first, paddr, i, flags)
      {
        var at, frame := iova + Shl(i, g.pageShift), paddr + Shl(i, g.pageShift);
        ghost var wanted := MapRunNext(g, was, iova, first, paddr, i, flags, at, frame);
        var mapped := MapPageTo(at, frame, flags, wanted);
        if !mapped {
          MapKeepsOthers(g, was, iova, paddr, size, i, flags);
          return false, i;
        }
        done := i + 1;
      }
      ok := true;
      MapKeepsOthers(g, was, iova, paddr, size, pages, flags);
      if Mappable(g, iova, paddr, size) {
        MapTranslates(g, was, iova, paddr, size, flags);
      }
    }

    method UnmapRange(iova: nat, len: nat) returns (ok: bool)
      requires Valid() && PageOf(g, iova) + PagesFor(g, len) <= PageCount(g)
      modifies this`firmwareTables, mem
      ensures ok && Valid() && OthersKept()
      ensures Pages() == UnmapRun(old(Pages()), PageOf(g, iova), PagesFor(g, len))
      ensures KeepsOthers(g, old(Pages()), Pages(), iova, len)
      ensures PageAligned(g, iova) ==> Absent(g, Pages(), iova, len)
    {
      hide Adopted, PagesIn, KeepsOthers, Absent;
      ghost var was, first := Pages(), PageOf(g, iova);
      for page := 0 to PagesFor(g, len)
        invariant Valid() && OthersKept()
        invariant Pages() == UnmapRun(was, first, page)
      {
        var at := iova + Shl(page, g.pageShift);
        PageAfter(g, iova, page);
        UnmapRunNext(was, first, page, PageOf(g, at));
        var unmapped := UnmapPage(at);
        if !unmapped {
          return false;
        }
      }
      ok := true;
      UnmapKeepsOthers(g, was, iova, len);
      if PageAligned(g, iova) { UnmapAbsent(g, was, iova, len); }
    }

    // ---- Making a table ----

    /** `new_for_page_shift`. */
    static method New(mem: Memory, pageShift: nat) returns (r: Option<PageTable>)
      requires mem.SizesOk() && (NewGeometry(pageShift).Some? ==> mem.bits == NewGeometry(pageShift).value.bits)
      modifies mem
      ensures r.Some? ==> fresh(r.value) && r.value.mem == mem && r.value.Valid() && r.value.Pages() == map[]
      ensures r.Some? ==> NewGeometry(pageShift) == Some(r.value.g)
    {
      var geometry := NewGeometry(pageShift);
      if geometry.None? {
        return None;
      }
      var root := mem.Allocate();
      if root.None? {
        return None;
      }
      var g, top := geometry.value, geometry.value.levels - 1;
      var table := new PageTable.Over(mem, g, root.value, [], map[root.value.paddr := top]);
      assert forall v :: Found(mem.tables, g, root.value.paddr, v) == None;
      r := Some(table);
    }

    /** `wrap_existing`. The hierarchy under `root` is one in which no table is reached at two levels. */
    static method WrapExisting(mem: Memory, root: nat, pageShift: nat, ghost level: map<nat, nat>)
      returns (r: Option<PageTable>)
      requires mem.SizesOk() && (NewGeometry(pageShift).Some? ==> mem.bits == NewGeometry(pageShift).value.bits)
      requires NewGeometry(pageShift).Some? ==> Hierarchy(mem.tables, NewGeometry(pageShift).value, root, level)
      modifies mem`views
      ensures r.Some? ==> fresh(r.value) && r.value.mem == mem && r.value.rootPaddr == root && r.value.Adopted()
      ensures r.Some? ==> NewGeometry(pageShift) == Some(r.value.g)
      ensures r.Some? && Unshared(mem.tables, level) ==> r.value.Valid()
    {
      var geometry := NewGeometry(pageShift);
      if geometry.None? {
        return None;
      }
      var view := mem.Remap(root);
      if view.None? {
        return None;
      }
      var table := new PageTable.Over(mem, geometry.value, Mapping(root, view.value), [Mapping(root, view.value)], level);
      forall t | table.Knows(t) ensures t == root {
        FindVaddrMember(table.firmwareTables, t);
      }
      var ok := table.MapExistingTableHierarchy(view.value, geometry.value.levels, root);
      if !ok {
        return None;
      }
      table.DropUnreached();
      r := Some(table);
    }

    /** The tables below `bound` that the driver knows have all their children known as well. */
    ghost predicate ClosedBelow(bound: nat)
      reads this, mem
    {
      forall t, i, c :: t in level && Knows(t) && 0 < level[t] < bound && Points(mem.tables, t, i, c) ==> Knows(c)
    }

    ghost predicate ChildrenKnown(t: nat)
      reads this, mem
    {
      forall i, c :: Points(mem.tables, t, i, c) ==> Knows(c)
    }

    ghost predicate FirstChildrenKnown(t: nat, upTo: nat)
      reads this, mem
    {
      forall i, c :: i < upTo && Points(mem.tables, t, i, c) ==> Knows(c)
    }

    /** What adopting the tables under level `lvl` adds to what the driver knows. */
    twostate predicate Learned(lvl: nat)
      reads this, mem
    {
      && (forall t :: old(Knows(t)) ==> Knows(t))
      && (forall t :: Knows(t) && !old(Knows(t)) ==> t in level && level[t] < lvl)
    }

    method MapExistingTableHierarchy(tableVaddr: nat, lvl: nat, ghost t: nat) returns (ok: bool)
      requires ViewsOk() && mem.Sees(tableVaddr, t) && Layered(mem.tables, g.bits, level)
      requires 0 < lvl && t in level && level[t] == lvl - 1 && Knows(t) && ClosedBelow(lvl - 1)
      modifies this`firmwareTables, mem`views
      ensures ViewsOk() && Grows(old(mem.views), mem.views)
      ensures ok ==> Learned(lvl - 1) && ClosedBelow(lvl - 1) && (lvl > 1 ==> ChildrenKnown(t))
      decreases lvl, 0
    {
      if lvl <= 1 {
        return true;
      }
      for index := 0 to Pow2(g.bits)
        invariant ViewsOk() && Grows(old(mem.views), mem.views)
        invariant Learned(lvl - 1) && ClosedBelow(lvl - 1) && FirstChildrenKnown(t, index)
      {
        var pte := mem.ReadPte(tableVaddr, index);
        if IsValid(pte) {
          assert Points(mem.tables, t, index, Addr(pte));
          var adopted := AdoptChild(Addr(pte), lvl - 1);
          if !adopted {
            return false;
          }
        }
      }
      ok := true;
    }

    /** The table under one entry; a table already mapped is not visited again. */
    method AdoptChild(paddr: nat, lvl: nat) returns (ok: bool)
      requires ViewsOk() && Layered(mem.tables, g.bits, level)
      requires 0 < lvl && paddr in level && level[paddr] == lvl - 1 && ClosedBelow(lvl)
      modifies this`firmwareTables, mem`views
      ensures ViewsOk() && Grows(old(mem.views), mem.views)
      ensures ok ==> Learned(lvl) && ClosedBelow(lvl) && Knows(paddr)
      decreases lvl, 1
    {
      var next, newlyMapped := MapFirmwareTable(paddr);
      ok := next.Some?;
      if ok && newlyMapped {
        ok := MapExistingTableHierarchy(next.value, lvl, paddr);
      }
    }

    /** Keep in `level` only tables the driver knows. */
    ghost method DropUnreached()
      requires ViewsOk() && Hierarchy(mem.tables, g, rootPaddr, level) && ClosedBelow(g.levels)
      requires forall t :: t in level && Knows(t) ==> level[t] < g.levels
      modifies this`level
      ensures Adopted() && (Unshared(mem.tables, old(level)) ==> Valid())
    {
      level := map t | t in level && Knows(t) :: level[t];
    }

    // ---- Importing ----

    /** The foreign tables `s` are as in `src`, and none of them is one of this hierarchy. */
    ghost predicate Foreign(src: Tables, s: set<(nat, nat)>)
      reads this, mem
    {
      forall t, l :: (t, l) in s && t in src ==> t in mem.tables && mem.tables[t] == src[t] && t !in level
    }

    method ImportFromExisting(root: nat, ghost s: set<(nat, nat)>) returns (ok: bool, imported: nat)
      requires Valid() && GeometryOk(g)
      requires Readable(mem.tables, g.bits, s) && (root, g.levels - 1) in s && Foreign(mem.tables, s)
      modifies this, mem
      ensures Valid()
      ensures ok ==> Pages() == old(Pages()) + Imports(old(mem.tables), g, root, g.levels - 1, 0, Pow2(g.bits))
      ensures ok ==> imported == |Imports(old(mem.tables), g, root, g.levels - 1, 0, Pow2(g.bits))|
      ensures !ok ==> Begun(old(Pages()), Pages(), Imports(old(mem.tables), g, root, g.levels - 1, 0, Pow2(g.bits)))
    {
      ghost var src := mem.tables;
      PrefixOfZero(g.bits, 0);
      ShiftsOfZero(LevelShift(g, g.levels));
      ok, imported := ImportLevel(root, g.levels, 0, 0, src, s, g.levels - 1, 0);
    }

    /** Table `tablePaddr` stands for node `p` of level `l`. */
    method ImportLevel(tablePaddr: nat, lvl: nat, iovaBase: nat, before: nat,
                       ghost src: Tables, ghost s: set<(nat, nat)>, ghost l: nat, ghost p: nat)
      returns (ok: bool, imported: nat)
      requires Valid() && Foreign(src, s) && lvl == l + 1
      requires Readable(src, g.bits, s) && (tablePaddr, l) in s && NodeInSpace(g, l, p)
      requires iovaBase == Shl(p, LevelShift(g, l + 1))
      modifies this, mem
      ensures Valid() && Foreign(src, s) && Grows(old(mem.views), mem.views)
      ensures ok ==> Pages() == Merged(old(Pages()), Imports(src, g, tablePaddr, l, p, Pow2(g.bits)))
      ensures ok ==> imported == before + Size(Imports(src, g, tablePaddr, l, p, Pow2(g.bits)))
      ensures !ok ==> Begun(old(Pages()), Pages(), Imports(src, g, tablePaddr, l, p, Pow2(g.bits)))
      decreases lvl, 0
    {
      hide *;
      imported := before;
      ghost var was := Pages();
      var view := ForeignView(tablePaddr, src, s, l);
      if view.None? {
        BegunNothing(was, Imports(src, g, tablePaddr, l, p, Pow2(g.bits)));
        return false, imported;
      }
      var tableVaddr := view.value;
      ImportsNone(src, g, tablePaddr, l, p, was);
      for i := 0 to Pow2(g.bits)
        invariant Valid() && Foreign(src, s) && Grows(old(mem.views), mem.views)
        invariant mem.Sees(tableVaddr, tablePaddr)
        invariant Pages() == Merged(was, Imports(src, g, tablePaddr, l, p, i))
        invariant imported == before + Size(Imports(src, g, tablePaddr, l, p, i))
      {
        var done;
        ghost var views := mem.views;
        done, imported := ImportSlot(tableVaddr, i, lvl, iovaBase, imported, tablePaddr, src, s, l, p, was);
        GrowsOn(old(mem.views), views, mem.views);
        if !done {
          return false, imported;
        }
      }
      ok := true;
    }

    method ForeignView(t: nat, ghost src: Tables, ghost s: set<(nat, nat)>, ghost l: nat) returns (r: Option<nat>)
      requires Valid() && Foreign(src, s) && Readable(src, g.bits, s) && (t, l) in s
      modifies this`firmwareTables, mem`views
      ensures Valid() && Foreign(src, s) && Grows(old(mem.views), mem.views)
      ensures Pages() == old(Pages()) && (r.Some? ==> mem.Sees(r.value, t))
    {
      var view, newlyMapped := MapFirmwareTable(t);
      r := view;
    }

    /** Entry `i` of a table being imported, once the entries before it are. */
    method ImportSlot(tableVaddr: nat, i: nat, lvl: nat, iovaBase: nat, before: nat, ghost t: nat,
                      ghost src: Tables, ghost s: set<(nat, nat)>, ghost l: nat, ghost p: nat, ghost was: map<nat, Pte>)
      returns (ok: bool, imported: nat)
      requires Valid() && Foreign(src, s) && lvl == l + 1 && mem.Sees(tableVaddr, t) && i < Pow2(g.bits)
      requires Readable(src, g.bits, s) && (t, l) in s && NodeInSpace(g, l, p) && iovaBase == Shl(p, LevelShift(g, l + 1))
      requires Pages() == Merged(was, Imports(src, g, t, l, p, i))
      modifies this, mem
      ensures Valid() && Foreign(src, s) && Grows(old(mem.views), mem.views) && mem.Sees(tableVaddr, t)
      ensures ok ==> Pages() == Merged(was, Imports(src, g, t, l, p, i + 1))
      ensures ok ==> imported + Size(Imports(src, g, t, l, p, i)) == before + Size(Imports(src, g, t, l, p, i + 1))
      ensures !ok ==> Begun(was, Pages(), Imports(src, g, t, l, p, Pow2(g.bits)))
      decreases lvl - 1, 2
    {
      assert (t, l) in s && t in src;
      var pte := mem.ReadPte(tableVaddr, i);
      assert pte == src[t][i] && (IsValid(pte) ==> Points(src, t, i, Addr(pte)));
      if !IsValid(pte) {
        ImportsSkip(src, g, t, l, p, i);
        return true, before;
      }
      ghost var w := Child(p, g.bits, i);
      ImportTurn(src, g, t, l, p, i, was);
      ok, imported := ImportEntry(pte, lvl, Or(iovaBase, Shl(i, LevelShift(g, lvl - 1))), before,
                                  src, s, l, w, Below(src, g, pte, l, w));
      if !ok {
        EntryBegun(src, g, t, l, p, i, was, Pages());
      }
    }

    /** A valid entry of level `l`: a page to map, or a table to descend into. */
    method ImportEntry(pte: Pte, lvl: nat, iova: nat, before: nat,
                       ghost src: Tables, ghost s: set<(nat, nat)>, ghost l: nat, ghost w: nat, ghost below: map<nat, Pte>)
      returns (ok: bool, imported: nat)
      requires Valid() && Foreign(src, s) && lvl == l + 1 && IsValid(pte) && pte.frame < FRAMES
      requires Readable(src, g.bits, s) && (l > 0 ==> (Addr(pte), l - 1) in s)
      requires EntryInSpace(g, l, w) && iova == Shl(w, LevelShift(g, l))
      requires below == Below(src, g, pte, l, w)
      modifies this, mem
      ensures Valid() && Foreign(src, s) && Grows(old(mem.views), mem.views)
      ensures ok ==> Pages() == Merged(old(Pages()), below) && imported == before + Size(below)
      ensures !ok ==> Begun(old(Pages()), Pages(), below)
      decreases lvl - 1, 1
    {
      if lvl <= 1 {
        BegunNothing(Pages(), below);
        ok := ImportLeaf(pte, iova, w, src, s);
        imported := before + 1;
      } else {
        ghost var k := l - 1;
        assert below == Imports(src, g, Addr(pte), k, w, Pow2(g.bits)) && NodeInSpace(g, k, w);
        hide *;
        ok, imported := ImportLevel(Addr(pte), lvl - 1, iova, before, src, s, k, w);
      }
    }

    method ImportLeaf(pte: Pte, iova: nat, ghost w: nat, ghost src: Tables, ghost s: set<(nat, nat)>) returns (ok: bool)
      requires Valid() && Foreign(src, s) && IsValid(pte) && pte.frame < FRAMES
      requires w < PageCount(g) && iova == Shl(w, g.pageShift)
      requires forall t, l :: (t, l) in s ==> t in src
      modifies this, mem
      ensures Valid() && Foreign(src, s) && Grows(old(mem.views), mem.views)
      ensures Pages() == if ok then old(Pages()) + map[w := Imported(pte)] else old(Pages())
    {
      JoinAt(w, g.pageShift, 0);
      ImportedIsLeaf(pte);
      ghost var wanted := Pages()[w := Imported(pte)];
      assert wanted == Pages() + map[w := Imported(pte)];
      ok := MapPageTo(iova, Addr(pte), LeafFlags(pte), wanted);
    }
  }

  lemma {:induction false} PrefixOfZero(bits: nat, h: nat)
    ensures Prefix(0, bits, h) == 0
  {
    if h > 0 {
      PrefixOfZero(bits, h - 1);
      ShiftsOfZero(bits);
    }
  }

  lemma {:induction false} FindAppended(list: seq<Mapping>, m: Mapping)
    ensures forall p :: FindVaddr(list + [m], p).Some? <==> FindVaddr(list, p).Some? || p == m.paddr
    ensures forall p :: FindVaddr(list, p).Some? ==> FindVaddr(list + [m], p) == FindVaddr(list, p)
  {
    if list == [] {
    } else {
      assert (list + [m])[1..] == list[1..] + [m];
      FindAppended(list[1..], m);
    }
  }
}
