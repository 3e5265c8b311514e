/** Ranges of pages, mapped and unmapped on a plain page map, and what that means byte by byte. */
module DartRanges {
  import opened Arithmetic
  import opened Bits
  import opened Wrappers
  import opened DartWalk
  import opened DartGeometry

  /** `size.div_ceil(page_size)`. */
  function PagesFor(g: Geometry, size: nat): nat {
    Shr(size + PageSize(g) - 1, g.pageShift)
  }

  predicate InRun(v: nat, first: nat, count: nat) {
    first <= v < first + count
  }

  /** `count` consecutive pages mapped to consecutive frames. */
  ghost function MapRun(g: Geometry, pages: map<nat, Pte>, first: nat, paddr: nat, count: nat, flags: Pte): map<nat, Pte>
    requires flags.frame == 0
  {
    pages + map v: nat | v < first + count && InRun(v, first, count)
      :: LeafPte(paddr + Shl(v - first, g.pageShift), flags)
  }

  ghost function UnmapRun(pages: map<nat, Pte>, first: nat, count: nat): map<nat, Pte> {
    map v | v in pages && !InRun(v, first, count) :: pages[v]
  }

  lemma UnmapRunNext(pages: map<nat, Pte>, first: nat, count: nat, v: nat)
    requires v == first + count
    ensures UnmapRun(pages, first, count + 1) == UnmapRun(pages, first, count) - {v}
  {
    assert forall w :: InRun(w, first, count + 1) <==> InRun(w, first, count) || w == v;
  }

  /** `i` pages further on. */
  lemma PageAfter(g: Geometry, iova: nat, i: nat)
    ensures PageOf(g, iova + Shl(i, g.pageShift)) == PageOf(g, iova) + i
  {
    var k, q := g.pageShift, PageOf(g, iova);
    SplitAt(iova, k);
    ShlAdds(q, i, k);
    JoinAt(q + i, k, Low(iova, k));
  }

  lemma MapRunNext(g: Geometry, pages: map<nat, Pte>, iova: nat, first: nat, paddr: nat, i: nat, flags: Pte,
                   at: nat, frame: nat) returns (next: map<nat, Pte>)
    requires flags.frame == 0 && first == PageOf(g, iova)
    requires at == iova + Shl(i, g.pageShift) && frame == paddr + Shl(i, g.pageShift)
    ensures PageOf(g, at) == first + i
    ensures next == MapRun(g, pages, first, paddr, i + 1, flags)
    ensures next == MapRun(g, pages, first, paddr, i, flags)[PageOf(g, at) := LeafPte(frame, flags)]
  {
    PageAfter(g, iova, i);
    next := MapRun(g, pages, first, paddr, i + 1, flags);
    assert forall v :: InRun(v, first, i + 1) <==> InRun(v, first, i) || v == first + i;
  }

  /** Unmapping a range undoes a mapping into it, a failed one that stopped after `done` pages too: where the range was
      empty before, the translations are as they were. */
  lemma MapThenUnmap(g: Geometry, pages: map<nat, Pte>, first: nat, paddr: nat, done: nat, count: nat, flags: Pte)
    requires flags.frame == 0 && done <= count
    ensures UnmapRun(MapRun(g, pages, first, paddr, done, flags), first, count) == UnmapRun(pages, first, count)
    ensures (forall v :: InRun(v, first, count) ==> v !in pages) ==> UnmapRun(pages, first, count) == pages
  {
    var mapped := MapRun(g, pages, first, paddr, done, flags);
    forall v ensures v in UnmapRun(mapped, first, count) <==> v in UnmapRun(pages, first, count) {
      assert v in mapped <==> v in pages || InRun(v, first, done);
    }
  }

  lemma MultipleFits(x: nat, k: nat)
    requires k >= 12 && Shl(x, k) < PADDR_LIMIT
    ensures FitsPte(Shl(x, k))
  {
    var y := Shl(x, k - 12);
    ShlShl(x, k - 12, 12);
    ShlByMul(y, 12);
    assert Pow2(12) == FRAME;
    assert Shl(x, k) == y * FRAME;
  }

  /** The frame address and the offset put together by `|` are the byte's address. */
  lemma FrameAndOffset(x: nat, s: nat, off: nat, flags: Pte)
    requires flags.frame == 0 && s >= 12 && off < Pow2(s)
    requires Shl(x, s) < PADDR_LIMIT
    ensures Or(Addr(LeafPte(Shl(x, s), flags)), off) == Shl(x, s) + off
  {
    MultipleFits(x, s);
    OrAdds(x, s, off);
  }

  /** After mapping a page-aligned range, every address in its rounded extent translates to its counterpart. */
  lemma ContiguousTranslates(
      g: Geometry, pages: map<nat, Pte>, iova: nat, paddr: nat, count: nat, flags: Pte, k: nat)
    requires g.pageShift >= 12 && flags.frame == 0
    requires Low(iova, g.pageShift) == 0 && Low(paddr, g.pageShift) == 0
    requires paddr + Shl(count, g.pageShift) <= PADDR_LIMIT && k < Shl(count, g.pageShift)
    ensures Lookup(g, MapRun(g, pages, PageOf(g, iova), paddr, count, flags), iova + k) == Some(paddr + k)
  {
    hide *;
    QuotientBelow(k, count, g.pageShift);
    MapRunAt(g, pages, PageOf(g, iova), paddr, count, flags, PageOf(g, iova) + Shr(k, g.pageShift));
    EntryTranslates(g, MapRun(g, pages, PageOf(g, iova), paddr, count, flags), iova, paddr, count, flags, k);
  }

  lemma QuotientBelow(k: nat, count: nat, s: nat)
    requires k < Shl(count, s)
    ensures Shr(k, s) < count
  {
    SplitAt(k, s);
    if Shr(k, s) >= count { ShlMono(count, Shr(k, s), s); assert false; }
  }

  lemma EntryTranslates(
      g: Geometry, m: map<nat, Pte>, iova: nat, paddr: nat, count: nat, flags: Pte, k: nat)
    requires g.pageShift >= 12 && flags.frame == 0 && Low(iova, g.pageShift) == 0 && Low(paddr, g.pageShift) == 0
    requires paddr + Shl(count, g.pageShift) <= PADDR_LIMIT && Shr(k, g.pageShift) < count
    requires PageOf(g, iova) + Shr(k, g.pageShift) in m
    requires m[PageOf(g, iova) + Shr(k, g.pageShift)] == LeafPte(paddr + Shl(Shr(k, g.pageShift), g.pageShift), flags)
    ensures Lookup(g, m, iova + k) == Some(paddr + k)
  {
    hide Or, Pow2, FrameOf;
    var s, i := g.pageShift, Shr(k, g.pageShift);
    SplitAt(k, s);
    AddAligned(iova, k, s);
    FramePlus(paddr, i, count, s);
    FrameAndOffset(Shr(paddr, s) + i, s, Low(k, s), flags);
  }

  lemma MapRunAt(g: Geometry, pages: map<nat, Pte>, first: nat, paddr: nat, count: nat, flags: Pte, v: nat)
    requires flags.frame == 0 && first <= v < first + count
    ensures v in MapRun(g, pages, first, paddr, count, flags)
    ensures MapRun(g, pages, first, paddr, count, flags)[v] == LeafPte(paddr + Shl(v - first, g.pageShift), flags)
  {
    assert InRun(v, first, count);
  }

  lemma AddAligned(x: nat, y: nat, s: nat)
    requires Low(x, s) == 0
    ensures Shr(x + y, s) == Shr(x, s) + Shr(y, s) && Low(x + y, s) == Low(y, s)
  {
    SplitAt(x, s);
    SplitAt(y, s);
    ShlAdds(Shr(x, s), Shr(y, s), s);
    JoinAt(Shr(x, s) + Shr(y, s), s, Low(y, s));
  }

  lemma FramePlus(paddr: nat, i: nat, count: nat, s: nat)
    requires Low(paddr, s) == 0 && i < count
    ensures paddr + Shl(i, s) == Shl(Shr(paddr, s) + i, s) < paddr + Shl(count, s)
  {
    SplitAt(paddr, s);
    ShlAdds(Shr(paddr, s), i, s);
    ShlMono(i, count, s);
  }

  // ---- In bytes ----

  /** The least number of whole pages that hold `size` bytes. */
  lemma PagesForIsLeast(g: Geometry, size: nat, n: nat)
    ensures size <= n * PageSize(g) <==> PagesFor(g, size) <= n
  {
    var k, x := g.pageShift, size + PageSize(g) - 1;
    SplitAt(x, k);
    ShlByMul(n, k);
    ShlByMul(Shr(x, k), k);
    if PagesFor(g, size) <= n {
      ShlMono(Shr(x, k), n, k);
    } else {
      ShlMono(n + 1, Shr(x, k), k);
      ShlAdds(n, 1, k);
      ShlOne(k);
    }
  }

  /** Page `v` holds a byte of the range. */
  predicate Meets(g: Geometry, v: nat, iova: nat, size: nat) {
    v * PageSize(g) < iova + size && iova < (v + 1) * PageSize(g)
  }

  lemma OneMultiple(a: nat, p: nat, v: nat, n: nat)
    requires p * n <= a < (p + 1) * n
    ensures v == p <==> v * n <= a < (v + 1) * n
  {
    if v < p { MulMono(v + 1, p, n); }
    if p < v { MulMono(p + 1, v, n); }
  }

  /** The page of an address. */
  lemma PageHolds(g: Geometry, a: nat, v: nat)
    ensures v == PageOf(g, a) <==> v * PageSize(g) <= a < (v + 1) * PageSize(g)
  {
    var p := PageOf(g, a);
    SplitAt(a, g.pageShift);
    ShlByMul(p, g.pageShift);
    assert (p + 1) * PageSize(g) == p * PageSize(g) + PageSize(g);
    OneMultiple(a, p, v, PageSize(g));
  }

  /** Only pages that hold a byte of the range are in its run. */
  lemma RunMeets(g: Geometry, iova: nat, size: nat, v: nat)
    requires InRun(v, PageOf(g, iova), PagesFor(g, size))
    ensures Meets(g, v, iova, size)
  {
    var n, p := PageSize(g), PageOf(g, iova);
    PageHolds(g, iova, p);
    PagesForIsLeast(g, size, v - p);
    assert v * n == p * n + (v - p) * n;
    MulMono(p + 1, v + 1, n);
  }

  ghost predicate SameAt(was: map<nat, Pte>, now: map<nat, Pte>, v: nat) {
    (v in now <==> v in was) && (v in was ==> now[v] == was[v])
  }

  /** Every page that holds no byte of the range is as it was. */
  ghost predicate KeepsOthers(g: Geometry, was: map<nat, Pte>, now: map<nat, Pte>, iova: nat, size: nat) {
    forall v: nat :: !Meets(g, v, iova, size) ==> SameAt(was, now, v)
  }

  /** Every byte of the range translates to its counterpart. */
  ghost predicate Translates(g: Geometry, now: map<nat, Pte>, iova: nat, paddr: nat, size: nat) {
    forall a: nat :: iova <= a < iova + size ==> Lookup(g, now, a) == Some(paddr + (a - iova))
  }

  /** No byte of the range translates. */
  ghost predicate Absent(g: Geometry, now: map<nat, Pte>, iova: nat, size: nat) {
    forall a: nat :: iova <= a < iova + size ==> Lookup(g, now, a) == None
  }

  predicate PageAligned(g: Geometry, a: nat) {
    Low(a, g.pageShift) == 0
  }

  /** Whole pages that the address field can hold. */
  predicate Mappable(g: Geometry, iova: nat, paddr: nat, size: nat) {
    12 <= g.pageShift <= 36 && PageAligned(g, iova) && PageAligned(g, paddr) && paddr + size <= PADDR_LIMIT
  }

  lemma MapKeepsOthers(g: Geometry, was: map<nat, Pte>, iova: nat, paddr: nat, size: nat, done: nat, flags: Pte)
    requires flags.frame == 0 && done <= PagesFor(g, size)
    ensures KeepsOthers(g, was, MapRun(g, was, PageOf(g, iova), paddr, done, flags), iova, size)
  {
    hide PageOf, PagesFor, Meets;
    forall v: nat | !Meets(g, v, iova, size)
      ensures SameAt(was, MapRun(g, was, PageOf(g, iova), paddr, done, flags), v) {
      if InRun(v, PageOf(g, iova), done) { RunMeets(g, iova, size, v); }
    }
  }

  lemma UnmapKeepsOthers(g: Geometry, was: map<nat, Pte>, iova: nat, size: nat)
    ensures KeepsOthers(g, was, UnmapRun(was, PageOf(g, iova), PagesFor(g, size)), iova, size)
  {
    hide PageOf, PagesFor, Meets;
    forall v: nat | !Meets(g, v, iova, size)
      ensures SameAt(was, UnmapRun(was, PageOf(g, iova), PagesFor(g, size)), v) {
      if InRun(v, PageOf(g, iova), PagesFor(g, size)) { RunMeets(g, iova, size, v); }
    }
  }

  lemma SizeFits(g: Geometry, size: nat)
    ensures size <= Shl(PagesFor(g, size), g.pageShift) < size + PageSize(g)
  {
    var n := PagesFor(g, size);
    ShlByMul(n, g.pageShift);
    PagesForIsLeast(g, size, n);
    if n > 0 {
      PagesForIsLeast(g, size, n - 1);
      assert n * PageSize(g) == (n - 1) * PageSize(g) + PageSize(g);
    }
  }

  lemma LimitIsWhole(k: nat) returns (n: nat)
    requires k <= 36
    ensures PADDR_LIMIT == Shl(n, k)
  {
    n := Pow2(36 - k);
    ShlShl(1, 36 - k, k);
    ShlOne(36 - k);
    ShlOne(36);
    LimitIsPower();
  }

  lemma LimitIsPower()
    ensures Pow2(36) == PADDR_LIMIT
  {
    assert Pow2(8) == 0x100;
    assert Pow2(16) == 0x1_0000;
    assert Pow2(24) == 0x100_0000;
    assert Pow2(32) == 0x1_0000_0000;
  }

  /** What fits the address field still fits when it is rounded up to whole pages. */
  lemma RoundedFits(g: Geometry, paddr: nat, size: nat)
    requires g.pageShift <= 36 && PageAligned(g, paddr) && paddr + size <= PADDR_LIMIT
    ensures paddr + Shl(PagesFor(g, size), g.pageShift) <= PADDR_LIMIT
  {
    hide PagesFor;
    var k := g.pageShift;
    var n := LimitIsWhole(k);
    var p := Shr(paddr, k);
    SplitAt(paddr, k);
    if p > n { ShlMono(n, p, k); }
    ShlAdds(p, n - p, k);
    ShlByMul(n - p, k);
    PagesForIsLeast(g, size, n - p);
    ShlMono(PagesFor(g, size), n - p, k);
  }

  lemma UnmapAbsent(g: Geometry, was: map<nat, Pte>, iova: nat, size: nat)
    requires PageAligned(g, iova)
    ensures Absent(g, UnmapRun(was, PageOf(g, iova), PagesFor(g, size)), iova, size)
  {
    hide PagesFor;
    SizeFits(g, size);
    forall a: nat | iova <= a < iova + size
      ensures Lookup(g, UnmapRun(was, PageOf(g, iova), PagesFor(g, size)), a) == None {
      AddAligned(iova, a - iova, g.pageShift);
      QuotientBelow(a - iova, PagesFor(g, size), g.pageShift);
    }
  }

  lemma MapTranslates(g: Geometry, was: map<nat, Pte>, iova: nat, paddr: nat, size: nat, flags: Pte)
    requires flags.frame == 0 && Mappable(g, iova, paddr, size)
    ensures Translates(g, MapRun(g, was, PageOf(g, iova), paddr, PagesFor(g, size), flags), iova, paddr, size)
  {
    hide Lookup, MapRun, PageOf, PagesFor;
    SizeFits(g, size);
    RoundedFits(g, paddr, size);
    var now := MapRun(g, was, PageOf(g, iova), paddr, PagesFor(g, size), flags);
    forall a: nat | iova <= a < iova + size ensures Lookup(g, now, a) == Some(paddr + (a - iova)) {
      ContiguousTranslates(g, was, iova, paddr, PagesFor(g, size), flags, a - iova);
    }
  }
}
