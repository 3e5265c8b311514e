/** How a DART page size determines its tables, and how an address is cut into indices. */
module DartGeometry {
  import opened Arithmetic
  import opened Bits
  import opened Wrappers
  import opened DartWalk

  const IAS_BITS := 32
  const PTE_SIZE_SHIFT := 3
  const CPU_PAGE_SHIFT := 12   // of the kernel's PAGE_SIZE

  datatype Geometry = Geometry(pageShift: nat, bits: nat, levels: nat)

  function DivCeil(a: nat, b: nat): nat
    requires b > 0
  {
    (a + b - 1) / b
  }

  function Max(a: nat, b: nat): nat {
    if a < b then b else a
  }

  function NewGeometry(pageShift: nat): Option<Geometry> {
    if pageShift < PTE_SIZE_SHIFT || pageShift < CPU_PAGE_SHIFT then None
    else
      var bits := pageShift - PTE_SIZE_SHIFT;
      if bits == 0 || IAS_BITS <= pageShift then None
      else Some(Geometry(pageShift, bits, Max(2, DivCeil(IAS_BITS - pageShift, bits))))
  }

  ghost predicate GeometryOk(g: Geometry) {
    NewGeometry(g.pageShift) == Some(g)
  }

  function PageSize(g: Geometry): (n: nat)
    ensures n > 0
  {
    Pow2(g.pageShift)
  }

  /** Pages the levels can tell apart. */
  function PageCount(g: Geometry): (n: nat)
    ensures n > 0
  {
    Pow2(LevelBits(g.bits, g.levels))
  }

  function PageOf(g: Geometry, iova: nat): nat {
    Shr(iova, g.pageShift)
  }

  /** Where the index into a table of the given level starts. */
  function LevelShift(g: Geometry, level: nat): nat {
    g.pageShift + LevelBits(g.bits, level)
  }

  /** `(iova >> (page_shift + level * bits_per_level)) & (pte_count - 1)`. */
  function TableIndex(g: Geometry, iova: nat, level: nat): (i: nat)
    ensures i < Pow2(g.bits)
  {
    Low(Shr(iova, LevelShift(g, level)), g.bits)
  }

  lemma IndexIsDigit(g: Geometry, iova: nat, level: nat)
    ensures TableIndex(g, iova, level) == Digit(PageOf(g, iova), g.bits, level)
  {
    ShrShr(iova, g.pageShift, LevelBits(g.bits, level));
    PrefixIsShift(PageOf(g, iova), g.bits, level);
  }

  lemma InRange(g: Geometry, v: nat)
    ensures v < PageCount(g) <==> Prefix(v, g.bits, g.levels) == 0
  {
    PrefixIsShift(v, g.bits, g.levels);
    ShrZero(v, LevelBits(g.bits, g.levels));
  }

  lemma LevelsSuffice(span: nat, bits: nat)
    requires bits > 0
    ensures DivCeil(span, bits) * bits >= span
    ensures span > 0 ==> DivCeil(span, bits) > 0 && (DivCeil(span, bits) - 1) * bits < span
  {
    var q, x := DivCeil(span, bits), span + bits - 1;
    assert x == q * bits + x % bits;
    assert (q - 1) * bits == q * bits - bits;
  }

  /** A table of 8-byte entries fills one page. */
  lemma TableFillsPage(g: Geometry)
    requires GeometryOk(g)
    ensures 8 * Pow2(g.bits) == PageSize(g)
  {
    assert g.pageShift == g.bits + 3;
    assert Pow2(g.bits + 1) == 2 * Pow2(g.bits) && Pow2(g.bits + 2) == 4 * Pow2(g.bits);
  }

  lemma GeometryAccepts(pageShift: nat)
    ensures NewGeometry(pageShift).Some? <==> 12 <= pageShift < 32
    ensures NewGeometry(pageShift).Some? ==> NewGeometry(pageShift).value.pageShift == pageShift
  {
  }

  /** Every accepted geometry reaches the whole 32-bit space, with two or three levels, and no level beyond the
      second is to spare. */
  lemma GeometryCovers(g: Geometry)
    requires GeometryOk(g)
    ensures 2 <= g.levels <= 3
    ensures g.pageShift + g.levels * g.bits >= IAS_BITS
    ensures g.levels > 2 ==> g.pageShift + (g.levels - 1) * g.bits < IAS_BITS
    ensures forall iova: nat :: iova < Pow2(IAS_BITS) ==> PageOf(g, iova) < PageCount(g)
  {
    var q := DivCeil(IAS_BITS - g.pageShift, g.bits);
    LevelsSuffice(IAS_BITS - g.pageShift, g.bits);
    if q >= 4 { MulMono(3, q - 1, g.bits); }
    MulMono(q, g.levels, g.bits);
    LevelBitsIsProduct(g.bits, g.levels);
    forall iova: nat | iova < Pow2(IAS_BITS) ensures PageOf(g, iova) < PageCount(g) {
      Pow2Mono(IAS_BITS, LevelShift(g, g.levels));
      ShrZero(iova, LevelShift(g, g.levels));
      ShrShr(iova, g.pageShift, LevelBits(g.bits, g.levels));
      ShrZero(PageOf(g, iova), LevelBits(g.bits, g.levels));
    }
  }

  /** What the hardware finds for page `v` from `root`. */
  function Found(mem: Tables, g: Geometry, root: nat, v: nat): Option<Pte> {
    if g.levels == 0 then None else Walk(mem, g.bits, root, g.levels - 1, v)
  }

  ghost function PagesIn(mem: Tables, g: Geometry, root: nat): map<nat, Pte> {
    map v: nat | v < PageCount(g) && Found(mem, g, root, v).Some? :: Found(mem, g, root, v).value
  }

  /** What a translation over a plain page map gives. */
  function Lookup(g: Geometry, pages: map<nat, Pte>, iova: nat): Option<nat> {
    if PageOf(g, iova) in pages then Some(Or(Addr(pages[PageOf(g, iova)]), Low(iova, g.pageShift))) else None
  }
}
