/** DART page tables as plain values: entries, the hardware walk, and what one write does to it. */
module DartWalk {
  import opened Bits
  import opened Wrappers

  const FRAME: nat := 0x1000             // 1 << DART_PADDR_FIELD_SHIFT
  const PADDR_LIMIT: nat := 0x10_0000_0000   // 1 << DART_PADDR_BITS
  const SUBPAGE_ALL := 0xfff

  /** The bit fields of one 64-bit entry: bits 0..11, the physical frame in bits 12..35, bits 36..39, the subpage
      end in bits 40..51, and bits 52..63. */
  datatype Pte = Pte(low: nat, frame: nat, mid: nat, end: nat, high: nat)

  const ZERO := Pte(0, 0, 0, 0, 0)

  predicate IsValid(e: Pte) {
    e.low % 2 == 1
  }

  /** `pte_to_paddr`. */
  function Addr(e: Pte): nat {
    e.frame * FRAME
  }

  /** `paddr_to_pte`: the address field keeps bits 12..35 only. */
  function FrameOf(paddr: nat): nat {
    paddr % PADDR_LIMIT / FRAME
  }

  function TablePte(paddr: nat): Pte {
    Pte(1, FrameOf(paddr), 0, 0, 0)
  }

  /** `paddr_to_pte(paddr) | SUBPAGE_ALLOW_ALL | flags`, for flags that leave the address field alone. */
  function LeafPte(paddr: nat, flags: Pte): Pte
    requires flags.frame == 0
  {
    Pte(flags.low, FrameOf(paddr), flags.mid, SUBPAGE_ALL, flags.high)
  }

  /** A leaf entry keeps the flags it is made with, opens the whole page, and holds every address the field can. */
  lemma LeafHolds(paddr: nat, flags: Pte)
    requires flags.frame == 0
    ensures var e := LeafPte(paddr, flags);
            && e.low == flags.low && e.mid == flags.mid && e.high == flags.high && e.end == 0xfff
            && (paddr % 0x1000 == 0 && paddr < 0x10_0000_0000 ==> Addr(e) == paddr)
  {
  }

  predicate FitsPte(paddr: nat) {
    paddr == FrameOf(paddr) * FRAME
  }

  type Tables = map<nat, seq<Pte>>

  // ---- Indices ----

  /** The page number without its `h` lowest table indices of `bits` bits each. */
  function Prefix(v: nat, bits: nat, h: nat): nat {
    if h == 0 then v else Shr(Prefix(v, bits, h - 1), bits)
  }

  function Digit(v: nat, bits: nat, l: nat): (d: nat)
    ensures d < Pow2(bits)
  {
    Low(Prefix(v, bits, l), bits)
  }

  lemma PrefixSplits(v: nat, bits: nat, l: nat)
    ensures Prefix(v, bits, l) == Shl(Prefix(v, bits, l + 1), bits) + Digit(v, bits, l)
  {
    SplitAt(Prefix(v, bits, l), bits);
  }

  /** `level * bits`, the bits that `level` indices take. */
  function LevelBits(bits: nat, level: nat): nat {
    if level == 0 then 0 else LevelBits(bits, level - 1) + bits
  }

  lemma {:induction false} LevelBitsIsProduct(bits: nat, level: nat)
    ensures LevelBits(bits, level) == level * bits
    decreases level
  {
    if level > 0 {
      LevelBitsIsProduct(bits, level - 1);
      assert level * bits == (level - 1) * bits + bits;
    }
  }

  lemma {:induction false} PrefixIsShift(v: nat, bits: nat, h: nat)
    ensures Prefix(v, bits, h) == Shr(v, LevelBits(bits, h))
    decreases h
  {
    if h > 0 {
      PrefixIsShift(v, bits, h - 1);
      ShrShr(v, LevelBits(bits, h - 1), bits);
    }
  }

  // ---- The walk ----

  ghost predicate Sized(mem: Tables, bits: nat) {
    forall t :: t in mem ==> |mem[t]| == Pow2(bits)
  }

  /** What the hardware finds for page `v` from table `t` at level `l`: the valid leaf entry, if there is one. */
  function Walk(mem: Tables, bits: nat, t: nat, l: nat, v: nat): Option<Pte>
    decreases l
  {
    if t !in mem || |mem[t]| != Pow2(bits) then None
    else
      var e := mem[t][Digit(v, bits, l)];
      if !IsValid(e) then None
      else if l == 0 then Some(e)
      else Walk(mem, bits, Addr(e), l - 1, v)
  }

  /** The table at level `l` on the way from the root to page `v`. */
  function TableAt(mem: Tables, bits: nat, root: nat, top: nat, l: nat, v: nat): Option<nat>
    decreases top - l
  {
    if l >= top then Some(root)
    else
      match TableAt(mem, bits, root, top, l + 1, v)
      case None => None
      case Some(t) =>
        if t !in mem || |mem[t]| != Pow2(bits) || !IsValid(mem[t][Digit(v, bits, l + 1)]) then None
        else Some(Addr(mem[t][Digit(v, bits, l + 1)]))
  }

  lemma {:induction false} WalkVia(mem: Tables, bits: nat, root: nat, top: nat, l: nat, v: nat)
    requires l <= top
    ensures Walk(mem, bits, root, top, v) ==
            match TableAt(mem, bits, root, top, l, v) { case Some(t) => Walk(mem, bits, t, l, v) case None => None }
    decreases top - l
  {
    if l < top {
      WalkVia(mem, bits, root, top, l + 1, v);
    }
  }

  // ---- Shape ----

  predicate Points(mem: Tables, t: nat, i: int, c: nat) {
    t in mem && 0 <= i < |mem[t]| && IsValid(mem[t][i]) && Addr(mem[t][i]) == c
  }

  /** `level` gives every table of the hierarchy its one level, and is closed under the entries of upper levels. */
  ghost predicate Layered(mem: Tables, bits: nat, level: map<nat, nat>) {
    && (forall t :: t in level ==> t in mem && |mem[t]| == Pow2(bits))
    && (forall t, i, c :: t in level && level[t] > 0 && Points(mem, t, i, c) ==>
                            c in level && level[c] == level[t] - 1)
  }

  /** No table hangs under two entries. */
  ghost predicate Unshared(mem: Tables, level: map<nat, nat>) {
    forall t, i, u, j, c :: (t in level && u in level && level[t] > 0 && level[u] > 0
                             && Points(mem, t, i, c) && Points(mem, u, j, c)) ==> t == u && i == j
  }

  lemma {:induction false} PathLevel(mem: Tables, bits: nat, level: map<nat, nat>, root: nat, top: nat, l: nat, v: nat)
    requires l <= top && Layered(mem, bits, level) && root in level && level[root] == top
    ensures match TableAt(mem, bits, root, top, l, v) case Some(t) => t in level && level[t] == l case None => true
    decreases top - l
  {
    if l < top {
      PathLevel(mem, bits, level, root, top, l + 1, v);
      match TableAt(mem, bits, root, top, l + 1, v)
      case None =>
      case Some(t) =>
        var i := Digit(v, bits, l + 1);
        if IsValid(mem[t][i]) { assert Points(mem, t, i, Addr(mem[t][i])); }
    }
  }

  /** In an unshared hierarchy two pages that meet in a table have come the same way. */
  lemma {:induction false} PathUnique(
      mem: Tables, bits: nat, level: map<nat, nat>, root: nat, top: nat, l: nat, v: nat, w: nat)
    requires l <= top && Layered(mem, bits, level) && Unshared(mem, level)
    requires root in level && level[root] == top
    requires Prefix(v, bits, top + 1) == Prefix(w, bits, top + 1)
    requires TableAt(mem, bits, root, top, l, v).Some?
    requires TableAt(mem, bits, root, top, l, v) == TableAt(mem, bits, root, top, l, w)
    ensures Prefix(v, bits, l + 1) == Prefix(w, bits, l + 1)
    decreases top - l
  {
    if l < top {
      var t := TableAt(mem, bits, root, top, l + 1, v).value;
      var u := TableAt(mem, bits, root, top, l + 1, w).value;
      PathLevel(mem, bits, level, root, top, l + 1, v);
      PathLevel(mem, bits, level, root, top, l + 1, w);
      var c := TableAt(mem, bits, root, top, l, v).value;
      assert Points(mem, t, Digit(v, bits, l + 1), c) && Points(mem, u, Digit(w, bits, l + 1), c);
      PathUnique(mem, bits, level, root, top, l + 1, v, w);
      PrefixSplits(v, bits, l + 1);
      PrefixSplits(w, bits, l + 1);
    }
  }

  // ---- One write into a leaf table ----

  function Write(mem: Tables, t: nat, i: nat, e: Pte): Tables
    requires t in mem && i < |mem[t]|
  {
    mem[t := mem[t][i := e]]
  }

  lemma {:induction false} LeafWriteKeepsPaths(
      mem: Tables, bits: nat, level: map<nat, nat>, root: nat, top: nat, t: nat, i: nat, e: Pte, l: nat, v: nat)
    requires l <= top && Layered(mem, bits, level) && root in level && level[root] == top
    requires t in level && level[t] == 0 && i < Pow2(bits)
    ensures TableAt(Write(mem, t, i, e), bits, root, top, l, v) == TableAt(mem, bits, root, top, l, v)
    decreases top - l
  {
    if l < top {
      LeafWriteKeepsPaths(mem, bits, level, root, top, t, i, e, l + 1, v);
      PathLevel(mem, bits, level, root, top, l + 1, v);
    }
  }

  lemma LeafWriteKeepsShape(mem: Tables, bits: nat, level: map<nat, nat>, t: nat, i: nat, e: Pte)
    requires Layered(mem, bits, level) && t in level && level[t] == 0 && i < Pow2(bits)
    ensures Layered(Write(mem, t, i, e), bits, level)
    ensures Unshared(mem, level) ==> Unshared(Write(mem, t, i, e), level)
  {
    var mem' := Write(mem, t, i, e);
    assert forall u, j, c :: u in level && level[u] > 0 ==> (Points(mem', u, j, c) <==> Points(mem, u, j, c));
  }

  function Shown(e: Pte): Option<Pte> {
    if IsValid(e) then Some(e) else None
  }

  /** Writing the leaf entry of page `v` changes what the hardware finds for `v`, and for no other page. */
  lemma LeafWriteIsExact(
      mem: Tables, bits: nat, level: map<nat, nat>, root: nat, top: nat, v: nat, e: Pte, w: nat)
    requires Layered(mem, bits, level) && root in level && level[root] == top
    requires TableAt(mem, bits, root, top, 0, v).Some?
    requires TableAt(mem, bits, root, top, 0, v).value in mem
    requires |mem[TableAt(mem, bits, root, top, 0, v).value]| == Pow2(bits)
    requires Prefix(v, bits, top + 1) == 0 && Prefix(w, bits, top + 1) == 0
    requires v == w || Unshared(mem, level)
    ensures Walk(Write(mem, TableAt(mem, bits, root, top, 0, v).value, Digit(v, bits, 0), e), bits, root, top, w) ==
            if v == w then Shown(e) else Walk(mem, bits, root, top, w)
  {
    var t := TableAt(mem, bits, root, top, 0, v).value;
    var mem' := Write(mem, t, Digit(v, bits, 0), e);
    PathLevel(mem, bits, level, root, top, 0, v);
    PathLevel(mem, bits, level, root, top, 0, w);
    LeafWriteKeepsPaths(mem, bits, level, root, top, t, Digit(v, bits, 0), e, 0, w);
    WalkVia(mem, bits, root, top, 0, w);
    WalkVia(mem', bits, root, top, 0, w);
    if v != w && TableAt(mem, bits, root, top, 0, w) == Some(t) && Digit(v, bits, 0) == Digit(w, bits, 0) {
      PathUnique(mem, bits, level, root, top, 0, v, w);
      PrefixSplits(v, bits, 0);
      PrefixSplits(w, bits, 0);
      assert false;
    }
  }

  // ---- Hanging an empty table under an unused entry ----

  function Blank(bits: nat): seq<Pte> {
    seq(Pow2(bits), _ => ZERO)
  }

  function Attach(mem: Tables, bits: nat, t: nat, i: nat, blank: nat): Tables
    requires t in mem && i < |mem[t]|
  {
    Write(mem, t, i, TablePte(blank))[blank := Blank(bits)]
  }

  lemma AttachKeepsShape(mem: Tables, bits: nat, level: map<nat, nat>, t: nat, i: nat, blank: nat)
    requires Layered(mem, bits, level) && t in level && level[t] > 0 && i < Pow2(bits) && !IsValid(mem[t][i])
    requires blank !in mem && FitsPte(blank)
    ensures Layered(Attach(mem, bits, t, i, blank), bits, level[blank := level[t] - 1])
    ensures Unshared(mem, level) ==> Unshared(Attach(mem, bits, t, i, blank), level[blank := level[t] - 1])
  {
    var mem', level' := Attach(mem, bits, t, i, blank), level[blank := level[t] - 1];
    assert forall u, j, c :: u in level' && level'[u] > 0 ==>
                               (Points(mem', u, j, c) <==> Points(mem, u, j, c) || (u == t && j == i && c == blank));
  }

  /** The new table is empty, so every page is found as before. */
  lemma {:induction false} AttachShowsNothing(
      mem: Tables, bits: nat, level: map<nat, nat>, u: nat, l: nat, t: nat, i: nat, blank: nat, w: nat)
    requires Layered(mem, bits, level) && u in level && level[u] == l
    requires t in level && level[t] > 0 && i < Pow2(bits) && !IsValid(mem[t][i])
    requires blank !in mem && FitsPte(blank)
    ensures Walk(Attach(mem, bits, t, i, blank), bits, u, l, w) == Walk(mem, bits, u, l, w)
    decreases l
  {
    var mem' := Attach(mem, bits, t, i, blank);
    var d := Digit(w, bits, l);
    assert mem'[u] == if u == t then mem[t][i := TablePte(blank)] else mem[u];
    if u == t && d == i {
      assert Walk(mem', bits, blank, l - 1, w) == None;
    } else if IsValid(mem[u][d]) && l > 0 {
      assert Points(mem, u, d, Addr(mem[u][d]));
      AttachShowsNothing(mem, bits, level, Addr(mem[u][d]), l - 1, t, i, blank, w);
    }
  }

  lemma {:induction false} AttachKeepsPaths(
      mem: Tables, bits: nat, level: map<nat, nat>, root: nat, top: nat, v: nat, t: nat, i: nat, blank: nat, k: nat)
    requires Layered(mem, bits, level) && root in level && level[root] == top
    requires t in level && 0 < level[t] <= k <= top && i < Pow2(bits) && blank !in mem
    ensures TableAt(Attach(mem, bits, t, i, blank), bits, root, top, k, v) == TableAt(mem, bits, root, top, k, v)
    decreases top - k
  {
    if k < top {
      AttachKeepsPaths(mem, bits, level, root, top, v, t, i, blank, k + 1);
      PathLevel(mem, bits, level, root, top, k + 1, v);
    }
  }
}
