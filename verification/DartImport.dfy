/** What importing a foreign table hierarchy must add to a page map. */
module DartImport {
  import opened Bits
  import opened Wrappers
  import opened DartWalk
  import opened DartGeometry

  const FRAMES: nat := 0x100_0000   // frame numbers of 24 bits

  /** `s` holds every table with each level a walk can read it at; the entries are 64-bit ones. */
  ghost predicate Readable(mem: Tables, bits: nat, s: set<(nat, nat)>) {
    && (forall t, l :: (t, l) in s ==> t in mem && |mem[t]| == Pow2(bits))
    && (forall t: nat, l: nat, i: nat, c: nat :: (t, l) in s && Points(mem, t, i, c) ==>
                               mem[t][i].frame < FRAMES && (l > 0 ==> (c, l - 1) in s))
  }

  /** An imported leaf keeps everything but its subpage end. */
  function Imported(e: Pte): Pte {
    e.(end := SUBPAGE_ALL)
  }

  /** Frame and flags are the source's; the whole page is open. */
  predicate SameButEnd(e: Pte, source: Pte) {
    e.low == source.low && e.frame == source.frame && e.mid == source.mid && e.high == source.high && e.end == 0xfff
  }

  /** `pte & !DART_PADDR_MASK`. */
  function LeafFlags(e: Pte): Pte {
    e.(frame := 0)
  }

  lemma ImportedIsLeaf(e: Pte)
    requires e.frame < FRAMES
    ensures LeafPte(Addr(e), LeafFlags(e)) == Imported(e)
  {
  }

  /** Page `v` lies under node `p` of level `l`, in one of its first `upTo` entries. */
  predicate Under(v: nat, bits: nat, l: nat, p: nat, upTo: nat) {
    Prefix(v, bits, l + 1) == p && Digit(v, bits, l) < upTo
  }

  /** The pages the first `upTo` entries of table `t`, standing for node `p` of level `l`, give. */
  ghost function Imports(src: Tables, g: Geometry, t: nat, l: nat, p: nat, upTo: nat): map<nat, Pte> {
    map v: nat | v < PageCount(g) && Under(v, g.bits, l, p, upTo) && Walk(src, g.bits, t, l, v).Some?
      :: Imported(Walk(src, g.bits, t, l, v).value)
  }

  ghost function Merged(a: map<nat, Pte>, b: map<nat, Pte>): map<nat, Pte> {
    a + b
  }

  ghost function Size(pages: map<nat, Pte>): nat {
    |pages|
  }

  /** The first page under node `p` of level `l`, entry `i`. */
  function Child(p: nat, bits: nat, i: nat): nat {
    Shl(p, bits) + i
  }

  lemma UnderChild(v: nat, bits: nat, l: nat, p: nat, i: nat)
    requires i < Pow2(bits)
    ensures Under(v, bits, l, p, i + 1) <==> Under(v, bits, l, p, i) || Prefix(v, bits, l) == Child(p, bits, i)
    ensures Under(v, bits, l, p, i) ==> Prefix(v, bits, l) != Child(p, bits, i)
  {
    PrefixSplits(v, bits, l);
    JoinAt(p, bits, i);
  }

  lemma ImportsNone(src: Tables, g: Geometry, t: nat, l: nat, p: nat, was: map<nat, Pte>)
    ensures Merged(was, Imports(src, g, t, l, p, 0)) == was && Size(Imports(src, g, t, l, p, 0)) == 0
  {
  }

  lemma ImportsSkip(src: Tables, g: Geometry, t: nat, l: nat, p: nat, i: nat)
    requires t in src && |src[t]| == Pow2(g.bits) && i < Pow2(g.bits) && !IsValid(src[t][i])
    ensures Imports(src, g, t, l, p, i + 1) == Imports(src, g, t, l, p, i)
  {
    assert forall v :: Under(v, g.bits, l, p, i + 1) <==>
                         Under(v, g.bits, l, p, i) || (Under(v, g.bits, l, p, i + 1) && Digit(v, g.bits, l) == i);
  }

  lemma ImportsLeaf(src: Tables, g: Geometry, t: nat, p: nat, i: nat)
    requires t in src && |src[t]| == Pow2(g.bits) && i < Pow2(g.bits) && IsValid(src[t][i])
    requires Child(p, g.bits, i) < PageCount(g)
    ensures Imports(src, g, t, 0, p, i + 1) == Imports(src, g, t, 0, p, i)[Child(p, g.bits, i) := Imported(src[t][i])]
    ensures Child(p, g.bits, i) !in Imports(src, g, t, 0, p, i)
  {
    var w := Child(p, g.bits, i);
    JoinAt(p, g.bits, i);
    forall v: nat ensures Under(v, g.bits, 0, p, i + 1) <==> Under(v, g.bits, 0, p, i) || v == w {
      UnderChild(v, g.bits, 0, p, i);
    }
    UnderChild(w, g.bits, 0, p, i);
  }

  lemma ImportsChild(src: Tables, g: Geometry, t: nat, l: nat, p: nat, i: nat)
    requires t in src && |src[t]| == Pow2(g.bits) && i < Pow2(g.bits) && IsValid(src[t][i]) && l > 0
    ensures var below := Imports(src, g, Addr(src[t][i]), l - 1, Child(p, g.bits, i), Pow2(g.bits));
            && Imports(src, g, t, l, p, i + 1) == Imports(src, g, t, l, p, i) + below
            && Imports(src, g, t, l, p, i).Keys !! below.Keys
  {
    var c, w := Addr(src[t][i]), Child(p, g.bits, i);
    forall v: nat
      ensures Under(v, g.bits, l, p, i + 1) <==> Under(v, g.bits, l, p, i) || Under(v, g.bits, l - 1, w, Pow2(g.bits))
      ensures !(Under(v, g.bits, l, p, i) && Under(v, g.bits, l - 1, w, Pow2(g.bits)))
      ensures Under(v, g.bits, l - 1, w, Pow2(g.bits)) ==> Walk(src, g.bits, t, l, v) == Walk(src, g.bits, c, l - 1, v) {
      UnderChild(v, g.bits, l, p, i);
      PrefixSplits(v, g.bits, l);
      JoinAt(p, g.bits, i);
    }
  }

  /** The pages one valid entry of level `l` gives, for the node `w` below it. */
  ghost function Below(src: Tables, g: Geometry, e: Pte, l: nat, w: nat): map<nat, Pte> {
    if l == 0 then map[w := Imported(e)] else Imports(src, g, Addr(e), l - 1, w, Pow2(g.bits))
  }

  lemma MapsJoin(was: map<nat, Pte>, a: map<nat, Pte>, b: map<nat, Pte>, both: map<nat, Pte>)
    requires both == a + b && a.Keys !! b.Keys
    ensures Merged(Merged(was, a), b) == Merged(was, both)
    ensures Size(both) == Size(a) + Size(b)
  {
    MapsAssociate(was, a, b, both);
    MapSizes(a, b, both);
  }

  lemma MapsAssociate(was: map<nat, Pte>, a: map<nat, Pte>, b: map<nat, Pte>, both: map<nat, Pte>)
    requires both == a + b
    ensures (was + a) + b == was + both
  {
    var left, right := (was + a) + b, was + both;
    assert left.Keys == right.Keys;
    forall k | k in left ensures left[k] == right[k] {
      assert left[k] == if k in b then b[k] else if k in a then a[k] else was[k];
    }
  }

  lemma MapSizes(a: map<nat, Pte>, b: map<nat, Pte>, both: map<nat, Pte>)
    requires both == a + b && a.Keys !! b.Keys
    ensures |both| == |a| + |b|
  {
    assert both.Keys == a.Keys + b.Keys;
    KeysJoin(both.Keys, a.Keys, b.Keys);
    assert |a| == |a.Keys| && |b| == |b.Keys| && |both| == |both.Keys|;
  }

  lemma KeysJoin(s: set<nat>, a: set<nat>, b: set<nat>)
    requires s == a + b && a !! b
    ensures |s| == |a| + |b|
  {
  }

  /** One more valid entry adds its pages, and none it adds was there. */
  lemma ImportsEntry(src: Tables, g: Geometry, t: nat, l: nat, p: nat, i: nat)
    requires t in src && |src[t]| == Pow2(g.bits) && i < Pow2(g.bits) && IsValid(src[t][i])
    requires l == 0 ==> Child(p, g.bits, i) < PageCount(g)
    ensures Imports(src, g, t, l, p, i + 1)
         == Imports(src, g, t, l, p, i) + Below(src, g, src[t][i], l, Child(p, g.bits, i))
    ensures Imports(src, g, t, l, p, i).Keys !! Below(src, g, src[t][i], l, Child(p, g.bits, i)).Keys
  {
    if l == 0 {
      ImportsLeaf(src, g, t, p, i);
    } else {
      ImportsChild(src, g, t, l, p, i);
    }
  }

  /** Node `p` of height `h` lies in the space of `levels` levels. */
  lemma {:induction false} PrefixOfChild(p: nat, bits: nat, i: nat, h: nat)
    requires i < Pow2(bits)
    ensures Prefix(Child(p, bits, i), bits, h + 1) == Prefix(p, bits, h)
    decreases h
  {
    if h == 0 {
      JoinAt(p, bits, i);
    } else {
      PrefixOfChild(p, bits, i, h - 1);
    }
  }

  /** `iova_base | (index << shift)` is where the child's pages begin. */
  lemma ChildBase(p: nat, g: Geometry, l: nat, i: nat)
    requires i < Pow2(g.bits)
    ensures Or(Shl(p, LevelShift(g, l + 1)), Shl(i, LevelShift(g, l))) == Shl(Child(p, g.bits, i), LevelShift(g, l))
  {
    var bits, low := g.bits, LevelShift(g, l);
    assert LevelShift(g, l + 1) == bits + low;
    ShlShl(p, bits, low);
    ShlMono(i, Pow2(bits), low);
    ShlOne(bits);
    ShlShl(1, bits, low);
    ShlOne(bits + low);
    OrAdds(p, bits + low, Shl(i, low));
    ShlAdds(Shl(p, bits), i, low);
  }

  /** Node `p` of level `l` has its pages inside the space. */
  predicate NodeInSpace(g: Geometry, l: nat, p: nat) {
    l < g.levels && Prefix(p, g.bits, g.levels - (l + 1)) == 0
  }

  /** So has what an entry of level `l` leads to: a page, or a node one level down. */
  predicate EntryInSpace(g: Geometry, l: nat, w: nat) {
    if l == 0 then w < PageCount(g) else NodeInSpace(g, l - 1, w)
  }

  lemma EntryOfNode(g: Geometry, l: nat, p: nat, i: nat)
    requires NodeInSpace(g, l, p) && i < Pow2(g.bits)
    ensures EntryInSpace(g, l, Child(p, g.bits, i))
  {
    PrefixOfChild(p, g.bits, i, g.levels - (l + 1));
    InRange(g, Child(p, g.bits, i));
  }

  /** One turn of the import loop at a valid entry. */
  lemma ImportTurn(src: Tables, g: Geometry, t: nat, l: nat, p: nat, i: nat, was: map<nat, Pte>)
    requires t in src && |src[t]| == Pow2(g.bits) && i < Pow2(g.bits) && IsValid(src[t][i]) && NodeInSpace(g, l, p)
    ensures Or(Shl(p, LevelShift(g, l + 1)), Shl(i, LevelShift(g, l))) == Shl(Child(p, g.bits, i), LevelShift(g, l))
    ensures EntryInSpace(g, l, Child(p, g.bits, i))
    ensures Merged(was, Imports(src, g, t, l, p, i + 1))
         == Merged(Merged(was, Imports(src, g, t, l, p, i)), Below(src, g, src[t][i], l, Child(p, g.bits, i)))
    ensures Size(Imports(src, g, t, l, p, i + 1))
         == Size(Imports(src, g, t, l, p, i)) + Size(Below(src, g, src[t][i], l, Child(p, g.bits, i)))
  {
    ChildBase(p, g, l, i);
    EntryOfNode(g, l, p, i);
    ImportsEntry(src, g, t, l, p, i);
    MapsJoin(was, Imports(src, g, t, l, p, i), Below(src, g, src[t][i], l, Child(p, g.bits, i)),
             Imports(src, g, t, l, p, i + 1));
  }

  // ---- What an import that fails has done ----

  /** `part` is the pages of `all` up to some page. */
  ghost predicate Initial(part: map<nat, Pte>, all: map<nat, Pte>) {
    && (forall v :: v in part ==> v in all && all[v] == part[v])
    && (forall v, w :: v in part && w in all && w !in part ==> v < w)
  }

  /** `now` is `was` with the pages of `all` up to some page added. */
  ghost predicate Begun(was: map<nat, Pte>, now: map<nat, Pte>, all: map<nat, Pte>) {
    exists part :: Initial(part, all) && now == Merged(was, part)
  }

  lemma BegunNothing(was: map<nat, Pte>, all: map<nat, Pte>)
    ensures Begun(was, was, all)
  {
    var none: map<nat, Pte> := map[];
    assert Initial(none, all) && was == Merged(was, none);
  }

  lemma InitialOfInitial(a: map<nat, Pte>, b: map<nat, Pte>, c: map<nat, Pte>)
    requires Initial(a, b) && Initial(b, c)
    ensures Initial(a, c)
  {
  }

  lemma BegunInPart(was: map<nat, Pte>, now: map<nat, Pte>, part: map<nat, Pte>, all: map<nat, Pte>)
    requires Begun(was, now, part) && Initial(part, all)
    ensures Begun(was, now, all)
  {
    var a :| Initial(a, part) && now == Merged(was, a);
    InitialOfInitial(a, part, all);
  }

  ghost predicate AllBefore(a: map<nat, Pte>, b: map<nat, Pte>) {
    forall v, w :: v in a && w in b ==> v < w
  }

  /** With `a` done, and what follows it begun, the whole is begun. */
  lemma BegunAfter(was: map<nat, Pte>, now: map<nat, Pte>, a: map<nat, Pte>, b: map<nat, Pte>, both: map<nat, Pte>)
    requires both == a + b && AllBefore(a, b) && Begun(Merged(was, a), now, b)
    ensures Begun(was, now, both)
  {
    var part :| Initial(part, b) && now == Merged(Merged(was, a), part);
    MapsAssociate(was, a, part, a + part);
    assert Initial(a + part, both);
    assert now == Merged(was, a + part);
  }

  lemma {:induction false} LowerPrefix(v: nat, w: nat, bits: nat, h: nat)
    requires Prefix(v, bits, h) < Prefix(w, bits, h)
    ensures v < w
    decreases h
  {
    if h > 0 {
      if Prefix(w, bits, h - 1) <= Prefix(v, bits, h - 1) {
        ShrMono(Prefix(w, bits, h - 1), Prefix(v, bits, h - 1), bits);
      }
      LowerPrefix(v, w, bits, h - 1);
    }
  }

  /** The pages of earlier entries come before those of a later one. */
  lemma EarlierEntries(src: Tables, g: Geometry, t: nat, l: nat, p: nat, i: nat)
    requires t in src && |src[t]| == Pow2(g.bits) && i < Pow2(g.bits)
    ensures AllBefore(Imports(src, g, t, l, p, i), Below(src, g, src[t][i], l, Child(p, g.bits, i)))
  {
    var a, b := Imports(src, g, t, l, p, i), Below(src, g, src[t][i], l, Child(p, g.bits, i));
    forall v, w | v in a && w in b ensures v < w {
      PrefixSplits(v, g.bits, l);
      assert Prefix(w, g.bits, l) == Child(p, g.bits, i);
      LowerPrefix(v, w, g.bits, l);
    }
  }

  /** The entries up to one are an initial part of them all. */
  lemma FirstEntries(src: Tables, g: Geometry, t: nat, l: nat, p: nat, i: nat, n: nat)
    requires i <= n
    ensures Initial(Imports(src, g, t, l, p, i), Imports(src, g, t, l, p, n))
  {
    var a, b := Imports(src, g, t, l, p, i), Imports(src, g, t, l, p, n);
    forall v, w | v in a && w in b && w !in a ensures v < w {
      PrefixSplits(v, g.bits, l);
      PrefixSplits(w, g.bits, l);
      LowerPrefix(v, w, g.bits, l);
    }
  }

  /** An entry begun, after the entries before it, is the table begun. */
  lemma EntryBegun(src: Tables, g: Geometry, t: nat, l: nat, p: nat, i: nat, was: map<nat, Pte>, now: map<nat, Pte>)
    requires t in src && |src[t]| == Pow2(g.bits) && i < Pow2(g.bits) && IsValid(src[t][i]) && NodeInSpace(g, l, p)
    requires Begun(Merged(was, Imports(src, g, t, l, p, i)), now, Below(src, g, src[t][i], l, Child(p, g.bits, i)))
    ensures Begun(was, now, Imports(src, g, t, l, p, Pow2(g.bits)))
  {
    hide Begun, Imports, Below, Initial, AllBefore;
    EntryOfNode(g, l, p, i);
    ImportsEntry(src, g, t, l, p, i);
    EarlierEntries(src, g, t, l, p, i);
    BegunAfter(was, now, Imports(src, g, t, l, p, i), Below(src, g, src[t][i], l, Child(p, g.bits, i)),
               Imports(src, g, t, l, p, i + 1));
    FirstEntries(src, g, t, l, p, i + 1, Pow2(g.bits));
    BegunInPart(was, now, Imports(src, g, t, l, p, i + 1), Imports(src, g, t, l, p, Pow2(g.bits)));
  }

  /** Imported into an empty table, a foreign hierarchy translates every address as it did at its source, and the
      count is the number of its valid leaves. */
  lemma ImportTranslates(src: Tables, g: Geometry, root: nat, iova: nat)
    requires g.levels > 0 && PageOf(g, iova) < PageCount(g)
    ensures var all := Imports(src, g, root, g.levels - 1, 0, Pow2(g.bits));
            && Lookup(g, all, iova) == Lookup(g, PagesIn(src, g, root), iova)
            && |all| == |set v: nat | v < PageCount(g) && Found(src, g, root, v).Some?|
            && forall v :: v in all ==> Found(src, g, root, v).Some? && SameButEnd(all[v], Found(src, g, root, v).value)
  {
    var top := g.levels - 1;
    var all := Imports(src, g, root, top, 0, Pow2(g.bits));
    forall v: nat | v < PageCount(g) ensures Under(v, g.bits, top, 0, Pow2(g.bits)) {
      InRange(g, v);
    }
    assert all.Keys == set v: nat | v < PageCount(g) && Found(src, g, root, v).Some?;
    assert |all| == |all.Keys|;
  }
}
