/** The display coprocessor's DMA mapper: a lock-free bump allocator of I/O addresses over one page table, used by any
    number of threads at once. */
module DcpMapper {
  import opened Bits
  import opened Wrappers
  import opened DartWalk
  import opened DartGeometry
  import opened DartRanges

  const DYNAMIC_BASE: nat := 0x3000_0000
  const SCANOUT_BASE: nat := 0x4000_0000
  const IOVA_BITS: nat := 30   // every I/O address below the scanout range

  datatype Status = Held(thread: nat) | Mapped | Dead

  /** One address range taken from the cursor, for a caller that asked for `size` bytes. */
  datatype Claim = Claim(iova: nat, pages: nat, paddr: nat, size: nat, status: Status)

  /** Where a thread stands in `map`. */
  datatype Pc = Idle | Trying(paddr: nat, pages: nat, size: nat, iova: nat) | Claimed(k: nat)

  datatype State = State(cursor: nat, threads: seq<Pc>, pages: map<nat, Pte>, claims: seq<Claim>)

  datatype Label =
    | LCall(i: nat, paddr: nat, size: nat)
    | LCas(i: nat, spurious: bool)
    | LMap(i: nat, done: nat, synced: bool)   // under the table lock; `done` pages are mapped before a failure
    | LUnmap(k: nat)                          // the owner of mapping k returns it
    | LElsewhere(v: nat, e: Option<Pte>)      // other users of the table, outside the dynamic range

  /** The page size divides the range's bounds. */
  predicate Suits(g: Geometry) {
    g.pageShift <= 28
  }

  function Bytes(g: Geometry, pages: nat): nat {
    Shl(pages, g.pageShift)
  }

  function End(g: Geometry, c: Claim): nat {
    c.iova + Bytes(g, c.pages)
  }

  ghost predicate Init(s: State) {
    s.cursor == DYNAMIC_BASE && s.claims == [] && forall i :: 0 <= i < |s.threads| ==> s.threads[i] == Idle
  }

  predicate Enabled(g: Geometry, s: State, l: Label) {
    match l
    case LCall(i, _, _) => i < |s.threads| && s.threads[i].Idle?
    case LCas(i, _) => i < |s.threads| && s.threads[i].Trying?
    case LMap(i, done, _) =>
      i < |s.threads| && s.threads[i].Claimed? && s.threads[i].k < |s.claims| && done <= s.claims[s.threads[i].k].pages
    case LUnmap(k) => k < |s.claims| && s.claims[k].status == Mapped
    case LElsewhere(v, _) => Shl(v, g.pageShift) < DYNAMIC_BASE || Shl(v, g.pageShift) >= SCANOUT_BASE
  }

  function Go(s: State, i: nat, pc: Pc): State
    requires i < |s.threads|
  {
    s.(threads := s.threads[i := pc])
  }

  function SetStatus(s: State, k: nat, status: Status): State
    requires k < |s.claims|
  {
    s.(claims := s.claims[k := s.claims[k].(status := status)])
  }

  /** The address test and the load of the cursor. */
  function DoCall(g: Geometry, s: State, i: nat, paddr: nat, size: nat): State
    requires i < |s.threads|
  {
    if size == 0 || Low(paddr, g.pageShift) != 0 then s
    else Go(s, i, Trying(paddr, PagesFor(g, size), size, s.cursor))
  }

  /** One round of the loop: give up at the end of the range, else compare and exchange. */
  function DoCas(g: Geometry, s: State, i: nat, spurious: bool): State
    requires i < |s.threads| && s.threads[i].Trying?
  {
    var t := s.threads[i];
    var next := t.iova + Bytes(g, t.pages);
    if next > SCANOUT_BASE then Go(s, i, Idle)
    else if s.cursor == t.iova && !spurious then
      Go(s, i, Claimed(|s.claims|)).(cursor := next, claims := s.claims + [Claim(t.iova, t.pages, t.paddr, t.size, Held(i))])
    else Go(s, i, t.(iova := s.cursor))
  }

  ghost function DoMap(g: Geometry, flags: Pte, s: State, i: nat, done: nat, synced: bool): State
    requires flags.frame == 0 && Enabled(g, s, LMap(i, done, synced))
  {
    var k := s.threads[i].k;
    var c := s.claims[k];
    SetStatus(Go(s, i, Idle), k, if done == c.pages && synced then Mapped else Dead)
    .(pages := MapRun(g, s.pages, PageOf(g, c.iova), c.paddr, done, flags))
  }

  ghost function DoUnmap(g: Geometry, s: State, k: nat): State
    requires k < |s.claims|
  {
    SetStatus(s, k, Dead).(pages := UnmapRun(s.pages, PageOf(g, s.claims[k].iova), s.claims[k].pages))
  }

  ghost function Do(g: Geometry, flags: Pte, s: State, l: Label): State
    requires flags.frame == 0 && Enabled(g, s, l)
  {
    match l
    case LCall(i, paddr, size) => DoCall(g, s, i, paddr, size)
    case LCas(i, spurious) => DoCas(g, s, i, spurious)
    case LMap(i, done, synced) => DoMap(g, flags, s, i, done, synced)
    case LUnmap(k) => DoUnmap(g, s, k)
    case LElsewhere(v, e) => s.(pages := if e.Some? then s.pages[v := e.value] else s.pages - {v})
  }

  ghost predicate Run(g: Geometry, flags: Pte, states: seq<State>, labels: seq<Label>)
    requires flags.frame == 0
  {
    && |states| == |labels| + 1
    && Init(states[0])
    && forall k :: 0 <= k < |labels| ==>
                     Enabled(g, states[k], labels[k]) && states[k + 1] == Do(g, flags, states[k], labels[k])
  }

  // ---- What every interleaving keeps ----

  predicate Aligned(g: Geometry, x: nat) {
    Low(x, g.pageShift) == 0
  }

  /** Whole pages, as many as the size asked for takes. */
  predicate Sound(g: Geometry, c: Claim) {
    c.size > 0 && c.pages > 0 && c.pages == PagesFor(g, c.size) && Aligned(g, c.iova) && Aligned(g, c.paddr)
  }

  /** The claims tile the dynamic range from its base to the cursor. */
  ghost predicate Tiled(g: Geometry, claims: seq<Claim>, cursor: nat) {
    && (forall k :: 0 <= k < |claims| ==> Sound(g, claims[k]))
    && (forall k :: 0 < k < |claims| ==> claims[k].iova == End(g, claims[k - 1]))
    && (if claims == [] then cursor == DYNAMIC_BASE
        else claims[0].iova == DYNAMIC_BASE && cursor == End(g, claims[|claims| - 1]))
    && Aligned(g, cursor) && DYNAMIC_BASE <= cursor <= SCANOUT_BASE
  }

  ghost predicate ThreadsOk(g: Geometry, s: State) {
    && (forall i :: 0 <= i < |s.threads| && s.threads[i].Trying? ==>
                      s.threads[i].size > 0 && s.threads[i].pages == PagesFor(g, s.threads[i].size)
                      && Aligned(g, s.threads[i].paddr) && s.threads[i].iova <= s.cursor)
    && (forall i :: 0 <= i < |s.threads| && s.threads[i].Claimed? ==>
                      s.threads[i].k < |s.claims| && s.claims[s.threads[i].k].status == Held(i))
  }

  predicate PageMapped(g: Geometry, flags: Pte, pages: map<nat, Pte>, c: Claim, j: nat)
    requires flags.frame == 0
  {
    && PageOf(g, c.iova) + j in pages
    && pages[PageOf(g, c.iova) + j] == LeafPte(c.paddr + Shl(j, g.pageShift), flags)
  }

  /** Every page of a mapping holds its frame. */
  ghost predicate MappedOk(g: Geometry, flags: Pte, pages: map<nat, Pte>, c: Claim)
    requires flags.frame == 0
  {
    forall j: nat :: j < c.pages ==> PageMapped(g, flags, pages, c, j)
  }

  ghost predicate Inv(g: Geometry, flags: Pte, s: State)
    requires flags.frame == 0
  {
    && Tiled(g, s.claims, s.cursor)
    && ThreadsOk(g, s)
    && forall k :: 0 <= k < |s.claims| && s.claims[k].status == Mapped ==> MappedOk(g, flags, s.pages, s.claims[k])
  }

  /** Claims follow one another, so an earlier one ends before a later one begins. */
  lemma {:induction false} ClaimsApart(g: Geometry, claims: seq<Claim>, cursor: nat, i: nat, j: nat)
    requires Tiled(g, claims, cursor) && i < j < |claims|
    ensures End(g, claims[i]) <= claims[j].iova
    decreases j
  {
    if i < j - 1 {
      ClaimsApart(g, claims, cursor, i, j - 1);
    }
  }

  lemma {:induction false} ClaimInRange(g: Geometry, claims: seq<Claim>, cursor: nat, i: nat)
    requires Tiled(g, claims, cursor) && i < |claims|
    ensures DYNAMIC_BASE <= claims[i].iova && End(g, claims[i]) <= cursor <= SCANOUT_BASE
  {
    if i > 0 { ClaimsApart(g, claims, cursor, 0, i); }
    if i < |claims| - 1 { ClaimsApart(g, claims, cursor, i, |claims| - 1); }
  }

  lemma PagesOfAligned(g: Geometry, x: nat, n: nat)
    requires Aligned(g, x)
    ensures PageOf(g, x + Bytes(g, n)) == PageOf(g, x) + n && Aligned(g, x + Bytes(g, n))
    ensures x == Bytes(g, PageOf(g, x))
  {
    SplitAt(x, g.pageShift);
    JoinAt(n, g.pageShift, 0);
    AddAligned(x, Bytes(g, n), g.pageShift);
  }

  /** Ranges that are apart in bytes are apart in pages. */
  lemma PagesApart(g: Geometry, a: Claim, b: Claim)
    requires Aligned(g, a.iova) && Aligned(g, b.iova) && End(g, a) <= b.iova
    ensures PageOf(g, a.iova) + a.pages <= PageOf(g, b.iova)
  {
    PagesOfAligned(g, a.iova, a.pages);
    PagesOfAligned(g, b.iova, 0);
    if PageOf(g, b.iova) < PageOf(g, a.iova) + a.pages {
      ShlMono(PageOf(g, b.iova), PageOf(g, a.iova) + a.pages, g.pageShift);
      PagesOfAligned(g, End(g, a), 0);
    }
  }

  lemma OtherClaimPages(g: Geometry, claims: seq<Claim>, cursor: nat, k: nat, m: nat, v: nat)
    requires Tiled(g, claims, cursor) && k < |claims| && m < |claims| && k != m
    requires PageOf(g, claims[k].iova) <= v < PageOf(g, claims[k].iova) + claims[k].pages
    ensures !InRun(v, PageOf(g, claims[m].iova), claims[m].pages)
  {
    if k < m {
      ClaimsApart(g, claims, cursor, k, m);
      PagesApart(g, claims[k], claims[m]);
    } else {
      ClaimsApart(g, claims, cursor, m, k);
      PagesApart(g, claims[m], claims[k]);
    }
  }

  lemma Pow2At28()
    ensures Pow2(28) == 0x1000_0000
  {
    assert Pow2(10) == 0x400 && Pow2(20) == 0x10_0000;
  }

  lemma BaseAligned(g: Geometry)
    requires Suits(g)
    ensures Aligned(g, DYNAMIC_BASE)
  {
    Pow2At28();
    ShlByMul(3, 28);
    ShlShl(3, 28 - g.pageShift, g.pageShift);
    JoinAt(Shl(3, 28 - g.pageShift), g.pageShift, 0);
  }

  lemma PagesForPositive(g: Geometry, size: nat)
    requires size > 0
    ensures PagesFor(g, size) > 0
  {
    ShrZero(size + PageSize(g) - 1, g.pageShift);
  }

  // ---- Each step keeps it ----

  lemma InitInv(g: Geometry, flags: Pte, s: State)
    requires flags.frame == 0 && Suits(g) && Init(s)
    ensures Inv(g, flags, s)
  {
    BaseAligned(g);
  }

  lemma CasKeeps(g: Geometry, flags: Pte, s: State, i: nat, spurious: bool)
    requires flags.frame == 0 && Inv(g, flags, s) && Enabled(g, s, LCas(i, spurious))
    ensures Inv(g, flags, DoCas(g, s, i, spurious))
  {
    hide MappedOk;
    var t := s.threads[i];
    if t.iova + Bytes(g, t.pages) <= SCANOUT_BASE && s.cursor == t.iova && !spurious {
      PagesOfAligned(g, t.iova, t.pages);
      var claim := Claim(t.iova, t.pages, t.paddr, t.size, Held(i));
      var s' := DoCas(g, s, i, spurious);
      assert s'.claims == s.claims + [claim];
      PagesForPositive(g, t.size);
      assert Tiled(g, s'.claims, s'.cursor);
    }
  }

  lemma MapKeeps(g: Geometry, flags: Pte, s: State, i: nat, done: nat, synced: bool)
    requires flags.frame == 0 && Inv(g, flags, s) && Enabled(g, s, LMap(i, done, synced))
    ensures Inv(g, flags, DoMap(g, flags, s, i, done, synced))
  {
    hide Low, Shl, Shr, FrameOf;
    var s', k := DoMap(g, flags, s, i, done, synced), s.threads[i].k;
    var first := PageOf(g, s.claims[k].iova);
    StatusKeepsTiling(g, s, s', k);
    forall m | 0 <= m < |s'.claims| && s'.claims[m].status == Mapped ensures MappedOk(g, flags, s'.pages, s'.claims[m]) {
      if m == k {
        forall j: nat | j < s.claims[k].pages ensures PageMapped(g, flags, s'.pages, s'.claims[k], j) {
          MapRunAt(g, s.pages, first, s.claims[k].paddr, done, flags, first + j);
        }
      } else {
        assert MappedOk(g, flags, s.pages, s.claims[m]);
        forall j: nat | j < s.claims[m].pages ensures PageMapped(g, flags, s'.pages, s'.claims[m], j) {
          assert PageMapped(g, flags, s.pages, s.claims[m], j);
          OtherClaimPages(g, s.claims, s.cursor, m, k, PageOf(g, s.claims[m].iova) + j);
        }
      }
    }
  }

  lemma StatusKeepsTiling(g: Geometry, s: State, s': State, k: nat)
    requires Tiled(g, s.claims, s.cursor) && k < |s.claims| && s'.cursor == s.cursor
    requires exists status :: s'.claims == s.claims[k := s.claims[k].(status := status)]
    ensures Tiled(g, s'.claims, s'.cursor)
  {
    hide Low, Shl;
    assert forall m :: 0 <= m < |s.claims| ==> End(g, s'.claims[m]) == End(g, s.claims[m]);
  }

  lemma UnmapKeeps(g: Geometry, flags: Pte, s: State, k: nat)
    requires flags.frame == 0 && Inv(g, flags, s) && Enabled(g, s, LUnmap(k))
    ensures Inv(g, flags, DoUnmap(g, s, k))
  {
    hide Low, Shl, Shr, FrameOf;
    var s' := DoUnmap(g, s, k);
    StatusKeepsTiling(g, s, s', k);
    forall m | 0 <= m < |s'.claims| && s'.claims[m].status == Mapped ensures MappedOk(g, flags, s'.pages, s'.claims[m]) {
      assert m != k && MappedOk(g, flags, s.pages, s.claims[m]);
      forall j: nat | j < s.claims[m].pages ensures PageMapped(g, flags, s'.pages, s'.claims[m], j) {
        assert PageMapped(g, flags, s.pages, s.claims[m], j);
        OtherClaimPages(g, s.claims, s.cursor, m, k, PageOf(g, s.claims[m].iova) + j);
      }
    }
  }

  lemma ElsewhereKeeps(g: Geometry, flags: Pte, s: State, v: nat, e: Option<Pte>)
    requires flags.frame == 0 && Inv(g, flags, s) && Enabled(g, s, LElsewhere(v, e))
    ensures Inv(g, flags, Do(g, flags, s, LElsewhere(v, e)))
  {
    hide Low, Shr, FrameOf;
    var s' := Do(g, flags, s, LElsewhere(v, e));
    forall m | 0 <= m < |s.claims| && s.claims[m].status == Mapped ensures MappedOk(g, flags, s'.pages, s.claims[m]) {
      assert MappedOk(g, flags, s.pages, s.claims[m]);
      var c := s.claims[m];
      ClaimInRange(g, s.claims, s.cursor, m);
      forall j: nat | j < c.pages ensures PageMapped(g, flags, s'.pages, c, j) {
        assert PageMapped(g, flags, s.pages, c, j);
        PageInsideClaim(g, c, j);
      }
    }
  }

  lemma PageInsideClaim(g: Geometry, c: Claim, j: nat)
    requires Aligned(g, c.iova) && j < c.pages
    ensures c.iova <= Shl(PageOf(g, c.iova) + j, g.pageShift) < End(g, c)
  {
    PagesOfAligned(g, c.iova, j);
    ShlAdds(PageOf(g, c.iova), j, g.pageShift);
    ShlMono(j, c.pages, g.pageShift);
  }

  lemma StepKeeps(g: Geometry, flags: Pte, s: State, l: Label)
    requires flags.frame == 0 && Inv(g, flags, s) && Enabled(g, s, l)
    ensures Inv(g, flags, Do(g, flags, s, l))
  {
    match l {
      case LCall(i, paddr, size) => if size > 0 { PagesForPositive(g, size); }
      case LCas(i, spurious) => CasKeeps(g, flags, s, i, spurious);
      case LMap(i, done, synced) => MapKeeps(g, flags, s, i, done, synced);
      case LUnmap(k) => UnmapKeeps(g, flags, s, k);
      case LElsewhere(v, e) => ElsewhereKeeps(g, flags, s, v, e);
    }
  }

  lemma {:induction false} RunInv(g: Geometry, flags: Pte, states: seq<State>, labels: seq<Label>, k: nat)
    requires flags.frame == 0 && Suits(g) && Run(g, flags, states, labels) && k < |states|
    ensures Inv(g, flags, states[k])
    decreases k
  {
    if k == 0 {
      InitInv(g, flags, states[0]);
    } else {
      RunInv(g, flags, states, labels, k - 1);
      StepKeeps(g, flags, states[k - 1], labels[k - 1]);
    }
  }

  // ---- Guarantees ----

  /** However the compare-and-exchange loops interleave, the claimed ranges are whole pages inside the dynamic range,
      and no two overlap. */
  lemma ClaimsDisjoint(g: Geometry, flags: Pte, states: seq<State>, labels: seq<Label>, k: nat, i: nat, j: nat)
    requires flags.frame == 0 && Suits(g) && Run(g, flags, states, labels) && k < |states|
    requires i < j < |states[k].claims|
    ensures var a, b := states[k].claims[i], states[k].claims[j];
            && Aligned(g, a.iova) && a.pages > 0 && Aligned(g, b.iova) && b.pages > 0
            && DYNAMIC_BASE <= a.iova < End(g, a) <= b.iova < End(g, b) <= SCANOUT_BASE
  {
    hide PagesFor;
    RunInv(g, flags, states, labels, k);
    var s := states[k];
    ClaimsApart(g, s.claims, s.cursor, i, j);
    ClaimInRange(g, s.claims, s.cursor, i);
    ClaimInRange(g, s.claims, s.cursor, j);
    ShlMono(0, s.claims[i].pages, g.pageShift);
    ShlMono(0, s.claims[j].pages, g.pageShift);
    ShiftsOfZero(g.pageShift);
  }

  /** Returning a mapping takes away the bytes asked for and no page but its own. */
  lemma UnmapGone(g: Geometry, flags: Pte, s: State, k: nat)
    requires flags.frame == 0 && Inv(g, flags, s) && Enabled(g, s, LUnmap(k))
    ensures var c, s' := s.claims[k], DoUnmap(g, s, k);
            && Absent(g, s'.pages, c.iova, c.size) && KeepsOthers(g, s.pages, s'.pages, c.iova, c.size)
            && s'.cursor == s.cursor && |s'.claims| == |s.claims|
  {
    var c := s.claims[k];
    UnmapAbsent(g, s.pages, c.iova, c.size);
    UnmapKeepsOthers(g, s.pages, c.iova, c.size);
  }

  /** A call asks for something exactly with a size and an aligned address, and then for enough whole pages. */
  lemma CallOutcome(g: Geometry, s: State, i: nat, paddr: nat, size: nat)
    requires Enabled(g, s, LCall(i, paddr, size))
    ensures var t := DoCall(g, s, i, paddr, size).threads[i];
            && (t.Trying? <==> size > 0 && Aligned(g, paddr))
            && (t.Trying? ==> t.paddr == paddr && t.size == size && t.iova == s.cursor
                              && size <= t.pages * PageSize(g) < size + PageSize(g))
  {
    ShlByMul(PagesFor(g, size), g.pageShift);
    SizeFits(g, size);
  }

  /** A thread gives up only if what is left of the range is too small for it, and takes exactly what it needs if it
      sees the cursor in time. */
  lemma CasOutcome(g: Geometry, flags: Pte, s: State, i: nat, spurious: bool)
    requires flags.frame == 0 && Inv(g, flags, s) && Enabled(g, s, LCas(i, spurious))
    ensures var t, s' := s.threads[i], DoCas(g, s, i, spurious);
            && (s'.threads[i].Idle? ==> s.cursor + Bytes(g, t.pages) > SCANOUT_BASE && s'.claims == s.claims)
            && (t.iova == s.cursor && !spurious && s.cursor + Bytes(g, t.pages) <= SCANOUT_BASE ==>
                  && s'.threads[i].Claimed? && |s'.claims| == |s.claims| + 1
                  && s'.claims[|s.claims|].iova == s.cursor && s'.cursor == s.cursor + Bytes(g, t.pages)
                  && s'.claims[|s.claims|].size == t.size && s'.claims[|s.claims|].paddr == t.paddr)
            && (s'.threads[i].Trying? ==> s'.threads[i] == t.(iova := s.cursor) && s'.claims == s.claims)
  {
  }

  /** Each holds the bytes its caller asked for, and less than a page more. */
  lemma ClaimHoldsSize(g: Geometry, flags: Pte, states: seq<State>, labels: seq<Label>, k: nat, i: nat)
    requires flags.frame == 0 && Suits(g) && Run(g, flags, states, labels) && k < |states|
    requires i < |states[k].claims|
    ensures var c := states[k].claims[i];
            c.size > 0 && c.iova + c.size <= End(g, c) < c.iova + c.size + PageSize(g)
  {
    RunInv(g, flags, states, labels, k);
    SizeFits(g, states[k].claims[i].size);
  }

  function DvaFromIova(dvaBase: nat, iova: nat): nat {
    Or(dvaBase, iova)
  }

  function IovaFromDva(dvaBase: nat, dva: nat): nat {
    AndNot(dva, dvaBase)
  }

  function Translate(g: Geometry, pages: map<nat, Pte>, dvaBase: nat, dva: nat): Option<nat> {
    Lookup(g, pages, IovaFromDva(dvaBase, dva))
  }

  /** Every address of a live mapping translates to its byte, in every reachable state: so no map, unmap or failure of
      another mapping ever changes it. */
  lemma LiveTranslates(g: Geometry, flags: Pte, states: seq<State>, labels: seq<Label>, k: nat, m: nat, top: nat, x: nat)
    requires GeometryOk(g) && flags.frame == 0 && Suits(g) && Run(g, flags, states, labels) && k < |states|
    requires m < |states[k].claims| && states[k].claims[m].status == Mapped
    requires x < Bytes(g, states[k].claims[m].pages)
    requires states[k].claims[m].paddr + Bytes(g, states[k].claims[m].pages) <= PADDR_LIMIT
    ensures var c, dvaBase := states[k].claims[m], Shl(top, IOVA_BITS);
            Translate(g, states[k].pages, dvaBase, DvaFromIova(dvaBase, c.iova) + x) == Some(c.paddr + x)
  {
    hide Or, AndNot, Low, Shr, FrameOf;
    RunInv(g, flags, states, labels, k);
    var s := states[k];
    var c, dvaBase := s.claims[m], Shl(top, IOVA_BITS);
    ClaimInRange(g, s.claims, s.cursor, m);
    assert MappedOk(g, flags, s.pages, c);
    DvaRoundTrip(top, c.iova, x);
    QuotientBelow(x, c.pages, g.pageShift);
    assert PageMapped(g, flags, s.pages, c, Shr(x, g.pageShift));
    EntryTranslates(g, s.pages, c.iova, c.paddr, c.pages, flags, x);
  }

  /** An address of the coprocessor is the base with the I/O address below it. */
  lemma DvaIsAbove(top: nat, iova: nat)
    requires iova < SCANOUT_BASE
    ensures DvaFromIova(Shl(top, IOVA_BITS), iova) == Shl(top, IOVA_BITS) + iova
    ensures IovaFromDva(Shl(top, IOVA_BITS), Shl(top, IOVA_BITS) + iova) == iova
  {
    DvaRoundTrip(top, 0, iova);
    DvaRoundTrip(top, iova, 0);
    IovaBits();
    OrAdds(top, IOVA_BITS, iova);
    OrAdds(top, IOVA_BITS, 0);
  }

  lemma IovaBits()
    ensures Pow2(IOVA_BITS) == SCANOUT_BASE
  {
    assert Pow2(10) == 0x400;
    Pow2Adds(10, 10);
    Pow2Adds(20, 10);
  }

  /** The two address forms undo each other while the base keeps clear of the I/O address bits. */
  lemma DvaRoundTrip(top: nat, iova: nat, x: nat)
    requires iova + x < SCANOUT_BASE
    ensures IovaFromDva(Shl(top, IOVA_BITS), DvaFromIova(Shl(top, IOVA_BITS), iova) + x) == iova + x
  {
    assert Pow2(10) == 0x400 && Pow2(20) == 0x10_0000 && Pow2(30) == 0x4000_0000 && Pow2(32) == 0x1_0000_0000;
    OrAdds(top, IOVA_BITS, iova);
    AndNotDrops(top, IOVA_BITS, iova + x);
  }
}
