/** The 16-entry reply tag table. Tag 0 is reserved; tags 1..15 are handed out round robin. */
module SioTags {
  import opened Wrappers

  const TAGS := 16
  const FIRST_TAG := 1

  /** The reply of a `Sync` request is kept in its entry until the caller takes it. */
  datatype Kind = Free | Sync(result: Option<bool>) | Issue(channel: nat, generation: nat)

  datatype Table = Table(entries: seq<Kind>, last: nat)

  predicate TableOk(t: Table) {
    |t.entries| == TAGS && t.last < TAGS && t.entries[0] == Free
  }

  function Empty(): (t: Table)
    ensures TableOk(t)
  {
    Table(seq(TAGS, _ => Free), 0)
  }

  function After(tag: nat): (next: nat)
    ensures FIRST_TAG <= next < TAGS
  {
    tag % (TAGS - 1) + FIRST_TAG
  }

  /** The first free tag among `tries` tags starting at `tag`. */
  function Search(entries: seq<Kind>, tag: nat, tries: nat): (r: Option<nat>)
    requires |entries| == TAGS && FIRST_TAG <= tag < TAGS
    ensures r.Some? ==> FIRST_TAG <= r.value < TAGS && entries[r.value] == Free
    decreases tries
  {
    if tries == 0 then None
    else if entries[tag] == Free then Some(tag)
    else Search(entries, After(tag), tries - 1)
  }

  function Find(t: Table): (r: Option<nat>)
    requires |t.entries| == TAGS
  {
    Search(t.entries, After(t.last), TAGS - 1)
  }

  function Allocate(t: Table, kind: Kind): Table
    requires TableOk(t)
  {
    match Find(t)
    case None => t
    case Some(tag) => Table(t.entries[tag := kind], tag)
  }

  function Release(t: Table, tag: nat): Table
    requires TableOk(t)
  {
    if tag < TAGS then t.(entries := t.entries[tag := Free]) else t
  }

  /** The tag `k` places after `tag` in the cyclic order 1, 2, .., 15, 1, .. */
  function Ahead(tag: nat, k: nat): (r: nat)
    requires FIRST_TAG <= tag < TAGS && k < TAGS - 1
    ensures FIRST_TAG <= r < TAGS
  {
    if tag + k < TAGS then tag + k else tag + k - (TAGS - 1)
  }

  /** The first `count` tags from `tag` on are taken. */
  ghost predicate Taken(entries: seq<Kind>, tag: nat, count: nat)
    requires |entries| == TAGS && FIRST_TAG <= tag < TAGS && count <= TAGS - 1
  {
    forall k :: 0 <= k < count ==> entries[Ahead(tag, k)] != Free
  }

  lemma AheadOfNext(tag: nat, k: nat)
    requires FIRST_TAG <= tag < TAGS && k + 1 < TAGS - 1
    ensures Ahead(After(tag), k) == Ahead(tag, k + 1)
  {
  }

  lemma TakenNext(entries: seq<Kind>, tag: nat, count: nat)
    requires |entries| == TAGS && FIRST_TAG <= tag < TAGS && count + 1 <= TAGS - 1
    ensures Taken(entries, tag, count + 1) <==> entries[tag] != Free && Taken(entries, After(tag), count)
  {
    hide After;
    assert Ahead(tag, 0) == tag;
    forall k | 0 <= k < count ensures Ahead(After(tag), k) == Ahead(tag, k + 1) {
      AheadOfNext(tag, k);
    }
    if entries[tag] != Free && Taken(entries, After(tag), count) {
      forall k | 0 <= k < count + 1 ensures entries[Ahead(tag, k)] != Free {
        if k > 0 {
          AheadOfNext(tag, k - 1);
        }
      }
    }
  }

  /** The search gives up exactly when all its tries are taken. */
  lemma {:induction false} SearchFailsIff(entries: seq<Kind>, tag: nat, tries: nat)
    requires |entries| == TAGS && FIRST_TAG <= tag < TAGS && tries <= TAGS - 1
    ensures Search(entries, tag, tries).None? <==> Taken(entries, tag, tries)
    decreases tries
  {
    hide Taken, After;
    if tries == 0 {
      NothingTaken(entries, tag);
    } else {
      TakenNext(entries, tag, tries - 1);
      SearchFailsIff(entries, After(tag), tries - 1);
    }
  }

  lemma NothingTaken(entries: seq<Kind>, tag: nat)
    requires |entries| == TAGS && FIRST_TAG <= tag < TAGS
    ensures Taken(entries, tag, 0)
  {
  }

  /** Else it stops at the first free tag in cyclic order. */
  lemma {:induction false} SearchIsFirstFree(entries: seq<Kind>, tag: nat, tries: nat, k: nat)
    requires |entries| == TAGS && FIRST_TAG <= tag < TAGS && k < tries <= TAGS - 1
    requires entries[Ahead(tag, k)] == Free && Taken(entries, tag, k)
    ensures Search(entries, tag, tries) == Some(Ahead(tag, k))
    decreases tries
  {
    hide Taken, After;
    assert Ahead(tag, 0) == tag;
    if k > 0 {
      TakenNext(entries, tag, k - 1);
      AheadOfNext(tag, k - 1);
      SearchIsFirstFree(entries, After(tag), tries - 1, k - 1);
    }
  }

  /** Allocation fails only when tags 1..15 are all taken, never hands out tag 0, and touches one entry. */
  lemma AllocateIsExact(t: Table, kind: Kind)
    requires TableOk(t) && kind != Free
    ensures Find(t).None? <==> forall tag :: FIRST_TAG <= tag < TAGS ==> t.entries[tag] != Free
    ensures TableOk(Allocate(t, kind))
    ensures Find(t).Some? ==>
              var tag := Find(t).value;
              && FIRST_TAG <= tag < TAGS
              && t.entries[tag] == Free
              && Allocate(t, kind).entries[tag] == kind
              && forall other :: 0 <= other < TAGS && other != tag ==>
                                   Allocate(t, kind).entries[other] == t.entries[other]
  {
    var start := After(t.last);
    SearchFailsIff(t.entries, start, TAGS - 1);
    if Find(t).None? {
      forall tag | FIRST_TAG <= tag < TAGS ensures t.entries[tag] != Free {
        var k := if tag >= start then tag - start else tag + (TAGS - 1) - start;
        assert Ahead(start, k) == tag;
      }
    }
  }

  class SioTags {
    var entries: array<Kind>
    var last: nat

    ghost predicate WellFormed()
      reads this, entries
    {
      entries.Length == TAGS && last < TAGS && entries[0] == Free
    }

    ghost function View(): Table
      reads this, entries
    {
      Table(entries[..], last)
    }

    constructor ()
      ensures WellFormed() && fresh(entries)
      ensures View() == Empty()
    {
      entries := new Kind[TAGS](_ => Kind.Free);
      last := 0;
      new;
      assert entries[..] == seq(TAGS, _ => Free);
    }

    method AllocateTag(kind: Kind) returns (r: Option<nat>)
      requires WellFormed() && kind != Free
      modifies this`last, entries
      ensures WellFormed()
      ensures View() == Allocate(old(View()), kind) && r == Find(old(View()))
    {
      var tag := After(last);
      for i := 0 to TAGS - 1
        invariant FIRST_TAG <= tag < TAGS
        invariant last == old(last) && entries[..] == old(entries[..])
        invariant Find(old(View())) == Search(old(entries[..]), tag, TAGS - 1 - i)
      {
        if entries[tag] == Free {
          entries[tag] := kind;
          last := tag;
          return Some(tag);
        }
        tag := After(tag);
      }
      r := None;
    }

    method FreeTag(tag: nat)
      requires WellFormed()
      modifies entries
      ensures WellFormed()
      ensures View() == Release(old(View()), tag)
    {
      if tag < TAGS {
        entries[tag] := Free;
      }
    }
  }
}
