/** The power-manager device graph: what a depth-first walk along parents can reach. */
module PmgrGraph {
  import opened Wrappers

  /** Both id forms are in every entry; which one counts depends on the table. */
  datatype Device = Device(
    id1: nat, id2: nat, parents8: seq<nat>, parents16: seq<nat>, isVirtual: bool, paddr: Option<nat>)

  datatype Graph = Graph(devices: seq<Device>)

  /** The 8-bit ids are in use when they tell the first two entries apart. */
  predicate UsesU8Ids(devices: seq<Device>) {
    |devices| >= 2 && devices[0].id1 != devices[1].id1
  }

  function DeviceId(g: Graph, d: Device): nat {
    if UsesU8Ids(g.devices) then d.id1 else d.id2
  }

  function NonZero(ids: seq<nat>): (r: seq<nat>)
    ensures forall x :: x in r <==> x in ids && x != 0
  {
    if ids == [] then []
    else if ids[0] != 0 then [ids[0]] + NonZero(ids[1..])
    else NonZero(ids[1..])
  }

  function DeviceParents(g: Graph, d: Device): seq<nat> {
    NonZero(if UsesU8Ids(g.devices) then d.parents8 else d.parents16)
  }

  /** The first entry with the given id. */
  function Find(g: Graph, id: nat): Option<Device> {
    FindFrom(g, g.devices, id)
  }

  function FindFrom(g: Graph, devices: seq<Device>, id: nat): Option<Device> {
    if devices == [] then None
    else if DeviceId(g, devices[0]) == id then Some(devices[0])
    else FindFrom(g, devices[1..], id)
  }

  /** The search finds the first entry with the id, and gives up only if there is none. */
  lemma {:induction false} FindIsFirst(g: Graph, devices: seq<Device>, id: nat)
    ensures FindFrom(g, devices, id).None? <==> forall i :: 0 <= i < |devices| ==> DeviceId(g, devices[i]) != id
    ensures FindFrom(g, devices, id).Some? ==>
              exists i :: && 0 <= i < |devices| && devices[i] == FindFrom(g, devices, id).value && DeviceId(g, devices[i]) == id
                          && forall j :: 0 <= j < i ==> DeviceId(g, devices[j]) != id
    decreases |devices|
  {
    if devices != [] && DeviceId(g, devices[0]) != id {
      FindIsFirst(g, devices[1..], id);
      if FindFrom(g, devices[1..], id).Some? {
        var i :| && 0 <= i < |devices[1..]| && devices[1..][i] == FindFrom(g, devices, id).value
                 && DeviceId(g, devices[1..][i]) == id && forall j :: 0 <= j < i ==> DeviceId(g, devices[1..][j]) != id;
        assert devices[i + 1] == devices[1..][i];
        forall j | 0 <= j < i + 1 ensures DeviceId(g, devices[j]) != id {
          if j > 0 { assert devices[j] == devices[1..][j - 1]; }
        }
      } else {
        forall i | 0 <= i < |devices| ensures DeviceId(g, devices[i]) != id {
          if i > 0 { assert devices[i] == devices[1..][i - 1]; }
        }
      }
    }
  }

  /** The 8-bit ids and parents count where they tell the first two entries apart, the 16-bit ones otherwise. */
  lemma IdForm(g: Graph, d: Device)
    ensures |g.devices| >= 2 && g.devices[0].id1 != g.devices[1].id1 ==>
              DeviceId(g, d) == d.id1 && forall x :: x in DeviceParents(g, d) <==> x in d.parents8 && x != 0
    ensures |g.devices| < 2 || g.devices[0].id1 == g.devices[1].id1 ==>
              DeviceId(g, d) == d.id2 && forall x :: x in DeviceParents(g, d) <==> x in d.parents16 && x != 0
  {
  }

  /** A device the walk enters: a nonzero id that is in the table. */
  predicate Live(g: Graph, id: nat) {
    id != 0 && Find(g, id).Some?
  }

  function Parents(g: Graph, id: nat): seq<nat>
    requires Live(g, id)
  {
    DeviceParents(g, Find(g, id).value)
  }

  ghost function Ids(g: Graph, devices: seq<Device>): (s: set<nat>)
    ensures forall id :: FindFrom(g, devices, id).Some? ==> id in s
  {
    if devices == [] then {} else {DeviceId(g, devices[0])} + Ids(g, devices[1..])
  }

  /** How many devices are not on the stack. */
  ghost function Room(g: Graph, stack: set<nat>): nat {
    |Ids(g, g.devices) - stack|
  }

  lemma RoomShrinks(g: Graph, stack: set<nat>, id: nat)
    requires Live(g, id) && id !in stack
    ensures Room(g, stack + {id}) < Room(g, stack)
  {
    var all := Ids(g, g.devices);
    assert all - (stack + {id}) == all - stack - {id};
  }

  /** What the walk from `id` meets while it keeps off `stack`. */
  ghost function Reach(g: Graph, id: nat, stack: set<nat>): set<nat>
    decreases Room(g, stack), 0
  {
    if !Live(g, id) || id in stack then {}
    else
      RoomShrinks(g, stack, id);
      {id} + ReachAll(g, Parents(g, id), stack + {id})
  }

  ghost function ReachAll(g: Graph, ids: seq<nat>, stack: set<nat>): set<nat>
    decreases Room(g, stack), |ids| + 1
  {
    if ids == [] then {}
    else ReachAll(g, ids[..|ids| - 1], stack) + Reach(g, ids[|ids| - 1], stack)
  }

  lemma ReachOnce(g: Graph, id: nat, stack: set<nat>)
    ensures !Live(g, id) || id in stack ==> Reach(g, id, stack) == {}
    ensures Live(g, id) && id !in stack ==>
              Reach(g, id, stack) == {id} + ReachAll(g, Parents(g, id), stack + {id})
  {
  }

  lemma ReachOneMore(g: Graph, ids: seq<nat>, i: nat, stack: set<nat>)
    requires i < |ids|
    ensures i == 0 ==> ReachAll(g, ids[..i], stack) == {}
    ensures ReachAll(g, ids[..i + 1], stack) == ReachAll(g, ids[..i], stack) + Reach(g, ids[i], stack)
  {
    assert ids[..i + 1][..i] == ids[..i];
  }

  // ---- Paths ----

  predicate Follows(g: Graph, a: nat, b: nat) {
    Live(g, a) && b in Parents(g, a)
  }

  /** Live devices, each a parent of the one before. */
  predicate Path(g: Graph, p: seq<nat>) {
    && |p| > 0
    && (forall i :: 0 <= i < |p| ==> Live(g, p[i]))
    && (forall i :: 0 < i < |p| ==> Follows(g, p[i - 1], p[i]))
  }

  predicate Avoids(p: seq<nat>, stack: set<nat>) {
    forall i :: 0 <= i < |p| ==> p[i] !in stack
  }

  function Last(p: seq<nat>): nat
    requires |p| > 0
  {
    p[|p| - 1]
  }

  lemma {:induction false} ReachAllAt(g: Graph, ids: seq<nat>, stack: set<nat>, u: nat)
    ensures u in ReachAll(g, ids, stack) <==> exists i :: 0 <= i < |ids| && u in Reach(g, ids[i], stack)
    decreases |ids|
  {
    if ids != [] {
      var front := ids[..|ids| - 1];
      ReachAllAt(g, front, stack, u);
      if i :| 0 <= i < |ids| && u in Reach(g, ids[i], stack) {
        if i < |front| { assert front[i] == ids[i]; }
      }
      if u in ReachAll(g, front, stack) {
        var j :| 0 <= j < |front| && u in Reach(g, front[j], stack);
        assert ids[j] == front[j];
      }
    }
  }

  /** Everything met lies on a path from `id` that keeps off the stack. */
  lemma {:induction false} ReachSound(g: Graph, id: nat, stack: set<nat>, u: nat) returns (p: seq<nat>)
    requires u in Reach(g, id, stack)
    ensures Path(g, p) && p[0] == id && Last(p) == u && Avoids(p, stack)
    decreases Room(g, stack)
  {
    if u == id {
      p := [id];
    } else {
      RoomShrinks(g, stack, id);
      var ids := Parents(g, id);
      ReachAllAt(g, ids, stack + {id}, u);
      var i :| 0 <= i < |ids| && u in Reach(g, ids[i], stack + {id});
      var rest := ReachSound(g, ids[i], stack + {id}, u);
      p := [id] + rest;
      assert Follows(g, id, rest[0]);
      JoinPaths(g, [id], rest);
    }
  }

  /** The walk keeps off the devices it is inside of. */
  lemma NotMetAgain(g: Graph, ids: seq<nat>, stack: set<nat>, u: nat)
    requires u in stack
    ensures u !in ReachAll(g, ids, stack)
  {
    if u in ReachAll(g, ids, stack) {
      ReachAllAt(g, ids, stack, u);
      var i :| 0 <= i < |ids| && u in Reach(g, ids[i], stack);
      var p := ReachSound(g, ids[i], stack, u);
    }
  }

  /** And whatever lies on such a path is met, for all that the walk never enters a device twice at once. */
  lemma {:induction false} ReachComplete(g: Graph, p: seq<nat>, stack: set<nat>)
    requires Path(g, p) && Avoids(p, stack)
    ensures Last(p) in Reach(g, p[0], stack)
    decreases Room(g, stack), |p|
  {
    var id := p[0];
    if |p| > 1 {
      if k :| 0 < k < |p| && p[k] == id {
        Suffix(g, p, k);
        ReachComplete(g, p[k..], stack);
      } else {
        RoomShrinks(g, stack, id);
        Suffix(g, p, 1);
        ReachComplete(g, p[1..], stack + {id});
        assert Follows(g, p[0], p[1]);
        var i :| 0 <= i < |Parents(g, id)| && Parents(g, id)[i] == p[1];
        ReachAllAt(g, Parents(g, id), stack + {id}, Last(p));
      }
    }
  }

  lemma Suffix(g: Graph, p: seq<nat>, k: nat)
    requires Path(g, p) && k < |p|
    ensures Path(g, p[k..]) && Last(p[k..]) == Last(p)
  {
    forall i | 0 < i < |p[k..]| ensures Follows(g, p[k..][i - 1], p[k..][i]) {
      assert Follows(g, p[k + i - 1], p[k + i]);
    }
  }

  /** A path from `a` to a device that names `id` as a parent. */
  ghost predicate Leads(g: Graph, a: nat, id: nat) {
    exists p :: Path(g, p) && p[0] == a && id in Parents(g, Last(p))
  }

  /** `a` is a live ancestor of `u`. */
  ghost predicate Ancestor(g: Graph, u: nat, a: nat) {
    Live(g, a) && Leads(g, u, a)
  }

  ghost predicate OnCycle(g: Graph, u: nat) {
    Leads(g, u, u)
  }

  lemma Extend(g: Graph, p: seq<nat>, id: nat)
    requires Path(g, p) && id in Parents(g, Last(p)) && Live(g, id)
    ensures Path(g, p + [id]) && Last(p + [id]) == id
  {
    assert Follows(g, Last(p), id);
  }

  lemma LeadsOn(g: Graph, a: nat, id: nat, next: nat)
    requires Leads(g, a, id) && Live(g, id) && next in Parents(g, id)
    ensures Leads(g, a, next)
  {
    var p :| Path(g, p) && p[0] == a && id in Parents(g, Last(p));
    Extend(g, p, id);
    assert Path(g, p + [id]) && (p + [id])[0] == a;
  }

  lemma {:induction false} JoinPaths(g: Graph, p: seq<nat>, q: seq<nat>)
    requires Path(g, p) && Path(g, q) && Follows(g, Last(p), q[0])
    ensures Path(g, p + q) && Last(p + q) == Last(q)
  {
    var r := p + q;
    forall i | 0 < i < |r| ensures Follows(g, r[i - 1], r[i]) {
      if i > |p| { assert Follows(g, q[i - |p| - 1], q[i - |p|]); }
    }
  }

  lemma LeadsBy(g: Graph, a: nat, id: nat) returns (r: seq<nat>)
    requires Leads(g, a, id)
    ensures Path(g, r) && r[0] == a && id in Parents(g, Last(r))
  {
    r :| Path(g, r) && r[0] == a && id in Parents(g, Last(r));
  }

  lemma PathStep(g: Graph, q: seq<nat>, i: nat)
    requires Path(g, q) && 0 < i < |q|
    ensures Follows(g, q[i - 1], q[i])
  {
  }

  /** A path from `u` that meets a device leading back to `u` puts `u` on a cycle. */
  lemma CycleThrough(g: Graph, q: seq<nat>, i: nat)
    requires Path(g, q) && i < |q| && Leads(g, q[i], q[0])
    ensures OnCycle(g, q[0])
  {
    hide Path, Follows, Parents;
    if i > 0 {
      var r := LeadsBy(g, q[i], q[0]);
      Prefix(g, q, i);
      PathStep(g, q, i);
      JoinPaths(g, q[..i], r);
      assert (q[..i] + r)[0] == q[0];
    }
  }

  /** While `u` is on no cycle, nothing on the stack above it lies between it and an ancestor, so the walk meets the
      ancestor. */
  lemma AncestorMet(g: Graph, u: nat, a: nat, stack: set<nat>)
    requires Live(g, u) && u !in stack && Ancestor(g, u, a) && !OnCycle(g, u)
    requires forall s :: s in stack ==> Leads(g, s, u)
    ensures a in Reach(g, u, stack) && a != u
  {
    var p :| Path(g, p) && p[0] == u && a in Parents(g, Last(p));
    Extend(g, p, a);
    var q := p + [a];
    forall i | 0 <= i < |q| ensures q[i] !in stack {
      if q[i] in stack {
        CycleThrough(g, q, i);
      }
    }
    ReachComplete(g, q, stack);
  }

  lemma Prefix(g: Graph, p: seq<nat>, k: nat)
    requires Path(g, p) && 0 < k <= |p|
    ensures Path(g, p[..k]) && Last(p[..k]) == p[k - 1]
  {
  }
}
