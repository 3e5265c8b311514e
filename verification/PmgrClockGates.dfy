/** Collecting the clock-gate devices behind a list of gates, dependencies first. */
module PmgrClockGates {
  import opened Wrappers
  import opened PmgrGraph

  const DEVICE_ID_MASK: nat := 0x1_0000       // gate & 0xffff
  const DIE_ID_SCALE: nat := 0x1000_0000      // gate >> 28
  const DIE_ID_MASK: nat := 0x10              // & 0xf
  const DIE_OFFSET: nat := 0x20_0000_0000

  datatype Record = Record(gate: nat, die: nat, id: nat, isVirtual: bool, paddr: Option<nat>)

  function MakeRecord(g: Graph, gate: nat, die: nat, id: nat): Record
    requires Live(g, id)
  {
    var d := Find(g, id).value;
    Record(gate, die, id, d.isVirtual,
           if d.isVirtual || d.paddr.None? then None else Some(d.paddr.value + DIE_OFFSET * die))
  }

  function Key(r: Record): (nat, nat) {
    (r.die, r.id)
  }

  function GateId(gate: nat): nat {
    gate % DEVICE_ID_MASK
  }

  function GateDie(gate: nat): nat {
    gate / DIE_ID_SCALE % DIE_ID_MASK
  }

  /** A gate names a device in its low half and a die in its top digit, of 32 bits. */
  lemma GateFields(gate: nat)
    ensures GateId(gate) < 0x1_0000 && GateDie(gate) < 0x10
    ensures exists above: nat, between: nat :: IsGate(gate, above, GateDie(gate), between, GateId(gate))
  {
    assert IsGate(gate, gate / 0x1_0000_0000, GateDie(gate), gate / 0x1_0000 % 0x1000, GateId(gate));
  }

  predicate IsGate(gate: nat, above: nat, die: nat, between: nat, id: nat) {
    between < 0x1000 && gate == above * 0x1_0000_0000 + die * 0x1000_0000 + between * 0x1_0000 + id
  }

  /** A record is of the gate, die and device it was made for; only a real device has an address, its own on die 0 and
      one die's distance further on every next die. */
  lemma RecordIs(g: Graph, gate: nat, die: nat, id: nat)
    requires Live(g, id)
    ensures var r, d := MakeRecord(g, gate, die, id), Find(g, id).value;
            && r.gate == gate && r.die == die && r.id == id && r.isVirtual == d.isVirtual
            && (r.paddr.Some? <==> !d.isVirtual && d.paddr.Some?)
            && (r.paddr.Some? && die == 0 ==> r.paddr == d.paddr)
            && (r.paddr.Some? ==> MakeRecord(g, gate, die + 1, id).paddr == Some(r.paddr.value + 0x20_0000_0000))
  {
  }

  // ---- What a record list must satisfy ----

  ghost predicate HasKey(out: seq<Record>, upTo: int, die: nat, id: nat) {
    exists j :: 0 <= j < upTo <= |out| && Key(out[j]) == (die, id)
  }

  /** No device of a die twice. */
  ghost predicate KeysDistinct(out: seq<Record>) {
    forall i, j :: 0 <= i < j < |out| ==> Key(out[i]) != Key(out[j])
  }

  /** A real device that is on no cycle comes after all its real ancestors, through virtual ones too. */
  ghost predicate Ordered(g: Graph, out: seq<Record>) {
    forall k, a: nat :: (0 <= k < |out| && !out[k].isVirtual && !OnCycle(g, out[k].id) && Ancestor(g, out[k].id, a)
                         && !Find(g, a).value.isVirtual) ==> HasKey(out, k, out[k].die, a)
  }

  ghost predicate Faithful(g: Graph, out: seq<Record>) {
    forall r :: r in out ==> Live(g, r.id) && r == MakeRecord(g, r.gate, r.die, r.id)
  }

  lemma ReachNone(g: Graph, ids: seq<nat>, stack: set<nat>)
    ensures ReachAll(g, ids[..0], stack) == {}
  {
  }

  ghost function OnDie(die: nat, ids: set<nat>): set<(nat, nat)> {
    set id | id in ids :: (die, id)
  }

  lemma OnDieJoin(die: nat, a: set<nat>, b: set<nat>)
    ensures OnDie(die, a + b) == OnDie(die, a) + OnDie(die, b)
  {
  }

  /** The record names the first gate that reaches its device. */
  ghost predicate FirstGate(g: Graph, gates: seq<nat>, k: int, r: Record) {
    && 0 <= k < |gates| && r.gate == gates[k] && GateReaches(g, gates[k], r.die, r.id)
    && forall m :: 0 <= m < k ==> !GateReaches(g, gates[m], r.die, r.id)
  }

  lemma NewKey(listed: seq<Record>, out: seq<Record>, j: nat, before: set<(nat, nat)>)
    requires listed <= out && |listed| <= j < |out| && KeysDistinct(out)
    requires forall d: nat, id: nat :: (d, id) in before <==> HasKey(listed, |listed|, d, id)
    ensures (out[j].die, out[j].id) !in before && HasKey(out, |out|, out[j].die, out[j].id)
  {
    assert Key(out[j]) == (out[j].die, out[j].id);
  }

  ghost predicate NameFirst(g: Graph, gates: seq<nat>, out: seq<Record>) {
    forall r :: r in out ==> exists k :: FirstGate(g, gates, k, r)
  }

  lemma NameNothing(g: Graph, gates: seq<nat>, out: seq<Record>)
    requires out == []
    ensures NameFirst(g, gates, out)
  {
  }

  /** The records one gate adds name it, and no gate before it reaches their devices. */
  lemma GateTurn(g: Graph, gates: seq<nat>, i: nat, listed: seq<Record>, out: seq<Record>,
                 before: set<(nat, nat)>, seen: set<(nat, nat)>)
    requires i < |gates| && listed <= out && KeysDistinct(out) && NameFirst(g, gates, listed)
    requires forall j :: |listed| <= j < |out| ==> out[j].gate == gates[i]
    requires forall d: nat, id: nat :: (d, id) in before <==> HasKey(listed, |listed|, d, id)
    requires forall d: nat, id: nat :: (d, id) in before <==> exists k :: 0 <= k < i && GateReaches(g, gates[k], d, id)
    requires forall d: nat, id: nat :: (d, id) in seen <==> HasKey(out, |out|, d, id)
    requires forall d: nat, id: nat :: (d, id) in seen <==> (d, id) in before || GateReaches(g, gates[i], d, id)
    ensures NameFirst(g, gates, out)
  {
    hide GateReaches, HasKey, KeysDistinct;
    forall r | r in out ensures exists k :: FirstGate(g, gates, k, r) {
      var j :| 0 <= j < |out| && out[j] == r;
      if j < |listed| {
        assert listed[j] == r && r in listed;
      } else {
        NewKey(listed, out, j, before);
        assert (r.die, r.id) in seen;
        assert FirstGate(g, gates, i, r);
      }
    }
  }

  lemma KeyOf(g: Graph, gate: nat, die: nat, id: nat)
    requires Live(g, id)
    ensures Key(MakeRecord(g, gate, die, id)) == (die, id) && MakeRecord(g, gate, die, id).gate == gate
  {
  }

  class Collector {
    const g: Graph
    var out: seq<Record>
    var seen: set<(nat, nat)>

    ghost predicate Valid()
      reads this
    {
      && KeysDistinct(out)
      && Ordered(g, out)
      && Faithful(g, out)
      && (forall d: nat, id: nat :: (d, id) in seen <==> HasKey(out, |out|, d, id))
    }

    constructor (g: Graph)
      ensures this.g == g && out == [] && seen == {} && Valid()
    {
      this.g := g;
      out, seen := [], {};
    }

    /** Append the record of a device not met before. */
    method Emit(gate: nat, die: nat, id: nat)
      requires Valid() && Live(g, id) && (die, id) !in seen
      requires !Find(g, id).value.isVirtual && !OnCycle(g, id) ==>
                 forall a: nat :: Ancestor(g, id, a) ==> (die, a) in seen
      modifies this
      ensures Valid() && seen == old(seen) + {(die, id)}
      ensures out == old(out) + [MakeRecord(g, gate, die, id)]
    {
      out := out + [MakeRecord(g, gate, die, id)];
      seen := seen + {(die, id)};
      assert Key(out[|out| - 1]) == (die, id);
      forall d: nat, x: nat | HasKey(old(out), |old(out)|, d, x) ensures HasKey(out, |out|, d, x) {
        var j :| 0 <= j < |old(out)| && Key(old(out)[j]) == (d, x);
        assert Key(out[j]) == (d, x);
      }
      forall k, d: nat, x: nat | 0 <= k <= |old(out)| && HasKey(old(out), k, d, x) ensures HasKey(out, k, d, x) {
        var j :| 0 <= j < k && Key(old(out)[j]) == (d, x);
        assert Key(out[j]) == (d, x);
      }
    }

    /** The walk from device `id`; `stack` holds the devices it is inside of. Of what it adds, a virtual device comes first
        and a real one last. */
    method Collect(gate: nat, die: nat, id: nat, stack: set<nat>)
      requires Valid() && forall s :: s in stack ==> Leads(g, s, id)
      modifies this
      ensures Valid() && old(out) <= out
      ensures seen == old(seen) + OnDie(die, Reach(g, id, stack))
      ensures Live(g, id) && id !in stack && (die, id) !in old(seen) ==>
                && |old(out)| < |out|
                && Key(if Find(g, id).value.isVirtual then out[|old(out)|] else out[|out| - 1]) == (die, id)
      ensures forall j :: |old(out)| <= j < |out| ==> out[j].gate == gate
      decreases Room(g, stack)
    {
      hide Reach, ReachAll, KeysDistinct, Ordered, Faithful, HasKey, Room, OnCycle, Ancestor, MakeRecord, FindFrom, Key, DeviceParents;
      ReachOnce(g, id, stack);
      if id == 0 || id in stack {
        return;
      }
      var device := Find(g, id);
      if device.None? {
        return;
      }
      RoomShrinks(g, stack, id);
      var inner := stack + {id};
      ghost var before := seen;
      if device.value.isVirtual && (die, id) !in seen {
        Emit(gate, die, id);
        KeyOf(g, gate, die, id);
      }
      ghost var entered, begun := seen, out;
      var parents := Parents(g, id);
      ReachNone(g, parents, inner);
      for i := 0 to |parents|
        invariant Valid() && old(out) <= out && begun <= out
        invariant forall j :: |old(out)| <= j < |out| ==> out[j].gate == gate
        invariant seen == entered + OnDie(die, ReachAll(g, parents[..i], inner))
      {
        forall s | s in inner ensures Leads(g, s, parents[i]) {
          if s in stack { LeadsOn(g, s, id, parents[i]); } else { assert Path(g, [id]); }
        }
        Collect(gate, die, parents[i], inner);
        ReachOneMore(g, parents, i, inner);
        OnDieJoin(die, ReachAll(g, parents[..i], inner), Reach(g, parents[i], inner));
      }
      assert parents[..|parents|] == parents;
      NotMetAgain(g, parents, inner, id);
      if !device.value.isVirtual && (die, id) !in seen {
        if !OnCycle(g, id) {
          forall a: nat | Ancestor(g, id, a) ensures (die, a) in seen {
            AncestorMet(g, id, a, stack);
          }
        }
        Emit(gate, die, id);
        KeyOf(g, gate, die, id);
      }
      OnDieJoin(die, {id}, ReachAll(g, parents, inner));
    }

    method CollectAll(gates: seq<nat>)
      requires Valid() && out == [] && seen == {}
      modifies this
      ensures Valid()
      ensures forall d: nat, id: nat :: (d, id) in seen <==> exists k :: 0 <= k < |gates| && GateReaches(g, gates[k], d, id)
      ensures NameFirst(g, gates, out)
    {
      hide Ordered, Faithful, NameFirst, KeysDistinct, HasKey, GateDie, GateId;
      NameNothing(g, gates, out);
      for i := 0 to |gates|
        invariant Valid()
        invariant forall d: nat, id: nat :: (d, id) in seen <==> exists k :: 0 <= k < i && GateReaches(g, gates[k], d, id)
        invariant NameFirst(g, gates, out)
      {
        ghost var before, listed := seen, out;
        Collect(gates[i], GateDie(gates[i]), GateId(gates[i]), {});
        forall d: nat, id: nat ensures (d, id) in seen <==> (d, id) in before || GateReaches(g, gates[i], d, id) {
        }
        GateTurn(g, gates, i, listed, out, before, seen);
      }
    }
  }

  ghost predicate GateReaches(g: Graph, gate: nat, die: nat, id: nat) {
    die == GateDie(gate) && id in Reach(g, GateId(gate), {})
  }

  /** What a gate reaches: the live devices at the end of a path from its device. */
  lemma GateReachesByPath(g: Graph, gate: nat, die: nat, id: nat)
    ensures GateReaches(g, gate, die, id) <==>
            die == GateDie(gate) && exists p :: Path(g, p) && p[0] == GateId(gate) && Last(p) == id
  {
    if GateReaches(g, gate, die, id) {
      var p := ReachSound(g, GateId(gate), {}, id);
      assert Path(g, p);
    }
    if p :| Path(g, p) && p[0] == GateId(gate) && Last(p) == id {
      ReachComplete(g, p, {});
    }
  }

  // ---- Addresses, each once ----

  predicate Counts(r: Record) {
    r.paddr.Some? && !r.isVirtual
  }

  /** `out[i]` is the address of `devices[from[i]]` and of no counted device before it; `from` increases. */
  ghost predicate FirstOccurrences(devices: seq<Record>, out: seq<nat>, from: seq<nat>) {
    && |from| == |out|
    && (forall i :: 0 <= i < |out| ==> from[i] < |devices| && Counts(devices[from[i]])
                                       && devices[from[i]].paddr == Some(out[i]))
    && (forall i, j :: 0 <= i < |out| && 0 <= j < from[i] && Counts(devices[j]) ==> devices[j].paddr != Some(out[i]))
    && (forall i, j :: 0 <= i < j < |out| ==> from[i] < from[j])
  }

  ghost predicate AllListed(devices: seq<Record>, upTo: nat, out: seq<nat>) {
    forall k :: 0 <= k < upTo <= |devices| && Counts(devices[k]) ==> devices[k].paddr.value in out
  }

  method ClockGatePaddrs(devices: seq<Record>) returns (out: seq<nat>, ghost from: seq<nat>)
    ensures FirstOccurrences(devices, out, from) && AllListed(devices, |devices|, out)
    ensures forall i, j :: 0 <= i < j < |out| ==> out[i] != out[j]
  {
    out, from := [], [];
    var seen: set<nat> := {};
    for k := 0 to |devices|
      invariant forall p :: p in seen <==> p in out
      invariant FirstOccurrences(devices, out, from) && AllListed(devices, k, out)
      invariant forall i :: 0 <= i < |from| ==> from[i] < k
      invariant forall i, j :: 0 <= i < j < |out| ==> out[i] != out[j]
    {
      if Counts(devices[k]) {
        var paddr := devices[k].paddr.value;
        if paddr !in seen {
          out := out + [paddr];
          from := from + [k];
          seen := seen + {paddr};
        }
      }
    }
  }

  /** Where the address of record `k` is listed, if no other record shares it. */
  lemma ListedAt(devices: seq<Record>, out: seq<nat>, from: seq<nat>, k: nat) returns (i: nat)
    requires FirstOccurrences(devices, out, from) && AllListed(devices, |devices|, out)
    requires k < |devices| && Counts(devices[k])
    requires forall j :: 0 <= j < |devices| && j != k && Counts(devices[j]) ==> devices[j].paddr != devices[k].paddr
    ensures i < |out| && Some(out[i]) == devices[k].paddr && from[i] == k
  {
    var paddr := devices[k].paddr.value;
    assert paddr in out;
    i :| 0 <= i < |out| && out[i] == paddr;
    assert from[i] == k;
  }

  lemma ListedInOrder(devices: seq<Record>, out: seq<nat>, from: seq<nat>, x: nat, y: nat)
    requires FirstOccurrences(devices, out, from) && x < |out| && y < |out| && from[x] < from[y]
    ensures x < y
  {
  }

  ghost predicate DistinctPaddrs(devices: seq<Record>) {
    forall i, j :: 0 <= i < |devices| && 0 <= j < |devices| && i != j && Counts(devices[i]) && Counts(devices[j]) ==>
                     devices[i].paddr != devices[j].paddr
  }

  /** De-duplication keeps the order: with no two devices at one address, the address of a real device on no cycle is
      listed after the address of each of its real ancestors that has one. */
  lemma PaddrsOrdered(g: Graph, devices: seq<Record>, out: seq<nat>, from: seq<nat>, k: nat, a: nat)
    requires Ordered(g, devices) && Faithful(g, devices) && DistinctPaddrs(devices)
    requires FirstOccurrences(devices, out, from) && AllListed(devices, |devices|, out)
    requires k < |devices| && Counts(devices[k]) && !OnCycle(g, devices[k].id)
    requires Ancestor(g, devices[k].id, a) && Counts(MakeRecord(g, 0, devices[k].die, a))
    ensures exists x, y :: 0 <= x < y < |out| && Some(out[y]) == devices[k].paddr
                           && Some(out[x]) == MakeRecord(g, 0, devices[k].die, a).paddr
  {
    assert HasKey(devices, k, devices[k].die, a);
    var j :| 0 <= j < k && Key(devices[j]) == (devices[k].die, a);
    assert devices[j] in devices;
    var x := ListedAt(devices, out, from, j);
    var y := ListedAt(devices, out, from, k);
    ListedInOrder(devices, out, from, x, y);
  }
}
