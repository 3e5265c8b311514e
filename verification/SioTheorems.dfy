/** The SIO engine's guarantees, over every run. */
module SioTheorems {
  import opened Wrappers
  import opened SioTags
  import opened SioTransfer
  import opened SioSystem
  import opened SioInvariant
  import opened SioSteps

  // ---- The mailbox is never forgotten ----

  /** Nothing about the mailbox side changed, except that a flag may have been set. */
  lemma MailSame(s: State, s': State)
    requires MailOk(s)
    requires s'.mail == s.mail && s'.rxFailed == s.rxFailed && s'.irq == s.irq && s'.posts == s.posts
    requires s'.draining == s.draining && s'.drainers == s.drainers
    requires (s.flag ==> s'.flag) && (s.worker == AtCas ==> s'.worker == AtCas)
    ensures MailOk(s')
  {
  }

  lemma MailHolder(s: State, l: Label)
    requires MailOk(s) && Enabled(s, l) && HolderLabel(l)
    ensures MailOk(Do(s, l))
  {
    hide EachOk;
    assert Do(s, l) == Apply(s, HolderEffect(s, l));
    MailSame(s, Do(s, l));
  }

  /** Until it leaves, the drainer keeps `draining` set. */
  lemma DrainStays(s: State, fail: bool)
    requires OneDrainer(s) && CanDrain(s, 0) && !s.drainers[0].pc.Leaving?
    ensures var s' := DoDrain(s, 0, fail);
            && s'.draining && s'.posts == s.posts && (s.rxFailed ==> s'.rxFailed)
            && (Pc(s'.drainers) == Leaving(true) ==> s'.rxFailed)
  {
  }

  lemma DrainLeaves(s: State, fail: bool)
    requires OneDrainer(s) && MailOk(s) && CanDrain(s, 0) && s.drainers[0].pc.Leaving?
    ensures MailOk(DoDrain(s, 0, fail))
  {
    var s' := DoDrain(s, 0, fail);
    var p := Post(s.drainers[0].owner, Check(s.drainers[0].pc.failed));
    assert s' == DoLeave(s, 0, s.drainers[0].pc.failed) && p in s'.posts;
    if !s.rxFailed { assert Watching(p); }
  }

  lemma MailDrain(s: State, i: nat, fail: bool)
    requires OneDrainer(s) && MailOk(s) && CanDrain(s, i)
    ensures MailOk(DoDrain(s, i, fail))
  {
    hide DoDrain;
    assert i == 0;
    if s.drainers[0].pc.Leaving? { DrainLeaves(s, fail); }
    else { DrainStays(s, fail); }
  }

  lemma MailPost(s: State, p: Post)
    requires MailOk(s) && p in s.posts
    ensures MailOk(DoPost(s, p))
  {
    var s' := DoPost(s, p);
    if p.pc == Check(false) && s.mail != [] {
      assert Post(p.owner, Recas) in s'.posts && Watching(Post(p.owner, Recas));
    } else if p.pc == Check(true) {
      forall q | q in s.posts && Watching(q) ensures q in s'.posts {
      }
    }
  }

  lemma MailOther(s: State, l: Label)
    requires MailOk(s) && Enabled(s, l)
    requires l.LCommit? || l.LKick? || l.LTake? || l.LScan? || l.LStart? || l.LStop? || l.LCtl? || l.LSyncAlloc?
             || l.LSyncSent? || l.LSyncDone?
    ensures MailOk(Do(s, l))
  {
    hide MailOk;
    var s' := Do(s, l);
    match l {
      case LScan => assert s' == DoScan(s);
      case LCommit(c, off) => assert s' == DoCommit(s, c, off);
      case LStart(c) => assert s' == DoStart(s, c);
      case LStop(c, next) => assert s' == DoStop(s, c, next);
      case LCtl(c, ok) => assert s' == DoCtl(s, c, ok);
      case _ =>
    }
    MailSame(s, s');
  }

  lemma MailStep(s: State, l: Label)
    requires OneDrainer(s) && MailOk(s) && Enabled(s, l)
    ensures MailOk(Do(s, l))
  {
    if HolderLabel(l) { MailHolder(s, l); }
    else if l.LDrain? { MailDrain(s, l.i, l.fail); }
    else if l.LPost? { MailPost(s, l.p); }
    else if l.LWake? || l.LCas? || l.LArrive? || l.LIrq? { }
    else { MailOther(s, l); }
  }

  // ---- Descriptor slots ----

  lemma SlotsSame(chans: seq<Channel>, chans': seq<Channel>, bitmap: set<nat>)
    requires SlotsOk(chans, bitmap) && |chans'| == |chans|
    requires forall c :: 0 <= c < |chans| ==> Held(chans'[c]) == Held(chans[c])
    ensures SlotsOk(chans', bitmap)
  {
    assert forall c, b :: Holds(chans', c, b) <==> Holds(chans, c, b);
  }

  lemma HeldRest(rest: seq<nat>, all: seq<nat>, b: nat)
    requires all != [] && rest == all[1..]
    ensures Distinct(all) ==> Distinct(rest) && (b in rest <==> b in all && b != all[0])
  {
    assert all == [all[0]] + rest;
    assert forall i :: 0 <= i < |rest| ==> rest[i] == all[i + 1];
  }

  lemma SlotFreed(chans: seq<Channel>, chans': seq<Channel>, bitmap: set<nat>, c: nat)
    requires SlotsOk(chans, bitmap) && |chans'| == |chans| && c < |chans| && Held(chans[c]) != []
    requires Held(chans'[c]) == Held(chans[c])[1..]
    requires forall d :: 0 <= d < |chans| && d != c ==> chans'[d] == chans[d]
    ensures SlotsOk(chans', bitmap - {Held(chans[c])[0]})
  {
    hide Held, Distinct;
    var slot := Held(chans[c])[0];
    assert Holds(chans, c, slot);
    forall d: int, b: nat ensures Holds(chans', d, b) <==> Holds(chans, d, b) && b != slot {
      HeldRest(Held(chans'[c]), Held(chans[c]), b);
      if d != c && Holds(chans', d, b) { assert Holds(chans, d, b); }
    }
    HeldRest(Held(chans'[c]), Held(chans[c]), slot);
    assert forall d :: 0 <= d < |chans'| ==> Distinct(Held(chans'[d]));
  }

  lemma SlotTaken(chans: seq<Channel>, chans': seq<Channel>, bitmap: set<nat>, c: nat, slot: nat)
    requires SlotsOk(chans, bitmap) && |chans'| == |chans| && c < |chans| && slot !in bitmap && slot < DESC_SLOTS
    requires Held(chans'[c]) == Held(chans[c]) + [slot]
    requires forall d :: 0 <= d < |chans| && d != c ==> chans'[d] == chans[d]
    ensures SlotsOk(chans', bitmap + {slot})
  {
    assert forall d, b :: Holds(chans', d, b) <==> Holds(chans, d, b) || (d == c && b == slot);
    assert !Holds(chans, c, slot);
  }

  lemma CtlSlots(s: State, c: nat, ok: bool)
    requires SlotsOk(s.chans, s.bitmap) && CanCtl(s, c) && CtlOk(s.chans[c].ctl, s.chans[c].transfer.None?)
    ensures SlotsOk(DoCtl(s, c, ok).chans, DoCtl(s, c, ok).bitmap)
  {
    hide SlotsOk, Holds, Distinct;
    var s', ch := DoCtl(s, c, ok), s.chans[c];
    if (ch.ctl.Releasing? || ch.ctl.Unwinding?) && ch.ctl.rest != [] {
      SlotFreed(s.chans, s'.chans, s.bitmap, c);
    } else if ch.ctl.Allocating? && |ch.ctl.got| < ch.ctl.periods && FreeSlot(s.bitmap, 0).Some? {
      SlotTaken(s.chans, s'.chans, s.bitmap, c, FreeSlot(s.bitmap, 0).value);
    } else {
      SlotsSame(s.chans, s'.chans, s.bitmap);
    }
  }

  lemma HolderHeld(s: State, l: Label)
    requires Base(s) && HolderLabel(l) && Enabled(s, l)
    ensures Held(HolderEffect(s, l).ch) == Held(s.chans[s.holder.c])
  {
    hide TagsOk, TokenAlone, PendingOk, ReplyOk, GenOk, DutyOk, RingOk;
    var c := s.holder.c;
    assert CtlHolder(ViewOf(s, c).ch.ctl, s.holder, c);
  }

  ghost predicate SameSlots(s: State, s': State) {
    && s'.bitmap == s.bitmap && |s'.chans| == |s.chans|
    && forall c :: 0 <= c < |s.chans| ==> Held(s'.chans[c]) == Held(s.chans[c])
  }

  lemma WorkHeld(s: State)
    requires CanDrain(s, 0)
    requires s.drainers[0].pc.OnIssueReply? || s.drainers[0].pc.OnReport? || s.drainers[0].pc.OnVisible?
    ensures Held(WorkOf(s).ch) == Held(s.chans[s.drainers[0].pc.c])
  {
  }

  lemma DrainHeld(s: State, fail: bool)
    requires OneDrainer(s) && CanDrain(s, 0)
    ensures SameSlots(s, DoDrain(s, 0, fail))
  {
    hide Held, ReplyEffect, ReportEffect, VisibleEffect;
    var s', pc := DoDrain(s, 0, fail), s.drainers[0].pc;
    if pc.OnIssueReply? || pc.OnReport? || pc.OnVisible? {
      WorkHeld(s);
      assert s'.chans == s.chans[pc.c := WorkOf(s).ch];
    } else {
      assert s'.chans == s.chans;
    }
  }

  lemma ClientHeld(s: State, l: Label)
    requires Enabled(s, l) && (l.LCommit? || l.LTake? || l.LStart? || l.LStop?)
    ensures SameSlots(s, Do(s, l))
  {
    var s' := Do(s, l);
    assert Held(s'.chans[l.c]) == Held(s.chans[l.c]);
  }

  lemma Untouched(s: State, s': State)
    requires s'.chans == s.chans && s'.bitmap == s.bitmap
    ensures SameSlots(s, s')
  {
  }

  lemma SeatHeld(s: State, l: Label)
    requires Enabled(s, l) && (l.LPost? || l.LCas? || l.LScan?)
    ensures SameSlots(s, Do(s, l))
  {
    hide SameSlots;
    if l.LPost? { Untouched(s, DoPost(s, l.p)); }
    else if l.LCas? { Untouched(s, DoCas(s, l.owner)); }
    else { Untouched(s, DoScan(s)); }
  }

  lemma OtherHeld(s: State, l: Label)
    requires Base(s) && Enabled(s, l) && !l.LCtl? && !HolderLabel(l)
    ensures SameSlots(s, Do(s, l))
  {
    hide EachOk, LockOk, Held;
    if l.LDrain? { DrainHeld(s, l.fail); }
    else if l.LPost? || l.LCas? || l.LScan? { SeatHeld(s, l); }
    else if l.LCommit? || l.LTake? || l.LStart? || l.LStop? { ClientHeld(s, l); }
  }

  lemma SlotsStep(s: State, l: Label)
    requires Base(s) && SlotsOk(s.chans, s.bitmap) && Enabled(s, l)
    ensures SlotsOk(Do(s, l).chans, Do(s, l).bitmap)
  {
    var s' := Do(s, l);
    if l.LCtl? {
      assert EachOk(ViewOf(s, l.c), l.c);
      CtlSlots(s, l.c, l.ok);
    } else if HolderLabel(l) {
      HolderHeld(s, l);
      SlotsSame(s.chans, s'.chans, s.bitmap);
    } else {
      OtherHeld(s, l);
      SlotsSame(s.chans, s'.chans, s.bitmap);
    }
  }

  // ---- Every reachable state ----

  lemma InitInv(s: State)
    requires Init(s)
    ensures Inv(s)
  {
  }

  lemma InvStep(s: State, l: Label, s': State)
    requires Inv(s) && Next(s, l, s')
    ensures Inv(s') && |s'.chans| == |s.chans|
  {
    BaseStep(s, l);
    MailStep(s, l);
    SlotsStep(s, l);
  }

  lemma {:induction false} RunInv(states: seq<State>, labels: seq<Label>, k: nat)
    requires Run(states, labels) && k < |states|
    ensures Inv(states[k])
    decreases k
  {
    if k == 0 {
      InitInv(states[0]);
    } else {
      RunInv(states, labels, k - 1);
      InvStep(states[k - 1], labels[k - 1], states[k]);
    }
  }

  // ---- Guarantees ----

  /** In every reachable state of every interleaving, whatever firmware sent, a prepared transfer is a ring: since
      its last reset `acked` issues were acknowledged and `reported` reports accepted, the cursors are these counts
      around the ring, at most four and at most a ring's worth are in flight, the issued bits are exactly the
      periods in between, every issued period is still committed, and a pending issue is for a committed period
      firmware does not own. */
  lemma RingRefinement(states: seq<State>, labels: seq<Label>, k: nat, c: nat)
    requires Run(states, labels) && k < |states| && c < |states[k].chans| && states[k].chans[c].transfer.Some?
    ensures var t := states[k].chans[c].transfer.value;
            var n := |t.slots|;
            && 0 < n <= DESC_SLOTS
            && t.reported <= t.acked <= t.reported + MAX_INFLIGHT && t.acked <= t.reported + n
            && t.nextIssue == t.acked % n && t.nextReport == t.reported % n
            && t.inflight == t.acked - t.reported
            && (forall p :: p in t.issued <==> exists i :: t.reported <= i < t.acked && p == i % n)
            && t.issued <= t.committed
            && (t.pending ==> t.nextIssue in t.committed && t.nextIssue !in t.issued && t.inflight < MAX_INFLIGHT)
  {
    RunInv(states, labels, k);
    assert EachOk(ViewOf(states[k], c), c);
  }

  /** The branch of `process_report` that finds a bitmap disagreeing with the cursor is never taken. */
  lemma MismatchUnreachable(states: seq<State>, labels: seq<Label>, k: nat, c: nat)
    requires Run(states, labels) && k < |states| && c < |states[k].chans| && states[k].chans[c].transfer.Some?
    ensures Outcome(states[k].chans[c].transfer.value) != Mismatch
  {
    RunInv(states, labels, k);
    assert EachOk(ViewOf(states[k], c), c);
    ReportKeepsRing(states[k].chans[c].transfer.value);
  }

  /** The three places an issue token can be. */
  datatype Token = WithSender | InTable(tag: int) | WithDrainer

  ghost predicate TokenAt(s: State, c: nat, x: Token)
    requires c < |s.chans| && s.chans[c].transfer.Some?
  {
    match x
    case WithSender => SenderToken(s.holder, c)
    case InTable(tag) => tag in IssueTags(s.tags.entries, c)
    case WithDrainer => IsReply(Pc(s.drainers), c, s.chans[c].transfer.value.generation)
  }

  /** Tokens are never duplicated, `issue_pending` always has its token, and a token without `issue_pending` is a
      reply that overtook a failing send: the channel is in error, or the sender is about to put it there. */
  lemma TokenConservation(states: seq<State>, labels: seq<Label>, k: nat, c: nat)
    requires Run(states, labels) && k < |states| && c < |states[k].chans| && states[k].chans[c].transfer.Some?
    ensures var s := states[k];
            var t := s.chans[c].transfer.value;
            && (forall x, y :: TokenAt(s, c, x) && TokenAt(s, c, y) ==> x == y)
            && (t.pending ==> exists x :: TokenAt(s, c, x))
            && (!s.chans[c].error && !Failing(s.holder, c) ==> (t.pending <==> exists x :: TokenAt(s, c, x)))
            && (forall x :: TokenAt(s, c, x) && !t.pending ==> x == WithDrainer && CanIssue(t))
  {
    var s := states[k];
    RunInv(states, labels, k);
    var v := ViewOf(s, c);
    assert EachOk(v, c);
    var t := s.chans[c].transfer.value;
    if t.pending {
      if SenderToken(s.holder, c) { assert TokenAt(s, c, WithSender); }
      else if IsReply(v.pc, c, t.generation) { assert TokenAt(s, c, WithDrainer); }
      else {
        var tag :| v.m == map[tag := t.generation];
        assert TokenAt(s, c, InTable(tag));
      }
    }
  }

  /** No Issue tag survives a stop: from its reset on the channel has none, nor a reply of its transfer. */
  lemma StopLeavesNoTag(states: seq<State>, labels: seq<Label>, k: nat, c: nat)
    requires Run(states, labels) && k < |states| && c < |states[k].chans|
    requires AfterReset(states[k].chans[c].ctl, states[k].holder, c)
    ensures IssueTags(states[k].tags.entries, c) == map[]
    ensures states[k].chans[c].transfer.Some? ==>
              !states[k].chans[c].transfer.value.pending
              && !IsReply(Pc(states[k].drainers), c, states[k].chans[c].transfer.value.generation)
  {
    RunInv(states, labels, k);
    assert EachOk(ViewOf(states[k], c), c);
  }

  /** Every Issue tag in the table is of the current generation of its channel. */
  lemma TagsAreCurrent(states: seq<State>, labels: seq<Label>, k: nat, c: nat, tag: int)
    requires Run(states, labels) && k < |states| && c < |states[k].chans|
    requires tag in IssueTags(states[k].tags.entries, c)
    ensures states[k].chans[c].transfer.Some?
    ensures IssueTags(states[k].tags.entries, c)[tag] == states[k].chans[c].transfer.value.generation
  {
    RunInv(states, labels, k);
    assert EachOk(ViewOf(states[k], c), c);
  }

  /** No issue is lost: when the next period could be sent, the worker flag is set or a thread still has to set it
      or to send. */
  lemma NoLostIssue(states: seq<State>, labels: seq<Label>, k: nat, c: nat)
    requires Run(states, labels) && k < |states| && c < |states[k].chans| && Ready(states[k].chans[c])
    ensures var s := states[k];
            Duty(s.flag, s.kicks, Pc(s.drainers), s.worker, s.holder, c, s.chans[c].transfer.value.generation)
  {
    RunInv(states, labels, k);
    assert EachOk(ViewOf(states[k], c), c);
  }

  /** When nobody is at work and nothing is flagged, no channel has anything it could send. */
  lemma QuietMeansIdle(states: seq<State>, labels: seq<Label>, k: nat, c: nat)
    requires Run(states, labels) && k < |states| && c < |states[k].chans|
    requires var s := states[k];
             !s.flag && s.kicks == 0 && s.drainers == [] && s.worker == Asleep && s.holder == NoHolder
    ensures !Ready(states[k].chans[c])
  {
    if Ready(states[k].chans[c]) { NoLostIssue(states, labels, k, c); }
  }

  /** At most one thread drains, exactly while `draining` is set; and unless a receive failed, mail in the box means
      the worker flag, an undelivered interrupt, a drainer, or a thread that has yet to make its final check or to
      try the compare-exchange. */
  lemma DrainHandoff(states: seq<State>, labels: seq<Label>, k: nat)
    requires Run(states, labels) && k < |states|
    ensures |states[k].drainers| == (if states[k].draining then 1 else 0)
    ensures states[k].mail != [] && !states[k].rxFailed ==> MailWatched(states[k])
  {
    RunInv(states, labels, k);
  }

  /** The channel is between releasing or allocating descriptors. */
  predicate SlotsMoving(ctl: Ctl) {
    ctl.Releasing? || ctl.Allocating? || ctl.Unwinding? || ctl.Publish?
  }

  /** Outside a prepare or release in progress the descriptor bitmap is the disjoint union of the transfers' slots,
      after failed prepares and failed stops as well. */
  lemma DescriptorsAccounted(states: seq<State>, labels: seq<Label>, k: nat)
    requires Run(states, labels) && k < |states|
    requires forall c :: 0 <= c < |states[k].chans| ==> !SlotsMoving(states[k].chans[c].ctl)
    ensures forall b :: b in states[k].bitmap <==>
                        exists c :: 0 <= c < |states[k].chans| && HasSlot(states[k].chans[c], b)
    ensures forall b, c, d :: (0 <= c < |states[k].chans| && 0 <= d < |states[k].chans|
                               && HasSlot(states[k].chans[c], b) && HasSlot(states[k].chans[d], b)) ==> c == d
    ensures forall c :: 0 <= c < |states[k].chans| && states[k].chans[c].transfer.Some? ==>
                          Distinct(states[k].chans[c].transfer.value.slots)
  {
    var s := states[k];
    RunInv(states, labels, k);
    assert forall c :: 0 <= c < |s.chans| ==> Held(s.chans[c]) == if s.chans[c].transfer.Some? then s.chans[c].transfer.value.slots else [];
    assert forall c, b :: 0 <= c < |s.chans| ==> (HasSlot(s.chans[c], b) <==> Holds(s.chans, c, b));
  }

  predicate HasSlot(ch: Channel, b: nat) {
    ch.transfer.Some? && b in ch.transfer.value.slots
  }
}
