/** Every step of the holder of the issue lock keeps the invariant of its own channel and of every other. */
module SioHolderProofs {
  import opened Wrappers
  import opened SioTags
  import opened SioTransfer
  import opened SioSystem
  import opened SioInvariant

  lemma AllocTags(t: Table, kind: Kind, c: nat)
    requires TableOk(t) && Find(t).Some? && kind != Free
    ensures TableOk(Allocate(t, kind))
    ensures 1 <= Find(t).value < TAGS && Find(t).value as int !in IssueTags(t.entries, c)
    ensures IssueTags(Allocate(t, kind).entries, c) ==
            if kind.Issue? && kind.channel == c then IssueTags(t.entries, c)[Find(t).value as int := kind.generation]
            else IssueTags(t.entries, c)
  {
  }

  lemma ReleaseTags(t: Table, tag: nat, c: nat)
    requires TableOk(t)
    ensures TableOk(Release(t, tag))
    ensures IssueTags(Release(t, tag).entries, c) == IssueTags(t.entries, c) - {tag as int}
    ensures tag < TAGS && !(t.entries[tag].Issue? && t.entries[tag].channel == c) ==>
              IssueTags(Release(t, tag).entries, c) == IssueTags(t.entries, c)
  {
  }

  predicate OtherDuty(v: View, c: nat, g: nat) {
    v.flag || v.kicks > 0 || KickPc(v.pc) || WorkerDuty(v.w, c, g)
  }

  /** What channel c sees of a step taken for somebody else. */
  ghost predicate Foreign(v: View, v': View, c: nat) {
    && v'.ch == v.ch && v'.m == v.m
    && (HolderIs(v.h, c) || HolderIs(v'.h, c) ==> v'.h == v.h)
    && ((v.pc.OnIssueReply? && v.pc.c == c) || (v'.pc.OnIssueReply? && v'.pc.c == c) ==> v'.pc == v.pc)
    && (v.ch.transfer.Some? && OtherDuty(v, c, v.ch.transfer.value.generation) ==>
          OtherDuty(v', c, v.ch.transfer.value.generation))
  }

  lemma ForeignKept(v: View, v': View, c: nat)
    requires EachOk(v, c) && Foreign(v, v', c)
    ensures EachOk(v', c)
  {
  }

  function AfterEffect(v: View, e: Effect, c: nat): View {
    v.(ch := e.ch, m := IssueTags(e.tags.entries, c), h := e.holder,
       w := if v.w.InSend? && e.holder.NoHolder? then Scan(v.w.c + 1) else v.w)
  }

  /** `e` is the lock holder at work on channel c, which sees it as `v`. */
  ghost predicate Acts(v: View, e: Effect, c: nat) {
    && HolderIs(e.holder, c)
    && v.ch == e.ch && v.h == e.holder && v.m == IssueTags(e.tags.entries, c)
    && TagLocksOk(e.tags, e.holder, e.tx)
    && WorkerLockOk(v.w, e.holder)
    && EachOk(v, c)
  }

  ghost predicate Kept(v: View, e: Effect, e': Effect, c: nat) {
    && EachOk(AfterEffect(v, e', c), c)
    && TagLocksOk(e'.tags, e'.holder, e'.tx)
    && WorkerLockOk(AfterEffect(v, e', c).w, e'.holder)
  }

  lemma SendLoads(v: View, e: Effect, ok: bool, c: nat)
    requires Acts(v, e, c) && e.holder.Sending? && (e.holder.spc == AtRunning || e.holder.spc == AtError)
    ensures Kept(v, e, SendEffect(e, ok), c)
  {
  }

  lemma SendClaims(v: View, e: Effect, ok: bool, c: nat)
    requires Acts(v, e, c) && e.holder.Sending? && e.holder.spc == AtClaim
    ensures Kept(v, e, SendEffect(e, ok), c)
  {
    var e', t := SendEffect(e, ok), e.ch.transfer.value;
    if Claimable(t, e.holder.g) { assert Kept(v, e, e', c); }
    else if e.holder.starter { assert Kept(v, e, e', c); }
    else { assert Kept(v, e, e', c); }
  }

  lemma SendTags(v: View, e: Effect, ok: bool, c: nat)
    requires Acts(v, e, c) && e.holder.Sending? && e.holder.spc == AtTag && e.tx == TxFree
    ensures Kept(v, e, SendEffect(e, ok), c)
  {
    if Find(e.tags).Some? {
      AllocTags(e.tags, Issue(c, e.holder.g), c);
    }
  }

  lemma SendSends(v: View, e: Effect, ok: bool, c: nat)
    requires Acts(v, e, c) && e.holder.Sending? && SendTag(e.holder.spc)
    ensures Kept(v, e, SendEffect(e, ok), c)
  {
    var tag := e.holder.spc.tag;
    if e.holder.spc.AtFree? {
      ReleaseTags(e.tags, tag, c);
      assert IssueTags(e.tags.entries, c) - {tag as int} == map[];
    }
  }

  lemma SendUndoes(v: View, e: Effect, ok: bool, c: nat)
    requires Acts(v, e, c) && e.holder.Sending?
    requires e.holder.spc.AtUndo? || e.holder.spc.AtSetError? || e.holder.spc.AtClearRunning? || e.holder.spc.AtStarterFail?
    ensures Kept(v, e, SendEffect(e, ok), c)
  {
  }

  lemma StartKept(v: View, e: Effect, c: nat)
    requires Acts(v, e, c) && e.holder.Starting?
    ensures Kept(v, e, StartEffect(e), c)
  {
    if e.holder.tpc.StartClear? && e.ch.transfer.Some? {
      assert Ring(Restarted(e.ch.transfer.value));
    }
  }

  lemma StopMarks(v: View, e: Effect, ok: bool, c: nat)
    requires Acts(v, e, c) && e.holder.Stopping? && !Halted(e.holder.ppc)
    ensures Kept(v, e, StopEffect(e, ok), c)
  {
    if e.ch.transfer.Some? {
      var t := e.ch.transfer.value;
      assert Ring(t.(terminated := NeedsTerminate(t, e.ch.running)));
    }
  }

  lemma StopCalls(v: View, e: Effect, ok: bool, c: nat)
    requires Acts(v, e, c) && e.holder.Stopping?
    requires (e.holder.ppc.StopTag? && e.tx == TxFree) || e.holder.ppc.StopSend? || e.holder.ppc.StopFree? || e.holder.ppc.StopAwait?
    ensures Kept(v, e, StopEffect(e, ok), c)
  {
    hide Ring, CanIssue;
    var ppc := e.holder.ppc;
    if ppc.StopTag? {
      if Find(e.tags).Some? { AllocTags(e.tags, Sync(None), c); }
    } else {
      ReleaseTags(e.tags, ppc.tag, c);
    }
  }

  lemma StopResets(v: View, e: Effect, ok: bool, c: nat)
    requires Acts(v, e, c) && e.holder.Stopping?
    requires e.holder.ppc.StopDrain? || e.holder.ppc.StopReset? || e.holder.ppc.StopZero? || e.holder.ppc.StopClear?
    ensures Kept(v, e, StopEffect(e, ok), c)
  {
    if e.ch.transfer.Some? {
      ResetKeepsRing(e.ch.transfer.value, e.ch.nextGen + 1);
    }
  }
}
