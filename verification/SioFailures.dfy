/** A transfer is terminated only by a stop or together with an error of its channel, so that after a refusal by
    firmware nothing runs on the old ring until a stop has reset it. */
module SioFailures {
  import opened SioTags
  import opened SioTransfer
  import opened SioSystem
  import opened SioInvariant
  import opened SioHolderProofs
  import opened SioDrainProofs
  import opened SioSteps
  import opened SioTheorems

  predicate Doomed(ch: Channel) {
    ch.transfer.Some? && ch.transfer.value.terminated
  }

  /** Terminated, while the channel is not in error and no sender is about to put it there. */
  predicate Unexcused(ch: Channel, h: Holder, c: nat) {
    Doomed(ch) && !ch.error && !Failing(h, c)
  }

  /** After its reset, and until the error flag is cleared, a transfer is not terminated. */
  predicate Cleared(ch: Channel, h: Holder, c: nat) {
    AfterReset(ch.ctl, h, c) ==> !Doomed(ch)
  }

  /** The error flag is cleared only after a reset, and over no terminated transfer. */
  predicate ErrorStays(ch: Channel, h: Holder, ch': Channel, c: nat) {
    ch.error && !ch'.error ==> AfterReset(ch.ctl, h, c) && !Doomed(ch')
  }

  /** A stop of channel c marks its transfer. */
  predicate StopMarks(s: State, l: Label, c: nat) {
    l.LStopStep? && s.holder.Stopping? && s.holder.c == c && s.holder.ppc.StopMark?
  }

  // ---- What each kind of step does to it ----

  lemma SendFails(v: View, e: Effect, ok: bool, c: nat)
    requires Acts(v, e, c) && e.holder.Sending? && Cleared(v.ch, v.h, c)
    ensures var e' := SendEffect(e, ok);
            && Cleared(e'.ch, e'.holder, c) && (Unexcused(e'.ch, e'.holder, c) ==> Unexcused(v.ch, v.h, c))
            && ErrorStays(v.ch, v.h, e'.ch, c)
  {
  }

  lemma StartFails(v: View, e: Effect, c: nat)
    requires Acts(v, e, c) && e.holder.Starting? && Cleared(v.ch, v.h, c)
    ensures var e' := StartEffect(e);
            && Cleared(e'.ch, e'.holder, c) && (Unexcused(e'.ch, e'.holder, c) ==> Unexcused(v.ch, v.h, c))
            && ErrorStays(v.ch, v.h, e'.ch, c)
  {
  }

  lemma StopFails(v: View, e: Effect, ok: bool, c: nat)
    requires Acts(v, e, c) && e.holder.Stopping? && Cleared(v.ch, v.h, c)
    requires e.holder.ppc.StopAwait? ==> e.holder.ppc.tag < TAGS
    ensures var e' := StopEffect(e, ok);
            && Cleared(e'.ch, e'.holder, c)
            && (Unexcused(e'.ch, e'.holder, c) && !e.holder.ppc.StopMark? ==> Unexcused(v.ch, v.h, c))
            && ErrorStays(v.ch, v.h, e'.ch, c)
  {
  }

  lemma CtlFails(v: View, bitmap: set<nat>, ok: bool, c: nat)
    requires EachOk(v, c) && CtlActive(v.ch.ctl) && Cleared(v.ch, v.h, c)
    ensures var ch := CtlStep(v.ch, bitmap, ok).ch;
            && Cleared(ch, v.h, c) && (Unexcused(ch, v.h, c) ==> Unexcused(v.ch, v.h, c))
            && ErrorStays(v.ch, v.h, ch, c)
  {
  }

  /** A refusal puts the channel in error, and a report never terminates anything. */
  lemma WorkFails(v: View, e: DrainEffect, c: nat)
    requires EachOk(v, c) && PcOn(v.pc, c) && Cleared(v.ch, v.h, c)
    requires match v.pc
             case OnIssueReply(_, g, ok) => e == ReplyEffect(v.ch, g, ok)
             case OnReport(_) => e == ReportEffect(v.ch, c)
             case OnVisible(_, more) => e == VisibleEffect(v.ch, c, more)
             case _ => false
    ensures Cleared(e.ch, v.h, c) && (Unexcused(e.ch, v.h, c) ==> Unexcused(v.ch, v.h, c))
    ensures ErrorStays(v.ch, v.h, e.ch, c)
  {
    if v.pc.OnReport? && v.ch.transfer.Some? {
      ReportKeepsRing(v.ch.transfer.value);
    }
  }

  /** The same transfer but for what it has committed, the same error, and nothing that begins a reset. */
  lemma ElsewhereFails(s: State, l: Label, c: nat)
    requires Base(s) && Enabled(s, l) && !l.LDrain? && !HolderLabel(l) && !(l.LCtl? && l.c == c) && c < |s.chans|
    requires Cleared(s.chans[c], s.holder, c)
    ensures var s' := Do(s, l);
            && |s'.chans| == |s.chans| && Cleared(s'.chans[c], s'.holder, c)
            && (Unexcused(s'.chans[c], s'.holder, c) ==> Unexcused(s.chans[c], s.holder, c))
            && ErrorStays(s.chans[c], s.holder, s'.chans[c], c)
  {
    hide EachOk, TagLocksOk, OneDrainer;
    if Bystander(l) {
      BystanderFrame(s, l);
      if l.LPost? { PostFrame(s, l.p); }
    }
  }

  lemma HolderFails(s: State, l: Label, c: nat)
    requires Base(s) && Enabled(s, l) && HolderLabel(l) && c < |s.chans| && Cleared(s.chans[c], s.holder, c)
    ensures var s' := Do(s, l);
            && |s'.chans| == |s.chans| && Cleared(s'.chans[c], s'.holder, c)
            && (Unexcused(s'.chans[c], s'.holder, c) ==> Unexcused(s.chans[c], s.holder, c) || StopMarks(s, l, c))
            && ErrorStays(s.chans[c], s.holder, s'.chans[c], c)
  {
    hide EachOk, SendEffect, StartEffect, StopEffect;
    var v, e := ViewOf(s, c), HolderView(s);
    assert Do(s, l) == Apply(s, HolderEffect(s, l));
    if s.holder.c == c {
      match l
      case LSend(ok) => SendFails(v, e, ok, c);
      case LStartStep => StartFails(v, e, c);
      case LStopStep(ok) => StopFails(v, e, ok, c);
    } else {
      HolderTagsElsewhere(s, l, c);
    }
  }

  lemma DrainFails(s: State, i: nat, fail: bool, c: nat)
    requires Base(s) && CanDrain(s, i) && c < |s.chans| && Cleared(s.chans[c], s.holder, c)
    ensures var s' := DoDrain(s, i, fail);
            && |s'.chans| == |s.chans| && Cleared(s'.chans[c], s'.holder, c)
            && (Unexcused(s'.chans[c], s'.holder, c) ==> Unexcused(s.chans[c], s.holder, c))
            && ErrorStays(s.chans[c], s.holder, s'.chans[c], c)
  {
    hide EachOk, DoDrain, LockOk, Cleared, Unexcused, AfterReset, ReplyEffect, ReportEffect, VisibleEffect;
    var pc := s.drainers[0].pc;
    DrainFrame(s, i, fail);
    if pc.OnIssueReply? || pc.OnReport? || pc.OnVisible? {
      WorkFrame(s, fail);
      if pc.c == c { WorkFails(ViewOf(s, c), WorkOf(s), c); }
    }
  }

  lemma CtlStepFails(s: State, c: nat, ok: bool)
    requires Base(s) && CanCtl(s, c) && Cleared(s.chans[c], s.holder, c)
    ensures var s' := DoCtl(s, c, ok);
            && |s'.chans| == |s.chans| && Cleared(s'.chans[c], s'.holder, c)
            && (Unexcused(s'.chans[c], s'.holder, c) ==> Unexcused(s.chans[c], s.holder, c))
            && ErrorStays(s.chans[c], s.holder, s'.chans[c], c)
  {
    hide EachOk, CtlStep, Cleared, Unexcused, ErrorStays;
    CtlFails(ViewOf(s, c), s.bitmap, ok, c);
  }

  lemma StepFails(s: State, l: Label, c: nat)
    requires Base(s) && Enabled(s, l) && c < |s.chans| && Cleared(s.chans[c], s.holder, c)
    ensures var s' := Do(s, l);
            && |s'.chans| == |s.chans| && Cleared(s'.chans[c], s'.holder, c)
            && (Unexcused(s'.chans[c], s'.holder, c) ==> Unexcused(s.chans[c], s.holder, c) || StopMarks(s, l, c))
            && ErrorStays(s.chans[c], s.holder, s'.chans[c], c)
  {
    hide EachOk, LockOk, OneDrainer, DoDrain, DoCtl, Cleared, Unexcused, StopMarks, ErrorStays;
    if HolderLabel(l) { HolderFails(s, l, c); }
    else if l.LDrain? { DrainFails(s, l.i, l.fail, c); }
    else if l.LCtl? && l.c == c { CtlStepFails(s, c, l.ok); }
    else { ElsewhereFails(s, l, c); }
  }

  // ---- Guarantees ----

  /** From state `j + 1` to state `k` the channel has a terminated transfer. */
  ghost predicate DoomedSince(states: seq<State>, c: nat, j: int, k: nat) {
    k < |states| && forall i :: 0 <= j < i <= k ==> c < |states[i].chans| && Doomed(states[i].chans[c])
  }

  ghost predicate MarkedByStop(states: seq<State>, labels: seq<Label>, c: nat, k: nat) {
    exists j :: 0 <= j < k && j < |labels| && j < |states| && StopMarks(states[j], labels[j], c) && DoomedSince(states, c, j, k)
  }

  lemma {:induction false} RunFails(states: seq<State>, labels: seq<Label>, k: nat, c: nat)
    requires Run(states, labels) && k < |states| && c < |states[0].chans|
    ensures c < |states[k].chans| && Cleared(states[k].chans[c], states[k].holder, c)
    ensures Unexcused(states[k].chans[c], states[k].holder, c) ==> MarkedByStop(states, labels, c, k)
    decreases k
  {
    hide Inv, Do, Enabled, Cleared, StopMarks, Failing;
    if k == 0 {
      StartCleared(states[0], c);
    } else {
      RunFails(states, labels, k - 1, c);
      RunInv(states, labels, k - 1);
      var s, l, s' := states[k - 1], labels[k - 1], states[k];
      InvBase(s);
      assert Next(s, l, s');
      StepFails(s, l, c);
      if Unexcused(s'.chans[c], s'.holder, c) {
        if StopMarks(s, l, c) {
          assert DoomedSince(states, c, k - 1, k);
        } else {
          var j :| 0 <= j < k - 1 && j < |labels| && StopMarks(states[j], labels[j], c) && DoomedSince(states, c, j, k - 1);
          assert DoomedSince(states, c, j, k);
        }
      }
    }
  }

  lemma StartCleared(s: State, c: nat)
    requires Init(s) && c < |s.chans|
    ensures Cleared(s.chans[c], s.holder, c) && !Unexcused(s.chans[c], s.holder, c)
  {
  }

  lemma InvBase(s: State)
    requires Inv(s)
    ensures Base(s)
  {
  }

  /** In every run, for any firmware: a transfer that is terminated has its channel in error, or a sender about to put
      it there, or a stop has marked it and it has been terminated ever since. */
  lemma TerminatedHasCause(states: seq<State>, labels: seq<Label>, k: nat, c: nat)
    requires Run(states, labels) && k < |states| && c < |states[0].chans|
    ensures c < |states[k].chans|
    ensures Doomed(states[k].chans[c]) ==>
              || states[k].chans[c].error || Failing(states[k].holder, c)
              || MarkedByStop(states, labels, c, k)
  {
    hide MarkedByStop;
    RunFails(states, labels, k, c);
  }

  /** And the error flag, once set, is cleared only after the transfer has been reset or replaced. */
  lemma ErrorClearedAfterReset(states: seq<State>, labels: seq<Label>, k: nat, c: nat)
    requires Run(states, labels) && k < |labels| && c < |states[0].chans|
    ensures c < |states[k].chans| && c < |states[k + 1].chans|
    ensures states[k].chans[c].error && !states[k + 1].chans[c].error ==>
              AfterReset(states[k].chans[c].ctl, states[k].holder, c) && !Doomed(states[k + 1].chans[c])
  {
    hide Inv, Do, Enabled, Cleared, StopMarks, Unexcused, MarkedByStop, AfterReset;
    RunFails(states, labels, k, c);
    RunInv(states, labels, k);
    InvBase(states[k]);
    assert Next(states[k], labels[k], states[k + 1]);
    StepFails(states[k], labels[k], c);
  }
}
