/** Exactly when `issue_pending` and the issue token part, against a firmware that may send anything. */
module SioTokens {
  import opened SioTags
  import opened SioTransfer
  import opened SioSystem
  import opened SioInvariant
  import opened SioHolderProofs
  import opened SioSteps
  import opened SioTheorems

  /** `issue_pending` of channel c holds exactly when its token exists. */
  predicate Agrees(s: State, c: nat) {
    && c < |s.chans|
    && (s.chans[c].transfer.Some? ==>
          (s.chans[c].transfer.value.pending <==>
           HasToken(IssueTags(s.tags.entries, c), s.holder, Pc(s.drainers), c, s.chans[c].transfer.value.generation)))
  }

  /** A sender takes its claim back while the reply to it is being processed. */
  predicate RefusedUnderReply(s: State, l: Label, c: nat) {
    && c < |s.chans| && l.LSend? && s.holder.Sending? && s.holder.c == c && s.holder.spc.AtUndo?
    && s.chans[c].transfer.Some? && IsReply(Pc(s.drainers), c, s.chans[c].transfer.value.generation)
  }

  /** The one way for them to part. */
  predicate Orphaned(ch: Channel, pc: DrainPc, c: nat) {
    ch.transfer.Some? && !ch.transfer.value.pending && IsReply(pc, c, ch.transfer.value.generation)
  }

  lemma AgreesIff(s: State, c: nat)
    requires Inv(s) && c < |s.chans|
    ensures Agrees(s, c) <==> !Orphaned(s.chans[c], Pc(s.drainers), c)
  {
    assert EachOk(ViewOf(s, c), c);
  }

  // ---- What each kind of step does to it ----

  lemma SendOrphans(v: View, e: Effect, ok: bool, c: nat)
    requires Acts(v, e, c) && e.holder.Sending? && !Orphaned(v.ch, v.pc, c)
    ensures Orphaned(SendEffect(e, ok).ch, v.pc, c) <==>
            e.holder.spc.AtUndo? && v.ch.transfer.Some? && IsReply(v.pc, c, v.ch.transfer.value.generation)
  {
  }

  lemma StartOrphans(v: View, e: Effect, c: nat)
    requires Acts(v, e, c) && e.holder.Starting? && !Orphaned(v.ch, v.pc, c)
    ensures !Orphaned(StartEffect(e).ch, v.pc, c)
  {
  }

  /** A reset takes a generation no reply in processing can have. */
  lemma StopOrphans(v: View, e: Effect, ok: bool, c: nat)
    requires Acts(v, e, c) && e.holder.Stopping? && !Orphaned(v.ch, v.pc, c)
    requires e.holder.ppc.StopAwait? ==> e.holder.ppc.tag < TAGS
    ensures !Orphaned(StopEffect(e, ok).ch, v.pc, c)
  {
  }

  /** So does a prepare. */
  lemma CtlOrphans(v: View, bitmap: set<nat>, ok: bool, c: nat)
    requires EachOk(v, c) && CtlActive(v.ch.ctl) && !Orphaned(v.ch, v.pc, c)
    ensures !Orphaned(CtlStep(v.ch, bitmap, ok).ch, v.pc, c)
  {
  }

  lemma HolderOrphans(s: State, l: Label, c: nat)
    requires Base(s) && Enabled(s, l) && HolderLabel(l) && c < |s.chans| && !Orphaned(s.chans[c], Pc(s.drainers), c)
    ensures var s' := Do(s, l);
            |s'.chans| == |s.chans| && (Orphaned(s'.chans[c], Pc(s'.drainers), c) <==> RefusedUnderReply(s, l, c))
  {
    hide EachOk, SendEffect, StartEffect, StopEffect, Orphaned;
    var v, e := ViewOf(s, c), HolderView(s);
    assert Do(s, l) == Apply(s, HolderEffect(s, l));
    if s.holder.c == c {
      match l
      case LSend(ok) => SendOrphans(v, e, ok, c);
      case LStartStep => StartOrphans(v, e, c);
      case LStopStep(ok) => StopOrphans(v, e, ok, c);
    }
  }

  /** The drainer comes to a reply only by taking its tag off the table, which leaves it pending. */
  lemma DrainOrphans(s: State, i: nat, fail: bool, c: nat)
    requires Base(s) && CanDrain(s, i) && c < |s.chans|
    ensures var s' := DoDrain(s, i, fail);
            |s'.chans| == |s.chans| && !Orphaned(s'.chans[c], Pc(s'.drainers), c)
  {
    hide EachOk, DoDrain, LockOk;
    var pc := s.drainers[0].pc;
    DrainFrame(s, i, fail);
    if pc.OnReply? {
      if s.tags.entries[pc.tag].Issue? && s.tags.entries[pc.tag].channel == c { TagIsPending(s, pc.tag, c); }
    } else if pc.OnIssueReply? || pc.OnReport? || pc.OnVisible? { WorkFrame(s, fail); }
    else { MovesOn(s, fail); }
  }

  /** Nobody else touches the flag, the generation or the drainer. */
  lemma ElsewhereOrphans(s: State, l: Label, c: nat)
    requires Base(s) && Enabled(s, l) && !l.LDrain? && !HolderLabel(l) && !(l.LCtl? && l.c == c) && c < |s.chans|
    ensures var s' := Do(s, l);
            |s'.chans| == |s.chans|
            && (Orphaned(s'.chans[c], Pc(s'.drainers), c) <==> Orphaned(s.chans[c], Pc(s.drainers), c))
  {
    hide EachOk, LockOk, OneDrainer;
    if !l.LArrive? { MailFrame(s, l); }
    if Bystander(l) {
      BystanderFrame(s, l);
      if l.LPost? { PostFrame(s, l.p); }
    }
  }

  lemma CtlStepOrphans(s: State, c: nat, ok: bool)
    requires Base(s) && CanCtl(s, c) && !Orphaned(s.chans[c], Pc(s.drainers), c)
    ensures var s' := DoCtl(s, c, ok);
            |s'.chans| == |s.chans| && !Orphaned(s'.chans[c], Pc(s'.drainers), c)
  {
    hide EachOk, CtlStep, Orphaned;
    CtlOrphans(ViewOf(s, c), s.bitmap, ok, c);
  }

  // ---- Guarantees ----

  /** One step parts the flag from its token exactly if a sender takes its claim back under the reply to it. */
  lemma StepAgreesIff(s: State, l: Label, s': State, c: nat)
    requires Inv(s) && Next(s, l, s') && c < |s.chans| && Agrees(s, c)
    ensures Inv(s') && |s'.chans| == |s.chans|
    ensures Agrees(s', c) <==> !RefusedUnderReply(s, l, c)
  {
    hide Agrees, Orphaned, EachOk, LockOk, OneDrainer, MailOk, SlotsOk, Do;
    InvStep(s, l, s');
    AgreesIff(s, c);
    AgreesIff(s', c);
    if HolderLabel(l) { HolderOrphans(s, l, c); }
    else { OthersAgree(s, l, c); }
  }

  lemma OthersAgree(s: State, l: Label, c: nat)
    requires Base(s) && Enabled(s, l) && !HolderLabel(l) && c < |s.chans| && !Orphaned(s.chans[c], Pc(s.drainers), c)
    ensures |Do(s, l).chans| == |s.chans| && !Orphaned(Do(s, l).chans[c], Pc(Do(s, l).drainers), c)
  {
    hide Orphaned, EachOk, LockOk, OneDrainer, DoDrain, DoCtl;
    if l.LDrain? { DrainOrphans(s, l.i, l.fail, c); }
    else if l.LCtl? && l.c == c { CtlStepOrphans(s, c, l.ok); }
    else { ElsewhereOrphans(s, l, c); }
  }

  lemma {:induction false} PrefixAgreesIff(states: seq<State>, labels: seq<Label>, c: nat, k: nat)
    requires Run(states, labels) && c < |states[0].chans| && k < |states|
    ensures (forall i :: 0 <= i <= k ==> Agrees(states[i], c))
       <==> (forall i :: 0 <= i < k ==> !RefusedUnderReply(states[i], labels[i], c))
    decreases k
  {
    hide Agrees, RefusedUnderReply, Init, Inv, Do, Enabled;
    if k == 0 {
      StartAgrees(states[0], c);
    } else {
      PrefixAgreesIff(states, labels, c, k - 1);
      RunInv(states, labels, k - 1);
      if Agrees(states[k - 1], c) {
        HasChannel(states[k - 1], c);
        StepAgreesIff(states[k - 1], labels[k - 1], states[k], c);
      }
    }
  }

  lemma StartAgrees(s: State, c: nat)
    requires Init(s) && c < |s.chans|
    ensures Agrees(s, c)
  {
    InitInv(s);
    AgreesIff(s, c);
  }

  lemma HasChannel(s: State, c: nat)
    requires Agrees(s, c)
    ensures c < |s.chans|
  {
  }

  /** Against a firmware that may send anything, `issue_pending` and the token agree in every state of a run exactly
      if in no step of it a sender takes its claim back while the reply to it is being processed. */
  lemma RunAgreesIff(states: seq<State>, labels: seq<Label>, c: nat)
    requires Run(states, labels) && c < |states[0].chans|
    ensures (forall i :: 0 <= i < |states| ==> Agrees(states[i], c))
       <==> (forall i :: 0 <= i < |labels| ==> !RefusedUnderReply(states[i], labels[i], c))
  {
    PrefixAgreesIff(states, labels, c, |labels|);
  }
}
