/** The states a channel goes through under its audio client: idle since its last reset, streaming, or terminated. */
module DpAudioChannel {
  import opened Wrappers
  import opened SioTransfer
  import opened SioSystem
  import opened SioInvariant
  import opened DpAudioView

  /** What the engine's invariant says of the channel. */
  ghost predicate Facts(x: Local, c: nat) {
    && ChanOk(x.ch, x.h, c)
    && RingOk(x.ch.transfer)
    && ReplyOk(x.ch, x.h, x.pc, c)
    && (x.h.Sending? && Claimed(x.h.spc) ==> x.ch.transfer.Some? && x.h.g == x.ch.transfer.value.generation)
    && (x.h == NoHolder || HolderIs(x.h, c))
    && OwnPc(x.pc, c) == x.pc
    && (x.answered ==> x.h.Stopping? && (x.h.ppc.StopSend? || x.h.ppc.StopFree? || x.h.ppc.StopAwait?))
  }

  lemma FactsHold(s: State, c: nat)
    requires c < |s.chans| && EachOk(ViewOf(s, c), c)
    ensures Facts(LocalOf(s, c), c)
  {
  }

  /** Nothing has been sent since the last reset, and nothing is on its way. */
  ghost predicate CleanIdle(x: Local, c: nat) {
    && x.ch.transfer.Some? && !x.ch.running
    && Untouched(x.ch.transfer.value) && !IsReply(x.pc, c, x.ch.transfer.value.generation)
    && !x.pc.OnVisible?
    && (x.h.Sending? ==> x.h.spc == AtRunning)
    && (x.ch.error ==> AfterReset(x.ch.ctl, x.h, c))
  }

  predicate Untouched(t: Transfer) {
    !t.terminated && !t.pending && t.acked == 0
  }

  predicate Terminated(ch: Channel) {
    ch.transfer.Some? && ch.transfer.value.terminated
  }

  predicate Streaming(ch: Channel) {
    ch.running && !ch.error
  }

  ghost predicate Core(x: Local, c: nat) {
    x.ch.transfer.Some? ==> Terminated(x.ch) || Streaming(x.ch) || CleanIdle(x, c)
  }

  /** Past its answer, or past the point where it needs none, a stop meets no report that is half counted. */
  predicate PastAnswer(x: Local) {
    || x.answered || Quiet(x.ch.ctl)
    || (x.h.Stopping? && (x.h.ppc == StopHalt(false) || x.h.ppc.StopDrain? || x.h.ppc.StopReset? || x.h.ppc.StopZero?
                          || x.h.ppc.StopClear?))
  }

  predicate VisibleOk(x: Local) {
    x.pc.OnVisible? ==> x.ch.transfer.Some? && (x.ch.running || Terminated(x.ch)) && !PastAnswer(x)
  }

  /** A sender that failed has terminated the transfer, and puts the channel in error before it stops it. */
  predicate FailureOk(x: Local) {
    x.h.Sending? && x.ch.transfer.Some? ==>
      && (x.h.spc.AtSetError? || x.h.spc.AtClearRunning? || x.h.spc.AtStarterFail? ==> Terminated(x.ch))
      && (x.h.spc.AtClearRunning? || x.h.spc.AtStarterFail? ==> x.ch.error)
  }

  ghost predicate StartOk(x: Local, c: nat) {
    x.h.Starting? && x.ch.transfer.Some? ==> (x.ch.error && x.h.tpc.StartError?) || CleanIdle(x, c)
  }

  ghost predicate StopOk(x: Local, c: nat) {
    x.h.Stopping? && x.ch.transfer.Some? ==>
      match x.h.ppc
      case StopMark => true
      case StopHalt(needs) => if needs then Terminated(x.ch) else CleanIdle(x, c)
      case StopReset => Terminated(x.ch) || CleanIdle(x, c)
      case StopZero => CleanIdle(x, c)
      case StopClear => CleanIdle(x, c)
      case _ => Terminated(x.ch)
  }

  /** Without a transfer a stop ends at its first step. */
  predicate StopHasTransfer(x: Local) {
    x.h.Stopping? && !x.h.ppc.StopMark? ==> x.ch.transfer.Some?
  }

  ghost predicate ChannelOk(x: Local, c: nat) {
    Core(x, c) && VisibleOk(x) && FailureOk(x) && StartOk(x, c) && StopOk(x, c) && StopHasTransfer(x)
  }

  // ---- Every move of the engine keeps it ----

  lemma SendKeeps(x: Local, x': Local, c: nat, e: Effect, l: Label)
    requires Facts(x, c) && Facts(x', c) && ChannelOk(x, c) && EffectMoves(x, x', c, e, l) && l.LSend?
    ensures ChannelOk(x', c)
  {
    hide TagLocksOk;
    assert x.h == e.holder && x.ch == e.ch;
  }

  lemma StartKeeps(x: Local, x': Local, c: nat, e: Effect, l: Label)
    requires Facts(x, c) && Facts(x', c) && ChannelOk(x, c) && EffectMoves(x, x', c, e, l) && l.LStartStep?
    ensures ChannelOk(x', c)
  {
    hide TagLocksOk;
    assert x.h == e.holder && x.ch == e.ch;
  }

  lemma StopKeeps(x: Local, x': Local, c: nat, e: Effect, l: Label)
    requires Facts(x, c) && Facts(x', c) && ChannelOk(x, c) && EffectMoves(x, x', c, e, l) && l.LStopStep?
    ensures ChannelOk(x', c)
  {
    assert x.h == e.holder && x.ch == e.ch;
  }

  lemma ReplyKeeps(x: Local, x': Local, c: nat)
    requires Facts(x, c) && Facts(x', c) && ChannelOk(x, c) && WorkMoves(x, x', c) && x.pc.OnIssueReply?
    ensures ChannelOk(x', c)
  {
    hide Ring;
  }

  lemma ReportKeeps(x: Local, x': Local, c: nat)
    requires Facts(x, c) && Facts(x', c) && ChannelOk(x, c) && WorkMoves(x, x', c) && x.pc.OnReport?
    ensures ChannelOk(x', c)
  {
    hide Ring;
    if x.ch.transfer.Some? { NothingToReport(x.ch.transfer.value); }
  }

  /** A ring never mismatches, and without an acknowledged issue there is nothing to report. */
  lemma NothingToReport(t: Transfer)
    requires Ring(t)
    ensures Outcome(t) != Mismatch && (t.acked == 0 ==> Outcome(t) == Unexpected)
  {
    ReportKeepsRing(t);
  }

  lemma VisibleKeeps(x: Local, x': Local, c: nat)
    requires Facts(x, c) && Facts(x', c) && ChannelOk(x, c) && WorkMoves(x, x', c) && x.pc.OnVisible?
    ensures ChannelOk(x', c)
  {
    hide Ring;
  }

  lemma DrainKeeps(x: Local, x': Local, c: nat)
    requires Facts(x, c) && Facts(x', c) && ChannelOk(x, c) && WorkMoves(x, x', c)
    ensures ChannelOk(x', c)
  {
    hide Facts, ChannelOk;
    if x.pc.OnIssueReply? { ReplyKeeps(x, x', c); }
    else if x.pc.OnReport? { ReportKeeps(x, x', c); }
    else { VisibleKeeps(x, x', c); }
  }

  lemma CtlKeeps(x: Local, x': Local, c: nat)
    requires Facts(x, c) && Facts(x', c) && ChannelOk(x, c) && CtlMoves(x, x')
    ensures ChannelOk(x', c)
  {
  }

  lemma OtherKeeps(x: Local, x': Local, c: nat)
    requires Facts(x, c) && Facts(x', c) && ChannelOk(x, c) && (MailMoves(x, x', c) || WorkerMoves(x, x', c))
    ensures ChannelOk(x', c)
  {
  }

  lemma EngineKeeps(x: Local, x': Local, c: nat)
    requires Facts(x, c) && Facts(x', c) && ChannelOk(x, c) && EngineMove(x, x', c)
    ensures ChannelOk(x', c)
  {
    hide Facts, ChannelOk, WorkMoves, MailMoves, WorkerMoves, CtlMoves, EffectMoves;
    if x' == x {
    } else if HolderMoves(x, x', c) {
      var e: Effect, l: Label :| EffectMoves(x, x', c, e, l);
      MovesByLabel(x, x', c, e, l);
      if l.LSend? { SendKeeps(x, x', c, e, l); }
      else if l.LStartStep? { StartKeeps(x, x', c, e, l); }
      else { StopKeeps(x, x', c, e, l); }
    } else if WorkMoves(x, x', c) {
      DrainKeeps(x, x', c);
    } else if CtlMoves(x, x') {
      CtlKeeps(x, x', c);
    } else {
      OtherKeeps(x, x', c);
    }
  }

  lemma MovesByLabel(x: Local, x': Local, c: nat, e: Effect, l: Label)
    requires EffectMoves(x, x', c, e, l)
    ensures l.LSend? || l.LStartStep? || l.LStopStep?
  {
  }
}
