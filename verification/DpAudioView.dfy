/** One SIO channel as its client sees it: what each step of the engine can do to it. */
module DpAudioView {
  import opened Wrappers
  import opened SioTags
  import opened SioSystem
  import opened SioInvariant
  import opened SioDrainProofs
  import opened SioSteps

  /** The channel, the lock holder and the drainer where they work on it, and whether the stop in progress has had
      its answer. */
  datatype Local = Local(ch: Channel, h: Holder, pc: DrainPc, answered: bool)

  function OwnHolder(h: Holder, c: nat): Holder {
    if HolderIs(h, c) then h else NoHolder
  }

  function OwnPc(pc: DrainPc, c: nat): DrainPc {
    if PcOn(pc, c) then pc else Receive
  }

  predicate Answered(entries: seq<Kind>, h: Holder, c: nat) {
    && HolderIs(h, c) && h.Stopping?
    && match h.ppc
       case StopSend(tag) => HasAnswer(entries, tag)
       case StopFree(tag) => HasAnswer(entries, tag)
       case StopAwait(tag) => HasAnswer(entries, tag)
       case _ => false
  }

  predicate HasAnswer(entries: seq<Kind>, tag: nat) {
    tag < |entries| && entries[tag].Sync? && entries[tag].result.Some?
  }

  function LocalOf(s: State, c: nat): Local
    requires c < |s.chans|
  {
    Local(s.chans[c], OwnHolder(s.holder, c), OwnPc(Pc(s.drainers), c), Answered(s.tags.entries, s.holder, c))
  }

  // ---- What can happen to it ----

  /** The lock holder takes its next step on the channel. */
  ghost predicate HolderMoves(x: Local, x': Local, c: nat) {
    exists e: Effect, l: Label :: EffectMoves(x, x', c, e, l)
  }

  ghost predicate EffectMoves(x: Local, x': Local, c: nat, e: Effect, l: Label) {
    && HolderLabel(l) && EffectReady(e, l)
    && HolderIs(e.holder, c) && e.ch == x.ch && e.holder == x.h && x.answered == Answered(e.tags.entries, e.holder, c)
    && TagLocksOk(e.tags, e.holder, e.tx)
    && var e' := EffectAfter(e, l);
       x' == Local(e'.ch, OwnHolder(e'.holder, c), x.pc, Answered(e'.tags.entries, e'.holder, c))
  }

  predicate EffectReady(e: Effect, l: Label) {
    match l
    case LSend(_) => e.holder.Sending? && TableOk(e.tags)
    case LStartStep => e.holder.Starting?
    case LStopStep(_) => e.holder.Stopping? && TableOk(e.tags) && (e.holder.ppc.StopAwait? ==> e.holder.ppc.tag < TAGS)
    case _ => false
  }

  function EffectAfter(e: Effect, l: Label): Effect
    requires EffectReady(e, l)
  {
    match l
    case LSend(ok) => SendEffect(e, ok)
    case LStartStep => StartEffect(e)
    case LStopStep(ok) => StopEffect(e, ok)
  }

  /** The drainer does the channel's part of a message. */
  predicate WorkMoves(x: Local, x': Local, c: nat) {
    match x.pc
    case OnIssueReply(_, g, ok) =>
      x' == x.(ch := ReplyEffect(x.ch, g, ok).ch, pc := OwnPc(ReplyEffect(x.ch, g, ok).pc, c))
    case OnReport(_) => x' == x.(ch := ReportEffect(x.ch, c).ch, pc := OwnPc(ReportEffect(x.ch, c).pc, c))
    case OnVisible(_, more) => x' == x.(ch := VisibleEffect(x.ch, c, more).ch, pc := Receive)
    case _ => false
  }

  /** The drainer turns to the channel, or delivers the answer a stop waits for. */
  predicate MailMoves(x: Local, x': Local, c: nat) {
    && x.pc == Receive
    && (|| x' == x.(answered := true)
        || (x' == x.(pc := x'.pc) && (x'.pc == OnReport(c) || (x'.pc.OnIssueReply? && x'.pc.c == c))))
  }

  /** The worker takes the issue lock for the channel. */
  predicate WorkerMoves(x: Local, x': Local, c: nat) {
    x.h == NoHolder && x'.h.Sending? && x' == x.(h := Sending(c, x'.h.g, AtRunning, false))
  }

  ghost predicate CtlMoves(x: Local, x': Local) {
    CtlActive(x.ch.ctl) && exists bitmap, ok :: x' == x.(ch := CtlStep(x.ch, bitmap, ok).ch)
  }

  /** What everybody but the client may do to the channel in one step. */
  ghost predicate EngineMove(x: Local, x': Local, c: nat) {
    || x' == x
    || HolderMoves(x, x', c)
    || WorkMoves(x, x', c)
    || MailMoves(x, x', c)
    || WorkerMoves(x, x', c)
    || CtlMoves(x, x')
  }

  /** The steps only the client of channel c takes. */
  predicate ClientsOwn(l: Label, c: nat) {
    match l
    case LCommit(d, _) => d == c
    case LTake(d) => d == c
    case LStart(d) => d == c
    case LStop(d, _) => d == c
    case _ => false
  }

  lemma HolderSeen(s: State, l: Label, s': State, c: nat)
    requires Base(s) && HolderLabel(l) && Enabled(s, l) && s' == Do(s, l) && c < |s.chans| && c < |s'.chans|
    ensures EngineMove(LocalOf(s, c), LocalOf(s', c), c)
  {
    hide EachOk;
    var e := HolderView(s);
    assert s' == Apply(s, HolderEffect(s, l));
    if s.holder.c == c {
      assert EffectAfter(e, l) == HolderEffect(s, l);
      assert EffectMoves(LocalOf(s, c), LocalOf(s', c), c, e, l);
    } else {
      HolderTagsElsewhere(s, l, c);
    }
  }

  lemma WorkSeen(s: State, s': State, fail: bool, c: nat)
    requires Base(s) && CanDrain(s, 0) && s' == DoDrain(s, 0, fail) && c < |s.chans| && c < |s'.chans|
    requires s.drainers[0].pc.OnIssueReply? || s.drainers[0].pc.OnReport? || s.drainers[0].pc.OnVisible?
    ensures EngineMove(LocalOf(s, c), LocalOf(s', c), c)
  {
    hide EachOk, Answered, ReplyEffect, ReportEffect;
    var pc, e := s.drainers[0].pc, WorkOf(s);
    assert s' == ApplyDrain(s, 0, pc.c, e);
    if pc.c == c { assert WorkMoves(LocalOf(s, c), LocalOf(s', c), c); }
    else { assert LocalOf(s', c) == LocalOf(s, c).(pc := OwnPc(e.pc, c)); OthersWork(s, c); }
  }

  /** Work on another channel never ends on this one. */
  lemma OthersWork(s: State, c: nat)
    requires CanDrain(s, 0) && !PcOn(s.drainers[0].pc, c)
    requires s.drainers[0].pc.OnIssueReply? || s.drainers[0].pc.OnReport? || s.drainers[0].pc.OnVisible?
    ensures OwnPc(WorkOf(s).pc, c) == Receive
  {
  }

  lemma DrainSeen(s: State, i: nat, fail: bool, s': State, c: nat)
    requires Base(s) && CanDrain(s, i) && s' == DoDrain(s, i, fail) && c < |s.chans| && c < |s'.chans|
    ensures EngineMove(LocalOf(s, c), LocalOf(s', c), c)
  {
    hide EachOk, ReplyEffect, ReportEffect, VisibleEffect, Answered, EngineMove, LocalOf, DoDrain, LockOk;
    var pc := s.drainers[i].pc;
    if pc.OnIssueReply? || pc.OnReport? || pc.OnVisible? { WorkSeen(s, s', fail, c); }
    else if pc.OnReply? { ReplySeen(s, fail, s', c); }
    else { TurnSeen(s, fail, s', c); }
  }

  /** Receiving may turn the drainer to the channel; kicking, calling back and leaving end its work there. */
  lemma TurnPc(s: State, fail: bool, c: nat)
    requires OneDrainer(s) && CanDrain(s, 0)
    requires var pc := s.drainers[0].pc; pc.Receive? || pc.OnKick? || pc.OnCallback? || pc.Leaving?
    ensures OwnPc(Pc(s.drainers), c) == Receive
    ensures var pc' := OwnPc(Pc(DoDrain(s, 0, fail).drainers), c); pc' == Receive || pc' == OnReport(c)
  {
  }

  /** The drainer receives, kicks, calls back or leaves. */
  lemma TurnSeen(s: State, fail: bool, s': State, c: nat)
    requires OneDrainer(s) && CanDrain(s, 0) && s' == DoDrain(s, 0, fail) && c < |s.chans| && c < |s'.chans|
    requires var pc := s.drainers[0].pc; pc.Receive? || pc.OnKick? || pc.OnCallback? || pc.Leaving?
    ensures EngineMove(LocalOf(s, c), LocalOf(s', c), c)
  {
    hide Answered, HolderMoves, CtlMoves, DoDrain, OwnPc, OneDrainer;
    var x, x' := LocalOf(s, c), LocalOf(s', c);
    DrainFrame(s, 0, fail);
    TurnPc(s, fail, c);
    if x' != x { assert MailMoves(x, x', c); }
  }

  /** Looking up a reply's tag answers a waiting stop, turns to the channel, or is none of its business. */
  lemma ReplyLocal(s: State, fail: bool, s': State, c: nat)
    requires LockOk(s) && OneDrainer(s) && CanDrain(s, 0) && s.drainers[0].pc.OnReply?
    requires s' == DoDrain(s, 0, fail) && c < |s.chans| && c < |s'.chans|
    ensures var x, x' := LocalOf(s, c), LocalOf(s', c);
            && x.pc == Receive
            && (x' == x || x' == x.(answered := true) || (x' == x.(pc := x'.pc) && x'.pc.OnIssueReply? && x'.pc.c == c))
  {
    hide DoDrain, TagLocksOk;
    var tag := s.drainers[0].pc.tag;
    DrainFrame(s, 0, fail);
    TableOfLocks(s.tags, s.holder, s.tx);
    ReplyAnswers(s, fail, s', c);
  }

  /** An Issue tag is nobody's synchronous request. */
  lemma ReplyAnswers(s: State, fail: bool, s': State, c: nat)
    requires LockOk(s) && CanDrain(s, 0) && s.drainers[0].pc.OnReply? && s' == DoDrain(s, 0, fail) && c < |s.chans|
    ensures Answered(s.tags.entries, s.holder, c) ==> Answered(s'.tags.entries, s.holder, c)
    ensures s.tags.entries[s.drainers[0].pc.tag].Issue? ==>
              Answered(s'.tags.entries, s.holder, c) == Answered(s.tags.entries, s.holder, c)
    ensures s.tags.entries[s.drainers[0].pc.tag].Free? ==> s'.tags == s.tags
  {
    hide DoDrain;
    DrainFrame(s, 0, fail);
  }

  lemma ReplySeen(s: State, fail: bool, s': State, c: nat)
    requires LockOk(s) && OneDrainer(s) && CanDrain(s, 0) && s.drainers[0].pc.OnReply?
    requires s' == DoDrain(s, 0, fail) && c < |s.chans| && c < |s'.chans|
    ensures EngineMove(LocalOf(s, c), LocalOf(s', c), c)
  {
    hide DoDrain, LocalOf, LockOk, OneDrainer, HolderMoves;
    ReplyLocal(s, fail, s', c);
  }

  lemma SyncSeen(s: State, l: Label, s': State, c: nat)
    requires LockOk(s) && Enabled(s, l) && (l.LSyncAlloc? || l.LSyncSent? || l.LSyncDone?)
    requires s' == Do(s, l) && c < |s.chans| && c < |s'.chans|
    ensures EngineMove(LocalOf(s, c), LocalOf(s', c), c)
  {
    assert s'.chans == s.chans && s'.holder == s.holder && s'.drainers == s.drainers;
    if l.LSyncAlloc? { AllocateIsExact(s.tags, Sync(None)); }
    assert LocalOf(s', c) == LocalOf(s, c);
  }

  /** Nothing the client can see has changed. */
  lemma StaySeen(s: State, s': State, c: nat)
    requires c < |s.chans| && c < |s'.chans| && s'.chans[c] == s.chans[c] && s'.tags == s.tags
    requires OwnHolder(s'.holder, c) == OwnHolder(s.holder, c)
    requires OwnPc(Pc(s'.drainers), c) == OwnPc(Pc(s.drainers), c)
    ensures EngineMove(LocalOf(s, c), LocalOf(s', c), c)
  {
    assert LocalOf(s', c) == LocalOf(s, c);
  }

  lemma SeatSeen(s: State, l: Label, s': State, c: nat)
    requires OneDrainer(s) && Enabled(s, l) && (l.LCas? || l.LPost?) && s' == Do(s, l) && c < |s.chans| && c < |s'.chans|
    ensures EngineMove(LocalOf(s, c), LocalOf(s', c), c)
  {
    hide LocalOf, Answered, EngineMove;
    BystanderFrame(s, l);
    if l.LCas? { assert s' == DoCas(s, l.owner); } else { assert s' == DoPost(s, l.p); }
    StaySeen(s, s', c);
  }

  lemma BystanderSeen(s: State, l: Label, s': State, c: nat)
    requires OneDrainer(s) && Enabled(s, l) && Bystander(l) && !ClientsOwn(l, c)
    requires s' == Do(s, l) && c < |s.chans| && c < |s'.chans|
    ensures EngineMove(LocalOf(s, c), LocalOf(s', c), c)
  {
    hide LocalOf, Answered, EngineMove, DoPost, DoCas, DoCtl, OneDrainer;
    BystanderFrame(s, l);
    if l.LCas? || l.LPost? {
      SeatSeen(s, l, s', c);
    } else if l.LCommit? {
      assert s' == DoCommit(s, l.c, l.off);
      StaySeen(s, s', c);
    } else if l.LCtl? {
      assert s' == DoCtl(s, l.c, l.ok);
      if l.c == c { CtlSeen(s, l.ok, s', c); } else { OtherCtlSeen(s, l.c, l.ok, s', c); }
    } else {
      StaySeen(s, s', c);
    }
  }

  lemma OtherCtlSeen(s: State, d: nat, ok: bool, s': State, c: nat)
    requires CanCtl(s, d) && s' == DoCtl(s, d, ok) && c < |s.chans| && c < |s'.chans| && c != d
    ensures EngineMove(LocalOf(s, c), LocalOf(s', c), c)
  {
    hide CtlStep, Answered;
    StaySeen(s, s', c);
  }

  lemma CtlSeen(s: State, ok: bool, s': State, c: nat)
    requires CanCtl(s, c) && s' == DoCtl(s, c, ok) && c < |s'.chans|
    ensures EngineMove(LocalOf(s, c), LocalOf(s', c), c)
  {
    hide CtlStep, Answered;
    assert LocalOf(s', c) == LocalOf(s, c).(ch := CtlStep(s.chans[c], s.bitmap, ok).ch);
  }

  lemma ScanSeen(s: State, s': State, c: nat)
    requires LockOk(s) && CanScan(s) && s' == DoScan(s) && c < |s.chans| && c < |s'.chans|
    ensures EngineMove(LocalOf(s, c), LocalOf(s', c), c)
  {
    hide LocalOf, Answered, EngineMove, TagLocksOk;
    if s.worker.Got? && s.worker.c == c { WorkerSeen(s, s', c); }
    else { StaySeen(s, s', c); }
  }

  lemma OpenerSeen(s: State, l: Label, s': State, c: nat)
    requires LockOk(s) && Enabled(s, l) && (l.LScan? || l.LStart? || l.LStop?) && !ClientsOwn(l, c)
    requires s' == Do(s, l) && c < |s.chans| && c < |s'.chans|
    ensures EngineMove(LocalOf(s, c), LocalOf(s', c), c)
  {
    hide LocalOf, Answered, EngineMove, HolderMoves, DoDrain, JustOpened, DoScan, LockOk;
    if l.LScan? {
      assert s' == DoScan(s);
      ScanSeen(s, s', c);
    } else if l.LStart? {
      assert s' == DoStart(s, l.c);
      StaySeen(s, s', c);
    } else {
      assert s' == DoStop(s, l.c, l.next);
      StaySeen(s, s', c);
    }
  }

  lemma WorkerSeen(s: State, s': State, c: nat)
    requires CanScan(s) && s.worker.Got? && s.worker.c == c && s' == DoScan(s) && c < |s.chans| && c < |s'.chans|
    ensures EngineMove(LocalOf(s, c), LocalOf(s', c), c)
  {
    assert WorkerMoves(LocalOf(s, c), LocalOf(s', c), c);
  }

  /** Whatever the rest of the system does is one of the moves above. */
  lemma EngineStep(s: State, l: Label, s': State, c: nat)
    requires Base(s) && Next(s, l, s') && !ClientsOwn(l, c) && c < |s.chans| && c < |s'.chans|
    ensures EngineMove(LocalOf(s, c), LocalOf(s', c), c)
  {
    hide EachOk, EngineMove, LocalOf;
    if HolderLabel(l) { HolderSeen(s, l, s', c); }
    else if l.LDrain? { DrainSeen(s, l.i, l.fail, s', c); }
    else if l.LSyncAlloc? || l.LSyncSent? || l.LSyncDone? { SyncSeen(s, l, s', c); }
    else if Bystander(l) { BystanderSeen(s, l, s', c); }
    else { OpenerSeen(s, l, s', c); }
  }
}
