/** With a firmware that keeps the protocol, a transfer is released only when firmware owns nothing of it. */
module SioRelease {
  import opened Wrappers
  import opened SioTags
  import opened SioTransfer
  import opened SioSystem
  import opened SioInvariant
  import opened SioHolderProofs
  import opened SioSteps
  import opened SioTheorems
  import opened SioFirmware

  // ---- Acknowledgements on their way ----

  lemma {:induction false} NoAcks(pipe: seq<Event>, c: nat)
    requires forall e :: e in pipe ==> !IsAck(e, c)
    ensures Acks(pipe, c) == 0
    decreases |pipe|
  {
    if pipe != [] {
      assert pipe[0] in pipe;
      NoAcks(pipe[1..], c);
    }
  }

  lemma AckTagged(s: State, e: Event, c: nat)
    requires EvOk(s, e)
    ensures IsAck(e, c) ==> IssueTags(s.tags.entries, c) != map[]
  {
    if IsAck(e, c) {
      assert e.tag as int in IssueTags(s.tags.entries, c);
    }
  }

  lemma RequestTagged(s: State, r: Request, c: nat)
    requires ReqOk(s, r)
    ensures r.IssueReq? && r.c == c ==> IssueTags(s.tags.entries, c) != map[]
  {
    if r.IssueReq? && r.c == c {
      assert r.tag as int in IssueTags(s.tags.entries, c);
    }
  }

  /** An unread acknowledgement of the channel's issue means its tag is still in the table. */
  lemma UnreadAck(s: State, inbox: seq<Request>, unread: seq<Event>, c: nat)
    requires TagsAwaited(s, inbox, unread) && IssueTags(s.tags.entries, c) == map[]
    ensures Acks(unread, c) == 0
    ensures forall r :: r in inbox && r.IssueReq? ==> r.c != c
  {
    forall e | e in unread ensures !IsAck(e, c) {
      AckTagged(s, e, c);
    }
    NoAcks(unread, c);
    forall r | r in inbox ensures r.IssueReq? ==> r.c != c {
      RequestTagged(s, r, c);
    }
  }

  lemma NothingOnTheWay(w: World, c: nat)
    requires LockOk(w.s) && PipeOk(w) && InOrder(w.s) && c < |w.s.chans| && EachOk(ViewOf(w.s, c), c)
    requires TagsAwaited(w.s, w.inbox, Unread(w.pipe, Pc(w.s.drainers)))
    requires w.s.chans[c].transfer.Some? ==> !w.s.chans[c].transfer.value.pending
    ensures Acks(w.pipe, c) == 0
    ensures forall r :: r in w.inbox && r.IssueReq? ==> r.c != c
  {
    var pc := Pc(w.s.drainers);
    UnreadAck(w.s, w.inbox, Unread(w.pipe, pc), c);
    if pc.OnIssueReply? {
      assert w.pipe == [w.pipe[0]] + w.pipe[1..];
    }
  }

  // ---- The account of one channel ----

  /** A driver step that handles no message of the channel. */
  lemma AccountHolds(v: View, v': View, owned: nat, pipe: seq<Event>, c: nat)
    requires AccountOk(v.ch, v.h, owned, pipe, c)
    requires v'.ch.transfer.Some? <==> v.ch.transfer.Some?
    requires v.ch.transfer.Some? ==> v'.ch.transfer.value.inflight == v.ch.transfer.value.inflight
    requires v.ch.transfer.Some? && (AfterReset(v'.ch.ctl, v'.h, c) || NothingPending(v'.h, c)) ==>
               AfterReset(v.ch.ctl, v.h, c) || NothingPending(v.h, c) || v.ch.transfer.value.inflight == 0
    ensures AccountOk(v'.ch, v'.h, owned, pipe, c)
  {
  }

  lemma SendAccount(v: View, e: Effect, ok: bool, owned: nat, pipe: seq<Event>, c: nat)
    requires Acts(v, e, c) && e.holder.Sending? && AccountOk(v.ch, v.h, owned, pipe, c)
    ensures var e' := SendEffect(e, ok); AccountOk(e'.ch, e'.holder, owned, pipe, c)
  {
    AccountHolds(v, AfterEffect(v, SendEffect(e, ok), c), owned, pipe, c);
  }

  lemma StartAccount(v: View, e: Effect, owned: nat, pipe: seq<Event>, c: nat)
    requires Acts(v, e, c) && e.holder.Starting? && AccountOk(v.ch, v.h, owned, pipe, c)
    ensures var e' := StartEffect(e); AccountOk(e'.ch, e'.holder, owned, pipe, c)
  {
    AccountHolds(v, AfterEffect(v, StartEffect(e), c), owned, pipe, c);
  }

  lemma StopAccount(v: View, e: Effect, ok: bool, owned: nat, pipe: seq<Event>, c: nat)
    requires Acts(v, e, c) && e.holder.Stopping? && AccountOk(v.ch, v.h, owned, pipe, c)
    requires e.holder.ppc.StopAwait? ==> e.holder.ppc.tag < TAGS
    requires v.ch.transfer.Some? && !v.ch.transfer.value.pending ==> Acks(pipe, c) == 0
    ensures var e' := StopEffect(e, ok); AccountOk(e'.ch, e'.holder, owned, pipe, c)
  {
    if !e.holder.ppc.StopReset? {
      AccountHolds(v, AfterEffect(v, StopEffect(e, ok), c), owned, pipe, c);
    }
  }

  lemma CtlAccount(v: View, bitmap: set<nat>, ok: bool, owned: nat, pipe: seq<Event>, c: nat)
    requires EachOk(v, c) && CtlActive(v.ch.ctl) && AccountOk(v.ch, v.h, owned, pipe, c)
    requires v.ch.transfer.Some? && !v.ch.transfer.value.pending ==> Acks(pipe, c) == 0
    ensures AccountOk(CtlStep(v.ch, bitmap, ok).ch, v.h, owned, pipe, c)
  {
  }

  lemma ReplyAccount(v: View, owned: nat, pipe: seq<Event>, c: nat)
    requires EachOk(v, c) && v.pc.OnIssueReply? && v.pc.c == c && AccountOk(v.ch, v.h, owned, pipe, c)
    requires pipe != [] && pipe[0].EvIssue? && pipe[0].c == c && pipe[0].ok == v.pc.ok
    requires v.ch.transfer.Some? && v.ch.transfer.value.generation == v.pc.g && v.ch.transfer.value.pending
    requires Acks(pipe[1..], c) == 0
    ensures AccountOk(ReplyEffect(v.ch, v.pc.g, v.pc.ok).ch, v.h, owned, pipe[1..], c)
  {
    Appended(pipe[1..], EvNoise, c);
  }

  lemma ReportAccount(v: View, owned: nat, pipe: seq<Event>, c: nat)
    requires EachOk(v, c) && v.pc == OnReport(c) && AccountOk(v.ch, v.h, owned, pipe, c)
    requires pipe != [] && pipe[0] == EvReport(c)
    ensures AccountOk(ReportEffect(v.ch, c).ch, v.h, owned, pipe[1..], c)
    ensures v.ch.transfer.Some? && Outcome(v.ch.transfer.value) == Completed
  {
    ReportKeepsRing(v.ch.transfer.value);
  }

  // ---- Answers never overtake ----

  /** The holder keeps the entry of a request until it has left, or been given up. */
  lemma SendsEffect(e: Effect, l: Label)
    requires TagLocksOk(e.tags, e.holder, e.tx) && HolderLabel(l)
    requires match l
             case LSend(_) => e.holder.Sending?
             case LStartStep => e.holder.Starting?
             case LStopStep(_) => e.holder.Stopping?
             case _ => false
    requires SendsAt(e.tags, e.holder, e.tx)
    ensures var e' := match l
                      case LSend(ok) => SendEffect(e, ok)
                      case LStartStep => StartEffect(e)
                      case LStopStep(ok) => StopEffect(e, ok)
                      case _ => e;
            SendsAt(e'.tags, e'.holder, e'.tx)
  {
    match l
    case LSend(ok) => if e.holder.spc == AtTag && Find(e.tags).Some? { AllocTags(e.tags, Issue(e.holder.c, e.holder.g), 0); }
    case LStopStep(ok) => if e.holder.ppc == StopTag && Find(e.tags).Some? { AllocTags(e.tags, Sync(None), 0); }
    case _ =>
  }

  lemma SendsByHolder(s: State, l: Label)
    requires LockOk(s) && SendsOk(s) && Enabled(s, l) && HolderLabel(l)
    ensures SendsOk(Do(s, l))
  {
    hide SendEffect, StopEffect, StartEffect, TagLocksOk, SendsAt;
    SendsEffect(HolderView(s), l);
    assert Do(s, l) == Apply(s, HolderEffect(s, l));
  }

  lemma SendsBySync(s: State, l: Label)
    requires LockOk(s) && SendsOk(s) && Enabled(s, l) && (l.LSyncAlloc? || l.LSyncSent? || l.LSyncDone?)
    ensures SendsOk(Do(s, l))
  {
    if l.LSyncAlloc? { AllocTags(s.tags, Sync(None), 0); }
  }

  lemma SendsByDrain(w: World, i: nat, fail: bool)
    requires LockOk(w.s) && OneDrainer(w.s) && PipeOk(w) && SendsOk(w.s) && CanDrain(w.s, i)
    requires TagsAwaited(w.s, w.inbox, Unread(w.pipe, Pc(w.s.drainers)))
    ensures SendsOk(DoDrain(w.s, i, fail))
  {
    hide DoDrain;
    var s, s' := w.s, DoDrain(w.s, i, fail);
    DrainFrame(s, i, fail);
    if s.drainers[i].pc.OnReply? {
      assert w.pipe[0] in Unread(w.pipe, Pc(s.drainers));
      assert EvOk(s, w.pipe[0]);
    }
    forall tag: nat | tag < TAGS && Unsent(s, tag) ensures s'.tags.entries[tag] == s.tags.entries[tag] {
      DrainUntouched(s, i, fail, tag);
    }
    if s.holder.Sending? && (s.holder.spc.AtSend? || s.holder.spc.AtFree?) { assert Unsent(s, s.holder.spc.tag); }
    if s.holder.Stopping? && (s.holder.ppc.StopSend? || s.holder.ppc.StopFree?) { assert Unsent(s, s.holder.ppc.tag); }
    if s.tx.TxSync? { assert Unsent(s, s.tx.tag); }
  }

  lemma SendsStep(w: World, l: Label)
    requires LockOk(w.s) && OneDrainer(w.s) && PipeOk(w) && SendsOk(w.s) && Enabled(w.s, l)
    requires TagsAwaited(w.s, w.inbox, Unread(w.pipe, Pc(w.s.drainers)))
    ensures SendsOk(Do(w.s, l))
  {
    if HolderLabel(l) { SendsByHolder(w.s, l); }
    else if l.LSyncAlloc? || l.LSyncSent? || l.LSyncDone? { SendsBySync(w.s, l); }
    else if l.LDrain? { SendsByDrain(w, l.i, l.fail); }
    else if Bystander(l) { BystanderFrame(w.s, l); }
    else { OpenerFrame(w.s, l); }
  }

  // ---- The reply being processed ----

  predicate SameIssue(ch: Channel, ch': Channel, g: nat) {
    (ch.transfer.Some? && ch.transfer.value.generation == g && ch.transfer.value.pending) ==>
      ch'.transfer.Some? && ch'.transfer.value.generation == g && ch'.transfer.value.pending
  }

  lemma LiveByHolder(s: State, l: Label, c: nat, g: nat)
    requires Base(s) && SendsOk(s) && Enabled(s, l) && HolderLabel(l) && s.holder.c == c
    requires IsReply(Pc(s.drainers), c, g)
    ensures SameIssue(s.chans[c], HolderEffect(s, l).ch, g)
  {
    assert EachOk(ViewOf(s, c), c);
  }

  lemma LiveByCtl(s: State, ok: bool, c: nat, g: nat)
    requires Base(s) && CanCtl(s, c) && IsReply(Pc(s.drainers), c, g)
    ensures SameIssue(s.chans[c], CtlStep(s.chans[c], s.bitmap, ok).ch, g)
  {
    assert EachOk(ViewOf(s, c), c);
  }

  lemma LiveByDrain(w: World, i: nat, fail: bool)
    requires Base(w.s) && PipeOk(w) && CanDrain(w.s, i) && LiveOk(w.s.chans, Pc(w.s.drainers))
    ensures LiveOk(DoDrain(w.s, i, fail).chans, Pc(DoDrain(w.s, i, fail).drainers))
  {
    hide DoDrain, EachOk, LockOk;
    var s, pc := w.s, w.s.drainers[i].pc;
    DrainFrame(s, i, fail);
    if pc.OnReply? {
      if s.tags.entries[pc.tag].Issue? && s.tags.entries[pc.tag].channel < |s.chans| {
        TagIsPending(s, pc.tag, s.tags.entries[pc.tag].channel);
      }
    } else if pc.OnIssueReply? || pc.OnReport? || pc.OnVisible? {
      WorkFrame(s, fail);
    } else {
      MovesOn(s, fail);
    }
  }

  lemma LiveByHolderStep(s: State, l: Label)
    requires Base(s) && SendsOk(s) && Enabled(s, l) && HolderLabel(l) && LiveOk(s.chans, Pc(s.drainers))
    ensures LiveOk(Do(s, l).chans, Pc(Do(s, l).drainers))
  {
    var pc := Pc(s.drainers);
    assert Do(s, l) == Apply(s, HolderEffect(s, l));
    if pc.OnIssueReply? && pc.c == s.holder.c { LiveByHolder(s, l, pc.c, pc.g); }
  }

  lemma LiveByOther(s: State, l: Label)
    requires Enabled(s, l) && !HolderLabel(l) && !l.LDrain? && !l.LCtl? && LiveOk(s.chans, Pc(s.drainers))
    requires OneDrainer(s)
    ensures LiveOk(Do(s, l).chans, Pc(Do(s, l).drainers))
  {
    hide SendEffect, StopEffect, StartEffect, CtlStep, DoDrain;
    if l.LPost? {
      PostFrame(s, l.p);
    } else if l.LCas? {
      assert DoCas(s, l.owner).chans == s.chans && Pc(DoCas(s, l.owner).drainers) == Pc(s.drainers);
    }
  }

  lemma LiveStep(w: World, l: Label)
    requires Base(w.s) && PipeOk(w) && SendsOk(w.s) && Enabled(w.s, l) && LiveOk(w.s.chans, Pc(w.s.drainers))
    ensures LiveOk(Do(w.s, l).chans, Pc(Do(w.s, l).drainers))
  {
    var s, pc := w.s, Pc(w.s.drainers);
    if l.LDrain? { LiveByDrain(w, l.i, l.fail); }
    else if HolderLabel(l) { LiveByHolderStep(s, l); }
    else if l.LCtl? {
      assert Do(s, l) == DoCtl(s, l.c, l.ok);
      if pc.OnIssueReply? && pc.c == l.c { LiveByCtl(s, l.ok, pc.c, pc.g); }
    }
    else { LiveByOther(s, l); }
  }

  // ---- The whole world ----

  function Popped(w: World, l: Label): World
    requires Enabled(w.s, l)
  {
    World(Do(w.s, l), w.inbox, w.owned, if Finishes(w.s, l) && w.pipe != [] then w.pipe[1..] else w.pipe)
  }

  lemma PipeByReceive(w: World, l: Label)
    requires LockOk(w.s) && OneDrainer(w.s) && PipeOk(w) && Enabled(w.s, l) && l.LDrain? && w.s.drainers[0].pc.Receive?
    requires TagsAwaited(w.s, w.inbox, Unread(w.pipe, Pc(w.s.drainers)))
    ensures Finishes(w.s, l) ==> w.pipe != [] && w.pipe[0] == EvNoise
    ensures PipeOk(Popped(w, l))
  {
    hide ReplyEffect, ReportEffect, VisibleEffect, EachOk;
    if w.s.mail != [] && !l.fail {
      assert Matches(w.pipe[0], w.s.mail[0]);
      assert w.pipe[0] in w.pipe && EvOk(w.s, w.pipe[0]);
      var w' := Popped(w, l);
      if Finishes(w.s, l) { assert PipeOk(w'); } else { assert PipeOk(w'); }
    }
  }

  lemma PipeByReply(w: World, l: Label)
    requires LockOk(w.s) && OneDrainer(w.s) && PipeOk(w) && Enabled(w.s, l) && l.LDrain? && w.s.drainers[0].pc.OnReply?
    requires TagsAwaited(w.s, w.inbox, Unread(w.pipe, Pc(w.s.drainers)))
    ensures w.pipe != [] && (Finishes(w.s, l) ==> w.pipe[0].EvSync?)
    ensures PipeOk(Popped(w, l))
  {
    hide ReplyEffect, ReportEffect, VisibleEffect, EachOk;
    var w' := Popped(w, l);
    assert w.pipe[0] in w.pipe && EvOk(w.s, w.pipe[0]);
    assert w'.s.mail == w.s.mail;
    if Finishes(w.s, l) {
      assert Pc(w'.s.drainers) == Receive;
    } else {
      assert w'.pipe == w.pipe && Pc(w'.s.drainers).OnIssueReply?;
    }
  }

  lemma PipeByWork(w: World, l: Label)
    requires OneDrainer(w.s) && PipeOk(w) && Enabled(w.s, l) && l.LDrain?
    requires var pc := w.s.drainers[0].pc; pc.OnIssueReply? || pc.OnReport? || pc.OnVisible?
    ensures Finishes(w.s, l) ==> w.pipe != []
    ensures PipeOk(Popped(w, l))
  {
    var s, pc, w' := w.s, w.s.drainers[0].pc, Popped(w, l);
    assert w'.s == ApplyDrain(s, 0, pc.c, WorkOf(s)) && !Busy(WorkOf(s).pc);
  }

  lemma PipeByMove(w: World, l: Label)
    requires OneDrainer(w.s) && PipeOk(w) && Enabled(w.s, l) && l.LDrain?
    requires var pc := w.s.drainers[0].pc; pc.OnKick? || pc.OnCallback? || pc.Leaving?
    ensures !Finishes(w.s, l) && PipeOk(Popped(w, l))
  {
    var w' := Popped(w, l);
    assert !Busy(Pc(w'.s.drainers)) && w'.s.mail == w.s.mail;
  }

  /** Taking a message off the mailbox, or finishing it, keeps the pipe in step with the mailbox. */
  lemma PipeByDrain(w: World, l: Label)
    requires LockOk(w.s) && OneDrainer(w.s) && PipeOk(w) && Enabled(w.s, l) && l.LDrain?
    requires TagsAwaited(w.s, w.inbox, Unread(w.pipe, Pc(w.s.drainers)))
    ensures Finishes(w.s, l) ==> w.pipe != []
    ensures PipeOk(Popped(w, l))
    ensures Finishes(w.s, l) && w.s.drainers[0].pc.Receive? ==> w.pipe[0] == EvNoise
    ensures Finishes(w.s, l) && w.s.drainers[0].pc.OnReply? ==> w.pipe[0].EvSync?
  {
    var pc := w.s.drainers[0].pc;
    if pc.Receive? { PipeByReceive(w, l); }
    else if pc.OnReply? { PipeByReply(w, l); }
    else if pc.OnIssueReply? || pc.OnReport? || pc.OnVisible? { PipeByWork(w, l); }
    else { PipeByMove(w, l); }
  }

  lemma PipeStep(w: World, l: Label)
    requires OneDrainer(w.s) && PipeOk(w) && Enabled(w.s, l) && !l.LDrain? && !l.LArrive?
    ensures PipeOk(w.(s := Do(w.s, l)))
    ensures Unread(w.pipe, Pc(Do(w.s, l).drainers)) == Unread(w.pipe, Pc(w.s.drainers))
  {
    hide Do, OneDrainer;
    MailFrame(w.s, l);
  }

  lemma AccountByWork(w: World, l: Label, c: nat)
    requires WorldInv(w) && CanWorld(w, Driver(l)) && l.LDrain? && c < |w.s.chans|
    requires var pc := w.s.drainers[0].pc; pc.OnIssueReply? || pc.OnReport?
    ensures var w' := DoWorld(w, Driver(l));
            |w'.s.chans| == |w.s.chans| && AccountOk(w'.s.chans[c], w'.s.holder, w.owned[c], w'.pipe, c)
  {
    hide EachOk, DoDrain, LockOk, AccountOk;
    var s, pc, w' := w.s, w.s.drainers[0].pc, DoWorld(w, Driver(l));
    var v := ViewOf(s, c);
    assert EachOk(v, c) && AccountOk(v.ch, v.h, w.owned[c], w.pipe, c);
    WorkFrame(s, l.fail);
    assert w'.pipe == w.pipe[1..];
    if pc.c != c { AccountOfOther(v.ch, v.h, w.owned[c], w.pipe, c); }
    else if pc.OnReport? { ReportAccount(v, w.owned[c], w.pipe, c); }
    else {
      NoTagUnderReply(v, c);
      UnreadAck(s, w.inbox, w.pipe[1..], c);
      ReplyAccount(v, w.owned[c], w.pipe, c);
    }
  }

  /** A message of another channel is none of the account's. */
  lemma AccountOfOther(ch: Channel, h: Holder, owned: nat, pipe: seq<Event>, c: nat)
    requires AccountOk(ch, h, owned, pipe, c) && pipe != []
    requires (pipe[0].EvIssue? || pipe[0].EvReport?) && pipe[0].c != c
    ensures AccountOk(ch, h, owned, pipe[1..], c)
  {
  }

  /** While the reply of the present issue is processed its tag is off the table. */
  lemma NoTagUnderReply(v: View, c: nat)
    requires EachOk(v, c) && v.ch.transfer.Some? && IsReply(v.pc, c, v.ch.transfer.value.generation)
    ensures v.m == map[]
  {
  }

  lemma MoveFrame(s: State, fail: bool, c: nat)
    requires OneDrainer(s) && CanDrain(s, 0) && c < |s.chans|
    requires var pc := s.drainers[0].pc; !pc.OnIssueReply? && !pc.OnReport?
    ensures var s' := DoDrain(s, 0, fail);
            && |s'.chans| == |s.chans| && s'.holder == s.holder
            && s'.chans[c].transfer == s.chans[c].transfer && s'.chans[c].ctl == s.chans[c].ctl
  {
    if s.drainers[0].pc.OnVisible? {
      assert DoDrain(s, 0, fail) == ApplyDrain(s, 0, s.drainers[0].pc.c, WorkOf(s));
    }
  }

  lemma AccountByMove(w: World, l: Label, c: nat)
    requires WorldInv(w) && CanWorld(w, Driver(l)) && l.LDrain? && c < |w.s.chans|
    requires var pc := w.s.drainers[0].pc; !pc.OnIssueReply? && !pc.OnReport?
    ensures var w' := DoWorld(w, Driver(l));
            |w'.s.chans| == |w.s.chans| && AccountOk(w'.s.chans[c], w'.s.holder, w.owned[c], w'.pipe, c)
  {
    hide EachOk, ReplyEffect, ReportEffect, VisibleEffect;
    var s, pc, w' := w.s, w.s.drainers[0].pc, DoWorld(w, Driver(l));
    assert AccountOk(s.chans[c], s.holder, w.owned[c], w.pipe, c);
    PipeByDrain(w, l);
    MoveFrame(s, l.fail, c);
    if Finishes(s, l) {
      assert w'.pipe == w.pipe[1..] && Reports([w.pipe[0]], c) == 0 && !IsAck(w.pipe[0], c);
    }
  }

  lemma AccountByHolder(w: World, l: Label, c: nat)
    requires WorldInv(w) && Enabled(w.s, l) && HolderLabel(l) && c < |w.s.chans|
    ensures var s' := Do(w.s, l);
            |s'.chans| == |w.s.chans| && AccountOk(s'.chans[c], s'.holder, w.owned[c], w.pipe, c)
  {
    var s, s', owned, pipe := w.s, Do(w.s, l), w.owned[c], w.pipe;
    var v := ViewOf(s, c);
    assert EachOk(v, c) && AccountOk(v.ch, v.h, owned, pipe, c);
    if v.ch.transfer.Some? && !v.ch.transfer.value.pending { NothingOnTheWay(w, c); }
    assert s' == Apply(s, HolderEffect(s, l));
    if s.holder.c != c {
      HolderTagsElsewhere(s, l, c);
      AccountHolds(v, ViewOf(s', c), owned, pipe, c);
    }
    else if l.LSend? { SendAccount(v, HolderView(s), l.ok, owned, pipe, c); }
    else if l.LStopStep? { StopAccount(v, HolderView(s), l.ok, owned, pipe, c); }
    else { StartAccount(v, HolderView(s), owned, pipe, c); }
  }

  lemma AccountByOther(w: World, l: Label, c: nat)
    requires WorldInv(w) && CanWorld(w, Driver(l)) && !l.LDrain? && c < |w.s.chans|
    ensures var w' := DoWorld(w, Driver(l));
            |w'.s.chans| == |w.s.chans| && AccountOk(w'.s.chans[c], w'.s.holder, w.owned[c], w'.pipe, c)
  {
    var s, s', owned, pipe := w.s, Do(w.s, l), w.owned[c], w.pipe;
    var v := ViewOf(s, c);
    assert EachOk(v, c) && AccountOk(v.ch, v.h, owned, pipe, c);
    if HolderLabel(l) {
      AccountByHolder(w, l, c);
    } else if l.LCtl? && l.c == c {
      if v.ch.transfer.Some? && !v.ch.transfer.value.pending { NothingOnTheWay(w, c); }
      CtlAccount(v, s.bitmap, l.ok, owned, pipe, c);
    } else {
      AccountElsewhere(s, l, c);
      AccountHolds(v, ViewOf(s', c), owned, pipe, c);
    }
  }

  lemma AccountElsewhere(s: State, l: Label, c: nat)
    requires Base(s) && Enabled(s, l) && !l.LDrain? && !HolderLabel(l) && !(l.LCtl? && l.c == c) && c < |s.chans|
    ensures var s' := Do(s, l);
            && |s'.chans| == |s.chans|
            && (s'.chans[c].transfer.Some? <==> s.chans[c].transfer.Some?)
            && (s.chans[c].transfer.Some? ==> s'.chans[c].transfer.value.inflight == s.chans[c].transfer.value.inflight)
            && (AfterReset(s'.chans[c].ctl, s'.holder, c) || NothingPending(s'.holder, c) ==>
                  AfterReset(s.chans[c].ctl, s.holder, c) || NothingPending(s.holder, c))
  {
    hide EachOk, TagLocksOk, OneDrainer;
    if Bystander(l) {
      BystanderFrame(s, l);
      if l.LPost? { assert DoPost(s, l.p).chans == s.chans; }
    }
  }

  // ---- Steps of the world ----

  /** The answer being looked up is the first unread one. */
  lemma ReplyAtHead(w: World)
    requires PipeOk(w) && Pc(w.s.drainers).OnReply?
    ensures Unread(w.pipe, Pc(w.s.drainers)) == w.pipe != []
    ensures (w.pipe[0].EvIssue? || w.pipe[0].EvSync?) && w.pipe[0].tag == Pc(w.s.drainers).tag
  {
  }

  /** Looking up a tag takes the head off the unread answers. */
  lemma UnreadByReply(w: World, l: Label)
    requires LockOk(w.s) && PipeOk(w) && Enabled(w.s, l) && l.LDrain? && l.i == 0 && w.s.drainers[0].pc.OnReply?
    ensures Unread(Popped(w, l).pipe, Pc(Popped(w, l).s.drainers)) == w.pipe[1..]
  {
    hide DoDrain, LockOk;
    ReplyAtHead(w);
    DrainFrame(w.s, 0, l.fail);
  }

  /** Finishing any other message takes no more than that. */
  lemma UnreadByWork(w: World, l: Label)
    requires OneDrainer(w.s) && PipeOk(w) && Enabled(w.s, l) && l.LDrain? && !w.s.drainers[0].pc.OnReply?
    requires Finishes(w.s, l) ==> w.pipe != [] && (w.s.drainers[0].pc.Receive? ==> w.pipe[0] == EvNoise)
    ensures var unread, unread' := Unread(w.pipe, Pc(w.s.drainers)), Unread(Popped(w, l).pipe, Pc(Popped(w, l).s.drainers));
            unread == unread' || (unread != [] && unread' == unread[1..])
  {
    hide DoDrain, PipeOk;
    var s, pc := w.s, w.s.drainers[0].pc;
    if pc.OnIssueReply? || pc.OnReport? || pc.OnVisible? { WorkFrame(s, l.fail); }
    else { MovesOn(s, l.fail); }
  }

  /** Finishing a message, or looking up its tag, takes at most the head off the unread answers. */
  lemma UnreadByDrain(w: World, l: Label)
    requires LockOk(w.s) && OneDrainer(w.s) && PipeOk(w) && Enabled(w.s, l) && l.LDrain?
    requires TagsAwaited(w.s, w.inbox, Unread(w.pipe, Pc(w.s.drainers)))
    ensures var unread, unread' := Unread(w.pipe, Pc(w.s.drainers)), Unread(Popped(w, l).pipe, Pc(Popped(w, l).s.drainers));
            if unread == unread' then !w.s.drainers[0].pc.OnReply? else unread != [] && unread' == unread[1..]
    ensures w.s.drainers[0].pc.OnReply? ==>
              var head := Unread(w.pipe, Pc(w.s.drainers))[0];
              (head.EvIssue? || head.EvSync?) && head.tag == w.s.drainers[0].pc.tag
  {
    hide Do, PipeOk, TagsAwaited, LockOk, Finishes, Unread;
    PipeByDrain(w, l);
    if w.s.drainers[0].pc.OnReply? {
      ReplyAtHead(w);
      UnreadByReply(w, l);
      assert |w.pipe[1..]| < |w.pipe|;
    } else {
      UnreadByWork(w, l);
    }
  }

  lemma TagsByDrain(w: World, l: Label)
    requires WorldInv(w) && CanWorld(w, Driver(l)) && l.LDrain?
    ensures var w' := Popped(w, l); TagsAwaited(w'.s, w.inbox, Unread(w'.pipe, Pc(w'.s.drainers)))
  {
    var s, w' := w.s, Popped(w, l);
    var unread, unread' := Unread(w.pipe, Pc(s.drainers)), Unread(w'.pipe, Pc(w'.s.drainers));
    UnreadByDrain(w, l);
    BaseStep(s, l);
    if unread' != unread { HeadRead(s, w.inbox, unread); }
    forall tag: nat | tag < TAGS && Touched(s, l) != Some(tag)
      ensures w'.s.tags.entries[tag] == s.tags.entries[tag] && (Unsent(w'.s, tag) ==> Unsent(s, tag))
    {
      OthersUntouched(s, l, tag);
    }
    StillAwaited(s, w'.s, w.inbox, unread', Touched(s, l));
  }

  lemma DrainPipe(w: World, l: Label)
    requires WorldInv(w) && CanWorld(w, Driver(l)) && l.LDrain?
    ensures var w' := DoWorld(w, Driver(l)); PipeOk(w') && TagsAwaited(w'.s, w'.inbox, Unread(w'.pipe, Pc(w'.s.drainers)))
  {
    hide Do, EachOk, LockOk, MailOk, SlotsOk, PipeOk, TagsAwaited, Unread, AccountOk, InOrder;
    PipeByDrain(w, l);
    TagsByDrain(w, l);
    assert DoWorld(w, Driver(l)).inbox == w.inbox;
    assert DoWorld(w, Driver(l)) == Popped(w, l);
  }

  lemma StepPipe(w: World, l: Label)
    requires WorldInv(w) && CanWorld(w, Driver(l)) && !l.LDrain?
    requires Inv(Do(w.s, l)) && |Do(w.s, l).chans| == |w.s.chans|
    ensures var w' := DoWorld(w, Driver(l)); PipeOk(w') && TagsAwaited(w'.s, w'.inbox, Unread(w'.pipe, Pc(w'.s.drainers)))
  {
    hide Do, EachOk, LockOk, OneDrainer, MailOk, SlotsOk, TagsAwaited, Unread, AccountOk, InOrder;
    PipeStep(w, l);
    TagsStep(w.s, l, w.inbox, Unread(w.pipe, Pc(w.s.drainers)));
  }

  lemma DriverPipe(w: World, l: Label)
    requires WorldInv(w) && CanWorld(w, Driver(l)) && Inv(Do(w.s, l)) && |Do(w.s, l).chans| == |w.s.chans|
    ensures var w' := DoWorld(w, Driver(l)); PipeOk(w') && TagsAwaited(w'.s, w'.inbox, Unread(w'.pipe, Pc(w'.s.drainers)))
  {
    hide WorldInv, CanWorld, DoWorld, PipeOk, TagsAwaited, Inv;
    if l.LDrain? { DrainPipe(w, l); } else { StepPipe(w, l); }
  }

  lemma DriverAccount(w: World, l: Label, c: nat)
    requires WorldInv(w) && CanWorld(w, Driver(l)) && c < |w.s.chans|
    ensures var w' := DoWorld(w, Driver(l));
            |w'.s.chans| == |w.s.chans| && AccountOk(w'.s.chans[c], w'.s.holder, w.owned[c], w'.pipe, c)
  {
    hide WorldInv, AccountOk, Do, Finishes;
    if !l.LDrain? { AccountByOther(w, l, c); }
    else if w.s.drainers[0].pc.OnIssueReply? || w.s.drainers[0].pc.OnReport? { AccountByWork(w, l, c); }
    else { AccountByMove(w, l, c); }
  }

  lemma DriverStep(w: World, l: Label)
    requires WorldInv(w) && CanWorld(w, Driver(l))
    ensures WorldInv(DoWorld(w, Driver(l)))
  {
    hide Do, Finishes, PipeOk, TagsAwaited, SendsOk, LiveOk, AccountOk;
    var w' := DoWorld(w, Driver(l));
    InvStep(w.s, l, w'.s);
    SendsStep(w, l);
    LiveStep(w, l);
    DriverPipe(w, l);
    forall c | 0 <= c < |w'.s.chans| ensures AccountOk(w'.s.chans[c], w'.s.holder, w'.owned[c], w'.pipe, c) {
      DriverAccount(w, l, c);
    }
  }

  ghost predicate FitsOnce(inbox: seq<Request>, unread: seq<Event>, e: Event) {
    forall t :: (ReqTags(inbox) + EvTags(unread) + EvTag(e))[t] <= 1
  }

  lemma PostedTags(s: State, s': State, inbox: seq<Request>, inbox': seq<Request>, unread: seq<Event>, e: Event)
    requires TagsAwaited(s, inbox, unread) && (forall r :: r in inbox' ==> r in inbox) && EvOk(s, e)
    requires FitsOnce(inbox', unread, e)
    requires s'.tags == s.tags && s'.holder == s.holder && s'.tx == s.tx && |s'.chans| == |s.chans|
    ensures TagsAwaited(s', inbox', unread + [e])
  {
    EvTagsAppended(unread, e);
    forall r | r in inbox' ensures ReqOk(s', r) { assert ReqOk(s, r); }
    forall x | x in unread + [e] ensures EvOk(s', x) { assert x in unread ==> EvOk(s, x); }
    forall t ensures (ReqTags(inbox') + EvTags(unread + [e]))[t] <= 1 {
      assert (ReqTags(inbox') + EvTags(unread) + EvTag(e))[t] <= 1;
    }
  }

  /** A message put at the end of the pipe keeps everything but, perhaps, the accounts. */
  lemma Posted(w: World, m: Message, e: Event, inbox: seq<Request>)
    requires WorldInv(w) && Matches(e, m) && (forall r :: r in inbox ==> r in w.inbox) && EvOk(w.s, e)
    requires FitsOnce(inbox, Unread(w.pipe, Pc(w.s.drainers)), e)
    ensures var s' := Arrived(w.s, m);
            && Inv(s') && InOrder(s') && s'.chans == w.s.chans && s'.holder == w.s.holder
            && PipeOk(World(s', inbox, w.owned, w.pipe + [e]))
            && TagsAwaited(s', inbox, Unread(w.pipe + [e], Pc(s'.drainers)))
  {
    hide Inv, TagsAwaited, FitsOnce, AccountOk, EvOk, LiveOk, PipeOk;
    var pc, s' := Pc(w.s.drainers), Arrived(w.s, m);
    InvStep(w.s, LArrive(m), s');
    PostedTags(w.s, s', w.inbox, inbox, Unread(w.pipe, pc), e);
    PostedPipe(w, m, e, inbox);
  }

  lemma PostedPipe(w: World, m: Message, e: Event, inbox: seq<Request>)
    requires PipeOk(w) && Matches(e, m)
    ensures PipeOk(World(Arrived(w.s, m), inbox, w.owned, w.pipe + [e]))
    ensures Unread(w.pipe + [e], Pc(w.s.drainers)) == Unread(w.pipe, Pc(w.s.drainers)) + [e]
  {
  }

  lemma FitsOnceSame(s: State, inbox: seq<Request>, unread: seq<Event>, e: Event)
    requires TagsAwaited(s, inbox, unread) && (e.EvReport? || e.EvNoise?)
    ensures FitsOnce(inbox, unread, e)
  {
    forall t ensures (ReqTags(inbox) + EvTags(unread) + EvTag(e))[t] <= 1 {
      assert (ReqTags(inbox) + EvTags(unread))[t] <= 1;
    }
  }

  lemma FitsOnceMoved(s: State, inbox: seq<Request>, k: nat, unread: seq<Event>, e: Event)
    requires TagsAwaited(s, inbox, unread) && k < |inbox| && EvTag(e) == multiset{inbox[k].tag}
    ensures FitsOnce(inbox[..k] + inbox[k + 1..], unread, e)
  {
    var rest := inbox[..k] + inbox[k + 1..];
    ReqTagsRemoved(inbox, k);
    forall t ensures (ReqTags(rest) + EvTags(unread) + EvTag(e))[t] <= 1 {
      assert (ReqTags(inbox) + EvTags(unread))[t] <= 1;
    }
  }

  lemma ChannelInv(w: World, c: nat)
    requires WorldInv(w) && c < |w.s.chans|
    ensures EachOk(ViewOf(w.s, c), c) && AccountOk(w.s.chans[c], w.s.holder, w.owned[c], w.pipe, c)
  {
  }

  lemma RequestInv(w: World, k: nat)
    requires WorldInv(w) && k < |w.inbox|
    ensures ReqOk(w.s, w.inbox[k])
  {
    hide Inv;
  }

  /** An acknowledged issue moves from the driver's expectations to firmware's possessions. */
  lemma AnswerAccount(w: World, k: nat, ok: bool, c: nat)
    requires WorldInv(w) && CanWorld(w, Answer(k, ok)) && c < |w.s.chans|
    ensures var w' := DoWorld(w, Answer(k, ok));
            |w'.owned| == |w.owned| && AccountOk(w.s.chans[c], w.s.holder, w'.owned[c], w'.pipe, c)
  {
    hide WorldInv, EachOk, Arrived;
    var r, w' := w.inbox[k], DoWorld(w, Answer(k, ok));
    var e := if r.IssueReq? then EvIssue(r.tag, r.c, ok) else EvSync(r.tag, ok);
    ChannelInv(w, c);
    RequestInv(w, k);
    assert |w.owned| == |w.s.chans| by { OwnedForEach(w); }
    assert w'.pipe == w.pipe + [e];
    Appended(w.pipe, e, c);
    if r.IssueReq? && r.c == c { TagIsPending(w.s, r.tag, c); }
  }

  lemma OwnedForEach(w: World)
    requires WorldInv(w)
    ensures |w.owned| == |w.s.chans|
  {
  }

  lemma AnswerStep(w: World, k: nat, ok: bool)
    requires WorldInv(w) && CanWorld(w, Answer(k, ok))
    ensures WorldInv(DoWorld(w, Answer(k, ok)))
  {
    hide Inv, AccountOk, FitsOnce, InOrder, Unread, Arrived, Awaited;
    var w', r := DoWorld(w, Answer(k, ok)), w.inbox[k];
    var e := if r.IssueReq? then EvIssue(r.tag, r.c, ok) else EvSync(r.tag, ok);
    RequestInv(w, k);
    FitsOnceMoved(w.s, w.inbox, k, Unread(w.pipe, Pc(w.s.drainers)), e);
    Posted(w, ReplyMsg(r.tag, ok), e, w.inbox[..k] + w.inbox[k + 1..]);
    forall c | 0 <= c < |w'.s.chans| ensures AccountOk(w'.s.chans[c], w'.s.holder, w'.owned[c], w'.pipe, c) {
      AnswerAccount(w, k, ok, c);
    }
  }

  lemma CompleteStep(w: World, c: nat)
    requires WorldInv(w) && CanWorld(w, Complete(c))
    ensures WorldInv(DoWorld(w, Complete(c)))
  {
    hide Inv, FitsOnce, InOrder, Unread, Arrived;
    var w' := DoWorld(w, Complete(c));
    FitsOnceSame(w.s, w.inbox, Unread(w.pipe, Pc(w.s.drainers)), EvReport(c));
    Posted(w, ReportMsg(c), EvReport(c), w.inbox);
    forall d | 0 <= d < |w'.s.chans| ensures AccountOk(w'.s.chans[d], w'.s.holder, w'.owned[d], w'.pipe, d) {
      Appended(w.pipe, EvReport(c), d);
      assert AccountOk(w.s.chans[d], w.s.holder, w.owned[d], w.pipe, d);
    }
  }

  lemma NoiseStep(w: World, m: Message)
    requires WorldInv(w) && CanWorld(w, Noise(m))
    ensures WorldInv(DoWorld(w, Noise(m)))
  {
    hide Inv, FitsOnce, InOrder, Unread, Arrived;
    var w' := DoWorld(w, Noise(m));
    FitsOnceSame(w.s, w.inbox, Unread(w.pipe, Pc(w.s.drainers)), EvNoise);
    Posted(w, m, EvNoise, w.inbox);
    forall d | 0 <= d < |w'.s.chans| ensures AccountOk(w'.s.chans[d], w'.s.holder, w'.owned[d], w'.pipe, d) {
      Appended(w.pipe, EvNoise, d);
      assert AccountOk(w.s.chans[d], w.s.holder, w.owned[d], w.pipe, d);
    }
  }

  lemma WorldInitInv(w: World)
    requires WorldInit(w)
    ensures WorldInv(w)
  {
    InitInv(w.s);
  }

  lemma {:induction false} WorldRunInv(worlds: seq<World>, labels: seq<WorldLabel>, k: nat)
    requires WorldRun(worlds, labels) && k < |worlds|
    ensures WorldInv(worlds[k])
    decreases k
  {
    if k == 0 {
      WorldInitInv(worlds[0]);
    } else {
      WorldRunInv(worlds, labels, k - 1);
      var w := worlds[k - 1];
      match labels[k - 1]
      case Driver(l) => DriverStep(w, l);
      case Answer(j, ok) => AnswerStep(w, j, ok);
      case Complete(c) => CompleteStep(w, c);
      case Noise(m) => NoiseStep(w, m);
    }
  }

  // ---- Guarantees ----

  /** When prepare or drop is about to take a channel's transfer and free its descriptors and mapping, firmware
      owns none of its descriptors, has been sent no issue it has not answered, and has no report or
      acknowledgement of it on the way. */
  lemma ReleaseSafety(worlds: seq<World>, labels: seq<WorldLabel>, k: nat, c: nat)
    requires WorldRun(worlds, labels) && k < |worlds| && c < |worlds[k].s.chans|
    requires worlds[k].s.chans[c].ctl.Quiesced?
    ensures c < |worlds[k].owned| && worlds[k].owned[c] == 0
    ensures forall r :: r in worlds[k].inbox && r.IssueReq? ==> r.c != c
    ensures Reports(worlds[k].pipe, c) == 0 && Acks(worlds[k].pipe, c) == 0
  {
    var w := worlds[k];
    WorldRunInv(worlds, labels, k);
    assert EachOk(ViewOf(w.s, c), c);
    NothingOnTheWay(w, c);
    assert AccountOk(w.s.chans[c], w.s.holder, w.owned[c], w.pipe, c);
  }

  /** While a channel has no transfer, firmware owns nothing of it either: between release and the next prepare. */
  lemma NothingOwnedWithoutTransfer(worlds: seq<World>, labels: seq<WorldLabel>, k: nat, c: nat)
    requires WorldRun(worlds, labels) && k < |worlds| && c < |worlds[k].s.chans|
    requires worlds[k].s.chans[c].transfer.None?
    ensures c < |worlds[k].owned| && worlds[k].owned[c] == 0
    ensures forall r :: r in worlds[k].inbox && r.IssueReq? ==> r.c != c
  {
    var w := worlds[k];
    WorldRunInv(worlds, labels, k);
    assert EachOk(ViewOf(w.s, c), c);
    NothingOnTheWay(w, c);
    assert AccountOk(w.s.chans[c], w.s.holder, w.owned[c], w.pipe, c);
  }

  lemma {:induction false} AcksCounted(unread: seq<Event>, c: nat, tag: nat)
    requires forall e :: e in unread && IsAck(e, c) ==> e.tag == tag
    ensures Acks(unread, c) <= EvTags(unread)[tag]
    decreases |unread|
  {
    if unread != [] {
      assert unread[0] in unread;
      AcksCounted(unread[1..], c, tag);
    }
  }

  /** One issue is acknowledged at a time. */
  lemma OneAck(w: World, c: nat)
    requires WorldInv(w) && c < |w.s.chans|
    ensures Acks(w.pipe, c) <= 1
    ensures Acks(w.pipe, c) == 1 ==> w.s.chans[c].transfer.Some? && w.s.chans[c].transfer.value.pending
  {
    var s, pc, unread := w.s, Pc(w.s.drainers), Unread(w.pipe, Pc(w.s.drainers));
    var m := IssueTags(s.tags.entries, c);
    assert EachOk(ViewOf(s, c), c);
    if m == map[] {
      UnreadAck(s, w.inbox, unread, c);
    } else {
      var tag :| m == map[tag := s.chans[c].transfer.value.generation];
      assert tag in m && 0 <= tag;
      forall e | e in unread && IsAck(e, c) ensures e.tag == tag {
        assert EvOk(s, e);
        assert e.tag as int in m;
      }
      AcksCounted(unread, c, tag);
      assert (ReqTags(w.inbox) + EvTags(unread))[tag] <= 1;
    }
  }

  /** Firmware never owns more than four descriptors of a channel. */
  lemma OwnedIsBounded(worlds: seq<World>, labels: seq<WorldLabel>, k: nat, c: nat)
    requires WorldRun(worlds, labels) && k < |worlds| && c < |worlds[k].s.chans|
    ensures c < |worlds[k].owned| && worlds[k].owned[c] <= MAX_INFLIGHT
  {
    var w := worlds[k];
    WorldRunInv(worlds, labels, k);
    OneAck(w, c);
    assert EachOk(ViewOf(w.s, c), c);
    assert AccountOk(w.s.chans[c], w.s.holder, w.owned[c], w.pipe, c);
  }

  /** With a firmware that keeps the protocol `issue_pending` holds exactly when the token exists. */
  lemma PendingIffToken(worlds: seq<World>, labels: seq<WorldLabel>, k: nat, c: nat)
    requires WorldRun(worlds, labels) && k < |worlds| && c < |worlds[k].s.chans|
    requires worlds[k].s.chans[c].transfer.Some?
    ensures var s := worlds[k].s;
            s.chans[c].transfer.value.pending <==>
            HasToken(IssueTags(s.tags.entries, c), s.holder, Pc(s.drainers), c, s.chans[c].transfer.value.generation)
  {
    WorldRunInv(worlds, labels, k);
    assert EachOk(ViewOf(worlds[k].s, c), c);
  }
}
