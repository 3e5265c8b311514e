/** Every step keeps the whole invariant, so every reachable state has it. */
module SioSteps {
  import opened Wrappers
  import opened SioTags
  import opened SioTransfer
  import opened SioSystem
  import opened SioInvariant
  import opened SioHolderProofs
  import opened SioDrainProofs

  lemma PublishKept(v: View, bitmap: set<nat>, ok: bool, c: nat)
    requires EachOk(v, c) && v.ch.ctl.Publish?
    ensures EachOk(v.(ch := CtlStep(v.ch, bitmap, ok).ch), c)
  {
    hide Ring;
    FreshRing(v.ch.ctl.periodLen, v.ch.ctl.got, v.ch.ctl.g);
  }

  lemma CtlKept(v: View, bitmap: set<nat>, ok: bool, c: nat)
    requires EachOk(v, c) && CtlActive(v.ch.ctl)
    ensures EachOk(v.(ch := CtlStep(v.ch, bitmap, ok).ch), c)
  {
    hide Ring;
    if v.ch.ctl.Publish? { PublishKept(v, bitmap, ok, c); }
  }

  ghost predicate Base(s: State) {
    LockOk(s) && OneDrainer(s) && forall c :: 0 <= c < |s.chans| ==> EachOk(ViewOf(s, c), c)
  }

  /** The channels, the locks and the drainer after a step. */
  ghost predicate Sound(s: State, s': State) {
    |s'.chans| == |s.chans| && Base(s')
  }

  // ---- The lock holder ----

  predicate HolderLabel(l: Label) {
    l.LSend? || l.LStartStep? || l.LStopStep?
  }

  function HolderEffect(s: State, l: Label): Effect
    requires HolderLabel(l) && Enabled(s, l)
  {
    match l
    case LSend(ok) => SendEffect(HolderView(s), ok)
    case LStartStep => StartEffect(HolderView(s))
    case LStopStep(ok) => StopEffect(HolderView(s), ok)
  }

  lemma HolderOwn(s: State, l: Label)
    requires Base(s) && HolderLabel(l) && Enabled(s, l)
    ensures var c := s.holder.c; Kept(ViewOf(s, c), HolderView(s), HolderEffect(s, l), c)
  {
    var c := s.holder.c;
    var v, e := ViewOf(s, c), HolderView(s);
    match l
    case LSend(ok) =>
      match s.holder.spc {
        case AtRunning => SendLoads(v, e, ok, c);
        case AtError => SendLoads(v, e, ok, c);
        case AtClaim => SendClaims(v, e, ok, c);
        case AtTag => SendTags(v, e, ok, c);
        case AtSend(_) => SendSends(v, e, ok, c);
        case AtFree(_) => SendSends(v, e, ok, c);
        case _ => SendUndoes(v, e, ok, c);
      }
    case LStartStep => StartKept(v, e, c);
    case LStopStep(ok) =>
      if !Halted(s.holder.ppc) { StopMarks(v, e, ok, c); }
      else if s.holder.ppc.StopTag? || s.holder.ppc.StopSend? || s.holder.ppc.StopFree? || s.holder.ppc.StopAwait? {
        StopCalls(v, e, ok, c);
      } else { StopResets(v, e, ok, c); }
  }

  lemma HolderTagsElsewhere(s: State, l: Label, c: nat)
    requires Base(s) && HolderLabel(l) && Enabled(s, l) && c != s.holder.c
    ensures IssueTags(HolderEffect(s, l).tags.entries, c) == IssueTags(s.tags.entries, c)
    ensures !HolderIs(HolderEffect(s, l).holder, c)
  {
    hide EachOk;
    match l
    case LSend(ok) =>
      if s.holder.spc == AtTag && Find(s.tags).Some? { AllocTags(s.tags, Issue(s.holder.c, s.holder.g), c); }
      if s.holder.spc.AtFree? { ReleaseTags(s.tags, s.holder.spc.tag, c); }
    case LStartStep =>
    case LStopStep(ok) =>
      var ppc := s.holder.ppc;
      if ppc.StopTag? && Find(s.tags).Some? { AllocTags(s.tags, Sync(None), c); }
      if ppc.StopFree? || ppc.StopAwait? { ReleaseTags(s.tags, ppc.tag, c); }
  }

  lemma HolderStep(s: State, l: Label)
    requires Base(s) && HolderLabel(l) && Enabled(s, l)
    ensures Sound(s, Do(s, l))
  {
    hide EachOk, CoreOk, ReportEffect;
    var s', e, d := Do(s, l), HolderEffect(s, l), s.holder.c;
    assert s' == Apply(s, e);
    HolderOwn(s, l);
    forall c | 0 <= c < |s'.chans| ensures EachOk(ViewOf(s', c), c) {
      if c == d {
        assert ViewOf(s', c) == AfterEffect(ViewOf(s, c), e, c);
      } else {
        HolderTagsElsewhere(s, l, c);
        ForeignKept(ViewOf(s, c), ViewOf(s', c), c);
      }
    }
  }

  // ---- The drainer ----

  /** A step that changes nothing any channel reads, apart from what `Foreign` allows. */
  lemma Unseen(s: State, s': State)
    requires Base(s) && |s'.chans| == |s.chans| && LockOk(s') && OneDrainer(s')
    requires forall c :: 0 <= c < |s.chans| ==> Foreign(ViewOf(s, c), ViewOf(s', c), c)
    ensures Sound(s, s')
  {
    forall c | 0 <= c < |s'.chans| ensures EachOk(ViewOf(s', c), c) {
      ForeignKept(ViewOf(s, c), ViewOf(s', c), c);
    }
  }

  function WorkOf(s: State): DrainEffect
    requires CanDrain(s, 0)
    requires s.drainers[0].pc.OnIssueReply? || s.drainers[0].pc.OnReport? || s.drainers[0].pc.OnVisible?
  {
    match s.drainers[0].pc
    case OnIssueReply(c, g, ok) => ReplyEffect(s.chans[c], g, ok)
    case OnReport(c) => ReportEffect(s.chans[c], c)
    case OnVisible(c, more) => VisibleEffect(s.chans[c], c, more)
  }

  /** The issue whose tag is in the table is the pending one. */
  lemma TagIsPending(s: State, tag: nat, c: nat)
    requires c < |s.chans| && EachOk(ViewOf(s, c), c)
    requires tag < |s.tags.entries| && s.tags.entries[tag].Issue? && s.tags.entries[tag].channel == c
    ensures s.chans[c].transfer.Some? && s.chans[c].transfer.value.pending
    ensures s.chans[c].transfer.value.generation == s.tags.entries[tag].generation
  {
    assert tag as int in IssueTags(s.tags.entries, c);
  }

  /** What each kind of drainer step leaves alone. */
  lemma DrainFrame(s: State, i: nat, fail: bool)
    requires CanDrain(s, i)
    ensures var s', pc := DoDrain(s, i, fail), s.drainers[i].pc;
            && s'.holder == s.holder && s'.tx == s.tx
            && (if pc.OnReply? then s'.chans == s.chans && s' == DoReply(s, i, pc.tag, pc.ok) else s'.tags == s.tags)
            && (pc.Receive? || pc.OnKick? || pc.OnCallback? || pc.Leaving? ==> s'.chans == s.chans)
  {
    hide ReplyEffect, ReportEffect, VisibleEffect;
    if s.drainers[i].pc.OnReply? { ReplyFrame(s, i, fail); }
  }

  lemma ReplyFrame(s: State, i: nat, fail: bool)
    requires CanDrain(s, i) && s.drainers[i].pc.OnReply?
    ensures var s', pc := DoDrain(s, i, fail), s.drainers[i].pc;
            s'.holder == s.holder && s'.tx == s.tx && s'.chans == s.chans && s' == DoReply(s, i, pc.tag, pc.ok)
  {
    hide ReplyEffect, ReportEffect, VisibleEffect;
  }

  lemma WorkFrame(s: State, fail: bool)
    requires CanDrain(s, 0)
    requires s.drainers[0].pc.OnIssueReply? || s.drainers[0].pc.OnReport? || s.drainers[0].pc.OnVisible?
    ensures DoDrain(s, 0, fail) == ApplyDrain(s, 0, s.drainers[0].pc.c, WorkOf(s))
    ensures WorkOf(s).pc == Receive || WorkOf(s).pc.OnKick? || WorkOf(s).pc.OnVisible? || WorkOf(s).pc.OnCallback?
  {
  }

  lemma DrainWorks(s: State, fail: bool)
    requires Base(s) && CanDrain(s, 0)
    requires s.drainers[0].pc.OnIssueReply? || s.drainers[0].pc.OnReport? || s.drainers[0].pc.OnVisible?
    ensures Sound(s, DoDrain(s, 0, fail))
  {
    var s', pc, e := DoDrain(s, 0, fail), s.drainers[0].pc, WorkOf(s);
    var d := pc.c;
    assert s' == ApplyDrain(s, 0, d, e);
    forall c | 0 <= c < |s'.chans| ensures EachOk(ViewOf(s', c), c) {
      var v := ViewOf(s, c);
      if c == d {
        assert ViewOf(s', c) == v.(ch := e.ch, pc := e.pc);
        match pc
        case OnIssueReply(_, _, _) => ReplyKept(v, c);
        case OnReport(_) => ReportKept(v, c);
        case OnVisible(_, _) => VisibleKept(v, c);
      } else {
        ForeignKept(v, ViewOf(s', c), c);
      }
    }
  }

  /** Answering a synchronous request, or taking an Issue tag off the table, leaves the lock holders their tags. */
  lemma ReplyTagLocks(tags: Table, h: Holder, tx: TxHolder, tag: nat, ok: bool)
    requires TagLocksOk(tags, h, tx) && tag < TAGS
    ensures tags.entries[tag].Sync? ==> TagLocksOk(tags.(entries := tags.entries[tag := Sync(Some(ok))]), h, tx)
    ensures tags.entries[tag].Issue? ==> TagLocksOk(Release(tags, tag), h, tx)
  {
  }

  lemma AtSeats(s: State, s': State, pc: DrainPc)
    requires OneDrainer(s) && s.draining && s' == At(s.(tags := s'.tags), 0, pc) && CanDrain(s', 0)
    ensures OneDrainer(s')
  {
  }

  lemma DrainReplyLocks(s: State, fail: bool)
    requires LockOk(s) && OneDrainer(s) && CanDrain(s, 0) && s.drainers[0].pc.OnReply?
    ensures LockOk(DoDrain(s, 0, fail)) && OneDrainer(DoDrain(s, 0, fail))
  {
    hide TagLocksOk, WorkerPosts, WorkerDrains;
    var s', pc := DoDrain(s, 0, fail), s.drainers[0].pc;
    TableOfLocks(s.tags, s.holder, s.tx);
    assert s' == DoReply(s, 0, pc.tag, pc.ok);
    ReplyTagLocks(s.tags, s.holder, s.tx, pc.tag, pc.ok);
    assert s' == At(s.(tags := s'.tags), 0, s'.drainers[0].pc);
    AtSeats(s, s', s'.drainers[0].pc);
  }

  lemma TableOfLocks(tags: Table, h: Holder, tx: TxHolder)
    requires TagLocksOk(tags, h, tx)
    ensures TableOk(tags)
  {
  }

  lemma DrainReplies(s: State, fail: bool)
    requires Base(s) && CanDrain(s, 0) && s.drainers[0].pc.OnReply?
    ensures Sound(s, DoDrain(s, 0, fail))
  {
    hide EachOk, OneDrainer, DoDrain, TagLocksOk;
    DrainReplyLocks(s, fail);
    TableOfLocks(s.tags, s.holder, s.tx);
    ReplyChans(s, fail);
    forall c | 0 <= c < |s.chans| ensures EachOk(ViewOf(DoDrain(s, 0, fail), c), c) {
      ReplySeenBy(s, fail, c);
    }
  }

  lemma ReplyChans(s: State, fail: bool)
    requires TableOk(s.tags) && CanDrain(s, 0) && s.drainers[0].pc.OnReply?
    ensures DoDrain(s, 0, fail).chans == s.chans
  {
  }

  /** What a reply changes in a channel's view of the state. */
  lemma ReplyView(s: State, fail: bool, c: nat)
    requires TableOk(s.tags) && CanDrain(s, 0) && s.drainers[0].pc.OnReply? && c < |s.chans|
    ensures var v, v', tag := ViewOf(s, c), ViewOf(DoDrain(s, 0, fail), c), s.drainers[0].pc.tag;
            match s.tags.entries[tag]
            case Issue(d, g) =>
              && v' == v.(m := v'.m, pc := if d < |s.chans| then OnIssueReply(d, g, s.drainers[0].pc.ok) else Receive)
              && v'.m == if d == c then v.m - {tag as int} else v.m
            case _ => v' == v.(pc := Receive)
  {
    hide ReplyEffect, ReportEffect, VisibleEffect;
    var s', tag := DoDrain(s, 0, fail), s.drainers[0].pc.tag;
    ReleaseTags(s.tags, tag, c);
    if s.tags.entries[tag].Sync? {
      assert IssueTags(s'.tags.entries, c) == IssueTags(s.tags.entries, c);
    }
  }

  lemma ReplySeenBy(s: State, fail: bool, c: nat)
    requires LockOk(s) && OneDrainer(s) && CanDrain(s, 0) && s.drainers[0].pc.OnReply?
    requires c < |s.chans| && EachOk(ViewOf(s, c), c)
    ensures EachOk(ViewOf(DoDrain(s, 0, fail), c), c)
  {
    hide EachOk, OneDrainer, DoDrain, ViewOf;
    var tag, ok := s.drainers[0].pc.tag, s.drainers[0].pc.ok;
    ReplyAt(s, fail, c);
    ReplyView(s, fail, c);
    var v, v' := ViewOf(s, c), ViewOf(DoDrain(s, 0, fail), c);
    match s.tags.entries[tag]
    case Issue(d, g) =>
      if d == c { TagReplyKept(v, v', tag, ok, c); }
      else { ForeignKept(v, v', c); }
    case _ => ForeignKept(v, v', c);
  }

  lemma ReplyAt(s: State, fail: bool, c: nat)
    requires TableOk(s.tags) && CanDrain(s, 0) && s.drainers[0].pc.OnReply? && c < |s.chans|
    ensures |DoDrain(s, 0, fail).chans| == |s.chans|
    ensures ViewOf(s, c).pc == s.drainers[0].pc && ViewOf(s, c).m == IssueTags(s.tags.entries, c)
  {
  }

  /** Receiving, kicking, calling back and leaving touch no channel, tag or lock. */
  lemma MoveFrame(s: State, fail: bool)
    requires OneDrainer(s) && CanDrain(s, 0) && TableOk(s.tags)
    requires var pc := s.drainers[0].pc; pc.Receive? || pc.OnKick? || pc.OnCallback? || pc.Leaving?
    ensures var s' := DoDrain(s, 0, fail);
            && s'.chans == s.chans && s'.tags == s.tags && s'.holder == s.holder && s'.tx == s.tx
            && s'.worker == s.worker && s'.kicks == s.kicks && (s.flag ==> s'.flag)
            && (KickPc(Pc(s.drainers)) ==> KickPc(Pc(s'.drainers)) || s'.flag)
            && OneDrainer(s')
  {
    if s.drainers[0].pc.Leaving? {
      var s', p := DoDrain(s, 0, fail), Post(s.drainers[0].owner, Check(s.drainers[0].pc.failed));
      assert s'.drainers == [] && s'.posts == s.posts + multiset{p};
      assert p.owner == Worker ==> WorkerPosts(s'.posts) == WorkerPosts(s.posts) + 1;
      assert p.owner == Caller ==> WorkerPosts(s'.posts) == WorkerPosts(s.posts);
    }
  }

  /** Nor do they bring the drainer to a reply. */
  lemma MovesOn(s: State, fail: bool)
    requires CanDrain(s, 0)
    requires var pc := s.drainers[0].pc; pc.Receive? || pc.OnKick? || pc.OnCallback? || pc.Leaving?
    ensures !Pc(DoDrain(s, 0, fail).drainers).OnIssueReply? || |s.drainers| > 1
  {
  }

  lemma DrainMoves(s: State, fail: bool)
    requires Base(s) && CanDrain(s, 0)
    requires var pc := s.drainers[0].pc; pc.Receive? || pc.OnKick? || pc.OnCallback? || pc.Leaving?
    ensures Sound(s, DoDrain(s, 0, fail))
  {
    hide EachOk, OneDrainer;
    MoveFrame(s, fail);
    Unseen(s, DoDrain(s, 0, fail));
  }

  lemma DrainStep(s: State, i: nat, fail: bool)
    requires Base(s) && CanDrain(s, i)
    ensures i == 0 && Sound(s, DoDrain(s, i, fail))
  {
    var pc := s.drainers[i].pc;
    if pc.OnIssueReply? || pc.OnReport? || pc.OnVisible? { DrainWorks(s, fail); }
    else if pc.OnReply? { DrainReplies(s, fail); }
    else { DrainMoves(s, fail); }
  }

  // ---- Everybody else ----

  /** The steps that neither hold the issue lock nor use a tag. */
  predicate Bystander(l: Label) {
    || l.LCommit? || l.LKick? || l.LTake? || l.LWake? || l.LCas? || l.LPost? || l.LCtl? || l.LArrive? || l.LIrq?
  }

  lemma BystanderFrame(s: State, l: Label)
    requires Enabled(s, l) && Bystander(l)
    ensures Do(s, l).tags == s.tags && Do(s, l).tx == s.tx && Do(s, l).holder == s.holder
  {
    var s' := Do(s, l);
    match l
    case LCommit(_, _) => assert s' == DoCommit(s, l.c, l.off);
    case LCas(owner) => assert s' == DoCas(s, owner);
    case LPost(p) => assert s' == DoPost(s, p);
    case LCtl(c, ok) => assert s' == DoCtl(s, c, ok);
    case _ =>
  }

  /** The holder has only just taken the issue lock. */
  predicate JustOpened(h: Holder) {
    match h
    case NoHolder => false
    case Sending(_, _, spc, _) => spc.AtRunning?
    case Starting(_, tpc) => tpc.StartError?
    case Stopping(_, ppc) => ppc.StopMark?
  }

  lemma OpenerFrame(s: State, l: Label)
    requires Enabled(s, l) && (l.LScan? || l.LStart? || l.LStop?)
    ensures Do(s, l).tags == s.tags && Do(s, l).tx == s.tx
    ensures Do(s, l).holder == s.holder || JustOpened(Do(s, l).holder)
  {
    var s' := Do(s, l);
    if l.LScan? { assert s' == DoScan(s); }
    else if l.LStart? { assert s' == DoStart(s, l.c); }
    else { assert s' == DoStop(s, l.c, l.next); }
  }

  lemma CasStep(s: State, l: Label)
    requires Base(s) && Enabled(s, l) && l.LCas?
    ensures Sound(s, Do(s, l))
  {
    hide EachOk;
    Unseen(s, Do(s, l));
  }

  /** Taking one thread out of the count, or putting one in. */
  lemma OneSeat(posts: multiset<Post>, p: Post)
    ensures WorkerPosts(posts + multiset{p}) == WorkerPosts(posts) + if p.owner == Worker then 1 else 0
    ensures p in posts ==> WorkerPosts(posts) == WorkerPosts(posts - multiset{p}) + if p.owner == Worker then 1 else 0
  {
    assert p == Post(p.owner, p.pc) && p.pc == (if p.pc.Recas? then Recas else if p.pc.failed then Check(true) else Check(false));
  }

  lemma SeatLeaves(s: State, p: Post)
    requires OneDrainer(s) && p in s.posts
    ensures OneDrainer(Returned(s.(posts := s.posts - multiset{p}), p.owner))
    ensures p.owner == Worker ==> s.worker == InDrain
  {
    hide WorkerPosts;
    OneSeat(s.posts, p);
  }

  lemma SeatStays(s: State, p: Post)
    requires OneDrainer(s) && p in s.posts
    ensures OneDrainer(s.(posts := s.posts - multiset{p} + multiset{Post(p.owner, Recas)}))
  {
    hide WorkerPosts;
    OneSeat(s.posts, p);
    OneSeat(s.posts - multiset{p}, Post(p.owner, Recas));
  }

  lemma SeatDrains(s: State, p: Post)
    requires OneDrainer(s) && p in s.posts && !s.draining
    ensures OneDrainer(s.(posts := s.posts - multiset{p}, draining := true,
                          drainers := s.drainers + [Drainer(p.owner, Receive)]))
  {
    hide WorkerPosts;
    OneSeat(s.posts, p);
  }

  lemma PostSeats(s: State, p: Post)
    requires OneDrainer(s) && p in s.posts
    ensures OneDrainer(DoPost(s, p))
    ensures p.owner == Worker ==> s.worker == InDrain
  {
    hide OneDrainer;
    SeatLeaves(s, p);
    SeatStays(s, p);
    if !s.draining { SeatDrains(s, p); }
  }

  /** Leaving `process_messages`, or draining again, touches no channel, tag or lock. */
  lemma PostFrame(s: State, p: Post)
    requires OneDrainer(s)
    ensures var s' := DoPost(s, p);
            && s'.chans == s.chans && s'.tags == s.tags && s'.holder == s.holder && s'.tx == s.tx
            && s'.flag == s.flag && s'.kicks == s.kicks && s'.mail == s.mail && Pc(s'.drainers) == Pc(s.drainers)
            && (s'.worker == s.worker || (p.owner == Worker && s'.worker == Scan(0)))
  {
    hide CanDrain, WorkerPosts;
  }

  lemma PostStep(s: State, p: Post)
    requires Base(s) && p in s.posts
    ensures Sound(s, DoPost(s, p))
  {
    hide EachOk, OneDrainer, DoPost, TagLocksOk;
    PostSeats(s, p);
    PostFrame(s, p);
    Unseen(s, DoPost(s, p));
  }

  /** The worker has the issue lock for the channel it read. */
  lemma WorkerOpens(v: View, g: nat, c: nat)
    requires EachOk(v, c) && v.h == NoHolder && v.w == Got(c, g)
    ensures EachOk(v.(w := InSend(c), h := Sending(c, g, AtRunning, false)), c)
  {
  }

  lemma ScanStep(s: State)
    requires Base(s) && CanScan(s)
    ensures Sound(s, DoScan(s))
  {
    hide EachOk, OneDrainer;
    var s' := DoScan(s);
    assert s' == s.(worker := s'.worker, holder := s'.holder) && s'.worker != InDrain && s.worker != InDrain;
    ScanSeats(s, s');
    if s.worker.Got? { GotStep(s); }
    else { Unseen(s, s'); }
  }

  lemma GotStep(s: State)
    requires Base(s) && CanScan(s) && s.worker.Got? && OneDrainer(DoScan(s))
    ensures Sound(s, DoScan(s))
  {
    hide EachOk, OneDrainer;
    var s' := DoScan(s);
    forall c | 0 <= c < |s'.chans| ensures EachOk(ViewOf(s', c), c) {
      if s.worker.c == c { WorkerOpens(ViewOf(s, c), s.worker.g, c); }
      else { ForeignKept(ViewOf(s, c), ViewOf(s', c), c); }
    }
  }

  lemma ScanSeats(s: State, s': State)
    requires OneDrainer(s) && s.worker != InDrain && s'.worker != InDrain
    requires s' == s.(worker := s'.worker, holder := s'.holder)
    ensures OneDrainer(s')
  {
  }

  /** Only the drainer takes mail, and only firmware puts it in. */
  lemma MailFrame(s: State, l: Label)
    requires OneDrainer(s) && Enabled(s, l) && !l.LDrain? && !l.LArrive?
    ensures Do(s, l).mail == s.mail && Pc(Do(s, l).drainers) == Pc(s.drainers)
  {
    hide SendEffect, StopEffect, StartEffect, CtlStep, DoDrain, DoPost;
    if HolderLabel(l) { assert Do(s, l) == Apply(s, HolderEffect(s, l)); }
    else if l.LPost? { PostFrame(s, l.p); }
    else if l.LCas? { assert Do(s, l) == DoCas(s, l.owner); }
    else if l.LScan? { assert Do(s, l) == DoScan(s); }
    else if l.LCtl? { assert Do(s, l) == DoCtl(s, l.c, l.ok); }
  }

  lemma WorkerStep(s: State, l: Label)
    requires Base(s) && Enabled(s, l) && (l.LWake? || l.LKick? || l.LIrq? || l.LArrive?)
    ensures Sound(s, Do(s, l))
  {
    var s' := Do(s, l);
    assert s'.chans == s.chans && s'.tags == s.tags && s'.holder == s.holder && s'.tx == s.tx;
    assert s'.drainers == s.drainers && s'.posts == s.posts;
    Unseen(s, s');
  }

  lemma ClientStep(s: State, l: Label)
    requires Base(s) && Enabled(s, l) && (l.LCommit? || l.LTake?)
    ensures Sound(s, Do(s, l))
  {
    var s' := Do(s, l);
    forall c | 0 <= c < |s'.chans| ensures EachOk(ViewOf(s', c), c) {
      var v := ViewOf(s, c);
      if c != l.c { ForeignKept(v, ViewOf(s', c), c); }
      else if l.LCommit? { CommitKept(v, l.off, c); }
    }
  }

  lemma Opens(v: View, l: Label, c: nat)
    requires EachOk(v, c) && v.h == NoHolder && v.ch.ctl == Idle
    requires l.LStart? || (l.LStop? && PrepareOk(l.next))
    ensures if l.LStart? then EachOk(v.(ch := v.ch.(ctl := InStart), h := Starting(c, StartError)), c)
            else EachOk(v.(ch := v.ch.(ctl := InStop(l.next)), h := Stopping(c, StopMark)), c)
  {
  }

  lemma ControlStep(s: State, l: Label)
    requires Base(s) && Enabled(s, l) && (l.LStart? || l.LStop? || l.LCtl?)
    ensures Sound(s, Do(s, l))
  {
    hide EachOk, OneDrainer, CtlStep;
    var s' := Do(s, l);
    assert OneDrainer(s') by { ControlSeats(s, l); }
    forall c | 0 <= c < |s'.chans| ensures EachOk(ViewOf(s', c), c) {
      var v := ViewOf(s, c);
      if c != l.c { ForeignKept(v, ViewOf(s', c), c); }
      else if l.LCtl? { CtlKept(v, s.bitmap, l.ok, c); }
      else { Opens(v, l, c); }
    }
  }

  lemma ControlSeats(s: State, l: Label)
    requires OneDrainer(s) && Enabled(s, l) && (l.LStart? || l.LStop? || l.LCtl?)
    ensures OneDrainer(Do(s, l))
  {
  }

  lemma SyncStep(s: State, l: Label)
    requires Base(s) && Enabled(s, l) && (l.LSyncAlloc? || l.LSyncSent? || l.LSyncDone?)
    ensures Sound(s, Do(s, l))
  {
    hide EachOk;
    var s' := Do(s, l);
    forall c | 0 <= c < |s'.chans| ensures EachOk(ViewOf(s', c), c) {
      if l.LSyncAlloc? { AllocTags(s.tags, Sync(None), c); }
      else { ReleaseTags(s.tags, if l.LSyncDone? then l.tag else s.tx.tag, c); }
      ForeignKept(ViewOf(s, c), ViewOf(s', c), c);
    }
  }

  lemma BaseStep(s: State, l: Label)
    requires Base(s) && Enabled(s, l)
    ensures Sound(s, Do(s, l))
  {
    if HolderLabel(l) { HolderStep(s, l); }
    else if l.LDrain? { DrainStep(s, l.i, l.fail); }
    else if l.LCas? { CasStep(s, l); }
    else if l.LPost? { PostStep(s, l.p); }
    else if l.LCommit? || l.LTake? { ClientStep(s, l); }
    else if l.LStart? || l.LStop? || l.LCtl? { ControlStep(s, l); }
    else if l.LSyncAlloc? || l.LSyncSent? || l.LSyncDone? { SyncStep(s, l); }
    else if l.LScan? { ScanStep(s); }
    else { WorkerStep(s, l); }
  }
}
