/** What every interleaving of the SIO engine keeps, against a firmware that may send anything.

    Each clause takes only the parts of the state it reads, so a step that leaves them alone keeps it. */
module SioInvariant {
  import opened Wrappers
  import opened SioTags
  import opened SioTransfer
  import opened SioSystem

  // ---- Locks and control operations ----

  predicate HolderIs(h: Holder, c: nat) {
    !h.NoHolder? && h.c == c
  }

  predicate TxByHolder(h: Holder) {
    match h
    case Sending(_, _, spc, _) => spc.AtSend? || spc.AtFree?
    case Stopping(_, ppc) => ppc.StopSend? || ppc.StopFree?
    case _ => false
  }

  predicate WorkerSends(h: Holder) {
    h.Sending? && !h.starter
  }

  /** A tag whose request is still being sent, or awaited by a stop, keeps its kind. */
  ghost predicate HolderTagOk(entries: seq<Kind>, h: Holder, tx: TxHolder)
    requires |entries| == TAGS
  {
    match h
    case Sending(c, _, spc, _) =>
      spc.AtSend? || spc.AtFree? ==>
        spc.tag < TAGS && (entries[spc.tag].Free? || (entries[spc.tag].Issue? && entries[spc.tag].channel == c))
    case Stopping(_, ppc) =>
      ppc.StopSend? || ppc.StopFree? || ppc.StopAwait? ==>
        ppc.tag < TAGS && entries[ppc.tag].Sync? && tx != TxSync(ppc.tag)
    case _ => true
  }

  ghost predicate TagLocksOk(tags: Table, h: Holder, tx: TxHolder) {
    && TableOk(tags)
    && HolderTagOk(tags.entries, h, tx)
    && (tx.TxSync? ==> tx.tag < TAGS && tags.entries[tx.tag].Sync?)
    && (tx == TxIssue <==> TxByHolder(h))
  }

  ghost predicate WorkerLockOk(w: WorkerPc, h: Holder) {
    && (w.InSend? <==> WorkerSends(h))
    && (w.InSend? ==> w.c == h.c)
  }

  ghost predicate LockOk(s: State) {
    && (!s.holder.NoHolder? ==> s.holder.c < |s.chans|)
    && TagLocksOk(s.tags, s.holder, s.tx)
    && WorkerLockOk(s.worker, s.holder)
    && (s.worker.Got? ==> s.worker.c < |s.chans|)
  }

  /** A start or stop in progress is the holder of the issue lock, and nothing else is done to its channel. */
  ghost predicate CtlHolder(ctl: Ctl, h: Holder, c: nat) {
    match ctl
    case InStart => HolderIs(h, c) && (h.Starting? || (h.Sending? && h.starter))
    case InStop(_) => HolderIs(h, c) && h.Stopping?
    case _ => HolderIs(h, c) ==> WorkerSends(h)
  }

  // ---- One channel ----

  /** The control operation is past a successful stop. */
  predicate Quiet(ctl: Ctl) {
    !ctl.Idle? && !ctl.InStart? && !ctl.InStop?
  }

  predicate PrepareOk(next: AfterStop) {
    next.Prepare? ==> next.periodLen > 0 && 0 < next.periods <= DESC_SLOTS
  }

  ghost predicate CtlOk(ctl: Ctl, empty: bool) {
    match ctl
    case InStop(next) => PrepareOk(next)
    case Quiesced(next) => PrepareOk(next) && !next.Return?
    case Releasing(next, _) => PrepareOk(next) && !next.Return? && empty
    case Allocating(periodLen, periods, got) =>
      periodLen > 0 && 0 < periods <= DESC_SLOTS && |got| <= periods && empty
    case Unwinding(_) => empty
    case Publish(periodLen, got, g) => periodLen > 0 && 0 < |got| <= DESC_SLOTS && empty
    case _ => true
  }

  predicate Halted(ppc: StopPc) {
    !ppc.StopMark? && !ppc.StopHalt?
  }

  ghost predicate HolderOk(ch: Channel, h: Holder) {
    match h
    case NoHolder => true
    case Sending(_, _, spc, _) => spc != AtRunning ==> ch.transfer.Some? && !Quiet(ch.ctl)
    case Starting(_, tpc) =>
      && (tpc.StartClear? || tpc.StartSet? ==> !ch.running)
      && (tpc.StartSet? ==> ch.transfer.Some? && ch.transfer.value.generation == tpc.g)
    case Stopping(_, ppc) => Halted(ppc) ==> !ch.running
  }

  ghost predicate ChanOk(ch: Channel, h: Holder, c: nat) {
    && CtlOk(ch.ctl, ch.transfer.None?)
    && CtlHolder(ch.ctl, h, c)
    && (ch.running ==> ch.transfer.Some? && !Quiet(ch.ctl))
    && (HolderIs(h, c) ==> HolderOk(ch, h))
  }

  ghost predicate RingOk(tr: Option<Transfer>) {
    tr.Some? ==> Ring(tr.value)
  }

  // ---- Issue tokens ----

  /** The Issue tags of a channel, each with the generation it was sent for. */
  function IssueTags(entries: seq<Kind>, c: nat): map<int, nat> {
    map tag | 0 <= tag < |entries| && entries[tag].Issue? && entries[tag].channel == c :: entries[tag].generation
  }

  predicate IsReply(pc: DrainPc, c: nat, g: nat) {
    pc.OnIssueReply? && pc.c == c && pc.g == g
  }

  /** The claimed period's token is with the sender: no tag yet, or taken back. */
  predicate SenderToken(h: Holder, c: nat) {
    h.Sending? && h.c == c && (h.spc == AtTag || h.spc == AtUndo(true))
  }

  predicate Claimed(spc: SendPc) {
    spc.AtTag? || spc.AtSend? || spc.AtFree? || spc.AtUndo?
  }

  predicate Failing(h: Holder, c: nat) {
    h.Sending? && h.c == c && h.spc.AtSetError?
  }

  predicate Claiming(h: Holder, c: nat) {
    h.Sending? && h.c == c && h.spc.AtClaim?
  }

  ghost predicate OneTag(m: map<int, nat>, g: nat) {
    exists tag :: m == map[tag := g]
  }

  /** Every Issue tag of the channel belongs to the pending issue of its current transfer, and there is one at most. */
  ghost predicate TagsOk(m: map<int, nat>, tr: Option<Transfer>) {
    m != map[] ==> tr.Some? && tr.value.pending && OneTag(m, tr.value.generation)
  }

  predicate SendTag(spc: SendPc): (r: bool) {
    spc.AtSend? || spc.AtFree?
  }

  /** The token is in one place only. */
  ghost predicate TokenAlone(m: map<int, nat>, tr: Option<Transfer>, h: Holder, pc: DrainPc, c: nat) {
    && (SenderToken(h, c) ==> tr.Some? && tr.value.pending && m == map[] && !IsReply(pc, c, tr.value.generation))
    && (tr.Some? && IsReply(pc, c, tr.value.generation) ==> m == map[])
    && (h.Sending? && h.c == c && Claimed(h.spc) ==> tr.Some? && h.g == tr.value.generation)
    && (h.Sending? && h.c == c && SendTag(h.spc) ==> m.Keys <= {h.spc.tag as int})
    && (h.Sending? && h.c == c && h.spc == AtUndo(false) ==> m == map[])
  }

  predicate HasToken(m: map<int, nat>, h: Holder, pc: DrainPc, c: nat, g: nat) {
    SenderToken(h, c) || IsReply(pc, c, g) || m != map[]
  }

  predicate AfterReset(ctl: Ctl, h: Holder, c: nat) {
    || Quiet(ctl)
    || (HolderIs(h, c) && h.Stopping? && (h.ppc.StopZero? || h.ppc.StopClear?))
  }

  predicate NothingPending(h: Holder, c: nat) {
    HolderIs(h, c) && h.Stopping? && (h.ppc.StopReset? || h.ppc == StopHalt(false))
  }

  predicate PendingOk(ch: Channel, m: map<int, nat>, h: Holder, pc: DrainPc, c: nat) {
    ch.transfer.Some? ==>
      var t := ch.transfer.value;
      && (t.pending ==> CanIssue(t) && HasToken(m, h, pc, c, t.generation))
      && (AfterReset(ch.ctl, h, c) || NothingPending(h, c) ==> !t.pending)
  }

  /** A reply being processed for the current transfer: its period is the next one, and if `pending` has been
      cleared under it, the sender failed and the error is on its way. */
  predicate ReplyOk(ch: Channel, h: Holder, pc: DrainPc, c: nat) {
    ch.transfer.Some? && IsReply(pc, c, ch.transfer.value.generation) ==>
      && CanIssue(ch.transfer.value)
      && (ch.transfer.value.pending || (ch.error && !Claiming(h, c)) || Failing(h, c))
      && !AfterReset(ch.ctl, h, c)
  }

  // ---- Generations ----

  ghost predicate GenOk(ch: Channel, pc: DrainPc, c: nat) {
    && (ch.transfer.Some? ==> ch.transfer.value.generation <= ch.nextGen)
    && (ch.ctl.Publish? ==> ch.ctl.g < ch.nextGen)
    && (pc.OnIssueReply? && pc.c == c ==>
          if ch.transfer.Some? then pc.g <= ch.transfer.value.generation
          else if ch.ctl.Publish? then pc.g < ch.ctl.g
          else pc.g < ch.nextGen)
  }

  // ---- Draining ----

  ghost predicate OneDrainer(s: State) {
    && |s.drainers| == (if s.draining then 1 else 0)
    && (s.draining ==> CanDrain(s, 0))
    && WorkerPosts(s.posts) + WorkerDrains(s.drainers) == (if s.worker == InDrain then 1 else 0)
  }

  /** How many of the threads on their way out of `process_messages` are the worker. */
  function WorkerPosts(posts: multiset<Post>): nat {
    posts[Post(Worker, Check(true))] + posts[Post(Worker, Check(false))] + posts[Post(Worker, Recas)]
  }

  function WorkerDrains(drainers: seq<Drainer>): nat {
    if |drainers| > 0 && drainers[0].owner == Worker then 1 else 0
  }

  /** Where the one drainer stands; with none, nothing is being processed. */
  function Pc(drainers: seq<Drainer>): DrainPc {
    if |drainers| == 0 then Receive else drainers[0].pc
  }

  predicate Watching(p: Post) {
    p.pc == Check(false) || p.pc == Recas
  }

  /** Somebody still has to look at the mailbox. */
  ghost predicate MailWatched(s: State) {
    s.flag || s.irq || s.draining || s.worker == AtCas || exists p :: p in s.posts && Watching(p)
  }

  ghost predicate MailOk(s: State) {
    && (s.mail != [] && !s.rxFailed ==> MailWatched(s))
    && (forall p :: p in s.posts && p.pc == Check(true) ==> s.rxFailed)
    && (Pc(s.drainers) == Leaving(true) ==> s.rxFailed)
  }

  // ---- Issuing duty ----

  /** The next period could be sent right now. */
  ghost predicate Ready(ch: Channel) {
    && ch.running && !ch.error && ch.transfer.Some? && !ch.transfer.value.terminated
    && !ch.transfer.value.pending && CanIssue(ch.transfer.value)
  }

  predicate KickPc(pc: DrainPc) {
    pc.OnKick? || (pc.OnVisible? && pc.more)
  }

  predicate WorkerDuty(w: WorkerPc, c: nat, g: nat) {
    match w
    case Asleep => false
    case AtCas => true
    case InDrain => true
    case Scan(d) => d <= c
    case Got(d, h) => d < c || (d == c && h == g)
    case InSend(d) => d < c
  }

  predicate SenderDuty(h: Holder, c: nat, g: nat) {
    h.Sending? && h.c == c && h.g == g && (h.spc.AtRunning? || h.spc.AtError? || h.spc.AtClaim?)
  }

  /** The worker flag is set, or some thread still has to set it or to send. */
  ghost predicate Duty(flag: bool, kicks: nat, pc: DrainPc, w: WorkerPc, h: Holder, c: nat, g: nat) {
    flag || kicks > 0 || KickPc(pc) || WorkerDuty(w, c, g) || SenderDuty(h, c, g)
  }

  ghost predicate DutyOk(ch: Channel, flag: bool, kicks: nat, pc: DrainPc, w: WorkerPc, h: Holder, c: nat) {
    Ready(ch) ==> Duty(flag, kicks, pc, w, h, c, ch.transfer.value.generation)
  }

  // ---- Descriptor slots ----

  /** The descriptor slots a channel answers for. */
  function Held(ch: Channel): seq<nat> {
    if ch.transfer.Some? then ch.transfer.value.slots
    else match ch.ctl
      case Releasing(_, rest) => rest
      case Allocating(_, _, got) => got
      case Unwinding(rest) => rest
      case Publish(_, got, _) => got
      case _ => []
  }

  ghost predicate Distinct(slots: seq<nat>) {
    forall i, j :: 0 <= i < j < |slots| ==> slots[i] != slots[j]
  }

  ghost predicate Holds(chans: seq<Channel>, c: int, b: nat) {
    0 <= c < |chans| && b in Held(chans[c])
  }

  /** The bitmap is the disjoint union of what the channels hold. */
  ghost predicate SlotsOk(chans: seq<Channel>, bitmap: set<nat>) {
    && (forall c :: 0 <= c < |chans| ==> Distinct(Held(chans[c])))
    && (forall c, d, b :: Holds(chans, c, b) && Holds(chans, d, b) ==> c == d)
    && (forall c, b :: Holds(chans, c, b) ==> b in bitmap)
    && (forall b :: b in bitmap ==> b < DESC_SLOTS && exists c :: Holds(chans, c, b))
  }

  // ---- All of it ----

  /** What channel c sees of the state. */
  datatype View = View(
    ch: Channel, m: map<int, nat>, h: Holder, pc: DrainPc, w: WorkerPc, flag: bool, kicks: nat)

  function ViewOf(s: State, c: nat): View
    requires c < |s.chans|
  {
    View(s.chans[c], IssueTags(s.tags.entries, c), s.holder, Pc(s.drainers), s.worker, s.flag, s.kicks)
  }

  ghost predicate EachOk(v: View, c: nat) {
    CoreOk(v, c) && DutyOk(v.ch, v.flag, v.kicks, v.pc, v.w, v.h, c)
  }

  ghost predicate CoreOk(v: View, c: nat) {
    && ChanOk(v.ch, v.h, c)
    && RingOk(v.ch.transfer)
    && TagsOk(v.m, v.ch.transfer)
    && TokenAlone(v.m, v.ch.transfer, v.h, v.pc, c)
    && PendingOk(v.ch, v.m, v.h, v.pc, c)
    && ReplyOk(v.ch, v.h, v.pc, c)
    && GenOk(v.ch, v.pc, c)
  }

  ghost predicate Inv(s: State) {
    && LockOk(s)
    && OneDrainer(s)
    && MailOk(s)
    && SlotsOk(s.chans, s.bitmap)
    && forall c :: 0 <= c < |s.chans| ==> EachOk(ViewOf(s, c), c)
  }
}
