/** The SIO engine as a concurrent state machine.

    One label is one region run under a lock, or one access to an atomic. The actors are the clients of every
    channel, the SIO worker, every thread that may drain the mailbox, the holder of the issue lock, and a
    firmware that may put any message into the mailbox at any time. */
module SioSystem {
  import opened Wrappers
  import opened SioTags
  import opened SioTransfer

  datatype Message =
    | ReplyMsg(tag: nat, ok: bool)   // ACK, NACK, or STARTED taken as an ACK
    | ReportMsg(channel: nat)
    | UnknownMsg
    | ForeignMsg                     // consumed by RTKit for another endpoint

  // ---- Where each actor stands ----

  datatype Owner = Worker | Caller

  datatype DrainPc =
    | Receive
    | OnReply(tag: nat, ok: bool)
    | OnIssueReply(c: nat, g: nat, ok: bool)
    | OnReport(c: nat)
    | OnVisible(c: nat, more: bool)
    | OnKick(callback: Option<nat>)
    | OnCallback(c: nat)
    | Leaving(failed: bool)

  datatype Drainer = Drainer(owner: Owner, pc: DrainPc)

  /** A thread that has cleared `draining` and still has its final checks to make. */
  datatype PostPc = Check(failed: bool) | Recas
  datatype Post = Post(owner: Owner, pc: PostPc)

  datatype WorkerPc =
    | Asleep
    | AtCas                    // took the pending flag, has yet to try to drain
    | InDrain
    | Scan(c: nat)             // about to read the generation of channel c
    | Got(c: nat, g: nat)      // about to take the issue lock for channel c
    | InSend(c: nat)

  datatype SendPc =
    | AtRunning | AtError | AtClaim | AtTag
    | AtSend(tag: nat) | AtFree(tag: nat)
    | AtUndo(own: bool)        // own: no reply consumed the tag, so the token is still the sender's
    | AtSetError | AtClearRunning | AtStarterFail

  datatype StartPc = StartError | StartRunning | StartClear | StartSet(g: nat)

  datatype StopPc =
    | StopMark | StopHalt(needs: bool)
    | StopTag | StopSend(tag: nat) | StopFree(tag: nat) | StopAwait(tag: nat)
    | StopDrain | StopReset | StopZero | StopClear

  /** The holder of the issue lock. */
  datatype Holder =
    | NoHolder
    | Sending(c: nat, g: nat, spc: SendPc, starter: bool)
    | Starting(c: nat, tpc: StartPc)
    | Stopping(c: nat, ppc: StopPc)

  datatype TxHolder = TxFree | TxIssue | TxSync(tag: nat)

  datatype AfterStop = Return | Prepare(periodLen: nat, periods: nat) | Drop

  /** The control operation in progress on a channel: start, stop, prepare and drop exclude each other. */
  datatype Ctl =
    | Idle
    | InStart
    | InStop(next: AfterStop)
    | Quiesced(next: AfterStop)
    | Releasing(next: AfterStop, rest: seq<nat>)
    | Allocating(periodLen: nat, periods: nat, got: seq<nat>)
    | Unwinding(rest: seq<nat>)
    | Publish(periodLen: nat, got: seq<nat>, g: nat)
    | ZeroCompleted
    | ClearError

  datatype Channel = Channel(
    running: bool,
    error: bool,
    transfer: Option<Transfer>,
    completed: nat,
    nextGen: nat,
    ctl: Ctl)

  datatype State = State(
    chans: seq<Channel>,
    tags: Table,
    bitmap: set<nat>,
    tx: TxHolder,
    holder: Holder,
    worker: WorkerPc,
    flag: bool,               // SIO_WORKER_PENDING
    kicks: nat,               // clients that decided to queue the worker and have not yet done so
    draining: bool,
    drainers: seq<Drainer>,   // threads inside the drain loop
    posts: multiset<Post>,
    mail: seq<Message>,
    irq: bool,
    rxFailed: bool)           // history: some receive reported an error

  ghost predicate Init(s: State) {
    && (forall c :: 0 <= c < |s.chans| ==> s.chans[c] == Channel(false, false, None, 0, 1, Idle))
    && s.tags == Empty() && s.bitmap == {} && s.tx == TxFree && s.holder == NoHolder
    && s.worker == Asleep && !s.flag && s.kicks == 0
    && !s.draining && s.drainers == [] && s.posts == multiset{}
    && s.mail == [] && !s.irq && !s.rxFailed
  }

  function SetChan(s: State, c: nat, ch: Channel): State
    requires c < |s.chans|
  {
    s.(chans := s.chans[c := ch])
  }

  function SetTransfer(s: State, c: nat, t: Transfer): State
    requires c < |s.chans|
  {
    SetChan(s, c, s.chans[c].(transfer := Some(t)))
  }

  function SetCtl(s: State, c: nat, ctl: Ctl): State
    requires c < |s.chans|
  {
    SetChan(s, c, s.chans[c].(ctl := ctl))
  }

  // ---- Clients ----

  predicate Kicks(ch: Channel, t: Transfer) {
    ch.running && !t.terminated && !t.pending && t.inflight < MAX_INFLIGHT
  }

  predicate CanCommit(s: State, c: nat, off: nat) {
    c < |s.chans| && s.chans[c].transfer.Some? && CommitAnswer(s.chans[c].transfer.value, off) == Accepted
  }

  function DoCommit(s: State, c: nat, off: nat): State
    requires CanCommit(s, c, off)
  {
    var t := Commit(s.chans[c].transfer.value, off);
    SetTransfer(s, c, t).(kicks := s.kicks + if Kicks(s.chans[c], t) then 1 else 0)
  }

  // ---- The worker and the drain loop ----

  predicate CanCas(s: State, owner: Owner) {
    owner == Worker ==> s.worker == AtCas
  }

  /** The compare-exchange on `draining` that opens `process_messages`. */
  function DoCas(s: State, owner: Owner): State {
    if s.draining then
      if owner == Worker then s.(worker := Scan(0)) else s
    else
      s.(draining := true, drainers := s.drainers + [Drainer(owner, Receive)],
         worker := if owner == Worker then InDrain else s.worker)
  }

  function At(s: State, i: nat, pc: DrainPc): State
    requires i < |s.drainers|
  {
    s.(drainers := s.drainers[i := s.drainers[i].(pc := pc)])
  }

  function PcFor(s: State, m: Message): DrainPc {
    match m
    case ReplyMsg(tag, ok) => if tag < TAGS then OnReply(tag, ok) else Receive
    case ReportMsg(c) => if c < |s.chans| then OnReport(c) else Receive
    case UnknownMsg => Receive
    case ForeignMsg => Receive
  }

  function DoReceive(s: State, i: nat, fail: bool): State
    requires i < |s.drainers|
  {
    if fail then At(s.(rxFailed := true), i, Leaving(true))
    else if s.mail == [] then At(s, i, Leaving(false))
    else At(s.(mail := s.mail[1..]), i, PcFor(s, s.mail[0]))
  }

  function DoReply(s: State, i: nat, tag: nat, ok: bool): State
    requires i < |s.drainers| && tag < TAGS && TableOk(s.tags)
  {
    match s.tags.entries[tag]
    case Free => At(s, i, Receive)
    case Sync(_) => At(s.(tags := s.tags.(entries := s.tags.entries[tag := Sync(Some(ok))])), i, Receive)
    case Issue(c, g) =>
      At(s.(tags := Release(s.tags, tag)), i, if c < |s.chans| then OnIssueReply(c, g, ok) else Receive)
  }

  /** What the drainer does to the channel it is working on, and where it goes next. */
  datatype DrainEffect = DrainEffect(ch: Channel, pc: DrainPc)

  predicate More(ch: Channel, t: Transfer) {
    !t.terminated && ch.running && !ch.error && t.inflight < MAX_INFLIGHT
  }

  /** The region of `process_issue_reply` under the transfer lock. */
  function ReplyEffect(ch: Channel, g: nat, ok: bool): DrainEffect {
    if ch.transfer.None? || ch.transfer.value.slots == [] || ch.transfer.value.generation != g then
      DrainEffect(ch, Receive)
    else if !ok then
      DrainEffect(ch.(transfer := Some(Nack(ch.transfer.value)), error := true, running := false), Receive)
    else
      var t := Ack(ch.transfer.value);
      DrainEffect(ch.(transfer := Some(t)), if More(ch, t) then OnKick(None) else Receive)
  }

  /** The region of `process_report` under the transfer lock. */
  function ReportEffect(ch: Channel, c: nat): DrainEffect {
    if ch.transfer.None? || ch.transfer.value.slots == [] then DrainEffect(ch, Receive)
    else
      var t := Report(ch.transfer.value);
      match Outcome(ch.transfer.value)
      case Unexpected => DrainEffect(ch, Receive)
      case Mismatch => DrainEffect(ch.(transfer := Some(t), error := true, running := false), Receive)
      case Completed =>
        DrainEffect(ch.(transfer := Some(t)),
                    if t.terminated then Receive else OnVisible(c, More(ch, t) && !t.pending))
  }

  function VisibleEffect(ch: Channel, c: nat, more: bool): DrainEffect {
    DrainEffect(ch.(completed := ch.completed + 1), if more then OnKick(Some(c)) else OnCallback(c))
  }

  function ApplyDrain(s: State, i: nat, c: nat, e: DrainEffect): State
    requires i < |s.drainers| && c < |s.chans|
  {
    At(SetChan(s, c, e.ch), i, e.pc)
  }

  /** `draining.store(false)`; the thread then has its final availability check to make. */
  function DoLeave(s: State, i: nat, failed: bool): State
    requires i < |s.drainers|
  {
    s.(draining := false,
       drainers := s.drainers[..i] + s.drainers[i + 1..],
       posts := s.posts + multiset{Post(s.drainers[i].owner, Check(failed))})
  }

  function Returned(s: State, owner: Owner): State {
    if owner == Worker then s.(worker := Scan(0)) else s
  }

  predicate CanDrain(s: State, i: nat) {
    && i < |s.drainers|
    && match s.drainers[i].pc
       case OnReply(tag, _) => tag < TAGS && TableOk(s.tags)
       case OnIssueReply(c, _, _) => c < |s.chans|
       case OnReport(c) => c < |s.chans|
       case OnVisible(c, _) => c < |s.chans|
       case _ => true
  }

  function DoDrain(s: State, i: nat, fail: bool): State
    requires CanDrain(s, i)
  {
    match s.drainers[i].pc
    case Receive => DoReceive(s, i, fail)
    case OnReply(tag, ok) => DoReply(s, i, tag, ok)
    case OnIssueReply(c, g, ok) => ApplyDrain(s, i, c, ReplyEffect(s.chans[c], g, ok))
    case OnReport(c) => ApplyDrain(s, i, c, ReportEffect(s.chans[c], c))
    case OnVisible(c, more) => ApplyDrain(s, i, c, VisibleEffect(s.chans[c], c, more))
    case OnKick(callback) =>
      At(s.(flag := true), i, if callback.Some? then OnCallback(callback.value) else Receive)
    case OnCallback(_) => At(s, i, Receive)
    case Leaving(failed) => DoLeave(s, i, failed)
  }

  function DoPost(s: State, p: Post): State {
    var gone := s.(posts := s.posts - multiset{p});
    match p.pc
    case Check(failed) =>
      if failed || s.mail == [] then Returned(gone, p.owner)
      else gone.(posts := gone.posts + multiset{Post(p.owner, Recas)})
    case Recas =>
      if s.draining then Returned(gone, p.owner)
      else gone.(draining := true, drainers := s.drainers + [Drainer(p.owner, Receive)])
  }

  predicate CanScan(s: State) {
    s.worker.Scan? || (s.worker.Got? && s.holder == NoHolder)
  }

  /** The worker's sweep over the channels. */
  function DoScan(s: State): State
    requires CanScan(s)
  {
    match s.worker
    case Scan(c) =>
      if c >= |s.chans| then s.(worker := Asleep)
      else if s.chans[c].transfer.None? then s.(worker := Scan(c + 1))
      else s.(worker := Got(c, s.chans[c].transfer.value.generation))
    case Got(c, g) => s.(worker := InSend(c), holder := Sending(c, g, AtRunning, false))
  }

  // ---- The holder of the issue lock ----

  /** What one step of the lock holder does: to its channel, to the tags, to the transmit lock, to itself. */
  datatype Effect = Effect(ch: Channel, tags: Table, tx: TxHolder, holder: Holder)

  predicate CanSend(s: State) {
    && s.holder.Sending? && s.holder.c < |s.chans| && TableOk(s.tags)
    && (s.holder.spc == AtTag ==> s.tx == TxFree)
  }

  /** One step of `send_issue_locked`; `ok` decides whether the mailbox accepts the message. */
  function SendEffect(e: Effect, ok: bool): Effect
    requires e.holder.Sending? && TableOk(e.tags)
  {
    var c, g, ch := e.holder.c, e.holder.g, e.ch;
    var done := e.(ch := if e.holder.starter then ch.(ctl := Idle) else ch, holder := NoHolder);
    var failed := if e.holder.starter then e.(holder := e.holder.(spc := AtStarterFail)) else done;
    match e.holder.spc
    case AtRunning => if ch.running then e.(holder := e.holder.(spc := AtError)) else done
    case AtError => if ch.error then done else e.(holder := e.holder.(spc := AtClaim))
    case AtClaim =>
      if ch.transfer.None? then failed
      else if !Claimable(ch.transfer.value, g) then done
      else e.(ch := ch.(transfer := Some(Claim(ch.transfer.value, g))), holder := e.holder.(spc := AtTag))
    case AtTag =>
      (match Find(e.tags)
       case None => e.(holder := e.holder.(spc := AtUndo(true)))
       case Some(tag) =>
         e.(tags := Allocate(e.tags, Issue(c, g)), tx := TxIssue, holder := e.holder.(spc := AtSend(tag))))
    case AtSend(tag) => if ok then done.(tx := TxFree) else e.(holder := e.holder.(spc := AtFree(tag)))
    case AtFree(tag) =>
      var own := tag < TAGS && e.tags.entries[tag] == Issue(c, g);
      e.(tags := Release(e.tags, tag), tx := TxFree, holder := e.holder.(spc := AtUndo(own)))
    case AtUndo(_) =>
      e.(ch := if ch.transfer.None? then ch else ch.(transfer := Some(Undo(ch.transfer.value, g))),
         holder := e.holder.(spc := AtSetError))
    case AtSetError => e.(ch := ch.(error := true), holder := e.holder.(spc := AtClearRunning))
    case AtClearRunning => failed.(ch := failed.ch.(running := false))
    case AtStarterFail => done.(ch := done.ch.(running := false))
  }

  predicate CanStart(s: State, c: nat) {
    s.holder == NoHolder && c < |s.chans| && s.chans[c].ctl == Idle
  }

  function DoStart(s: State, c: nat): State
    requires CanStart(s, c)
  {
    SetCtl(s, c, InStart).(holder := Starting(c, StartError))
  }

  /** One step of `start_channel` up to its call of `send_issue_locked`. */
  function StartEffect(e: Effect): Effect
    requires e.holder.Starting?
  {
    var c, ch := e.holder.c, e.ch;
    var exit := e.(ch := ch.(ctl := Idle), holder := NoHolder);
    match e.holder.tpc
    case StartError => if ch.error then exit else e.(holder := Starting(c, StartRunning))
    case StartRunning => if ch.running then exit else e.(holder := Starting(c, StartClear))
    case StartClear =>
      if ch.transfer.None? then exit
      else e.(ch := ch.(transfer := Some(Restarted(ch.transfer.value))),
              holder := Starting(c, StartSet(ch.transfer.value.generation)))
    case StartSet(g) => e.(ch := ch.(running := true), holder := Sending(c, g, AtRunning, true))
  }

  predicate CanStop(s: State, c: nat, next: AfterStop) {
    && s.holder == NoHolder && c < |s.chans| && s.chans[c].ctl == Idle
    && (next.Prepare? ==> next.periodLen > 0 && 0 < next.periods <= DESC_SLOTS)
  }

  function DoStop(s: State, c: nat, next: AfterStop): State
    requires CanStop(s, c, next)
  {
    SetCtl(s, c, InStop(next)).(holder := Stopping(c, StopMark))
  }

  predicate CanStopStep(s: State) {
    && s.holder.Stopping? && s.holder.c < |s.chans| && TableOk(s.tags)
    && (s.holder.ppc == StopTag ==> s.tx == TxFree)
    && (s.holder.ppc.StopAwait? ==> s.holder.ppc.tag < TAGS)
  }

  /** One step of `stop_channel`. `ok` decides whether the mailbox accepts TERMINATE and whether a wait goes on. */
  function StopEffect(e: Effect, ok: bool): Effect
    requires e.holder.Stopping? && TableOk(e.tags) && (e.holder.ppc.StopAwait? ==> e.holder.ppc.tag < TAGS)
  {
    var c, ch := e.holder.c, e.ch;
    var failed := e.(ch := ch.(ctl := Idle), holder := NoHolder);
    var after := if ch.ctl.InStop? && !ch.ctl.next.Return? then Quiesced(ch.ctl.next) else Idle;
    match e.holder.ppc
    case StopMark =>
      if ch.transfer.None? then e.(ch := ch.(running := false, ctl := after), holder := NoHolder)
      else
        var needs := NeedsTerminate(ch.transfer.value, ch.running);
        e.(ch := ch.(transfer := Some(ch.transfer.value.(terminated := needs))),
           holder := Stopping(c, StopHalt(needs)))
    case StopHalt(needs) =>
      e.(ch := ch.(running := false), holder := Stopping(c, if needs then StopTag else StopReset))
    case StopTag =>
      (match Find(e.tags)
       case None => failed
       case Some(tag) =>
         e.(tags := Allocate(e.tags, Sync(None)), tx := TxIssue, holder := Stopping(c, StopSend(tag))))
    case StopSend(tag) =>
      if ok then e.(tx := TxFree, holder := Stopping(c, StopAwait(tag))) else e.(holder := Stopping(c, StopFree(tag)))
    case StopFree(tag) => failed.(tags := Release(e.tags, tag), tx := TxFree)
    case StopAwait(tag) =>
      (match e.tags.entries[tag]
       case Sync(Some(acked)) =>
         if acked then e.(tags := Release(e.tags, tag), holder := Stopping(c, StopDrain))
         else failed.(tags := Release(e.tags, tag))
       case _ => if ok then e else failed.(tags := Release(e.tags, tag)))
    case StopDrain =>
      if ch.transfer.None? || (ch.transfer.value.inflight == 0 && !ch.transfer.value.pending)
      then e.(holder := Stopping(c, StopReset))
      else if ok then e
      else failed
    case StopReset =>
      e.(ch := if ch.transfer.None? then ch
               else ch.(transfer := Some(Reset(ch.transfer.value, ch.nextGen + 1)), nextGen := ch.nextGen + 1),
         holder := Stopping(c, StopZero))
    case StopZero => e.(ch := ch.(completed := 0), holder := Stopping(c, StopClear))
    case StopClear => e.(ch := ch.(error := false, ctl := after), holder := NoHolder)
  }

  function HolderView(s: State): Effect
    requires !s.holder.NoHolder? && s.holder.c < |s.chans|
  {
    Effect(s.chans[s.holder.c], s.tags, s.tx, s.holder)
  }

  function Apply(s: State, e: Effect): State
    requires !s.holder.NoHolder? && s.holder.c < |s.chans|
  {
    s.(chans := s.chans[s.holder.c := e.ch], tags := e.tags, tx := e.tx, holder := e.holder,
       worker := if s.worker.InSend? && e.holder.NoHolder? then Scan(s.worker.c + 1) else s.worker)
  }

  // ---- Prepare and drop, once their stop has succeeded ----

  predicate CanCtl(s: State, c: nat) {
    c < |s.chans| && CtlActive(s.chans[c].ctl)
  }

  predicate CtlActive(ctl: Ctl) {
    !ctl.Idle? && !ctl.InStart? && !ctl.InStop? && (ctl.Releasing? ==> !ctl.next.Return?)
  }

  /** The lowest free descriptor slot from `slot` up. */
  function FreeSlot(bitmap: set<nat>, slot: nat): (r: Option<nat>)
    ensures r.Some? ==> slot <= r.value < DESC_SLOTS && r.value !in bitmap
    ensures r.Some? ==> forall b: nat :: slot <= b < r.value ==> b in bitmap
    ensures r.None? ==> forall b: nat :: slot <= b < DESC_SLOTS ==> b in bitmap
    decreases DESC_SLOTS - slot
  {
    if slot >= DESC_SLOTS then None
    else if slot !in bitmap then Some(slot)
    else FreeSlot(bitmap, slot + 1)
  }

  datatype CtlEffect = CtlEffect(ch: Channel, bitmap: set<nat>)

  /** `ok` decides whether configuring the channel and mapping its buffer succeed. */
  function CtlStep(ch: Channel, bitmap: set<nat>, ok: bool): CtlEffect {
    match ch.ctl
    case Quiesced(next) =>
      var slots := if ch.transfer.None? then [] else ch.transfer.value.slots;
      CtlEffect(ch.(transfer := None, ctl := Releasing(next, slots)), bitmap)
    case Releasing(next, rest) =>
      if rest != [] then CtlEffect(ch.(ctl := Releasing(next, rest[1..])), bitmap - {rest[0]})
      else if next.Prepare? then
        CtlEffect(ch.(ctl := if ok then Allocating(next.periodLen, next.periods, []) else Idle), bitmap)
      else CtlEffect(ch.(ctl := ZeroCompleted), bitmap)
    case Allocating(periodLen, periods, got) =>
      if |got| >= periods then
        CtlEffect(ch.(ctl := Publish(periodLen, got, ch.nextGen), nextGen := ch.nextGen + 1), bitmap)
      else
        (match FreeSlot(bitmap, 0)
         case None => CtlEffect(ch.(ctl := Unwinding(got)), bitmap)
         case Some(slot) => CtlEffect(ch.(ctl := Allocating(periodLen, periods, got + [slot])), bitmap + {slot}))
    case Unwinding(rest) =>
      if rest != [] then CtlEffect(ch.(ctl := Unwinding(rest[1..])), bitmap - {rest[0]})
      else CtlEffect(ch.(ctl := Idle), bitmap)
    case Publish(periodLen, got, g) =>
      CtlEffect(ch.(transfer := Some(Fresh(periodLen, got, g)), ctl := ZeroCompleted), bitmap)
    case ZeroCompleted => CtlEffect(ch.(completed := 0, ctl := ClearError), bitmap)
    case ClearError => CtlEffect(ch.(error := false, ctl := Idle), bitmap)
    case _ => CtlEffect(ch, bitmap)
  }

  function DoCtl(s: State, c: nat, ok: bool): State
    requires CanCtl(s, c)
  {
    var e := CtlStep(s.chans[c], s.bitmap, ok);
    s.(chans := s.chans[c := e.ch], bitmap := e.bitmap)
  }

  // ---- Everyone else who uses a tag, and the firmware ----

  predicate StopperTag(s: State, tag: nat) {
    && s.holder.Stopping?
    && match s.holder.ppc
       case StopSend(t) => t == tag
       case StopFree(t) => t == tag
       case StopAwait(t) => t == tag
       case _ => false
  }

  datatype Label =
    | LCommit(c: nat, off: nat)
    | LKick
    | LTake(c: nat)
    | LWake
    | LCas(owner: Owner)
    | LDrain(i: nat, fail: bool)
    | LPost(p: Post)
    | LScan
    | LSend(ok: bool)
    | LStart(c: nat)
    | LStartStep
    | LStop(c: nat, next: AfterStop)
    | LStopStep(ok: bool)
    | LCtl(c: nat, ok: bool)
    | LSyncAlloc
    | LSyncSent(ok: bool)
    | LSyncDone(tag: nat)
    | LArrive(m: Message)
    | LIrq

  predicate Enabled(s: State, l: Label) {
    match l
    case LCommit(c, off) => CanCommit(s, c, off)
    case LKick => s.kicks > 0
    case LTake(c) => c < |s.chans|
    case LWake => s.worker == Asleep && s.flag
    case LCas(owner) => CanCas(s, owner)
    case LDrain(i, _) => CanDrain(s, i)
    case LPost(p) => p in s.posts
    case LScan => CanScan(s)
    case LSend(_) => CanSend(s)
    case LStart(c) => CanStart(s, c)
    case LStartStep => s.holder.Starting? && s.holder.c < |s.chans|
    case LStop(c, next) => CanStop(s, c, next)
    case LStopStep(_) => CanStopStep(s)
    case LCtl(c, _) => CanCtl(s, c)
    case LSyncAlloc => s.tx == TxFree && TableOk(s.tags) && Find(s.tags).Some?
    case LSyncSent(_) => s.tx.TxSync? && TableOk(s.tags)
    case LSyncDone(tag) =>
      && TableOk(s.tags) && tag < TAGS && s.tags.entries[tag].Sync?
      && !StopperTag(s, tag) && s.tx != TxSync(tag)
    case LArrive(_) => true
    case LIrq => s.irq
  }

  function Do(s: State, l: Label): State
    requires Enabled(s, l)
  {
    match l
    case LCommit(c, off) => DoCommit(s, c, off)
    case LKick => s.(kicks := s.kicks - 1, flag := true)
    case LTake(c) => SetChan(s, c, s.chans[c].(completed := 0))
    case LWake => s.(flag := false, worker := AtCas)
    case LCas(owner) => DoCas(s, owner)
    case LDrain(i, fail) => DoDrain(s, i, fail)
    case LPost(p) => DoPost(s, p)
    case LScan => DoScan(s)
    case LSend(ok) => Apply(s, SendEffect(HolderView(s), ok))
    case LStart(c) => DoStart(s, c)
    case LStartStep => Apply(s, StartEffect(HolderView(s)))
    case LStop(c, next) => DoStop(s, c, next)
    case LStopStep(ok) => Apply(s, StopEffect(HolderView(s), ok))
    case LCtl(c, ok) => DoCtl(s, c, ok)
    case LSyncAlloc =>
      s.(tags := Allocate(s.tags, Sync(None)), tx := TxSync(Find(s.tags).value))
    case LSyncSent(ok) =>
      s.(tags := if ok then s.tags else Release(s.tags, s.tx.tag), tx := TxFree)
    case LSyncDone(tag) => s.(tags := Release(s.tags, tag))
    case LArrive(m) => s.(mail := s.mail + [m], irq := true)
    case LIrq => s.(irq := false, flag := true)
  }

  ghost predicate Next(s: State, l: Label, s': State) {
    Enabled(s, l) && s' == Do(s, l)
  }

  /** A run: `states[k]` takes `labels[k]` to `states[k + 1]`. */
  ghost predicate Run(states: seq<State>, labels: seq<Label>) {
    && |states| == |labels| + 1
    && Init(states[0])
    && forall k :: 0 <= k < |labels| ==> Next(states[k], labels[k], states[k + 1])
  }
}
