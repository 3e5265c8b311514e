/** The SIO engine against a firmware that keeps the protocol: it answers each request once, reports only
    acknowledged descriptors, and no synchronous request is abandoned before its answer. */
module SioFirmware {
  import opened Wrappers
  import opened SioTags
  import opened SioSystem
  import opened SioInvariant
  import opened SioSteps

  /** A request firmware has received and not yet answered. */
  datatype Request = IssueReq(tag: nat, c: nat) | SyncReq(tag: nat)

  /** A message firmware has sent and the driver has not finished handling. */
  datatype Event =
    | EvIssue(tag: nat, c: nat, ok: bool)
    | EvSync(tag: nat, ok: bool)
    | EvReport(c: nat)
    | EvNoise

  /** `owned[c]` counts the acknowledged descriptors of channel c that firmware has not reported. `pipe` holds
      the messages in order; its head is the one being handled while the drainer is busy. */
  datatype World = World(s: State, inbox: seq<Request>, owned: seq<nat>, pipe: seq<Event>)

  predicate Busy(pc: DrainPc) {
    pc.OnReply? || pc.OnIssueReply? || pc.OnReport?
  }

  predicate Matches(e: Event, m: Message) {
    match e
    case EvIssue(tag, _, ok) => m == ReplyMsg(tag, ok)
    case EvSync(tag, ok) => m == ReplyMsg(tag, ok)
    case EvReport(c) => m == ReportMsg(c)
    case EvNoise => m == UnknownMsg || m == ForeignMsg
  }

  // ---- Steps ----

  datatype WorldLabel =
    | Driver(l: Label)
    | Answer(k: nat, ok: bool)     // firmware answers its k-th waiting request
    | Complete(c: nat)             // firmware reports its oldest descriptor of channel c
    | Noise(m: Message)

  /** The driver's own steps, less arbitrary arrivals and abandoned synchronous requests. */
  predicate Patient(s: State, l: Label) {
    match l
    case LArrive(_) => false
    case LSyncDone(tag) => tag < |s.tags.entries| && s.tags.entries[tag].Sync? && s.tags.entries[tag].result.Some?
    case LStopStep(ok) =>
      (s.holder.Stopping? && s.holder.ppc.StopAwait? && s.holder.ppc.tag < |s.tags.entries|
       && s.tags.entries[s.holder.ppc.tag] == Sync(None)) ==> ok
    case _ => true
  }

  /** What a driver step sends to firmware. */
  function Sent(s: State, l: Label): seq<Request> {
    match l
    case LSend(ok) =>
      if ok && s.holder.Sending? && s.holder.spc.AtSend? then [IssueReq(s.holder.spc.tag, s.holder.c)] else []
    case LStopStep(ok) =>
      if ok && s.holder.Stopping? && s.holder.ppc.StopSend? then [SyncReq(s.holder.ppc.tag)] else []
    case LSyncSent(ok) => if ok && s.tx.TxSync? then [SyncReq(s.tx.tag)] else []
    case _ => []
  }

  /** A driver step finishes handling the message at the head of the pipe. */
  predicate Finishes(s: State, l: Label) {
    && l.LDrain? && l.i < |s.drainers|
    && match s.drainers[l.i].pc
       case Receive => !l.fail && s.mail != [] && PcFor(s, s.mail[0]) == Receive
       case OnReply(tag, _) =>
         !(tag < |s.tags.entries| && s.tags.entries[tag].Issue? && s.tags.entries[tag].channel < |s.chans|)
       case OnIssueReply(_, _, _) => true
       case OnReport(_) => true
       case _ => false
  }

  predicate CanWorld(w: World, wl: WorldLabel) {
    match wl
    case Driver(l) => Enabled(w.s, l) && Patient(w.s, l)
    case Answer(k, ok) => k < |w.inbox|
    case Complete(c) => c < |w.owned| && w.owned[c] > 0
    case Noise(m) => m == UnknownMsg || m == ForeignMsg
  }

  function Arrived(s: State, m: Message): State {
    Do(s, LArrive(m))
  }

  function DoWorld(w: World, wl: WorldLabel): World
    requires CanWorld(w, wl)
  {
    match wl
    case Driver(l) =>
      World(Do(w.s, l), w.inbox + Sent(w.s, l), w.owned, if Finishes(w.s, l) && w.pipe != [] then w.pipe[1..] else w.pipe)
    case Answer(k, ok) =>
      var rest := w.inbox[..k] + w.inbox[k + 1..];
      (match w.inbox[k]
       case SyncReq(tag) => World(Arrived(w.s, ReplyMsg(tag, ok)), rest, w.owned, w.pipe + [EvSync(tag, ok)])
       case IssueReq(tag, c) =>
         World(Arrived(w.s, ReplyMsg(tag, ok)), rest,
               if ok && c < |w.owned| then w.owned[c := w.owned[c] + 1] else w.owned,
               w.pipe + [EvIssue(tag, c, ok)]))
    case Complete(c) =>
      World(Arrived(w.s, ReportMsg(c)), w.inbox, w.owned[c := w.owned[c] - 1], w.pipe + [EvReport(c)])
    case Noise(m) => w.(s := Arrived(w.s, m), pipe := w.pipe + [EvNoise])
  }

  ghost predicate WorldInit(w: World) {
    Init(w.s) && w.inbox == [] && w.pipe == [] && w.owned == seq(|w.s.chans|, _ => 0)
  }

  ghost predicate WorldRun(worlds: seq<World>, labels: seq<WorldLabel>) {
    && |worlds| == |labels| + 1
    && WorldInit(worlds[0])
    && forall k :: 0 <= k < |labels| ==> CanWorld(worlds[k], labels[k]) && worlds[k + 1] == DoWorld(worlds[k], labels[k])
  }

  /** The step of the driver's machine behind a step of the world. */
  function Shadow(w: World, wl: WorldLabel): Label
    requires CanWorld(w, wl)
  {
    match wl
    case Driver(l) => l
    case Answer(k, ok) => LArrive(ReplyMsg(w.inbox[k].tag, ok))
    case Complete(c) => LArrive(ReportMsg(c))
    case Noise(m) => LArrive(m)
  }

  /** Firmware that keeps the protocol is one of the firmwares the driver's machine allows. */
  lemma WorldRefines(w: World, wl: WorldLabel)
    requires CanWorld(w, wl)
    ensures Next(w.s, Shadow(w, wl), DoWorld(w, wl).s)
  {
  }

  // ---- Counting the pipe ----

  /** Reports of channel c in the pipe. */
  function Reports(pipe: seq<Event>, c: nat): nat {
    if pipe == [] then 0 else (if pipe[0] == EvReport(c) then 1 else 0) + Reports(pipe[1..], c)
  }

  predicate IsAck(e: Event, c: nat) {
    e.EvIssue? && e.c == c && e.ok
  }

  function Acks(pipe: seq<Event>, c: nat): nat {
    if pipe == [] then 0 else (if IsAck(pipe[0], c) then 1 else 0) + Acks(pipe[1..], c)
  }

  /** Reports of channel c that the driver will handle before the next acknowledged issue of c. */
  function Early(pipe: seq<Event>, c: nat): nat {
    if pipe == [] || IsAck(pipe[0], c) then 0
    else (if pipe[0] == EvReport(c) then 1 else 0) + Early(pipe[1..], c)
  }

  lemma {:induction false} Appended(pipe: seq<Event>, e: Event, c: nat)
    ensures Reports(pipe + [e], c) == Reports(pipe, c) + Reports([e], c)
    ensures Acks(pipe + [e], c) == Acks(pipe, c) + Acks([e], c)
    ensures Early(pipe + [e], c) == Early(pipe, c) + (if Acks(pipe, c) == 0 then Reports([e], c) else 0)
    ensures Early(pipe, c) <= Reports(pipe, c)
    ensures Acks(pipe, c) == 0 ==> Early(pipe, c) == Reports(pipe, c)
    decreases |pipe|
  {
    if pipe == [] {
      assert [] + [e] == [e];
    } else {
      assert (pipe + [e])[1..] == pipe[1..] + [e];
      Appended(pipe[1..], e, c);
    }
  }

  // ---- Which tags are under way ----

  function ReqTags(inbox: seq<Request>): multiset<nat> {
    if inbox == [] then multiset{} else multiset{inbox[0].tag} + ReqTags(inbox[1..])
  }

  function EvTag(e: Event): multiset<nat> {
    if e.EvIssue? || e.EvSync? then multiset{e.tag} else multiset{}
  }

  function EvTags(pipe: seq<Event>): multiset<nat> {
    if pipe == [] then multiset{} else EvTag(pipe[0]) + EvTags(pipe[1..])
  }

  lemma {:induction false} ReqTagsRemoved(inbox: seq<Request>, k: nat)
    requires k < |inbox|
    ensures ReqTags(inbox) == ReqTags(inbox[..k] + inbox[k + 1..]) + multiset{inbox[k].tag}
    decreases k
  {
    if k == 0 {
      assert inbox[..0] + inbox[1..] == inbox[1..];
    } else {
      ReqTagsRemoved(inbox[1..], k - 1);
      var rest := inbox[..k] + inbox[k + 1..];
      assert rest[1..] == inbox[1..][..k - 1] + inbox[1..][k..];
    }
  }

  lemma {:induction false} ReqTagsAppended(inbox: seq<Request>, r: Request)
    ensures ReqTags(inbox + [r]) == ReqTags(inbox) + multiset{r.tag}
    decreases |inbox|
  {
    if inbox == [] {
      assert [] + [r] == [r];
    } else {
      assert (inbox + [r])[1..] == inbox[1..] + [r];
      ReqTagsAppended(inbox[1..], r);
    }
  }

  lemma {:induction false} EvTagsAppended(pipe: seq<Event>, e: Event)
    ensures EvTags(pipe + [e]) == EvTags(pipe) + EvTag(e)
    decreases |pipe|
  {
    if pipe == [] {
      assert [] + [e] == [e];
    } else {
      assert (pipe + [e])[1..] == pipe[1..] + [e];
      EvTagsAppended(pipe[1..], e);
    }
  }

  lemma {:induction false} ReqTagIn(inbox: seq<Request>, k: nat)
    requires k < |inbox|
    ensures inbox[k].tag in ReqTags(inbox)
    decreases k
  {
    if k > 0 { ReqTagIn(inbox[1..], k - 1); }
  }

  lemma {:induction false} EvTagIn(pipe: seq<Event>, k: nat)
    requires k < |pipe| && (pipe[k].EvIssue? || pipe[k].EvSync?)
    ensures pipe[k].tag in EvTags(pipe)
    decreases k
  {
    if k > 0 { EvTagIn(pipe[1..], k - 1); }
  }

  // ---- Invariant ----

  /** The answers in the pipe whose tag entries the driver has yet to look up. */
  function Unread(pipe: seq<Event>, pc: DrainPc): seq<Event> {
    if pc.OnIssueReply? && pipe != [] then pipe[1..] else pipe
  }

  /** The tag's request has not left the driver yet. */
  predicate Unsent(s: State, tag: nat) {
    UnsentBy(s.holder, s.tx, tag)
  }

  predicate Awaited(s: State, tag: nat, issue: bool, c: nat) {
    && tag < |s.tags.entries| && !Unsent(s, tag)
    && if issue then c < |s.chans| && s.tags.entries[tag].Issue? && s.tags.entries[tag].channel == c
       else s.tags.entries[tag] == Sync(None)
  }

  predicate ReqOk(s: State, r: Request) {
    match r
    case IssueReq(tag, c) => Awaited(s, tag, true, c)
    case SyncReq(tag) => Awaited(s, tag, false, 0)
  }

  predicate EvOk(s: State, e: Event) {
    match e
    case EvIssue(tag, c, _) => Awaited(s, tag, true, c)
    case EvSync(tag, _) => Awaited(s, tag, false, 0)
    case EvReport(c) => c < |s.chans|
    case EvNoise => true
  }

  ghost predicate PipeOk(w: World) {
    var pc := Pc(w.s.drainers);
    var busy := if Busy(pc) then 1 else 0;
    && |w.pipe| == |w.s.mail| + busy
    && (forall i :: 0 <= i < |w.s.mail| ==> Matches(w.pipe[i + busy], w.s.mail[i]))
    && match pc
       case OnReply(tag, ok) => Matches(w.pipe[0], ReplyMsg(tag, ok))
       case OnIssueReply(c, _, ok) => w.pipe[0].EvIssue? && w.pipe[0].c == c && w.pipe[0].ok == ok
       case OnReport(c) => w.pipe[0] == EvReport(c)
       case _ => true
  }

  /** Every request and answer under way is for a tag the driver still keeps, and no tag is under way twice. */
  ghost predicate TagsAwaited(s: State, inbox: seq<Request>, unread: seq<Event>) {
    && (forall r :: r in inbox ==> ReqOk(s, r))
    && (forall e :: e in unread ==> EvOk(s, e))
    && (forall t :: (ReqTags(inbox) + EvTags(unread))[t] <= 1)
  }

  /** A request that has not left the driver still has its tag entry, so its sender takes its own token back. */
  ghost predicate SendsOk(s: State) {
    SendsAt(s.tags, s.holder, s.tx)
  }

  ghost predicate SendsAt(tags: Table, h: Holder, tx: TxHolder) {
    && (h.Sending? && (h.spc.AtSend? || h.spc.AtFree?) ==>
          h.spc.tag < |tags.entries| && tags.entries[h.spc.tag] == Issue(h.c, h.g))
    && !(h.Sending? && h.spc == AtUndo(false))
    && (h.Stopping? && (h.ppc.StopSend? || h.ppc.StopFree?) ==>
          h.ppc.tag < |tags.entries| && tags.entries[h.ppc.tag] == Sync(None))
    && (tx.TxSync? ==> tx.tag < |tags.entries| && tags.entries[tx.tag] == Sync(None))
  }

  /** A reply being processed is for the pending issue of the channel's current transfer. */
  ghost predicate LiveOk(chans: seq<Channel>, pc: DrainPc) {
    pc.OnIssueReply? ==>
      && pc.c < |chans| && chans[pc.c].transfer.Some?
      && chans[pc.c].transfer.value.generation == pc.g && chans[pc.c].transfer.value.pending
  }

  ghost predicate InOrder(s: State) {
    SendsOk(s) && LiveOk(s.chans, Pc(s.drainers))
  }

  /** The driver's in-flight count, with the acknowledgements on their way to it, is what firmware owns and what it
      has reported; and no report reaches the driver before its acknowledgement. */
  ghost predicate AccountOk(ch: Channel, h: Holder, owned: nat, pipe: seq<Event>, c: nat) {
    if ch.transfer.None? then owned == 0 && Reports(pipe, c) == 0 && Acks(pipe, c) == 0
    else
      && ch.transfer.value.inflight + Acks(pipe, c) == owned + Reports(pipe, c)
      && Early(pipe, c) <= ch.transfer.value.inflight
      && (AfterReset(ch.ctl, h, c) || NothingPending(h, c) ==> ch.transfer.value.inflight == 0)
  }

  ghost predicate WorldInv(w: World) {
    && Inv(w.s)
    && PipeOk(w)
    && TagsAwaited(w.s, w.inbox, Unread(w.pipe, Pc(w.s.drainers)))
    && InOrder(w.s)
    && |w.owned| == |w.s.chans|
    && forall c :: 0 <= c < |w.s.chans| ==> AccountOk(w.s.chans[c], w.s.holder, w.owned[c], w.pipe, c)
  }

  // ---- The tag a driver step touches ----

  function Touched(s: State, l: Label): Option<nat>
    requires Enabled(s, l)
  {
    match l
    case LSend(ok) =>
      (match s.holder.spc
       case AtTag => Find(s.tags)
       case AtFree(tag) => Some(tag)
       case _ => None)
    case LStopStep(ok) =>
      (match s.holder.ppc
       case StopTag => Find(s.tags)
       case StopFree(tag) => Some(tag)
       case StopAwait(tag) => if s.tags.entries[tag] == Sync(None) && ok then None else Some(tag)
       case _ => None)
    case LDrain(i, _) => if s.drainers[i].pc.OnReply? then Some(s.drainers[i].pc.tag) else None
    case LSyncAlloc => Find(s.tags)
    case LSyncSent(ok) => if ok then None else Some(s.tx.tag)
    case LSyncDone(tag) => Some(tag)
    case _ => None
  }

  predicate UnsentBy(h: Holder, tx: TxHolder, tag: nat) {
    || (h.Sending? && (h.spc.AtSend? || h.spc.AtFree?) && h.spc.tag == tag)
    || (h.Stopping? && (h.ppc.StopSend? || h.ppc.StopFree?) && h.ppc.tag == tag)
    || tx == TxSync(tag)
  }

  lemma SendUntouched(e: Effect, ok: bool, tag: nat)
    requires e.holder.Sending? && TableOk(e.tags) && tag < TAGS
    requires e.holder.spc == AtTag ==> Find(e.tags) != Some(tag)
    requires e.holder.spc != AtFree(tag)
    ensures var e' := SendEffect(e, ok);
            && |e'.tags.entries| == TAGS && e'.tags.entries[tag] == e.tags.entries[tag]
            && (UnsentBy(e'.holder, e'.tx, tag) ==> UnsentBy(e.holder, e.tx, tag))
  {
  }

  lemma StopUntouched(e: Effect, ok: bool, tag: nat)
    requires e.holder.Stopping? && TableOk(e.tags) && (e.holder.ppc.StopAwait? ==> e.holder.ppc.tag < TAGS) && tag < TAGS
    requires e.holder.ppc == StopTag ==> Find(e.tags) != Some(tag)
    requires e.holder.ppc != StopFree(tag)
    requires e.holder.ppc == StopAwait(tag) ==> e.tags.entries[tag] == Sync(None) && ok
    ensures var e' := StopEffect(e, ok);
            && |e'.tags.entries| == TAGS && e'.tags.entries[tag] == e.tags.entries[tag]
            && (UnsentBy(e'.holder, e'.tx, tag) ==> UnsentBy(e.holder, e.tx, tag))
  {
  }

  lemma StartUntouched(s: State)
    requires Enabled(s, LStartStep)
    ensures Do(s, LStartStep) == Apply(s, StartEffect(HolderView(s)))
    ensures StartEffect(HolderView(s)).tags == s.tags && StartEffect(HolderView(s)).tx == s.tx
    ensures var h := StartEffect(HolderView(s)).holder; !h.Stopping? && (h.Sending? ==> h.spc.AtRunning?)
  {
  }

  lemma HolderUntouched(s: State, l: Label, tag: nat)
    requires LockOk(s) && Enabled(s, l) && HolderLabel(l) && tag < TAGS && Touched(s, l) != Some(tag)
    ensures var s' := Do(s, l);
            && |s'.tags.entries| == TAGS && s'.tags.entries[tag] == s.tags.entries[tag]
            && (Unsent(s', tag) ==> Unsent(s, tag))
  {
    hide DoDrain, SendEffect, StopEffect, StartEffect;
    match l
    case LSend(ok) => SendUntouched(HolderView(s), ok, tag);
    case LStopStep(ok) => StopUntouched(HolderView(s), ok, tag);
    case LStartStep => StartUntouched(s);
  }

  lemma BystanderUntouched(s: State, l: Label, tag: nat)
    requires LockOk(s) && Enabled(s, l) && tag < TAGS && (Bystander(l) || l.LScan? || l.LStart? || l.LStop?)
    ensures var s' := Do(s, l);
            && |s'.tags.entries| == TAGS && s'.tags.entries[tag] == s.tags.entries[tag]
            && (Unsent(s', tag) ==> Unsent(s, tag))
  {
    hide Do;
    if Bystander(l) { BystanderFrame(s, l); } else { OpenerFrame(s, l); }
  }

  lemma OthersUntouched(s: State, l: Label, tag: nat)
    requires LockOk(s) && Enabled(s, l) && tag < TAGS && Touched(s, l) != Some(tag)
    ensures var s' := Do(s, l);
            && |s'.tags.entries| == TAGS && s'.tags.entries[tag] == s.tags.entries[tag]
            && (Unsent(s', tag) ==> Unsent(s, tag))
  {
    hide DoDrain, LockOk, SendEffect, StopEffect, StartEffect, Find;
    if HolderLabel(l) { HolderUntouched(s, l, tag); }
    else if l.LDrain? { DrainUntouched(s, l.i, l.fail, tag); }
    else if Bystander(l) || l.LScan? || l.LStart? || l.LStop? { BystanderUntouched(s, l, tag); }
    else { SyncUntouched(s, l, tag); }
  }

  lemma SyncUntouched(s: State, l: Label, tag: nat)
    requires LockOk(s) && Enabled(s, l) && (l.LSyncAlloc? || l.LSyncSent? || l.LSyncDone?)
    requires tag < TAGS && Touched(s, l) != Some(tag)
    ensures var s' := Do(s, l);
            && |s'.tags.entries| == TAGS && s'.tags.entries[tag] == s.tags.entries[tag]
            && (Unsent(s', tag) ==> Unsent(s, tag))
  {
  }

  lemma DrainUntouched(s: State, i: nat, fail: bool, tag: nat)
    requires LockOk(s) && CanDrain(s, i) && tag < TAGS && (s.drainers[i].pc.OnReply? ==> s.drainers[i].pc.tag != tag)
    ensures var s' := DoDrain(s, i, fail);
            && |s'.tags.entries| == TAGS && s'.tags.entries[tag] == s.tags.entries[tag]
            && s'.holder == s.holder && s'.tx == s.tx
  {
    hide DoDrain;
    DrainFrame(s, i, fail);
  }

  // ---- Tags ----

  /** No request and no unread answer is for this tag. */
  ghost predicate Unused(inbox: seq<Request>, unread: seq<Event>, tag: nat) {
    && (forall r :: r in inbox ==> r.tag != tag)
    && (forall e :: e in unread ==> EvTag(e)[tag] == 0)
  }

  lemma {:induction false} NotInInbox(inbox: seq<Request>, tag: nat)
    requires forall r :: r in inbox ==> r.tag != tag
    ensures ReqTags(inbox)[tag] == 0
    decreases |inbox|
  {
    if inbox != [] {
      assert inbox[0] in inbox;
      NotInInbox(inbox[1..], tag);
    }
  }

  lemma {:induction false} NotInPipe(unread: seq<Event>, tag: nat)
    requires forall e :: e in unread ==> EvTag(e)[tag] == 0
    ensures EvTags(unread)[tag] == 0
    decreases |unread|
  {
    if unread != [] {
      assert unread[0] in unread;
      NotInPipe(unread[1..], tag);
    }
  }

  lemma UnusedCount(inbox: seq<Request>, unread: seq<Event>, tag: nat)
    ensures Unused(inbox, unread, tag) <==> (ReqTags(inbox) + EvTags(unread))[tag] == 0
  {
    if Unused(inbox, unread, tag) {
      NotInInbox(inbox, tag);
      NotInPipe(unread, tag);
    } else if r :| r in inbox && r.tag == tag {
      var k :| 0 <= k < |inbox| && inbox[k] == r;
      ReqTagIn(inbox, k);
    } else {
      var e :| e in unread && EvTag(e)[tag] != 0;
      var k :| 0 <= k < |unread| && unread[k] == e;
      EvTagIn(unread, k);
    }
  }

  /** A step that touches at most an unused tag leaves everything under way awaited. */
  lemma StillAwaited(s: State, s': State, inbox: seq<Request>, unread: seq<Event>, touched: Option<nat>)
    requires TagsAwaited(s, inbox, unread) && |s.tags.entries| == TAGS && |s'.tags.entries| == TAGS
    requires |s'.chans| == |s.chans|
    requires touched.Some? ==> Unused(inbox, unread, touched.value)
    requires forall tag: nat :: tag < TAGS && touched != Some(tag) ==>
                                  s'.tags.entries[tag] == s.tags.entries[tag] && (Unsent(s', tag) ==> Unsent(s, tag))
    ensures TagsAwaited(s', inbox, unread)
  {
    forall r | r in inbox ensures ReqOk(s', r) {
      assert ReqOk(s, r) && touched != Some(r.tag);
    }
    forall e | e in unread ensures EvOk(s', e) {
      assert EvOk(s, e);
      if e.EvIssue? || e.EvSync? { assert EvTag(e)[e.tag] == 1; }
    }
  }

  lemma TouchedUnused(s: State, l: Label, inbox: seq<Request>, unread: seq<Event>)
    requires LockOk(s) && Enabled(s, l) && Patient(s, l) && TagsAwaited(s, inbox, unread) && !l.LDrain?
    requires Touched(s, l).Some?
    ensures Unused(inbox, unread, Touched(s, l).value)
  {
    var tag := Touched(s, l).value;
    forall r | r in inbox ensures r.tag != tag {
      assert ReqOk(s, r);
    }
    forall e | e in unread ensures EvTag(e)[tag] == 0 {
      assert EvOk(s, e);
    }
  }

  /** What a step sends is for a tag that was not under way, and is awaited from then on. */
  lemma SentAwaited(s: State, l: Label, inbox: seq<Request>, unread: seq<Event>)
    requires LockOk(s) && InOrder(s) && Enabled(s, l) && TagsAwaited(s, inbox, unread) && Sent(s, l) != []
    requires !s.holder.NoHolder? ==> s.holder.c < |s.chans|
    ensures |Sent(s, l)| == 1 && ReqOk(Do(s, l), Sent(s, l)[0]) && Unused(inbox, unread, Sent(s, l)[0].tag)
  {
    var tag := Sent(s, l)[0].tag;
    forall r | r in inbox ensures r.tag != tag {
      assert ReqOk(s, r);
    }
    forall e | e in unread ensures EvTag(e)[tag] == 0 {
      assert EvOk(s, e);
    }
  }

  lemma InboxGrows(s: State, inbox: seq<Request>, unread: seq<Event>, r: Request)
    requires TagsAwaited(s, inbox, unread) && ReqOk(s, r) && Unused(inbox, unread, r.tag)
    ensures TagsAwaited(s, inbox + [r], unread)
  {
    UnusedCount(inbox, unread, r.tag);
    ReqTagsAppended(inbox, r);
    forall t ensures (ReqTags(inbox + [r]) + EvTags(unread))[t] <= 1 {
      assert (ReqTags(inbox) + EvTags(unread))[t] <= 1;
    }
  }

  lemma TagsStep(s: State, l: Label, inbox: seq<Request>, unread: seq<Event>)
    requires LockOk(s) && InOrder(s) && Enabled(s, l) && Patient(s, l) && TagsAwaited(s, inbox, unread) && !l.LDrain?
    requires LockOk(Do(s, l)) && |Do(s, l).chans| == |s.chans|
    ensures TagsAwaited(Do(s, l), inbox + Sent(s, l), unread)
  {
    var s' := Do(s, l);
    if Touched(s, l).Some? { TouchedUnused(s, l, inbox, unread); }
    forall tag: nat | tag < TAGS && Touched(s, l) != Some(tag)
      ensures s'.tags.entries[tag] == s.tags.entries[tag] && (Unsent(s', tag) ==> Unsent(s, tag))
    {
      OthersUntouched(s, l, tag);
    }
    StillAwaited(s, s', inbox, unread, Touched(s, l));
    if Sent(s, l) == [] {
      assert inbox + Sent(s, l) == inbox;
    } else {
      SentAwaited(s, l, inbox, unread);
      assert Sent(s, l) == [Sent(s, l)[0]];
      InboxGrows(s', inbox, unread, Sent(s, l)[0]);
    }
  }

  /** Taking the head answer off the unread part leaves its tag unused. */
  lemma HeadRead(s: State, inbox: seq<Request>, unread: seq<Event>)
    requires TagsAwaited(s, inbox, unread) && unread != []
    ensures TagsAwaited(s, inbox, unread[1..])
    ensures unread[0].EvIssue? || unread[0].EvSync? ==> Unused(inbox, unread[1..], unread[0].tag)
  {
    assert EvTags(unread) == EvTag(unread[0]) + EvTags(unread[1..]);
    forall e | e in unread[1..] ensures EvOk(s, e) {
      assert e in unread;
    }
    forall t ensures (ReqTags(inbox) + EvTags(unread[1..]))[t] <= 1 {
      assert (ReqTags(inbox) + EvTags(unread))[t] <= 1;
    }
    if unread[0].EvIssue? || unread[0].EvSync? {
      var t := unread[0].tag;
      assert (ReqTags(inbox) + EvTags(unread))[t] <= 1;
      UnusedCount(inbox, unread[1..], t);
    }
  }
}
