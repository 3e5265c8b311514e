/** The display audio driver on its SIO channel, with everything else in the system running beside it. */
module DpAudioClient {
  import opened Wrappers
  import opened SioTags
  import opened SioTransfer
  import opened SioSystem
  import opened SioInvariant
  import opened SioSteps
  import opened SioTheorems
  import opened DpAudioView
  import opened DpAudioChannel

  /** Where the driver stands. A control operation in progress is `Configuring`, `Starting`, `Stopping` or `Closing`;
      `Prepared`, `Started` and `Stopped` have its success at hand and have yet to record it; `Submitting` has
      committed a period and not yet counted it. */
  datatype Phase =
    | Unheld | Configuring | Unprepared | Prepared
    | Ready | Submitting | Starting | Started | Stopping | Stopped | Closing | Dead

  /** `submitted` counts periods queued since the stream was opened or last stopped. `visible`, `delivered` and
      `dropped` are history: completions made visible, returned to the audio core, and discarded by a stop. */
  datatype Client = Client(
    phase: Phase, inFlight: nat, dmaRunning: bool, periods: nat, submitted: nat,
    visible: nat, delivered: nat, dropped: nat)

  datatype World = World(s: State, k: Client)

  datatype Action =
    | Engine(l: Label)
    | Configure(periodLen: nat, periods: nat)
    | Open
    | Submit(off: nat)
    | SubmitDone
    | Take
    | Start
    | StartDone
    | Stop
    | StopDone
    | Close

  predicate TakesCompletions(p: Phase) {
    p.Ready? || p.Starting? || p.Started? || p.Stopping? || p.Stopped?
  }

  predicate Allowed(w: World, a: Action, c: nat) {
    match a
    case Engine(l) => Enabled(w.s, l) && !ClientsOwn(l, c)
    case Configure(periodLen, periods) => w.k.phase == Unheld && CanStop(w.s, c, Prepare(periodLen, periods))
    case Open => w.k.phase == Prepared
    case Submit(off) => w.k.phase == Ready && w.k.inFlight < w.k.periods && CanCommit(w.s, c, off)
    case SubmitDone => w.k.phase == Submitting
    case Take => TakesCompletions(w.k.phase) && c < |w.s.chans|
    case Start => w.k.phase == Ready && !w.k.dmaRunning && CanStart(w.s, c)
    case StartDone => w.k.phase == Started
    case Stop => w.k.phase == Ready && w.k.dmaRunning && CanStop(w.s, c, Return)
    case StopDone => w.k.phase == Stopped
    case Close =>
      && (w.k.phase == Unprepared || w.k.phase == Prepared || (w.k.phase == Ready && !w.k.dmaRunning))
      && CanStop(w.s, c, Drop)
  }

  /** The control operation returns with this step. */
  predicate OpReturns(x: Local, x': Local) {
    x.ch.ctl != Idle && x'.ch.ctl == Idle
  }

  /** And it returns success. */
  predicate Succeeded(x: Local) {
    match x.ch.ctl
    case InStart => if x.h.Sending? then !x.h.spc.AtStarterFail? else x.h.Starting? && x.h.tpc.StartRunning?
    case InStop(_) => x.h.Stopping? && (x.h.ppc.StopClear? || (x.h.ppc.StopMark? && x.ch.transfer.None?))
    case ClearError => true
    case _ => false
  }

  function PhaseAfter(p: Phase, ok: bool): Phase {
    match p
    case Configuring => if ok then Prepared else Unprepared
    case Starting => if ok then Started else Ready
    case Stopping => if ok then Stopped else Ready
    case Closing => if ok then Unheld else Dead
    case _ => p
  }

  /** What the driver learns from a step of the engine. */
  function Observe(k: Client, x: Local, x': Local): Client {
    var was, now := x.ch.completed, x'.ch.completed;
    k.(phase := if OpReturns(x, x') then PhaseAfter(k.phase, Succeeded(x)) else k.phase,
       visible := if now > was then k.visible + (now - was) else k.visible,
       dropped := if now < was then k.dropped + (was - now) else k.dropped)
  }

  function Min(a: nat, b: nat): (m: nat)
    ensures m <= a && m <= b && (m == a || m == b)
  {
    if a < b then a else b
  }

  /** `take_completions`. */
  function TakeCompletions(k: Client, completed: nat): Client {
    var taken := Min(completed, k.inFlight);
    k.(inFlight := k.inFlight - taken, delivered := k.delivered + taken)
  }

  ghost function Act(w: World, a: Action, c: nat): World
    requires c < |w.s.chans| && Allowed(w, a, c) && |AfterAction(w, a, c).chans| == |w.s.chans|
  {
    var s' := AfterAction(w, a, c);
    World(s', match a
              case Engine(_) => Observe(w.k, LocalOf(w.s, c), LocalOf(s', c))
              case Configure(_, periods) => w.k.(phase := Configuring, periods := periods)
              case Open => w.k.(phase := Ready, inFlight := 0, dmaRunning := false, submitted := 0)
              case Submit(_) => w.k.(phase := Submitting)
              case SubmitDone => w.k.(phase := Ready, inFlight := w.k.inFlight + 1, submitted := w.k.submitted + 1)
              case Take => TakeCompletions(w.k, w.s.chans[c].completed)
              case Start => w.k.(phase := Phase.Starting)
              case StartDone => w.k.(phase := Ready, dmaRunning := true)
              case Stop => w.k.(phase := Phase.Stopping)
              case StopDone => w.k.(phase := Ready, dmaRunning := false, inFlight := 0, submitted := 0)
              case Close => w.k.(phase := Closing))
  }

  /** What the action does to the engine. */
  function AfterAction(w: World, a: Action, c: nat): State
    requires Allowed(w, a, c)
  {
    match a
    case Engine(l) => Do(w.s, l)
    case Configure(periodLen, periods) => Do(w.s, LStop(c, Prepare(periodLen, periods)))
    case Submit(off) => Do(w.s, LCommit(c, off))
    case Take => Do(w.s, LTake(c))
    case Start => Do(w.s, LStart(c))
    case Stop => Do(w.s, LStop(c, Return))
    case Close => Do(w.s, LStop(c, Drop))
    case _ => w.s
  }

  ghost predicate WorldInit(w: World) {
    Init(w.s) && w.k == Client(Unheld, 0, false, 0, 0, 0, 0, 0)
  }

  // ---- The books ----

  /** Periods committed, completions not yet taken, and the report in the middle of being counted. */
  ghost function Outstanding(x: Local): nat {
    (if x.ch.transfer.Some? then |x.ch.transfer.value.committed| else 0)
    + x.ch.completed + (if x.pc.OnVisible? then 1 else 0)
  }

  function Counted(k: Client): nat {
    k.inFlight + if k.phase == Submitting then 1 else 0
  }

  predicate Live(p: Phase) {
    p.Ready? || p.Submitting? || p.Starting? || p.Started? || p.Stopping? || p.Stopped?
  }

  /** A transfer of the right size with nothing committed and nothing completed. */
  ghost predicate Empty(x: Local, k: Client, c: nat) {
    CleanIdle(x, c) && |x.ch.transfer.value.slots| == k.periods && x.ch.transfer.value.committed == {}
  }

  ghost predicate PrepareFits(x: Local, k: Client, c: nat) {
    match x.ch.ctl
    case InStop(next) => next.Prepare? && next.periods == k.periods
    case Quiesced(next) => next.Prepare? && next.periods == k.periods
    case Releasing(next, _) => next.Prepare? && next.periods == k.periods
    case Allocating(_, periods, _) => periods == k.periods
    case Unwinding(_) => true
    case Publish(_, got, _) => |got| == k.periods
    case ZeroCompleted => Empty(x, k, c)
    case ClearError => Empty(x, k, c) && x.ch.completed == 0
    case _ => false
  }

  ghost predicate CtlFits(x: Local, k: Client, c: nat) {
    match k.phase
    case Starting => x.ch.ctl == InStart
    case Stopping => x.ch.ctl == InStop(Return)
    case Configuring => PrepareFits(x, k, c)
    case Closing => x.ch.ctl != Idle
    case _ => x.ch.ctl == Idle
  }

  ghost predicate PhaseFits(x: Local, k: Client, c: nat) {
    match k.phase
    case Prepared => Empty(x, k, c) && x.ch.completed == 0
    case Ready => !k.dmaRunning ==> x.ch.error || CleanIdle(x, c)
    case Submitting => !k.dmaRunning ==> x.ch.error || CleanIdle(x, c)
    case Starting => !k.dmaRunning
    case Stopping =>
      && k.dmaRunning
      && (x.h.Stopping? && (x.h.ppc.StopZero? || x.h.ppc.StopClear?) ==>
            x.ch.transfer.Some? && x.ch.transfer.value.committed == {})
      && (x.h.Stopping? && x.h.ppc.StopClear? ==> x.ch.completed == 0)
    case Stopped => Empty(x, k, c) && x.ch.completed == 0
    case _ => true
  }

  /** The count never runs short, and is exact while no stop is in progress and the transfer is not terminated. */
  ghost predicate Balanced(x: Local, k: Client) {
    Live(k.phase) ==>
      && x.ch.transfer.Some? && |x.ch.transfer.value.slots| == k.periods
      && Outstanding(x) <= Counted(k)
      && (!k.phase.Stopping? && !k.phase.Stopped? && !Terminated(x.ch) ==> Outstanding(x) == Counted(k))
  }

  ghost predicate Ledger(x: Local, k: Client) {
    k.visible == k.delivered + k.dropped + x.ch.completed
  }

  ghost predicate ClientOk(x: Local, k: Client, c: nat) {
    CtlFits(x, k, c) && PhaseFits(x, k, c) && Balanced(x, k) && Ledger(x, k)
  }

  // ---- Steps of the engine keep the books ----

  /** What a step of a send leaves alone. */
  lemma SendShape(x: Local, x': Local, c: nat, e: Effect, l: Label)
    requires Facts(x, c) && ChannelOk(x, c) && EffectMoves(x, x', c, e, l) && l.LSend?
    ensures x'.ch.completed == x.ch.completed && x'.pc == x.pc && (x.ch.error ==> x'.ch.error)
    ensures x'.ch.transfer.Some? == x.ch.transfer.Some?
    ensures x.ch.transfer.Some? ==> x'.ch.transfer.value.committed == x.ch.transfer.value.committed
                                    && x'.ch.transfer.value.slots == x.ch.transfer.value.slots
                                    && (Terminated(x.ch) ==> Terminated(x'.ch))
    ensures x'.ch.ctl == if x.ch.ctl == InStart && x'.h == NoHolder then Idle else x.ch.ctl
    ensures CleanIdle(x, c) && x.ch.ctl != InStart ==> CleanIdle(x', c)
    ensures x.ch.ctl == InStart && x'.h == NoHolder && x.h.spc.AtStarterFail? ==> x.ch.error || x.ch.transfer.None?
  {
    hide TagLocksOk, Ring;
    assert x.h == e.holder && x.ch == e.ch;
  }

  lemma SendBooks(x: Local, x': Local, k: Client, c: nat, e: Effect, l: Label)
    requires Facts(x, c) && Facts(x', c) && ChannelOk(x, c) && ChannelOk(x', c) && EffectMoves(x, x', c, e, l) && l.LSend?
    requires ClientOk(x, k, c)
    ensures ClientOk(x', Observe(k, x, x'), c)
  {
    hide EffectMoves, Ring, ReplyOk, VisibleOk, StopOk, StopHasTransfer, CleanIdle, Core, FailureOk, StartOk;
    SendIsSend(x, x', c, e, l);
    SendShape(x, x', c, e, l);
    assert Outstanding(x') == Outstanding(x);
  }

  lemma SendIsSend(x: Local, x': Local, c: nat, e: Effect, l: Label)
    requires EffectMoves(x, x', c, e, l) && l.LSend?
    ensures x.h.Sending? && (x'.h == NoHolder || x'.h.Sending?)
  {
    hide TagLocksOk;
    assert x.h == e.holder;
  }

  lemma StartBooks(x: Local, x': Local, k: Client, c: nat, e: Effect, l: Label)
    requires Facts(x, c) && Facts(x', c) && ChannelOk(x, c) && ChannelOk(x', c)
    requires EffectMoves(x, x', c, e, l) && l.LStartStep? && ClientOk(x, k, c)
    ensures ClientOk(x', Observe(k, x, x'), c)
  {
    hide TagLocksOk, Ring;
    assert x.h == e.holder && x.ch == e.ch;
  }

  lemma StopBooks(x: Local, x': Local, k: Client, c: nat, e: Effect, l: Label)
    requires Facts(x, c) && Facts(x', c) && ChannelOk(x, c) && ChannelOk(x', c)
    requires EffectMoves(x, x', c, e, l) && l.LStopStep? && ClientOk(x, k, c)
    ensures ClientOk(x', Observe(k, x, x'), c)
  {
    hide TagLocksOk, Ring, Answered, ReplyOk, Core;
    assert x.h == e.holder && x.ch == e.ch;
  }

  lemma ReplyBooks(x: Local, x': Local, k: Client, c: nat)
    requires Facts(x, c) && ChannelOk(x, c) && ChannelOk(x', c) && WorkMoves(x, x', c) && ClientOk(x, k, c)
    requires x.pc.OnIssueReply?
    ensures ClientOk(x', Observe(k, x, x'), c)
  {
    hide Ring;
  }

  lemma ReportBooks(x: Local, x': Local, k: Client, c: nat)
    requires Facts(x, c) && ChannelOk(x, c) && ChannelOk(x', c) && WorkMoves(x, x', c) && ClientOk(x, k, c)
    requires x.pc.OnReport?
    ensures ClientOk(x', Observe(k, x, x'), c)
  {
    hide Ring;
    if x.ch.transfer.Some? { NothingToReport(x.ch.transfer.value); }
  }

  lemma VisibleBooks(x: Local, x': Local, k: Client, c: nat)
    requires Facts(x, c) && ChannelOk(x, c) && ChannelOk(x', c) && WorkMoves(x, x', c) && ClientOk(x, k, c)
    requires x.pc.OnVisible?
    ensures ClientOk(x', Observe(k, x, x'), c)
  {
    hide Ring;
  }

  lemma WorkBooks(x: Local, x': Local, k: Client, c: nat)
    requires Facts(x, c) && ChannelOk(x, c) && ChannelOk(x', c) && WorkMoves(x, x', c) && ClientOk(x, k, c)
    ensures ClientOk(x', Observe(k, x, x'), c)
  {
    hide Facts, ChannelOk, ClientOk, Observe;
    if x.pc.OnIssueReply? { ReplyBooks(x, x', k, c); }
    else if x.pc.OnReport? { ReportBooks(x, x', k, c); }
    else { VisibleBooks(x, x', k, c); }
  }

  lemma CtlBooks(x: Local, x': Local, k: Client, c: nat)
    requires Facts(x, c) && Facts(x', c) && ChannelOk(x, c) && ChannelOk(x', c) && CtlMoves(x, x') && ClientOk(x, k, c)
    ensures ClientOk(x', Observe(k, x, x'), c)
  {
    hide Ring;
  }

  lemma OtherBooks(x: Local, x': Local, k: Client, c: nat)
    requires Facts(x, c) && Facts(x', c) && ChannelOk(x, c) && ChannelOk(x', c) && ClientOk(x, k, c)
    requires x' == x || MailMoves(x, x', c) || WorkerMoves(x, x', c)
    ensures ClientOk(x', Observe(k, x, x'), c)
  {
    hide Ring;
  }

  lemma EngineBooks(x: Local, x': Local, k: Client, c: nat)
    requires Facts(x, c) && Facts(x', c) && ChannelOk(x, c) && ChannelOk(x', c) && EngineMove(x, x', c)
    requires ClientOk(x, k, c)
    ensures ClientOk(x', Observe(k, x, x'), c)
  {
    hide Facts, ChannelOk, ClientOk, Observe, WorkMoves, MailMoves, WorkerMoves, CtlMoves, EffectMoves;
    if HolderMoves(x, x', c) {
      var e: Effect, l: Label :| EffectMoves(x, x', c, e, l);
      MovesByLabel(x, x', c, e, l);
      if l.LSend? { SendBooks(x, x', k, c, e, l); }
      else if l.LStartStep? { StartBooks(x, x', k, c, e, l); }
      else { StopBooks(x, x', k, c, e, l); }
    } else if WorkMoves(x, x', c) {
      WorkBooks(x, x', k, c);
    } else if CtlMoves(x, x') {
      CtlBooks(x, x', k, c);
    } else {
      OtherBooks(x, x', k, c);
    }
  }

  // ---- Steps of the client keep the books ----

  lemma SubmitSeen(s: State, off: nat, s': State, c: nat)
    requires CanCommit(s, c, off) && s' == DoCommit(s, c, off) && c < |s'.chans|
    ensures var x := LocalOf(s, c);
            LocalOf(s', c) == x.(ch := x.ch.(transfer := Some(Commit(x.ch.transfer.value, off))))
  {
    hide Answered;
  }

  lemma SubmitBooks(x: Local, k: Client, off: nat, c: nat)
    requires Facts(x, c) && ChannelOk(x, c) && ClientOk(x, k, c)
    requires k.phase.Ready? && x.ch.transfer.Some? && CommitAnswer(x.ch.transfer.value, off) == Accepted
    ensures var x' := x.(ch := x.ch.(transfer := Some(Commit(x.ch.transfer.value, off))));
            ChannelOk(x', c) && ClientOk(x', k.(phase := Submitting), c)
  {
    hide Ring;
  }

  lemma TakeBooks(x: Local, k: Client, c: nat)
    requires Facts(x, c) && ChannelOk(x, c) && ClientOk(x, k, c) && TakesCompletions(k.phase)
    ensures var x' := x.(ch := x.ch.(completed := 0));
            ChannelOk(x', c) && ClientOk(x', TakeCompletions(k, x.ch.completed), c)
  {
    hide Ring;
  }

  lemma StartSeen(s: State, s': State, c: nat)
    requires CanStart(s, c) && s' == DoStart(s, c) && c < |s'.chans|
    ensures LocalOf(s, c).h == NoHolder && !LocalOf(s, c).answered
    ensures LocalOf(s', c) == LocalOf(s, c).(ch := s.chans[c].(ctl := InStart), h := Holder.Starting(c, StartError))
  {
  }

  lemma StartsBooks(x: Local, k: Client, c: nat)
    requires Facts(x, c) && ChannelOk(x, c) && ClientOk(x, k, c)
    requires k.phase.Ready? && !k.dmaRunning && x.h == NoHolder && !x.answered
    ensures var x' := x.(ch := x.ch.(ctl := InStart), h := Holder.Starting(c, StartError));
            ChannelOk(x', c) && ClientOk(x', k.(phase := Phase.Starting), c)
  {
    hide Ring;
  }

  lemma StopSeen(s: State, next: AfterStop, s': State, c: nat)
    requires CanStop(s, c, next) && s' == DoStop(s, c, next) && c < |s'.chans|
    ensures LocalOf(s, c).h == NoHolder && !LocalOf(s, c).answered && LocalOf(s, c).ch.ctl == Idle
    ensures LocalOf(s', c) == LocalOf(s, c).(ch := s.chans[c].(ctl := InStop(next)), h := Holder.Stopping(c, StopMark))
  {
  }

  predicate StopFits(k: Client, next: AfterStop, p: Phase, periods: nat) {
    || (k.phase.Unheld? && next.Prepare? && next.periods == periods && p.Configuring?)
    || (k.phase.Ready? && k.dmaRunning && next.Return? && p.Stopping? && periods == k.periods)
    || (!Live(k.phase) && next.Drop? && p.Closing? && periods == k.periods)
    || (k.phase.Ready? && next.Drop? && p.Closing? && periods == k.periods)
  }

  lemma StopsBooks(x: Local, k: Client, next: AfterStop, p: Phase, periods: nat, c: nat)
    requires Facts(x, c) && ChannelOk(x, c) && ClientOk(x, k, c)
    requires StopFits(k, next, p, periods) && x.h == NoHolder && !x.answered && x.ch.ctl == Idle
    ensures var x' := x.(ch := x.ch.(ctl := InStop(next)), h := Holder.Stopping(c, StopMark));
            ChannelOk(x', c) && ClientOk(x', k.(phase := p, periods := periods), c)
  {
    hide Ring;
  }

  /** The actions that only record something. */
  lemma RecordBooks(x: Local, k: Client, c: nat)
    requires Facts(x, c) && ChannelOk(x, c) && ClientOk(x, k, c)
    ensures k.phase.Prepared? ==>
              ClientOk(x, k.(phase := Ready, inFlight := 0, dmaRunning := false, submitted := 0), c)
    ensures k.phase.Submitting? ==>
              ClientOk(x, k.(phase := Ready, inFlight := k.inFlight + 1, submitted := k.submitted + 1), c)
    ensures k.phase.Started? ==> ClientOk(x, k.(phase := Ready, dmaRunning := true), c)
    ensures k.phase.Stopped? ==>
              ClientOk(x, k.(phase := Ready, dmaRunning := false, inFlight := 0, submitted := 0), c)
  {
    hide Ring;
  }

  // ---- Every run ----

  ghost predicate WorldOk(w: World, c: nat) {
    && Inv(w.s) && c < |w.s.chans|
    && Facts(LocalOf(w.s, c), c)
    && ChannelOk(LocalOf(w.s, c), c)
    && ClientOk(LocalOf(w.s, c), w.k, c)
  }

  lemma InvGivesFacts(s: State, c: nat)
    requires Inv(s) && c < |s.chans|
    ensures Facts(LocalOf(s, c), c) && Base(s)
  {
    assert EachOk(ViewOf(s, c), c);
    FactsHold(s, c);
  }

  ghost predicate WorldNext(w: World, a: Action, w': World, c: nat) {
    && c < |w.s.chans| && Allowed(w, a, c) && |AfterAction(w, a, c).chans| == |w.s.chans| && w' == Act(w, a, c)
  }

  /** A run of the world: `worlds[k]` takes `actions[k]` to `worlds[k + 1]`. */
  ghost predicate WorldRun(worlds: seq<World>, actions: seq<Action>, c: nat) {
    && |worlds| == |actions| + 1
    && WorldInit(worlds[0]) && c < |worlds[0].s.chans|
    && forall k :: 0 <= k < |actions| ==> WorldNext(worlds[k], actions[k], worlds[k + 1], c)
  }

  lemma StartWorldOk(w: World, c: nat)
    requires WorldInit(w) && c < |w.s.chans|
    ensures WorldOk(w, c)
  {
    InitInv(w.s);
    InvGivesFacts(w.s, c);
    assert LocalOf(w.s, c) == Local(Channel(false, false, None, 0, 1, Idle), NoHolder, Receive, false);
  }

  /** The engine's part of an action, if it has one. */
  function LabelOf(a: Action, c: nat): Option<Label> {
    match a
    case Engine(l) => Some(l)
    case Configure(periodLen, periods) => Some(LStop(c, Prepare(periodLen, periods)))
    case Submit(off) => Some(LCommit(c, off))
    case Take => Some(LTake(c))
    case Start => Some(LStart(c))
    case Stop => Some(LStop(c, Return))
    case Close => Some(LStop(c, Drop))
    case _ => None
  }

  lemma ActionIsStep(w: World, a: Action, w': World, c: nat)
    requires Inv(w.s) && WorldNext(w, a, w', c)
    ensures Inv(w'.s) && c < |w'.s.chans|
    ensures Facts(LocalOf(w'.s, c), c)
    ensures LabelOf(a, c).Some? ==> Next(w.s, LabelOf(a, c).value, w'.s)
    ensures LabelOf(a, c).None? ==> w'.s == w.s
  {
    hide Inv, LocalOf, Facts;
    if LabelOf(a, c).Some? {
      InvStep(w.s, LabelOf(a, c).value, w'.s);
    }
    InvGivesFacts(w'.s, c);
  }

  lemma EngineActs(w: World, l: Label, w': World, c: nat)
    requires WorldOk(w, c) && WorldNext(w, Engine(l), w', c) && Inv(w'.s) && Facts(LocalOf(w'.s, c), c)
    ensures WorldOk(w', c)
  {
    hide Inv, Facts, ChannelOk, ClientOk, LocalOf, Observe, EngineMove, EachOk;
    InvGivesFacts(w.s, c);
    EngineStep(w.s, l, w'.s, c);
    EngineKeeps(LocalOf(w.s, c), LocalOf(w'.s, c), c);
    EngineBooks(LocalOf(w.s, c), LocalOf(w'.s, c), w.k, c);
  }

  lemma ClientActs(w: World, a: Action, w': World, c: nat)
    requires WorldOk(w, c) && WorldNext(w, a, w', c) && !a.Engine? && Inv(w'.s) && Facts(LocalOf(w'.s, c), c)
    ensures WorldOk(w', c)
  {
    hide Inv, Facts, ChannelOk, ClientOk, EachOk, OwnHolder, OwnPc, Answered;
    var x := LocalOf(w.s, c);
    match a {
      case Submit(off) =>
        SubmitSeen(w.s, off, w'.s, c);
        SubmitBooks(x, w.k, off, c);
      case Take =>
        assert w'.s.chans[c] == w.s.chans[c].(completed := 0);
        TakeSeen(w.s, w'.s, c);
        TakeBooks(x, w.k, c);
      case Start =>
        StartSeen(w.s, w'.s, c);
        StartsBooks(x, w.k, c);
      case Configure(periodLen, periods) =>
        StopSeen(w.s, Prepare(periodLen, periods), w'.s, c);
        StopsBooks(x, w.k, Prepare(periodLen, periods), Configuring, periods, c);
      case Stop =>
        StopSeen(w.s, Return, w'.s, c);
        StopsBooks(x, w.k, Return, Phase.Stopping, w.k.periods, c);
      case Close =>
        StopSeen(w.s, Drop, w'.s, c);
        StopsBooks(x, w.k, Drop, Closing, w.k.periods, c);
      case _ =>
        RecordBooks(x, w.k, c);
    }
  }

  lemma TakeSeen(s: State, s': State, c: nat)
    requires c < |s.chans| && s' == SetChan(s, c, s.chans[c].(completed := 0)) && c < |s'.chans|
    ensures LocalOf(s', c) == LocalOf(s, c).(ch := s.chans[c].(completed := 0))
  {
    hide Answered;
  }

  lemma {:induction false} WorldRunOk(worlds: seq<World>, actions: seq<Action>, c: nat, k: nat)
    requires WorldRun(worlds, actions, c) && k < |worlds|
    ensures WorldOk(worlds[k], c)
    decreases k
  {
    hide WorldOk, WorldNext;
    if k == 0 {
      StartWorldOk(worlds[0], c);
    } else {
      WorldRunOk(worlds, actions, c, k - 1);
      StepOk(worlds[k - 1], actions[k - 1], worlds[k], c);
    }
  }

  lemma StepOk(w: World, a: Action, w': World, c: nat)
    requires WorldOk(w, c) && WorldNext(w, a, w', c)
    ensures WorldOk(w', c)
  {
    hide Inv, Facts, ChannelOk, ClientOk, LocalOf, EachOk, Act;
    ActionIsStep(w, a, w', c);
    if a.Engine? { EngineActs(w, a.l, w', c); } else { ClientActs(w, a, w', c); }
  }

  // ---- Guarantees ----

  /** Whatever firmware does and however the threads interleave, the driver's count covers every committed period,
      every untaken completion and the report in the middle of being counted, and equals them while no stop is in
      progress and the transfer is not terminated. */
  lemma CountConserved(worlds: seq<World>, actions: seq<Action>, c: nat, k: nat)
    requires WorldRun(worlds, actions, c) && k < |worlds| && Live(worlds[k].k.phase)
    ensures c < |worlds[k].s.chans|
    ensures var x, client := LocalOf(worlds[k].s, c), worlds[k].k;
            && Outstanding(x) <= Counted(client)
            && (!client.phase.Stopping? && !client.phase.Stopped? && !Terminated(x.ch) ==>
                  Outstanding(x) == Counted(client))
  {
    WorldRunOk(worlds, actions, c, k);
  }

  /** So taking completions never truncates, and every completion made visible is delivered to the audio core once,
      unless a stop discards it. */
  lemma TakesAreExact(worlds: seq<World>, actions: seq<Action>, c: nat, k: nat)
    requires WorldRun(worlds, actions, c) && k < |worlds|
    ensures c < |worlds[k].s.chans|
    ensures var client, completed := worlds[k].k, worlds[k].s.chans[c].completed;
            && (TakesCompletions(client.phase) ==> Min(completed, client.inFlight) == completed)
            && client.visible == client.delivered + client.dropped + completed
  {
    WorldRunOk(worlds, actions, c, k);
  }
}
