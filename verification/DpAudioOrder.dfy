/** A client that queues its periods in ring order never copies into a period firmware may be reading. */
module DpAudioOrder {
  import opened Arithmetic
  import opened Wrappers
  import opened SioTransfer
  import opened SioSystem
  import opened SioInvariant
  import opened DpAudioView
  import opened DpAudioChannel
  import opened DpAudioClient

  /** The offset of the next period in ring order. */
  function NextOffset(t: Transfer, submitted: nat): nat
    requires |t.slots| > 0
  {
    submitted % |t.slots| * t.periodLen
  }

  /** Every submit goes to the next period: the client's cursor starts at 0 and moves on only when a submit succeeds. */
  ghost predicate InOrder(worlds: seq<World>, actions: seq<Action>, c: nat)
    requires WorldRun(worlds, actions, c)
  {
    forall k :: 0 <= k < |actions| && actions[k].Submit? ==>
                  c < |worlds[k].s.chans| && Queues(worlds[k], actions[k].off, c)
  }

  ghost predicate Queues(w: World, off: nat, c: nat)
    requires c < |w.s.chans|
  {
    var tr := w.s.chans[c].transfer;
    tr.Some? && |tr.value.slots| > 0 && off == NextOffset(tr.value, w.k.submitted)
  }

  function Queued(k: Client): nat {
    k.submitted + if k.phase == Submitting then 1 else 0
  }

  /** The committed periods are the last queued ones, counted around the ring. */
  ghost predicate RingOrder(t: Transfer, queued: nat) {
    && |t.slots| > 0 && t.reported <= t.acked <= queued <= t.reported + |t.slots|
    && t.committed == Window(t.reported, queued, |t.slots|)
  }

  predicate ResetDone(x: Local) {
    x.h.Stopping? && (x.h.ppc.StopZero? || x.h.ppc.StopClear?)
  }

  ghost predicate Ordered(x: Local, k: Client) {
    Live(k.phase) && !k.phase.Stopped? && !(k.phase.Stopping? && ResetDone(x)) ==>
      x.ch.transfer.Some? && RingOrder(x.ch.transfer.value, Queued(k))
  }

  // ---- Windows ----

  lemma {:induction false} WindowSize(r: nat, a: nat, n: nat)
    requires n > 0 && r <= a <= r + n
    ensures |Window(r, a, n)| == a - r
    decreases a
  {
    if r < a {
      WindowSize(r, a - 1, n);
      WindowGrows(r, a - 1, n);
      NotInWindow(r, a - 1, n);
    } else {
      assert Window(r, a, n) == {};
    }
  }

  lemma NotInWindow(r: nat, a: nat, n: nat)
    requires n > 0 && r <= a < r + n
    ensures a % n !in Window(r, a, n)
  {
    if a % n in Window(r, a, n) {
      var i :| r <= i < a && a % n == i % n;
      ModDistinct(i, a, n);
    }
  }

  // ---- What happens to the transfer ----

  lemma AckOrdered(t: Transfer, queued: nat)
    requires Ring(t) && CanIssue(t) && RingOrder(t, queued)
    ensures RingOrder(Ack(t), queued)
  {
  }

  lemma ReportOrdered(t: Transfer, queued: nat)
    requires Ring(t) && RingOrder(t, queued)
    ensures RingOrder(Report(t), queued)
  {
    ReportKeepsRing(t);
    if Outcome(t) == Completed {
      WindowShrinks(t.reported, queued, |t.slots|);
    }
  }

  lemma CommitOrdered(t: Transfer, queued: nat)
    requires Ring(t) && RingOrder(t, queued) && CommitAnswer(t, NextOffset(t, queued)) == Accepted
    ensures RingOrder(Commit(t, NextOffset(t, queued)), queued + 1)
  {
    var n := |t.slots|;
    SmallMod(queued % n, 0, t.periodLen);
    WindowGrows(t.reported, queued, n);
    if queued == t.reported + n { FullWindow(t.reported, n); }
  }

  /** The same transfer, but for its flags. */
  predicate SameRing(t: Transfer, t': Transfer) {
    t'.slots == t.slots && t'.acked == t.acked && t'.reported == t.reported && t'.committed == t.committed
  }

  lemma HolderRing(x: Local, x': Local, c: nat, e: Effect, l: Label)
    requires Facts(x, c) && ChannelOk(x, c) && EffectMoves(x, x', c, e, l) && x.ch.transfer.Some?
    ensures x'.ch.transfer.Some?
    ensures SameRing(x.ch.transfer.value, x'.ch.transfer.value) || (x.h.Stopping? && ResetDone(x'))
    ensures ResetDone(x) ==> ResetDone(x') || OpReturns(x, x') || x'.ch.ctl.Quiesced?
    ensures ResetDone(x) && OpReturns(x, x') ==> Succeeded(x)
  {
    assert x.h == e.holder && x.ch == e.ch;
  }

  lemma HolderOrdered(x: Local, x': Local, k: Client, c: nat, e: Effect, l: Label)
    requires Facts(x, c) && ChannelOk(x, c) && EffectMoves(x, x', c, e, l) && ClientOk(x, k, c) && Ordered(x, k)
    requires ClientOk(x', Observe(k, x, x'), c) && Facts(x', c)
    ensures Ordered(x', Observe(k, x, x'))
  {
    hide EffectMoves, ChannelOk, Ring;
    if x.ch.transfer.Some? { HolderRing(x, x', c, e, l); }
  }

  lemma EngineOrdered(x: Local, x': Local, k: Client, c: nat)
    requires Facts(x, c) && Facts(x', c) && ChannelOk(x, c) && EngineMove(x, x', c) && ClientOk(x, k, c) && Ordered(x, k)
    requires ClientOk(x', Observe(k, x, x'), c)
    ensures Ordered(x', Observe(k, x, x'))
  {
    hide Facts, ChannelOk, ClientOk, Observe, WorkMoves, MailMoves, WorkerMoves, CtlMoves, EffectMoves, Ordered;
    if HolderMoves(x, x', c) {
      var e: Effect, l: Label :| EffectMoves(x, x', c, e, l);
      HolderOrdered(x, x', k, c, e, l);
    } else if WorkMoves(x, x', c) {
      WorkOrdered(x, x', k, c);
    } else {
      OtherOrdered(x, x', k, c);
    }
  }

  lemma WorkOrdered(x: Local, x': Local, k: Client, c: nat)
    requires Facts(x, c) && WorkMoves(x, x', c) && ClientOk(x, k, c) && Ordered(x, k)
    ensures Ordered(x', Observe(k, x, x'))
  {
    hide Ring, RingOrder;
    if x.ch.transfer.Some? {
      var t := x.ch.transfer.value;
      if RingOrder(t, Queued(k)) {
        ReportOrdered(t, Queued(k));
        NackOrdered(t, Queued(k));
        if CanIssue(t) { AckOrdered(t, Queued(k)); }
      }
    }
  }

  lemma NackOrdered(t: Transfer, queued: nat)
    requires RingOrder(t, queued)
    ensures RingOrder(Nack(t), queued)
  {
  }

  lemma OtherOrdered(x: Local, x': Local, k: Client, c: nat)
    requires Facts(x, c) && Facts(x', c) && ClientOk(x, k, c) && Ordered(x, k)
    requires x' == x || MailMoves(x, x', c) || WorkerMoves(x, x', c) || CtlMoves(x, x')
    ensures Ordered(x', Observe(k, x, x'))
  {
    hide Ring, RingOrder;
  }

  lemma ClientOrdered(w: World, a: Action, w': World, c: nat)
    requires WorldOk(w, c) && WorldNext(w, a, w', c) && !a.Engine? && c < |w'.s.chans| && Ordered(LocalOf(w.s, c), w.k)
    requires a.Submit? ==> Queues(w, a.off, c)
    ensures Ordered(LocalOf(w'.s, c), w'.k)
  {
    hide Inv, EachOk, ChannelOk, ClientOk, OwnHolder, OwnPc, Answered, RingOrder, Ring, CtlFits, Balanced;
    var x := LocalOf(w.s, c);
    match a {
      case Submit(off) =>
        SubmitSeen(w.s, off, w'.s, c);
        SubmitOrdered(x, w.k, c);
      case Take => TakeSeen(w.s, w'.s, c);
      case Start => StartSeen(w.s, w'.s, c);
      case Configure(periodLen, periods) => StopSeen(w.s, Prepare(periodLen, periods), w'.s, c);
      case Stop => StopSeen(w.s, Return, w'.s, c);
      case Close => StopSeen(w.s, Drop, w'.s, c);
      case _ => RecordOrdered(x, w.k, c);
    }
  }

  lemma SubmitOrdered(x: Local, k: Client, c: nat)
    requires RingOk(x.ch.transfer) && Ordered(x, k) && k.phase.Ready? && x.ch.transfer.Some?
    requires |x.ch.transfer.value.slots| > 0
    requires CommitAnswer(x.ch.transfer.value, NextOffset(x.ch.transfer.value, k.submitted)) == Accepted
    ensures var t := Commit(x.ch.transfer.value, NextOffset(x.ch.transfer.value, k.submitted));
            Ordered(x.(ch := x.ch.(transfer := Some(t))), k.(phase := Submitting))
  {
    CommitOrdered(x.ch.transfer.value, k.submitted);
  }

  /** From an empty transfer the client's cursor starts again at 0. */
  lemma RecordOrdered(x: Local, k: Client, c: nat)
    requires Facts(x, c) && ClientOk(x, k, c) && Ordered(x, k)
    ensures k.phase.Prepared? ==> Ordered(x, k.(phase := Ready, inFlight := 0, dmaRunning := false, submitted := 0))
    ensures k.phase.Submitting? ==>
              Ordered(x, k.(phase := Ready, inFlight := k.inFlight + 1, submitted := k.submitted + 1))
    ensures k.phase.Started? ==> Ordered(x, k.(phase := Ready, dmaRunning := true))
    ensures k.phase.Stopped? ==> Ordered(x, k.(phase := Ready, dmaRunning := false, inFlight := 0, submitted := 0))
  {
    assert forall n: nat :: n > 0 ==> Window(0, 0, n) == {};
  }

  lemma EngineStepOrdered(w: World, l: Label, w': World, c: nat)
    requires WorldOk(w, c) && WorldNext(w, Engine(l), w', c) && WorldOk(w', c) && Ordered(LocalOf(w.s, c), w.k)
    ensures Ordered(LocalOf(w'.s, c), w'.k)
  {
    hide Inv, Facts, ChannelOk, ClientOk, LocalOf, Observe, EngineMove, EachOk, Ordered;
    InvGivesFacts(w.s, c);
    EngineStep(w.s, l, w'.s, c);
    EngineOrdered(LocalOf(w.s, c), LocalOf(w'.s, c), w.k, c);
  }

  lemma {:induction false} RunOrdered(worlds: seq<World>, actions: seq<Action>, c: nat, k: nat)
    requires WorldRun(worlds, actions, c) && InOrder(worlds, actions, c) && k < |worlds|
    ensures WorldOk(worlds[k], c) && Ordered(LocalOf(worlds[k].s, c), worlds[k].k)
    decreases k
  {
    hide WorldNext, Ordered, ClientOk, ChannelOk, Inv, Facts;
    WorldRunOk(worlds, actions, c, k);
    if k == 0 {
      StartOrdered(worlds[0], c);
    } else {
      RunOrdered(worlds, actions, c, k - 1);
      if actions[k - 1].Engine? { EngineStepOrdered(worlds[k - 1], actions[k - 1].l, worlds[k], c); }
      else { ClientOrdered(worlds[k - 1], actions[k - 1], worlds[k], c); }
    }
  }

  lemma StartOrdered(w: World, c: nat)
    requires WorldInit(w) && c < |w.s.chans|
    ensures Ordered(LocalOf(w.s, c), w.k)
  {
  }

  // ---- Guarantees ----

  /** What the books and the ring order say of a stream that may submit: it has `inFlight` periods in flight at least as
      many as are committed, and these are the last of the `submitted` ones. */
  ghost predicate CopyState(t: Transfer, periods: nat, inFlight: nat, submitted: nat) {
    Ring(t) && RingOrder(t, submitted) && |t.slots| == periods && |t.committed| <= inFlight
  }

  /** Then a ring that is not full by the count has its next period free. */
  lemma NextIsFree(t: Transfer, periods: nat, inFlight: nat, submitted: nat)
    requires CopyState(t, periods, inFlight, submitted) && inFlight < periods
    ensures submitted % periods !in t.committed && submitted % periods !in t.issued
    ensures CommitAnswer(t, NextOffset(t, submitted)) == Accepted
  {
    WindowSize(t.reported, submitted, |t.slots|);
    NotInWindow(t.reported, submitted, |t.slots|);
    FreePeriodAccepted(t, submitted % |t.slots|);
  }

  /** Every stream that may submit is in that state, in every run of a client that submits in ring order. */
  lemma CopyStateHolds(worlds: seq<World>, actions: seq<Action>, c: nat, k: nat)
    requires WorldRun(worlds, actions, c) && InOrder(worlds, actions, c) && k < |worlds| && worlds[k].k.phase.Ready?
    ensures c < |worlds[k].s.chans| && worlds[k].s.chans[c].transfer.Some?
    ensures var client := worlds[k].k;
            CopyState(worlds[k].s.chans[c].transfer.value, client.periods, client.inFlight, client.submitted)
  {
    hide WorldRun, InOrder, Inv, ChannelOk;
    RunOrdered(worlds, actions, c, k);
  }

  /** When the ring-full test lets a submit through, the next period in ring order is not committed: firmware has not
      been given it, so the copy made before queueing it touches nothing firmware may read, and queueing it is
      accepted. */
  lemma CopySafe(worlds: seq<World>, actions: seq<Action>, c: nat, k: nat)
    requires WorldRun(worlds, actions, c) && InOrder(worlds, actions, c) && k < |worlds|
    requires worlds[k].k.phase.Ready? && worlds[k].k.inFlight < worlds[k].k.periods
    ensures c < |worlds[k].s.chans| && worlds[k].s.chans[c].transfer.Some?
    ensures var t, next := worlds[k].s.chans[c].transfer.value, worlds[k].k.submitted;
            && |t.slots| > 0
            && next % |t.slots| !in t.committed && next % |t.slots| !in t.issued
            && CommitAnswer(t, NextOffset(t, next)) == Accepted
  {
    hide WorldRun, InOrder;
    CopyStateHolds(worlds, actions, c, k);
    var client := worlds[k].k;
    NextIsFree(worlds[k].s.chans[c].transfer.value, client.periods, client.inFlight, client.submitted);
  }

  lemma FreePeriodAccepted(t: Transfer, p: nat)
    requires Ring(t) && p < |t.slots| && p !in t.committed
    ensures CommitAnswer(t, p * t.periodLen) == Accepted
  {
    SmallMod(p, 0, t.periodLen);
    MulMono(p + 1, |t.slots|, t.periodLen);
  }
}
