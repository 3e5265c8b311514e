/** The transfer and channel objects the driver updates in place, each locked region proved against its step in the
    state machine. */
module SioChannel {
  import opened Wrappers
  import opened SioTags
  import opened SioTransfer
  import opened SioSystem

  // ---- What a thread that holds the issue lock does when nobody else does anything ----

  function Rank(h: Holder): nat {
    match h
    case Starting(_, tpc) =>
      (match tpc
       case StartError => 14
       case StartRunning => 13
       case StartClear => 12
       case StartSet(_) => 11)
    case Sending(_, _, spc, _) =>
      (match spc
       case AtRunning => 10
       case AtError => 9
       case AtClaim => 8
       case AtTag => 7
       case AtSend(_) => 6
       case AtFree(_) => 5
       case AtUndo(_) => 4
       case AtSetError => 3
       case AtClearRunning => 2
       case AtStarterFail => 1)
    case _ => 0
  }

  /** Its steps in the machine, to the release of the lock. */
  function Alone(e: Effect, ok: bool): Effect
    requires TableOk(e.tags) && (e.holder.Sending? || e.holder.Starting?)
    decreases Rank(e.holder)
  {
    var e' := if e.holder.Sending? then SendEffect(e, ok) else StartEffect(e);
    if e'.holder.NoHolder? then e' else Alone(e', ok)
  }

  /** The next period was claimed, and could not be sent: the claim is taken back and the channel is in error. */
  function Failed(ch: Channel): Channel
    requires ch.transfer.Some?
  {
    ch.(transfer := Some(ch.transfer.value.(terminated := true)), error := true, running := false)
  }

  predicate MaySend(ch: Channel, g: nat) {
    ch.running && !ch.error && ch.transfer.Some? && Claimable(ch.transfer.value, g)
  }

  /** All of a send: nothing at all, one period pending under one tag, or an error and no tag. */
  function SendOutcome(ch: Channel, tags: Table, c: nat, g: nat, ok: bool): (Channel, Table)
    requires TableOk(tags)
  {
    if !MaySend(ch, g) then (ch, tags)
    else match Find(tags)
      case None => (Failed(ch), tags)
      case Some(tag) =>
        if ok then (ch.(transfer := Some(ch.transfer.value.(pending := true))), Allocate(tags, Issue(c, g)))
        else (Failed(ch), Table(tags.entries, tag))
  }

  predicate MayStart(ch: Channel) {
    !ch.error && !ch.running && ch.transfer.Some?
  }

  /** All of a start. */
  function StartOutcome(ch: Channel, tags: Table, c: nat, ok: bool): (Channel, Table)
    requires TableOk(tags)
  {
    if !MayStart(ch) then (ch, tags)
    else
      var t := ch.transfer.value;
      SendOutcome(ch.(transfer := Some(t.(terminated := false)), running := true), tags, c, t.generation, ok)
  }

  /** A tag allocated and freed again leaves every entry as it was. */
  lemma AllocateThenRelease(t: Table, kind: Kind)
    requires TableOk(t) && kind != Free && Find(t).Some?
    ensures TableOk(Allocate(t, kind)) && Find(t).value < TAGS
    ensures Allocate(t, kind).entries[Find(t).value] == kind
    ensures Release(Allocate(t, kind), Find(t).value) == Table(t.entries, Find(t).value)
  {
    AllocateIsExact(t, kind);
    assert t.entries[Find(t).value := kind][Find(t).value := Free] == t.entries;
  }

  lemma StepAlone(e: Effect, ok: bool, e': Effect)
    requires TableOk(e.tags) && (e.holder.Sending? || e.holder.Starting?)
    requires e' == (if e.holder.Sending? then SendEffect(e, ok) else StartEffect(e)) && !e'.holder.NoHolder?
    ensures TableOk(e'.tags) && Alone(e, ok) == Alone(e', ok)
  {
  }

  function Closed(ch: Channel, starter: bool): Channel {
    if starter then ch.(ctl := Idle) else ch
  }

  lemma UndoAlone(e: Effect, ok: bool, c: nat, g: nat, own: bool, starter: bool, was: Transfer)
    requires TableOk(e.tags) && e.holder == Sending(c, g, AtUndo(own), starter)
    requires !was.pending && was.generation == g && e.ch.transfer == Some(was.(pending := true))
    ensures Alone(e, ok) == Effect(Closed(Failed(e.ch.(transfer := Some(was))), starter), e.tags, e.tx, NoHolder)
  {
    var e1 := e.(ch := e.ch.(transfer := Some(was.(terminated := true))), holder := Sending(c, g, AtSetError, starter));
    StepAlone(e, ok, e1);
    var e2 := e1.(ch := e1.ch.(error := true), holder := Sending(c, g, AtClearRunning, starter));
    StepAlone(e1, ok, e2);
    if starter {
      StepAlone(e2, ok, e2.(ch := e2.ch.(running := false), holder := Sending(c, g, AtStarterFail, starter)));
    }
  }

  lemma TagAlone(e: Effect, ok: bool, c: nat, g: nat, starter: bool, was: Transfer)
    requires TableOk(e.tags) && e.tx == TxFree && e.holder == Sending(c, g, AtTag, starter)
    requires !was.pending && was.generation == g && e.ch.transfer == Some(was.(pending := true))
    ensures Alone(e, ok) ==
            match Find(e.tags)
            case None => Effect(Closed(Failed(e.ch.(transfer := Some(was))), starter), e.tags, TxFree, NoHolder)
            case Some(tag) =>
              if ok then Effect(Closed(e.ch, starter), Allocate(e.tags, Issue(c, g)), TxFree, NoHolder)
              else Effect(Closed(Failed(e.ch.(transfer := Some(was))), starter), Table(e.tags.entries, tag), TxFree, NoHolder)
  {
    hide Allocate, Release, Find;
    match Find(e.tags)
    case None =>
      var e1 := e.(holder := Sending(c, g, AtUndo(true), starter));
      StepAlone(e, ok, e1);
      UndoAlone(e1, ok, c, g, true, starter, was);
    case Some(tag) =>
      AllocateThenRelease(e.tags, Issue(c, g));
      var e1 := e.(tags := Allocate(e.tags, Issue(c, g)), tx := TxIssue, holder := Sending(c, g, AtSend(tag), starter));
      StepAlone(e, ok, e1);
      if !ok {
        var e2 := e1.(holder := Sending(c, g, AtFree(tag), starter));
        StepAlone(e1, ok, e2);
        var e3 := e2.(tags := Table(e.tags.entries, tag), tx := TxFree, holder := Sending(c, g, AtUndo(true), starter));
        StepAlone(e2, ok, e3);
        UndoAlone(e3, ok, c, g, true, starter, was);
      }
  }

  /** The steps of a send that nobody interrupts have its outcome. */
  lemma SendAlone(e: Effect, ok: bool, c: nat, g: nat, starter: bool)
    requires TableOk(e.tags) && e.tx == TxFree && e.holder == Sending(c, g, AtRunning, starter)
    requires starter ==> e.ch.transfer.Some?
    ensures var (ch, tags) := SendOutcome(e.ch, e.tags, c, g, ok);
            Alone(e, ok) == Effect(Closed(ch, starter), tags, TxFree, NoHolder)
  {
    if e.ch.running {
      var e1 := e.(holder := Sending(c, g, AtError, starter));
      StepAlone(e, ok, e1);
      if !e.ch.error {
        var e2 := e.(holder := Sending(c, g, AtClaim, starter));
        StepAlone(e1, ok, e2);
        if e.ch.transfer.Some? && Claimable(e.ch.transfer.value, g) {
          var was := e.ch.transfer.value;
          var e3 := e.(ch := e.ch.(transfer := Some(was.(pending := true))), holder := Sending(c, g, AtTag, starter));
          StepAlone(e2, ok, e3);
          TagAlone(e3, ok, c, g, starter, was);
          assert e3.ch.(transfer := Some(was)) == e.ch;
        }
      }
    }
  }

  /** So have those of a start. */
  lemma StartAlone(e: Effect, ok: bool, c: nat)
    requires TableOk(e.tags) && e.tx == TxFree && e.holder == Starting(c, StartError) && e.ch.ctl == InStart
    ensures var (ch, tags) := StartOutcome(e.ch.(ctl := Idle), e.tags, c, ok);
            Alone(e, ok) == Effect(ch, tags, TxFree, NoHolder)
  {
    if !e.ch.error {
      var e1 := e.(holder := Starting(c, StartRunning));
      StepAlone(e, ok, e1);
      if !e.ch.running {
        var e2 := e.(holder := Starting(c, StartClear));
        StepAlone(e1, ok, e2);
        if e.ch.transfer.Some? {
          var t := Restarted(e.ch.transfer.value);
          var e3 := e.(ch := e.ch.(transfer := Some(t)), holder := Starting(c, StartSet(t.generation)));
          StepAlone(e2, ok, e3);
          var e4 := e3.(ch := e3.ch.(running := true), holder := Sending(c, t.generation, AtRunning, true));
          StepAlone(e3, ok, e4);
          SendAlone(e4, ok, c, t.generation, true);
        }
      }
    }
  }

  /** A stop up to the point where it knows whether firmware must be told. */
  function StopBegun(ch: Channel): Channel
    requires ch.transfer.Some?
  {
    var t := ch.transfer.value;
    ch.(transfer := Some(t.(terminated := NeedsTerminate(t, ch.running))), running := false)
  }

  /** A stop once nothing is outstanding. */
  function StopDone(ch: Channel): Channel
    requires ch.transfer.Some?
  {
    ch.(transfer := Some(Reset(ch.transfer.value, ch.nextGen + 1)), nextGen := ch.nextGen + 1, completed := 0, error := false)
  }

  lemma StopBegins(e: Effect, ok: bool, c: nat)
    requires TableOk(e.tags) && e.holder == Stopping(c, StopMark) && e.ch.transfer.Some?
    ensures StopEffect(StopEffect(e, ok), ok) ==
            e.(ch := StopBegun(e.ch),
               holder := Stopping(c, if NeedsTerminate(e.ch.transfer.value, e.ch.running) then StopTag else StopReset))
  {
    var needs := NeedsTerminate(e.ch.transfer.value, e.ch.running);
    assert StopEffect(e, ok) ==
           e.(ch := e.ch.(transfer := StopBegun(e.ch).transfer), holder := Stopping(c, StopHalt(needs)));
  }

  lemma StopEnds(e: Effect, ok: bool, c: nat)
    requires TableOk(e.tags) && e.holder == Stopping(c, StopReset) && e.ch.transfer.Some? && e.ch.ctl == InStop(Return)
    ensures StopEffect(StopEffect(StopEffect(e, ok), ok), ok) ==
            e.(ch := StopDone(e.ch).(ctl := Idle), holder := NoHolder)
  {
    var e1 := e.(ch := e.ch.(transfer := StopDone(e.ch).transfer, nextGen := e.ch.nextGen + 1), holder := Stopping(c, StopZero));
    assert StopEffect(e, ok) == e1;
    assert StopEffect(e1, ok) == e1.(ch := e1.ch.(completed := 0), holder := Stopping(c, StopClear));
  }

  /** A stop passes its wait exactly if firmware has acknowledged TERMINATE, and its drain exactly if nothing is in flight
      or pending. Otherwise it goes on waiting or fails, and leaves the transfer and both flags as they are. */
  lemma StopWaits(e: Effect, ok: bool, c: nat)
    requires TableOk(e.tags) && e.holder.Stopping? && e.holder.c == c
    requires e.holder.ppc.StopAwait? || e.holder.ppc.StopDrain?
    requires e.holder.ppc.StopAwait? ==> e.holder.ppc.tag < TAGS && e.tags.entries[e.holder.ppc.tag].Sync?
    ensures var e', ppc := StopEffect(e, ok), e.holder.ppc;
            && e'.ch.transfer == e.ch.transfer && e'.ch.running == e.ch.running && e'.ch.error == e.ch.error
            && (e'.holder == NoHolder ==> e'.ch.ctl == Idle)
            && (ppc.StopAwait? ==>
                  && (e'.holder == Stopping(c, StopDrain) <==> e.tags.entries[ppc.tag].result == Some(true))
                  && (e'.holder == e.holder <==> e.tags.entries[ppc.tag].result == None && ok))
            && (ppc.StopDrain? && e.ch.transfer.Some? ==>
                  (e'.holder == Stopping(c, StopReset) <==>
                   e.ch.transfer.value.inflight == 0 && !e.ch.transfer.value.pending))
            && (e'.holder == NoHolder || e'.holder == e.holder || e'.holder == Stopping(c, StopDrain)
                || e'.holder == Stopping(c, StopReset))
  {
  }

  /** A channel that needs no TERMINATE has nothing with firmware. */
  lemma NothingOutstanding(t: Transfer, running: bool)
    requires Ring(t) && !NeedsTerminate(t, running)
    ensures t.issued == {} && t.acked == t.reported && !t.pending && !running
  {
    assert Window(t.reported, t.acked, |t.slots|) == {};
  }

  /** A reply to an issue that could be sent keeps the ring, and an ACK gives the period to firmware. */
  lemma ReplyRing(ch: Channel, generation: nat, ok: bool)
    ensures ch.transfer.Some? && Ring(ch.transfer.value) && CanIssue(ch.transfer.value) ==>
              var t, t' := ch.transfer.value, ReplyEffect(ch, generation, ok).ch.transfer;
              && t'.Some? && Ring(t'.value)
              && (ok && t.generation == generation ==> t.nextIssue in t'.value.issued)
  {
    if ch.transfer.Some? && Ring(ch.transfer.value) && CanIssue(ch.transfer.value) {
      AckKeepsRing(ch.transfer.value);
    }
  }

  /** A report keeps the ring, never finds the bitmaps wrong, and takes back at most the oldest period. */
  lemma ReportRing(ch: Channel, c: nat)
    ensures ch.transfer.Some? && Ring(ch.transfer.value) ==>
              var t, e := ch.transfer.value, ReportEffect(ch, c);
              && t.slots != [] && Outcome(t) != Mismatch
              && e.ch.transfer.Some? && Ring(e.ch.transfer.value) && e.ch.error == ch.error && e.ch.running == ch.running
              && t.reported <= e.ch.transfer.value.reported <= t.reported + 1
              && (e.ch.transfer.value.reported > t.reported ==> t.nextReport !in e.ch.transfer.value.committed)
  {
    if ch.transfer.Some? && Ring(ch.transfer.value) {
      ReportKeepsRing(ch.transfer.value);
    }
  }

  lemma IssuedOrNot(t: Transfer)
    requires Ring(t)
    ensures t.issued == {} <==> t.inflight == 0
  {
    if t.acked == t.reported { assert Window(t.reported, t.acked, |t.slots|) == {}; }
    else { assert t.reported % |t.slots| in Window(t.reported, t.acked, |t.slots|); }
  }

  /** What a send answers its caller. */
  datatype SendResult = Declined | Unprepared | Sent(tag: nat, slot: nat) | NoTag | NotTaken

  class CyclicTransfer {
    const periodLen: nat
    const bufferLen: nat
    const slots: seq<nat>
    var nextIssue: nat
    var nextReport: nat
    var inflight: nat
    var pending: bool
    var committed: set<nat>
    var issued: set<nat>
    var terminated: bool
    var generation: nat
    ghost var acked: nat
    ghost var reported: nat

    ghost function View(): Transfer
      reads this
    {
      Transfer(periodLen, bufferLen, slots, nextIssue, nextReport, inflight, pending, committed, issued, terminated,
               generation, acked, reported)
    }

    constructor (periodLen: nat, slots: seq<nat>, generation: nat)
      ensures View() == Fresh(periodLen, slots, generation)
    {
      this.periodLen := periodLen;
      this.bufferLen := |slots| * periodLen;
      this.slots := slots;
      nextIssue, nextReport, inflight := 0, 0, 0;
      pending, terminated := false, false;
      committed, issued := {}, {};
      this.generation := generation;
      acked, reported := 0, 0;
    }

    /** The region of `send_issue_locked`: claim the next period, and name its descriptor. */
    method TryClaim(generation: nat) returns (slot: Option<nat>)
      requires Ring(View())
      modifies this
      ensures View() == Claim(old(View()), generation)
      ensures slot.Some? <==>
              && this.generation == generation && !terminated && old(!pending) && inflight < 4
              && nextIssue in committed && nextIssue !in issued
      ensures pending == (old(pending) || slot.Some?)
      ensures slot.Some? ==> Ring(View()) && nextIssue in committed && nextIssue !in issued && slot.value == slots[nextIssue]
    {
      if this.generation != generation || terminated {
        return None;
      }
      if pending || inflight >= MAX_INFLIGHT {
        return None;
      }
      if nextIssue !in committed || nextIssue in issued {
        return None;
      }
      slot := Some(slots[nextIssue]);
      pending := true;
    }

    /** What a failed send takes back. */
    method UndoClaim(generation: nat)
      modifies this
      ensures View() == Undo(old(View()), generation)
      ensures old(Ring(View())) ==> Ring(View())
      ensures !Claimable(View(), generation)
    {
      if this.generation == generation {
        pending := false;
        terminated := true;
      }
    }

    /** The oldest period comes back from firmware. */
    method TakeReport() returns (outcome: ReportOutcome)
      requires slots != []
      modifies this
      ensures outcome == Outcome(old(View())) && View() == Report(old(View()))
      ensures outcome.Unexpected? <==> old(inflight) == 0
      ensures outcome.Unexpected? ==> View() == old(View())
      ensures outcome.Completed? ==>
                && old(nextReport in committed && nextReport in issued)
                && inflight + 1 == old(inflight) && nextReport == (old(nextReport) + 1) % |slots|
                && committed == old(committed) - {old(nextReport)} && issued == old(issued) - {old(nextReport)}
                && nextIssue == old(nextIssue) && pending == old(pending) && terminated == old(terminated)
                && generation == old(generation)
    {
      if inflight == 0 {
        return Unexpected;
      }
      var period := nextReport;
      if period !in committed || period !in issued {
        terminated := true;
        return Mismatch;
      }
      inflight := inflight - 1;
      nextReport := (nextReport + 1) % |slots|;
      committed := committed - {period};
      issued := issued - {period};
      reported := reported + 1;
      outcome := Completed;
    }

    /** Without a TERMINATE to send, firmware has nothing of the ring; with one, nothing more is claimed. */
    method MarkStopped(running: bool) returns (needs: bool)
      modifies this
      ensures needs == NeedsTerminate(old(View()), running)
      ensures needs <==> running || old(terminated || pending || inflight > 0)
      ensures View() == old(View()).(terminated := needs)
      ensures old(Ring(View())) ==> Ring(View()) && (needs || (issued == {} && acked == reported && !pending && !running))
      ensures needs ==> forall g :: !Claimable(View(), g)
    {
      needs := running || terminated || inflight != 0 || pending;
      terminated := needs;
      if !needs && Ring(View()) {
        NothingOutstanding(View(), running);
      }
    }

    method Restart() returns (generation: nat)
      modifies this
      ensures View() == Restarted(old(View())) && generation == this.generation
      ensures old(Ring(View())) ==> Ring(View())
    {
      terminated := false;
      generation := this.generation;
    }

    method ResetTo(generation: nat)
      modifies this
      ensures View() == Reset(old(View()), generation)
      ensures old(Ring(View())) ==> Ring(View())
    {
      ghost var was := View();
      nextIssue, nextReport, inflight := 0, 0, 0;
      pending, terminated := false, false;
      committed, issued := {}, {};
      this.generation := generation;
      acked, reported := 0, 0;
      if Ring(was) {
        ResetKeepsRing(was, generation);
      }
    }
  }

  class ChannelState {
    var running: bool
    var error: bool
    var transfer: CyclicTransfer?
    var completedPeriods: nat
    var nextGeneration: nat
    ghost var ctl: Ctl   // the control operation in progress

    ghost function View(): Channel
      reads this, transfer
    {
      Channel(running, error, if transfer == null then None else Some(transfer.View()), completedPeriods,
              nextGeneration, ctl)
    }

    constructor ()
      ensures View() == Channel(false, false, None, 0, 1, Idle) && transfer == null
    {
      running, error, transfer := false, false, null;
      completedPeriods, nextGeneration := 0, 1;
      ctl := Idle;
    }

    /** `send_issue_locked`; `accepted` is the mailbox's answer. */
    method SendIssueLocked(c: nat, generation: nat, tags: SioTags, accepted: bool) returns (r: SendResult)
      requires tags.WellFormed() && (transfer != null ==> Ring(transfer.View()))
      modifies this`running, this`error, transfer, tags`last, tags.entries
      ensures tags.WellFormed()
      ensures (View(), tags.View()) == SendOutcome(old(View()), old(tags.View()), c, generation, accepted)
      ensures transfer != null ==> Ring(transfer.View())
      ensures r.Sent? || r.NoTag? || r.NotTaken? <==>
              && old(running && !error && transfer != null) && transfer.generation == generation
              && old(!transfer.terminated && !transfer.pending && transfer.inflight < 4
                     && transfer.nextIssue in transfer.committed && transfer.nextIssue !in transfer.issued)
      ensures r.NoTag? ==> forall tag :: 1 <= tag < TAGS ==> old(tags.entries[..])[tag] != Free
      ensures r.NotTaken? ==> !accepted
      ensures r.Sent? ==> accepted && transfer != null && transfer.pending && !transfer.terminated
      ensures r.Sent? ==> 1 <= r.tag < TAGS && old(tags.entries[..])[r.tag] == Free
                          && tags.entries[..] == old(tags.entries[..])[r.tag := Issue(c, generation)]
      ensures r.NoTag? || r.NotTaken? ==> transfer != null && transfer.terminated && !transfer.pending
      ensures r.Sent? ==> transfer != null && transfer.nextIssue in transfer.committed - transfer.issued
                          && transfer.slots[transfer.nextIssue] == r.slot
                          && r.tag < TAGS && tags.entries[r.tag] == Issue(c, generation)
      ensures r.NoTag? || r.NotTaken? ==> error && !running && old(tags.entries[..]) == tags.entries[..]
      ensures r.Declined? || r.Unprepared? ==> View() == old(View()) && tags.View() == old(tags.View())
      ensures r.Unprepared? ==> transfer == null
      ensures r.Declined? || r.Sent? ==> running == old(running) && error == old(error)
    {
      if !running || error {
        return Declined;
      }
      if transfer == null {
        return Unprepared;
      }
      ghost var was := tags.View();
      var slot := transfer.TryClaim(generation);
      if slot.None? {
        return Declined;
      }
      AllocateIsExact(was, Issue(c, generation));
      var tag := tags.AllocateTag(Issue(c, generation));
      if tag.None? {
        r := NoTag;
      } else if accepted {
        return Sent(tag.value, slot.value);
      } else {
        AllocateThenRelease(was, Issue(c, generation));
        tags.FreeTag(tag.value);
        r := NotTaken;
      }
      transfer.UndoClaim(generation);
      error := true;
      running := false;
    }

    /** `start_channel`, once its drain of the mailbox is done. */
    method Start(c: nat, tags: SioTags, accepted: bool) returns (ok: bool)
      requires tags.WellFormed() && (transfer != null ==> Ring(transfer.View()))
      modifies this`running, this`error, transfer, tags`last, tags.entries
      ensures tags.WellFormed() && (transfer != null ==> Ring(transfer.View()))
      ensures (View(), tags.View()) == StartOutcome(old(View()), old(tags.View()), c, accepted)
      ensures ok ==> running && !error
      ensures !ok ==> error || !running
      ensures old(error) ==> !ok
      ensures old(error || running || transfer == null) ==> View() == old(View()) && tags.View() == old(tags.View())
      ensures !ok ==> transfer == null || old(error) || (error && transfer.terminated && !transfer.pending)
      ensures ok && !old(running) ==> transfer != null && !transfer.terminated
    {
      hide Ring, SendOutcome, Find, MaySend;
      if error {
        return false;
      }
      if running {
        return true;
      }
      if transfer == null {
        return false;
      }
      var generation := transfer.Restart();
      running := true;
      var sent := SendIssueLocked(c, generation, tags, accepted);
      ok := sent.Declined? || sent.Sent?;
      if !ok {
        running := false;
      }
    }

    /** The first half of `stop_channel`: nothing more is sent, and `needs` says whether TERMINATE is. */
    method BeginStop() returns (needs: bool)
      requires transfer != null && Ring(transfer.View())
      modifies this`running, transfer
      ensures View() == StopBegun(old(View()))
      ensures Ring(transfer.View()) && !running && transfer.terminated == needs
      ensures needs <==> old(running || transfer.terminated || transfer.pending || transfer.issued != {})
      ensures !needs ==> transfer.issued == {} && !transfer.pending
      ensures forall g :: !MaySend(View(), g)
    {
      IssuedOrNot(transfer.View());
      needs := transfer.MarkStopped(running);
      running := false;
    }

    /** The last part of `stop_channel`, when nothing is outstanding. */
    method FinishStop()
      requires transfer != null && Ring(transfer.View())
      modifies this`nextGeneration, this`completedPeriods, this`error, transfer
      ensures View() == StopDone(old(View()))
      ensures Ring(transfer.View()) && transfer.committed == {} && !transfer.pending && !error && completedPeriods == 0
    {
      nextGeneration := nextGeneration + 1;
      transfer.ResetTo(nextGeneration);
      completedPeriods := 0;
      error := false;
    }

    /** A reply to an issue of this generation is for the present transfer. */
    predicate Answers(generation: nat)
      reads this, transfer
    {
      transfer != null && transfer.slots != [] && transfer.generation == generation
    }

    /** The region of `process_issue_reply`; the answer is whether the worker is queued. */
    method ApplyReply(generation: nat, ok: bool) returns (queueMore: bool)
      modifies this, transfer
      ensures transfer == old(transfer)
      ensures var e := ReplyEffect(old(View()), generation, ok); View() == e.ch && queueMore == e.pc.OnKick?
      ensures !old(Answers(generation)) ==> View() == old(View()) && !queueMore
      ensures completedPeriods == old(completedPeriods) && nextGeneration == old(nextGeneration)
      ensures old(Answers(generation)) ==> !transfer.pending && transfer.generation == generation
                                           && transfer.committed == old(transfer.committed)
                                           && transfer.nextReport == old(transfer.nextReport)
      ensures old(Answers(generation)) && !ok ==>
                && error && !running && transfer.terminated && !queueMore
                && transfer.nextIssue == old(transfer.nextIssue) && transfer.inflight == old(transfer.inflight)
                && transfer.issued == old(transfer.issued)
      ensures old(Answers(generation)) && ok ==>
                && error == old(error) && running == old(running) && transfer.terminated == old(transfer.terminated)
                && transfer.nextIssue == (old(transfer.nextIssue) + 1) % |transfer.slots|
                && transfer.inflight == old(transfer.inflight) + 1
                && transfer.issued == old(transfer.issued) + {old(transfer.nextIssue)}
                && (queueMore <==> !transfer.terminated && running && !error && transfer.inflight < 4)
      ensures transfer != null && old(Ring(transfer.View()) && CanIssue(transfer.View())) ==>
                Ring(transfer.View()) && (ok && transfer.generation == generation ==> old(transfer.nextIssue) in transfer.issued)
    {
      hide Ring, CanIssue;
      ReplyRing(View(), generation, ok);
      if transfer == null || transfer.slots == [] {
        return false;
      }
      if transfer.generation != generation {
        return false;
      }
      transfer.pending := false;
      if !ok {
        transfer.terminated := true;
        error := true;
        running := false;
        queueMore := false;
      } else {
        var period := transfer.nextIssue;
        transfer.issued := transfer.issued + {period};
        transfer.nextIssue := (transfer.nextIssue + 1) % |transfer.slots|;
        transfer.inflight := transfer.inflight + 1;
        transfer.acked := transfer.acked + 1;
        queueMore := !transfer.terminated && running && !error && transfer.inflight < MAX_INFLIGHT;
      }
    }

    /** The region of `process_report` and the count it makes visible. */
    method ApplyReport(c: nat) returns (visible: bool, queueMore: bool)
      modifies this, transfer
      ensures transfer == old(transfer)
      ensures var e := ReportEffect(old(View()), c);
              && visible == e.pc.OnVisible? && queueMore == (e.pc.OnVisible? && e.pc.more)
              && View() == if e.pc.OnVisible? then VisibleEffect(e.ch, c, e.pc.more).ch else e.ch
      ensures transfer == null || old(transfer.slots == [] || transfer.inflight == 0) ==>
                View() == old(View()) && !visible && !queueMore
      ensures visible <==> completedPeriods > old(completedPeriods)
      ensures completedPeriods <= old(completedPeriods) + 1
      ensures transfer != null && old(Ring(transfer.View()) && transfer.inflight > 0) ==>
                && transfer.inflight + 1 == old(transfer.inflight)
                && transfer.nextReport == (old(transfer.nextReport) + 1) % |transfer.slots|
                && transfer.committed == old(transfer.committed) - {old(transfer.nextReport)}
                && transfer.issued == old(transfer.issued) - {old(transfer.nextReport)}
                && transfer.nextIssue == old(transfer.nextIssue) && transfer.pending == old(transfer.pending)
                && (visible <==> !old(transfer.terminated)) && transfer.terminated == old(transfer.terminated)
                && (queueMore <==> visible && running && !error && !transfer.pending && transfer.inflight < 4)
      ensures transfer != null && old(Ring(transfer.View())) ==>
                && Ring(transfer.View()) && error == old(error) && running == old(running)
                && old(transfer.reported) <= transfer.reported <= old(transfer.reported) + 1
                && (transfer.reported > old(transfer.reported) ==> old(transfer.nextReport) !in transfer.committed)
    {
      hide Ring, Report, Outcome;
      ReportRing(View(), c);
      visible, queueMore := false, false;
      if transfer == null || transfer.slots == [] {
        return;
      }
      var outcome := transfer.TakeReport();
      if outcome.Mismatch? {
        error := true;
        running := false;
      } else if outcome.Completed? {
        visible := !transfer.terminated;
        queueMore := !transfer.terminated && running && !error && !transfer.pending && transfer.inflight < MAX_INFLIGHT;
        if visible {
          completedPeriods := completedPeriods + 1;
        }
      }
    }

    /** The region of `queue_cyclic_period`: no answer without a transfer; `kick` is whether the worker is queued. */
    method CommitPeriod(byteOffset: nat) returns (answer: Option<CommitError>, kick: bool)
      requires transfer != null ==> transfer.periodLen > 0
      modifies transfer
      ensures transfer == null ==> answer == None && !kick
      ensures transfer != null ==>
                && answer == Some(CommitAnswer(old(transfer.View()), byteOffset))
                && (answer.value == Accepted ==> transfer.View() == Commit(old(transfer.View()), byteOffset))
                && (answer.value != Accepted ==> transfer.View() == old(transfer.View()))
                && kick == (answer.value == Accepted && Kicks(View(), transfer.View()))
                && (answer.value == BadOffset <==>
                      byteOffset % transfer.periodLen != 0 || byteOffset >= transfer.bufferLen)
                && (answer.value == PeriodBusy <==>
                      byteOffset % transfer.periodLen == 0 && byteOffset < transfer.bufferLen
                      && byteOffset / transfer.periodLen in old(transfer.committed))
                && (answer.value == Accepted ==>
                      transfer.committed == old(transfer.committed) + {byteOffset / transfer.periodLen})
                && (kick <==> answer.value == Accepted && running && !transfer.terminated && !transfer.pending
                              && transfer.inflight < 4)
    {
      if transfer == null {
        return None, false;
      }
      if byteOffset % transfer.periodLen != 0 || byteOffset >= transfer.bufferLen {
        return Some(BadOffset), false;
      }
      var period := byteOffset / transfer.periodLen;
      if period in transfer.committed {
        return Some(PeriodBusy), false;
      }
      transfer.committed := transfer.committed + {period};
      answer := Some(Accepted);
      kick := running && !transfer.terminated && !transfer.pending && transfer.inflight < MAX_INFLIGHT;
    }

    method TakeCompleted() returns (taken: nat)
      modifies this`completedPeriods
      ensures taken == old(completedPeriods) && completedPeriods == 0
    {
      taken := completedPeriods;
      completedPeriods := 0;
    }
  }

  /** The bitmap of descriptor slots in shared memory. */
  class DescriptorSlots {
    var taken: set<nat>

    constructor ()
      ensures taken == {}
    {
      taken := {};
    }

    /** The lowest free slot is taken, if there is one. */
    method Alloc() returns (r: Option<nat>)
      modifies this
      ensures r == FreeSlot(old(taken), 0)
      ensures r.Some? ==> r.value !in old(taken) && forall b: nat :: b < r.value ==> b in old(taken)
      ensures r.None? ==> forall b: nat :: b < 64 ==> b in old(taken)
      ensures taken == if r.Some? then old(taken) + {r.value} else old(taken)
    {
      for slot := 0 to DESC_SLOTS
        invariant taken == old(taken)
        invariant FreeSlot(old(taken), 0) == FreeSlot(old(taken), slot)
      {
        if slot !in taken {
          taken := taken + {slot};
          return Some(slot);
        }
      }
      r := None;
    }

    method Free(slot: nat)
      modifies this
      ensures taken == if slot < DESC_SLOTS then old(taken) - {slot} else old(taken)
    {
      if slot < DESC_SLOTS {
        taken := taken - {slot};
      }
    }
  }
}
