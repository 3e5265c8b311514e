/** The audio stream object: its bounce ring, its count of periods in flight, and its SIO channel. */
module DpAudioStream {
  import opened Arithmetic
  import opened Wrappers
  import opened SioTransfer
  import opened SioSystem
  import opened SioChannel
  import opened DpAudioClient
  import opened DpAudioOrder

  newtype Byte = b: int | 0 <= b < 256

  datatype QueueResult = Queued | SizeMismatch | RingFull | OutsideRing | NotPrepared | HardwareError | Refused(error: CommitError)

  /** `dst` with the bytes of one period copied over from `src`. */
  ghost function Overlaid(dst: seq<Byte>, src: seq<Byte>, offset: nat, count: nat): seq<Byte>
    requires offset + count <= |dst| && offset + count <= |src|
  {
    dst[..offset] + src[offset..offset + count] + dst[offset + count..]
  }

  /** A copy of the next period in ring order changes no byte of a committed or issued one. */
  lemma OnlyNextPeriod(t: Transfer, periods: nat, inFlight: nat, submitted: nat, byteOffset: nat,
                       was: seq<Byte>, src: seq<Byte>, now: seq<Byte>)
    requires CopyState(t, periods, inFlight, submitted) && inFlight < periods && t.periodLen > 0
    requires byteOffset == NextOffset(t, submitted)
    requires byteOffset + t.periodLen <= |was| && byteOffset + t.periodLen <= |src|
    requires now == Overlaid(was, src, byteOffset, t.periodLen)
    ensures |now| == |was|
    ensures forall k :: 0 <= k < |now| && now[k] != was[k] ==>
                          k / t.periodLen !in t.committed && k / t.periodLen !in t.issued
  {
    hide RingOrder, Ring;
    NextIsFree(t, periods, inFlight, submitted);
    var p := submitted % periods;
    forall k | 0 <= k < |now| && now[k] != was[k] ensures k / t.periodLen == p {
      assert byteOffset <= k < byteOffset + t.periodLen;
      SmallMod(p, k - byteOffset, t.periodLen);
    }
  }

  class AppleDpAudioStream {
    const channel: ChannelState
    const source: array<Byte>
    const bounce: array<Byte>
    const periodBytes: nat
    const periodCount: nat
    var inFlightPeriods: nat

    constructor (channel: ChannelState, source: array<Byte>, bounce: array<Byte>, periodBytes: nat, periodCount: nat)
      ensures this.channel == channel && this.source == source && this.bounce == bounce
      ensures this.periodBytes == periodBytes && this.periodCount == periodCount && inFlightPeriods == 0
    {
      this.channel, this.source, this.bounce := channel, source, bounce;
      this.periodBytes, this.periodCount := periodBytes, periodCount;
      inFlightPeriods := 0;
    }

    /** What `queue_period` answers. */
    ghost function Answer(byteOffset: nat, byteLen: nat): QueueResult
      reads this, channel, channel.transfer
    {
      if byteLen != periodBytes then SizeMismatch
      else if inFlightPeriods >= periodCount then RingFull
      else if byteOffset + byteLen > source.Length || byteOffset + byteLen > bounce.Length then OutsideRing
      else if channel.error then HardwareError
      else if channel.transfer == null then NotPrepared
      else match CommitAnswer(channel.transfer.View(), byteOffset)
        case Accepted => Queued
        case error => Refused(error)
    }

    /** The submit is for the next period in ring order of a stream whose books are in order. */
    ghost predicate NextInOrder(byteOffset: nat, submitted: nat)
      reads this, channel, channel.transfer
    {
      && channel.transfer != null && channel.transfer.periodLen == periodBytes
      && CopyState(channel.transfer.View(), periodCount, inFlightPeriods, submitted)
      && byteOffset == NextOffset(channel.transfer.View(), submitted)
    }

    /** The request reaches the SIO channel: its period is copied first. */
    predicate Passes(byteOffset: nat, byteLen: nat)
      reads this
    {
      && byteLen == periodBytes && inFlightPeriods < periodCount
      && byteOffset + byteLen <= source.Length && byteOffset + byteLen <= bounce.Length
    }

    /** A period is copied and then queued; only a queued period is counted, and only its bytes of the ring change. */
    method QueuePeriod(byteOffset: nat, byteLen: nat, ghost submitted: nat) returns (r: QueueResult, kick: bool)
      requires (channel.transfer != null ==> channel.transfer.periodLen > 0) && source != bounce
      modifies this`inFlightPeriods, bounce, channel.transfer
      ensures r == old(Answer(byteOffset, byteLen))
      ensures r.SizeMismatch? <==> byteLen != periodBytes
      ensures r.RingFull? <==> byteLen == periodBytes && old(inFlightPeriods) >= periodCount
      ensures r.OutsideRing? <==>
              byteLen == periodBytes && old(inFlightPeriods) < periodCount
              && (byteOffset + byteLen > source.Length || byteOffset + byteLen > bounce.Length)
      ensures r.HardwareError? <==> old(Passes(byteOffset, byteLen)) && channel.error
      ensures r.NotPrepared? <==> old(Passes(byteOffset, byteLen)) && !channel.error && channel.transfer == null
      ensures r == Refused(BadOffset) <==>
              && old(Passes(byteOffset, byteLen)) && !channel.error && channel.transfer != null
              && (byteOffset % channel.transfer.periodLen != 0 || byteOffset >= channel.transfer.bufferLen)
      ensures r == Refused(PeriodBusy) <==>
              && old(Passes(byteOffset, byteLen)) && !channel.error && channel.transfer != null
              && byteOffset % channel.transfer.periodLen == 0 && byteOffset < channel.transfer.bufferLen
              && byteOffset / channel.transfer.periodLen in old(channel.transfer.committed)
      ensures r.Refused? ==> r.error != Accepted
      ensures old(inFlightPeriods) <= periodCount ==> inFlightPeriods <= periodCount
      ensures old(NextInOrder(byteOffset, submitted)) && periodBytes > 0 ==>
                forall k :: 0 <= k < bounce.Length && bounce[k] != old(bounce[k]) ==>
                              k / periodBytes !in old(channel.transfer.committed) && k / periodBytes !in old(channel.transfer.issued)
      ensures inFlightPeriods == old(inFlightPeriods) + if r.Queued? then 1 else 0
      ensures channel.transfer != null ==>
                channel.transfer.View() ==
                if r.Queued? then Commit(old(channel.transfer.View()), byteOffset) else old(channel.transfer.View())
      ensures r.SizeMismatch? || r.RingFull? || r.OutsideRing? ==> bounce[..] == old(bounce[..])
      ensures !(r.SizeMismatch? || r.RingFull? || r.OutsideRing?) ==>
                byteOffset + byteLen <= bounce.Length && byteOffset + byteLen <= source.Length
                && bounce[..] == Overlaid(old(bounce[..]), source[..], byteOffset, byteLen)
                && (forall k :: byteOffset <= k < byteOffset + byteLen ==> bounce[k] == source[k])
                && (forall k :: 0 <= k < bounce.Length && !(byteOffset <= k < byteOffset + byteLen) ==>
                                  bounce[k] == old(bounce[k]))
      ensures kick == (r.Queued? && channel.transfer != null && Kicks(channel.View(), channel.transfer.View()))
    {
      hide Ring, CopyState, NextOffset;
      kick := false;
      if byteLen != periodBytes {
        return SizeMismatch, false;
      }
      if inFlightPeriods >= periodCount {
        return RingFull, false;
      }
      if byteOffset + byteLen > source.Length || byteOffset + byteLen > bounce.Length {
        return OutsideRing, false;
      }
      CopyPeriod(byteOffset, byteLen);
      if old(NextInOrder(byteOffset, submitted)) && periodBytes > 0 {
        OnlyNextPeriod(channel.transfer.View(), periodCount, inFlightPeriods, submitted, byteOffset,
                       old(bounce[..]), source[..], bounce[..]);
      }
      if channel.error {
        return HardwareError, false;
      }
      var answer, wake := channel.CommitPeriod(byteOffset);
      if answer == None {
        return NotPrepared, false;
      }
      if answer != Some(Accepted) {
        return Refused(answer.value), false;
      }
      inFlightPeriods := inFlightPeriods + 1;
      r, kick := Queued, wake;
    }

    /** `copy_nonoverlapping`. */
    method CopyPeriod(offset: nat, count: nat)
      requires source != bounce && offset + count <= source.Length && offset + count <= bounce.Length
      modifies bounce
      ensures bounce[..] == Overlaid(old(bounce[..]), source[..], offset, count)
      ensures forall k :: offset <= k < offset + count ==> bounce[k] == source[k]
      ensures forall k :: 0 <= k < bounce.Length && !(offset <= k < offset + count) ==> bounce[k] == old(bounce[k])
    {
      for i := 0 to count
        invariant bounce[..] == Overlaid(old(bounce[..]), source[..], offset, i)
        invariant forall k :: offset <= k < offset + i ==> bounce[k] == source[k]
        invariant forall k :: 0 <= k < bounce.Length && !(offset <= k < offset + i) ==> bounce[k] == old(bounce[k])
      {
        bounce[offset + i] := source[offset + i];
        assert source[..][offset..offset + i + 1] == source[..][offset..offset + i] + [source[offset + i]];
      }
    }

    method TakeCompletions() returns (completed: nat)
      modifies this`inFlightPeriods, channel`completedPeriods
      ensures completed == Min(old(channel.completedPeriods), old(inFlightPeriods))
      ensures inFlightPeriods == old(inFlightPeriods) - completed && channel.completedPeriods == 0
    {
      var taken := channel.TakeCompleted();
      completed := Min(taken, inFlightPeriods);
      inFlightPeriods := inFlightPeriods - completed;
    }
  }
}
