/** Every step of the drainer, the worker, the clients and the firmware keeps every channel's invariant. */
module SioDrainProofs {
  import opened Wrappers
  import opened SioTags
  import opened SioTransfer
  import opened SioSystem
  import opened SioInvariant

  /** Where the drainer works on channel c. */
  predicate PcOn(pc: DrainPc, c: nat) {
    match pc
    case OnIssueReply(d, _, _) => d == c
    case OnReport(d) => d == c
    case OnVisible(d, _) => d == c
    case _ => false
  }

  /** Looking up a reply: a waiting request gets its answer, an issue gives up its tag and goes on to its channel, and no
      other tag is touched. */
  lemma ReplyDelivered(s: State, i: nat, tag: nat, ok: bool)
    requires i < |s.drainers| && tag < TAGS && TableOk(s.tags)
    ensures var s', kind := DoReply(s, i, tag, ok), s.tags.entries[tag];
            && |s'.tags.entries| == TAGS && s'.tags.last == s.tags.last && s'.chans == s.chans && s'.mail == s.mail
            && (forall other :: 0 <= other < TAGS && other != tag ==> s'.tags.entries[other] == s.tags.entries[other])
            && (kind.Free? ==> s'.tags.entries[tag] == Free)
            && (kind.Sync? ==> s'.tags.entries[tag].Sync? && s'.tags.entries[tag].result == Some(ok))
            && (kind.Issue? ==> s'.tags.entries[tag] == Free)
            && (if kind.Issue? && kind.channel < |s.chans|
                then s'.drainers[i].pc == OnIssueReply(kind.channel, kind.generation, ok)
                else s'.drainers[i].pc == Receive)
  {
  }

  lemma ReplyKept(v: View, c: nat)
    requires EachOk(v, c) && v.pc.OnIssueReply? && v.pc.c == c
    ensures var e := ReplyEffect(v.ch, v.pc.g, v.pc.ok); EachOk(v.(ch := e.ch, pc := e.pc), c)
  {
    if v.ch.transfer.Some? && v.ch.transfer.value.generation == v.pc.g {
      AckKeepsRing(v.ch.transfer.value);
    }
  }

  lemma ReportKept(v: View, c: nat)
    requires EachOk(v, c) && v.pc == OnReport(c)
    ensures var e := ReportEffect(v.ch, c); EachOk(v.(ch := e.ch, pc := e.pc), c)
  {
    if v.ch.transfer.Some? {
      ReportKeepsRing(v.ch.transfer.value);
    }
  }

  lemma VisibleKept(v: View, c: nat)
    requires EachOk(v, c) && v.pc.OnVisible? && v.pc.c == c
    ensures var e := VisibleEffect(v.ch, c, v.pc.more); EachOk(v.(ch := e.ch, pc := e.pc), c)
  {
  }

  lemma CommitKept(v: View, off: nat, c: nat)
    requires EachOk(v, c) && v.ch.transfer.Some? && CommitAnswer(v.ch.transfer.value, off) == Accepted
    ensures var t := Commit(v.ch.transfer.value, off);
            EachOk(v.(ch := v.ch.(transfer := Some(t)), kicks := v.kicks + if Kicks(v.ch, t) then 1 else 0), c)
  {
    CommitKeepsRing(v.ch.transfer.value, off);
  }

  lemma TagReplyKept(v: View, v': View, tag: nat, ok: bool, c: nat)
    requires EachOk(v, c) && v.pc == OnReply(tag, ok) && tag as int in v.m
    requires v' == v.(m := v.m - {tag as int}, pc := OnIssueReply(c, v.m[tag as int], ok))
    ensures EachOk(v', c)
  {
    assert v.m - {tag as int} == map[];
  }
}
