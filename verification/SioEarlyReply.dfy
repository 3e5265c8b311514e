/** A reply that overtakes a failing send: the one way for a channel to have an issue token without
    `issue_pending`. */
module SioEarlyReply {
  import opened Wrappers
  import opened SioTags
  import opened SioTransfer
  import opened SioSystem
  import opened SioTheorems
  import opened SioTokens

  /** The state after taking `labels` in turn, if each is enabled. */
  function Exec(s: State, labels: seq<Label>): Option<State>
    decreases |labels|
  {
    if labels == [] then Some(s)
    else if !Enabled(s, labels[0]) then None
    else Exec(Do(s, labels[0]), labels[1..])
  }

  lemma {:induction false} ExecJoin(s: State, a: seq<Label>, mid: State, b: seq<Label>)
    requires Exec(s, a) == Some(mid)
    ensures Exec(s, a + b) == Exec(mid, b)
    decreases |a|
  {
    if a == [] {
      assert a + b == b;
    } else {
      assert (a + b)[1..] == a[1..] + b;
      ExecJoin(Do(s, a[0]), a[1..], mid, b);
    }
  }

  /** A run, but for where it starts. */
  ghost predicate Path(states: seq<State>, labels: seq<Label>) {
    && |states| == |labels| + 1
    && forall k :: 0 <= k < |labels| ==> Next(states[k], labels[k], states[k + 1])
  }

  lemma PathExtends(s: State, l: Label, states: seq<State>, labels: seq<Label>)
    requires Path(states, labels) && Next(s, l, states[0])
    ensures Path([s] + states, [l] + labels)
  {
  }

  lemma ExecStep(s: State, labels: seq<Label>, end: State) returns (next: State)
    requires labels != [] && Exec(s, labels) == Some(end)
    ensures Next(s, labels[0], next) && Exec(next, labels[1..]) == Some(end)
  {
    next := Do(s, labels[0]);
  }

  lemma {:induction false} ExecIsPath(s: State, labels: seq<Label>, end: State) returns (states: seq<State>)
    requires Exec(s, labels) == Some(end)
    ensures Path(states, labels) && states[0] == s && states[|labels|] == end
    decreases |labels|
  {
    if labels == [] {
      states := [s];
    } else {
      var next := ExecStep(s, labels, end);
      var rest := ExecIsPath(next, labels[1..], end);
      PathExtends(s, labels[0], rest, labels[1..]);
      assert [labels[0]] + labels[1..] == labels;
      states := [s] + rest;
    }
  }

  function Boot(): State {
    State([Channel(false, false, None, 0, 1, Idle)], Empty(), {}, TxFree, NoHolder, Asleep, false, 0, false, [],
          multiset{}, [], false, false)
  }

  /** One prepared channel with one period of one byte in descriptor slot 0. */
  function Ready0(committed: set<nat>, pending: bool, terminated: bool, running: bool, ctl: Ctl): Channel {
    Channel(running, false, Some(Fresh(1, [0], 1).(committed := committed, pending := pending, terminated := terminated)),
            0, 2, ctl)
  }

  function Idle1(): State {
    Boot().(chans := [Ready0({}, false, false, false, Idle)], bitmap := {0})
  }

  function Sent1(): State {
    Boot().(chans := [Ready0({0}, true, false, true, InStart)], bitmap := {0},
            tags := Table(Empty().entries[1 := Issue(0, 1)], 1), tx := TxIssue,
            holder := Sending(0, 1, AtSend(1), true))
  }

  function Answered1(): State {
    Boot().(chans := [Ready0({0}, true, false, true, InStart)], bitmap := {0},
            tags := Table(Empty().entries, 1), tx := TxIssue,
            holder := Sending(0, 1, AtSend(1), true), irq := true, draining := true,
            drainers := [Drainer(Caller, OnIssueReply(0, 1, true))])
  }

  function Orphaned1(): State {
    Answered1().(chans := [Ready0({0}, false, true, true, InStart)], tx := TxFree,
                 holder := Sending(0, 1, AtSetError, true))
  }

  function Emptied1(): State {
    Boot().(chans := [Channel(false, false, None, 0, 1, Allocating(1, 1, []))])
  }

  function Started1(): State {
    Boot().(chans := [Ready0({0}, false, false, true, InStart)], bitmap := {0},
            holder := Sending(0, 1, AtRunning, true))
  }

  /** One more step of an execution. */
  lemma Then(s: State, ls: seq<Label>, mid: State, l: Label) returns (ls': seq<Label>, end: State)
    requires Exec(s, ls) == Some(mid) && Enabled(mid, l)
    ensures ls' == ls + [l] && end == Do(mid, l) && Exec(s, ls') == Some(end)
  {
    ls', end := ls + [l], Do(mid, l);
    ExecJoin(s, ls, mid, [l]);
    assert [l][1..] == [];
  }

  /** The stop inside a first prepare, and the release of nothing. */
  lemma StopRuns() returns (ls: seq<Label>)
    ensures Exec(Boot(), ls) == Some(Emptied1())
  {
    var s := Boot();
    ls := [];
    ls, s := Then(Boot(), ls, s, LStop(0, Prepare(1, 1)));
    assert s == Boot().(chans := [Channel(false, false, None, 0, 1, InStop(Prepare(1, 1)))], holder := Stopping(0, StopMark));
    ls, s := Then(Boot(), ls, s, LStopStep(true));
    assert s == Boot().(chans := [Channel(false, false, None, 0, 1, Quiesced(Prepare(1, 1)))]);
    ls, s := Then(Boot(), ls, s, LCtl(0, true));
    assert s == Boot().(chans := [Channel(false, false, None, 0, 1, Releasing(Prepare(1, 1), []))]);
    ls, s := Then(Boot(), ls, s, LCtl(0, true));
    assert s == Emptied1();
  }

  function Published1(): State {
    Boot().(chans := [Ready0({}, false, false, false, ZeroCompleted)], bitmap := {0})
  }

  /** One descriptor is taken and the transfer published. */
  lemma PublishRuns() returns (ls: seq<Label>)
    ensures Exec(Emptied1(), ls) == Some(Published1())
  {
    hide SendEffect, StopEffect;
    var s := Emptied1();
    ls := [];
    var none: set<nat> := {};
    assert FreeSlot(none, 0) == Some(0) && none + {0} == {0};
    assert CtlStep(s.chans[0], none, true)
        == CtlEffect(Channel(false, false, None, 0, 1, Allocating(1, 1, [0])), {0}) by {
      assert [] + [0] == [0];
    }
    ls, s := Then(Emptied1(), ls, s, LCtl(0, true));
    assert s == Boot().(chans := [Channel(false, false, None, 0, 1, Allocating(1, 1, [0]))], bitmap := {0});
    ls, s := Then(Emptied1(), ls, s, LCtl(0, true));
    assert s == Boot().(chans := [Channel(false, false, None, 0, 2, Publish(1, [0], 1))], bitmap := {0});
    ls, s := Then(Emptied1(), ls, s, LCtl(0, true));
    assert s == Published1();
  }

  /** The flags of the channel are cleared. */
  lemma ClearRuns() returns (ls: seq<Label>)
    ensures Exec(Published1(), ls) == Some(Idle1())
  {
    hide SendEffect, StopEffect;
    var s := Published1();
    ls := [];
    ls, s := Then(Published1(), ls, s, LCtl(0, true));
    assert s == Boot().(chans := [Ready0({}, false, false, false, ClearError)], bitmap := {0});
    ls, s := Then(Published1(), ls, s, LCtl(0, true));
    assert s == Idle1();
  }

  function Opened1(): State {
    Idle1().(chans := [Ready0({0}, false, false, false, InStart)], holder := Starting(0, StartError))
  }

  /** The client commits its period and calls start. */
  lemma CommitRuns() returns (ls: seq<Label>)
    ensures Exec(Idle1(), ls) == Some(Opened1())
  {
    hide SendEffect, StopEffect;
    var s := Idle1();
    ls := [];
    assert {} + {0} == {0};
    ls, s := Then(Idle1(), ls, s, LCommit(0, 0));
    assert s == Idle1().(chans := [Ready0({0}, false, false, false, Idle)]);
    ls, s := Then(Idle1(), ls, s, LStart(0));
    assert s == Opened1();
  }

  /** The start goes as far as its call of the sender. */
  lemma StartRuns() returns (ls: seq<Label>)
    ensures Exec(Opened1(), ls) == Some(Started1())
  {
    hide SendEffect, StopEffect;
    var s := Opened1();
    ls := [];
    ls, s := Then(Opened1(), ls, s, LStartStep);
    assert s == Opened1().(holder := Starting(0, StartRunning));
    ls, s := Then(Opened1(), ls, s, LStartStep);
    assert s == Opened1().(holder := Starting(0, StartClear));
    ls, s := Then(Opened1(), ls, s, LStartStep);
    assert s == Opened1().(holder := Starting(0, StartSet(1)));
    ls, s := Then(Opened1(), ls, s, LStartStep);
    assert s == Started1();
  }

  /** The sender claims the period, takes tag 1, and stands before the mailbox. */
  lemma SendRuns() returns (ls: seq<Label>)
    ensures Exec(Started1(), ls) == Some(Sent1())
  {
    var s := Started1();
    ls := [];
    assert Find(Empty()) == Some(1);
    ls, s := Then(Started1(), ls, s, LSend(true));
    assert s == Started1().(holder := Sending(0, 1, AtError, true));
    ls, s := Then(Started1(), ls, s, LSend(true));
    assert s == Started1().(holder := Sending(0, 1, AtClaim, true));
    ls, s := Then(Started1(), ls, s, LSend(true));
    assert s == Started1().(chans := [Ready0({0}, true, false, true, InStart)], holder := Sending(0, 1, AtTag, true));
    ls, s := Then(Started1(), ls, s, LSend(true));
    assert s == Sent1();
  }

  /** A reply for tag 1 is received and looked up before the message is sent. */
  lemma AnswerRuns() returns (ls: seq<Label>)
    ensures Exec(Sent1(), ls) == Some(Answered1())
  {
    var s := Sent1();
    ls := [];
    assert Sent1().tags.entries[1 := Free] == Empty().entries;
    ls, s := Then(Sent1(), ls, s, LArrive(ReplyMsg(1, true)));
    assert s == Sent1().(mail := [ReplyMsg(1, true)], irq := true);
    ls, s := Then(Sent1(), ls, s, LCas(Caller));
    assert s == Sent1().(mail := [ReplyMsg(1, true)], irq := true, draining := true, drainers := [Drainer(Caller, Receive)]);
    ls, s := Then(Sent1(), ls, s, LDrain(0, false));
    assert s == Sent1().(irq := true, draining := true, drainers := [Drainer(Caller, OnReply(1, true))]);
    ls, s := Then(Sent1(), ls, s, LDrain(0, false));
    assert s == Answered1();
  }

  /** The mailbox then refuses the message, and the sender takes the issue back. */
  lemma RefuseRuns() returns (ls: seq<Label>)
    ensures Exec(Answered1(), ls) == Some(Orphaned1())
  {
    var s := Answered1();
    ls := [];
    assert Empty().entries[1 := Free] == Empty().entries;
    ls, s := Then(Answered1(), ls, s, LSend(false));
    assert s == Answered1().(holder := Sending(0, 1, AtFree(1), true));
    ls, s := Then(Answered1(), ls, s, LSend(false));
    assert s == Answered1().(tx := TxFree, holder := Sending(0, 1, AtUndo(false), true));
    ls, s := Then(Answered1(), ls, s, LSend(false));
    assert s == Orphaned1();
  }

  lemma Joined(s: State, a: seq<Label>, mid: State, b: seq<Label>, end: State) returns (ab: seq<Label>)
    requires Exec(s, a) == Some(mid) && Exec(mid, b) == Some(end)
    ensures ab == a + b && Exec(s, ab) == Some(end)
  {
    ExecJoin(s, a, mid, b);
    ab := a + b;
  }

  /** Channel 0 has a token with the drainer while its `issue_pending` is clear. */
  ghost predicate Orphan(s: State) {
    && |s.chans| == 1 && s.chans[0].transfer.Some? && !s.chans[0].transfer.value.pending
    && TokenAt(s, 0, WithDrainer)
  }

  lemma OrphanIsReached() returns (labels: seq<Label>)
    ensures Exec(Boot(), labels) == Some(Orphaned1())
  {
    labels := StopRuns();
    var b := PublishRuns();
    labels := Joined(Boot(), labels, Emptied1(), b, Published1());
    b := ClearRuns();
    labels := Joined(Boot(), labels, Published1(), b, Idle1());
    b := CommitRuns();
    labels := Joined(Boot(), labels, Idle1(), b, Opened1());
    b := StartRuns();
    labels := Joined(Boot(), labels, Opened1(), b, Started1());
    b := SendRuns();
    labels := Joined(Boot(), labels, Started1(), b, Sent1());
    b := AnswerRuns();
    labels := Joined(Boot(), labels, Sent1(), b, Answered1());
    b := RefuseRuns();
    labels := Joined(Boot(), labels, Answered1(), b, Orphaned1());
  }

  /** The sender's failure clears `issue_pending` under a reply being processed, in a run from boot. */
  lemma TokenWithoutPending() returns (states: seq<State>, labels: seq<Label>)
    ensures Run(states, labels) && Orphan(states[|labels|]) && !Agrees(states[|labels|], 0)
  {
    labels := OrphanIsReached();
    states := ExecIsPath(Boot(), labels, Orphaned1());
  }
}
