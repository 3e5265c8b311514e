/** Nested remote calls between the driver and the display firmware: a call waits for its reply while it serves the
    firmware's callbacks, and a callback may itself make calls. */
module IomfbRpc {
  import opened Arithmetic
  import opened Bits
  import opened Wrappers

  const SHMEM_SIZE: nat := 0x10_0000
  const ALIGNMENT: nat := 0x40
  const HEADER: nat := 12

  const CALLBACK: nat := 0
  const COMMAND: nat := 2
  const ASYNC: nat := 3
  const OOB_CALLBACK: nat := 4
  const OOB_COMMAND: nat := 6
  const OOB_ASYNC: nat := 7

  // ---- Contexts and their areas of shared memory ----

  function TxOffset(context: nat): Option<nat> {
    if context == CALLBACK || context == COMMAND then Some(0)
    else if context == OOB_CALLBACK || context == OOB_COMMAND then Some(0x8000)
    else None
  }

  function ChannelOffset(context: nat): Option<nat> {
    if context == CALLBACK then Some(0x60000)
    else if context == ASYNC then Some(0x40000)
    else if context == OOB_CALLBACK then Some(0x68000)
    else if context == OOB_ASYNC then Some(0x48000)
    else TxOffset(context)
  }

  datatype Place = Place(context: nat, offset: nat)

  function NestedContext(context: nat, end: nat): Place {
    if context == CALLBACK then Place(CALLBACK, end)
    else if context == COMMAND then Place(CALLBACK, 0)
    else if context == OOB_CALLBACK then Place(OOB_CALLBACK, end)
    else if context == OOB_COMMAND then Place(OOB_CALLBACK, 0)
    else if context == ASYNC then Place(COMMAND, 0)
    else if context == OOB_ASYNC then Place(OOB_COMMAND, 0)
    else Place(COMMAND, 0)
  }

  /** Where a call made under these open callbacks goes: never to a context without a transmit area. */
  function Target(ends: seq<Place>): (p: Place)
    ensures TxOffset(p.context).Some? && ChannelOffset(p.context).Some?
  {
    if ends == [] then Place(COMMAND, 0)
    else NestedContext(ends[|ends| - 1].context, ends[|ends| - 1].offset)
  }

  /** Under a callback a call stays in the callback's context and begins where the callback's frame ends; under anything
      else it begins the transmit area of another context. */
  lemma TargetPlace(ends: seq<Place>)
    ensures ends == [] ==> Target(ends).context == COMMAND && Target(ends).offset == 0
    ensures ends != [] ==>
              var frame, p := ends[|ends| - 1], Target(ends);
              && (frame.context in {CALLBACK, OOB_CALLBACK} ==> p.context == frame.context && p.offset == frame.offset)
              && (frame.context !in {CALLBACK, OOB_CALLBACK} ==> p.context != frame.context && p.offset == 0)
              && (frame.context == COMMAND ==> p.context == CALLBACK)
              && (frame.context == OOB_COMMAND ==> p.context == OOB_CALLBACK)
              && (frame.context == ASYNC ==> p.context == COMMAND)
              && (frame.context == OOB_ASYNC ==> p.context == OOB_COMMAND)
  {
  }

  /** Different contexts have different channel areas, of half the offsets a message can carry. */
  lemma ChannelsApart(a: nat, b: nat)
    requires ChannelOffset(a).Some? && ChannelOffset(b).Some? && a != b
    ensures var x, y := ChannelOffset(a).value, ChannelOffset(b).value;
            x + 0x8000 <= y || y + 0x8000 <= x
    ensures ChannelOffset(a).value + 0x8000 <= SHMEM_SIZE
  {
  }

  /** The next multiple of the packet alignment. */
  function RoundUp(length: nat): (r: nat)
    ensures length <= r < length + ALIGNMENT && r % ALIGNMENT == 0
  {
    (length + ALIGNMENT - 1) / ALIGNMENT * ALIGNMENT
  }

  // ---- Messages ----

  datatype Fields = Fields(context: nat, offset: nat, length: nat, ack: bool)

  predicate FieldsFit(f: Fields) {
    f.context < 0x10 && f.offset < 0x1_0000 && f.length < 0x1_0000_0000
  }

  /** `rpc_message`, for fields that fit: or-ing disjoint fields adds them. */
  function RpcMessage(f: Fields): nat
    requires FieldsFit(f)
  {
    2 + (if f.ack then 0x40 else 0) + f.context * 0x100 + f.offset * 0x1_0000 + f.length * 0x1_0000_0000
  }

  function ParseRpc(m: nat): Fields {
    Fields(m / 0x100 % 0x10, m / 0x1_0000 % 0x1_0000, m / 0x1_0000_0000 % 0x1_0000_0000, m / 0x40 % 2 == 1)
  }

  /** The field of width `k` that starts at `n`. */
  lemma FieldAt(m: nat, q: nat, f: nat, low: nat, n: nat, k: nat)
    requires low < n && f < k && m == (q * k + f) * n + low
    ensures m / n % k == f
  {
    SmallMod(q * k + f, low, n);
    SmallMod(q, f, k);
  }

  lemma ContextAndAck(f: Fields)
    requires FieldsFit(f)
    ensures ParseRpc(RpcMessage(f)).context == f.context && ParseRpc(RpcMessage(f)).ack == f.ack
  {
    var ack, upper := if f.ack then 1 else 0, f.offset + f.length * 0x1_0000;
    FieldAt(RpcMessage(f), upper * 0x10, f.context, 2 + ack * 0x40, 0x100, 0x10);
    FieldAt(RpcMessage(f), 2 * (f.context + upper * 0x100), ack, 2, 0x40, 2);
  }

  lemma OffsetAndLength(f: Fields)
    requires FieldsFit(f)
    ensures ParseRpc(RpcMessage(f)).offset == f.offset && ParseRpc(RpcMessage(f)).length == f.length
  {
    var low := 2 + (if f.ack then 0x40 else 0) + f.context * 0x100;
    FieldAt(RpcMessage(f), f.length, f.offset, low, 0x1_0000, 0x1_0000);
    FieldAt(RpcMessage(f), 0, f.length, low + f.offset * 0x1_0000, 0x1_0000_0000, 0x1_0000_0000);
  }

  /** Where each field lies in the 64-bit word. */
  lemma MessageLayout(f: Fields)
    requires FieldsFit(f)
    ensures RpcMessage(f) == 2 + (if f.ack then Shl(1, 6) else 0) + Shl(f.context, 8) + Shl(f.offset, 16) + Shl(f.length, 32)
    ensures RpcMessage(f) < Shl(1, 64)
  {
    ShlByMul(f.context, 8);
    ShlByMul(f.offset, 16);
    ShlByMul(f.length, 32);
    Powers();
  }

  lemma Powers()
    ensures Pow2(8) == 0x100 && Pow2(16) == 0x1_0000 && Pow2(32) == 0x1_0000_0000
    ensures Shl(1, 6) == 0x40 && Shl(1, 64) == 0x1_0000_0000_0000_0000
  {
    hide Pow2, Shl;
    SmallPowers();
    Pow2Adds(8, 8);
    Pow2Adds(16, 16);
    Pow2Adds(32, 32);
    ShlOne(64);
  }

  lemma SmallPowers()
    ensures Pow2(8) == 0x100 && Shl(1, 6) == 0x40
  {
  }

  /** Fields that fit are read back as they were written. */
  lemma RpcRoundTrip(f: Fields)
    requires FieldsFit(f)
    ensures ParseRpc(RpcMessage(f)) == f
  {
    hide ParseRpc, RpcMessage;
    ContextAndAck(f);
    OffsetAndLength(f);
  }

  /** How a callback's own work ends: well, with an error that leaves before its frame is popped, or after. */
  datatype Work = Fine | FailsEarly | FailsLate

  /** A callback, with what its packet in shared memory makes the driver do: `clears` says that its output area is in
      range, `finishes` that what follows the pop succeeds. */
  datatype Callback = Callback(
    context: nat, offset: nat, length: nat, tag: string, clears: bool, work: Work, finishes: bool)

  /** What a receive gives. `Expired` is the deadline of the waiting call: it may pass at any receive, whether or not
      mail is waiting. */
  datatype Message = Noise | Reply(context: nat) | Request(cb: Callback) | Expired

  /** The packet lengths of the calls a callback makes, in order. */
  function NestedLengths(v12: bool, tag: string): seq<nat> {
    if tag == "D120" then [HEADER, HEADER + 4, HEADER, HEADER + 4, if v12 then HEADER + 4 else HEADER + 8, HEADER + 4]
    else if tag == "D100" || tag == "D206" || tag == "D207" then [HEADER + 4]
    else []
  }

  /** Only four callbacks make calls: D120 six of them and the others one, each with room for its header. */
  lemma HandlerCalls(v12: bool, tag: string)
    ensures |NestedLengths(v12, tag)| == if tag == "D120" then 6 else if tag in {"D100", "D206", "D207"} then 1 else 0
    ensures forall i :: 0 <= i < |NestedLengths(v12, tag)| ==> NestedLengths(v12, tag)[i] in {12, 16, 20}
  {
  }

  /** Only D100 hands a failed call's error on as its result; the others leave at once. */
  predicate PopsOnCallError(tag: string) {
    tag == "D100"
  }

  function FrameOf(cb: Callback): Place {
    Place(cb.context, cb.offset + RoundUp(cb.length))
  }

  /** The callback's packet header is inside shared memory. */
  predicate Opens(cb: Callback) {
    ChannelOffset(cb.context).Some? && ChannelOffset(cb.context).value + cb.offset + HEADER <= SHMEM_SIZE
  }

  // ---- What the driver does ----

  datatype Event = Sent(at: Place, length: nat) | Acked(context: nat)

  datatype State = State(v12: bool, ends: seq<Place>, inbox: seq<Message>, trace: seq<Event>)

  datatype Outcome = Outcome(ok: bool, s: State)

  predicate PacketFits(at: Place, length: nat) {
    TxOffset(at.context).Some? && TxOffset(at.context).value + at.offset + RoundUp(length) <= SHMEM_SIZE
  }

  predicate ReplyFits(at: Place, length: nat) {
    ChannelOffset(at.context).Some? && ChannelOffset(at.context).value + at.offset + length <= SHMEM_SIZE
  }

  /** All these bytes lie in shared memory. */
  ghost predicate InMemory(start: nat, count: nat) {
    forall b: nat :: start <= b < start + count ==> IsByte(b)
  }

  predicate IsByte(b: nat) {
    b < SHMEM_SIZE
  }

  /** A packet, a reply or a callback header is used exactly if each of its bytes lies in shared memory. */
  lemma FitsInMemory(at: Place, length: nat)
    requires TxOffset(at.context).Some? && length > 0
    ensures PacketFits(at, length) <==> InMemory(TxOffset(at.context).value + at.offset, RoundUp(length))
    ensures ReplyFits(at, length) <==> InMemory(ChannelOffset(at.context).value + at.offset, length)
  {
    assert IsByte(TxOffset(at.context).value + at.offset + RoundUp(length) - 1)
      <==> TxOffset(at.context).value + at.offset + RoundUp(length) <= SHMEM_SIZE;
    assert IsByte(ChannelOffset(at.context).value + at.offset + length - 1)
      <==> ChannelOffset(at.context).value + at.offset + length <= SHMEM_SIZE;
  }

  lemma OpensInMemory(cb: Callback)
    ensures Opens(cb) <==>
            ChannelOffset(cb.context).Some? && InMemory(ChannelOffset(cb.context).value + cb.offset, 12)
  {
    if ChannelOffset(cb.context).Some? {
      assert IsByte(ChannelOffset(cb.context).value + cb.offset + 11) <==> Opens(cb);
    }
  }

  function Popped(s: State): State {
    if s.ends == [] then s else s.(ends := s.ends[..|s.ends| - 1])
  }

  /** `call` with a packet of the given length. */
  function Call(s: State, length: nat): (r: Outcome)
    ensures |r.s.inbox| <= |s.inbox|
    decreases |s.inbox|, 1, 0
  {
    var at := Target(s.ends);
    if !PacketFits(at, length) then Outcome(false, s)
    else Await(s.(trace := s.trace + [Sent(at, length)]), at, length)
  }

  /** Its receive loop. An empty inbox is a timeout. */
  function Await(s: State, at: Place, length: nat): (r: Outcome)
    ensures |r.s.inbox| <= |s.inbox|
    decreases |s.inbox|, 0, 0
  {
    if s.inbox == [] then Outcome(false, s)
    else
      var rest := s.(inbox := s.inbox[1..]);
      match s.inbox[0]
      case Noise => Await(rest, at, length)
      case Expired => Outcome(false, rest)
      case Reply(context) =>
        if context == at.context then Outcome(ReplyFits(at, length), rest) else Await(rest, at, length)
      case Request(cb) =>
        var r := Handle(rest, cb);
        if r.ok then Await(r.s, at, length) else r
  }

  /** `handle_callback`. */
  function Handle(s: State, cb: Callback): (r: Outcome)
    ensures |r.s.inbox| <= |s.inbox|
    decreases |s.inbox|, 3, 0
  {
    if !Opens(cb) then Outcome(false, s)
    else
      var open := s.(ends := s.ends + [FrameOf(cb)]);
      if !cb.clears then Outcome(false, open)
      else
        var r := Calls(open, NestedLengths(s.v12, cb.tag));
        if !r.ok then if PopsOnCallError(cb.tag) then Outcome(false, Popped(r.s)) else r
        else
          match cb.work
          case FailsEarly => Outcome(false, r.s)
          case FailsLate => Outcome(false, Popped(r.s))
          case Fine =>
            var closed := Popped(r.s);
            if cb.finishes then Outcome(true, closed.(trace := closed.trace + [Acked(cb.context)]))
            else Outcome(false, closed)
  }

  /** The calls of one callback, in order, up to the first failure. */
  function Calls(s: State, lengths: seq<nat>): (r: Outcome)
    ensures |r.s.inbox| <= |s.inbox|
    decreases |s.inbox|, 2, |lengths|
  {
    if lengths == [] then Outcome(true, s)
    else
      var r := Call(s, lengths[0]);
      if r.ok then Calls(r.s, lengths[1..]) else r
  }

  // ---- Well-nested exchanges ----

  /** What firmware sends while a call is open, up to and including its reply. */
  datatype Script = Script(items: seq<Item>)

  /** A message the call passes over, or a callback with the exchanges of the calls it makes. */
  datatype Item = Skip(m: Message) | Nest(cb: Callback, calls: seq<Script>)

  predicate Passes(m: Message, context: nat) {
    m.Noise? || (m.Reply? && m.context != context)
  }

  predicate Serves(cb: Callback) {
    Opens(cb) && cb.clears && cb.work.Fine? && cb.finishes
  }

  predicate ScriptOk(v12: bool, ends: seq<Place>, length: nat, script: Script)
    decreases script, 1
  {
    var at := Target(ends);
    PacketFits(at, length) && ReplyFits(at, length) && ItemsOk(v12, ends, script.items)
  }

  predicate ItemsOk(v12: bool, ends: seq<Place>, items: seq<Item>)
    decreases items, 0
  {
    items != [] ==>
      && (match items[0]
          case Skip(m) => Passes(m, Target(ends).context)
          case Nest(cb, calls) => Serves(cb) && CallsOk(v12, ends + [FrameOf(cb)], NestedLengths(v12, cb.tag), calls))
      && ItemsOk(v12, ends, items[1..])
  }

  predicate CallsOk(v12: bool, ends: seq<Place>, lengths: seq<nat>, calls: seq<Script>)
    decreases calls, 0
  {
    if lengths == [] || calls == [] then lengths == [] && calls == []
    else ScriptOk(v12, ends, lengths[0], calls[0]) && CallsOk(v12, ends, lengths[1..], calls[1..])
  }

  /** The messages of an exchange, as they arrive. */
  function Messages(ends: seq<Place>, script: Script): seq<Message>
    decreases script, 1
  {
    ItemMessages(ends, script.items) + [Reply(Target(ends).context)]
  }

  function ItemMessages(ends: seq<Place>, items: seq<Item>): seq<Message>
    decreases items, 0
  {
    if items == [] then []
    else
      (match items[0]
       case Skip(m) => [m]
       case Nest(cb, calls) => [Request(cb)] + CallMessages(ends + [FrameOf(cb)], calls))
      + ItemMessages(ends, items[1..])
  }

  function CallMessages(ends: seq<Place>, calls: seq<Script>): seq<Message>
    decreases calls, 0
  {
    if calls == [] then [] else Messages(ends, calls[0]) + CallMessages(ends, calls[1..])
  }

  /** What the driver sends in answer: a callback is acknowledged once, after everything its calls sent. */
  function Events(v12: bool, ends: seq<Place>, length: nat, script: Script): seq<Event>
    decreases script, 1
  {
    [Sent(Target(ends), length)] + ItemEvents(v12, ends, script.items)
  }

  function ItemEvents(v12: bool, ends: seq<Place>, items: seq<Item>): seq<Event>
    decreases items, 0
  {
    if items == [] then []
    else
      (match items[0]
       case Skip(m) => []
       case Nest(cb, calls) =>
         CallEvents(v12, ends + [FrameOf(cb)], NestedLengths(v12, cb.tag), calls) + [Acked(cb.context)])
      + ItemEvents(v12, ends, items[1..])
  }

  function CallEvents(v12: bool, ends: seq<Place>, lengths: seq<nat>, calls: seq<Script>): seq<Event>
    decreases calls, 0
  {
    if lengths == [] || calls == [] then []
    else Events(v12, ends, lengths[0], calls[0]) + CallEvents(v12, ends, lengths[1..], calls[1..])
  }

  // ---- A call succeeds exactly on a well-nested exchange, and consumes exactly that ----

  function After(s: State, inbox: seq<Message>, events: seq<Event>): State {
    s.(inbox := inbox, trace := s.trace + events)
  }

  lemma AfterTwice(s: State, i: seq<Message>, a: seq<Event>, j: seq<Message>, b: seq<Event>)
    ensures After(After(s, i, a), j, b) == After(s, j, a + b)
  {
  }

  lemma {:induction false} CallComplete(s: State, length: nat, script: Script, rest: seq<Message>)
    requires ScriptOk(s.v12, s.ends, length, script) && s.inbox == Messages(s.ends, script) + rest
    ensures Call(s, length) == Outcome(true, After(s, rest, Events(s.v12, s.ends, length, script)))
    decreases script, 1
  {
    var at := Target(s.ends);
    var sent := s.(trace := s.trace + [Sent(at, length)]);
    AwaitComplete(sent, at, length, script.items, rest);
  }

  lemma {:induction false} AwaitComplete(s: State, at: Place, length: nat, items: seq<Item>, rest: seq<Message>)
    requires at == Target(s.ends) && ReplyFits(at, length) && ItemsOk(s.v12, s.ends, items)
    requires s.inbox == ItemMessages(s.ends, items) + [Reply(at.context)] + rest
    ensures Await(s, at, length) == Outcome(true, After(s, rest, ItemEvents(s.v12, s.ends, items)))
    decreases items, 0
  {
    hide Handle, Call, Calls, CallsOk, CallMessages, CallEvents, NestedLengths, Target, Opens, FrameOf, ReplyFits, TxOffset, ChannelOffset;
    if items == [] {
      assert s.inbox[0] == Reply(at.context) && s.inbox[1..] == rest;
    } else {
      var left := ItemMessages(s.ends, items[1..]) + [Reply(at.context)] + rest;
      match items[0] {
        case Skip(m) =>
          assert s.inbox[0] == m && s.inbox[1..] == left;
          assert Await(s, at, length) == Await(s.(inbox := left), at, length);
          AwaitComplete(s.(inbox := left), at, length, items[1..], rest);
        case Nest(cb, calls) =>
          var inner := CallMessages(s.ends + [FrameOf(cb)], calls) + left;
          assert s.inbox == [Request(cb)] + inner;
          HandleComplete(s.(inbox := inner), cb, calls, left);
          var events := CallEvents(s.v12, s.ends + [FrameOf(cb)], NestedLengths(s.v12, cb.tag), calls)
                        + [Acked(cb.context)];
          assert s.inbox[0] == Request(cb) && s.inbox[1..] == inner;
          assert Await(s, at, length) == Await(After(s, left, events), at, length);
          AwaitComplete(After(s, left, events), at, length, items[1..], rest);
          AfterTwice(s, left, events, rest, ItemEvents(s.v12, s.ends, items[1..]));
      }
    }
  }

  lemma {:induction false} HandleComplete(s: State, cb: Callback, calls: seq<Script>, rest: seq<Message>)
    requires Serves(cb) && CallsOk(s.v12, s.ends + [FrameOf(cb)], NestedLengths(s.v12, cb.tag), calls)
    requires s.inbox == CallMessages(s.ends + [FrameOf(cb)], calls) + rest
    ensures Handle(s, cb) ==
            Outcome(true, After(s, rest, CallEvents(s.v12, s.ends + [FrameOf(cb)], NestedLengths(s.v12, cb.tag), calls)
                                         + [Acked(cb.context)]))
    decreases calls, 1
  {
    var open := s.(ends := s.ends + [FrameOf(cb)]);
    CallsComplete(open, NestedLengths(s.v12, cb.tag), calls, rest);
    assert open.ends[..|open.ends| - 1] == s.ends;
  }

  lemma {:induction false} CallsComplete(s: State, lengths: seq<nat>, calls: seq<Script>, rest: seq<Message>)
    requires CallsOk(s.v12, s.ends, lengths, calls) && s.inbox == CallMessages(s.ends, calls) + rest
    ensures Calls(s, lengths) == Outcome(true, After(s, rest, CallEvents(s.v12, s.ends, lengths, calls)))
    decreases calls, 0
  {
    if lengths != [] {
      var left := CallMessages(s.ends, calls[1..]) + rest;
      assert s.inbox == Messages(s.ends, calls[0]) + left;
      CallComplete(s, lengths[0], calls[0], left);
      var events := Events(s.v12, s.ends, lengths[0], calls[0]);
      CallsComplete(After(s, left, events), lengths[1..], calls[1..], rest);
      AfterTwice(s, left, events, rest, CallEvents(s.v12, s.ends, lengths[1..], calls[1..]));
    }
  }

  /** A callback's request, its calls' messages and the rest of the exchange make one exchange. */
  lemma NestMessages(ends: seq<Place>, cb: Callback, calls: seq<Script>, more: seq<Item>, reply: seq<Message>,
                     after: seq<Message>, inbox: seq<Message>, mid: seq<Message>)
    requires inbox != [] && inbox[0] == Request(cb) && inbox[1..] == CallMessages(ends + [FrameOf(cb)], calls) + mid
    requires mid == ItemMessages(ends, more) + reply + after
    ensures inbox == ItemMessages(ends, [Nest(cb, calls)] + more) + reply + after
  {
    hide CallMessages, FrameOf;
    var c, m := CallMessages(ends + [FrameOf(cb)], calls), ItemMessages(ends, more);
    assert ([Nest(cb, calls)] + more)[1..] == more;
    assert ItemMessages(ends, [Nest(cb, calls)] + more) == [Request(cb)] + c + m;
    assert inbox == [Request(cb)] + (c + (m + reply + after));
  }

  lemma {:induction false} CallSound(s: State, length: nat) returns (script: Script)
    requires Call(s, length).ok
    ensures ScriptOk(s.v12, s.ends, length, script)
    ensures s.inbox == Messages(s.ends, script) + Call(s, length).s.inbox
    ensures Call(s, length).s == After(s, Call(s, length).s.inbox, Events(s.v12, s.ends, length, script))
    decreases |s.inbox|, 1, 0
  {
    var at := Target(s.ends);
    var items := AwaitSound(s.(trace := s.trace + [Sent(at, length)]), at, length);
    script := Script(items);
    AfterTwice(s, s.inbox, [Sent(at, length)], Call(s, length).s.inbox, ItemEvents(s.v12, s.ends, items));
  }

  lemma {:induction false} AwaitSound(s: State, at: Place, length: nat) returns (items: seq<Item>)
    requires at == Target(s.ends) && Await(s, at, length).ok
    ensures ReplyFits(at, length) && ItemsOk(s.v12, s.ends, items)
    ensures s.inbox == ItemMessages(s.ends, items) + [Reply(at.context)] + Await(s, at, length).s.inbox
    ensures Await(s, at, length).s == After(s, Await(s, at, length).s.inbox, ItemEvents(s.v12, s.ends, items))
    decreases |s.inbox|, 0, 0
  {
    hide Handle, Call, Calls, CallsOk, CallMessages, CallEvents, NestedLengths, Target, Opens, FrameOf, ReplyFits, TxOffset, ChannelOffset;
    var rest := s.(inbox := s.inbox[1..]);
    var m := s.inbox[0];
    if m.Request? {
      var calls := HandleSound(rest, m.cb);
      var r := Handle(rest, m.cb);
      var more := AwaitSound(r.s, at, length);
      items := [Nest(m.cb, calls)] + more;
      assert items[1..] == more;
      var events := CallEvents(s.v12, s.ends + [FrameOf(m.cb)], NestedLengths(s.v12, m.cb.tag), calls)
                    + [Acked(m.cb.context)];
      assert Await(s, at, length) == Await(r.s, at, length) && r.s == After(s, r.s.inbox, events);
      assert ItemEvents(s.v12, s.ends, items) == events + ItemEvents(s.v12, s.ends, more);
      NestMessages(s.ends, m.cb, calls, more, [Reply(at.context)], Await(s, at, length).s.inbox, s.inbox, r.s.inbox);
      AfterTwice(s, r.s.inbox, events, Await(s, at, length).s.inbox, ItemEvents(s.v12, s.ends, more));
    } else if m.Reply? && m.context == at.context {
      items := [];
    } else {
      assert Await(s, at, length) == Await(rest, at, length) && Passes(m, at.context);
      var more := AwaitSound(rest, at, length);
      items := [Skip(m)] + more;
      assert items[1..] == more;
    }
  }

  lemma {:induction false} HandleSound(s: State, cb: Callback) returns (calls: seq<Script>)
    requires Handle(s, cb).ok
    ensures Serves(cb) && CallsOk(s.v12, s.ends + [FrameOf(cb)], NestedLengths(s.v12, cb.tag), calls)
    ensures s.inbox == CallMessages(s.ends + [FrameOf(cb)], calls) + Handle(s, cb).s.inbox
    ensures Handle(s, cb).s ==
            After(s, Handle(s, cb).s.inbox,
                  CallEvents(s.v12, s.ends + [FrameOf(cb)], NestedLengths(s.v12, cb.tag), calls) + [Acked(cb.context)])
    decreases |s.inbox|, 3, 0
  {
    var open := s.(ends := s.ends + [FrameOf(cb)]);
    calls := CallsSound(open, NestedLengths(s.v12, cb.tag));
    assert open.ends[..|open.ends| - 1] == s.ends;
  }

  lemma {:induction false} CallsSound(s: State, lengths: seq<nat>) returns (calls: seq<Script>)
    requires Calls(s, lengths).ok
    ensures CallsOk(s.v12, s.ends, lengths, calls)
    ensures s.inbox == CallMessages(s.ends, calls) + Calls(s, lengths).s.inbox
    ensures Calls(s, lengths).s == After(s, Calls(s, lengths).s.inbox, CallEvents(s.v12, s.ends, lengths, calls))
    decreases |s.inbox|, 2, |lengths|
  {
    hide Call, Handle, Await, ScriptOk, Messages, Events, Target;
    if lengths == [] {
      calls := [];
    } else {
      var first := CallSound(s, lengths[0]);
      var r := Call(s, lengths[0]);
      var more := CallsSound(r.s, lengths[1..]);
      calls := [first] + more;
      assert calls[1..] == more;
      AfterTwice(s, r.s.inbox, Events(s.v12, s.ends, lengths[0], first), Calls(s, lengths).s.inbox,
                 CallEvents(s.v12, s.ends, lengths[1..], more));
    }
  }

  /** A call succeeds exactly when what arrives begins with a well-nested exchange; it then consumes that exchange and
      nothing more, leaves the open callbacks as they were, and has sent exactly the exchange's events. */
  lemma CallSucceedsIff(s: State, length: nat)
    ensures Call(s, length).ok <==>
            exists script, rest :: ScriptOk(s.v12, s.ends, length, script) && s.inbox == Messages(s.ends, script) + rest
    ensures forall script, rest ::
              ScriptOk(s.v12, s.ends, length, script) && s.inbox == Messages(s.ends, script) + rest ==>
                Call(s, length).s == After(s, rest, Events(s.v12, s.ends, length, script))
  {
    if Call(s, length).ok {
      var script := CallSound(s, length);
    }
    forall script, rest | ScriptOk(s.v12, s.ends, length, script) && s.inbox == Messages(s.ends, script) + rest {
      CallComplete(s, length, script, rest);
    }
  }

  /** A callback that fails is not acknowledged. Its frame stays open if its packet area or its own work fails early, or a
      call of it fails in any handler but that of D100, and is popped on the later failures. */
  lemma CallbackFails(s: State, cb: Callback)
    requires Opens(cb) && !Handle(s, cb).ok
    ensures var r, open := Handle(s, cb).s, s.(ends := s.ends + [FrameOf(cb)]);
            var called := Calls(open, NestedLengths(s.v12, cb.tag));
            && (!cb.clears ==> r == open)
            && (cb.clears ==> r.inbox == called.s.inbox && r.trace == called.s.trace)
            && (cb.clears && !called.ok && cb.tag != "D100" ==> r.ends == called.s.ends)
            && (cb.clears && !called.ok && cb.tag == "D100" && called.s.ends != [] ==>
                  r.ends == called.s.ends[..|called.s.ends| - 1])
            && (cb.clears && called.ok && cb.work.FailsEarly? ==> r.ends == s.ends + [FrameOf(cb)])
            && (cb.clears && called.ok && !cb.work.FailsEarly? ==> r.ends == s.ends)
  {
    hide Calls, NestedLengths, Opens;
    var open := s.(ends := s.ends + [FrameOf(cb)]);
    if Calls(open, NestedLengths(s.v12, cb.tag)).ok {
      var calls := CallsSound(open, NestedLengths(s.v12, cb.tag));
      assert open.ends[..|open.ends| - 1] == s.ends;
    }
  }

  // ---- Acknowledgements ----

  function Acks(events: seq<Event>): multiset<nat> {
    if events == [] then multiset{}
    else (match events[0] case Acked(context) => multiset{context} case Sent(_, _) => multiset{}) + Acks(events[1..])
  }

  function Requests(messages: seq<Message>): multiset<nat> {
    if messages == [] then multiset{}
    else (match messages[0] case Request(cb) => multiset{cb.context} case _ => multiset{}) + Requests(messages[1..])
  }

  lemma {:induction false} AcksJoin(a: seq<Event>, b: seq<Event>)
    ensures Acks(a + b) == Acks(a) + Acks(b)
    decreases |a|
  {
    if a == [] {
      assert a + b == b;
    } else {
      assert (a + b)[1..] == a[1..] + b;
      AcksJoin(a[1..], b);
    }
  }

  lemma {:induction false} RequestsJoin(a: seq<Message>, b: seq<Message>)
    ensures Requests(a + b) == Requests(a) + Requests(b)
    decreases |a|
  {
    if a == [] {
      assert a + b == b;
    } else {
      assert (a + b)[1..] == a[1..] + b;
      RequestsJoin(a[1..], b);
    }
  }

  /** Over a well-nested exchange every callback is acknowledged exactly once, in its own context. */
  lemma {:induction false} EachCallbackAckedOnce(v12: bool, ends: seq<Place>, length: nat, script: Script)
    requires ScriptOk(v12, ends, length, script)
    ensures Acks(Events(v12, ends, length, script)) == Requests(Messages(ends, script))
    decreases script, 1
  {
    ItemsAckedOnce(v12, ends, script.items);
    var at := Target(ends);
    RequestsJoin(ItemMessages(ends, script.items), [Reply(at.context)]);
    assert Requests([Reply(at.context)]) == multiset{};
    AcksJoin([Sent(at, length)], ItemEvents(v12, ends, script.items));
    assert Acks([Sent(at, length)]) == multiset{};
  }

  lemma {:induction false} ItemsAckedOnce(v12: bool, ends: seq<Place>, items: seq<Item>)
    requires ItemsOk(v12, ends, items)
    ensures Acks(ItemEvents(v12, ends, items)) == Requests(ItemMessages(ends, items))
    decreases items, 0
  {
    hide Acks, Requests, CallsOk, CallEvents, CallMessages, NestedLengths, FrameOf, Target, Serves;
    if items == [] {
      NothingYet();
    } else {
      ItemsAckedOnce(v12, ends, items[1..]);
      match items[0] {
        case Skip(m) =>
          PassedOver(m, Target(ends).context);
          assert ItemEvents(v12, ends, items) == ItemEvents(v12, ends, items[1..]);
          RequestsJoin([m], ItemMessages(ends, items[1..]));
        case Nest(cb, calls) =>
          var inner, lengths := ends + [FrameOf(cb)], NestedLengths(v12, cb.tag);
          var events, messages := CallEvents(v12, inner, lengths, calls), CallMessages(inner, calls);
          CallsAckedOnce(v12, inner, lengths, calls);
          CallbackAcked(cb, events, messages);
          AcksJoin(events + [Acked(cb.context)], ItemEvents(v12, ends, items[1..]));
          RequestsJoin([Request(cb)] + messages, ItemMessages(ends, items[1..]));
      }
    }
  }

  lemma NothingYet()
    ensures Acks([]) == Requests([]) == multiset{}
  {
  }

  lemma PassedOver(m: Message, context: nat)
    requires Passes(m, context)
    ensures Requests([m]) == multiset{}
  {
    assert [m][1..] == [];
  }

  lemma CallbackAcked(cb: Callback, events: seq<Event>, messages: seq<Message>)
    requires Acks(events) == Requests(messages)
    ensures Acks(events + [Acked(cb.context)]) == Requests([Request(cb)] + messages)
  {
    AcksJoin(events, [Acked(cb.context)]);
    RequestsJoin([Request(cb)], messages);
    assert Acks([Acked(cb.context)]) == multiset{cb.context};
    assert Requests([Request(cb)]) == multiset{cb.context};
  }

  lemma {:induction false} CallsAckedOnce(v12: bool, ends: seq<Place>, lengths: seq<nat>, calls: seq<Script>)
    requires CallsOk(v12, ends, lengths, calls)
    ensures Acks(CallEvents(v12, ends, lengths, calls)) == Requests(CallMessages(ends, calls))
    decreases calls, 0
  {
    hide ScriptOk, Events, Messages;
    if lengths != [] {
      EachCallbackAckedOnce(v12, ends, lengths[0], calls[0]);
      CallsAckedOnce(v12, ends, lengths[1..], calls[1..]);
      AcksJoin(Events(v12, ends, lengths[0], calls[0]), CallEvents(v12, ends, lengths[1..], calls[1..]));
      RequestsJoin(Messages(ends, calls[0]), CallMessages(ends, calls[1..]));
    }
  }

  // ---- Nested packets and the frames they are sent under ----

  /** A packet, and the frames that were open when it was sent. */
  datatype Packet = Packet(frames: seq<Place>, at: Place, length: nat)

  function Packets(v12: bool, ends: seq<Place>, length: nat, script: Script): seq<Packet>
    decreases script, 1
  {
    [Packet(ends, Target(ends), length)] + ItemPackets(v12, ends, script.items)
  }

  function ItemPackets(v12: bool, ends: seq<Place>, items: seq<Item>): seq<Packet>
    decreases items, 0
  {
    if items == [] then []
    else
      (match items[0]
       case Skip(_) => []
       case Nest(cb, calls) => CallPackets(v12, ends + [FrameOf(cb)], NestedLengths(v12, cb.tag), calls))
      + ItemPackets(v12, ends, items[1..])
  }

  function CallPackets(v12: bool, ends: seq<Place>, lengths: seq<nat>, calls: seq<Script>): seq<Packet>
    decreases calls, 0
  {
    if lengths == [] || calls == [] then []
    else Packets(v12, ends, lengths[0], calls[0]) + CallPackets(v12, ends, lengths[1..], calls[1..])
  }

  function SentOf(events: seq<Event>): seq<Event> {
    if events == [] then []
    else (if events[0].Sent? then [events[0]] else []) + SentOf(events[1..])
  }

  function AsSent(packets: seq<Packet>): seq<Event> {
    if packets == [] then [] else [Sent(packets[0].at, packets[0].length)] + AsSent(packets[1..])
  }

  lemma {:induction false} SentJoin(a: seq<Event>, b: seq<Event>)
    ensures SentOf(a + b) == SentOf(a) + SentOf(b)
    decreases |a|
  {
    if a == [] {
      assert a + b == b;
    } else {
      assert (a + b)[1..] == a[1..] + b && (a + b)[0] == a[0];
      SentJoin(a[1..], b);
      var head := if a[0].Sent? then [a[0]] else [];
      assert head + (SentOf(a[1..]) + SentOf(b)) == (head + SentOf(a[1..])) + SentOf(b);
    }
  }

  lemma {:induction false} AsSentJoin(a: seq<Packet>, b: seq<Packet>)
    ensures AsSent(a + b) == AsSent(a) + AsSent(b)
    decreases |a|
  {
    if a == [] {
      assert a + b == b;
    } else {
      assert (a + b)[1..] == a[1..] + b;
      AsSentJoin(a[1..], b);
    }
  }

  /** These are the packets of the exchange, all of them and in order. */
  lemma {:induction false} PacketsAreSent(v12: bool, ends: seq<Place>, length: nat, script: Script)
    ensures AsSent(Packets(v12, ends, length, script)) == SentOf(Events(v12, ends, length, script))
    decreases script, 1
  {
    ItemPacketsAreSent(v12, ends, script.items);
    AsSentJoin([Packet(ends, Target(ends), length)], ItemPackets(v12, ends, script.items));
    SentJoin([Sent(Target(ends), length)], ItemEvents(v12, ends, script.items));
  }

  lemma {:induction false} ItemPacketsAreSent(v12: bool, ends: seq<Place>, items: seq<Item>)
    ensures AsSent(ItemPackets(v12, ends, items)) == SentOf(ItemEvents(v12, ends, items))
    decreases items, 0
  {
    hide FrameOf, NestedLengths, CallPackets, CallEvents, SentOf, AsSent;
    if items == [] {
      NothingSent();
    } else {
      ItemPacketsAreSent(v12, ends, items[1..]);
      var packets, events := ItemPackets(v12, ends, items[1..]), ItemEvents(v12, ends, items[1..]);
      match items[0]
      case Skip(_) =>
        assert [] + packets == packets && [] + events == events;
      case Nest(cb, calls) =>
        CallPacketsAreSent(v12, ends + [FrameOf(cb)], NestedLengths(v12, cb.tag), calls);
        NestSent(cb, CallPackets(v12, ends + [FrameOf(cb)], NestedLengths(v12, cb.tag), calls), packets,
                 CallEvents(v12, ends + [FrameOf(cb)], NestedLengths(v12, cb.tag), calls), events);
    }
  }

  lemma NothingSent()
    ensures AsSent([]) == SentOf([]) == []
  {
  }

  /** An acknowledgement sends no packet. */
  lemma NestSent(cb: Callback, packets: seq<Packet>, morePackets: seq<Packet>, events: seq<Event>, more: seq<Event>)
    requires AsSent(packets) == SentOf(events) && AsSent(morePackets) == SentOf(more)
    ensures AsSent(packets + morePackets) == SentOf(events + [Acked(cb.context)] + more)
  {
    SentJoin(events, [Acked(cb.context)]);
    SentJoin(events + [Acked(cb.context)], more);
    AsSentJoin(packets, morePackets);
    assert SentOf([Acked(cb.context)]) == SentOf([]);
  }

  lemma {:induction false} CallPacketsAreSent(v12: bool, ends: seq<Place>, lengths: seq<nat>, calls: seq<Script>)
    ensures AsSent(CallPackets(v12, ends, lengths, calls)) == SentOf(CallEvents(v12, ends, lengths, calls))
    decreases calls, 0
  {
    if lengths != [] && calls != [] {
      PacketsAreSent(v12, ends, lengths[0], calls[0]);
      CallPacketsAreSent(v12, ends, lengths[1..], calls[1..]);
      SentJoin(Events(v12, ends, lengths[0], calls[0]), CallEvents(v12, ends, lengths[1..], calls[1..]));
      AsSentJoin(Packets(v12, ends, lengths[0], calls[0]), CallPackets(v12, ends, lengths[1..], calls[1..]));
    }
  }

  /** The packet lies beyond every frame open in its context. */
  predicate Apart(p: Packet) {
    forall i :: 0 <= i < |p.frames| && p.frames[i].context == p.at.context ==> p.frames[i].offset <= p.at.offset
  }

  /** Firmware opens callbacks in its own contexts, and each beyond the frames open in it. */
  predicate Stacks(ends: seq<Place>, cb: Callback) {
    && cb.context in {CALLBACK, ASYNC, OOB_CALLBACK, OOB_ASYNC}
    && forall i :: 0 <= i < |ends| && ends[i].context == cb.context ==> ends[i].offset <= cb.offset
  }

  predicate Stacked(ends: seq<Place>) {
    && (forall i :: 0 <= i < |ends| ==> ends[i].context in {CALLBACK, ASYNC, OOB_CALLBACK, OOB_ASYNC})
    && (forall i, j :: 0 <= i < j < |ends| && ends[i].context == ends[j].context ==> ends[i].offset <= ends[j].offset)
  }

  predicate ItemsStack(ends: seq<Place>, items: seq<Item>)
    decreases items, 0
  {
    items != [] ==>
      && (match items[0]
          case Skip(_) => true
          case Nest(cb, calls) => Stacks(ends, cb) && CallsStack(ends + [FrameOf(cb)], calls))
      && ItemsStack(ends, items[1..])
  }

  predicate CallsStack(ends: seq<Place>, calls: seq<Script>)
    decreases calls, 0
  {
    calls != [] ==> ItemsStack(ends, calls[0].items) && CallsStack(ends, calls[1..])
  }

  lemma FrameStacks(ends: seq<Place>, cb: Callback)
    requires Stacked(ends) && Stacks(ends, cb)
    ensures Stacked(ends + [FrameOf(cb)])
  {
  }

  /** With a firmware that stacks its callbacks, no packet of an exchange overlaps a frame open in its context. */
  lemma {:induction false} PacketsApart(v12: bool, ends: seq<Place>, length: nat, script: Script, p: Packet)
    requires Stacked(ends) && ItemsStack(ends, script.items) && p in Packets(v12, ends, length, script)
    ensures Apart(p)
    decreases script, 1
  {
    if p != Packet(ends, Target(ends), length) {
      ItemPacketsApart(v12, ends, script.items, p);
    }
  }

  lemma {:induction false} ItemPacketsApart(v12: bool, ends: seq<Place>, items: seq<Item>, p: Packet)
    requires Stacked(ends) && ItemsStack(ends, items) && p in ItemPackets(v12, ends, items)
    ensures Apart(p)
    decreases items, 0
  {
    if p in ItemPackets(v12, ends, items[1..]) {
      ItemPacketsApart(v12, ends, items[1..], p);
    } else {
      var cb := items[0].cb;
      FrameStacks(ends, cb);
      CallPacketsApart(v12, ends + [FrameOf(cb)], NestedLengths(v12, cb.tag), items[0].calls, p);
    }
  }

  lemma {:induction false} CallPacketsApart(v12: bool, ends: seq<Place>, lengths: seq<nat>, calls: seq<Script>, p: Packet)
    requires Stacked(ends) && CallsStack(ends, calls) && p in CallPackets(v12, ends, lengths, calls)
    ensures Apart(p)
    decreases calls, 0
  {
    if p in Packets(v12, ends, lengths[0], calls[0]) {
      PacketsApart(v12, ends, lengths[0], calls[0], p);
    } else {
      CallPacketsApart(v12, ends, lengths[1..], calls[1..], p);
    }
  }

  // ---- The transport ----

  class Iomfb {
    const v12: bool
    var callbackEnds: seq<Place>
    var inbox: seq<Message>
    var trace: seq<Event>

    ghost function View(): State
      reads this
    {
      State(v12, callbackEnds, inbox, trace)
    }

    method CallFirmware(length: nat) returns (ok: bool)
      modifies this
      ensures Outcome(ok, View()) == Call(old(View()), length)
      decreases |inbox|, 1, 0
    {
      hide Handle, Calls, NestedLengths, Opens, RoundUp;
      var at := Target(callbackEnds);
      if !PacketFits(at, length) {
        return false;
      }
      trace := trace + [Sent(at, length)];
      while inbox != []
        invariant |inbox| <= old(|inbox|)
        invariant Await(View(), at, length) == Call(old(View()), length)
        decreases |inbox|
      {
        var message := inbox[0];
        inbox := inbox[1..];
        match message {
          case Noise =>
          case Expired =>
            return false;
          case Reply(context) =>
            if context == at.context {
              return ReplyFits(at, length);
            }
          case Request(cb) =>
            var handled := HandleCallback(cb);
            if !handled {
              return false;
            }
        }
      }
      ok := false;
    }

    method HandleCallback(cb: Callback) returns (ok: bool)
      modifies this
      ensures Outcome(ok, View()) == Handle(old(View()), cb)
      ensures |inbox| <= old(|inbox|)
      decreases |inbox|, 3, 0
    {
      hide Calls, NestedLengths;
      if !Opens(cb) {
        return false;
      }
      callbackEnds := callbackEnds + [FrameOf(cb)];
      if !cb.clears {
        return false;
      }
      ghost var open := View();
      var called := RunCalls(NestedLengths(v12, cb.tag));
      if !called {
        if PopsOnCallError(cb.tag) {
          Pop();
        }
        return false;
      }
      match cb.work {
        case FailsEarly => return false;
        case FailsLate =>
          Pop();
          return false;
        case Fine =>
          Pop();
      }
      if !cb.finishes {
        return false;
      }
      trace := trace + [Acked(cb.context)];
      ok := true;
    }

    method Pop()
      modifies this`callbackEnds
      ensures View() == Popped(old(View()))
    {
      if callbackEnds != [] {
        callbackEnds := callbackEnds[..|callbackEnds| - 1];
      }
    }

    /** The calls a callback makes, each only once the one before has returned. */
    method RunCalls(lengths: seq<nat>) returns (ok: bool)
      modifies this
      ensures Outcome(ok, View()) == Calls(old(View()), lengths)
      ensures |inbox| <= old(|inbox|)
      decreases |inbox|, 2, |lengths|
    {
      hide Call;
      if lengths == [] {
        return true;
      }
      ok := CallFirmware(lengths[0]);
      if ok {
        ok := RunCalls(lengths[1..]);
      }
    }
  }
}
