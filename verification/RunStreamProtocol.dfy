/** The client, the server's log and the two channels of the current connection,
    plus the frames of dead connections that the server may still read, as a state
    machine. An action names one interleaving step with its nondeterminism. */
module RunStreamProtocol {
  import opened Wrappers
  import opened RunStreamClient

  datatype System = System(
    client: Client,
    wire: seq<Frame>,     // current connection, client to server
    replies: seq<Reply>,  // current connection, server to client
    late: seq<Frame>,     // written on dead connections, perhaps still to be read
    log: seq<Frame>,      // accepted by the server, in order
    sent: seq<Frame>      // one frame per call of sendEvent, in order
  )

  datatype Action =
    | Send(input: EventInput, fault: bool)
    | Connect
    | Drop                           // the connection is lost
    | Shut                           // the caller closes the client
    | ServerRead(reack: bool)        // duplicates are re-acked or answered by a gap
    | LateRead(index: nat)
    | LateLost(index: nat)
    | ClientRead(room: Option<nat>)

  function Init(maxQueueSize: nat): System {
    System(Fresh(maxQueueSize), [], [], [], [], [])
  }

  predicate Finished(log: seq<Frame>) {
    log != [] && IsTerminal(log[|log| - 1])
  }

  predicate Accepts(s: System, f: Frame) {
    !Finished(s.log) && f.seqNo == |s.log| + 1
  }

  predicate Enabled(s: System, a: Action) {
    match a
    case Connect => !s.client.attached && !s.client.stopped && !s.client.terminated
    case ServerRead(_) => s.wire != []
    case LateRead(i) => i < |s.late|
    case LateLost(i) => i < |s.late|
    case ClientRead(_) => s.replies != []
    case _ => true
  }

  function Without<T>(xs: seq<T>, i: nat): seq<T>
    requires i < |xs|
  {
    xs[..i] + xs[i + 1..]
  }

  function ServerReplies(s: System, f: Frame, reack: bool): seq<Reply> {
    if Accepts(s, f) then [Ack(f.seqNo)] + (if IsTerminal(f) then [Bye] else [])
    else if f.seqNo <= |s.log| && reack then [Ack(f.seqNo)]
    else [Gap(|s.log| + 1)]
  }

  function Step(s: System, a: Action): System
    requires Enabled(s, a)
  {
    match a
    case Send(input, fault) =>
      var (c, out) := SendEvent(s.client, input, fault);
      s.(client := c, wire := s.wire + out, sent := s.sent + [NewFrame(s.client, input)])
    case Connect =>
      s.(client := OpenSocket(s.client), wire := [],
         replies := [Resume(|s.log|, Finished(s.log))] + (if Finished(s.log) then [Bye] else []))
    case Drop =>
      s.(client := SocketClosed(s.client, false), wire := [], replies := [], late := s.late + s.wire)
    case Shut =>
      s.(client := Close(s.client), wire := [], late := s.late + s.wire)
    case ServerRead(reack) =>
      var f := s.wire[0];
      var rest := s.(wire := s.wire[1..]);
      if Bye in s.replies then rest  // the server has already closed this connection
      else rest.(log := if Accepts(s, f) then s.log + [f] else s.log,
                 replies := s.replies + ServerReplies(s, f, reack))
    case LateRead(i) =>
      var f := s.late[i];
      s.(late := Without(s.late, i), log := if Accepts(s, f) then s.log + [f] else s.log)
    case LateLost(i) => s.(late := Without(s.late, i))
    case ClientRead(room) =>
      var (c, out) := HandleReply(s.client, s.replies[0], room);
      if s.client.attached && !c.attached then
        s.(client := c, replies := s.replies[1..], wire := [], late := s.late + s.wire)
      else s.(client := c, replies := s.replies[1..], wire := s.wire + out)
  }

  ghost predicate Schedule(s: System, actions: seq<Action>)
    decreases |actions|
  {
    actions == [] || (Enabled(s, actions[0]) && Schedule(Step(s, actions[0]), actions[1..]))
  }

  ghost function Run(s: System, actions: seq<Action>): System
    requires Schedule(s, actions)
    decreases |actions|
  {
    if actions == [] then s else Run(Step(s, actions[0]), actions[1..])
  }

  // ---------------------------------------------------------------- invariants

  ghost predicate Genuine(sent: seq<Frame>, f: Frame) {
    1 <= f.seqNo <= |sent| && f == sent[f.seqNo - 1]
  }

  ghost predicate AllGenuine(sent: seq<Frame>, frames: seq<Frame>) {
    forall f :: f in frames ==> Genuine(sent, f)
  }

  // No reply promises more than the log holds.
  ghost predicate Truthful(s: System, r: Reply) {
    match r
    case Resume(lastAcked, ended) =>
      lastAcked <= |s.log| && (ended ==> Finished(s.log) && lastAcked == |s.log|)
    case Ack(seqNo) => seqNo <= |s.log|
    case Gap(expected) => 1 <= expected <= |s.log| + 1
    case Other => true
    case Bye => Finished(s.log)
  }

  // The queue holds exactly the last |queue| frames ever numbered.
  ghost predicate QueueIsTail(s: System) {
    && |s.client.queue| <= s.client.maxQueueSize
    && |s.client.queue| <= |s.sent|
    && s.client.queue == s.sent[|s.sent| - |s.client.queue|..]
  }

  ghost predicate Numbered(s: System) {
    && s.client.nextSeq == |s.sent| + 1
    && (forall i :: 0 <= i < |s.sent| ==> s.sent[i].seqNo == i + 1)
  }

  ghost predicate LogIsPrefix(s: System) {
    |s.log| <= |s.sent| && s.log == s.sent[..|s.log|]
  }

  // The resume frame is the first thing a connection carries, and the client
  // writes nothing before it has read it.
  ghost predicate ResumeFirst(s: System) {
    && (s.client.open ==> s.client.attached)
    && (!s.client.attached ==> s.wire == [])
    && (s.client.attached && !s.client.resumed ==> s.replies != [] && s.replies[0].Resume? && s.wire == [])
    && (forall i :: 1 <= i < |s.replies| ==> !s.replies[i].Resume?)
    && (s.client.attached && s.client.resumed && s.replies != [] ==> !s.replies[0].Resume?)
    && (forall i :: 0 <= i < |s.replies| - 1 ==> s.replies[i] != Bye)
  }

  ghost predicate Inv(s: System) {
    && Numbered(s)
    && QueueIsTail(s)
    && LogIsPrefix(s)
    && AllGenuine(s.sent, s.wire) && AllGenuine(s.sent, s.late)
    && (forall r :: r in s.replies ==> Truthful(s, r))
    && (s.client.terminated ==> s.client.stopped || Finished(s.log))
    && ResumeFirst(s)
  }

  lemma InitInv(maxQueueSize: nat)
    ensures Inv(Init(maxQueueSize))
  {}

  // A trim below `bound` of a tail of `sent` keeps exactly the frames numbered
  // `bound` and up.
  lemma TrimTail(s: System, bound: nat)
    requires Numbered(s) && QueueIsTail(s)
    ensures var q := TrimBelow(s.client.queue, bound);
            && |q| <= |s.client.queue| && q == s.sent[|s.sent| - |q|..]
            && |s.sent| - |q| == (if |s.sent| - |s.client.queue| >= bound - 1 then |s.sent| - |s.client.queue|
                                  else if bound - 1 >= |s.sent| then |s.sent| else bound - 1)
  {
    var queue := s.client.queue;
    var q := TrimBelow(queue, bound);
    TrimRemovesPrefix(queue, bound);
    assert forall i :: 0 <= i < |queue| ==> queue[i].seqNo == |s.sent| - |queue| + i + 1;
    var cut := |queue| - |q|;
    if cut > 0 { assert queue[cut - 1].seqNo < bound; }
    if q != [] { assert q[0] == queue[cut]; }
  }

  // What a truthful reply leaves of the queue: a tail of the events sent that still
  // holds every queued frame the server has not accepted.
  lemma TrimByReply(s: System, r: Reply, room: Option<nat>)
    requires Numbered(s) && QueueIsTail(s) && Truthful(s, r)
    ensures var q := HandleReply(s.client, r, room).0.queue;
      && |q| <= |s.client.queue| && q == s.sent[|s.sent| - |q|..]
      && (|s.client.queue| != |q| ==> |s.sent| - |q| <= |s.log|)
  {
    HandleTrims(s.client, r, room);
    TrimTail(s, BoundOf(r));
  }

  // The number below which a reply trims the queue.
  function BoundOf(r: Reply): nat {
    match r
    case Resume(lastAcked, _) => lastAcked + 1
    case Ack(seqNo) => seqNo + 1
    case Gap(expected) => expected
    case _ => 0
  }

  lemma HandleTrims(c: Client, r: Reply, room: Option<nat>)
    ensures var d := HandleReply(c, r, room).0;
            d.queue == TrimBelow(c.queue, BoundOf(r)) && d.nextSeq == c.nextSeq && d.maxQueueSize == c.maxQueueSize
  {
  }

  lemma SendKeepsInv(s: System, input: EventInput, fault: bool)
    requires Inv(s)
    ensures Inv(Step(s, Send(input, fault)))
  {
    var s' := Step(s, Send(input, fault));
    forall f | f in s.wire || f in s.late ensures Genuine(s'.sent, f) {
      assert Genuine(s.sent, f);
    }
    assert forall r :: r in s.replies ==> Truthful(s, r) && Truthful(s', r);
    SendKeepsQueue(s, input, fault);
  }

  lemma SendKeepsQueue(s: System, input: EventInput, fault: bool)
    requires Numbered(s) && QueueIsTail(s)
    ensures var s' := Step(s, Send(input, fault));
            && Numbered(s') && QueueIsTail(s')
            && (s'.client.queue != [] ==> Genuine(s'.sent, s'.client.queue[|s'.client.queue| - 1]))
            && forall f :: f in SendEvent(s.client, input, fault).1 ==> Genuine(s'.sent, f)
  {
    var f, s' := NewFrame(s.client, input), Step(s, Send(input, fault));
    SendShape(s.client, input, fault);
    TailGrows(s.sent, s.client.queue, s'.client.queue, f);
    assert s'.sent[|s.sent|] == f && Genuine(s'.sent, f);
  }

  // The queue after a send: what was kept, and the new frame; or nothing at a cap of zero.
  lemma SendShape(c: Client, input: EventInput, fault: bool)
    ensures var (d, out) := SendEvent(c, input, fault);
            && d.nextSeq == c.nextSeq + 1 && d.maxQueueSize == c.maxQueueSize
            && (d.queue == [] || Shifted(c.queue, d.queue, NewFrame(c, input)))
            && (|c.queue| <= c.maxQueueSize ==> |d.queue| <= d.maxQueueSize)
            && forall f :: f in out ==> f == NewFrame(c, input)
  {
  }

  predicate Shifted(before: seq<Frame>, after: seq<Frame>, f: Frame) {
    after == before + [f] || (before != [] && after == before[1..] + [f])
  }

  lemma TailGrows(sent: seq<Frame>, before: seq<Frame>, after: seq<Frame>, f: Frame)
    requires |before| <= |sent| && before == sent[|sent| - |before|..]
    requires after == [] || Shifted(before, after, f)
    ensures |after| <= |sent| + 1 && after == (sent + [f])[|sent| + 1 - |after|..]
    ensures after != [] ==> after[|after| - 1] == f
  {
  }

  lemma ServerReadKeepsInv(s: System, reack: bool)
    requires Inv(s) && s.wire != []
    ensures Inv(Step(s, ServerRead(reack)))
  {
    var s' := Step(s, ServerRead(reack));
    var f := s.wire[0];
    assert Genuine(s.sent, f);
    assert forall r :: r in s.replies && Truthful(s, r) ==> Truthful(s', r);
  }

  lemma LateKeepsInv(s: System, i: nat, read: bool)
    requires Inv(s) && i < |s.late|
    ensures Inv(Step(s, if read then LateRead(i) else LateLost(i)))
  {
    var s' := Step(s, if read then LateRead(i) else LateLost(i));
    assert Genuine(s.sent, s.late[i]);
    assert forall r :: r in s.replies && Truthful(s, r) ==> Truthful(s', r);
  }

  lemma ClientReadKeepsQueue(s: System, room: Option<nat>)
    requires Numbered(s) && QueueIsTail(s) && s.replies != [] && Truthful(s, s.replies[0])
    ensures var s' := Step(s, ClientRead(room)); Numbered(s') && QueueIsTail(s')
  {
    HandleTrims(s.client, s.replies[0], room);
    TrimByReply(s, s.replies[0], room);
  }

  lemma ClientReadKeepsFrames(s: System, room: Option<nat>)
    requires Inv(s) && s.replies != []
    ensures var s' := Step(s, ClientRead(room)); AllGenuine(s'.sent, s'.wire) && AllGenuine(s'.sent, s'.late)
  {
    var s' := Step(s, ClientRead(room));
    assert Truthful(s, s.replies[0]);
    TrimByReply(s, s.replies[0], room);
    var out := HandleReply(s.client, s.replies[0], room).1;
    forall f | f in out ensures Genuine(s.sent, f) {
      WritesComeFromQueue(s.client, s.replies[0], room, f);
      assert f in s.sent;
    }
    assert forall f :: f in s'.wire ==> f in s.wire || f in out;
    assert forall f :: f in s'.late ==> f in s.late || f in s.wire;
  }

  lemma WritesComeFromQueue(c: Client, r: Reply, room: Option<nat>, f: Frame)
    requires f in HandleReply(c, r, room).1
    ensures f in HandleReply(c, r, room).0.queue
  {}

  lemma ClientReadKeepsReplies(s: System, room: Option<nat>)
    requires Inv(s) && s.replies != []
    ensures var s' := Step(s, ClientRead(room));
            && (forall r :: r in s'.replies ==> Truthful(s', r))
            && (s'.client.terminated ==> s'.client.stopped || Finished(s'.log))
            && ResumeFirst(s')
  {
    var s' := Step(s, ClientRead(room));
    assert Truthful(s, s.replies[0]);
    assert s'.log == s.log && s'.replies == s.replies[1..];
    forall q | q in s'.replies ensures Truthful(s', q) {
      assert q in s.replies && Truthful(s, q);
    }
  }

  lemma StepKeepsInv(s: System, a: Action)
    requires Inv(s) && Enabled(s, a)
    ensures Inv(Step(s, a))
  {
    match a
    case Send(input, fault) => SendKeepsInv(s, input, fault);
    case ServerRead(reack) => ServerReadKeepsInv(s, reack);
    case LateRead(i) => LateKeepsInv(s, i, true);
    case LateLost(i) => LateKeepsInv(s, i, false);
    case ClientRead(room) =>
      assert Truthful(s, s.replies[0]);
      ClientReadKeepsQueue(s, room);
      ClientReadKeepsFrames(s, room);
      ClientReadKeepsReplies(s, room);
    case Connect =>
    case Drop =>
    case Shut =>
  }

  // ------------------------------------------------ exactly once, in order

  // Every event the server has not accepted is still queued.
  ghost predicate NothingLost(s: System) {
    |s.sent| - |s.client.queue| <= |s.log|
  }

  // The queued frames the server has not accepted.
  function Unaccepted(s: System): seq<Frame> {
    TrimBelow(s.client.queue, |s.log| + 1)
  }

  // A call of sendEvent that gives up a frame the server has not accepted: the
  // oldest queued one at the cap, or the new one when the cap is zero.
  predicate Overflows(s: System, a: Action) {
    && a.Send?
    && |s.client.queue| >= s.client.maxQueueSize
    && (s.client.queue == [] || s.client.queue[0].seqNo > |s.log|)
  }

  // Both trims and every loss of a connection keep all unaccepted events; the one
  // thing that loses an event is an overflowing send.
  lemma NothingLostStep(s: System, a: Action)
    requires Inv(s) && NothingLost(s) && Enabled(s, a)
    ensures NothingLost(Step(s, a)) <==> !Overflows(s, a)
  {
    match a
    case ClientRead(room) =>
      var r := s.replies[0];
      assert Truthful(s, r);
      TrimByReply(s, r, room);
    case _ =>
  }

  ghost predicate NeverOverflows(s: System, actions: seq<Action>)
    requires Schedule(s, actions)
    decreases |actions|
  {
    actions != [] ==> !Overflows(s, actions[0]) && NeverOverflows(Step(s, actions[0]), actions[1..])
  }

  lemma {:induction false} RunKeepsInv(s: System, actions: seq<Action>)
    requires Inv(s) && Schedule(s, actions)
    ensures Inv(Run(s, actions))
    ensures NothingLost(s) && NeverOverflows(s, actions) ==> NothingLost(Run(s, actions))
    decreases |actions|
  {
    if actions != [] {
      StepKeepsInv(s, actions[0]);
      if NothingLost(s) && NeverOverflows(s, actions) { NothingLostStep(s, actions[0]); }
      RunKeepsInv(Step(s, actions[0]), actions[1..]);
    }
  }

  // Whatever the interleaving, the server's log is a prefix of the events sent and
  // the queue is the tail of the events sent, at most as long as the cap. As long
  // as no send overflowed, log and unaccepted queue together are the events sent.
  lemma ExactlyOnceInOrder(maxQueueSize: nat, actions: seq<Action>)
    requires Schedule(Init(maxQueueSize), actions)
    ensures var s := Run(Init(maxQueueSize), actions);
            && s.log <= s.sent
            && |s.client.queue| <= maxQueueSize
            && |s.client.queue| <= |s.sent|
            && s.client.queue == s.sent[|s.sent| - |s.client.queue|..]
            && (forall i :: 0 <= i < |s.sent| ==> s.sent[i].seqNo == i + 1)
            && (NeverOverflows(Init(maxQueueSize), actions) ==> s.log + Unaccepted(s) == s.sent)
  {
    InitInv(maxQueueSize);
    RunKeepsInv(Init(maxQueueSize), actions);
    CapIsFixed(Init(maxQueueSize), actions);
    if NeverOverflows(Init(maxQueueSize), actions) { LogThenQueue(Run(Init(maxQueueSize), actions)); }
  }

  // The events handed to sendEvent in a series of actions.
  function Inputs(actions: seq<Action>): seq<EventInput>
    decreases |actions|
  {
    if actions == [] then []
    else (if actions[0].Send? then [actions[0].input] else []) + Inputs(actions[1..])
  }

  lemma {:induction false} SentCarries(s: System, actions: seq<Action>)
    requires Schedule(s, actions) && s.client.nextSeq == |s.sent| + 1
    ensures var t, inputs := Run(s, actions), Inputs(actions);
            && |t.sent| == |s.sent| + |inputs| && s.sent <= t.sent
            && forall i | 0 <= i < |inputs| :: Carries(t.sent[|s.sent| + i], |s.sent| + i + 1, inputs[i])
    decreases |actions|
  {
    if actions != [] {
      var a, s' := actions[0], Step(s, actions[0]);
      NumberingStep(s, a);
      SentCarries(s', actions[1..]);
      var t, rest, inputs := Run(s, actions), Inputs(actions[1..]), Inputs(actions);
      if a.Send? {
        assert t.sent[|s.sent|] == s'.sent[|s.sent|];
        forall i | 0 <= i < |inputs| ensures Carries(t.sent[|s.sent| + i], |s.sent| + i + 1, inputs[i]) {
          if i > 0 {
            assert inputs[i] == rest[i - 1];
            assert Carries(t.sent[|s'.sent| + (i - 1)], |s'.sent| + (i - 1) + 1, rest[i - 1]);
          }
        }
      } else {
        assert inputs == rest;
      }
    }
  }

  lemma NumberingStep(s: System, a: Action)
    requires Enabled(s, a) && s.client.nextSeq == |s.sent| + 1
    ensures var t := Step(s, a);
            && t.client.nextSeq == |t.sent| + 1
            && |t.sent| == |s.sent| + (if a.Send? then 1 else 0) && s.sent <= t.sent
            && (a.Send? ==> Carries(t.sent[|s.sent|], |s.sent| + 1, a.input))
  {
    if a.ClientRead? { HandleTrims(s.client, s.replies[0], a.room); }
  }

  // The frames carry the events, one by one and in order.
  ghost predicate AllCarry(frames: seq<Frame>, inputs: seq<EventInput>) {
    |frames| == |inputs| && forall i | 0 <= i < |inputs| :: Carries(frames[i], i + 1, inputs[i])
  }

  lemma SentAllCarry(maxQueueSize: nat, actions: seq<Action>)
    requires Schedule(Init(maxQueueSize), actions)
    ensures AllCarry(Run(Init(maxQueueSize), actions).sent, Inputs(actions))
  {
    SentCarries(Init(maxQueueSize), actions);
    var sent, inputs := Run(Init(maxQueueSize), actions).sent, Inputs(actions);
    forall i | 0 <= i < |inputs| ensures Carries(sent[i], i + 1, inputs[i]) {
      assert Carries(sent[0 + i], 0 + i + 1, inputs[i]);
    }
  }

  // In every run the server's log holds, in order and once each, the events handed to
  // sendEvent, each with its own number, time, kind and payload; without an overflow the
  // frames still queued and not accepted are those of all the other events.
  lemma LogCarriesInputs(maxQueueSize: nat, actions: seq<Action>)
    requires Schedule(Init(maxQueueSize), actions)
    ensures var s, inputs := Run(Init(maxQueueSize), actions), Inputs(actions);
            && |s.log| <= |inputs| && AllCarry(s.log, inputs[..|s.log|])
            && (NeverOverflows(Init(maxQueueSize), actions) ==> AllCarry(s.log + Unaccepted(s), inputs))
  {
    SentAllCarry(maxQueueSize, actions);
    ExactlyOnceInOrder(maxQueueSize, actions);
  }

  lemma LogThenQueue(s: System)
    requires Inv(s) && NothingLost(s)
    ensures s.log + Unaccepted(s) == s.sent
  {
    TrimTail(s, |s.log| + 1);
  }

  lemma {:induction false} CapIsFixed(s: System, actions: seq<Action>)
    requires Schedule(s, actions)
    ensures Run(s, actions).client.maxQueueSize == s.client.maxQueueSize
    decreases |actions|
  {
    if actions != [] {
      CapIsFixed(Step(s, actions[0]), actions[1..]);
    }
  }

  // The next frame the server needs has been dropped by the client and is on no
  // channel.
  ghost predicate Poisoned(s: System) {
    && |s.log| < |s.sent| - |s.client.queue|
    && (forall f :: f in s.wire || f in s.late ==> f.seqNo != |s.log| + 1)
  }

  lemma PoisonedStep(s: System, a: Action)
    requires Inv(s) && Poisoned(s) && Enabled(s, a)
    ensures Poisoned(Step(s, a)) && Step(s, a).log == s.log
  {
    match a {
      case Send(input, fault) => PoisonedSend(s, input, fault);
      case ClientRead(room) => PoisonedRead(s, room);
      case _ =>
    }
  }

  lemma PoisonedSend(s: System, input: EventInput, fault: bool)
    requires Numbered(s) && Poisoned(s)
    ensures var s' := Step(s, Send(input, fault)); Poisoned(s') && s'.log == s.log
  {
    var s' := Step(s, Send(input, fault));
    assert forall f :: f in s'.wire ==> f in s.wire || f.seqNo == |s.sent| + 1;
  }

  lemma PoisonedRead(s: System, room: Option<nat>)
    requires Numbered(s) && QueueIsTail(s) && Poisoned(s) && s.replies != [] && Truthful(s, s.replies[0])
    ensures var s' := Step(s, ClientRead(room)); Poisoned(s') && s'.log == s.log
  {
    var s' := Step(s, ClientRead(room));
    var r := s.replies[0];
    TrimByReply(s, r, room);
    forall f | f in s'.wire || f in s'.late ensures f.seqNo != |s.log| + 1 {
      if f !in s.wire && f !in s.late { WritesComeFromQueue(s.client, r, room, f); }
    }
  }

  // A poisoned run is never revived: nothing the client, the network or the caller
  // does moves the server past the dropped frame.
  lemma {:induction false} PoisonedForever(s: System, actions: seq<Action>)
    requires Inv(s) && Poisoned(s) && Schedule(s, actions)
    ensures Poisoned(Run(s, actions)) && Run(s, actions).log == s.log
    decreases |actions|
  {
    if actions != [] {
      PoisonedStep(s, actions[0]);
      StepKeepsInv(s, actions[0]);
      PoisonedForever(Step(s, actions[0]), actions[1..]);
    }
  }

  // ---------------------------------------------------------- termination

  // A terminated client holds no socket it could write to.
  predicate Ceased(c: Client) {
    c.terminated && !c.open
  }

  ghost predicate OnTheWay(s: System, f: Frame) {
    f in s.wire || f in s.late
  }

  lemma CeasedStep(s: System, a: Action)
    requires Enabled(s, a) && (s.client.terminated ==> Ceased(s.client))
    ensures var t := Step(s, a);
            && (t.client.terminated ==> Ceased(t.client))
            && (s.client.terminated ==> t.client.terminated && forall f :: OnTheWay(t, f) ==> OnTheWay(s, f))
  {
  }

  lemma {:induction false} CeasedAlong(s: System, actions: seq<Action>)
    requires Schedule(s, actions) && (s.client.terminated ==> Ceased(s.client))
    ensures var t := Run(s, actions);
            && (t.client.terminated ==> Ceased(t.client))
            && (s.client.terminated ==> t.client.terminated && forall f :: OnTheWay(t, f) ==> OnTheWay(s, f))
    decreases |actions|
  {
    if actions != [] {
      CeasedStep(s, actions[0]);
      CeasedAlong(Step(s, actions[0]), actions[1..]);
    }
  }

  // From any reachable state in which the client is terminated: whatever happens it stays
  // so, opens no connection and writes nothing more.
  lemma TerminatedForGood(maxQueueSize: nat, actions: seq<Action>, more: seq<Action>)
    requires Schedule(Init(maxQueueSize), actions) && Run(Init(maxQueueSize), actions).client.terminated
    requires Schedule(Run(Init(maxQueueSize), actions), more)
    ensures var s, t := Run(Init(maxQueueSize), actions), Run(Run(Init(maxQueueSize), actions), more);
            && t.client.terminated && !Enabled(t, Connect)
            && forall f :: OnTheWay(t, f) ==> OnTheWay(s, f)
  {
    CeasedAlong(Init(maxQueueSize), actions);
    CeasedAlong(Run(Init(maxQueueSize), actions), more);
  }

  // The server accepts nothing after a terminal frame.
  ghost predicate Sealed(log: seq<Frame>) {
    forall i :: 0 <= i < |log| - 1 ==> !IsTerminal(log[i])
  }

  lemma {:induction false} RunKeepsSealed(s: System, actions: seq<Action>)
    requires Schedule(s, actions) && Sealed(s.log)
    ensures Sealed(Run(s, actions).log)
    decreases |actions|
  {
    if actions != [] {
      assert Sealed(Step(s, actions[0]).log);
      RunKeepsSealed(Step(s, actions[0]), actions[1..]);
    }
  }

  // When the client reports termination without having been closed by its caller,
  // every event sent is in the log, exactly when none was sent after a terminal one.
  lemma TerminatedMeansDurable(maxQueueSize: nat, actions: seq<Action>)
    requires Schedule(Init(maxQueueSize), actions)
    ensures var s := Run(Init(maxQueueSize), actions);
            s.client.terminated && !s.client.stopped ==> (s.log == s.sent <==> TerminalIsLast(s.sent))
  {
    InitInv(maxQueueSize);
    RunKeepsInv(Init(maxQueueSize), actions);
    RunKeepsSealed(Init(maxQueueSize), actions);
    var s := Run(Init(maxQueueSize), actions);
    if s.client.terminated && !s.client.stopped && TerminalIsLast(s.sent) {
      assert s.sent[|s.log| - 1] == s.log[|s.log| - 1];
    }
  }

  ghost predicate TerminalIsLast(sent: seq<Frame>) {
    forall i :: 0 <= i < |sent| - 1 ==> !IsTerminal(sent[i])
  }

  // Closed by its caller, a client that never overflowed has delivered everything
  // exactly when no queued frame is still unaccepted; an empty queue is enough.
  lemma ClosedMeansDurable(maxQueueSize: nat, actions: seq<Action>)
    requires Schedule(Init(maxQueueSize), actions) && NeverOverflows(Init(maxQueueSize), actions)
    ensures var s := Run(Init(maxQueueSize), actions);
            && (s.log == s.sent <==> Unaccepted(s) == [])
            && (s.client.queue == [] ==> s.log == s.sent)
  {
    InitInv(maxQueueSize);
    RunKeepsInv(Init(maxQueueSize), actions);
    var s := Run(Init(maxQueueSize), actions);
    LogThenQueue(s);
    if Unaccepted(s) == [] { assert s.log + [] == s.log; }
  }

  lemma RunFrom(s: System, a: Action, rest: seq<Action>)
    requires Enabled(s, a) && Schedule(Step(s, a), rest)
    ensures Schedule(s, [a] + rest) && Run(s, [a] + rest) == Run(Step(s, a), rest)
  {
    assert ([a] + rest)[1..] == rest;
  }

  // After a close by the caller the same report says nothing: the waiters are
  // released although the only event sent is nowhere but in the queue.
  lemma CloseReportsTerminationEarly(input: EventInput)
    ensures var actions := [Send(input, false)] + [Shut];
            && Schedule(Init(1), actions)
            && var s := Run(Init(1), actions);
               s.client.terminated && s.log == [] && |s.sent| == 1
  {
    var s1 := Step(Init(1), Send(input, false));
    RunFrom(s1, Shut, []);
    assert [Shut] + [] == [Shut];
    RunFrom(Init(1), Send(input, false), [Shut]);
  }

  // Without a close: a terminal event and another one after it. The server ends the
  // run at the first, the client reports it, and the second is never delivered.
  lemma EventAfterTerminalIsLost(last: EventInput, more: EventInput)
    requires last.kind == "completion"
    ensures var read := ClientRead(None);
            var actions :=
              [Connect] + ([read] + ([Send(last, false)] + ([Send(more, false)] + [ServerRead(true), read, read])));
            && Schedule(Init(2), actions)
            && var s := Run(Init(2), actions);
               s.client.terminated && !s.client.stopped && |s.log| == 1 && |s.sent| == 2
  {
    var read := ClientRead(None);
    var s1 := Step(Init(2), Connect);
    var s2 := Step(s1, read);
    var s3 := Step(s2, Send(last, false));
    var s4 := Step(s3, Send(more, false));
    ServerEndsRun(s4);
    RunFrom(s3, Send(more, false), [ServerRead(true), read, read]);
    RunFrom(s2, Send(last, false), [Send(more, false)] + [ServerRead(true), read, read]);
    RunFrom(s1, read, [Send(last, false)] + ([Send(more, false)] + [ServerRead(true), read, read]));
    RunFrom(Init(2), Connect, [read] + ([Send(last, false)] + ([Send(more, false)] + [ServerRead(true), read, read])));
  }

  // The server reads a terminal frame, the client its acknowledgement and the close.
  lemma ServerEndsRun(s: System)
    requires s.wire != [] && IsTerminal(s.wire[0]) && Accepts(s, s.wire[0]) && s.replies == [] && s.client.attached
    ensures var actions := [ServerRead(true), ClientRead(None), ClientRead(None)];
            && Schedule(s, actions)
            && var t := Run(s, actions);
               t.client.terminated && t.client.stopped == s.client.stopped
               && t.log == s.log + [s.wire[0]] && t.sent == s.sent
  {
    var read := ClientRead(None);
    var t1 := Step(s, ServerRead(true));
    assert t1.replies == [Ack(s.wire[0].seqNo), Bye];
    var t2 := Step(t1, read);
    assert t2.replies == [Bye];
    RunFrom(t2, read, []);
    RunFrom(t1, read, [read]);
    RunFrom(s, ServerRead(true), [read, read]);
    assert [read] + [] == [read] && [read] + [read] == [read, read];
    assert [ServerRead(true)] + [read, read] == [ServerRead(true), read, read];
  }
}
