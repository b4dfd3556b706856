/** What happens once the caller is quiet and the connection holds: however the
    channels are scheduled, replays triggered by sequence gaps die out and every
    event ends up in the server's log, unless the frame the server needs was given
    up at the cap, in which case the replays never die out. */
module RunStreamConvergence {
  import opened Descent
  import opened Wrappers
  import opened RunStreamClient
  import opened RunStreamProtocol

  // A delivery: the server or the client reads one message, or a stray frame of a
  // dead connection is read or lost. No send, no fault, no disconnect.
  predicate Delivery(s: System, a: Action) {
    Enabled(s, a) && (a.ServerRead? || a.LateRead? || a.LateLost? || a == ClientRead(None))
  }

  predicate Quiet(s: System) {
    s.wire == [] && s.replies == [] && s.late == []
  }

  // Reading this reply empties the queue.
  predicate Settles(s: System, r: Reply) {
    match r
    case Resume(lastAcked, _) => lastAcked >= |s.sent|
    case Ack(seqNo) => seqNo >= |s.sent|
    case Gap(expected) => expected > |s.sent|
    case _ => false
  }

  // Reading this reply writes the rest of the queue again.
  predicate Replays(r: Reply) {
    r.Resume? || r.Gap?
  }

  // The last event is already settled, about to be settled, or under way.
  ghost predicate Covered(s: System) {
    || s.client.queue == []
    || (exists r :: r in s.replies && Settles(s, r))
    || (&& s.client.attached && s.client.open && Bye !in s.replies
        && ((exists f :: f in s.wire && f.seqNo == |s.sent|) || (exists r :: r in s.replies && Replays(r))))
  }

  ghost predicate Converging(s: System) {
    Inv(s) && NothingLost(s) && TerminalIsLast(s.sent) && Covered(s)
  }

  // --------------------------------------------------- the measure

  // Position of the frame numbered n, or the length when there is none.
  function NextAt(wire: seq<Frame>, n: nat): (p: nat)
    ensures p <= |wire|
    ensures p < |wire| ==> wire[p].seqNo == n
    ensures forall i :: 0 <= i < p ==> wire[i].seqNo != n
  {
    if wire == [] || wire[0].seqNo == n then 0 else 1 + NextAt(wire[1..], n)
  }

  function Stale(replies: seq<Reply>, n: nat): nat {
    if replies == [] then 0
    else
      var r := replies[|replies| - 1];
      Stale(replies[..|replies| - 1], n)
      + if (r.Gap? && r.expected <= n) || (r.Resume? && r.lastAcked < n) then 1 else 0
  }

  lemma {:induction false} StaleTail(replies: seq<Reply>, n: nat)
    requires replies != []
    ensures Stale(replies, n) == Stale(replies[1..], n) + Stale(replies[..1], n)
  {
    if |replies| > 1 {
      var front := replies[..|replies| - 1];
      StaleTail(front, n);
      assert front[1..] == replies[1..][..|replies| - 2];
      assert front[..1] == replies[..1];
    } else {
      assert replies[1..] == [] && replies[..1] == replies;
    }
  }

  lemma {:induction false} StaleAppend(replies: seq<Reply>, more: seq<Reply>, n: nat)
    ensures Stale(replies + more, n) == Stale(replies, n) + Stale(more, n)
  {
    if more == [] {
      assert replies + more == replies;
    } else {
      StaleAppend(replies, more[..|more| - 1], n);
      assert (replies + more)[..|replies + more| - 1] == replies + more[..|more| - 1];
    }
  }

  // Unaccepted frames first; then, while some are left, whether the next needed
  // frame is on the wire and how far from its head, and afterwards the replies that
  // can still cause a replay and the frames on the wire.
  function RankOf(s: System): Rank {
    if |s.log| < |s.sent| then
      var p := NextAt(s.wire, |s.log| + 1);
      Rank(|s.sent| - |s.log|, if p < |s.wire| then 0 else 1, p, |s.replies|, |s.late|)
    else
      Rank(0, Stale(s.replies, |s.sent|), |s.wire|, |s.replies|, |s.late|)
  }

  // ------------------------------------- every delivery lowers the measure

  lemma UnfinishedWhileWaiting(s: System)
    requires LogIsPrefix(s) && TerminalIsLast(s.sent) && |s.log| < |s.sent|
    ensures !Finished(s.log)
  {
    if s.log != [] { assert s.log[|s.log| - 1] == s.sent[|s.log| - 1]; }
  }

  // Taking a frame off the wire lowers the rank, whether it is accepted or only
  // answered.
  lemma TakingLowers(s: System, s': System, more: seq<Reply>)
    requires s.wire != [] && s'.wire == s.wire[1..]
    requires s'.sent == s.sent && s'.late == s.late && s'.replies == s.replies + more
    requires || (|s.log| < |s'.log| <= |s.sent|)
             || (s'.log == s.log && if |s.log| < |s.sent| then s.wire[0].seqNo != |s.log| + 1
                                    else Stale(more, |s.sent|) == 0)
    ensures Below(RankOf(s'), RankOf(s))
  {
    StaleAppend(s.replies, more, |s.sent|);
  }

  lemma NoStaleAnswer(s: System, f: Frame, reack: bool)
    requires |s.log| == |s.sent|
    ensures Stale(ServerReplies(s, f, reack), |s.sent|) == 0
  {
    NoneStale(ServerReplies(s, f, reack), |s.sent|);
  }

  lemma {:induction false} NoneStale(replies: seq<Reply>, n: nat)
    requires forall r :: r in replies ==> !r.Resume? && (r.Gap? ==> r.expected > n)
    ensures Stale(replies, n) == 0
  {
    if replies != [] { NoneStale(replies[..|replies| - 1], n); }
  }

  lemma ServerReadLowers(s: System, reack: bool)
    requires Numbered(s) && LogIsPrefix(s) && TerminalIsLast(s.sent) && s.wire != [] && Genuine(s.sent, s.wire[0])
    requires Bye in s.replies ==> Finished(s.log)
    ensures Below(RankOf(Step(s, ServerRead(reack))), RankOf(s))
  {
    var s' := Step(s, ServerRead(reack));
    if |s.log| < |s.sent| { UnfinishedWhileWaiting(s); } else { NoStaleAnswer(s, s.wire[0], reack); }
    if Bye in s.replies {
      assert s'.replies == s.replies + [];
      TakingLowers(s, s', []);
    } else {
      TakingLowers(s, s', ServerReplies(s, s.wire[0], reack));
    }
  }

  lemma LateLowers(s: System, i: nat, read: bool)
    requires LogIsPrefix(s) && i < |s.late| && Genuine(s.sent, s.late[i])
    ensures Below(RankOf(Step(s, if read then LateRead(i) else LateLost(i))), RankOf(s))
  {}

  lemma {:induction false} NextAtAppend(wire: seq<Frame>, more: seq<Frame>, n: nat)
    ensures NextAt(wire + more, n) ==
            if NextAt(wire, n) < |wire| then NextAt(wire, n) else |wire| + NextAt(more, n)
  {
    if wire == [] {
      assert wire + more == more;
    } else {
      assert (wire + more)[1..] == wire[1..] + more;
      NextAtAppend(wire[1..], more, n);
    }
  }

  // A replay with unaccepted frames left puts the next needed one on the wire.
  lemma ReplayCarriesNext(s: System, r: Reply)
    requires Numbered(s) && QueueIsTail(s) && LogIsPrefix(s) && NothingLost(s)
    requires Truthful(s, r) && |s.log| < |s.sent|
    ensures var out := HandleReply(s.client, r, None).1;
            out == [] || NextAt(out, |s.log| + 1) < |out|
  {
    var (c, out) := HandleReply(s.client, r, None);
    TrimByReply(s, r, None);
    if out != [] {
      assert out == c.queue;
      NextInTail(s.sent, c.queue, |s.log|);
    }
  }

  lemma NextInTail(sent: seq<Frame>, tail: seq<Frame>, k: nat)
    requires forall i :: 0 <= i < |sent| ==> sent[i].seqNo == i + 1
    requires |tail| <= |sent| && tail == sent[|sent| - |tail|..]
    requires |sent| - |tail| <= k < |sent|
    ensures NextAt(tail, k + 1) < |tail|
  {
    assert tail[k - (|sent| - |tail|)].seqNo == k + 1;
  }

  // With every frame accepted, a reply that cannot settle the queue is stale.
  lemma OnlyStaleReplays(s: System)
    requires Numbered(s) && QueueIsTail(s) && s.replies != [] && |s.log| == |s.sent|
    ensures HandleReply(s.client, s.replies[0], None).1 != [] ==> Stale(s.replies[..1], |s.sent|) == 1
  {
    var r := s.replies[0];
    if r.Gap? { TrimTail(s, r.expected); }
    if r.Resume? { TrimTail(s, r.lastAcked + 1); }
    assert s.replies[..1][..0] == [];
  }

  lemma ClientReadShape(s: System)
    requires s.replies != [] && s.replies[0] != Bye
    ensures var s' := Step(s, ClientRead(None));
            && s'.log == s.log && s'.sent == s.sent && s'.late == s.late && s'.replies == s.replies[1..]
            && s'.wire == s.wire + HandleReply(s.client, s.replies[0], None).1
  {}

  // The rank falls when a reply leaves its channel and what it makes the client
  // write holds the next needed frame, or can be blamed on a stale reply.
  lemma ReadingLowers(s: System, s': System, out: seq<Frame>)
    requires s.replies != [] && s'.replies == s.replies[1..] && s'.wire == s.wire + out
    requires s'.log == s.log && s'.sent == s.sent && s'.late == s.late
    requires out == [] || if |s.log| < |s.sent| then NextAt(out, |s.log| + 1) < |out|
                          else Stale(s.replies[..1], |s.sent|) > 0
    ensures Below(RankOf(s'), RankOf(s))
  {
    NextAtAppend(s.wire, out, |s.log| + 1);
    StaleTail(s.replies, |s.sent|);
    if out == [] { assert s.wire + out == s.wire; }
  }

  lemma ByeLowers(s: System)
    requires s.replies != [] && s.replies[0] == Bye && |s.log| == |s.sent|
    ensures Below(RankOf(Step(s, ClientRead(None))), RankOf(s))
  {
    StaleTail(s.replies, |s.sent|);
  }

  lemma ClientReadLowers(s: System)
    requires Numbered(s) && QueueIsTail(s) && LogIsPrefix(s) && NothingLost(s) && TerminalIsLast(s.sent)
    requires s.replies != [] && Truthful(s, s.replies[0])
    ensures Below(RankOf(Step(s, ClientRead(None))), RankOf(s))
  {
    if |s.log| < |s.sent| { UnfinishedWhileWaiting(s); }
    if s.replies[0] == Bye {
      ByeLowers(s);
    } else {
      ClientReadShape(s);
      if |s.log| < |s.sent| { ReplayCarriesNext(s, s.replies[0]); } else { OnlyStaleReplays(s); }
      ReadingLowers(s, Step(s, ClientRead(None)), HandleReply(s.client, s.replies[0], None).1);
    }
  }

  // What the invariant says of the messages that can be read next.
  ghost predicate HeadsSound(s: System) {
    && Numbered(s) && QueueIsTail(s) && LogIsPrefix(s)
    && (s.wire != [] ==> Genuine(s.sent, s.wire[0]))
    && (forall i :: 0 <= i < |s.late| ==> Genuine(s.sent, s.late[i]))
    && (s.replies != [] ==> Truthful(s, s.replies[0]))
    && (Bye in s.replies ==> Finished(s.log))
  }

  lemma InvHeads(s: System)
    requires Inv(s)
    ensures HeadsSound(s)
  {
    assert Bye in s.replies ==> Truthful(s, Bye);
  }

  lemma SoundDeliveryLowers(s: System, a: Action)
    requires HeadsSound(s) && NothingLost(s) && TerminalIsLast(s.sent) && Delivery(s, a)
    ensures Below(RankOf(Step(s, a)), RankOf(s))
  {
    match a {
      case ServerRead(reack) => ServerReadLowers(s, reack);
      case LateRead(i) => LateLowers(s, i, true);
      case LateLost(i) => LateLowers(s, i, false);
      case ClientRead(_) => ClientReadLowers(s);
      case _ =>
    }
  }

  lemma DeliveryLowers(s: System, a: Action)
    requires Converging(s) && Delivery(s, a)
    ensures Below(RankOf(Step(s, a)), RankOf(s))
  {
    InvHeads(s);
    SoundDeliveryLowers(s, a);
  }

  // ------------------------------------------ every delivery keeps the cover

  lemma ServerReadCovers(s: System, reack: bool)
    requires Converging(s) && s.wire != []
    ensures Covered(Step(s, ServerRead(reack)))
  {
    var s' := Step(s, ServerRead(reack));
    var f := s.wire[0];
    assert Genuine(s.sent, f);
    assert s.wire == [f] + s.wire[1..];
    if r :| r in s.replies && Settles(s, r) {
      assert r in s'.replies && Settles(s', r);
    } else if s.client.queue != [] {
      var more := ServerReplies(s, f, reack);
      assert more[0] in s'.replies;
      assert Accepts(s, f) && IsTerminal(f) ==> f.seqNo == |s.sent|;
      if f.seqNo == |s.sent| {
        assert Settles(s', more[0]) || Replays(more[0]);
      } else if r :| r in s.replies && Replays(r) {
        assert r in s'.replies;
      } else {
        var g :| g in s.wire && g.seqNo == |s.sent|;
        assert g in s'.wire;
      }
    }
  }

  lemma LateCovers(s: System, i: nat, read: bool)
    requires Converging(s) && i < |s.late|
    ensures Covered(Step(s, if read then LateRead(i) else LateLost(i)))
  {
    var s' := Step(s, if read then LateRead(i) else LateLost(i));
    if r :| r in s.replies && Settles(s, r) { assert Settles(s', r); }
  }

  // A settling reply empties the queue.
  lemma SettlingEmpties(s: System, r: Reply)
    requires Numbered(s) && QueueIsTail(s) && Settles(s, r)
    ensures HandleReply(s.client, r, None).0.queue == []
  {
    match r {
      case Resume(lastAcked, _) => TrimTail(s, lastAcked + 1);
      case Ack(seqNo) => TrimTail(s, seqNo + 1);
      case Gap(expected) => TrimTail(s, expected);
      case _ =>
    }
  }

  lemma ClientReadCovers(s: System)
    requires Converging(s) && s.replies != []
    ensures Covered(Step(s, ClientRead(None)))
  {
    var s' := Step(s, ClientRead(None));
    var head := s.replies[0];
    assert Truthful(s, head);
    TrimByReply(s, head, None);
    assert s.replies == [head] + s.replies[1..];
    if s.client.queue == [] {
      assert s'.client.queue == [];
    } else if Settles(s, head) {
      SettlingEmpties(s, head);
    } else if r :| r in s.replies && Settles(s, r) {
      assert r in s'.replies && Settles(s', r);
    } else {
      RepliesRunOn(s);
    }
  }

  // The remaining case: no settling reply, so the connection is up and the last
  // frame is on the wire or will be once the replaying reply is read.
  lemma RepliesRunOn(s: System)
    requires Inv(s) && s.replies != [] && s.replies[0] != Bye && s.client.queue != []
    requires s.client.attached && s.client.open && Bye !in s.replies
    requires (exists f :: f in s.wire && f.seqNo == |s.sent|) || (exists r :: r in s.replies && Replays(r))
    requires TerminalIsLast(s.sent) && !Settles(s, s.replies[0])
    ensures Covered(Step(s, ClientRead(None)))
  {
    var s' := Step(s, ClientRead(None));
    var head := s.replies[0];
    ClientReadShape(s);
    if Replays(head) {
      ReplayWritesQueue(s);
      ReplayCovers(s);
    } else if f :| f in s.wire && f.seqNo == |s.sent| {
      assert f in s'.wire;
    } else {
      var r :| r in s.replies && Replays(r);
      assert s.replies == [head] + s'.replies;
      assert r in s'.replies;
    }
  }

  // A replaying reply that does not settle makes the client write all it has left,
  // and the last of that is the last frame sent.
  lemma ReplayWritesQueue(s: System)
    requires Inv(s) && s.replies != [] && TerminalIsLast(s.sent)
    requires s.client.attached && s.client.open && Replays(s.replies[0]) && !Settles(s, s.replies[0])
    ensures var (c, out) := HandleReply(s.client, s.replies[0], None);
            out == c.queue && c.attached && c.open && (out != [] ==> out[|out| - 1].seqNo == |s.sent|)
  {
    assert Truthful(s, s.replies[0]);
    TrimByReply(s, s.replies[0], None);
  }

  lemma ReplayCovers(s: System)
    requires s.replies != [] && Bye !in s.replies
    requires var (c, out) := HandleReply(s.client, s.replies[0], None);
             out == c.queue && c.attached && c.open && (out != [] ==> out[|out| - 1].seqNo == |s.sent|)
    ensures Covered(Step(s, ClientRead(None)))
  {
    var s' := Step(s, ClientRead(None));
    ClientReadShape(s);
    var q := s'.client.queue;
    if q != [] { assert q[|q| - 1] in s'.wire; }
  }

  lemma DeliveryConverges(s: System, a: Action)
    requires Converging(s) && Delivery(s, a)
    ensures Converging(Step(s, a)) && Step(s, a).sent == s.sent
  {
    StepKeepsInv(s, a);
    NothingLostStep(s, a);
    match a {
      case ServerRead(reack) => ServerReadCovers(s, reack);
      case LateRead(i) => LateCovers(s, i, true);
      case LateLost(i) => LateCovers(s, i, false);
      case ClientRead(_) => ClientReadCovers(s);
      case _ =>
    }
  }

  // ------------------------------------------------------ main theorems

  // A scheduler picks the next delivery from the position in the run and the state.
  type Scheduler = (nat, System) -> Action

  // It stops only when there is nothing left to deliver.
  ghost predicate KeepsDelivering(pick: Scheduler) {
    forall n: nat, s: System :: !Quiet(s) ==> Delivery(s, pick(n, s))
  }

  function Deliver(s: System, a: Action): System {
    if Delivery(s, a) then Step(s, a) else s
  }

  ghost function After(s: System, pick: Scheduler, steps: nat): System {
    Iterate(s, (n: nat, t: System) => Deliver(t, pick(n, t)), Quiet, 0, steps)
  }

  lemma Progress(s: System, a: Action) returns (s': System)
    requires Converging(s) && Delivery(s, a)
    ensures s' == Step(s, a) && s'.sent == s.sent
    ensures Converging(s') && Below(RankOf(s'), RankOf(s))
  {
    s' := Step(s, a);
    DeliveryLowers(s, a);
    DeliveryConverges(s, a);
  }

  lemma AtRest(s: System)
    requires Converging(s) && Quiet(s)
    ensures s.client.queue == [] && s.log == s.sent
  {}

  // Every schedule of deliveries comes to rest, with the queue empty and the
  // server holding every event sent.
  lemma Convergence(s: System, pick: Scheduler) returns (steps: nat)
    requires Converging(s) && KeepsDelivering(pick)
    ensures var e := After(s, pick, steps);
            Quiet(e) && e.client.queue == [] && e.log == e.sent == s.sent
  {
    var good := iset t: System | Converging(t) && t.sent == s.sent;
    var next := (n: nat, t: System) => Deliver(t, pick(n, t));
    forall n: nat, t | t in good && !Quiet(t)
      ensures next(n, t) in good && Below(RankOf(next(n, t)), RankOf(t))
    {
      var _ := Progress(t, pick(n, t));
    }
    steps := ComesToRest(s, RankOf(s), RankOf, good, next, Quiet, 0);
    AtRest(After(s, pick, steps));
  }

  // A connection that has just been made is covered by its resume frame, whatever
  // was in flight before.
  lemma ConnectConverges(s: System)
    requires Inv(s) && NothingLost(s) && TerminalIsLast(s.sent) && Enabled(s, Connect)
    ensures Converging(Step(s, Connect))
  {
    StepKeepsInv(s, Connect);
    var s' := Step(s, Connect);
    assert Replays(s'.replies[0]);
    if Finished(s.log) {
      assert s.log[|s.log| - 1] == s.sent[|s.log| - 1];
      assert Settles(s', s'.replies[0]);
    }
  }

  // So is a connection over which a further event is sent, if the write succeeds
  // and nothing unaccepted is given up.
  lemma SendConverges(s: System, input: EventInput)
    requires Inv(s) && NothingLost(s) && !Overflows(s, Send(input, false))
    requires s.client.attached && s.client.open && Bye !in s.replies
    requires forall f :: f in s.sent ==> !IsTerminal(f)
    ensures Converging(Step(s, Send(input, false)))
  {
    var s' := Step(s, Send(input, false));
    StepKeepsInv(s, Send(input, false));
    NothingLostStep(s, Send(input, false));
    if s.client.resumed {
      var f := NewFrame(s.client, input);
      assert |s.client.queue| < s.client.maxQueueSize || s.client.queue != [];
      assert f in s'.wire && f.seqNo == |s'.sent|;
    } else {
      assert s'.replies[0] in s'.replies && Replays(s'.replies[0]);
    }
    assert forall i :: 0 <= i < |s'.sent| - 1 ==> s'.sent[i] in s.sent;
  }

  // From any reachable state in which no send has overflowed: reconnect, stay
  // connected and quiet, and every schedule delivers everything.
  lemma ReconnectDeliversAll(maxQueueSize: nat, actions: seq<Action>, pick: Scheduler) returns (steps: nat)
    requires Schedule(Init(maxQueueSize), actions) && NeverOverflows(Init(maxQueueSize), actions)
    requires Enabled(Run(Init(maxQueueSize), actions), Connect)
    requires TerminalIsLast(Run(Init(maxQueueSize), actions).sent) && KeepsDelivering(pick)
    ensures var s := Run(Init(maxQueueSize), actions);
            var e := After(Step(s, Connect), pick, steps);
            Quiet(e) && e.client.queue == [] && e.log == s.sent && AllCarry(e.log, Inputs(actions))
  {
    InitInv(maxQueueSize);
    RunKeepsInv(Init(maxQueueSize), actions);
    SentAllCarry(maxQueueSize, actions);
    var s := Run(Init(maxQueueSize), actions);
    ConnectConverges(s);
    steps := Convergence(Step(s, Connect), pick);
  }

  // ------------------------------------------------- after an overflow

  // Poisoned with a connection up and something under way that will be answered by
  // a gap or answered by a replay.
  ghost predicate Churning(s: System) {
    && Inv(s) && Poisoned(s) && !Finished(s.log)
    && s.client.queue != [] && s.client.attached && s.client.open && Bye !in s.replies
    && ((exists f :: f in s.wire && f.seqNo > |s.log|) || (exists r :: r in s.replies && Replays(r)))
  }

  lemma ChurningReads(s: System)
    requires Churning(s) && s.replies != []
    ensures Churning(Step(s, ClientRead(None)))
  {
    StepKeepsInv(s, ClientRead(None));
    PoisonedStep(s, ClientRead(None));
    assert Truthful(s, s.replies[0]);
    ClientReadShape(s);
    ReadingChurns(s, Step(s, ClientRead(None)));
  }

  lemma ReadingChurns(s: System, s': System)
    requires Numbered(s) && QueueIsTail(s) && Poisoned(s) && s.client.queue != [] && s.replies != []
    requires s.client.attached && s.client.open && Bye !in s.replies && !Finished(s.log)
    requires Truthful(s, s.replies[0]) && ResumeFirst(s)
    requires (exists f :: f in s.wire && f.seqNo > |s.log|) || (exists r :: r in s.replies && Replays(r))
    requires s'.client == HandleReply(s.client, s.replies[0], None).0 && s'.log == s.log
    requires s'.wire == s.wire + HandleReply(s.client, s.replies[0], None).1 && s'.replies == s.replies[1..]
    ensures s'.client.queue != [] && s'.client.attached && s'.client.open && Bye !in s'.replies
    ensures (exists f :: f in s'.wire && f.seqNo > |s.log|) || (exists r :: r in s'.replies && Replays(r))
  {
    var head := s.replies[0];
    TrimByReply(s, head, None);
    assert s.replies == [head] + s'.replies;
    if Replays(head) {
      var q := s'.client.queue;
      assert q[|q| - 1] in s'.wire && q[|q| - 1] == s.sent[|s.sent| - 1];
    } else if f :| f in s.wire && f.seqNo > |s.log| {
      assert f in s'.wire;
    } else {
      var r :| r in s.replies && Replays(r);
      assert r in s'.replies;
    }
  }

  lemma ChurningServer(s: System, reack: bool)
    requires Churning(s) && s.wire != []
    ensures Churning(Step(s, ServerRead(reack)))
  {
    var s' := Step(s, ServerRead(reack));
    StepKeepsInv(s, ServerRead(reack));
    PoisonedStep(s, ServerRead(reack));
    var f := s.wire[0];
    assert s.wire == [f] + s'.wire;
    if r :| r in s.replies && Replays(r) {
      assert r in s'.replies;
    } else if f.seqNo > |s.log| {
      var r := Gap(|s.log| + 1);
      assert s'.replies[|s'.replies| - 1] == r && Replays(r);
    } else {
      var g :| g in s.wire && g.seqNo > |s.log|;
      assert g in s'.wire;
    }
  }

  lemma ChurningLate(s: System, i: nat, read: bool)
    requires Churning(s) && i < |s.late|
    ensures Churning(Step(s, if read then LateRead(i) else LateLost(i)))
  {
    var a := if read then LateRead(i) else LateLost(i);
    StepKeepsInv(s, a);
    PoisonedStep(s, a);
  }

  lemma ChurningStep(s: System, a: Action)
    requires Churning(s) && Delivery(s, a)
    ensures Churning(Step(s, a)) && Step(s, a).log == s.log
  {
    PoisonedStep(s, a);
    match a {
      case ServerRead(reack) => ChurningServer(s, reack);
      case LateRead(i) => ChurningLate(s, i, true);
      case LateLost(i) => ChurningLate(s, i, false);
      case ClientRead(_) => ChurningReads(s);
      case _ =>
    }
  }

  // The converse of convergence: once the needed frame is gone, gap replies and
  // replays feed each other and no schedule of deliveries ever comes to rest.
  lemma ChurningNeverRests(s: System, pick: Scheduler, steps: nat)
    requires Churning(s) && KeepsDelivering(pick)
    ensures !Quiet(After(s, pick, steps)) && After(s, pick, steps).log == s.log
  {
    var good := iset t: System | Churning(t) && t.log == s.log;
    var next := (n: nat, t: System) => Deliver(t, pick(n, t));
    forall n: nat, t | t in good && !Quiet(t)
      ensures next(n, t) in good
    {
      ChurningStep(t, pick(n, t));
    }
    StaysIn(s, good, next, Quiet, 0, steps);
  }

  // With room for a frame the last one sent stays queued until it is accepted.
  ghost predicate LastIsQueued(s: System) {
    s.client.maxQueueSize >= 1 && |s.log| < |s.sent| ==> s.client.queue != []
  }

  lemma LastStaysQueued(s: System, a: Action)
    requires Inv(s) && LastIsQueued(s) && Enabled(s, a)
    ensures LastIsQueued(Step(s, a))
  {
    if a.ClientRead? {
      assert Truthful(s, s.replies[0]);
      TrimByReply(s, s.replies[0], a.room);
    }
  }

  lemma {:induction false} RunKeepsLast(s: System, actions: seq<Action>)
    requires Inv(s) && LastIsQueued(s) && Schedule(s, actions)
    ensures Inv(Run(s, actions)) && LastIsQueued(Run(s, actions))
    decreases |actions|
  {
    if actions != [] {
      StepKeepsInv(s, actions[0]);
      LastStaysQueued(s, actions[0]);
      RunKeepsLast(Step(s, actions[0]), actions[1..]);
    }
  }

  // Reconnecting from a poisoned state starts the churning.
  lemma ConnectChurns(s: System)
    requires Inv(s) && Poisoned(s) && !Finished(s.log) && s.client.queue != [] && Enabled(s, Connect)
    ensures Churning(Step(s, Connect))
  {
    StepKeepsInv(s, Connect);
    PoisonedStep(s, Connect);
    var s' := Step(s, Connect);
    assert Replays(s'.replies[0]);
  }

  // A connection to a server that has ended the run: nothing is written any more.
  ghost predicate Ended(s: System) {
    s.wire == [] && Finished(s.log) && forall r | r in s.replies :: r == Bye || (r.Resume? && r.terminated)
  }

  function MessagesLeft(s: System): Rank {
    Rank(0, 0, 0, |s.replies|, |s.late|)
  }

  lemma EndedStep(s: System, a: Action)
    requires Ended(s) && Delivery(s, a)
    ensures Ended(Step(s, a)) && Step(s, a).log == s.log && Below(MessagesLeft(Step(s, a)), MessagesLeft(s))
  {
    if a.ClientRead? { assert s.replies[0] in s.replies; }
  }

  lemma EndedRests(s: System, pick: Scheduler) returns (steps: nat)
    requires Ended(s) && KeepsDelivering(pick)
    ensures Quiet(After(s, pick, steps)) && After(s, pick, steps).log == s.log
  {
    var good := iset t: System | Ended(t) && t.log == s.log;
    var next := (n: nat, t: System) => Deliver(t, pick(n, t));
    forall n: nat, t | t in good && !Quiet(t)
      ensures next(n, t) in good && Below(MessagesLeft(next(n, t)), MessagesLeft(t))
    {
      EndedStep(t, pick(n, t));
    }
    steps := ComesToRest(s, MessagesLeft(s), MessagesLeft, good, next, Quiet, 0);
  }

  lemma NeverRests(maxQueueSize: nat, actions: seq<Action>, pick: Scheduler, steps: nat)
    requires maxQueueSize >= 1 && Schedule(Init(maxQueueSize), actions) && KeepsDelivering(pick)
    requires var s := Run(Init(maxQueueSize), actions); Poisoned(s) && !Finished(s.log) && Enabled(s, Connect)
    ensures var s := Run(Init(maxQueueSize), actions);
            var e := After(Step(s, Connect), pick, steps);
            !Quiet(e) && e.log == s.log
  {
    InitInv(maxQueueSize);
    RunKeepsLast(Init(maxQueueSize), actions);
    CapIsFixed(Init(maxQueueSize), actions);
    var s := Run(Init(maxQueueSize), actions);
    ConnectChurns(s);
    ChurningNeverRests(Step(s, Connect), pick, steps);
  }

  // From any reachable state in which the needed frame is gone: reconnect and stay
  // connected and quiet. A schedule comes to rest exactly when the server had ended the
  // run already; otherwise gaps and replays go on for ever and deliver nothing.
  lemma PoisonedNeverRests(maxQueueSize: nat, actions: seq<Action>, pick: Scheduler)
    requires maxQueueSize >= 1 && Schedule(Init(maxQueueSize), actions) && KeepsDelivering(pick)
    requires var s := Run(Init(maxQueueSize), actions); Poisoned(s) && Enabled(s, Connect)
    ensures var s := Run(Init(maxQueueSize), actions);
            var c := Step(s, Connect);
            && ((exists steps :: Quiet(After(c, pick, steps))) <==> Finished(s.log))
            && (!Finished(s.log) ==> forall steps :: After(c, pick, steps).log == s.log)
  {
    var s := Run(Init(maxQueueSize), actions);
    if Finished(s.log) {
      var steps := EndedRests(Step(s, Connect), pick);
    } else {
      forall steps: nat
        ensures !Quiet(After(Step(s, Connect), pick, steps)) && After(Step(s, Connect), pick, steps).log == s.log
      {
        NeverRests(maxQueueSize, actions, pick, steps);
      }
    }
  }

  // Such a run: two events with room for one, then a connection.
  lemma OverflowChurns(a: EventInput, b: EventInput)
    ensures var actions := [Send(a, false), Send(b, false), Connect];
            Schedule(Init(1), actions) && Inv(Run(Init(1), actions)) && Churning(Run(Init(1), actions))
  {
    var s0 := Init(1);
    var s1 := Step(s0, Send(a, false));
    var s2 := Step(s1, Send(b, false));
    var s3 := Step(s2, Connect);
    InitInv(1);
    StepKeepsInv(s0, Send(a, false));
    StepKeepsInv(s1, Send(b, false));
    StepKeepsInv(s2, Connect);
    assert Run(s2, [Connect]) == s3 by { assert [Connect][1..] == []; }
    assert [Send(b, false), Connect][1..] == [Connect];
    assert [Send(a, false), Send(b, false), Connect][1..] == [Send(b, false), Connect];
    assert s3.replies[0] in s3.replies && Replays(s3.replies[0]);
  }
}
