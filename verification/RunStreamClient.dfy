/** The per-run stream client: an outbound queue of sequence-numbered frames that
    is retransmitted until the server acknowledges it. The functions give the
    meaning of each handler on values; the class runs the handlers themselves. */
module RunStreamClient {
  import opened Wrappers

  datatype Payload = Null | Json(text: string)

  datatype EventInput = EventInput(ts: int, kind: string, payload: Option<Payload>)

  datatype Frame = Frame(seqNo: nat, ts: int, kind: string, payload: Payload)

  // What the server sends. `Other` stands for a pong and for every error that is
  // not a sequence gap; `Bye` is the close with code 1000 "run_terminated".
  datatype Reply =
    | Resume(lastAcked: nat, terminated: bool)
    | Ack(seqNo: nat)
    | Gap(expected: nat)
    | Other
    | Bye

  // A terminal frame makes the server acknowledge it and end the run.
  predicate IsTerminal(f: Frame) {
    f.kind == "completion" || f.kind == "error"
  }

  datatype Client = Client(
    nextSeq: nat,
    queue: seq<Frame>,
    maxQueueSize: nat,
    attached: bool,    // a socket object is held
    open: bool,        // and that socket is writable
    resumed: bool,     // the server's resume frame has been seen on it
    stopped: bool,
    terminated: bool
  ) {
    predicate CanSend() {
      attached && open && resumed
    }
  }

  function Fresh(maxQueueSize: nat): Client {
    Client(1, [], maxQueueSize, false, false, false, false, false)
  }

  // The queue without its leading frames whose sequence number is below `bound`.
  function TrimBelow(queue: seq<Frame>, bound: nat): seq<Frame> {
    if queue == [] || queue[0].seqNo >= bound then queue else TrimBelow(queue[1..], bound)
  }

  // A trim removes a prefix: every removed frame is below the bound and the
  // first kept one is not.
  lemma {:induction false} TrimRemovesPrefix(queue: seq<Frame>, bound: nat)
    ensures var rest := TrimBelow(queue, bound);
            && |rest| <= |queue|
            && rest == queue[|queue| - |rest|..]
            && (rest != [] ==> rest[0].seqNo >= bound)
            && (forall i :: 0 <= i < |queue| - |rest| ==> queue[i].seqNo < bound)
  {
    if queue != [] && queue[0].seqNo < bound {
      TrimRemovesPrefix(queue[1..], bound);
      assert forall i :: 1 <= i < |queue| ==> queue[i] == queue[1..][i - 1];
    }
  }

  // What a flush writes when the socket accepts `room` frames before a write
  // throws; `None` when no write throws.
  function Flushed(c: Client, room: Option<nat>): seq<Frame> {
    if !c.CanSend() then []
    else if room.Some? && room.value < |c.queue| then c.queue[..room.value]
    else c.queue
  }

  // The frame is the n-th and carries the event: its time, its kind, and its payload or
  // null when it has none.
  predicate Carries(f: Frame, n: nat, input: EventInput) {
    && f.seqNo == n && f.ts == input.ts && f.kind == input.kind
    && (input.payload.Some? ==> f.payload == input.payload.value)
    && (input.payload.None? ==> f.payload.Null?)
  }

  function NewFrame(c: Client, input: EventInput): Frame {
    Frame(c.nextSeq, input.ts, input.kind,
          if input.payload.Some? then input.payload.value else Null)
  }

  // Appending an event. At the cap the oldest frame is given up. A cap of zero
  // reads the head of an empty queue, which throws once the number is spent.
  function SendEvent(c: Client, input: EventInput, fault: bool): (Client, seq<Frame>) {
    var frame := NewFrame(c, input);
    var counted := c.(nextSeq := c.nextSeq + 1);
    if |c.queue| >= c.maxQueueSize && c.queue == [] then (counted, [])
    else
      var kept := if |c.queue| >= c.maxQueueSize then c.queue[1..] else c.queue;
      (counted.(queue := kept + [frame]), if c.CanSend() && !fault then [frame] else [])
  }

  function HandleReply(c: Client, r: Reply, room: Option<nat>): (Client, seq<Frame>) {
    match r
    case Resume(lastAcked, terminated) =>
      var resumed := c.(resumed := true, queue := TrimBelow(c.queue, lastAcked + 1));
      if terminated then (resumed.(terminated := true, open := false), [])
      else (resumed, Flushed(resumed, room))
    case Ack(seqNo) => (c.(queue := TrimBelow(c.queue, seqNo + 1)), [])
    case Gap(expected) =>
      var trimmed := c.(queue := TrimBelow(c.queue, expected));
      (trimmed, Flushed(trimmed, room))
    case Other => (c, [])
    case Bye => (SocketClosed(c, true), [])
  }

  function OpenSocket(c: Client): Client {
    if c.stopped || c.terminated then c
    else c.(attached := true, open := true, resumed := false)
  }

  // The close event of the socket the client holds; a close of any other socket
  // is ignored.
  function SocketClosed(c: Client, runTerminated: bool): Client {
    if !c.attached then c
    else c.(attached := false, open := false, terminated := c.terminated || runTerminated)
  }

  function Close(c: Client): Client {
    c.(stopped := true, attached := false, open := false, terminated := true)
  }

  class RunStream {
    var nextSeq: nat
    var queue: seq<Frame>
    const maxQueueSize: nat
    var attached: bool
    var open: bool
    var resumed: bool
    var stopped: bool
    var terminated: bool
    // Everything written so far, over all sockets.
    var written: seq<Frame>

    ghost function Value(): Client
      reads this
    {
      Client(nextSeq, queue, maxQueueSize, attached, open, resumed, stopped, terminated)
    }

    constructor (maxQueueSize: nat)
      ensures Value() == Fresh(maxQueueSize) && written == []
    {
      nextSeq, queue, this.maxQueueSize := 1, [], maxQueueSize;
      attached, open, resumed, stopped, terminated := false, false, false, false, false;
      written := [];
    }

    method TrimQueueUpTo(lastAcked: nat)
      modifies this`queue
      ensures queue == TrimBelow(old(queue), lastAcked + 1)
    {
      while queue != [] && queue[0].seqNo <= lastAcked
        invariant TrimBelow(queue, lastAcked + 1) == TrimBelow(old(queue), lastAcked + 1)
        decreases |queue|
      {
        queue := queue[1..];
      }
    }

    method TrimQueueUpToExclusive(expected: nat)
      modifies this`queue
      ensures queue == TrimBelow(old(queue), expected)
    {
      while queue != [] && queue[0].seqNo < expected
        invariant TrimBelow(queue, expected) == TrimBelow(old(queue), expected)
        decreases |queue|
      {
        queue := queue[1..];
      }
    }

    method FlushQueue(room: Option<nat>)
      modifies this`written
      ensures written == old(written) + Flushed(Value(), room)
    {
      if !attached || !open || !resumed { return; }
      for i := 0 to |queue|
        invariant room.Some? ==> i <= room.value
        invariant written == old(written) + queue[..i]
      {
        if room == Some(i) { return; }
        written := written + [queue[i]];
        assert queue[..i + 1] == queue[..i] + [queue[i]];
      }
      assert queue[..|queue|] == queue;
    }

    method Send(input: EventInput, fault: bool) returns (threw: bool)
      modifies this
      ensures Value() == SendEvent(old(Value()), input, fault).0
      ensures written == old(written) + SendEvent(old(Value()), input, fault).1
      ensures threw <==> maxQueueSize == 0 && old(queue) == []
      ensures !threw ==> queue != [] && Carries(queue[|queue| - 1], old(nextSeq), input)
      ensures forall f | f in written[|old(written)|..] :: Carries(f, old(nextSeq), input)
    {
      var frame := Frame(nextSeq, input.ts, input.kind,
                         if input.payload.Some? then input.payload.value else Null);
      nextSeq := nextSeq + 1;
      if |queue| >= maxQueueSize {
        if queue == [] { return true; }
        queue := queue[1..];
      }
      queue := queue + [frame];
      if attached && open && resumed && !fault {
        written := written + [frame];
      }
      threw := false;
    }

    method Handle(r: Reply, room: Option<nat>)
      modifies this
      ensures Value() == HandleReply(old(Value()), r, room).0
      ensures written == old(written) + HandleReply(old(Value()), r, room).1
    {
      match r
      case Resume(lastAcked, ended) =>
        resumed := true;
        TrimQueueUpTo(lastAcked);
        if ended {
          terminated, open := true, false;
          return;
        }
        FlushQueue(room);
      case Ack(seqNo) =>
        TrimQueueUpTo(seqNo);
      case Gap(expected) =>
        TrimQueueUpToExclusive(expected);
        FlushQueue(room);
      case Other =>
      case Bye =>
        OnClose(true);
    }

    method Open()
      modifies this
      ensures Value() == OpenSocket(old(Value())) && written == old(written)
    {
      if stopped || terminated { return; }
      attached, open, resumed := true, true, false;
    }

    method OnClose(runTerminated: bool)
      modifies this
      ensures Value() == SocketClosed(old(Value()), runTerminated) && written == old(written)
    {
      if !attached { return; }
      attached, open := false, false;
      if runTerminated { terminated := true; }
    }

    method Shutdown()
      modifies this
      ensures Value() == Close(old(Value())) && written == old(written)
    {
      stopped, attached, open, terminated := true, false, false, true;
    }
  }
}
