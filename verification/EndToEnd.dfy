/** Turns from the channel to the subscriber of one attachment: the gateway with all its
    slots, the connections, and the bridge of the attachment. */
module EndToEnd {
  import opened Wrappers
  import opened Bindings
  import opened Pipeline
  import opened Bridge
  import P = PipelineRuns

  // wires: the turns of the attachment written to each connection and not yet read.
  datatype System = System(world: P.World, bridge: Bridge, wires: map<string, seq<Push>>)

  const START := System(P.START, IDLE, map[])

  datatype Action =
    | Gate(action: P.Action)
    | Open(connection: string)
    | Connect(connection: string)
    | RegisterFails(previous: Option<string>)
    | Deliver(connection: string)
    | Lose(connection: string)
    | Subscribe(handler: nat)
    | Unsubscribe(handler: nat)
    | Stop

  // A connection is new when it is opened, and open before a runtime registers over it.
  ghost predicate Possible(s: System, a: Action) {
    match a
    case Gate(g) => P.Possible(s.world, g) && (g.Register? ==> g.input.connectionId in s.wires)
    case Open(conn) => conn !in s.wires
    case Connect(conn) => conn !in s.wires
    case Deliver(conn) => conn in s.wires && s.wires[conn] != []
    case Lose(conn) => conn in s.wires
    case _ => true
  }

  function Written(pushes: seq<Push>, key: Key, conn: string): seq<Push> {
    if pushes == [] then []
    else
      var last := pushes[|pushes| - 1];
      Written(pushes[..|pushes| - 1], key, conn) + if last.key == key && last.target == conn then [last] else []
  }

  function After(s: System, a: Action, key: Key, c: Config): System {
    match a
    case Gate(g) =>
      s.(world := P.After(s.world, g, c),
         wires := map conn | conn in s.wires :: s.wires[conn] + Written(P.NewPushes(s.world, g, c), key, conn))
    case Open(conn) => s.(wires := s.wires[conn := []])
    case Connect(conn) => s.(wires := s.wires[conn := []], bridge := Replaced(s.bridge, conn))
    case RegisterFails(previous) => s.(bridge := Reverted(s.bridge, previous))
    case Deliver(conn) =>
      if conn !in s.wires || s.wires[conn] == [] then s
      else
        var t := s.(wires := s.wires[conn := s.wires[conn][1..]]);
        if s.bridge.pushSource == Some(conn) then t.(bridge := Arrived(s.bridge, s.wires[conn][0])) else t
    case Lose(conn) => s.(wires := s.wires[conn := []])
    case Subscribe(h) => s.(bridge := Subscribed(s.bridge, h))
    case Unsubscribe(h) => s.(bridge := Unsubscribed(s.bridge, h))
    case Stop => s.(bridge := Stopped(s.bridge))
  }

  // ------------------------------------------------------------- invariant

  predicate Rising(s: seq<Push>) {
    forall i, j :: 0 <= i < j < |s| ==> s[i].inbound.arrival < s[j].inbound.arrival
  }

  predicate From(s: seq<Push>, pushed: seq<Push>, key: Key) {
    forall x | x in s :: x.key == key && x in pushed
  }

  function Wire(s: System): seq<Push> {
    if s.bridge.pushSource.Some? && s.bridge.pushSource.value in s.wires then s.wires[s.bridge.pushSource.value] else []
  }

  // What the handlers may still get, in order.
  function Coming(s: System): seq<Push> {
    s.bridge.buffered + Wire(s)
  }

  // All a handler got and may still get.
  function Course(s: System, h: nat): seq<Push> {
    Got(s.bridge.received, h) + Coming(s)
  }

  ghost predicate HandlerOk(s: System, key: Key, h: nat) {
    Rising(Course(s, h)) && From(Course(s, h), s.world.pushed, key)
  }

  ghost predicate WireOk(s: System, key: Key, conn: string) {
    conn in s.wires ==> Rising(s.wires[conn]) && From(s.wires[conn], s.world.pushed, key)
  }

  ghost predicate Inv(s: System, key: Key, c: Config) {
    && P.Inv(s.world, c)
    && (forall h :: HandlerOk(s, key, h))
    && (forall conn :: WireOk(s, key, conn))
    && DistinctHandlers(s.bridge.handlers) && (s.bridge.handlers != [] ==> s.bridge.buffered == [])
  }

  // ------------------------------------------------- new turns come after

  lemma {:induction false} InPushedFor(pushes: seq<Push>, key: Key, x: Push)
    requires x in pushes && x.key == key
    ensures x.inbound.arrival in P.PushedFor(pushes, key)
  {
    var front := pushes[..|pushes| - 1];
    if x != pushes[|pushes| - 1] { assert x in front; InPushedFor(front, key, x); }
  }

  lemma {:induction false} WrittenRises(pushes: seq<Push>, key: Key, conn: string)
    requires P.Ascending(P.PushedFor(pushes, key))
    ensures Rising(Written(pushes, key, conn)) && From(Written(pushes, key, conn), pushes, key)
  {
    if pushes != [] {
      var front, last := pushes[..|pushes| - 1], pushes[|pushes| - 1];
      var line := P.PushedFor(pushes, key);
      assert P.PushedFor(front, key) == line[..|P.PushedFor(front, key)|];
      WrittenRises(front, key, conn);
      if last.key == key && last.target == conn {
        assert line == P.PushedFor(front, key) + [last.inbound.arrival];
        forall x | x in Written(front, key, conn) ensures x.inbound.arrival < last.inbound.arrival {
          InPushedFor(front, key, x);
          var i :| 0 <= i < |line| - 1 && line[i] == x.inbound.arrival;
          assert line[i] < line[|line| - 1];
        }
      }
    }
  }

  // Turns pushed before, then turns pushed now.
  lemma RiseFurther(pushed: seq<Push>, more: seq<Push>, key: Key, conn: string, s: seq<Push>)
    requires P.Ascending(P.PushedFor(pushed + more, key)) && Rising(s) && From(s, pushed, key)
    ensures Rising(s + Written(more, key, conn)) && From(s + Written(more, key, conn), pushed + more, key)
  {
    P.PushedForBoth(pushed, more, key);
    var before, now := P.PushedFor(pushed, key), P.PushedFor(more, key);
    assert now == (before + now)[|before|..];
    WrittenRises(more, key, conn);
    var t := Written(more, key, conn);
    forall i, j | 0 <= i < |s| && 0 <= j < |t| ensures s[i].inbound.arrival < t[j].inbound.arrival {
      assert s[i] in s && t[j] in t;
      InPushedFor(pushed, key, s[i]);
      InPushedFor(more, key, t[j]);
      BeforeNow(before, now, s[i].inbound.arrival, t[j].inbound.arrival);
    }
  }

  lemma BeforeNow(before: seq<nat>, now: seq<nat>, m: nat, n: nat)
    requires P.Ascending(before + now) && m in before && n in now
    ensures m < n
  {
    var i :| 0 <= i < |before| && before[i] == m;
    var j :| 0 <= j < |now| && now[j] == n;
    assert (before + now)[i] == m && (before + now)[|before| + j] == n;
  }

  // Leaving out the middle or the end.
  lemma RisingParts(a: seq<Push>, b: seq<Push>, d: seq<Push>)
    requires Rising(a + b + d)
    ensures Rising(a + d) && Rising(a + b)
  {
    var all := a + b + d;
    assert forall i :: 0 <= i < |a| ==> all[i] == a[i];
    assert forall i :: 0 <= i < |d| ==> all[|a| + |b| + i] == d[i];
    assert a + b == all[..|a| + |b|];
  }

  // -------------------------------------------------------------- each step

  lemma GateKeepsInv(s: System, g: P.Action, key: Key, c: Config)
    requires Inv(s, key, c) && P.Possible(s.world, g)
    ensures Inv(After(s, Gate(g), key, c), key, c)
  {
    var t := After(s, Gate(g), key, c);
    var more := P.NewPushes(s.world, g, c);
    P.StepKeepsInv(s.world, g, c);
    Dispatched(t.world, c, key);
    forall conn ensures WireOk(t, key, conn) {
      assert WireOk(s, key, conn);
      if conn in s.wires { RiseFurther(s.world.pushed, more, key, conn, s.wires[conn]); }
    }
    forall h ensures HandlerOk(t, key, h) {
      assert HandlerOk(s, key, h);
      GateKeepsHandler(s, g, key, c, h);
    }
  }

  lemma Dispatched(w: P.World, c: Config, key: Key)
    requires P.Inv(w, c)
    ensures P.Ascending(P.PushedFor(w.pushed, key))
  {
    assert P.InOrder(w, key);
    var p := P.PushedFor(w.pushed, key);
    assert p == (p + P.WaitingFor(w, key))[..|p|];
  }

  lemma GateKeepsHandler(s: System, g: P.Action, key: Key, c: Config, h: nat)
    requires HandlerOk(s, key, h) && P.Ascending(P.PushedFor(s.world.pushed + P.NewPushes(s.world, g, c), key))
    ensures HandlerOk(After(s, Gate(g), key, c), key, h)
  {
    var t := After(s, Gate(g), key, c);
    var more := P.NewPushes(s.world, g, c);
    var got, buffered := Got(s.bridge.received, h), s.bridge.buffered;
    if s.bridge.pushSource.Some? && s.bridge.pushSource.value in s.wires {
      var conn := s.bridge.pushSource.value;
      RiseFurther(s.world.pushed, more, key, conn, Course(s, h));
      Regroup(got, buffered, s.wires[conn], Written(more, key, conn));
      assert Course(t, h) == Course(s, h) + Written(more, key, conn);
    } else {
      assert Course(t, h) == Course(s, h);
    }
  }

  lemma Regroup(a: seq<Push>, b: seq<Push>, d: seq<Push>, e: seq<Push>)
    ensures a + (b + (d + e)) == a + (b + d) + e
  {
  }

  // A step that only drops or moves turns already on their way.
  lemma HandlerMoves(s: System, t: System, key: Key, h: nat, front: seq<Push>, mid: seq<Push>, end: seq<Push>)
    requires HandlerOk(s, key, h) && t.world == s.world && Course(s, h) == front + mid + end
    requires Course(t, h) == front + mid + end || Course(t, h) == front + end || Course(t, h) == front + mid
    ensures HandlerOk(t, key, h)
  {
    RisingParts(front, mid, end);
  }

  lemma DeliverKeepsInv(s: System, conn: string, key: Key, c: Config)
    requires Inv(s, key, c) && conn in s.wires && s.wires[conn] != []
    ensures Inv(After(s, Deliver(conn), key, c), key, c)
  {
    var t := After(s, Deliver(conn), key, c);
    forall d ensures WireOk(t, key, d) { DeliverKeepsWire(s, conn, key, c, d); }
    forall h ensures HandlerOk(t, key, h) {
      assert HandlerOk(s, key, h);
      DeliverKeepsHandler(s, conn, key, c, h);
    }
  }

  lemma DeliverKeepsWire(s: System, conn: string, key: Key, c: Config, d: string)
    requires WireOk(s, key, d) && conn in s.wires && s.wires[conn] != []
    ensures WireOk(After(s, Deliver(conn), key, c), key, d)
  {
  }

  lemma DeliverKeepsHandler(s: System, conn: string, key: Key, c: Config, h: nat)
    requires HandlerOk(s, key, h) && conn in s.wires && s.wires[conn] != []
    requires DistinctHandlers(s.bridge.handlers) && (s.bridge.handlers != [] ==> s.bridge.buffered == [])
    ensures HandlerOk(After(s, Deliver(conn), key, c), key, h)
  {
    if s.bridge.pushSource == Some(conn) && s.bridge.handlers != [] {
      HandedOver(s, conn, key, c, h);
    } else {
      PutAside(s, conn, key, c, h);
    }
  }

  // Nobody listens, or nobody listens to this connection.
  lemma PutAside(s: System, conn: string, key: Key, c: Config, h: nat)
    requires HandlerOk(s, key, h) && conn in s.wires && s.wires[conn] != []
    requires s.bridge.pushSource != Some(conn) || s.bridge.handlers == []
    ensures HandlerOk(After(s, Deliver(conn), key, c), key, h)
  {
    var t := After(s, Deliver(conn), key, c);
    TakeFirst(Got(s.bridge.received, h), s.bridge.buffered, s.wires[conn]);
    assert Course(t, h) == Course(s, h);
  }

  lemma HandedOver(s: System, conn: string, key: Key, c: Config, h: nat)
    requires HandlerOk(s, key, h) && conn in s.wires && s.wires[conn] != []
    requires s.bridge.pushSource == Some(conn) && s.bridge.handlers != [] && s.bridge.buffered == []
    requires DistinctHandlers(s.bridge.handlers)
    ensures HandlerOk(After(s, Deliver(conn), key, c), key, h)
  {
    var t := After(s, Deliver(conn), key, c);
    var got, wire := Got(s.bridge.received, h), s.wires[conn];
    assert Coming(s) == wire && Coming(t) == wire[1..];
    TakeFirst(got, [], wire);
    CalledOnce(s.bridge.received, s.bridge.handlers, wire[0], h);
    var now := Got(t.bridge.received, h);
    assert now == got + [wire[0]] || now == got + [] == got;
    HandlerMoves(s, t, key, h, got, [wire[0]], wire[1..]);
  }

  lemma TakeFirst(got: seq<Push>, buffered: seq<Push>, wire: seq<Push>)
    requires wire != []
    ensures got + (buffered + wire) + [] + [] == got + ((buffered + [wire[0]]) + wire[1..])
    ensures got + wire == got + [wire[0]] + wire[1..]
    ensures [] + wire == wire && [] + wire[1..] == wire[1..]
  {
  }

  lemma WiresKeepInv(s: System, a: Action, key: Key, c: Config)
    requires Inv(s, key, c) && Possible(s, a) && (a.Open? || a.Connect? || a.RegisterFails? || a.Lose?)
    ensures Inv(After(s, a, key, c), key, c)
  {
    var t := After(s, a, key, c);
    forall d ensures WireOk(t, key, d) { assert WireOk(s, key, d); }
    forall h ensures HandlerOk(t, key, h) {
      assert HandlerOk(s, key, h);
      assert Wire(t) == Wire(s) || Wire(t) == [];
      CutShort(s, t, key, h);
    }
  }

  // The wire is cut, or the buffer with it.
  lemma CutShort(s: System, t: System, key: Key, h: nat)
    requires HandlerOk(s, key, h) && t.world == s.world && t.bridge.received == s.bridge.received
    requires Wire(t) == Wire(s) || Wire(t) == []
    requires t.bridge.buffered == s.bridge.buffered || (t.bridge.buffered == [] && Wire(t) == [])
    ensures HandlerOk(t, key, h)
  {
    var got, buffered := Got(s.bridge.received, h), s.bridge.buffered;
    if t.bridge.buffered == buffered {
      assert Course(s, h) == (got + buffered) + Wire(s) + [];
      assert Course(t, h) == (got + buffered) + Wire(t);
      assert (got + buffered) + Wire(t) == (got + buffered) + Wire(t) + [];
      HandlerMoves(s, t, key, h, got + buffered, Wire(s), []);
    } else {
      assert Course(s, h) == got + Coming(s) + [] && Course(t, h) == got + [];
      HandlerMoves(s, t, key, h, got, Coming(s), []);
    }
  }

  lemma BridgeKeepsInv(s: System, a: Action, key: Key, c: Config)
    requires Inv(s, key, c) && (a.Subscribe? || a.Unsubscribe? || a.Stop?)
    ensures Inv(After(s, a, key, c), key, c)
  {
    var t := After(s, a, key, c);
    if a.Unsubscribe? { LeftDistinct(s.bridge.handlers, a.handler); }
    forall d ensures WireOk(t, key, d) { assert WireOk(s, key, d); }
    forall h ensures HandlerOk(t, key, h) {
      assert HandlerOk(s, key, h);
      if a.Subscribe? { SubscribeKeepsHandler(s, a.handler, key, c, h); } else { CutShort(s, t, key, h); }
    }
  }

  lemma SubscribeKeepsHandler(s: System, g: nat, key: Key, c: Config, h: nat)
    requires HandlerOk(s, key, h)
    ensures HandlerOk(After(s, Subscribe(g), key, c), key, h)
  {
    var t := After(s, Subscribe(g), key, c);
    var got, buffered, wire := Got(s.bridge.received, h), s.bridge.buffered, Wire(s);
    assert Course(s, h) == got + buffered + wire;
    assert Wire(t) == wire;
    if t.bridge.buffered == buffered {
      assert Course(t, h) == got + buffered + wire;
    } else {
      assert Course(t, h) == Got(t.bridge.received, h) + wire;
    }
    HandlerMoves(s, t, key, h, got, buffered, wire);
  }

  lemma StepKeepsInv(s: System, a: Action, key: Key, c: Config)
    requires Inv(s, key, c) && Possible(s, a)
    ensures Inv(After(s, a, key, c), key, c)
  {
    match a {
      case Gate(g) => GateKeepsInv(s, g, key, c);
      case Deliver(conn) => DeliverKeepsInv(s, conn, key, c);
      case Subscribe(_) => BridgeKeepsInv(s, a, key, c);
      case Unsubscribe(_) => BridgeKeepsInv(s, a, key, c);
      case Stop => BridgeKeepsInv(s, a, key, c);
      case _ => WiresKeepInv(s, a, key, c);
    }
  }

  // ------------------------------------------------------------ whole runs

  ghost predicate StepOf(s: System, a: Action, key: Key, c: Config, t: System) {
    Possible(s, a) && t == After(s, a, key, c)
  }

  ghost predicate Trace(states: seq<System>, actions: seq<Action>, key: Key, c: Config) {
    && |states| == |actions| + 1 && states[0] == START
    && forall k :: 0 <= k < |actions| ==> StepOf(states[k], actions[k], key, c, states[k + 1])
  }

  lemma {:induction false} TraceKeepsInv(states: seq<System>, actions: seq<Action>, key: Key, c: Config, n: nat)
    requires Trace(states, actions, key, c) && n < |states|
    ensures Inv(states[n], key, c)
  {
    if n == 0 {
      P.StartInv(c);
    } else {
      TraceKeepsInv(states, actions, key, c, n - 1);
      assert StepOf(states[n - 1], actions[n - 1], key, c, states[n - 1 + 1]);
      StepKeepsInv(states[n - 1], actions[n - 1], key, c);
    }
  }

  // Whatever registers, closes, reconnects, subscribes or unsubscribes in between:
  // each subscriber gets turns of its attachment only, in the order in which their
  // messages arrived and none twice; while somebody listens nothing is held back in
  // the bridge, and while the runtime is active nothing is parked.
  lemma TurnsInArrivalOrder(states: seq<System>, actions: seq<Action>, key: Key, c: Config, n: nat, h: nat)
    requires Trace(states, actions, key, c) && n < |states|
    ensures var s := states[n];
            && Rising(Got(s.bridge.received, h))
            && From(Got(s.bridge.received, h), s.world.pushed, key)
            && (s.bridge.handlers != [] ==> s.bridge.buffered == [])
            && (ActiveAt(s.world.gateway.store, key) ==> ParkedFor(s.world.gateway.queue, key) == [])
  {
    TraceKeepsInv(states, actions, key, c, n);
    var s := states[n];
    assert HandlerOk(s, key, h) && P.InOrder(s.world, key);
    var got := Got(s.bridge.received, h);
    assert forall i :: 0 <= i < |got| ==> (got + Coming(s))[i] == got[i];
    assert |P.WaitingFor(s.world, key)| == |ParkedFor(s.world.gateway.queue, key)|;
  }

  // ------------------------------------------------------- unsubscribing

  // A handler that is not subscribed is called by no step.
  lemma NotCalled(s: System, a: Action, key: Key, c: Config, h: nat)
    requires Inv(s, key, c) && h !in s.bridge.handlers && a != Subscribe(h)
    ensures var t := After(s, a, key, c);
            h !in t.bridge.handlers && Got(t.bridge.received, h) == Got(s.bridge.received, h)
  {
    match a {
      case Deliver(conn) =>
        if conn in s.wires && s.wires[conn] != [] {
          CalledOnce(s.bridge.received, s.bridge.handlers, s.wires[conn][0], h);
        }
      case Unsubscribe(g) => LeftDistinct(s.bridge.handlers, g);
      case _ =>
    }
  }

  lemma {:induction false} NotCalledAlong(states: seq<System>, actions: seq<Action>, key: Key, c: Config, m: nat, n: nat,
                                          h: nat)
    requires Trace(states, actions, key, c) && m <= n < |states| && h !in states[m].bridge.handlers
    requires forall k :: m <= k < n ==> actions[k] != Subscribe(h)
    ensures h !in states[n].bridge.handlers
    ensures Got(states[n].bridge.received, h) == Got(states[m].bridge.received, h)
    decreases n - m
  {
    if m < n {
      NotCalledAlong(states, actions, key, c, m, n - 1, h);
      NotCalledNext(states, actions, key, c, n - 1, h);
    }
  }

  lemma NotCalledNext(states: seq<System>, actions: seq<Action>, key: Key, c: Config, n: nat, h: nat)
    requires Trace(states, actions, key, c) && n < |actions|
    requires h !in states[n].bridge.handlers && actions[n] != Subscribe(h)
    ensures h !in states[n + 1].bridge.handlers
    ensures Got(states[n + 1].bridge.received, h) == Got(states[n].bridge.received, h)
  {
    TraceKeepsInv(states, actions, key, c, n);
    assert StepOf(states[n], actions[n], key, c, states[n + 1]);
    NotCalled(states[n], actions[n], key, c, h);
  }

  // In every run: from unsubscribing to subscribing again a handler gets nothing, and the
  // other handlers stay subscribed.
  lemma UnsubscribedGetsNothing(states: seq<System>, actions: seq<Action>, key: Key, c: Config, m: nat, n: nat, h: nat)
    requires Trace(states, actions, key, c) && m < n < |states| && actions[m] == Unsubscribe(h)
    requires forall k :: m < k < n ==> actions[k] != Subscribe(h)
    ensures Got(states[n].bridge.received, h) == Got(states[m].bridge.received, h)
    ensures forall g | g != h :: g in states[m + 1].bridge.handlers <==> g in states[m].bridge.handlers
  {
    TraceKeepsInv(states, actions, key, c, m);
    assert StepOf(states[m], actions[m], key, c, states[m + 1]);
    LeftDistinct(states[m].bridge.handlers, h);
    NotCalledAlong(states, actions, key, c, m + 1, n, h);
  }
}
