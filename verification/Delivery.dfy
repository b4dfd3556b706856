/** Which turns reach a subscriber at all: for every step exactly when it loses a turn of
    the attachment on the way from the channel to the subscriber, and for every run that
    all arrivals are accounted for exactly when no step did. */
module Delivery {
  import opened Wrappers
  import opened Bindings
  import opened Pipeline
  import opened Bridge
  import opened EndToEnd
  import P = PipelineRuns

  // ------------------------------------------------- arriving at the gateway

  // The messages of a key that were pushed, then those still parked.
  function PushedOrParked(w: P.World, key: Key): seq<nat> {
    P.PushedFor(w.pushed, key) + P.WaitingFor(w, key)
  }

  function Arriving(w: P.World, g: P.Action, key: Key): seq<nat> {
    if g.Arrive? && g.key == key then [w.arrivals] else []
  }

  // An arriving message finds an agent or room in the queue, and parked ones find an
  // agent when their runtime registers.
  predicate KeptAtGate(w: P.World, g: P.Action, key: Key, c: Config) {
    var q := w.gateway.queue;
    match g
    case Arrive(_, _, k, _) =>
      k == key ==>
        var m, current := P.InboundOf(w, g), Current(w.gateway, key);
        if current.Some? then Agent(m, current.value, c) != "" else |q| < c.maxEntries && !IsParked(q, m)
    case Register(x, now) =>
      x.key == key && !Conflict(w.gateway.store, x) ==>
        var current := Current(w.gateway.(store := Bound(w.gateway.store, x, now)), key);
        current.Some? && HaveAgent(ParkedFor(q, key), current.value, c)
    case _ => true
  }

  predicate HaveAgent(inbounds: seq<Inbound>, current: Runtime, c: Config) {
    forall m | m in inbounds :: Agent(m, current, c) != ""
  }

  lemma OnePush(pushed: seq<Push>, g: Gateway, m: Inbound, current: Runtime, key: Key, c: Config)
    requires PushTarget(g.store, key).Some?
    ensures P.PushedFor(pushed + PushesOf(g, m, current, key, c), key) ==
            P.PushedFor(pushed, key) + if Agent(m, current, c) == "" then [] else [m.arrival]
  {
    P.PushedForMore(pushed, PushesOf(g, m, current, key, c), m, key);
  }

  lemma HaveAgentMore(front: seq<Inbound>, last: Inbound, current: Runtime, c: Config)
    ensures HaveAgent(front + [last], current, c) <==> HaveAgent(front, current, c) && Agent(last, current, c) != ""
    ensures P.Numbers(front + [last]) == P.Numbers(front) + [last.arrival]
  {
  }

  // What a drain pushes of parked messages: all of them, or fewer.
  ghost predicate Drained(n: seq<nat>, inbounds: seq<Inbound>, current: Runtime, c: Config) {
    if HaveAgent(inbounds, current, c) then n == P.Numbers(inbounds) else |n| < |inbounds|
  }

  lemma DrainedMore(n: seq<nat>, front: seq<Inbound>, last: Inbound, current: Runtime, c: Config)
    requires Drained(n, front, current, c)
    ensures Drained(n + if Agent(last, current, c) == "" then [] else [last.arrival], front + [last], current, c)
  {
    HaveAgentMore(front, last, current, c);
  }

  lemma DrainedStep(g: Gateway, inbounds: seq<Inbound>, current: Runtime, key: Key, now: int, c: Config)
    requires PushTarget(g.store, key).Some? && inbounds != []
    requires var front := inbounds[..|inbounds| - 1];
             Drained(P.PushedFor(PushesOfAll(g, front, current, key, now, c), key), front, current, c)
    ensures Drained(P.PushedFor(PushesOfAll(g, inbounds, current, key, now, c), key), inbounds, current, c)
  {
    var front, last := inbounds[..|inbounds| - 1], inbounds[|inbounds| - 1];
    assert inbounds == front + [last];
    OnePush(PushesOfAll(g, front, current, key, now, c), AfterAll(g, front, current, key, now, c), last, current, key, c);
    DrainedMore(P.PushedFor(PushesOfAll(g, front, current, key, now, c), key), front, last, current, c);
  }

  lemma {:induction false} DrainKeeps(g: Gateway, inbounds: seq<Inbound>, current: Runtime, key: Key, now: int, c: Config)
    requires PushTarget(g.store, key).Some?
    ensures Drained(P.PushedFor(PushesOfAll(g, inbounds, current, key, now, c), key), inbounds, current, c)
  {
    if inbounds != [] {
      DrainKeeps(g, inbounds[..|inbounds| - 1], current, key, now, c);
      DrainedStep(g, inbounds, current, key, now, c);
    }
  }

  // The line before and after: all that came is added, or something is missing.
  ghost predicate Grows(before: seq<nat>, more: seq<nat>, after: seq<nat>, kept: bool) {
    if kept then after == before + more else |after| < |before| + |more|
  }

  lemma ArriveKeeps(w: P.World, g: P.Action, key: Key, c: Config)
    requires P.Inv(w, c) && g.Arrive? && g.key == key
    ensures Grows(PushedOrParked(w, key), [w.arrivals], PushedOrParked(P.After(w, g, c), key), KeptAtGate(w, g, key, c))
  {
    if Current(w.gateway, key).Some? {
      P.ActivePushes(P.Stored(w), key);
      assert P.InOrder(w, key);
      ActiveArriveKeeps(w, g, key, c);
    } else {
      ParkedArriveKeeps(w, g, key, c);
    }
  }

  lemma ActiveArriveKeeps(w: P.World, g: P.Action, key: Key, c: Config)
    requires g.Arrive? && g.key == key && Current(w.gateway, key).Some? && PushTarget(w.gateway.store, key).Some?
    requires P.WaitingFor(w, key) == []
    ensures Grows(PushedOrParked(w, key), [w.arrivals], PushedOrParked(P.After(w, g, c), key), KeptAtGate(w, g, key, c))
  {
    var m, current := P.InboundOf(w, g), Current(w.gateway, key).value;
    OnePush(w.pushed, w.gateway, m, current, key, c);
    assert P.After(w, g, c).gateway.queue == w.gateway.queue;
    assert PushedOrParked(w, key) == P.PushedFor(w.pushed, key);
    assert PushedOrParked(P.After(w, g, c), key) == P.PushedFor(P.After(w, g, c).pushed, key);
  }

  lemma ParkedArriveKeeps(w: P.World, g: P.Action, key: Key, c: Config)
    requires g.Arrive? && g.key == key && Current(w.gateway, key).None?
    ensures Grows(PushedOrParked(w, key), [w.arrivals], PushedOrParked(P.After(w, g, c), key), KeptAtGate(w, g, key, c))
  {
    var m := P.InboundOf(w, g);
    assert w.pushed + [] == w.pushed;
    assert P.After(w, g, c).pushed == w.pushed;
    ParkedOne(w.gateway.queue, Parked(key, m));
    var pushed, waiting := P.PushedFor(w.pushed, key), P.WaitingFor(w, key);
    assert pushed + waiting + [w.arrivals] == pushed + (waiting + [w.arrivals]);
  }

  lemma ParkedOne(queue: seq<Parked>, row: Parked)
    ensures P.Numbers(ParkedFor(queue + [row], row.key)) == P.Numbers(ParkedFor(queue, row.key)) + [row.inbound.arrival]
  {
    assert (queue + [row])[..|queue|] == queue;
  }

  lemma RegisterKeeps(w: P.World, x: BindInput, now: int, key: Key, c: Config)
    requires P.Inv(w, c) && P.Possible(w, P.Register(x, now)) && x.key == key && !Conflict(w.gateway.store, x)
    ensures var a := P.Register(x, now);
            Grows(PushedOrParked(w, key), [], PushedOrParked(P.After(w, a, c), key), KeptAtGate(w, a, key, c))
  {
    var a, q := P.Register(x, now), w.gateway.queue;
    var bound := w.gateway.(store := Bound(w.gateway.store, x, now));
    var start := bound.(queue := ParkedElsewhere(q, key));
    P.StepKeepsInv(w, a, c);
    P.BoundSlots(w.gateway.store, x, now, key);
    P.ActivePushes(P.Stored(P.After(w, a, c)), key);
    var current := Current(bound, key).value;
    P.ElsewhereParked(q, key, key);
    DrainKeeps(start, ParkedFor(q, key), current, key, now, c);
    P.PushedForBoth(w.pushed, PushesOfAll(start, ParkedFor(q, key), current, key, now, c), key);
    assert P.WaitingFor(P.After(w, a, c), key) == [];
  }

  lemma GateKeeps(w: P.World, g: P.Action, key: Key, c: Config)
    requires P.Inv(w, c) && P.Possible(w, g)
    ensures Grows(PushedOrParked(w, key), Arriving(w, g, key), PushedOrParked(P.After(w, g, c), key),
                  KeptAtGate(w, g, key, c))
  {
    if g.Arrive? && g.key == key {
      ArriveKeeps(w, g, key, c);
    } else if g.Register? && g.input.key == key && !Conflict(w.gateway.store, g.input) {
      RegisterKeeps(w, g.input, g.now, key, c);
    } else {
      OthersKeep(w, g, key, c);
    }
  }

  // A step for another key neither pushes nor parks for this one.
  lemma OthersKeep(w: P.World, g: P.Action, key: Key, c: Config)
    requires (g.Arrive? ==> g.key != key) && (g.Register? ==> g.input.key != key || Conflict(w.gateway.store, g.input))
    ensures PushedOrParked(P.After(w, g, c), key) == PushedOrParked(w, key)
  {
    if g.Arrive? {
      OtherArrivalPushes(w, g, key, c);
      OtherArrivalParks(w, g, key, c);
    } else if g.Register? && !Conflict(w.gateway.store, g.input) {
      OtherRegistration(w, g.input, g.now, key, c);
    } else {
      assert P.NewPushes(w, g, c) == [] && P.After(w, g, c).gateway.queue == w.gateway.queue;
    }
    P.PushedForBoth(w.pushed, P.NewPushes(w, g, c), key);
    assert P.PushedFor(w.pushed, key) + [] == P.PushedFor(w.pushed, key);
  }

  lemma OtherArrivalPushes(w: P.World, g: P.Action, key: Key, c: Config)
    requires g.Arrive? && g.key != key
    ensures P.PushedFor(P.NewPushes(w, g, c), key) == []
  {
    var more := P.NewPushes(w, g, c);
    P.PushedForMore([], more, P.InboundOf(w, g), key);
    assert [] + more == more;
  }

  lemma OtherArrivalParks(w: P.World, g: P.Action, key: Key, c: Config)
    requires g.Arrive? && g.key != key
    ensures P.WaitingFor(P.After(w, g, c), key) == P.WaitingFor(w, key)
  {
    var row := Parked(g.key, P.InboundOf(w, g));
    assert P.After(w, g, c).gateway.queue in {w.gateway.queue, w.gateway.queue + [row]};
    ParkedOther(w.gateway.queue, row, key);
  }

  lemma OtherRegistration(w: P.World, x: BindInput, now: int, key: Key, c: Config)
    requires x.key != key && !Conflict(w.gateway.store, x)
    ensures var a := P.Register(x, now);
            P.PushedFor(P.NewPushes(w, a, c), key) == [] && P.WaitingFor(P.After(w, a, c), key) == P.WaitingFor(w, key)
  {
    var bound := w.gateway.(store := Bound(w.gateway.store, x, now));
    P.BoundSlots(w.gateway.store, x, now, x.key);
    P.ElsewhereParked(w.gateway.queue, x.key, key);
    P.DrainPushesKey(bound.(queue := ParkedElsewhere(w.gateway.queue, x.key)), ParkedFor(w.gateway.queue, x.key),
                     Current(bound, x.key).value, x.key, now, c, key);
  }

  lemma ParkedOther(queue: seq<Parked>, row: Parked, key: Key)
    requires row.key != key
    ensures ParkedFor(queue + [row], key) == ParkedFor(queue, key)
  {
    assert (queue + [row])[..|queue|] == queue;
  }

  // ---------------------------------------------- from the gateway to the handler

  function TurnsFor(pushed: seq<Push>, key: Key): seq<Push> {
    if pushed == [] then []
    else
      var last := pushed[|pushed| - 1];
      TurnsFor(pushed[..|pushed| - 1], key) + if last.key == key then [last] else []
  }

  lemma {:induction false} TurnsForBoth(a: seq<Push>, b: seq<Push>, key: Key)
    ensures TurnsFor(a + b, key) == TurnsFor(a, key) + TurnsFor(b, key)
  {
    if b == [] {
      assert a + b == a;
    } else {
      assert (a + b)[..|a + b| - 1] == a + b[..|b| - 1];
      TurnsForBoth(a, b[..|b| - 1], key);
    }
  }

  // Every turn of the key among these is written to the connection.
  predicate AllOver(pushes: seq<Push>, key: Key, conn: string) {
    forall x | x in pushes && x.key == key :: x.target == conn
  }

  lemma {:induction false} WrittenIff(pushes: seq<Push>, key: Key, conn: string)
    ensures if AllOver(pushes, key, conn) then Written(pushes, key, conn) == TurnsFor(pushes, key)
            else |Written(pushes, key, conn)| < |TurnsFor(pushes, key)|
  {
    if pushes != [] {
      var front, last := pushes[..|pushes| - 1], pushes[|pushes| - 1];
      WrittenIff(front, key, conn);
      assert pushes == front + [last];
    }
  }

  lemma {:induction false} NoTurns(pushes: seq<Push>, key: Key)
    ensures TurnsFor(pushes, key) == [] <==> forall x | x in pushes :: x.key != key
  {
    if pushes != [] {
      var front, last := pushes[..|pushes| - 1], pushes[|pushes| - 1];
      NoTurns(front, key);
      assert pushes == front + [last];
    }
  }

  // The connection the bridge listens to, if it is there.
  predicate Listens(s: System, conn: string) {
    s.bridge.pushSource == Some(conn) && conn in s.wires
  }

  // The step loses no turn for the handler: turns are written to the connection the bridge
  // listens to; a connection is dropped, replaced or stopped only when nothing is on it;
  // and what is handed over is handed to this handler.
  predicate Safe(s: System, a: Action, key: Key, c: Config, h: nat) {
    match a
    case Gate(g) => forall x | x in P.NewPushes(s.world, g, c) && x.key == key :: Listens(s, x.target)
    case Connect(_) => Wire(s) == []
    case RegisterFails(_) => Wire(s) == []
    case Lose(conn) => Listens(s, conn) ==> Wire(s) == []
    case Deliver(conn) => Listens(s, conn) && s.bridge.handlers != [] ==> h in s.bridge.handlers
    case Subscribe(g) => g == h || s.bridge.handlers != [] || s.bridge.buffered == []
    case Stop => s.bridge.client.None? || Coming(s) == []
    case _ => true
  }

  function NewTurns(s: System, a: Action, key: Key, c: Config): seq<Push> {
    if a.Gate? then TurnsFor(P.NewPushes(s.world, a.action, c), key) else []
  }

  // What a step does to all a handler got and may still get.
  ghost predicate Accounted(s: System, a: Action, key: Key, c: Config, h: nat) {
    var before, more, after := Course(s, h), NewTurns(s, a, key, c), Course(After(s, a, key, c), h);
    if Safe(s, a, key, c, h) then after == before + more else |after| < |before| + |more|
  }

  lemma GateFollows(s: System, g: P.Action, key: Key, c: Config, h: nat)
    ensures Accounted(s, Gate(g), key, c, h)
  {
    var t := After(s, Gate(g), key, c);
    var more := P.NewPushes(s.world, g, c);
    var got, buffered := Got(s.bridge.received, h), s.bridge.buffered;
    NoTurns(more, key);
    if s.bridge.pushSource.Some? && s.bridge.pushSource.value in s.wires {
      var conn := s.bridge.pushSource.value;
      WrittenIff(more, key, conn);
      Regroup(got, buffered, s.wires[conn], Written(more, key, conn));
      assert Course(t, h) == Course(s, h) + Written(more, key, conn);
      assert AllOver(more, key, conn) <==> Safe(s, Gate(g), key, c, h);
    } else {
      assert Course(t, h) == Course(s, h) == Course(s, h) + [];
    }
  }

  lemma DeliverFollows(s: System, conn: string, key: Key, c: Config, h: nat)
    requires conn in s.wires && s.wires[conn] != []
    requires DistinctHandlers(s.bridge.handlers) && (s.bridge.handlers != [] ==> s.bridge.buffered == [])
    ensures Accounted(s, Deliver(conn), key, c, h)
  {
    assert Course(s, h) + [] == Course(s, h);
    if s.bridge.pushSource == Some(conn) {
      if s.bridge.handlers == [] { BufferedFollows(s, conn, key, c, h); } else { HandedFollows(s, conn, key, c, h); }
    } else {
      assert Course(After(s, Deliver(conn), key, c), h) == Course(s, h);
    }
  }

  lemma BufferedFollows(s: System, conn: string, key: Key, c: Config, h: nat)
    requires conn in s.wires && s.wires[conn] != [] && s.bridge.pushSource == Some(conn) && s.bridge.handlers == []
    ensures Course(After(s, Deliver(conn), key, c), h) == Course(s, h)
  {
    TakeFirst(Got(s.bridge.received, h), s.bridge.buffered, s.wires[conn]);
  }

  lemma HandedFollows(s: System, conn: string, key: Key, c: Config, h: nat)
    requires conn in s.wires && s.wires[conn] != [] && s.bridge.pushSource == Some(conn)
    requires DistinctHandlers(s.bridge.handlers) && s.bridge.handlers != [] && s.bridge.buffered == []
    ensures var t := After(s, Deliver(conn), key, c);
            if h in s.bridge.handlers then Course(t, h) == Course(s, h) else |Course(t, h)| < |Course(s, h)|
  {
    var t := After(s, Deliver(conn), key, c);
    var got, wire := Got(s.bridge.received, h), s.wires[conn];
    TakeFirst(got, [], wire);
    CalledOnce(s.bridge.received, s.bridge.handlers, wire[0], h);
    assert Coming(s) == wire && Coming(t) == wire[1..] && got + [] == got;
  }

  lemma SubscribeFollows(s: System, g: nat, key: Key, c: Config, h: nat)
    ensures Accounted(s, Subscribe(g), key, c, h)
  {
    var t := After(s, Subscribe(g), key, c);
    var got, buffered, wire := Got(s.bridge.received, h), s.bridge.buffered, Wire(s);
    assert Wire(t) == wire && Course(s, h) == got + buffered + wire;
    assert got + buffered + wire + [] == got + buffered + wire;
    if t.bridge.buffered == buffered {
      assert Course(t, h) == got + buffered + wire;
    } else {
      assert Course(t, h) == Got(t.bridge.received, h) + wire;
    }
  }

  lemma WiresFollow(s: System, a: Action, key: Key, c: Config, h: nat)
    requires Possible(s, a) && (a.Open? || a.Connect? || a.RegisterFails? || a.Lose? || a.Unsubscribe? || a.Stop?)
    ensures Accounted(s, a, key, c, h)
  {
    var t := After(s, a, key, c);
    assert t.bridge.received == s.bridge.received && Course(s, h) + [] == Course(s, h);
    assert Wire(t) == Wire(s) || Wire(t) == [];
  }

  // Exactly when a step loses a turn for a handler.
  lemma StepLosesIff(s: System, a: Action, key: Key, c: Config, h: nat)
    requires Inv(s, key, c) && Possible(s, a)
    ensures Accounted(s, a, key, c, h)
  {
    match a {
      case Gate(g) => GateFollows(s, g, key, c, h);
      case Deliver(conn) => DeliverFollows(s, conn, key, c, h);
      case Subscribe(g) => SubscribeFollows(s, g, key, c, h);
      case _ => WiresFollow(s, a, key, c, h);
    }
  }

  // ------------------------------------------------------------ whole runs

  function ArrivalsOf(turns: seq<Push>): seq<nat> {
    seq(|turns|, i requires 0 <= i < |turns| => turns[i].inbound.arrival)
  }

  lemma {:induction false} TurnsArePushed(pushed: seq<Push>, key: Key)
    ensures ArrivalsOf(TurnsFor(pushed, key)) == P.PushedFor(pushed, key)
  {
    if pushed != [] { TurnsArePushed(pushed[..|pushed| - 1], key); }
  }

  function NewArrivals(s: System, a: Action, key: Key): seq<nat> {
    if a.Gate? then Arriving(s.world, a.action, key) else []
  }

  predicate StepKept(s: System, a: Action, key: Key, c: Config) {
    a.Gate? ==> KeptAtGate(s.world, a.action, key, c)
  }

  // The numbers of the messages of the key that arrived in the first n steps.
  function ArrivedFor(states: seq<System>, actions: seq<Action>, key: Key, n: nat): seq<nat>
    requires n <= |states| && n <= |actions|
  {
    Concatenated(seq(n, k requires 0 <= k < n => NewArrivals(states[k], actions[k], key)))
  }

  function Concatenated(parts: seq<seq<nat>>): seq<nat> {
    if parts == [] then [] else Concatenated(parts[..|parts| - 1]) + parts[|parts| - 1]
  }

  ghost predicate AllSafe(states: seq<System>, actions: seq<Action>, key: Key, c: Config, n: nat, h: nat)
    requires n <= |states| && n <= |actions|
  {
    forall k | 0 <= k < n :: Safe(states[k], actions[k], key, c, h)
  }

  ghost predicate AllKept(states: seq<System>, actions: seq<Action>, key: Key, c: Config, n: nat)
    requires n <= |states| && n <= |actions|
  {
    forall k | 0 <= k < n :: StepKept(states[k], actions[k], key, c)
  }

  // Over every run: the turns a handler got, followed by those buffered and those on the
  // wire, are all the turns ever pushed for the attachment exactly if no step lost one.
  lemma {:induction false} PushedReachIff(states: seq<System>, actions: seq<Action>, key: Key, c: Config, n: nat, h: nat)
    requires Trace(states, actions, key, c) && n < |states|
    ensures var turns := TurnsFor(states[n].world.pushed, key);
            if AllSafe(states, actions, key, c, n, h) then Course(states[n], h) == turns
            else |Course(states[n], h)| < |turns|
  {
    if n > 0 {
      var s, a := states[n - 1], actions[n - 1];
      PushedReachIff(states, actions, key, c, n - 1, h);
      TraceKeepsInv(states, actions, key, c, n - 1);
      assert StepOf(s, a, key, c, states[n - 1 + 1]);
      StepLosesIff(s, a, key, c, h);
      if a.Gate? { TurnsForBoth(s.world.pushed, P.NewPushes(s.world, a.action, c), key); }
      assert AllSafe(states, actions, key, c, n, h) <==>
             AllSafe(states, actions, key, c, n - 1, h) && Safe(s, a, key, c, h);
    }
  }

  // The gateway's part of one step of the system.
  lemma StepKeptIff(s: System, a: Action, key: Key, c: Config, t: System)
    requires Inv(s, key, c) && StepOf(s, a, key, c, t)
    ensures Grows(PushedOrParked(s.world, key), NewArrivals(s, a, key), PushedOrParked(t.world, key),
                  StepKept(s, a, key, c))
  {
    if a.Gate? {
      GateKeeps(s.world, a.action, key, c);
    } else {
      assert t.world == s.world;
      assert PushedOrParked(s.world, key) + [] == PushedOrParked(s.world, key);
    }
  }

  lemma TraceKeptIff(states: seq<System>, actions: seq<Action>, key: Key, c: Config, n: nat)
    requires Trace(states, actions, key, c) && n < |actions|
    ensures Grows(PushedOrParked(states[n].world, key), NewArrivals(states[n], actions[n], key),
                  PushedOrParked(states[n + 1].world, key), StepKept(states[n], actions[n], key, c))
  {
    TraceKeepsInv(states, actions, key, c, n);
    assert StepOf(states[n], actions[n], key, c, states[n + 1]);
    StepKeptIff(states[n], actions[n], key, c, states[n + 1]);
  }

  // A line that grows step by step holds all that came exactly if every step kept it.
  lemma {:induction false} GrowsAlong(lines: seq<seq<nat>>, more: seq<seq<nat>>, keeps: seq<bool>)
    requires |lines| == |more| + 1 && |keeps| == |more| && lines[0] == []
    requires forall k | 0 <= k < |more| :: Grows(lines[k], more[k], lines[k + 1], keeps[k])
    ensures Grows(Concatenated(more), [], lines[|more|], forall k | 0 <= k < |more| :: keeps[k])
  {
    if more != [] {
      var n := |more| - 1;
      GrowsAlong(lines[..n + 1], more[..n], keeps[..n]);
      assert Grows(lines[n], more[n], lines[n + 1], keeps[n]);
      GrowsFurther(Concatenated(more[..n]), lines[n], more[n], lines[n + 1], forall k | 0 <= k < n :: keeps[k], keeps[n]);
    }
  }

  lemma GrowsFurther(arrived: seq<nat>, before: seq<nat>, more: seq<nat>, after: seq<nat>, kept: bool, keeps: bool)
    requires Grows(arrived, [], before, kept) && Grows(before, more, after, keeps)
    ensures Grows(arrived + more, [], after, kept && keeps)
  {
    assert arrived + [] == arrived && arrived + more + [] == arrived + more;
  }

  lemma ArrivedKeptIff(states: seq<System>, actions: seq<Action>, key: Key, c: Config, n: nat)
    requires Trace(states, actions, key, c) && n < |states|
    ensures Grows(ArrivedFor(states, actions, key, n), [], PushedOrParked(states[n].world, key),
                  AllKept(states, actions, key, c, n))
  {
    var lines := seq(n + 1, k requires 0 <= k <= n => PushedOrParked(states[k].world, key));
    var keeps := seq(n, k requires 0 <= k < n => StepKept(states[k], actions[k], key, c));
    var more := seq(n, k requires 0 <= k < n => NewArrivals(states[k], actions[k], key));
    forall k | 0 <= k < n ensures Grows(lines[k], more[k], lines[k + 1], keeps[k]) {
      TraceKeptIff(states, actions, key, c, k);
    }
    GrowsAlong(lines, more, keeps);
    assert forall k | 0 <= k < n :: keeps[k] == StepKept(states[k], actions[k], key, c);
  }

  lemma LinesMeet(course: seq<Push>, turns: seq<Push>, waiting: seq<nat>, arrived: seq<nat>, safe: bool, kept: bool)
    requires if safe then course == turns else |course| < |turns|
    requires Grows(arrived, [], ArrivalsOf(turns) + waiting, kept)
    ensures ArrivalsOf(course) + waiting == arrived <==> safe && kept
  {
    assert arrived + [] == arrived;
    assert |ArrivalsOf(course) + waiting| == |course| + |waiting|;
  }

  // Every message that ever arrived for the attachment is, in order, with the subscriber,
  // in the buffer, on the wire or parked, exactly if the gateway kept all of them and no
  // step lost a turn.
  lemma EveryTurnArrivesIff(states: seq<System>, actions: seq<Action>, key: Key, c: Config, n: nat, h: nat)
    requires Trace(states, actions, key, c) && n < |states|
    ensures var s := states[n];
            ArrivalsOf(Got(s.bridge.received, h) + s.bridge.buffered + Wire(s)) + P.WaitingFor(s.world, key) ==
            ArrivedFor(states, actions, key, n)
            <==> AllSafe(states, actions, key, c, n, h) && AllKept(states, actions, key, c, n)
  {
    var s, arrived := states[n], ArrivedFor(states, actions, key, n);
    var safe, kept := AllSafe(states, actions, key, c, n, h), AllKept(states, actions, key, c, n);
    PushedReachIff(states, actions, key, c, n, h);
    ArrivedKeptIff(states, actions, key, c, n);
    TurnsArePushed(s.world.pushed, key);
    assert arrived + [] == arrived;
    LinesMeet(Course(s, h), TurnsFor(s.world.pushed, key), P.WaitingFor(s.world, key), arrived, safe, kept);
    assert Got(s.bridge.received, h) + s.bridge.buffered + Wire(s) == Course(s, h);
  }
}
