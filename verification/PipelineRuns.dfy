/** The dispatch pipeline over whole runs: per attachment key, turns are pushed in the
    order of arrival and none twice; while a runtime is active nothing is parked for
    it; and every turn in flight was really pushed. */
module PipelineRuns {
  import opened Wrappers
  import opened Bindings
  import opened Registry
  import opened Pipeline
  import B = BindingRuns

  // closed: the connections closed so far; arrivals: the messages that came in.
  datatype World = World(gateway: Gateway, closed: set<string>, pushed: seq<Push>, arrivals: nat)

  const START := World(Gateway(Store([], map[], 0), map[], [], 0), {}, [], 0)

  datatype Action =
    | Arrive(location: Location, idempotencyKey: string, key: Key, now: int)
    | Register(input: BindInput, now: int)
    | Unregister(runtimeId: string)
    | Close(connectionId: string, now: int)
    | Fire(timer: nat)
    | Complete(payload: TurnComplete)

  function Stored(w: World): B.World {
    B.World(w.gateway.store, w.closed)
  }

  // What a step is to the store.
  function StoreAction(a: Action): Option<B.Action> {
    match a
    case Register(x, now) => Some(B.Bind(x, now))
    case Unregister(runtimeId) => Some(B.Unbind(runtimeId))
    case Close(c, now) => Some(B.Close(c, now))
    case Fire(timer) => Some(B.Fire(timer))
    case _ => None
  }

  ghost predicate Possible(w: World, a: Action) {
    StoreAction(a).Some? ==> B.Possible(Stored(w), StoreAction(a).value)
  }

  function InboundOf(w: World, a: Action): Inbound
    requires a.Arrive?
  {
    Inbound(a.location, a.idempotencyKey, w.arrivals)
  }

  function NewPushes(w: World, a: Action, c: Config): seq<Push> {
    match a
    case Arrive(_, _, key, _) => PushesOfInbound(w.gateway, InboundOf(w, a), key, c)
    case Register(x, now) => if Conflict(w.gateway.store, x) then [] else PushesOfRegister(w.gateway, x, now, c)
    case _ => []
  }

  function GatewayAfter(w: World, a: Action, c: Config): Gateway {
    var g := w.gateway;
    match a
    case Arrive(_, _, key, now) => AfterInbound(g, InboundOf(w, a), key, now, c)
    case Register(x, now) => if Conflict(g.store, x) then g else AfterRegister(g, x, now, c)
    case Unregister(runtimeId) => AfterUnregister(g, runtimeId)
    case Close(conn, now) => g.(store := Closed(g.store, conn, now, c.gracePeriodMs))
    case Fire(timer) => if timer in g.store.alarms then g.(store := Fired(g.store, timer)) else g
    case Complete(payload) =>
      if DeliveredBy(g, payload) == Some(true) then g.(turns := g.turns - {payload.dispatchId}) else g
  }

  function After(w: World, a: Action, c: Config): World {
    World(GatewayAfter(w, a, c), if a.Close? then w.closed + {a.connectionId} else w.closed,
          w.pushed + NewPushes(w, a, c), if a.Arrive? then w.arrivals + 1 else w.arrivals)
  }

  // The store only changes by the moves of the slot state machine.
  lemma StoreFollows(w: World, a: Action, c: Config)
    ensures Stored(After(w, a, c)) ==
            if StoreAction(a).Some? then B.After(Stored(w), StoreAction(a).value, c.gracePeriodMs) else Stored(w)
  {
  }

  // ------------------------------------------------------------- the order

  predicate Ascending(s: seq<nat>) {
    forall i, j :: 0 <= i < j < |s| ==> s[i] < s[j]
  }

  predicate AllBelow(s: seq<nat>, n: nat) {
    forall x | x in s :: x < n
  }

  function Numbers(inbounds: seq<Inbound>): seq<nat> {
    seq(|inbounds|, i requires 0 <= i < |inbounds| => inbounds[i].arrival)
  }

  // The arrival numbers of the turns pushed for a key, in the order of pushing.
  function PushedFor(pushed: seq<Push>, key: Key): seq<nat> {
    if pushed == [] then []
    else
      var last := pushed[|pushed| - 1];
      PushedFor(pushed[..|pushed| - 1], key) + if last.key == key then [last.inbound.arrival] else []
  }

  // Pushed, then parked: everything of a key in the order of arrival; and nothing is
  // parked behind an active runtime.
  ghost predicate Line(pushed: seq<nat>, waiting: seq<nat>, arrivals: nat, active: bool) {
    Ascending(pushed + waiting) && AllBelow(pushed + waiting, arrivals) && (active ==> waiting == [])
  }

  function WaitingFor(w: World, key: Key): seq<nat> {
    Numbers(ParkedFor(w.gateway.queue, key))
  }

  ghost predicate InOrder(w: World, key: Key) {
    Line(PushedFor(w.pushed, key), WaitingFor(w, key), w.arrivals, ActiveAt(w.gateway.store, key))
  }

  lemma {:induction false} PushedForBoth(a: seq<Push>, b: seq<Push>, key: Key)
    ensures PushedFor(a + b, key) == PushedFor(a, key) + PushedFor(b, key)
  {
    if b == [] {
      assert a + b == a;
    } else {
      assert (a + b)[..|a + b| - 1] == a + b[..|b| - 1];
      PushedForBoth(a, b[..|b| - 1], key);
    }
  }

  lemma {:induction false} ElsewhereParked(queue: seq<Parked>, key: Key, other: Key)
    ensures ParkedFor(ParkedElsewhere(queue, key), other) == if other == key then [] else ParkedFor(queue, other)
  {
    if queue != [] {
      var front, last := queue[..|queue| - 1], queue[|queue| - 1];
      ElsewhereParked(front, key, other);
      var r := ParkedElsewhere(queue, key);
      if last.key != key {
        assert r[..|r| - 1] == ParkedElsewhere(front, key);
      } else {
        assert r == ParkedElsewhere(front, key);
      }
    }
  }

  // Dropping the end of an ascending line, or part of it, leaves it ascending.
  lemma AppendSmaller(p: seq<nat>, front: seq<nat>, last: nat, kept: seq<nat>)
    requires Ascending(p + (front + [last])) && Ascending(p + kept) && forall x | x in kept :: x in front
    ensures Ascending(p + (kept + [last]))
  {
    var line := p + (front + [last]);
    var at := |line| - 1;
    assert line[at] == last;
    forall x | x in p + kept ensures x < last {
      if x in p {
        var i :| 0 <= i < |p| && p[i] == x;
        assert line[i] == x;
      } else {
        var i :| 0 <= i < |front| && front[i] == x;
        assert line[|p| + i] == x;
      }
    }
    assert p + (kept + [last]) == (p + kept) + [last];
    assert forall i :: 0 <= i < |p + kept| ==> (p + kept)[i] in p + kept;
  }

  // The turns pushed by a drain are the parked messages, in order, some left out.
  lemma {:induction false} DrainPushesInOrder(g: Gateway, inbounds: seq<Inbound>, current: Runtime, key: Key, now: int,
                                              c: Config, p: seq<nat>)
    requires Ascending(p + Numbers(inbounds))
    ensures var n := PushedFor(PushesOfAll(g, inbounds, current, key, now, c), key);
            Ascending(p + n) && forall x | x in n :: x in Numbers(inbounds)
  {
    if inbounds == [] {
      assert Numbers(inbounds) == [];
    } else {
      var front, last := inbounds[..|inbounds| - 1], inbounds[|inbounds| - 1];
      var pushes := PushesOfAll(g, front, current, key, now, c);
      var more := PushesOf(AfterAll(g, front, current, key, now, c), last, current, key, c);
      assert Numbers(inbounds) == Numbers(front) + [last.arrival];
      PrefixAscends(p, Numbers(front), last.arrival);
      DrainPushesInOrder(g, front, current, key, now, c, p);
      var kept := PushedFor(pushes, key);
      AppendSmaller(p, Numbers(front), last.arrival, kept);
      PushedForMore(pushes, more, last, key);
      assert kept + [] == kept;
      assert PushedFor(pushes + more, key) == kept || PushedFor(pushes + more, key) == kept + [last.arrival];
    }
  }

  // One more turn at most.
  lemma PushedForMore(pushes: seq<Push>, more: seq<Push>, inbound: Inbound, key: Key)
    requires |more| <= 1 && forall push | push in more :: push.inbound == inbound
    ensures PushedFor(pushes + more, key) ==
            PushedFor(pushes, key) + if more != [] && more[0].key == key then [inbound.arrival] else []
  {
    PushedForBoth(pushes, more, key);
    if more != [] { assert more == [more[0]] && more[..0] == []; }
  }

  lemma PrefixAscends(p: seq<nat>, front: seq<nat>, last: nat)
    requires Ascending(p + (front + [last]))
    ensures Ascending(p + front)
  {
    assert p + front == (p + (front + [last]))[..|p + front|];
  }

  lemma {:induction false} DrainPushesKey(g: Gateway, inbounds: seq<Inbound>, current: Runtime, key: Key, now: int,
                                          c: Config, other: Key)
    requires other != key
    ensures PushedFor(PushesOfAll(g, inbounds, current, key, now, c), other) == []
  {
    if inbounds != [] {
      var front, last := inbounds[..|inbounds| - 1], inbounds[|inbounds| - 1];
      var more := PushesOf(AfterAll(g, front, current, key, now, c), last, current, key, c);
      DrainPushesKey(g, front, current, key, now, c, other);
      PushedForBoth(PushesOfAll(g, front, current, key, now, c), more, other);
      assert more == [] || more[..0] == [];
    }
  }

  // -------------------------------------------------------------- each step

  lemma ArriveInOrder(w: World, a: Action, c: Config, key: Key)
    requires a.Arrive? && InOrder(w, key)
    ensures InOrder(After(w, a, c), key)
  {
    var v := After(w, a, c);
    var more := NewPushes(w, a, c);
    var p, waiting := PushedFor(w.pushed, key), WaitingFor(w, key);
    LineGrows(p, waiting, w.arrivals, ActiveAt(w.gateway.store, key));
    PushedForMore(w.pushed, more, InboundOf(w, a), key);
    ParkedMore(w, a, c, key);
    assert p + [] == p && waiting + [] == waiting;
  }

  // A message is pushed, parked or dropped, and parked only when no runtime is active.
  lemma ParkedMore(w: World, a: Action, c: Config, key: Key)
    requires a.Arrive?
    ensures var v := After(w, a, c);
            && ActiveAt(v.gateway.store, key) == ActiveAt(w.gateway.store, key)
            && (WaitingFor(v, key) == WaitingFor(w, key) ||
                (!ActiveAt(w.gateway.store, key) && NewPushes(w, a, c) == [] &&
                 WaitingFor(v, key) == WaitingFor(w, key) + [w.arrivals]))
            && (NewPushes(w, a, c) != [] ==> ActiveAt(w.gateway.store, NewPushes(w, a, c)[0].key))
  {
    var q, q' := w.gateway.queue, After(w, a, c).gateway.queue;
    if q' != q {
      assert q'[..|q'| - 1] == q;
      if a.key == key {
        assert Numbers(ParkedFor(q', key)) == Numbers(ParkedFor(q, key)) + [w.arrivals];
      } else {
        assert ParkedFor(q', key) == ParkedFor(q, key);
      }
    }
  }

  lemma LineGrows(p: seq<nat>, waiting: seq<nat>, n: nat, active: bool)
    requires Line(p, waiting, n, active)
    ensures Line(p, waiting, n + 1, active)
    ensures !active ==> Line(p, waiting + [n], n + 1, active)
    ensures active ==> Line(p + [n], waiting, n + 1, active)
  {
    var line := p + waiting;
    assert p + (waiting + [n]) == line + [n];
    assert waiting == [] ==> p + [n] + waiting == line + [n];
    assert forall i :: 0 <= i < |line| ==> line[i] in line;
  }

  lemma RegisterInOrder(w: World, x: BindInput, now: int, c: Config, key: Key)
    requires InOrder(w, key) && !Conflict(w.gateway.store, x)
    ensures InOrder(After(w, Register(x, now), c), key)
  {
    var v := After(w, Register(x, now), c);
    var g := w.gateway.(store := Bound(w.gateway.store, x, now));
    BoundSlots(w.gateway.store, x, now, key);
    var current := Current(g, x.key).value;
    var start := g.(queue := ParkedElsewhere(g.queue, x.key));
    ElsewhereParked(g.queue, x.key, key);
    PushedForBoth(w.pushed, NewPushes(w, Register(x, now), c), key);
    if key == x.key {
      DrainLine(start, ParkedFor(g.queue, key), current, key, now, c, PushedFor(w.pushed, key), w.arrivals);
    } else {
      DrainPushesKey(start, ParkedFor(g.queue, x.key), current, x.key, now, c, key);
      assert PushedFor(v.pushed, key) == PushedFor(w.pushed, key);
    }
  }

  lemma DrainLine(g: Gateway, inbounds: seq<Inbound>, current: Runtime, key: Key, now: int, c: Config,
                  p: seq<nat>, arrivals: nat)
    requires Ascending(p + Numbers(inbounds)) && AllBelow(p + Numbers(inbounds), arrivals)
    ensures Line(p + PushedFor(PushesOfAll(g, inbounds, current, key, now, c), key), Numbers([]), arrivals, true)
  {
    DrainPushesInOrder(g, inbounds, current, key, now, c, p);
    var n := PushedFor(PushesOfAll(g, inbounds, current, key, now, c), key);
    assert Numbers([]) == [] && (p + n) + [] == p + n;
    assert forall x | x in Numbers(inbounds) :: x in p + Numbers(inbounds);
    assert forall x | x in p :: x in p + Numbers(inbounds);
  }

  lemma BoundSlots(s: Store, x: BindInput, now: int, key: Key)
    requires !Conflict(s, x)
    ensures ActiveAt(Bound(s, x, now), x.key)
    ensures key != x.key ==> SlotAt(Bound(s, x, now).slots, ByKey(key)) == SlotAt(s.slots, ByKey(key))
  {
    var i := Find(s.slots, ByKey(x.key));
    if i == |s.slots| {
      FindAppended(s.slots, BoundSlot(None, x, now), ByKey(key));
      FindAppended(s.slots, BoundSlot(None, x, now), ByKey(x.key));
    } else {
      B.FindUpdated(s.slots, i, BoundSlot(Some(s.slots[i]), x, now), key);
      B.FindUpdated(s.slots, i, BoundSlot(Some(s.slots[i]), x, now), x.key);
    }
  }

  // Only a registration makes a slot active.
  lemma NoActivation(w: World, a: Action, c: Config, key: Key)
    requires B.Inv(Stored(w)) && Possible(w, a) && !a.Register?
    ensures ActiveAt(After(w, a, c).gateway.store, key) ==> ActiveAt(w.gateway.store, key)
  {
    StoreFollows(w, a, c);
    if StoreAction(a).Some? {
      B.EpochStep(Stored(w), StoreAction(a).value, c.gracePeriodMs, key);
      NoSwitch(w, a, c, key);
    }
  }

  lemma NoSwitch(w: World, a: Action, c: Config, key: Key)
    requires B.Inv(Stored(w)) && Possible(w, a) && (a.Unregister? || a.Close? || a.Fire?)
    ensures ActiveAt(After(w, a, c).gateway.store, key) ==> ActiveAt(w.gateway.store, key)
  {
    var s := w.gateway.store;
    match a {
      case Unregister(runtimeId) =>
        var i := Find(s.slots, ByRuntime(runtimeId));
        if i < |s.slots| { B.FindWithout(s.slots, i, key); }
      case Close(conn, now) =>
        var i := Find(s.slots, ByConnection(conn));
        if i < |s.slots| {
          if c.gracePeriodMs <= 0 { B.FindWithout(s.slots, i, key); }
          else { B.FindUpdated(s.slots, i, StaleSlot(s.slots[i], conn, now, s.nextAlarm), key); }
        }
      case Fire(timer) =>
        var i := B.TimerOwner(Stored(w), timer);
        B.FindWithout(s.slots, i, key);
    }
  }

  lemma StepInOrder(w: World, a: Action, c: Config, key: Key)
    requires B.Inv(Stored(w)) && Possible(w, a) && InOrder(w, key)
    ensures InOrder(After(w, a, c), key)
  {
    if a.Arrive? {
      ArriveInOrder(w, a, c, key);
    } else if a.Register? && !Conflict(w.gateway.store, a.input) {
      RegisterInOrder(w, a.input, a.now, c, key);
    } else {
      QuietInOrder(w, a, c, key);
    }
  }

  lemma QuietInOrder(w: World, a: Action, c: Config, key: Key)
    requires B.Inv(Stored(w)) && Possible(w, a) && InOrder(w, key)
    requires !a.Arrive? && (a.Register? ==> Conflict(w.gateway.store, a.input))
    ensures InOrder(After(w, a, c), key)
  {
    var v := After(w, a, c);
    assert v.pushed == w.pushed && v.gateway.queue == w.gateway.queue && v.arrivals == w.arrivals;
    if !a.Register? { NoActivation(w, a, c, key); }
  }

  // ------------------------------------------------------ turns are pushed

  predicate TurnOf(d: Dispatch, push: Push) {
    d.dispatchId == push.dispatchId && d.location == push.inbound.location && d.attachmentKey == push.key
  }

  // The n-th id minted is that of the n-th push, and every turn in flight was pushed.
  ghost predicate Matched(g: Gateway, pushed: seq<Push>, c: Config) {
    && |pushed| == g.minted
    && (forall k :: 0 <= k < |pushed| ==> pushed[k].dispatchId == c.idFactory(k))
    && (forall id | id in g.turns :: g.turns[id].dispatchId == id && IsPushed(g.turns[id], pushed))
  }

  predicate IsPushed(d: Dispatch, pushed: seq<Push>) {
    exists k | 0 <= k < |pushed| :: TurnOf(d, pushed[k])
  }

  lemma StillPushed(d: Dispatch, pushed: seq<Push>, more: seq<Push>)
    requires IsPushed(d, pushed)
    ensures IsPushed(d, pushed + more)
  {
    var k :| 0 <= k < |pushed| && TurnOf(d, pushed[k]);
    assert (pushed + more)[k] == pushed[k];
  }

  lemma DispatchMatched(g: Gateway, pushed: seq<Push>, inbound: Inbound, current: Runtime, key: Key, now: int, c: Config)
    requires Matched(g, pushed, c) && PushTarget(g.store, key).Some?
    ensures Matched(AfterDispatch(g, inbound, current, key, now, c), pushed + PushesOf(g, inbound, current, key, c), c)
  {
    var h, more := AfterDispatch(g, inbound, current, key, now, c), PushesOf(g, inbound, current, key, c);
    if more == [] {
      assert pushed + more == pushed;
    } else {
      forall id | id in h.turns ensures h.turns[id].dispatchId == id && IsPushed(h.turns[id], pushed + more) {
        if id == more[0].dispatchId {
          assert TurnOf(h.turns[id], (pushed + more)[|pushed|]);
        } else {
          StillPushed(g.turns[id], pushed, more);
        }
      }
    }
  }

  lemma {:induction false} AllMatched(g: Gateway, pushed: seq<Push>, inbounds: seq<Inbound>, current: Runtime, key: Key,
                                      now: int, c: Config)
    requires Matched(g, pushed, c) && PushTarget(g.store, key).Some?
    ensures Matched(AfterAll(g, inbounds, current, key, now, c),
                    pushed + PushesOfAll(g, inbounds, current, key, now, c), c)
  {
    if inbounds == [] {
      assert pushed + [] == pushed;
    } else {
      var front, last := inbounds[..|inbounds| - 1], inbounds[|inbounds| - 1];
      var h := AfterAll(g, front, current, key, now, c);
      var pushes := PushesOfAll(g, front, current, key, now, c);
      AllMatched(g, pushed, front, current, key, now, c);
      DispatchMatched(h, pushed + pushes, last, current, key, now, c);
      assert pushed + (pushes + PushesOf(h, last, current, key, c)) == pushed + pushes + PushesOf(h, last, current, key, c);
    }
  }

  // A push to an active slot is written to its open connection.
  lemma ActivePushes(w: B.World, key: Key)
    requires B.Inv(w) && ActiveAt(w.store, key)
    ensures PushTarget(w.store, key) == Some(SlotAt(w.store.slots, ByKey(key)).value.binding.connectionId)
    ensures PushTarget(w.store, key).value !in w.closed
  {
    var slot := SlotAt(w.store.slots, ByKey(key)).value;
    assert slot in B.SlotSet(w.store.slots);
    assert B.SlotOk(slot, w.store.alarms, w.closed);
  }

  lemma StepMatched(w: World, a: Action, c: Config)
    requires B.Inv(Stored(w)) && Possible(w, a) && Matched(w.gateway, w.pushed, c)
    ensures Matched(After(w, a, c).gateway, After(w, a, c).pushed, c)
  {
    var g, v := w.gateway, After(w, a, c);
    match a {
      case Arrive(_, _, key, now) =>
        if Current(g, key).Some? {
          ActivePushes(Stored(w), key);
          DispatchMatched(g, w.pushed, InboundOf(w, a), Current(g, key).value, key, now, c);
        } else {
          assert v.pushed == w.pushed && v.gateway.turns == g.turns && v.gateway.minted == g.minted;
        }
      case Register(x, now) =>
        if !Conflict(g.store, x) { RegisterMatched(w, x, now, c); }
        else { assert v.pushed == w.pushed; }
      case _ =>
        assert v.pushed == w.pushed && v.gateway.minted == g.minted;
        assert forall id | id in v.gateway.turns :: id in g.turns && v.gateway.turns[id] == g.turns[id];
    }
  }

  lemma RegisterMatched(w: World, x: BindInput, now: int, c: Config)
    requires B.Inv(Stored(w)) && Possible(w, Register(x, now)) && Matched(w.gateway, w.pushed, c)
    requires !Conflict(w.gateway.store, x)
    ensures Matched(After(w, Register(x, now), c).gateway, After(w, Register(x, now), c).pushed, c)
  {
    var g := w.gateway.(store := Bound(w.gateway.store, x, now));
    B.StepKeepsInv(Stored(w), B.Bind(x, now), c.gracePeriodMs);
    BoundSlots(w.gateway.store, x, now, x.key);
    ActivePushes(B.World(g.store, w.closed), x.key);
    var start := g.(queue := ParkedElsewhere(g.queue, x.key));
    AllMatched(start, w.pushed, ParkedFor(g.queue, x.key), Current(g, x.key).value, x.key, now, c);
  }

  // ------------------------------------------------------------ whole runs

  ghost predicate Inv(w: World, c: Config) {
    B.Inv(Stored(w)) && (forall key :: InOrder(w, key)) && Matched(w.gateway, w.pushed, c)
  }

  lemma StartInv(c: Config)
    ensures Inv(START, c)
  {
  }

  lemma StepKeepsInv(w: World, a: Action, c: Config)
    requires Inv(w, c) && Possible(w, a)
    ensures Inv(After(w, a, c), c)
  {
    StoreFollows(w, a, c);
    if StoreAction(a).Some? { B.StepKeepsInv(Stored(w), StoreAction(a).value, c.gracePeriodMs); }
    forall key ensures InOrder(After(w, a, c), key) { StepInOrder(w, a, c, key); }
    StepMatched(w, a, c);
  }

  ghost predicate StepOf(w: World, a: Action, c: Config, v: World) {
    Possible(w, a) && v == After(w, a, c)
  }

  ghost predicate Trace(worlds: seq<World>, actions: seq<Action>, c: Config) {
    && |worlds| == |actions| + 1 && worlds[0] == START
    && forall k :: 0 <= k < |actions| ==> StepOf(worlds[k], actions[k], c, worlds[k + 1])
  }

  // For every run and every key: turns are pushed in strictly rising order of arrival,
  // an active runtime has nothing parked, and every turn in flight was pushed.
  lemma {:induction false} TraceKeepsInv(worlds: seq<World>, actions: seq<Action>, c: Config, n: nat)
    requires Trace(worlds, actions, c) && n < |worlds|
    ensures Inv(worlds[n], c)
    ensures forall key :: Ascending(PushedFor(worlds[n].pushed, key))
  {
    if n == 0 {
      StartInv(c);
    } else {
      TraceKeepsInv(worlds, actions, c, n - 1);
      assert StepOf(worlds[n - 1], actions[n - 1], c, worlds[n - 1 + 1]);
      StepKeepsInv(worlds[n - 1], actions[n - 1], c);
    }
    forall key ensures Ascending(PushedFor(worlds[n].pushed, key)) {
      assert InOrder(worlds[n], key);
      var p := PushedFor(worlds[n].pushed, key);
      assert p == (p + WaitingFor(worlds[n], key))[..|p|];
    }
  }

  // A completed turn is answered where its message came from, whatever location the
  // runtime claims, and only on behalf of the runtime it was dispatched to.
  lemma ReplyGoesToOrigin(w: World, payload: TurnComplete, c: Config)
    requires Inv(w, c) && DeliveredBy(w.gateway, payload) == Some(true)
    ensures var turn := w.gateway.turns[payload.dispatchId];
            && turn.runtimeId == payload.runtimeId
            && exists k | 0 <= k < |w.pushed| ::
                 w.pushed[k].dispatchId == payload.dispatchId && w.pushed[k].inbound.location == turn.location
    ensures DeliveredBy(After(w, Action.Complete(payload), c).gateway, payload) == Some(false)
  {
    var turn := w.gateway.turns[payload.dispatchId];
    assert IsPushed(turn, w.pushed);
    var k :| 0 <= k < |w.pushed| && TurnOf(turn, w.pushed[k]);
    assert w.pushed[k].dispatchId == payload.dispatchId;
  }

  // When a grace period runs out the turns of the runtime stay in flight; only
  // unregistering clears them.
  lemma ExpiryKeepsTurns(w: World, timer: nat, c: Config)
    requires Inv(w, c) && timer in w.gateway.store.alarms
    ensures After(w, Fire(timer), c).gateway.turns == w.gateway.turns
    ensures exists slot | slot in w.gateway.store.slots :: slot !in After(w, Fire(timer), c).gateway.store.slots
  {
    var i := B.TimerOwner(Stored(w), timer);
    B.WithoutSet(w.gateway.store.slots, i);
    var slot := w.gateway.store.slots[i];
    assert slot !in B.SlotSet(SlotsWithout(w.gateway.store.slots, i));
  }

  // ----------------------------------------------------- the parked messages

  // At most as many as may be parked, and none that is another one sent again.
  ghost predicate QueueOk(queue: seq<Parked>, c: Config) {
    && |queue| <= c.maxEntries
    && forall i, j | 0 <= i < j < |queue| ::
         queue[i].inbound.location.channelId == queue[j].inbound.location.channelId &&
         queue[i].inbound.location.accountId == queue[j].inbound.location.accountId ==>
           queue[i].inbound.idempotencyKey != queue[j].inbound.idempotencyKey
  }

  lemma {:induction false} ElsewhereAt(queue: seq<Parked>, key: Key) returns (at: seq<nat>)
    ensures |at| == |ParkedElsewhere(queue, key)|
    ensures forall j, k | 0 <= j < k < |at| :: at[j] < at[k]
    ensures forall k | 0 <= k < |at| :: at[k] < |queue| && ParkedElsewhere(queue, key)[k] == queue[at[k]]
  {
    if queue == [] {
      at := [];
    } else {
      var last := |queue| - 1;
      at := ElsewhereAt(queue[..last], key);
      assert forall k | 0 <= k < |at| :: queue[..last][at[k]] == queue[at[k]];
      if queue[last].key != key { at := at + [last]; }
    }
  }

  lemma ElsewhereOk(queue: seq<Parked>, key: Key, c: Config)
    requires QueueOk(queue, c)
    ensures QueueOk(ParkedElsewhere(queue, key), c)
  {
    var at := ElsewhereAt(queue, key);
    if at != [] { RisingReaches(at, |at| - 1); }
  }

  lemma {:induction false} RisingReaches(at: seq<nat>, k: nat)
    requires k < |at| && forall i, j | 0 <= i < j < |at| :: at[i] < at[j]
    ensures k <= at[k]
  {
    if k > 0 { RisingReaches(at, k - 1); }
  }

  // In every run the queue stays within its size and holds no message twice.
  lemma {:induction false} QueueStaysOk(worlds: seq<World>, actions: seq<Action>, c: Config, n: nat)
    requires Trace(worlds, actions, c) && n < |worlds|
    ensures QueueOk(worlds[n].gateway.queue, c)
  {
    if n > 0 {
      QueueStaysOk(worlds, actions, c, n - 1);
      assert StepOf(worlds[n - 1], actions[n - 1], c, worlds[n - 1 + 1]);
      StepKeepsQueue(worlds[n - 1], actions[n - 1], c);
    }
  }

  lemma StepKeepsQueue(w: World, a: Action, c: Config)
    requires QueueOk(w.gateway.queue, c)
    ensures QueueOk(After(w, a, c).gateway.queue, c)
  {
    match a {
      case Arrive(_, _, key, _) => ParkedOneOk(w.gateway.queue, Parked(key, InboundOf(w, a)), c);
      case Register(x, _) => ElsewhereOk(w.gateway.queue, x.key, c);
      case _ =>
    }
  }

  lemma ParkedOneOk(queue: seq<Parked>, row: Parked, c: Config)
    requires QueueOk(queue, c)
    ensures |queue| < c.maxEntries && !IsParked(queue, row.inbound) ==> QueueOk(queue + [row], c)
  {
    assert !IsParked(queue, row.inbound) ==> forall i | 0 <= i < |queue| :: !Repeats(queue[i].inbound, row.inbound);
  }
}
