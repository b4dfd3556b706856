/** The gateway's dispatch pipeline: an inbound message is pushed to the runtime of its
    slot, or parked until one registers. Functions say what each operation does to the
    store, the turns in flight and the parked messages, and what it pushes. */
module Pipeline {
  import opened Wrappers
  import opened Bindings
  import opened Registry

  // The arrival number stands for the content of the message.
  datatype Inbound = Inbound(location: Location, idempotencyKey: string, arrival: nat)

  datatype Parked = Parked(key: Key, inbound: Inbound)

  // A turn written to a connection.
  datatype Push = Push(target: string, key: Key, dispatchId: string, sessionKey: string, agentId: string,
                       inbound: Inbound)

  datatype Gateway = Gateway(store: Store, turns: Turns, queue: seq<Parked>, minted: nat)

  datatype Config = Config(
    gracePeriodMs: int, maxEntries: nat,
    sessionKeyOf: Location -> string, resolveAgent: (string, string, string) -> string, idFactory: nat -> string)

  datatype Result = Dispatched(dispatchId: string, sessionKey: string) | Queued | NoDefaultAgent | NoRuntime | QueueFull

  // ------------------------------------------------------- inbound messages

  // The one is the other sent again: same channel, same account, same idempotency key.
  predicate Repeats(a: Inbound, b: Inbound) {
    && a.location.channelId == b.location.channelId && a.location.accountId == b.location.accountId
    && a.idempotencyKey == b.idempotencyKey
  }

  predicate IsParked(queue: seq<Parked>, inbound: Inbound) {
    exists i | 0 <= i < |queue| :: Repeats(queue[i].inbound, inbound)
  }

  function ParkedFor(queue: seq<Parked>, key: Key): seq<Inbound> {
    if queue == [] then []
    else
      var last := queue[|queue| - 1];
      ParkedFor(queue[..|queue| - 1], key) + if last.key == key then [last.inbound] else []
  }

  function ParkedElsewhere(queue: seq<Parked>, key: Key): seq<Parked> {
    if queue == [] then []
    else
      var last := queue[|queue| - 1];
      ParkedElsewhere(queue[..|queue| - 1], key) + if last.key == key then [] else [last]
  }

  function Agent(inbound: Inbound, current: Runtime, c: Config): string {
    c.resolveAgent(c.sessionKeyOf(inbound.location), inbound.location.channelId, current.defaultAgentId)
  }

  function TurnFor(inbound: Inbound, current: Runtime, key: Key, id: string, now: int, c: Config): Dispatch {
    Dispatch(id, c.sessionKeyOf(inbound.location), Agent(inbound, current, c), current.runtimeId, key,
             inbound.location, now)
  }

  function AfterDispatch(g: Gateway, inbound: Inbound, current: Runtime, key: Key, now: int, c: Config): Gateway {
    if Agent(inbound, current, c) == "" then g
    else
      var id := c.idFactory(g.minted);
      g.(turns := g.turns[id := TurnFor(inbound, current, key, id, now, c)], minted := g.minted + 1)
  }

  function PushesOf(g: Gateway, inbound: Inbound, current: Runtime, key: Key, c: Config): seq<Push> {
    var target := PushTarget(g.store, key);
    if Agent(inbound, current, c) == "" || target.None? then []
    else
      [Push(target.value, key, c.idFactory(g.minted), c.sessionKeyOf(inbound.location), Agent(inbound, current, c),
            inbound)]
  }

  function AfterAll(g: Gateway, inbounds: seq<Inbound>, current: Runtime, key: Key, now: int, c: Config): (r: Gateway)
    ensures r.store == g.store && r.queue == g.queue
  {
    if inbounds == [] then g
    else
      var front := AfterAll(g, inbounds[..|inbounds| - 1], current, key, now, c);
      AfterDispatch(front, inbounds[|inbounds| - 1], current, key, now, c)
  }

  function PushesOfAll(g: Gateway, inbounds: seq<Inbound>, current: Runtime, key: Key, now: int, c: Config): seq<Push> {
    if inbounds == [] then []
    else
      var front := inbounds[..|inbounds| - 1];
      PushesOfAll(g, front, current, key, now, c) +
      PushesOf(AfterAll(g, front, current, key, now, c), inbounds[|inbounds| - 1], current, key, c)
  }

  function Current(g: Gateway, key: Key): Option<Runtime> {
    var slot := SlotAt(g.store.slots, ByKey(key));
    if slot.Some? && slot.value.binding.Active? then Some(slot.value.runtime) else None
  }

  function AfterInbound(g: Gateway, inbound: Inbound, key: Key, now: int, c: Config): Gateway {
    var current := Current(g, key);
    if current.Some? then AfterDispatch(g, inbound, current.value, key, now, c)
    else if |g.queue| >= c.maxEntries || IsParked(g.queue, inbound) then g
    else g.(queue := g.queue + [Parked(key, inbound)])
  }

  function PushesOfInbound(g: Gateway, inbound: Inbound, key: Key, c: Config): seq<Push> {
    var current := Current(g, key);
    if current.Some? then PushesOf(g, inbound, current.value, key, c) else []
  }

  function AfterDrain(g: Gateway, key: Key, now: int, c: Config): Gateway {
    var current := Current(g, key);
    if current.None? then g
    else AfterAll(g.(queue := ParkedElsewhere(g.queue, key)), ParkedFor(g.queue, key), current.value, key, now, c)
  }

  function PushesOfDrain(g: Gateway, key: Key, now: int, c: Config): seq<Push> {
    var current := Current(g, key);
    if current.None? then []
    else PushesOfAll(g.(queue := ParkedElsewhere(g.queue, key)), ParkedFor(g.queue, key), current.value, key, now, c)
  }

  // --------------------------------------------------------------- classes

  // The push tells the runtime of this turn and hands it the message.
  predicate IsFor(push: Push, turn: Dispatch, inbound: Inbound) {
    && push.dispatchId == turn.dispatchId && push.sessionKey == turn.sessionKey && push.agentId == turn.agentId
    && push.key == turn.attachmentKey && push.inbound == inbound && turn.location == inbound.location
  }

  class InboundQueue {
    const maxEntries: nat
    var rows: seq<Parked>

    constructor (maxEntries: nat)
      ensures this.maxEntries == maxEntries && rows == []
    {
      this.maxEntries, rows := maxEntries, [];
    }

    method Enqueue(inbound: Inbound, key: Key) returns (r: Result)
      modifies this
      ensures r == if |old(rows)| >= maxEntries then QueueFull
                   else if IsParked(old(rows), inbound) then NoRuntime else Queued
      ensures rows == old(rows) + if r.Queued? then [Parked(key, inbound)] else []
    {
      if |rows| >= maxEntries { return QueueFull; }
      if IsParked(rows, inbound) { return NoRuntime; }
      rows := rows + [Parked(key, inbound)];
      return Queued;
    }

    method Drain(key: Key) returns (parked: seq<Inbound>)
      modifies this
      ensures parked == ParkedFor(old(rows), key) && rows == ParkedElsewhere(old(rows), key)
    {
      parked, rows := ParkedFor(rows, key), ParkedElsewhere(rows, key);
    }
  }

  datatype Reply = Reply(location: Location, text: string, idempotencyKey: string)

  datatype TurnComplete = TurnComplete(runtimeId: string, dispatchId: string, location: Location, text: string,
                                       idempotencyKey: string)

  class DispatchPipeline {
    const config: Config
    const bindingStore: RuntimeBindingStore
    const registry: SessionRegistry
    const inboundQueue: InboundQueue
    var minted: nat
    // Everything written to a push handle so far, and every reply sent out.
    var pushed: seq<Push>
    var replies: seq<Reply>

    ghost function Repr(): set<object> {
      {this, bindingStore, registry, inboundQueue}
    }

    function Value(): Gateway
      reads Repr()
    {
      Gateway(bindingStore.Value(), registry.dispatches, inboundQueue.rows, minted)
    }

    ghost predicate Valid() {
      config.gracePeriodMs == bindingStore.gracePeriodMs && config.maxEntries == inboundQueue.maxEntries
    }

    constructor (config: Config)
      ensures Valid() && fresh(Repr()) && this.config == config
      ensures Value() == Gateway(Store([], map[], 0), map[], [], 0) && pushed == [] && replies == []
    {
      this.config := config;
      bindingStore := new RuntimeBindingStore(config.gracePeriodMs);
      registry := new SessionRegistry();
      inboundQueue := new InboundQueue(config.maxEntries);
      minted, pushed, replies := 0, [], [];
    }

    method DispatchInboundToRuntime(inbound: Inbound, current: Runtime, key: Key, now: int) returns (r: Result)
      requires Valid()
      modifies this, registry
      ensures Value() == AfterDispatch(old(Value()), inbound, current, key, now, config)
      ensures pushed == old(pushed) + old(PushesOf(Value(), inbound, current, key, config))
      ensures replies == old(replies)
      ensures r == if Agent(inbound, current, config) == "" then NoDefaultAgent
                   else Dispatched(config.idFactory(old(minted)), config.sessionKeyOf(inbound.location))
      ensures r.Dispatched? ==>
                && r.dispatchId in registry.dispatches
                && var turn := registry.dispatches[r.dispatchId];
                   && turn.runtimeId == current.runtimeId && turn.sessionKey == r.sessionKey
                   && turn.agentId == config.resolveAgent(r.sessionKey, inbound.location.channelId, current.defaultAgentId)
                   && turn.location == inbound.location && turn.attachmentKey == key && turn.createdAt == now
                   && forall push | push in pushed[|old(pushed)|..] :: IsFor(push, turn, inbound)
    {
      var agentId := Agent(inbound, current, config);
      if agentId == "" { return NoDefaultAgent; }
      var entry := TurnFor(inbound, current, key, config.idFactory(minted), now, config);
      minted := minted + 1;
      registry.BeginDispatch(entry);
      var target := bindingStore.PushTo(key);
      if target.Some? {
        pushed := pushed + [Push(target.value, key, entry.dispatchId, entry.sessionKey, agentId, inbound)];
      }
      return Dispatched(entry.dispatchId, entry.sessionKey);
    }

    method CurrentRuntime(key: Key) returns (current: Option<Runtime>)
      ensures current == Current(Value(), key)
    {
      var i := bindingStore.IndexOf(ByKey(key));
      if i == |bindingStore.slots| || !bindingStore.slots[i].binding.Active? { return None; }
      return Some(bindingStore.slots[i].runtime);
    }

    method HandleInbound(inbound: Inbound, key: Key, now: int) returns (r: Result)
      requires Valid()
      modifies Repr()
      ensures Value() == AfterInbound(old(Value()), inbound, key, now, config)
      ensures pushed == old(pushed) + old(PushesOfInbound(Value(), inbound, key, config))
      ensures replies == old(replies)
      ensures old(Current(Value(), key)).Some? ==> r.Dispatched? || r.NoDefaultAgent?
      ensures old(Current(Value(), key)).None? ==>
                && (r.QueueFull? <==> |old(inboundQueue.rows)| >= config.maxEntries)
                && (r.NoRuntime? <==> |old(inboundQueue.rows)| < config.maxEntries &&
                                      exists row | row in old(inboundQueue.rows) ::
                                        row.inbound.location.channelId == inbound.location.channelId &&
                                        row.inbound.location.accountId == inbound.location.accountId &&
                                        row.inbound.idempotencyKey == inbound.idempotencyKey)
                && (r.Queued? <==> !r.QueueFull? && !r.NoRuntime?)
    {
      var current := CurrentRuntime(key);
      if current.None? {
        r := inboundQueue.Enqueue(inbound, key);
      } else {
        r := DispatchInboundToRuntime(inbound, current.value, key, now);
      }
    }

    method DrainPending(key: Key, now: int)
      requires Valid()
      modifies Repr()
      ensures Value() == AfterDrain(old(Value()), key, now, config)
      ensures pushed == old(pushed) + old(PushesOfDrain(Value(), key, now, config))
      ensures replies == old(replies)
    {
      var current := CurrentRuntime(key);
      if current.None? { return; }
      var parked := inboundQueue.Drain(key);
      DispatchParked(parked, current.value, key, now);
    }

    // The loop of the drain.
    method DispatchParked(parked: seq<Inbound>, current: Runtime, key: Key, now: int)
      requires Valid()
      modifies this, registry
      ensures Value() == AfterAll(old(Value()), parked, current, key, now, config)
      ensures pushed == old(pushed) + PushesOfAll(old(Value()), parked, current, key, now, config)
      ensures replies == old(replies)
    {
      ghost var start := Value();
      for i := 0 to |parked|
        invariant Value() == AfterAll(start, parked[..i], current, key, now, config)
        invariant pushed == old(pushed) + PushesOfAll(start, parked[..i], current, key, now, config)
        invariant replies == old(replies)
      {
        assert parked[..i + 1][..i] == parked[..i];
        var _ := DispatchInboundToRuntime(parked[i], current, key, now);
      }
      assert parked[..|parked|] == parked;
    }

    method RegisterRuntime(x: BindInput, now: int) returns (r: BindResult)
      requires Valid()
      modifies Repr()
      ensures r.AlreadyRegistered? <==> old(Conflict(Value().store, x))
      ensures Value() == if r.AlreadyRegistered? then old(Value()) else AfterRegister(old(Value()), x, now, config)
      ensures pushed == old(pushed) +
                        if r.AlreadyRegistered? then [] else old(PushesOfRegister(Value(), x, now, config))
      ensures replies == old(replies)
    {
      r := bindingStore.Bind(x, now);
      if r.AlreadyRegistered? { return; }
      DrainPending(x.key, now);
    }

    method UnregisterRuntime(runtimeId: string) returns (registered: bool)
      requires Valid()
      modifies Repr()
      ensures registered <==> old(SlotAt(Value().store.slots, ByRuntime(runtimeId))).Some?
      ensures Value() == AfterUnregister(old(Value()), runtimeId)
      ensures pushed == old(pushed) && replies == old(replies)
    {
      registered := bindingStore.Unbind(runtimeId);
      if registered { registry.ClearDispatchesFor(runtimeId); }
    }

    method NotifyConnectionClosed(connectionId: string, now: int)
      requires Valid()
      modifies Repr()
      ensures Value() == old(Value()).(store := Closed(old(Value()).store, connectionId, now, config.gracePeriodMs))
      ensures pushed == old(pushed) && replies == old(replies)
    {
      var _ := bindingStore.NotifyConnectionClosed(connectionId, now);
    }

    // None is the error for a runtime that is not registered.
    method HandleTurnComplete(payload: TurnComplete) returns (delivered: Option<bool>)
      requires Valid()
      modifies Repr()
      ensures delivered == DeliveredBy(old(Value()), payload)
      ensures Value() == old(Value()).(turns := if delivered == Some(true) then old(Value()).turns - {payload.dispatchId}
                                                else old(Value()).turns)
      ensures replies == old(replies) +
                         if delivered == Some(true)
                         then [Reply(old(Value()).turns[payload.dispatchId].location, payload.text, payload.idempotencyKey)]
                         else []
      ensures pushed == old(pushed)
    {
      var i := bindingStore.IndexOf(ByRuntime(payload.runtimeId));
      if i == |bindingStore.slots| { return None; }
      var completion := registry.CompleteDispatch(payload.dispatchId, payload.runtimeId);
      if !completion.Completed? { return Some(false); }
      replies := replies + [Reply(completion.entry.location, payload.text, payload.idempotencyKey)];
      return Some(true);
    }
  }

  function AfterRegister(g: Gateway, x: BindInput, now: int, c: Config): Gateway {
    AfterDrain(g.(store := Bound(g.store, x, now)), x.key, now, c)
  }

  function PushesOfRegister(g: Gateway, x: BindInput, now: int, c: Config): seq<Push> {
    PushesOfDrain(g.(store := Bound(g.store, x, now)), x.key, now, c)
  }

  function AfterUnregister(g: Gateway, runtimeId: string): Gateway {
    if SlotAt(g.store.slots, ByRuntime(runtimeId)).None? then g
    else g.(store := Unbound(g.store, runtimeId), turns := ClearedFor(g.turns, runtimeId))
  }

  function DeliveredBy(g: Gateway, payload: TurnComplete): Option<bool> {
    if SlotAt(g.store.slots, ByRuntime(payload.runtimeId)).None? then None
    else Some(Owns(g.turns, payload.dispatchId, payload.runtimeId))
  }
}
