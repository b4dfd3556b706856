/** Whose a turn is: the runtime that held the slot when the turn was pushed owns it, and
    it alone can complete it, as long as it is in flight. */
module Ownership {
  import opened Wrappers
  import opened Bindings
  import opened Registry
  import opened Pipeline
  import B = BindingRuns
  import P = PipelineRuns
  import T = TurnLedger

  // The runtime that holds the slot of the key.
  function Holder(g: Gateway, key: Key): Option<string> {
    var slot := SlotAt(g.store.slots, ByKey(key));
    if slot.Some? then Some(slot.value.runtime.runtimeId) else None
  }

  // The turn of the push is in flight for the runtime, with what the push says of it.
  predicate InFlightFor(g: Gateway, push: Push, runtimeId: string) {
    && push.dispatchId in g.turns
    && g.turns[push.dispatchId].runtimeId == runtimeId && IsFor(push, g.turns[push.dispatchId], push.inbound)
  }

  lemma DispatchOwned(g: Gateway, inbound: Inbound, current: Runtime, key: Key, now: int, c: Config)
    ensures forall push | push in PushesOf(g, inbound, current, key, c) ::
              InFlightFor(AfterDispatch(g, inbound, current, key, now, c), push, current.runtimeId) &&
              push.dispatchId == c.idFactory(g.minted)
  {
  }

  // What an id names in both.
  predicate SameTurn(g: Gateway, h: Gateway, id: string) {
    (id in h.turns <==> id in g.turns) && NoOtherTurn(g, h, id)
  }

  predicate NoOtherTurn(g: Gateway, h: Gateway, id: string) {
    id in h.turns ==> id in g.turns && h.turns[id] == g.turns[id]
  }

  // A further turn leaves those with other ids alone.
  lemma DispatchOthers(g: Gateway, inbound: Inbound, current: Runtime, key: Key, now: int, c: Config, id: string)
    requires id != c.idFactory(g.minted)
    ensures var h := AfterDispatch(g, inbound, current, key, now, c);
            SameTurn(g, h, id)
  {
  }

  // The ids of the pushes of a drain were minted in it.
  ghost predicate MintedIn(id: string, m: nat, n: nat, c: Config) {
    exists k :: m <= k < n && c.idFactory(k) == id
  }

  ghost predicate DrainedFor(h: Gateway, push: Push, current: Runtime, key: Key, m: nat, c: Config) {
    push.key == key && InFlightFor(h, push, current.runtimeId) && MintedIn(push.dispatchId, m, h.minted, c)
  }

  lemma {:induction false} DrainOwned(g: Gateway, inbounds: seq<Inbound>, current: Runtime, key: Key, now: int, c: Config)
    requires T.NeverRepeats(c.idFactory)
    ensures var h := AfterAll(g, inbounds, current, key, now, c);
            && g.minted <= h.minted
            && forall push | push in PushesOfAll(g, inbounds, current, key, now, c) ::
                 DrainedFor(h, push, current, key, g.minted, c)
  {
    if inbounds != [] {
      var front, last := inbounds[..|inbounds| - 1], inbounds[|inbounds| - 1];
      DrainOwned(g, front, current, key, now, c);
      DrainOneMore(g.minted, AfterAll(g, front, current, key, now, c), PushesOfAll(g, front, current, key, now, c), last,
                   current, key, now, c);
    }
  }

  lemma DrainOneMore(m: nat, h: Gateway, pushes: seq<Push>, last: Inbound, current: Runtime, key: Key, now: int,
                     c: Config)
    requires T.NeverRepeats(c.idFactory) && m <= h.minted
    requires forall push | push in pushes :: DrainedFor(h, push, current, key, m, c)
    ensures var i := AfterDispatch(h, last, current, key, now, c);
            m <= i.minted &&
            forall push | push in pushes + PushesOf(h, last, current, key, c) :: DrainedFor(i, push, current, key, m, c)
  {
    var i, more := AfterDispatch(h, last, current, key, now, c), PushesOf(h, last, current, key, c);
    DispatchOwned(h, last, current, key, now, c);
    forall push | push in pushes + more ensures DrainedFor(i, push, current, key, m, c) {
      if push in more {
        assert c.idFactory(h.minted) == push.dispatchId;
      } else {
        var k :| m <= k < h.minted && c.idFactory(k) == push.dispatchId;
        DispatchOthers(h, last, current, key, now, c, push.dispatchId);
      }
    }
  }

  // Every push of a step is for a turn of the runtime that holds the slot, and goes to the
  // connection of the slot.
  lemma PushedToHolder(w: P.World, a: P.Action, c: Config, push: Push)
    requires P.Inv(w, c) && P.Possible(w, a) && T.NeverRepeats(c.idFactory) && push in P.NewPushes(w, a, c)
    ensures var g := P.After(w, a, c).gateway;
            Holder(g, push.key).Some? && InFlightFor(g, push, Holder(g, push.key).value)
  {
    var g := w.gateway;
    if a.Arrive? {
      DispatchOwned(g, P.InboundOf(w, a), Current(g, a.key).value, a.key, a.now, c);
      assert push.key == a.key;
    } else {
      RegisterOwned(w, a.input, a.now, c, push);
    }
  }

  lemma RegisterOwned(w: P.World, x: BindInput, now: int, c: Config, push: Push)
    requires T.NeverRepeats(c.idFactory) && push in P.NewPushes(w, P.Register(x, now), c)
    ensures var g := P.After(w, P.Register(x, now), c).gateway;
            push.key == x.key && Holder(g, x.key).Some? && InFlightFor(g, push, Holder(g, x.key).value)
  {
    var bound := w.gateway.(store := Bound(w.gateway.store, x, now));
    var start := bound.(queue := ParkedElsewhere(bound.queue, x.key));
    P.BoundSlots(w.gateway.store, x, now, x.key);
    DrainOwned(start, ParkedFor(bound.queue, x.key), Current(bound, x.key).value, x.key, now, c);
  }

  // ------------------------------------------------------------ whole runs

  // An id minted before a step names the same turn after it, or none.
  lemma {:induction false} DrainKeepsTurn(g: Gateway, inbounds: seq<Inbound>, current: Runtime, key: Key, now: int,
                                          c: Config, k: nat)
    requires T.NeverRepeats(c.idFactory) && k < g.minted
    ensures var id, h := c.idFactory(k), AfterAll(g, inbounds, current, key, now, c);
            g.minted <= h.minted && SameTurn(g, h, id)
  {
    if inbounds != [] {
      var front := inbounds[..|inbounds| - 1];
      DrainKeepsTurn(g, front, current, key, now, c, k);
      DispatchOthers(AfterAll(g, front, current, key, now, c), inbounds[|inbounds| - 1], current, key, now, c,
                     c.idFactory(k));
    }
  }

  lemma StepKeepsTurn(w: P.World, a: P.Action, c: Config, k: nat)
    requires T.NeverRepeats(c.idFactory) && k < w.gateway.minted
    ensures var id, g, h := c.idFactory(k), w.gateway, P.After(w, a, c).gateway;
            g.minted <= h.minted && NoOtherTurn(g, h, id)
  {
    var g := w.gateway;
    match a {
      case Arrive(_, _, key, now) =>
        if Current(g, key).Some? {
          DispatchOthers(g, P.InboundOf(w, a), Current(g, key).value, key, now, c, c.idFactory(k));
        }
      case Register(x, now) =>
        var bound := g.(store := Bound(g.store, x, now));
        if !Conflict(g.store, x) && Current(bound, x.key).Some? {
          DrainKeepsTurn(bound.(queue := ParkedElsewhere(g.queue, x.key)), ParkedFor(g.queue, x.key),
                         Current(bound, x.key).value, x.key, now, c, k);
        }
      case _ =>
    }
  }

  lemma {:induction false} TraceKeepsTurn(worlds: seq<P.World>, actions: seq<P.Action>, c: Config, m: nat, n: nat, k: nat)
    requires P.Trace(worlds, actions, c) && T.NeverRepeats(c.idFactory) && m <= n < |worlds|
    requires k < worlds[m].gateway.minted
    ensures worlds[m].gateway.minted <= worlds[n].gateway.minted
    ensures NoOtherTurn(worlds[m].gateway, worlds[n].gateway, c.idFactory(k))
    decreases n - m
  {
    if m < n {
      TraceKeepsTurn(worlds, actions, c, m, n - 1, k);
      TraceStepKeepsTurn(worlds, actions, c, n - 1, k);
    }
  }

  lemma TraceStepKeepsTurn(worlds: seq<P.World>, actions: seq<P.Action>, c: Config, n: nat, k: nat)
    requires P.Trace(worlds, actions, c) && T.NeverRepeats(c.idFactory) && n < |actions|
    requires k < worlds[n].gateway.minted
    ensures worlds[n].gateway.minted <= worlds[n + 1].gateway.minted
    ensures NoOtherTurn(worlds[n].gateway, worlds[n + 1].gateway, c.idFactory(k))
  {
    assert P.StepOf(worlds[n], actions[n], c, worlds[n + 1]);
    StepKeepsTurn(worlds[n], actions[n], c, k);
  }

  // In every run: the turn of a push belongs to the runtime that held the slot when it was
  // pushed, as long as it is in flight; and then a completion is accepted if and only if it
  // comes from that runtime while it is registered.
  lemma OwnerAloneCompletes(worlds: seq<P.World>, actions: seq<P.Action>, c: Config, m: nat, n: nat, push: Push,
                            payload: TurnComplete)
    requires P.Trace(worlds, actions, c) && T.NeverRepeats(c.idFactory) && m < n < |worlds|
    requires push in P.NewPushes(worlds[m], actions[m], c) && push.dispatchId in worlds[n].gateway.turns
    requires payload.dispatchId == push.dispatchId
    ensures Holder(worlds[m + 1].gateway, push.key).Some?
    ensures var owner, g := Holder(worlds[m + 1].gateway, push.key).value, worlds[n].gateway;
            && InFlightFor(g, push, owner)
            && (DeliveredBy(g, payload) == Some(true) <==>
                payload.runtimeId == owner && SlotAt(g.store.slots, ByRuntime(owner)).Some?)
            && (SlotAt(g.store.slots, ByRuntime(owner)).Some? ==>
                  push.dispatchId !in AfterUnregister(g, owner).turns)
  {
    var w, a := worlds[m], actions[m];
    P.TraceKeepsInv(worlds, actions, c, m);
    P.TraceKeepsInv(worlds, actions, c, m + 1);
    assert P.StepOf(w, a, c, worlds[m + 1]);
    PushedToHolder(w, a, c, push);
    var k := PushNumber(worlds[m + 1], c, push);
    TraceKeepsTurn(worlds, actions, c, m + 1, n, k);
  }

  lemma PushNumber(w: P.World, c: Config, push: Push) returns (k: nat)
    requires P.Matched(w.gateway, w.pushed, c) && push in w.pushed
    ensures k < w.gateway.minted && c.idFactory(k) == push.dispatchId
  {
    k :| 0 <= k < |w.pushed| && w.pushed[k] == push;
  }
}
