/** What becomes of the turns the pipeline pushes: over whole runs each is in flight,
    completed once by its own runtime, or cleared with that runtime. */
module TurnLedger {
  import opened Wrappers
  import opened Bindings
  import opened Pipeline
  import P = PipelineRuns
  import R = Registry

  // The pipeline, and the ledger of its turns.
  datatype World = World(pipeline: P.World, ledger: R.Ledger)

  const START := World(P.START, R.START)

  ghost predicate NeverRepeats(ids: nat -> string) {
    forall i, j :: i < j ==> ids(i) != ids(j)
  }

  function LedgerAfterDispatch(l: R.Ledger, g: Gateway, inbound: Inbound, current: Runtime, key: Key, now: int,
                               c: Config): R.Ledger
  {
    if Agent(inbound, current, c) == "" then l
    else R.After(l, R.Begin(TurnFor(inbound, current, key, c.idFactory(g.minted), now, c)))
  }

  function LedgerAfterAll(l: R.Ledger, g: Gateway, inbounds: seq<Inbound>, current: Runtime, key: Key, now: int,
                          c: Config): R.Ledger
  {
    if inbounds == [] then l
    else
      var front := inbounds[..|inbounds| - 1];
      LedgerAfterDispatch(LedgerAfterAll(l, g, front, current, key, now, c), AfterAll(g, front, current, key, now, c),
                          inbounds[|inbounds| - 1], current, key, now, c)
  }

  function LedgerAfterRegister(l: R.Ledger, g: Gateway, x: BindInput, now: int, c: Config): R.Ledger {
    var h := g.(store := Bound(g.store, x, now));
    var current := Current(h, x.key);
    if current.None? then l
    else
      LedgerAfterAll(l, h.(queue := ParkedElsewhere(h.queue, x.key)), ParkedFor(h.queue, x.key), current.value, x.key,
                     now, c)
  }

  // The moves the registry makes in one operation of the pipeline.
  function LedgerAfter(w: World, a: P.Action, c: Config): R.Ledger {
    var g, l := w.pipeline.gateway, w.ledger;
    match a
    case Arrive(_, _, key, now) =>
      var current := Current(g, key);
      if current.None? then l else LedgerAfterDispatch(l, g, P.InboundOf(w.pipeline, a), current.value, key, now, c)
    case Register(x, now) => if Conflict(g.store, x) then l else LedgerAfterRegister(l, g, x, now, c)
    case Unregister(runtimeId) =>
      if SlotAt(g.store.slots, ByRuntime(runtimeId)).None? then l else R.After(l, R.Clear(runtimeId))
    case Complete(payload) =>
      if DeliveredBy(g, payload).None? then l else R.After(l, R.Complete(payload.dispatchId, payload.runtimeId))
    case _ => l
  }

  function After(w: World, a: P.Action, c: Config): World {
    World(P.After(w.pipeline, a, c), LedgerAfter(w, a, c))
  }

  // The ledger is that of the gateway's turns, and every id minted so far is in it.
  ghost predicate Keeps(l: R.Ledger, g: Gateway, c: Config) {
    && R.Conserved(l) && l.pending == g.turns
    && (forall id | id in l.begun :: Minted(id, g.minted, c))
    && (forall k :: 0 <= k < g.minted ==> c.idFactory(k) in l.begun)
  }

  ghost predicate Minted(id: string, n: nat, c: Config) {
    exists k :: 0 <= k < n && c.idFactory(k) == id
  }

  lemma DispatchKeeps(l: R.Ledger, g: Gateway, inbound: Inbound, current: Runtime, key: Key, now: int, c: Config)
    requires Keeps(l, g, c) && NeverRepeats(c.idFactory)
    ensures Keeps(LedgerAfterDispatch(l, g, inbound, current, key, now, c),
                  AfterDispatch(g, inbound, current, key, now, c), c)
  {
    if Agent(inbound, current, c) != "" {
      var id := c.idFactory(g.minted);
      var turn := TurnFor(inbound, current, key, id, now, c);
      assert forall k :: 0 <= k < g.minted ==> c.idFactory(k) != id;
      assert !Minted(id, g.minted, c);
      R.StepConserves(l, R.Begin(turn));
      forall other | other in l.begun || other == id ensures Minted(other, g.minted + 1, c) {
        if other == id {
          assert c.idFactory(g.minted) == other;
        } else {
          var k :| 0 <= k < g.minted && c.idFactory(k) == other;
        }
      }
    }
  }

  lemma {:induction false} AllKeeps(l: R.Ledger, g: Gateway, inbounds: seq<Inbound>, current: Runtime, key: Key, now: int,
                                    c: Config)
    requires Keeps(l, g, c) && NeverRepeats(c.idFactory)
    ensures Keeps(LedgerAfterAll(l, g, inbounds, current, key, now, c), AfterAll(g, inbounds, current, key, now, c), c)
  {
    if inbounds != [] {
      var front := inbounds[..|inbounds| - 1];
      AllKeeps(l, g, front, current, key, now, c);
      DispatchKeeps(LedgerAfterAll(l, g, front, current, key, now, c), AfterAll(g, front, current, key, now, c),
                    inbounds[|inbounds| - 1], current, key, now, c);
    }
  }

  lemma StepKeeps(w: World, a: P.Action, c: Config)
    requires Keeps(w.ledger, w.pipeline.gateway, c) && NeverRepeats(c.idFactory)
    ensures var v := After(w, a, c); Keeps(v.ledger, v.pipeline.gateway, c)
  {
    var g, l := w.pipeline.gateway, w.ledger;
    match a {
      case Arrive(_, _, key, now) =>
        if Current(g, key).Some? { DispatchKeeps(l, g, P.InboundOf(w.pipeline, a), Current(g, key).value, key, now, c); }
      case Register(x, now) => if !Conflict(g.store, x) { RegisterKeeps(l, g, x, now, c); }
      case Unregister(runtimeId) => R.StepConserves(l, R.Clear(runtimeId));
      case Complete(payload) => R.StepConserves(l, R.Complete(payload.dispatchId, payload.runtimeId));
      case _ =>
    }
  }

  lemma RegisterKeeps(l: R.Ledger, g: Gateway, x: BindInput, now: int, c: Config)
    requires Keeps(l, g, c) && NeverRepeats(c.idFactory)
    ensures Keeps(LedgerAfterRegister(l, g, x, now, c), AfterRegister(g, x, now, c), c)
  {
    var h := g.(store := Bound(g.store, x, now));
    var current := Current(h, x.key);
    if current.Some? {
      AllKeeps(l, h.(queue := ParkedElsewhere(h.queue, x.key)), ParkedFor(h.queue, x.key), current.value, x.key, now, c);
    }
  }

  // ------------------------------------------------------------ whole runs

  ghost predicate StepOf(w: World, a: P.Action, c: Config, v: World) {
    P.Possible(w.pipeline, a) && v == After(w, a, c)
  }

  ghost predicate Trace(worlds: seq<World>, actions: seq<P.Action>, c: Config) {
    && |worlds| == |actions| + 1 && worlds[0] == START
    && forall k :: 0 <= k < |actions| ==> StepOf(worlds[k], actions[k], c, worlds[k + 1])
  }

  lemma {:induction false} TraceKeeps(worlds: seq<World>, actions: seq<P.Action>, c: Config, n: nat)
    requires Trace(worlds, actions, c) && NeverRepeats(c.idFactory) && n < |worlds|
    ensures Keeps(worlds[n].ledger, worlds[n].pipeline.gateway, c) && P.Inv(worlds[n].pipeline, c)
  {
    if n == 0 {
      P.StartInv(c);
    } else {
      TraceKeeps(worlds, actions, c, n - 1);
      assert StepOf(worlds[n - 1], actions[n - 1], c, worlds[n - 1 + 1]);
      StepKeeps(worlds[n - 1], actions[n - 1], c);
      P.StepKeepsInv(worlds[n - 1].pipeline, actions[n - 1], c);
    }
  }

  // Every turn ever pushed is in flight, completed or cleared, and only one of these;
  // and it is completed at most once, by the runtime it was dispatched to.
  lemma PushedTurnsConserved(worlds: seq<World>, actions: seq<P.Action>, c: Config, n: nat, k: nat)
    requires Trace(worlds, actions, c) && NeverRepeats(c.idFactory) && n < |worlds|
    requires k < |worlds[n].pipeline.pushed|
    ensures var l := worlds[n].ledger;
            var id := worlds[n].pipeline.pushed[k].dispatchId;
            && id in l.begun
            && var d := l.begun[id];
               && (R.IsPending(l, d) || R.IsCompleted(l, d) || d in l.cleared)
               && !(R.IsPending(l, d) && R.IsCompleted(l, d)) && !(R.IsPending(l, d) && d in l.cleared)
               && !(R.IsCompleted(l, d) && d in l.cleared)
               && forall i, j | && 0 <= i < |l.completed| && 0 <= j < |l.completed|
                                && l.completed[i].0 == d && l.completed[j].0 == d ::
                    i == j && l.completed[i].1 == d.runtimeId
  {
    TraceKeeps(worlds, actions, c, n);
    var w := worlds[n];
    assert w.pipeline.pushed[k].dispatchId == c.idFactory(k);
    assert R.IsBegun(w.ledger, w.ledger.begun[c.idFactory(k)]);
  }
}
