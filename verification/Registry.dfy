/** The dispatch turns in flight: who may complete one, where its reply goes, and that
    every turn begun is pending, completed or cleared, and only one of these. */
module Registry {
  import opened Wrappers

  datatype Location = Location(channelId: string, accountId: string, thread: Option<string>)

  datatype Dispatch = Dispatch(dispatchId: string, sessionKey: string, agentId: string, runtimeId: string,
                               attachmentKey: Option<string>, location: Location, createdAt: int)

  datatype Completion = Completed(entry: Dispatch) | Unknown | RuntimeMismatch(entry: Dispatch)

  type Turns = map<string, Dispatch>

  predicate Owns(turns: Turns, dispatchId: string, runtimeId: string) {
    dispatchId in turns && turns[dispatchId].runtimeId == runtimeId
  }

  function ClearedFor(turns: Turns, runtimeId: string): Turns {
    map id | id in turns && turns[id].runtimeId != runtimeId :: turns[id]
  }

  function CompletionOf(turns: Turns, dispatchId: string, runtimeId: string): Completion {
    if dispatchId !in turns then Unknown
    else if turns[dispatchId].runtimeId != runtimeId then RuntimeMismatch(turns[dispatchId])
    else Completed(turns[dispatchId])
  }

  class SessionRegistry {
    var dispatches: Turns

    constructor ()
      ensures dispatches == map[]
    {
      dispatches := map[];
    }

    // The id comes from the id factory.
    method BeginDispatch(entry: Dispatch)
      modifies this
      ensures dispatches == old(dispatches)[entry.dispatchId := entry]
    {
      dispatches := dispatches[entry.dispatchId := entry];
    }

    method CompleteDispatch(dispatchId: string, runtimeId: string) returns (r: Completion)
      modifies this
      ensures r == CompletionOf(old(dispatches), dispatchId, runtimeId)
      ensures dispatches == if r.Completed? then old(dispatches) - {dispatchId} else old(dispatches)
    {
      if dispatchId !in dispatches { return Unknown; }
      var entry := dispatches[dispatchId];
      if entry.runtimeId != runtimeId { return RuntimeMismatch(entry); }
      dispatches := dispatches - {dispatchId};
      return Completed(entry);
    }

    method PendingDispatchCountFor(runtimeId: string) returns (count: nat)
      ensures count == |dispatches| - |ClearedFor(dispatches, runtimeId)|
    {
      count := 0;
      var left := dispatches.Keys;
      ghost var kept: Turns := map[];
      while left != {}
        invariant left <= dispatches.Keys
        invariant kept ==
                  (map id | id in dispatches && id !in left && dispatches[id].runtimeId != runtimeId :: dispatches[id])
        invariant count + |kept| + |left| == |dispatches|
        decreases |left|
      {
        var id :| id in left;
        left := left - {id};
        if dispatches[id].runtimeId == runtimeId {
          count := count + 1;
        } else {
          assert id !in kept;
          kept := kept[id := dispatches[id]];
        }
      }
      assert kept == ClearedFor(dispatches, runtimeId);
    }

    method ClearDispatchesFor(runtimeId: string)
      modifies this
      ensures dispatches == ClearedFor(old(dispatches), runtimeId)
    {
      var left := dispatches.Keys;
      while left != {}
        invariant left <= dispatches.Keys <= old(dispatches).Keys
        invariant forall id | id in dispatches :: dispatches[id] == old(dispatches)[id]
        invariant forall id | id in old(dispatches) ::
                    id in dispatches <==> id in left || old(dispatches)[id].runtimeId != runtimeId
        decreases |left|
      {
        var id :| id in left;
        left := left - {id};
        if dispatches[id].runtimeId == runtimeId {
          dispatches := dispatches - {id};
        }
      }
    }
  }

  // ------------------------------------------------------------ whole runs

  datatype Action =
    | Begin(entry: Dispatch)
    | Complete(dispatchId: string, runtimeId: string)
    | Clear(runtimeId: string)

  // The pending turns, and what became of the others: the completed ones each with
  // the runtime that completed it, in order.
  datatype Ledger = Ledger(pending: Turns, begun: Turns, completed: seq<(Dispatch, string)>, cleared: set<Dispatch>)

  const START := Ledger(map[], map[], [], {})

  // Ids are never minted twice.
  ghost predicate Possible(l: Ledger, a: Action) {
    a.Begin? ==> a.entry.dispatchId !in l.begun
  }

  function After(l: Ledger, a: Action): Ledger {
    match a
    case Begin(entry) =>
      l.(pending := l.pending[entry.dispatchId := entry], begun := l.begun[entry.dispatchId := entry])
    case Complete(id, runtimeId) =>
      if !Owns(l.pending, id, runtimeId) then l
      else l.(pending := l.pending - {id}, completed := l.completed + [(l.pending[id], runtimeId)])
    case Clear(runtimeId) =>
      l.(pending := ClearedFor(l.pending, runtimeId),
         cleared := l.cleared + set id | id in l.pending && l.pending[id].runtimeId == runtimeId :: l.pending[id])
  }

  function Run(actions: seq<Action>): Ledger {
    if actions == [] then START else After(Run(actions[..|actions| - 1]), actions[|actions| - 1])
  }

  ghost predicate Schedule(actions: seq<Action>) {
    actions == [] ||
    (Schedule(actions[..|actions| - 1]) && Possible(Run(actions[..|actions| - 1]), actions[|actions| - 1]))
  }

  predicate IsCompleted(l: Ledger, d: Dispatch) {
    exists k | 0 <= k < |l.completed| :: l.completed[k].0 == d
  }

  predicate IsPending(l: Ledger, d: Dispatch) {
    d.dispatchId in l.pending && l.pending[d.dispatchId] == d
  }

  predicate IsBegun(l: Ledger, d: Dispatch) {
    d.dispatchId in l.begun && l.begun[d.dispatchId] == d
  }

  // Every turn begun is in exactly one place, and each was completed at most once,
  // by the runtime it was dispatched to.
  ghost predicate Conserved(l: Ledger) {
    && (forall id | id in l.begun :: l.begun[id].dispatchId == id)
    && (forall id | id in l.pending :: l.pending[id].dispatchId == id)
    && (forall d: Dispatch :: IsBegun(l, d) <==> IsPending(l, d) || IsCompleted(l, d) || d in l.cleared)
    && (forall d: Dispatch :: !(IsPending(l, d) && IsCompleted(l, d)) && !(IsPending(l, d) && d in l.cleared) &&
                              !(IsCompleted(l, d) && d in l.cleared))
    && (forall j, k :: 0 <= j < k < |l.completed| ==> l.completed[j].0 != l.completed[k].0)
    && (forall k :: 0 <= k < |l.completed| ==> l.completed[k].0.runtimeId == l.completed[k].1)
  }

  lemma StepConserves(l: Ledger, a: Action)
    requires Conserved(l) && Possible(l, a)
    ensures Conserved(After(l, a))
  {
    match a {
      case Begin(entry) => BeginConserves(l, entry);
      case Complete(id, runtimeId) => if Owns(l.pending, id, runtimeId) { CompleteConserves(l, id, runtimeId); }
      case Clear(runtimeId) => ClearConserves(l, runtimeId);
    }
  }

  lemma BeginConserves(l: Ledger, entry: Dispatch)
    requires Conserved(l) && entry.dispatchId !in l.begun
    ensures Conserved(After(l, Begin(entry)))
  {
    var v := After(l, Begin(entry));
    assert !IsBegun(l, entry);
    forall d: Dispatch
      ensures IsCompleted(v, d) == IsCompleted(l, d) && IsBegun(v, d) == (IsBegun(l, d) || d == entry)
      ensures IsPending(v, d) == (IsPending(l, d) || d == entry)
    {
      if d.dispatchId == entry.dispatchId { assert !IsBegun(l, d); }
    }
  }

  lemma CompleteConserves(l: Ledger, id: string, runtimeId: string)
    requires Conserved(l) && Owns(l.pending, id, runtimeId)
    ensures Conserved(After(l, Complete(id, runtimeId)))
  {
    var v := After(l, Complete(id, runtimeId));
    var entry := l.pending[id];
    assert IsPending(l, entry);
    forall d: Dispatch
      ensures IsCompleted(v, d) == (IsCompleted(l, d) || d == entry) && IsBegun(v, d) == IsBegun(l, d)
      ensures IsPending(v, d) == (IsPending(l, d) && d != entry)
    {
      assert v.completed[|l.completed|].0 == entry;
      if IsCompleted(l, d) {
        var k :| 0 <= k < |l.completed| && l.completed[k].0 == d;
        assert v.completed[k].0 == d;
      }
    }
    forall k | 0 <= k < |l.completed| ensures l.completed[k].0 != entry {
      assert IsCompleted(l, l.completed[k].0);
    }
  }

  lemma ClearConserves(l: Ledger, runtimeId: string)
    requires Conserved(l)
    ensures Conserved(After(l, Clear(runtimeId)))
  {
    var v := After(l, Clear(runtimeId));
    forall d: Dispatch
      ensures IsCompleted(v, d) == IsCompleted(l, d) && IsBegun(v, d) == IsBegun(l, d)
      ensures IsPending(v, d) == (IsPending(l, d) && d.runtimeId != runtimeId)
      ensures d in v.cleared <==> d in l.cleared || (IsPending(l, d) && d.runtimeId == runtimeId)
    {
    }
  }

  lemma {:induction false} RunConserves(actions: seq<Action>)
    requires Schedule(actions)
    ensures Conserved(Run(actions))
  {
    if actions != [] {
      RunConserves(actions[..|actions| - 1]);
      StepConserves(Run(actions[..|actions| - 1]), actions[|actions| - 1]);
    }
  }

  // What ends a pending turn: its own runtime completes it or is cleared.
  predicate Ends(a: Action, d: Dispatch) {
    a == Complete(d.dispatchId, d.runtimeId) || a == Clear(d.runtimeId)
  }

  lemma PendingStep(l: Ledger, a: Action, d: Dispatch)
    requires Conserved(l) && Possible(l, a) && IsBegun(l, d)
    ensures IsPending(After(l, a), d) <==> IsPending(l, d) && !Ends(a, d)
    ensures IsBegun(After(l, a), d)
  {
  }

  // Whatever other runtimes begin, complete, try to complete or are cleared of in between:
  // a pending turn is still pending exactly until its own runtime ends it.
  lemma {:induction false} PendingUntilEnded(actions: seq<Action>, more: seq<Action>, d: Dispatch)
    requires Schedule(actions + more) && IsPending(Run(actions), d)
    ensures IsPending(Run(actions + more), d) <==> forall a | a in more :: !Ends(a, d)
    ensures Schedule(actions) && IsBegun(Run(actions + more), d)
  {
    if more == [] {
      assert actions + more == actions;
      RunConserves(actions);
    } else {
      var front, a := more[..|more| - 1], more[|more| - 1];
      assert (actions + more)[..|actions + more| - 1] == actions + front && more == front + [a];
      PendingUntilEnded(actions, front, d);
      RunConserves(actions + front);
      PendingStep(Run(actions + front), a, d);
      assert forall b :: b in more <==> b in front || b == a;
    }
  }
}
