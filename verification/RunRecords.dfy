/** What the record of a run says: exactly how a step changes its status, and that a run
    recorded as completed or failed was settled so. */
module RunRecords {
  import opened Admission

  // A step keeps the ids of a record. It settles a running one as completed or failed by
  // what became of its promise, marks one under way cancelled when it is cancelled, and
  // leaves the status of all others alone.
  lemma StatusChange(s: State, a: Action, l: Limits, k: nat)
    requires Inv(s, l) && Possible(s, a) && k < |s.records|
    ensures var t, r := After(s, a, l), s.records[k];
            && k < |t.records| && t.records[k].runId == r.runId && t.records[k].runnerId == r.runnerId
            && t.records[k].status ==
               if a == Cancel(r.runId) && (s.phases[k].Executing? || s.phases[k].Settled?) then Cancelled
               else if a == Settle(k, true) && r.status.Running? then Completed
               else if a == Settle(k, false) && r.status.Running? then Failed
               else r.status
  {
    if UnderWay(s, k) { assert Holds(s, k); }
    if a.Cancel? && a.runId in s.active { assert UnderWay(s, s.active[a.runId]); }
  }

  // A new record runs, or is rejected.
  lemma NewRecord(s: State, a: Action, l: Limits)
    ensures var t := After(s, a, l);
            && |t.records| == |s.records| + (if a.Admit? || a.Reject? then 1 else 0)
            && (a.Admit? || a.Reject? ==>
                  var r := t.records[|s.records|];
                  && r.runId == a.runId && r.runnerId == a.runnerId
                  && r.status == if Accepts(s, a, l) then Running else Rejected)
  {
  }

  // In every run: a record is completed only if its promise was fulfilled, and failed only
  // if it was rejected, when it settled.
  lemma {:induction false} OutcomeWasSettled(states: seq<State>, actions: seq<Action>, l: Limits, n: nat, k: nat)
      returns (m: nat)
    requires Trace(states, actions, l) && n < |states| && k < |states[n].records|
    requires states[n].records[k].status.Completed? || states[n].records[k].status.Failed?
    ensures m < n && actions[m] == Settle(k, states[n].records[k].status.Completed?)
  {
    var s, a := states[n - 1], actions[n - 1];
    NextStatus(states, actions, l, n - 1, k);
    if k < |s.records| && s.records[k].status == states[n].records[k].status {
      m := OutcomeWasSettled(states, actions, l, n - 1, k);
    } else {
      m := n - 1;
    }
  }

  // The records at the start of a trace, and what a step of it may make of one.
  lemma NextStatus(states: seq<State>, actions: seq<Action>, l: Limits, n: nat, k: nat)
    requires Trace(states, actions, l) && n < |actions| && k < |states[n + 1].records|
    ensures var now := states[n + 1].records[k].status;
            now.Completed? || now.Failed? ==>
              || (k < |states[n].records| && states[n].records[k].status == now)
              || actions[n] == Settle(k, now.Completed?)
  {
    InvInTrace(states, actions, l, n);
    assert StepOf(states[n], actions[n], l, states[n + 1]);
    NewRecord(states[n], actions[n], l);
    if k < |states[n].records| { StatusChange(states[n], actions[n], l, k); }
  }

  // And once it settles, a run that was not cancelled is recorded so.
  lemma SettlingIsRecorded(states: seq<State>, actions: seq<Action>, l: Limits, n: nat, k: nat, ok: bool)
    requires Trace(states, actions, l) && n < |actions| && actions[n] == Settle(k, ok)
    ensures k < |states[n].records| && k < |states[n + 1].records|
    ensures states[n + 1].records[k].status ==
            if states[n].records[k].status.Cancelled? then Cancelled else if ok then Completed else Failed
  {
    InvInTrace(states, actions, l, n);
    assert StepOf(states[n], actions[n], l, states[n + 1]);
    StatusChange(states[n], actions[n], l, k);
    ExecutingStatus(states, actions, l, n, k);
  }

  // A run whose promise is pending is running or cancelled.
  lemma {:induction false} ExecutingStatus(states: seq<State>, actions: seq<Action>, l: Limits, n: nat, k: nat)
    requires Trace(states, actions, l) && n < |states| && k < |states[n].phases| && states[n].phases[k].Executing?
    ensures k < |states[n].records|
    ensures states[n].records[k].status.Running? || states[n].records[k].status.Cancelled?
  {
    InvInTrace(states, actions, l, n);
    if n > 0 {
      InvInTrace(states, actions, l, n - 1);
      assert StepOf(states[n - 1], actions[n - 1], l, states[n - 1 + 1]);
      NewRecord(states[n - 1], actions[n - 1], l);
      if k < |states[n - 1].records| {
        ExecutingStatus(states, actions, l, n - 1, k);
        StatusChange(states[n - 1], actions[n - 1], l, k);
      }
    }
  }

  // ------------------------------------------------------------ the history

  // The numbers of the last records, in order.
  function LastNumbers(records: nat, limit: nat): seq<nat> {
    var from := if records > limit then records - limit else 0;
    seq(records - from, i requires 0 <= i < records - from => from + i)
  }

  lemma {:induction false} ShortenedIsEnd(history: seq<nat>, limit: nat)
    ensures Shortened(history, limit) == if |history| > limit then history[|history| - limit..] else history
  {
    if |history| > limit {
      ShortenedIsEnd(history[1..], limit);
      if |history| - 1 > limit { assert history[1..][|history| - 1 - limit..] == history[|history| - limit..]; }
    }
  }

  lemma HistoryStep(s: State, a: Action, l: Limits)
    requires s.runHistory == LastNumbers(|s.records|, l.runHistoryLimit)
    ensures var t := After(s, a, l); t.runHistory == LastNumbers(|t.records|, l.runHistoryLimit)
  {
    ShortenedIsEnd(s.runHistory + [|s.records|], l.runHistoryLimit);
    NewRecord(s, a, l);
  }

  // In every run the history is that of the last records, as many as it may hold.
  lemma {:induction false} HistoryIsLast(states: seq<State>, actions: seq<Action>, l: Limits, n: nat)
    requires Trace(states, actions, l) && n < |states|
    ensures states[n].runHistory == LastNumbers(|states[n].records|, l.runHistoryLimit)
  {
    if n > 0 {
      HistoryIsLast(states, actions, l, n - 1);
      assert StepOf(states[n - 1], actions[n - 1], l, states[n - 1 + 1]);
      HistoryStep(states[n - 1], actions[n - 1], l);
    }
  }
}
