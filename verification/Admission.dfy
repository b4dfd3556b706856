/** Runs admitted by the paired execution: one bucket of active runs a runner, no bucket
    above the cap, and what becomes of every record. */
module Admission {
  datatype Status = Running | Completed | Failed | Cancelled | Rejected

  datatype Record = Record(runId: string, runnerId: string, status: Status)

  // A record is shared by the history and the active run: both hold its number in the
  // list of all records. The promise of an admitted run first settles, then the run
  // is taken out.
  datatype Phase = NotRun | Executing | Settled | Out

  datatype State = State(records: seq<Record>, phases: seq<Phase>, runHistory: seq<nat>, active: map<string, nat>,
                         activeByRunner: map<string, set<string>>, completedRuns: nat)

  const START := State([], [], [], map[], map[], 0)

  datatype Limits = Limits(maxConcurrentRuns: nat, runHistoryLimit: nat)

  datatype Verdict = Accepted | Duplicate | LocalCapacity

  function Shortened(history: seq<nat>, limit: nat): seq<nat> {
    if |history| > limit then Shortened(history[1..], limit) else history
  }

  function Bucket(s: State, runnerId: string): set<string> {
    if runnerId in s.activeByRunner then s.activeByRunner[runnerId] else {}
  }

  function VerdictOn(s: State, runId: string, runnerId: string, l: Limits): Verdict {
    if runId in s.active then Duplicate
    else if |Bucket(s, runnerId)| >= l.maxConcurrentRuns then LocalCapacity
    else Accepted
  }

  function Recorded(s: State, r: Record, phase: Phase, l: Limits): State {
    s.(records := s.records + [r], phases := s.phases + [phase],
       runHistory := Shortened(s.runHistory + [|s.records|], l.runHistoryLimit))
  }

  function Refused(s: State, runId: string, runnerId: string, l: Limits): State {
    Recorded(s, Record(runId, runnerId, Rejected), NotRun, l)
  }

  function Admitted(s: State, runId: string, runnerId: string, l: Limits): State {
    if !VerdictOn(s, runId, runnerId, l).Accepted? then Refused(s, runId, runnerId, l)
    else
      Recorded(s, Record(runId, runnerId, Running), Executing, l)
      .(active := s.active[runId := |s.records|],
        activeByRunner := s.activeByRunner[runnerId := Bucket(s, runnerId) + {runId}])
  }

  function WithStatus(s: State, n: nat, status: Status): State
    requires n < |s.records|
  {
    s.(records := s.records[n := s.records[n].(status := status)])
  }

  function CancelledRun(s: State, runId: string): State {
    if runId in s.active && s.active[runId] < |s.records| then WithStatus(s, s.active[runId], Cancelled) else s
  }

  function SettledRun(s: State, n: nat, ok: bool): State
    requires n < |s.records| && n < |s.phases|
  {
    var t := if s.records[n].status.Running? then WithStatus(s, n, if ok then Completed else Failed) else s;
    t.(phases := s.phases[n := Settled])
  }

  function BucketsWithout(s: State, runnerId: string, runId: string): map<string, set<string>> {
    if runnerId !in s.activeByRunner then s.activeByRunner
    else
      var remaining := s.activeByRunner[runnerId] - {runId};
      if remaining == {} then s.activeByRunner - {runnerId} else s.activeByRunner[runnerId := remaining]
  }

  function FinishedRun(s: State, n: nat): State
    requires n < |s.records| && n < |s.phases|
  {
    var r := s.records[n];
    s.(phases := s.phases[n := Out], completedRuns := s.completedRuns + 1, active := s.active - {r.runId},
       activeByRunner := BucketsWithout(s, r.runnerId, r.runId))
  }

  class PairedExecution {
    const limits: Limits
    var records: seq<Record>
    var phases: seq<Phase>
    var runHistory: seq<nat>
    var active: map<string, nat>
    var activeByRunner: map<string, set<string>>
    var completedRuns: nat

    function Value(): State
      reads this
    {
      State(records, phases, runHistory, active, activeByRunner, completedRuns)
    }

    constructor (limits: Limits)
      ensures this.limits == limits && Value() == START
    {
      this.limits := limits;
      records, phases, runHistory, active, activeByRunner, completedRuns := [], [], [], map[], map[], 0;
    }

    method RecordRun(r: Record, phase: Phase)
      modifies this`records, this`phases, this`runHistory
      ensures Value() == Recorded(old(Value()), r, phase, limits)
    {
      runHistory := runHistory + [|records|];
      records, phases := records + [r], phases + [phase];
      while |runHistory| > limits.runHistoryLimit
        invariant Shortened(runHistory, limits.runHistoryLimit) ==
                  Shortened(old(runHistory) + [|old(records)|], limits.runHistoryLimit)
        invariant records == old(records) + [r] && phases == old(phases) + [phase]
        decreases |runHistory|
      {
        runHistory := runHistory[1..];
      }
    }

    method RejectAssignment(runId: string, runnerId: string)
      modifies this
      ensures Value() == Refused(old(Value()), runId, runnerId, limits)
    {
      RecordRun(Record(runId, runnerId, Rejected), NotRun);
    }

    method AdmitAssignment(runId: string, runnerId: string) returns (verdict: Verdict)
      modifies this
      ensures verdict == VerdictOn(old(Value()), runId, runnerId, limits)
      ensures Value() == Admitted(old(Value()), runId, runnerId, limits)
    {
      if runId in active {
        RejectAssignment(runId, runnerId);
        return Duplicate;
      }
      var bucket := if runnerId in activeByRunner then activeByRunner[runnerId] else {};
      if |bucket| >= limits.maxConcurrentRuns {
        RejectAssignment(runId, runnerId);
        return LocalCapacity;
      }
      var number := |records|;
      RecordRun(Record(runId, runnerId, Running), Executing);
      activeByRunner := activeByRunner[runnerId := bucket + {runId}];
      active := active[runId := number];
      return Accepted;
    }

    method CancelRun(runId: string) returns (found: bool)
      requires forall id | id in active :: active[id] < |records|
      modifies this`records
      ensures found <==> runId in active
      ensures Value() == CancelledRun(old(Value()), runId)
    {
      if runId !in active { return false; }
      var n := active[runId];
      records := records[n := records[n].(status := Cancelled)];
      return true;
    }

    // The promise of a run is fulfilled or rejected.
    method RunSettles(n: nat, ok: bool)
      requires n < |records| && n < |phases|
      modifies this`records, this`phases
      ensures Value() == SettledRun(old(Value()), n, ok)
    {
      if records[n].status.Running? {
        records := records[n := records[n].(status := if ok then Completed else Failed)];
      }
      phases := phases[n := Settled];
    }

    // What is done last, either way.
    method RunFinishes(n: nat)
      requires n < |records| && n < |phases|
      modifies this`phases, this`completedRuns, this`active, this`activeByRunner
      ensures Value() == FinishedRun(old(Value()), n)
    {
      var runId, runnerId := records[n].runId, records[n].runnerId;
      phases := phases[n := Out];
      completedRuns := completedRuns + 1;
      active := active - {runId};
      if runnerId in activeByRunner {
        var remaining := activeByRunner[runnerId] - {runId};
        activeByRunner := activeByRunner[runnerId := remaining];
        if remaining == {} {
          activeByRunner := activeByRunner - {runnerId};
        }
      }
      assert Value().activeByRunner == old(FinishedRun(Value(), n)).activeByRunner;
    }
  }

  // ------------------------------------------------------------ whole runs

  datatype Action =
    | Admit(runId: string, runnerId: string)
    | Reject(runId: string, runnerId: string)
    | Cancel(runId: string)
    | Settle(number: nat, ok: bool)
    | Finish(number: nat)

  // A run settles once, and finishes once after that.
  ghost predicate Possible(s: State, a: Action) {
    match a
    case Settle(n, _) => n < |s.phases| && s.phases[n].Executing?
    case Finish(n) => n < |s.phases| && s.phases[n].Settled?
    case _ => true
  }

  function After(s: State, a: Action, l: Limits): State {
    match a
    case Admit(runId, runnerId) => Admitted(s, runId, runnerId, l)
    case Reject(runId, runnerId) => Refused(s, runId, runnerId, l)
    case Cancel(runId) => CancelledRun(s, runId)
    case Settle(n, ok) => if n < |s.records| && n < |s.phases| then SettledRun(s, n, ok) else s
    case Finish(n) => if n < |s.records| && n < |s.phases| then FinishedRun(s, n) else s
  }

  // Under way: admitted and not yet taken out.
  predicate UnderWay(s: State, n: nat) {
    n < |s.phases| && (s.phases[n].Executing? || s.phases[n].Settled?)
  }

  // The active runs are those under way, each under its id.
  ghost predicate ActiveOk(s: State) {
    && |s.phases| == |s.records|
    && (forall id | id in s.active :: UnderWay(s, s.active[id]) && s.records[s.active[id]].runId == id)
    && (forall n: nat | n < |s.records| && UnderWay(s, n) :: Holds(s, n))
  }

  predicate Holds(s: State, n: nat)
    requires n < |s.records|
  {
    s.records[n].runId in s.active && s.active[s.records[n].runId] == n
  }

  predicate Within(s: State, id: string, runnerId: string) {
    id in s.active && s.active[id] < |s.records| && s.records[s.active[id]].runnerId == runnerId
  }

  // The buckets split the active runs by runner; none is empty or above the cap.
  ghost predicate BucketsOk(s: State, l: Limits) {
    && (forall r, id :: id in Bucket(s, r) <==> Within(s, id, r))
    && (forall r | r in s.activeByRunner :: s.activeByRunner[r] != {} && |s.activeByRunner[r]| <= l.maxConcurrentRuns)
  }

  // A rejected assignment is never run, and a completed one has settled.
  ghost predicate RecordsOk(s: State) {
    && |s.phases| == |s.records|
    && (forall k :: 0 <= k < |s.records| && s.records[k].status.Rejected? ==> s.phases[k].NotRun?)
    && (forall k :: 0 <= k < |s.records| && s.records[k].status.Completed? ==> s.phases[k].Settled? || s.phases[k].Out?)
  }

  ghost predicate Inv(s: State, l: Limits) {
    ActiveOk(s) && BucketsOk(s, l) && RecordsOk(s)
  }

  lemma AdmitInv(s: State, runId: string, runnerId: string, l: Limits)
    requires Inv(s, l)
    ensures Inv(Admitted(s, runId, runnerId, l), l)
  {
    if VerdictOn(s, runId, runnerId, l).Accepted? {
      AcceptedActive(s, runId, runnerId, l);
      AcceptedBuckets(s, runId, runnerId, l);
    } else {
      RefusedInv(s, runId, runnerId, l);
    }
  }

  lemma AcceptedActive(s: State, runId: string, runnerId: string, l: Limits)
    requires ActiveOk(s) && RecordsOk(s) && VerdictOn(s, runId, runnerId, l).Accepted?
    ensures ActiveOk(Admitted(s, runId, runnerId, l)) && RecordsOk(Admitted(s, runId, runnerId, l))
  {
    var t := Admitted(s, runId, runnerId, l);
    forall n: nat | n < |t.records| && UnderWay(t, n) ensures Holds(t, n) {
      if n < |s.records| { assert UnderWay(s, n) && Holds(s, n); }
    }
  }

  lemma AcceptedBuckets(s: State, runId: string, runnerId: string, l: Limits)
    requires ActiveOk(s) && BucketsOk(s, l) && VerdictOn(s, runId, runnerId, l).Accepted?
    ensures BucketsOk(Admitted(s, runId, runnerId, l), l)
  {
    var t := Admitted(s, runId, runnerId, l);
    forall r, id ensures id in Bucket(t, r) <==> Within(t, id, r) {
      assert id in Bucket(s, r) <==> Within(s, id, r);
      assert Within(t, id, r) <==> Within(s, id, r) || (id == runId && r == runnerId);
    }
    assert runId !in Bucket(s, runnerId) by { assert !Within(s, runId, runnerId); }
  }

  lemma RefusedInv(s: State, runId: string, runnerId: string, l: Limits)
    requires Inv(s, l)
    ensures Inv(Refused(s, runId, runnerId, l), l)
  {
    var t := Refused(s, runId, runnerId, l);
    forall n: nat | n < |t.records| && UnderWay(t, n) ensures Holds(t, n) {
      assert n < |s.records| && UnderWay(s, n) && Holds(s, n);
    }
    forall r, id ensures id in Bucket(t, r) <==> Within(t, id, r) {
      assert id in Bucket(s, r) <==> Within(s, id, r);
    }
  }

  // A change of status only.
  lemma StatusInv(s: State, t: State, l: Limits)
    requires Inv(s, l) && |t.records| == |s.records| && |t.phases| == |s.phases|
    requires t.active == s.active && t.activeByRunner == s.activeByRunner
    requires forall n :: 0 <= n < |s.records| ==>
               t.records[n].runId == s.records[n].runId && t.records[n].runnerId == s.records[n].runnerId
    requires forall n: nat | n < |s.phases| :: UnderWay(t, n) == UnderWay(s, n)
    requires RecordsOk(t)
    ensures Inv(t, l)
  {
    forall n: nat | n < |t.records| && UnderWay(t, n) ensures Holds(t, n) { assert UnderWay(s, n) && Holds(s, n); }
    forall r, id ensures id in Bucket(t, r) <==> Within(t, id, r) { assert id in Bucket(s, r) <==> Within(s, id, r); }
  }

  lemma FinishInv(s: State, n: nat, l: Limits)
    requires Inv(s, l) && Possible(s, Finish(n))
    ensures Inv(FinishedRun(s, n), l)
  {
    var t := FinishedRun(s, n);
    var run := s.records[n];
    assert UnderWay(s, n) && Holds(s, n);
    forall k: nat | k < |t.records| && UnderWay(t, k) ensures Holds(t, k) { assert UnderWay(s, k) && Holds(s, k); }
    assert run.runId in Bucket(s, run.runnerId) by { assert Within(s, run.runId, run.runnerId); }
    forall r, id ensures id in Bucket(t, r) <==> Within(t, id, r) {
      assert id in Bucket(s, r) <==> Within(s, id, r);
      assert id in Bucket(t, r) <==> id in Bucket(s, r) && !(r == run.runnerId && id == run.runId);
    }
  }

  lemma StepKeepsInv(s: State, a: Action, l: Limits)
    requires Inv(s, l) && Possible(s, a)
    ensures Inv(After(s, a, l), l)
  {
    match a {
      case Admit(runId, runnerId) => AdmitInv(s, runId, runnerId, l);
      case Reject(runId, runnerId) => RefusedInv(s, runId, runnerId, l);
      case Cancel(runId) => StatusInv(s, After(s, a, l), l);
      case Settle(n, _) => StatusInv(s, After(s, a, l), l);
      case Finish(n) => FinishInv(s, n, l);
    }
  }

  ghost predicate StepOf(s: State, a: Action, l: Limits, t: State) {
    Possible(s, a) && t == After(s, a, l)
  }

  ghost predicate Trace(states: seq<State>, actions: seq<Action>, l: Limits) {
    && |states| == |actions| + 1 && states[0] == START
    && forall k :: 0 <= k < |actions| ==> StepOf(states[k], actions[k], l, states[k + 1])
  }

  predicate Accepts(s: State, a: Action, l: Limits) {
    a.Admit? && VerdictOn(s, a.runId, a.runnerId, l).Accepted?
  }

  function AcceptedIn(states: seq<State>, actions: seq<Action>, l: Limits, n: nat): nat
    requires n <= |actions| && |states| == |actions| + 1
  {
    if n == 0 then 0
    else AcceptedIn(states, actions, l, n - 1) + if Accepts(states[n - 1], actions[n - 1], l) then 1 else 0
  }

  lemma StepCounts(s: State, a: Action, l: Limits)
    requires ActiveOk(s) && Possible(s, a)
    ensures var t := After(s, a, l);
            |t.active| + t.completedRuns == |s.active| + s.completedRuns + if Accepts(s, a, l) then 1 else 0
  {
    if a.Finish? { assert UnderWay(s, a.number) && Holds(s, a.number); }
  }

  lemma {:induction false} InvInTrace(states: seq<State>, actions: seq<Action>, l: Limits, n: nat)
    requires Trace(states, actions, l) && n < |states|
    ensures Inv(states[n], l)
  {
    if n > 0 {
      InvInTrace(states, actions, l, n - 1);
      assert StepOf(states[n - 1], actions[n - 1], l, states[n - 1 + 1]);
      StepKeepsInv(states[n - 1], actions[n - 1], l);
    }
  }

  lemma TraceStepCounts(states: seq<State>, actions: seq<Action>, l: Limits, n: nat)
    requires Trace(states, actions, l) && n < |actions|
    ensures var s, t := states[n], states[n + 1];
            |t.active| + t.completedRuns == |s.active| + s.completedRuns + if Accepts(s, actions[n], l) then 1 else 0
  {
    InvInTrace(states, actions, l, n);
    assert StepOf(states[n], actions[n], l, states[n + 1]);
    StepCounts(states[n], actions[n], l);
  }

  // In every run: the buckets split the active runs, within the cap, and what was
  // accepted is active or completed.
  lemma {:induction false} TraceKeepsInv(states: seq<State>, actions: seq<Action>, l: Limits, n: nat)
    requires Trace(states, actions, l) && n < |states|
    ensures Inv(states[n], l)
    ensures AcceptedIn(states, actions, l, n) == |states[n].active| + states[n].completedRuns
  {
    if n > 0 {
      TraceKeepsInv(states, actions, l, n - 1);
      TraceStepCounts(states, actions, l, n - 1);
    }
    InvInTrace(states, actions, l, n);
  }

  predicate Final(s: State, k: nat, r: Record) {
    k < |s.records| && s.records[k] == r && (r.status.Cancelled? || r.status.Rejected?)
  }

  lemma StepKeepsFinal(s: State, a: Action, l: Limits, k: nat, r: Record)
    requires Inv(s, l) && Possible(s, a) && Final(s, k, r)
    ensures Final(After(s, a, l), k, r)
  {
    if a.Cancel? && a.runId in s.active { assert UnderWay(s, s.active[a.runId]); }
  }

  // Once cancelled, a record stays cancelled; the same holds of a rejected one.
  lemma {:induction false} CancelledStays(states: seq<State>, actions: seq<Action>, l: Limits, m: nat, n: nat,
                                          k: nat, r: Record)
    requires Trace(states, actions, l) && m <= n < |states| && Final(states[m], k, r)
    ensures Final(states[n], k, r)
    decreases n - m
  {
    if m < n {
      CancelledStays(states, actions, l, m, n - 1, k, r);
      assert StepOf(states[n - 1], actions[n - 1], l, states[n - 1 + 1]);
      TraceKeepsInv(states, actions, l, n - 1);
      StepKeepsFinal(states[n - 1], actions[n - 1], l, k, r);
    }
  }

  // A completed record stays completed in a step, unless the run has not been taken out
  // yet and the step cancels it.
  lemma CompletedStaysIff(s: State, a: Action, l: Limits, k: nat)
    requires Inv(s, l) && Possible(s, a) && k < |s.records| && s.records[k].status.Completed?
    ensures var t := After(s, a, l);
            k < |t.records| &&
            (t.records[k].status.Completed? <==> !(s.phases[k].Settled? && a == Cancel(s.records[k].runId)))
  {
    if s.phases[k].Settled? { assert UnderWay(s, k) && Holds(s, k); }
    if a.Cancel? && a.runId in s.active { assert UnderWay(s, s.active[a.runId]); }
  }

  // Such a step.
  lemma CompletedCanBecomeCancelled()
    ensures var l := Limits(1, 100);
            var s := SettledRun(Admitted(START, "run", "runner", l), 0, true);
            s.records[0].status.Completed? && CancelledRun(s, "run").records[0].status.Cancelled?
  {
  }
}
