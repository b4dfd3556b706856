/** Reconciling the registered channels with the wanted ones: the plan, its execution
    against the manager, and what is registered afterwards whatever fails. */
module ChannelReconcile {
  import opened Wrappers
  import opened Channels

  datatype Sidecar = Sidecar(instanceId: string, attachmentId: Option<string>)

  datatype LoadError = LoadError(path: string, reason: string)

  datatype Action =
    | Report(id: string, path: string, reason: string)
    | UnregisterStale(id: string)
    | Replace(sidecar: Sidecar)
    | Register(sidecar: Sidecar)

  datatype Result = Result(id: string, ok: bool, action: string)

  // Which stops, builds and starts succeed. A built adapter has its sidecar's id.
  datatype Faults = Faults(stops: string -> bool, builds: Sidecar -> bool, starts: string -> bool)

  // ------------------------------------------------------------- the plan

  function LastSegment(path: string): string {
    if path == "" then ""
    else
      var last := path[|path| - 1];
      if last == '/' || last == '\\' then "" else LastSegment(path[..|path| - 1]) + [last]
  }

  function PathId(path: string): string {
    var base := LastSegment(path);
    if |base| >= 5 && base[|base| - 5..] == ".json" then base[..|base| - 5] else base
  }

  // The id reported for a path is what follows its last separator, without the ending of a
  // configuration file.
  lemma {:induction false} SegmentIsLast(path: string)
    ensures var base := LastSegment(path);
            && '/' !in base && '\\' !in base && |base| <= |path| && path[|path| - |base|..] == base
            && (|base| == |path| || path[|path| - |base| - 1] in {'/', '\\'})
  {
    if path != "" && path[|path| - 1] != '/' && path[|path| - 1] != '\\' { SegmentIsLast(path[..|path| - 1]); }
  }

  lemma PathIdIs(path: string)
    ensures SegmentWithout(LastSegment(path), PathId(path))
  {
  }

  // The id with the ending is the name, or the name has no such ending and is the id.
  predicate SegmentWithout(name: string, id: string) {
    name == id + ".json" || (name == id && (|name| < 5 || name[|name| - 5..] != ".json"))
  }

  function Reports(errors: seq<LoadError>): seq<Action> {
    seq(|errors|, i requires 0 <= i < |errors| => Report(PathId(errors[i].path), errors[i].path, errors[i].reason))
  }

  predicate Desires(desired: seq<Sidecar>, id: string) {
    exists i | 0 <= i < |desired| :: desired[i].instanceId == id
  }

  function Removals(current: seq<string>, desired: seq<Sidecar>): seq<Action> {
    if current == [] then []
    else
      var id := current[|current| - 1];
      Removals(current[..|current| - 1], desired) + if Desires(desired, id) then [] else [UnregisterStale(id)]
  }

  function Applications(desired: seq<Sidecar>, current: seq<string>): seq<Action> {
    seq(|desired|, i requires 0 <= i < |desired| =>
          if desired[i].instanceId in current then Replace(desired[i]) else Register(desired[i]))
  }

  function Plan(desired: seq<Sidecar>, current: seq<string>, errors: seq<LoadError>, unregisterStale: bool): seq<Action> {
    Reports(errors) + (if unregisterStale then Removals(current, desired) else []) + Applications(desired, current)
  }

  method PlanChannelReconciliation(desired: seq<Sidecar>, current: seq<string>, errors: seq<LoadError>,
                                   unregisterStale: bool) returns (actions: seq<Action>)
    ensures actions == Plan(desired, current, errors, unregisterStale)
  {
    actions := [];
    for i := 0 to |errors|
      invariant actions == Reports(errors)[..i]
    {
      actions := actions + [Report(PathId(errors[i].path), errors[i].path, errors[i].reason)];
    }
    ghost var reports := actions;
    if unregisterStale {
      for i := 0 to |current|
        invariant actions == reports + Removals(current[..i], desired)
      {
        assert current[..i + 1][..i] == current[..i];
        if !Desires(desired, current[i]) {
          actions := actions + [UnregisterStale(current[i])];
        }
      }
      assert current[..|current|] == current;
    }
    ghost var before := actions;
    for i := 0 to |desired|
      invariant actions == before + Applications(desired, current)[..i]
    {
      actions := actions + [if desired[i].instanceId in current then Replace(desired[i]) else Register(desired[i])];
    }
  }

  // --------------------------------------------------------- one action

  function Built(s: Sidecar, f: Faults): Adapter {
    Adapter(s.instanceId, f.starts(s.instanceId))
  }

  function ApplyStep(channels: Registered, s: Sidecar, f: Faults, existed: bool): (Registered, Result) {
    if !f.builds(s) then (channels, Result(s.instanceId, false, "failed"))
    else if RegisterOutcome(channels, false, Built(s, f)).Started? then
      (AfterRegister(channels, false, Built(s, f), s.attachmentId),
       Result(s.instanceId, true, if existed then "replaced" else "registered"))
    else (channels, Result(s.instanceId, false, "failed"))
  }

  function Step(channels: Registered, a: Action, f: Faults): (Registered, Result) {
    match a
    case Report(id, _, _) => (channels, Result(id, false, "failed"))
    case UnregisterStale(id) =>
      var ok := UnregisterOutcome(channels, id, f.stops(id)).Stopped?;
      (channels - {id}, Result(id, ok, if ok then "unregistered" else "failed"))
    case Register(s) => ApplyStep(channels, s, f, false)
    case Replace(s) =>
      var id := s.instanceId;
      if !UnregisterOutcome(channels, id, f.stops(id)).Stopped? then (channels - {id}, Result(id, false, "failed"))
      else ApplyStep(channels - {id}, s, f, true)
  }

  function Executed(channels: Registered, actions: seq<Action>, f: Faults): Registered {
    if actions == [] then channels
    else Step(Executed(channels, actions[..|actions| - 1], f), actions[|actions| - 1], f).0
  }

  // One result an action, in the order of the plan.
  function Results(channels: Registered, actions: seq<Action>, f: Faults): (r: seq<Result>)
    ensures |r| == |actions|
  {
    if actions == [] then []
    else
      var front := actions[..|actions| - 1];
      Results(channels, front, f) + [Step(Executed(channels, front, f), actions[|actions| - 1], f).1]
  }

  class ChannelSidecarReconciler {
    const channelManager: ChannelManager

    constructor (channelManager: ChannelManager)
      ensures this.channelManager == channelManager
    {
      this.channelManager := channelManager;
    }

    method Reconcile(desired: seq<Sidecar>, errors: seq<LoadError>, unregisterStale: bool, f: Faults)
      returns (results: seq<Result>, ghost current: seq<string>)
      requires !channelManager.stopped
      modifies channelManager
      ensures Lists(current, old(channelManager.entries))
      ensures channelManager.entries ==
              Executed(old(channelManager.entries), Plan(desired, current, errors, unregisterStale), f)
      ensures results == Results(old(channelManager.entries), Plan(desired, current, errors, unregisterStale), f)
    {
      var ids := channelManager.ListChannels();
      current := ids;
      var actions := PlanChannelReconciliation(desired, ids, errors, unregisterStale);
      results := ExecuteAll(actions, f);
    }

    method ExecuteAll(actions: seq<Action>, f: Faults) returns (results: seq<Result>)
      requires !channelManager.stopped
      modifies channelManager
      ensures channelManager.entries == Executed(old(channelManager.entries), actions, f)
      ensures results == Results(old(channelManager.entries), actions, f)
    {
      ghost var before := channelManager.entries;
      results := [];
      for i := 0 to |actions|
        invariant !channelManager.stopped
        invariant channelManager.entries == Executed(before, actions[..i], f)
        invariant results == Results(before, actions[..i], f)
      {
        assert actions[..i + 1][..i] == actions[..i];
        var result := ExecuteAction(actions[i], f);
        results := results + [result];
      }
      assert actions[..|actions|] == actions;
    }

    method ExecuteAction(a: Action, f: Faults) returns (result: Result)
      requires !channelManager.stopped
      modifies channelManager
      ensures (channelManager.entries, result) == Step(old(channelManager.entries), a, f) && !channelManager.stopped
    {
      match a {
        case Report(id, _, _) => return Result(id, false, "failed");
        case UnregisterStale(id) =>
          var r := channelManager.Unregister(id, f.stops(id));
          return Result(id, r.Stopped?, if r.Stopped? then "unregistered" else "failed");
        case Replace(s) =>
          var r := channelManager.Unregister(s.instanceId, f.stops(s.instanceId));
          if !r.Stopped? { return Result(s.instanceId, false, "failed"); }
          result := ExecuteApply(s, f, true);
        case Register(s) => result := ExecuteApply(s, f, false);
      }
    }

    method ExecuteApply(s: Sidecar, f: Faults, existed: bool) returns (result: Result)
      requires !channelManager.stopped
      modifies channelManager
      ensures (channelManager.entries, result) == ApplyStep(old(channelManager.entries), s, f, existed)
      ensures !channelManager.stopped
    {
      if !f.builds(s) { return Result(s.instanceId, false, "failed"); }
      var r := channelManager.Register(Built(s, f), s.attachmentId);
      if !r.Started? { return Result(s.instanceId, false, "failed"); }
      return Result(s.instanceId, true, if existed then "replaced" else "registered");
    }
  }

  // -------------------------------------------------------- the outcome

  predicate DistinctIds(desired: seq<Sidecar>) {
    forall i, j :: 0 <= i < j < |desired| ==> desired[i].instanceId != desired[j].instanceId
  }

  lemma {:induction false} ExecutedBoth(channels: Registered, a: seq<Action>, b: seq<Action>, f: Faults)
    ensures Executed(channels, a + b, f) == Executed(Executed(channels, a, f), b, f)
    ensures Results(channels, a + b, f) == Results(channels, a, f) + Results(Executed(channels, a, f), b, f)
  {
    if b == [] {
      assert a + b == a;
    } else {
      assert (a + b)[..|a + b| - 1] == a + b[..|b| - 1];
      ExecutedBoth(channels, a, b[..|b| - 1], f);
    }
  }

  lemma {:induction false} ReportsChangeNothing(channels: Registered, actions: seq<Action>, f: Faults)
    requires forall a | a in actions :: a.Report?
    ensures Executed(channels, actions, f) == channels
  {
    if actions != [] { ReportsChangeNothing(channels, actions[..|actions| - 1], f); }
  }

  // Removing takes away every undesired id, whether or not its adapter stops properly.
  lemma {:induction false} RemovalsRemove(channels: Registered, current: seq<string>, desired: seq<Sidecar>, f: Faults)
    ensures var after := Executed(channels, Removals(current, desired), f);
            && (forall id :: id in after <==> id in channels && !(id in current && !Desires(desired, id)))
            && (forall id | id in after :: after[id] == channels[id])
  {
    if current != [] {
      var front, id := current[..|current| - 1], current[|current| - 1];
      RemovalsRemove(channels, front, desired, f);
      var all := Removals(current, desired);
      if !Desires(desired, id) {
        assert all[..|all| - 1] == Removals(front, desired);
      } else {
        assert all == Removals(front, desired);
      }
      assert forall x :: x in current <==> x in front || x == id;
    }
  }

  // What a desired channel is after its action.
  ghost predicate Applied(channels: Registered, after: Registered, s: Sidecar, ok: bool) {
    var id := s.instanceId;
    && (id in after <==> ok) && (ok ==> after[id] == s.attachmentId)
    && (forall other | other != id :: (other in after <==> other in channels) &&
                                      (other in after ==> after[other] == channels[other]))
  }

  // The adapter that runs, if any, stops, and the new one is built and starts.
  predicate Succeeds(channels: Registered, s: Sidecar, f: Faults) {
    (s.instanceId in channels ==> f.stops(s.instanceId)) && f.builds(s) && f.starts(s.instanceId)
  }

  lemma StepApplies(channels: Registered, s: Sidecar, existed: bool, f: Faults)
    requires existed <==> s.instanceId in channels
    ensures var (after, result) := Step(channels, if existed then Replace(s) else Register(s), f);
            result.id == s.instanceId && Applied(channels, after, s, result.ok)
            && (result.ok <==> Succeeds(channels, s, f))
  {
  }

  predicate ReportedRight(after: Registered, s: Sidecar, result: Result) {
    && result.id == s.instanceId && (s.instanceId in after <==> result.ok)
    && (result.ok ==> after[s.instanceId] == s.attachmentId)
  }

  ghost predicate SameAt(channels: Registered, after: Registered, id: string) {
    (id in after <==> id in channels) && (id in after ==> after[id] == channels[id])
  }

  // Registered after the desired ones were applied: each that succeeds, reported ok and
  // with its attachment, and what is not desired as before.
  ghost predicate Outcome(channels: Registered, after: Registered, desired: seq<Sidecar>, results: seq<Result>, f: Faults) {
    && |results| == |desired|
    && (forall i :: 0 <= i < |desired| ==>
          ReportedRight(after, desired[i], results[i]) && (results[i].ok <==> Succeeds(channels, desired[i], f)))
    && (forall id | !Desires(desired, id) :: SameAt(channels, after, id))
  }

  lemma OutcomeOneMore(channels: Registered, before: Registered, after: Registered, desired: seq<Sidecar>,
                       results: seq<Result>, f: Faults)
    requires desired != [] && |results| == |desired| && DistinctIds(desired)
    requires Outcome(channels, before, desired[..|desired| - 1], results[..|desired| - 1], f)
    requires var s, r := desired[|desired| - 1], results[|desired| - 1];
             r.id == s.instanceId && Applied(before, after, s, r.ok) && (r.ok <==> Succeeds(channels, s, f))
    ensures Outcome(channels, after, desired, results, f)
  {
    var n := |desired| - 1;
    var front := desired[..n];
    forall i | 0 <= i < |desired|
      ensures ReportedRight(after, desired[i], results[i]) && (results[i].ok <==> Succeeds(channels, desired[i], f))
    {
      if i < n { assert ReportedRight(before, front[i], results[..n][i]); }
    }
    forall id | !Desires(desired, id) ensures SameAt(channels, after, id) {
      assert desired[n].instanceId != id;
      assert forall i :: 0 <= i < n ==> desired[i].instanceId == front[i].instanceId;
      assert !Desires(front, id);
      assert SameAt(channels, before, id);
    }
  }

  lemma {:induction false} ApplicationsApply(channels: Registered, desired: seq<Sidecar>, current: seq<string>, f: Faults)
    requires DistinctIds(desired) && forall s | s in desired :: s.instanceId in current <==> s.instanceId in channels
    ensures var actions := Applications(desired, current);
            Outcome(channels, Executed(channels, actions, f), desired, Results(channels, actions, f), f)
  {
    if desired != [] {
      var front, s := desired[..|desired| - 1], desired[|desired| - 1];
      ApplicationsApply(channels, front, current, f);
      var actions := Applications(desired, current);
      var first := Applications(front, current);
      assert actions[..|actions| - 1] == first;
      var before := Executed(channels, first, f);
      assert s in desired && !Desires(front, s.instanceId);
      assert SameAt(channels, before, s.instanceId);
      StepApplies(before, s, s.instanceId in current, f);
      OutcomeOneMore(channels, before, Executed(channels, actions, f), desired, Results(channels, actions, f), f);
    }
  }

  // The channels the desired ones are applied to.
  function Kept(channels: Registered, desired: seq<Sidecar>, unregisterStale: bool): Registered {
    if unregisterStale then (map id | id in channels && Desires(desired, id) :: channels[id]) else channels
  }

  lemma RemovalLeavesKept(channels: Registered, desired: seq<Sidecar>, current: seq<string>, errors: seq<LoadError>,
                          unregisterStale: bool, f: Faults)
    requires Lists(current, channels)
    ensures var removals := if unregisterStale then Removals(current, desired) else [];
            Executed(channels, Reports(errors) + removals, f) == Kept(channels, desired, unregisterStale)
  {
    ReportsChangeNothing(channels, Reports(errors), f);
    ExecutedBoth(channels, Reports(errors), if unregisterStale then Removals(current, desired) else [], f);
    RemovalsRemove(channels, current, desired, f);
  }

  // Whatever subset of stops, builds and starts fails: afterwards exactly the desired
  // ids whose results say ok are registered, with their attachments, and the undesired
  // ones of before only when stale removal is off.
  lemma ReconcileOutcome(channels: Registered, desired: seq<Sidecar>, current: seq<string>, errors: seq<LoadError>,
                         unregisterStale: bool, f: Faults)
    requires DistinctIds(desired) && Lists(current, channels)
    ensures var actions := Plan(desired, current, errors, unregisterStale);
            var results := Results(channels, actions, f);
            |results| >= |desired| &&
            Outcome(Kept(channels, desired, unregisterStale), Executed(channels, actions, f), desired,
                    results[|results| - |desired|..], f)
  {
    var first := Reports(errors) + if unregisterStale then Removals(current, desired) else [];
    var applies := Applications(desired, current);
    var kept := Kept(channels, desired, unregisterStale);
    RemovalLeavesKept(channels, desired, current, errors, unregisterStale, f);
    ExecutedBoth(channels, first, applies, f);
    assert forall s | s in desired :: Desires(desired, s.instanceId);
    ApplicationsApply(kept, desired, current, f);
    var results := Results(channels, first + applies, f);
    assert results[|results| - |desired|..] == Results(kept, applies, f);
  }

  // What the result of an action says, when it says whether it went well.
  predicate Labelled(result: Result, a: Action) {
    match a
    case Report(id, _, _) => result == Result(id, false, "failed")
    case UnregisterStale(id) => result.id == id && result.action == if result.ok then "unregistered" else "failed"
    case Replace(s) => result.id == s.instanceId && result.action == if result.ok then "replaced" else "failed"
    case Register(s) => result.id == s.instanceId && result.action == if result.ok then "registered" else "failed"
  }

  lemma StepLabelled(channels: Registered, a: Action, f: Faults)
    ensures Labelled(Step(channels, a, f).1, a)
  {
  }

  lemma {:induction false} ResultsLabelled(channels: Registered, actions: seq<Action>, f: Faults)
    ensures forall k | 0 <= k < |actions| :: Labelled(Results(channels, actions, f)[k], actions[k])
  {
    if actions != [] {
      var front := actions[..|actions| - 1];
      ResultsLabelled(channels, front, f);
      StepLabelled(Executed(channels, front, f), actions[|actions| - 1], f);
    }
  }

  // A removal reports whether the adapter stopped.
  predicate ToldOf(result: Result, a: Action, f: Faults) {
    a.UnregisterStale? ==> (result.ok <==> f.stops(a.id))
  }

  ghost predicate AllTold(results: seq<Result>, actions: seq<Action>, f: Faults) {
    |results| == |actions| && forall k | 0 <= k < |actions| :: ToldOf(results[k], actions[k], f)
  }

  lemma ResultsOneMore(channels: Registered, front: seq<Action>, a: Action, f: Faults)
    ensures Results(channels, front + [a], f) == Results(channels, front, f) + [Step(Executed(channels, front, f), a, f).1]
  {
    assert (front + [a])[..|front|] == front;
  }

  lemma {:induction false} RemovalsReport(channels: Registered, current: seq<string>, desired: seq<Sidecar>, f: Faults)
    requires forall id | id in current :: id in channels
    requires forall i, j :: 0 <= i < j < |current| ==> current[i] != current[j]
    ensures AllTold(Results(channels, Removals(current, desired), f), Removals(current, desired), f)
  {
    if current != [] {
      var front, id := current[..|current| - 1], current[|current| - 1];
      RemovalsReport(channels, front, desired, f);
      if !Desires(desired, id) {
        RemovalsRemove(channels, front, desired, f);
        assert id in current && id !in front;
        RemovalTold(channels, Removals(front, desired), id, f);
        assert Removals(current, desired) == Removals(front, desired) + [UnregisterStale(id)];
      } else {
        assert Removals(current, desired) == Removals(front, desired);
      }
    }
  }

  lemma RemovalTold(channels: Registered, removals: seq<Action>, id: string, f: Faults)
    requires AllTold(Results(channels, removals, f), removals, f) && id in Executed(channels, removals, f)
    ensures var more := removals + [UnregisterStale(id)]; AllTold(Results(channels, more, f), more, f)
  {
    ResultsOneMore(channels, removals, UnregisterStale(id), f);
  }

  lemma NoRemovalTold(results: seq<Result>, actions: seq<Action>, f: Faults)
    requires |results| == |actions| && forall a | a in actions :: !a.UnregisterStale?
    ensures AllTold(results, actions, f)
  {
  }

  lemma ToldBoth(r: seq<Result>, a: seq<Action>, q: seq<Result>, b: seq<Action>, f: Faults)
    requires AllTold(r, a, f) && AllTold(q, b, f)
    ensures AllTold(r + q, a + b, f)
  {
  }

  // Over the whole plan, one result an action: each with the id and the label of its action;
  // a reported load error is a failure, and a removal went well exactly if the adapter
  // stopped.
  lemma PlanIsReported(channels: Registered, desired: seq<Sidecar>, current: seq<string>, errors: seq<LoadError>,
                       unregisterStale: bool, f: Faults)
    requires Lists(current, channels)
    ensures var actions := Plan(desired, current, errors, unregisterStale);
            var results := Results(channels, actions, f);
            && (forall k | 0 <= k < |actions| :: Labelled(results[k], actions[k]))
            && AllTold(results, actions, f)
  {
    ResultsLabelled(channels, Plan(desired, current, errors, unregisterStale), f);
    ReportsChangeNothing(channels, Reports(errors), f);
    RemovalsReport(channels, current, desired, f);
    PlanTold(channels, Reports(errors), if unregisterStale then Removals(current, desired) else [],
             Applications(desired, current), f);
  }

  lemma PlanTold(channels: Registered, reports: seq<Action>, removals: seq<Action>, applies: seq<Action>, f: Faults)
    requires Executed(channels, reports, f) == channels && AllTold(Results(channels, removals, f), removals, f)
    requires forall a | a in reports + applies :: !a.UnregisterStale?
    ensures AllTold(Results(channels, reports + removals + applies, f), reports + removals + applies, f)
  {
    ExecutedBoth(channels, reports + removals, applies, f);
    ExecutedBoth(channels, reports, removals, f);
    NoRemovalTold(Results(channels, reports, f), reports, f);
    NoRemovalTold(Results(Executed(channels, reports + removals, f), applies, f), applies, f);
    ToldBoth(Results(channels, reports, f), reports, Results(channels, removals, f), removals, f);
    ToldBoth(Results(channels, reports + removals, f), reports + removals,
             Results(Executed(channels, reports + removals, f), applies, f), applies, f);
  }

  // Which desired channels are registered afterwards, in terms of what was registered
  // before and what fails: a running one is lost exactly when it does not stop, or its
  // new adapter is not built or does not start.
  lemma DesiredRegisteredIff(channels: Registered, desired: seq<Sidecar>, current: seq<string>, errors: seq<LoadError>,
                             unregisterStale: bool, f: Faults, i: nat)
    requires DistinctIds(desired) && Lists(current, channels) && i < |desired|
    ensures var after := Executed(channels, Plan(desired, current, errors, unregisterStale), f);
            desired[i].instanceId in after <==> Succeeds(channels, desired[i], f)
  {
    ReconcileOutcome(channels, desired, current, errors, unregisterStale, f);
    var actions := Plan(desired, current, errors, unregisterStale);
    var results := Results(channels, actions, f)[|Results(channels, actions, f)| - |desired|..];
    var kept := Kept(channels, desired, unregisterStale);
    assert ReportedRight(Executed(channels, actions, f), desired[i], results[i]);
    assert Desires(desired, desired[i].instanceId);
    assert Succeeds(kept, desired[i], f) <==> Succeeds(channels, desired[i], f);
  }

  // A registered channel that is still wanted, and whose adapter could be rebuilt and
  // would start, is gone afterwards because the old adapter fails to stop.
  lemma FailedStopLosesChannel(f: Faults, unregisterStale: bool)
    requires !f.stops("a")
    ensures var channels := AfterRegister(map[], false, Adapter("a", true), None);
            "a" in channels && "a" !in Executed(channels, Plan([Sidecar("a", None)], ["a"], [], unregisterStale), f)
  {
    var channels := AfterRegister(map[], false, Adapter("a", true), None);
    assert ["a"][0] == "a" && Lists(["a"], channels);
    DesiredRegisteredIff(channels, [Sidecar("a", None)], ["a"], [], unregisterStale, f, 0);
  }
}
