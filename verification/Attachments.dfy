/** The attachment mirror: pushes and overlapping fetches race to write it. Proved: it
    never misses a push of the instance it shows, exactly when a finished fetch is thrown
    away for an older push, and exactly when it takes the mirror back behind a fetch shown
    before. */
module Attachments {
  import opened Wrappers

  // A list of attachments and where it comes from: the n-th push received, or the n-th
  // fetch, begun when so many pushes had been received.
  datatype Listing =
    | Pushed(number: nat, runnerIds: seq<string>)
    | Fetched(fetch: nat, begun: nat, runnerIds: seq<string>)

  datatype Mirror = Mirror(instanceId: string, listing: Listing)

  datatype State = State(pushRevision: nat, latestPush: map<string, Listing>, current: set<string>,
                         mirror: Option<Mirror>)

  const START := State(0, map[], {}, None)

  // How many pushes a listing reflects.
  function Known(l: Listing): nat {
    if l.Pushed? then l.number else l.begun
  }

  function Push(s: State, instanceId: string, runnerIds: seq<string>): State {
    var listing := Pushed(s.pushRevision + 1, runnerIds);
    State(s.pushRevision + 1, s.latestPush[instanceId := listing], s.current + {instanceId},
          Some(Mirror(instanceId, listing)))
  }

  // A fetch under way; the number tells the fetches apart.
  datatype Fetch = Fetch(number: nat, instanceId: string, revisionAtStart: nat)

  function Finish(s: State, f: Fetch, runnerIds: seq<string>): State {
    var listing := if s.pushRevision != f.revisionAtStart && f.instanceId in s.latestPush then s.latestPush[f.instanceId]
                   else Fetched(f.number, f.revisionAtStart, runnerIds);
    s.(mirror := Some(Mirror(f.instanceId, listing)), current := s.current + {f.instanceId})
  }

  class AttachmentReconciler {
    var pushRevision: nat
    var latestPushByInstance: map<string, Listing>
    var currentInstances: set<string>
    var mirror: Option<Mirror>

    function Value(): State
      reads this
    {
      State(pushRevision, latestPushByInstance, currentInstances, mirror)
    }

    constructor ()
      ensures Value() == START
    {
      pushRevision, latestPushByInstance, currentInstances, mirror := 0, map[], {}, None;
    }

    method Write(instanceId: string, listing: Listing)
      modifies this`mirror
      ensures mirror == Some(Mirror(instanceId, listing))
    {
      mirror := Some(Mirror(instanceId, listing));
    }

    // Up to the point where the fetch is sent.
    method BeginReconcile() returns (revisionAtStart: nat)
      ensures revisionAtStart == pushRevision
    {
      revisionAtStart := pushRevision;
    }

    // From the point where its answer is there.
    method FinishReconcile(f: Fetch, runnerIds: seq<string>)
      modifies this
      ensures Value() == Finish(old(Value()), f, runnerIds)
    {
      Write(f.instanceId, Fetched(f.number, f.revisionAtStart, runnerIds));
      if pushRevision != f.revisionAtStart {
        if f.instanceId in latestPushByInstance {
          Write(f.instanceId, latestPushByInstance[f.instanceId]);
        }
      }
      currentInstances := currentInstances + {f.instanceId};
    }

    method ApplyPush(instanceId: string, runnerIds: seq<string>)
      modifies this
      ensures Value() == Push(old(Value()), instanceId, runnerIds)
    {
      pushRevision := pushRevision + 1;
      latestPushByInstance := latestPushByInstance[instanceId := Pushed(pushRevision, runnerIds)];
      Write(instanceId, Pushed(pushRevision, runnerIds));
      currentInstances := currentInstances + {instanceId};
    }

    method MarkStale(instanceId: string)
      modifies this`currentInstances
      ensures currentInstances == old(currentInstances) - {instanceId}
    {
      currentInstances := currentInstances - {instanceId};
    }
  }

  // ------------------------------------------------------------ whole runs

  // The fetches under way, by number, and how many were begun.
  datatype World = World(state: State, inFlight: map<nat, Fetch>, begun: nat)

  datatype Action =
    | ApplyPush(instanceId: string, runnerIds: seq<string>)
    | Begin(instanceId: string)
    | Answer(number: nat, runnerIds: seq<string>)
    | GiveUp(number: nat)
    | MarkStale(instanceId: string)

  function After(w: World, a: Action): World {
    match a
    case ApplyPush(i, ids) => w.(state := Push(w.state, i, ids))
    case Begin(i) =>
      w.(inFlight := w.inFlight[w.begun := Fetch(w.begun, i, w.state.pushRevision)], begun := w.begun + 1)
    case Answer(n, ids) =>
      if n !in w.inFlight then w
      else w.(state := Finish(w.state, w.inFlight[n], ids), inFlight := w.inFlight - {n})
    case GiveUp(n) => w.(inFlight := w.inFlight - {n})
    case MarkStale(i) => w.(state := w.state.(current := w.state.current - {i}))
  }

  function Run(actions: seq<Action>): World {
    if actions == [] then World(START, map[], 0) else After(Run(actions[..|actions| - 1]), actions[|actions| - 1])
  }

  function LastPush(s: State, instanceId: string): nat {
    if instanceId in s.latestPush then Known(s.latestPush[instanceId]) else 0
  }

  // The mirror reflects the last push of the instance it shows.
  ghost predicate Inv(w: World) {
    var s := w.state;
    && (forall i | i in s.latestPush :: s.latestPush[i].Pushed? && 0 < s.latestPush[i].number <= s.pushRevision)
    && (s.mirror.Some? ==>
          var m := s.mirror.value;
          LastPush(s, m.instanceId) <= Known(m.listing) <= s.pushRevision &&
          (m.listing.Pushed? ==> m.instanceId in s.latestPush && m.listing == s.latestPush[m.instanceId]))
    && (forall n | n in w.inFlight ::
          n < w.begun && w.inFlight[n].number == n && w.inFlight[n].revisionAtStart <= s.pushRevision)
    && (ShowsFetch(s) ==> s.mirror.value.listing.fetch < w.begun && s.mirror.value.listing.fetch !in w.inFlight)
  }

  predicate ShowsFetch(s: State) {
    s.mirror.Some? && s.mirror.value.listing.Fetched?
  }

  // Whatever pushes and fetches overlap, for however many instances: what the mirror
  // shows is the latest push of its instance, or a fetch begun after that push.
  lemma {:induction false} MirrorMissesNoPush(actions: seq<Action>)
    ensures Inv(Run(actions))
  {
    if actions != [] {
      MirrorMissesNoPush(actions[..|actions| - 1]);
      StepKeepsInv(Run(actions[..|actions| - 1]), actions[|actions| - 1]);
    }
  }

  lemma StepKeepsInv(w: World, a: Action)
    requires Inv(w)
    ensures Inv(After(w, a))
  {
  }

  ghost predicate OneInstance(actions: seq<Action>, instanceId: string) {
    forall a | a in actions ::
      (a.ApplyPush? ==> a.instanceId == instanceId) && (a.Begin? ==> a.instanceId == instanceId)
  }

  // With one instance: the latest push of all, or a fetch begun after it.
  lemma {:induction false} OneInstanceIsCurrent(actions: seq<Action>, instanceId: string)
    requires OneInstance(actions, instanceId)
    ensures var w := Run(actions);
            && (w.state.mirror.Some? ==> Known(w.state.mirror.value.listing) == w.state.pushRevision)
            && (w.state.pushRevision > 0 ==> LastPush(w.state, instanceId) == w.state.pushRevision)
            && (forall n | n in w.inFlight :: w.inFlight[n].instanceId == instanceId)
  {
    if actions != [] {
      var front, a := actions[..|actions| - 1], actions[|actions| - 1];
      assert forall b | b in front :: b in actions;
      assert a in actions;
      OneInstanceIsCurrent(front, instanceId);
      MirrorMissesNoPush(front);
    }
  }

  // A finished fetch gives way to a push that is older than it exactly when some push
  // came in meanwhile, the instance has had a push, but none since the fetch began:
  // the revision is counted over all instances.
  lemma FetchYieldsToOlderPush(w: World, number: nat, runnerIds: seq<string>)
    requires Inv(w) && number in w.inFlight
    ensures var f := w.inFlight[number];
            var shown := After(w, Answer(number, runnerIds)).state.mirror.value.listing;
            (shown.Pushed? && shown.number <= f.revisionAtStart) <==>
            w.state.pushRevision != f.revisionAtStart && 0 < LastPush(w.state, f.instanceId) <= f.revisionAtStart
  {
  }

  // Such a run: the fetch of one instance saw its push, another instance is pushed
  // before the answer, and the mirror goes back to the push.
  lemma OtherInstanceUndoesFetch()
    ensures var w := Run([ApplyPush("a", ["old"]), Begin("a"), ApplyPush("b", []), Answer(0, ["new"])]);
            w.state.mirror == Some(Mirror("a", Pushed(1, ["old"])))
  {
    RunOfFour(ApplyPush("a", ["old"]), Begin("a"), ApplyPush("b", []), Answer(0, ["new"]));
  }

  lemma RunOfFour(a: Action, b: Action, c: Action, d: Action)
    ensures Run([a, b, c, d]) == After(After(After(After(World(START, map[], 0), a), b), c), d)
  {
    assert [a, b, c, d][..3] == [a, b, c] && [a, b, c][..2] == [a, b] && [a, b][..1] == [a] && [a][..0] == [];
    assert Run([a]) == After(World(START, map[], 0), a);
    assert Run([a, b]) == After(Run([a]), b);
    assert Run([a, b, c]) == After(Run([a, b]), c);
  }

  // ------------------------------------------------- fetches that overtake

  // The listing is older than a fetch: an earlier fetch, or a push that fetch has seen.
  predicate OlderThan(l: Listing, fetch: nat, begun: nat) {
    if l.Pushed? then l.number <= begun else l.fetch < fetch
  }

  // The mirror shows a fetch, and another one of the instance is answered: the mirror goes
  // back to something older exactly if the other one was begun before, or gives way to a
  // push.
  lemma AnswerGoesBack(w: World, number: nat, runnerIds: seq<string>)
    requires Inv(w) && number in w.inFlight && ShowsFetch(w.state)
    requires w.inFlight[number].instanceId == w.state.mirror.value.instanceId
    ensures var was, f := w.state.mirror.value.listing, w.inFlight[number];
            OlderThan(After(w, Answer(number, runnerIds)).state.mirror.value.listing, was.fetch, was.begun) <==>
            number < was.fetch || (w.state.pushRevision != f.revisionAtStart && LastPush(w.state, f.instanceId) > 0)
  {
  }

  // Each fetch is answered only when the ones begun before it are done.
  ghost predicate InTurn(actions: seq<Action>) {
    forall k | 0 <= k < |actions| && actions[k].Answer? ::
      forall n | n in Run(actions[..k]).inFlight :: actions[k].number <= n
  }

  // Then no fetch that is still under way is older than the one shown.
  lemma {:induction false} InTurnNeverGoesBack(actions: seq<Action>)
    requires InTurn(actions)
    ensures var w := Run(actions);
            ShowsFetch(w.state) ==> forall n | n in w.inFlight :: w.state.mirror.value.listing.fetch < n
  {
    if actions != [] {
      var front, a := actions[..|actions| - 1], actions[|actions| - 1];
      forall k | 0 <= k < |front| && front[k].Answer?
        ensures forall n | n in Run(front[..k]).inFlight :: front[k].number <= n
      {
        assert front[..k] == actions[..k] && front[k] == actions[k];
      }
      InTurnNeverGoesBack(front);
      MirrorMissesNoPush(front);
    }
  }

  // Out of turn: of two fetches the later one is answered first, and the mirror ends at
  // the earlier one.
  lemma EarlierFetchOverwrites()
    ensures var w := Run([Begin("a"), Begin("a"), Answer(1, ["new"]), Answer(0, ["old"])]);
            w.state.mirror == Some(Mirror("a", Fetched(0, 0, ["old"])))
  {
    RunOfFour(Begin("a"), Begin("a"), Answer(1, ["new"]), Answer(0, ["old"]));
  }

  // ---------------------------------------------------- current instances

  // The step pushes for the instance, or answers a fetch of it.
  ghost predicate Refreshes(w: World, a: Action, instanceId: string) {
    || (a.ApplyPush? && a.instanceId == instanceId)
    || (a.Answer? && a.number in w.inFlight && w.inFlight[a.number].instanceId == instanceId)
  }

  ghost predicate RefreshedSince(actions: seq<Action>, instanceId: string, k: int) {
    && 0 <= k < |actions| && Refreshes(Run(actions[..k]), actions[k], instanceId)
    && forall j | k < j < |actions| :: actions[j] != MarkStale(instanceId)
  }

  ghost predicate Refreshed(actions: seq<Action>, instanceId: string) {
    exists k :: RefreshedSince(actions, instanceId, k)
  }

  // In every run an instance counts as current exactly if it was pushed or fetched and not
  // marked stale since.
  lemma {:induction false} CurrentIff(actions: seq<Action>, instanceId: string)
    ensures instanceId in Run(actions).state.current <==> Refreshed(actions, instanceId)
  {
    if actions != [] {
      var last := |actions| - 1;
      var front, a := actions[..last], actions[last];
      CurrentIff(front, instanceId);
      if Refreshes(Run(front), a, instanceId) {
        assert RefreshedSince(actions, instanceId, last);
      } else {
        SinceOneMore(actions, instanceId);
      }
    }
  }

  lemma SinceOneMore(actions: seq<Action>, instanceId: string)
    requires actions != []
    requires !Refreshes(Run(actions[..|actions| - 1]), actions[|actions| - 1], instanceId)
    ensures Refreshed(actions, instanceId) <==>
            actions[|actions| - 1] != MarkStale(instanceId) && Refreshed(actions[..|actions| - 1], instanceId)
  {
    var last := |actions| - 1;
    var front := actions[..last];
    if k :| RefreshedSince(actions, instanceId, k) {
      assert front[..k] == actions[..k] && RefreshedSince(front, instanceId, k);
    }
    if actions[last] != MarkStale(instanceId) && Refreshed(front, instanceId) {
      var k :| RefreshedSince(front, instanceId, k);
      assert front[..k] == actions[..k] && RefreshedSince(actions, instanceId, k);
    }
  }
}
