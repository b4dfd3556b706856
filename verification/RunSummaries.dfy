/** What the summary of a run says, by positions in the feed events. */
module RunSummaries {
  import opened Wrappers
  import opened FeedTypes
  import opened TimelineIndex

  predicate Starts(e: Event, id: string) {
    e.kind.RunStart? && e.runId == id
  }

  predicate EndsRun(e: Event, id: string) {
    e.kind.RunEnd? && e.runId == id
  }

  predicate Concerns(e: Event, id: string) {
    Starts(e, id) || EndsRun(e, id)
  }

  // The last event of the run, the last start of the run, and its first event.
  predicate LastOf(events: seq<Event>, id: string, i: int) {
    0 <= i < |events| && Concerns(events[i], id) && forall j | i < j < |events| :: !Concerns(events[j], id)
  }

  predicate LastStart(events: seq<Event>, id: string, i: int) {
    0 <= i < |events| && Starts(events[i], id) && forall j | i < j < |events| :: !Starts(events[j], id)
  }

  predicate FirstOf(events: seq<Event>, id: string, i: int) {
    0 <= i < |events| && Concerns(events[i], id) && forall j | 0 <= j < i :: !Concerns(events[j], id)
  }

  // Running after a start; else the outcome and the time of the last end.
  predicate TellsStatus(s: RunSummary, last: Event) {
    match last.kind
    case RunStart(_) => s.status.Running? && s.endedAt.None?
    case RunEnd(outcome) =>
      && s.endedAt == Some(last.ts)
      && (outcome.Completed? <==> s.status.Succeeded?) && (outcome.Failed? <==> s.status.RunFailed?)
      && (outcome.Aborted? <==> s.status.Cancelled?)
    case _ => false
  }

  // Begun at its last start, whose prompt it is titled by; or untitled, at its first end.
  ghost predicate TellsStart(s: RunSummary, events: seq<Event>, id: string, t: Texts) {
    && (forall i | LastStart(events, id, i) ::
          s.startedAt == events[i].ts && s.title == t.title(Prompt(events[i])))
    && ((forall i | 0 <= i < |events| :: !Starts(events[i], id)) ==>
          s.title == "Untitled run" && exists i :: FirstOf(events, id, i) && s.startedAt == events[i].ts)
  }

  function Prompt(e: Event): string
    requires e.kind.RunStart?
  {
    if e.kind.promptPreview == "" then "Untitled run" else e.kind.promptPreview
  }

  predicate Known(events: seq<Event>, id: string) {
    exists i | 0 <= i < |events| :: Concerns(events[i], id)
  }

  ghost predicate Tells(found: Option<RunSummary>, events: seq<Event>, id: string, t: Texts) {
    && (found.Some? <==> Known(events, id))
    && (found.Some? ==>
          && found.value.runId == id && TellsStart(found.value, events, id, t)
          && forall i | LastOf(events, id, i) :: TellsStatus(found.value, events[i]))
  }

  lemma {:induction false} FindPut(runs: seq<RunSummary>, s: RunSummary, id: string)
    ensures FindRun(PutRun(runs, s), id) == if id == s.runId then Some(s) else FindRun(runs, id)
  {
    if runs != [] && runs[0].runId != s.runId {
      FindPut(runs[1..], s, id);
      assert PutRun(runs, s)[1..] == PutRun(runs[1..], s);
    } else if runs != [] {
      assert PutRun(runs, s)[1..] == runs[1..];
    }
  }

  lemma OtherEvent(found: Option<RunSummary>, front: seq<Event>, e: Event, id: string, t: Texts)
    requires Tells(found, front, id, t) && !Concerns(e, id)
    ensures Tells(found, front + [e], id, t)
  {
    OtherKeepsLast(front, e, id);
    if found.Some? { OtherKeepsStart(found.value, front, e, id, t); }
  }

  lemma OtherKeepsLast(front: seq<Event>, e: Event, id: string)
    requires !Concerns(e, id)
    ensures Known(front + [e], id) <==> Known(front, id)
    ensures forall i | LastOf(front + [e], id, i) :: LastOf(front, id, i) && (front + [e])[i] == front[i]
  {
    var events := front + [e];
    assert events[|front|] == e;
    if Known(front, id) {
      var i :| 0 <= i < |front| && Concerns(front[i], id);
      assert Concerns(events[i], id);
    }
  }

  lemma OtherKeepsStart(s: RunSummary, front: seq<Event>, e: Event, id: string, t: Texts)
    requires TellsStart(s, front, id, t) && !Starts(e, id)
    ensures TellsStart(s, front + [e], id, t)
  {
    var events := front + [e];
    assert events[|front|] == e;
    assert forall i | LastStart(events, id, i) :: LastStart(front, id, i) && events[i] == front[i];
    if forall i | 0 <= i < |events| :: !Starts(events[i], id) {
      assert forall i | 0 <= i < |front| :: front[i] == events[i];
      var i :| FirstOf(front, id, i) && s.startedAt == front[i].ts;
      assert FirstOf(events, id, i);
    }
  }

  lemma StartEvent(front: seq<Event>, e: Event, s: RunSummary, id: string, t: Texts)
    requires Starts(e, id) && s == RunSummary(id, t.title(Prompt(e)), Running, e.ts, None)
    ensures Tells(Some(s), front + [e], id, t)
  {
    var events := front + [e];
    assert events[|front|] == e && Concerns(events[|front|], id);
    assert forall i | LastOf(events, id, i) :: i == |front|;
    assert forall i | LastStart(events, id, i) :: i == |front|;
  }

  lemma EndEvent(found: Option<RunSummary>, front: seq<Event>, e: Event, s: RunSummary, id: string, t: Texts)
    requires Tells(found, front, id, t) && EndsRun(e, id)
    requires s.runId == id && TellsStatus(s, e)
    requires if found.Some? then s.title == found.value.title && s.startedAt == found.value.startedAt
             else s.title == "Untitled run" && s.startedAt == e.ts
    ensures Tells(Some(s), front + [e], id, t)
  {
    var events := front + [e];
    assert events[|front|] == e && Concerns(events[|front|], id);
    assert forall i | LastOf(events, id, i) :: i == |front|;
    assert forall i | 0 <= i < |front| :: events[i] == front[i];
    assert forall i | LastStart(events, id, i) :: LastStart(front, id, i) && Concerns(front[i], id);
    if found.Some? {
      OtherKeepsStart(s, front, e, id, t);
    } else {
      assert FirstOf(events, id, |front|);
    }
  }

  // A run has a summary exactly if some event starts or ends it; the summary says how its
  // last event left it, and when and as what it was last started.
  lemma {:induction false} SummaryTells(events: seq<Event>, t: Texts, id: string)
    ensures Tells(FindRun(RunsOf(events, t), id), events, id, t)
  {
    if events != [] {
      var front, e := events[..|events| - 1], events[|events| - 1];
      SummaryTells(front, t, id);
      NextTells(RunsOf(front, t), front, e, id, t);
      assert events == front + [e];
    }
  }

  lemma NextTells(runs: seq<RunSummary>, front: seq<Event>, e: Event, id: string, t: Texts)
    requires Tells(FindRun(runs, id), front, id, t)
    ensures Tells(FindRun(ProcessRunEvent(runs, e, t), id), front + [e], id, t)
  {
    if e.kind.RunStart? {
      var s := RunSummary(e.runId, t.title(Prompt(e)), Running, e.ts, None);
      FindPut(runs, s, id);
      if e.runId == id { StartEvent(front, e, s, id, t); } else { OtherEvent(FindRun(runs, id), front, e, id, t); }
    } else if e.kind.RunEnd? {
      NextEnds(runs, front, e, id, t);
    } else {
      OtherEvent(FindRun(runs, id), front, e, id, t);
    }
  }

  lemma NextEnds(runs: seq<RunSummary>, front: seq<Event>, e: Event, id: string, t: Texts)
    requires Tells(FindRun(runs, id), front, id, t) && e.kind.RunEnd?
    ensures Tells(FindRun(ProcessRunEvent(runs, e, t), id), front + [e], id, t)
  {
    var known := FindRun(runs, e.runId);
    var s := if known.Some? then known.value.(status := StatusOf(e.kind.outcome), endedAt := Some(e.ts))
             else RunSummary(e.runId, "Untitled run", StatusOf(e.kind.outcome), e.ts, Some(e.ts));
    FindIs(runs, e.runId);
    FindPut(runs, s, id);
    if e.runId == id { EndEvent(known, front, e, s, id, t); } else { OtherEvent(FindRun(runs, id), front, e, id, t); }
  }

  lemma {:induction false} FindIs(runs: seq<RunSummary>, id: string)
    ensures FindRun(runs, id).Some? ==> FindRun(runs, id).value.runId == id && FindRun(runs, id).value in runs
  {
    if runs != [] { FindIs(runs[1..], id); }
  }

  predicate OneEach(runs: seq<RunSummary>) {
    forall i, j | 0 <= i < j < |runs| :: runs[i].runId != runs[j].runId
  }

  // No run has two summaries.
  lemma {:induction false} SummariesDistinct(events: seq<Event>, t: Texts)
    ensures OneEach(RunsOf(events, t))
  {
    if events != [] {
      var front, e := events[..|events| - 1], events[|events| - 1];
      SummariesDistinct(front, t);
      NextDistinct(RunsOf(front, t), e, t);
    }
  }

  lemma NextDistinct(runs: seq<RunSummary>, e: Event, t: Texts)
    requires OneEach(runs)
    ensures OneEach(ProcessRunEvent(runs, e, t))
  {
    if e.kind.RunStart? {
      PutDistinct(runs, RunSummary(e.runId, t.title(Prompt(e)), Running, e.ts, None));
    } else if e.kind.RunEnd? {
      var known := FindRun(runs, e.runId);
      PutDistinct(runs, if known.Some? then known.value.(status := StatusOf(e.kind.outcome), endedAt := Some(e.ts))
                        else RunSummary(e.runId, "Untitled run", StatusOf(e.kind.outcome), e.ts, Some(e.ts)));
    }
  }

  lemma {:induction false} PutDistinct(runs: seq<RunSummary>, s: RunSummary)
    requires OneEach(runs)
    ensures OneEach(PutRun(runs, s))
    ensures forall x | x in PutRun(runs, s) :: x == s || x in runs
  {
    if runs != [] && runs[0].runId == s.runId {
      var r := [s] + runs[1..];
      assert forall i | 0 <= i < |runs| :: r[i].runId == runs[i].runId;
    } else if runs != [] {
      var rest := PutRun(runs[1..], s);
      assert forall i | 0 <= i < |runs[1..]| :: runs[1..][i] == runs[i + 1];
      PutDistinct(runs[1..], s);
      forall x | x in rest ensures x.runId != runs[0].runId {
        if x in runs[1..] {
          var i :| 0 <= i < |runs[1..]| && runs[1..][i] == x;
          assert runs[0].runId != runs[i + 1].runId;
        }
      }
      assert forall i | 0 <= i < |rest| :: rest[i] in rest;
    }
  }

  // ------------------------------------------------------------ the order

  ghost predicate FirstBefore(events: seq<Event>, a: string, b: string) {
    exists i, j :: FirstOf(events, a, i) && FirstOf(events, b, j) && i < j
  }

  // The summaries are kept in the order in which their runs first appear.
  ghost predicate InOrderOfFirst(runs: seq<RunSummary>, events: seq<Event>) {
    forall i, j | 0 <= i < j < |runs| :: FirstBefore(events, runs[i].runId, runs[j].runId)
  }

  // Setting a summary keeps the ids in place, or adds one at the end.
  lemma {:induction false} PutKeepsPlaces(runs: seq<RunSummary>, s: RunSummary)
    ensures var r := PutRun(runs, s);
            && |r| == |runs| + (if FindRun(runs, s.runId).Some? then 0 else 1)
            && (forall i | 0 <= i < |runs| :: r[i].runId == runs[i].runId)
            && (FindRun(runs, s.runId).None? ==> r[|runs|].runId == s.runId)
  {
    if runs != [] && runs[0].runId != s.runId { PutKeepsPlaces(runs[1..], s); }
  }

  lemma FirstStays(front: seq<Event>, e: Event, id: string, i: int)
    requires FirstOf(front, id, i)
    ensures FirstOf(front + [e], id, i)
  {
  }

  lemma FirstBeforeStays(front: seq<Event>, e: Event, a: string, b: string)
    requires FirstBefore(front, a, b)
    ensures FirstBefore(front + [e], a, b)
  {
    var i, j :| FirstOf(front, a, i) && FirstOf(front, b, j) && i < j;
    FirstStays(front, e, a, i);
    FirstStays(front, e, b, j);
  }

  lemma FirstExists(events: seq<Event>, id: string) returns (i: nat)
    requires Known(events, id)
    ensures FirstOf(events, id, i)
  {
    i := 0;
    while !Concerns(events[i], id)
      invariant i < |events| && forall j | 0 <= j < i :: !Concerns(events[j], id)
      invariant exists j | i <= j < |events| :: Concerns(events[j], id)
      decreases |events| - i
    {
      i := i + 1;
    }
  }

  lemma {:induction false} SummariesInOrder(events: seq<Event>, t: Texts)
    ensures InOrderOfFirst(RunsOf(events, t), events)
  {
    if events != [] {
      var front, e := events[..|events| - 1], events[|events| - 1];
      SummariesInOrder(front, t);
      assert events == front + [e];
      forall i, j | 0 <= i < j < |RunsOf(front, t)|
        ensures FirstBefore(events, RunsOf(front, t)[i].runId, RunsOf(front, t)[j].runId)
      {
        FirstBeforeStays(front, e, RunsOf(front, t)[i].runId, RunsOf(front, t)[j].runId);
      }
      if e.kind.RunStart? || e.kind.RunEnd? { NextInOrder(front, e, t); }
    }
  }

  lemma NextInOrder(front: seq<Event>, e: Event, t: Texts)
    requires e.kind.RunStart? || e.kind.RunEnd?
    requires InOrderOfFirst(RunsOf(front, t), front + [e])
    ensures InOrderOfFirst(ProcessRunEvent(RunsOf(front, t), e, t), front + [e])
  {
    var runs := RunsOf(front, t);
    var next := ProcessRunEvent(runs, e, t);
    ProcessKeepsPlaces(runs, e, t);
    SummaryTells(front, t, e.runId);
    if FindRun(runs, e.runId).None? {
      assert FirstOf(front + [e], e.runId, |front|);
      forall i | 0 <= i < |runs| ensures FirstBefore(front + [e], runs[i].runId, e.runId) {
        FindHas(runs, i);
        SummaryTells(front, t, runs[i].runId);
        var k := FirstExists(front, runs[i].runId);
        FirstStays(front, e, runs[i].runId, k);
      }
    }
  }

  lemma {:induction false} FindHas(runs: seq<RunSummary>, i: nat)
    requires i < |runs|
    ensures FindRun(runs, runs[i].runId).Some?
  {
    if i > 0 && runs[0].runId != runs[i].runId { FindHas(runs[1..], i - 1); }
  }

  lemma ProcessKeepsPlaces(runs: seq<RunSummary>, e: Event, t: Texts)
    requires e.kind.RunStart? || e.kind.RunEnd?
    ensures var r := ProcessRunEvent(runs, e, t);
            && |r| == |runs| + (if FindRun(runs, e.runId).Some? then 0 else 1)
            && (forall i | 0 <= i < |runs| :: r[i].runId == runs[i].runId)
            && (FindRun(runs, e.runId).None? ==> r[|runs|].runId == e.runId)
  {
    FindIs(runs, e.runId);
    if e.kind.RunStart? {
      PutKeepsPlaces(runs, RunSummary(e.runId, t.title(Prompt(e)), Running, e.ts, None));
    } else {
      var known := FindRun(runs, e.runId);
      PutKeepsPlaces(runs, if known.Some? then known.value.(status := StatusOf(e.kind.outcome), endedAt := Some(e.ts))
                           else RunSummary(e.runId, "Untitled run", StatusOf(e.kind.outcome), e.ts, Some(e.ts)));
    }
  }
}
