/** What the timeline shows, by positions in the items: which run is active after them, and
    what the row of each message and of each shown event tells. */
module TimelineRows {
  import opened Wrappers
  import opened FeedTypes
  import opened Timeline
  import opened TimelineAgreement

  // ------------------------------------------------------- the active run

  predicate TurnsRun(x: Item) {
    x.Feed? && (x.event.kind.RunStart? || x.event.kind.RunEnd?)
  }

  predicate StartsRun(x: Item, id: string) {
    x.Feed? && x.event.kind.RunStart? && x.event.runId == id
  }

  // Among the first n items the run is started and after that no run starts or ends.
  ghost predicate RunOpen(items: seq<Item>, n: int, id: string) {
    exists i | 0 <= i < n <= |items| :: StartsRun(items[i], id) && forall j | i < j < n :: !TurnsRun(items[j])
  }

  // The run is the one open after the items, or none.
  ghost predicate TracksRun(run: Option<string>, items: seq<Item>) {
    forall id :: run == Some(id) <==> RunOpen(items, |items|, id)
  }

  lemma OpenOneMore(items: seq<Item>, x: Item, id: string)
    ensures RunOpen(items + [x], |items| + 1, id) <==>
            if TurnsRun(x) then StartsRun(x, id) else RunOpen(items, |items|, id)
  {
    var more := items + [x];
    assert more[|items|] == x;
    if RunOpen(more, |items| + 1, id) && !TurnsRun(x) {
      var i :| 0 <= i < |items| + 1 && StartsRun(more[i], id) && forall j | i < j < |items| + 1 :: !TurnsRun(more[j]);
      assert StartsRun(items[i], id) && forall j | i < j < |items| :: !TurnsRun(more[j]) && more[j] == items[j];
    }
    if RunOpen(items, |items|, id) && !TurnsRun(x) {
      var i :| 0 <= i < |items| && StartsRun(items[i], id) && forall j | i < j < |items| :: !TurnsRun(items[j]);
      assert StartsRun(more[i], id);
    }
  }

  lemma OpenPrefix(items: seq<Item>, n: nat, id: string)
    requires n <= |items|
    ensures RunOpen(items, n, id) <==> RunOpen(items[..n], n, id)
  {
    if RunOpen(items, n, id) {
      var i :| 0 <= i < n && StartsRun(items[i], id) && forall j | i < j < n :: !TurnsRun(items[j]);
      assert StartsRun(items[..n][i], id);
    }
  }

  ghost predicate Updates(before: Option<string>, x: Item, after: Option<string>) {
    after == if !TurnsRun(x) then before else if x.event.kind.RunStart? then Some(x.event.runId) else None
  }

  // Runs that follow one another item by item track the items.
  lemma {:induction false} RunsTrack(runs: seq<Option<string>>, items: seq<Item>, added: seq<Item>)
    requires |runs| == |added| + 1 && TracksRun(runs[0], items)
    requires forall k | 0 <= k < |added| :: Updates(runs[k], added[k], runs[k + 1])
    ensures TracksRun(runs[|added|], items + added)
  {
    if added == [] {
      assert items + added == items;
    } else {
      var n := |added| - 1;
      RunsTrack(runs[..n + 1], items, added[..n]);
      assert Updates(runs[n], added[n], runs[n + 1]);
      forall id ensures runs[n + 1] == Some(id) <==> RunOpen(items + added, |items + added|, id) {
        OpenOneMore(items + added[..n], added[n], id);
        assert items + added == items + added[..n] + [added[n]];
      }
    }
  }

  lemma BuildFollows(items: seq<Item>, c: Context)
    requires items != []
    ensures Updates(BuildRows(items[..|items| - 1], c).activeRunId, items[|items| - 1], BuildRows(items, c).activeRunId)
  {
  }

  lemma AppendStepFollows(p: Progress, x: Item, c: Context)
    ensures Updates(p.activeRunId, x, AppendStep(p, x, c).activeRunId)
  {
    if x.Feed? && MergeableUpdateOf(x.event).Some? { FoldKeepsRun(p, x.event, c); }
  }

  lemma FoldKeepsRun(p: Progress, e: Event, c: Context)
    requires MergeableUpdateOf(e).Some?
    ensures FoldUpdate(p, e, c).activeRunId == p.activeRunId && !TurnsRun(Feed(e))
  {
  }

  lemma AppendFollows(p: Progress, added: seq<Item>, c: Context)
    requires added != []
    ensures Updates(AppendRows(p, added[..|added| - 1], c).activeRunId, added[|added| - 1],
                    AppendRows(p, added, c).activeRunId)
  {
    AppendStepFollows(AppendRows(p, added[..|added| - 1], c), added[|added| - 1], c);
  }

  lemma BuildRowsTrackRun(items: seq<Item>, c: Context)
    ensures TracksRun(BuildRows(items, c).activeRunId, items)
  {
    var runs := seq(|items| + 1, k requires 0 <= k <= |items| => BuildRows(items[..k], c).activeRunId);
    forall k | 0 <= k < |items| ensures Updates(runs[k], items[k], runs[k + 1]) {
      assert items[..k + 1][..k] == items[..k];
      BuildFollows(items[..k + 1], c);
    }
    RunsTrack(runs, [], items);
    assert [] + items == items && items[..|items|] == items;
  }

  lemma AppendRowsTrackRun(p: Progress, items: seq<Item>, added: seq<Item>, c: Context)
    requires TracksRun(p.activeRunId, items)
    ensures TracksRun(AppendRows(p, added, c).activeRunId, items + added)
  {
    var runs := seq(|added| + 1, k requires 0 <= k <= |added| => AppendRows(p, added[..k], c).activeRunId);
    forall k | 0 <= k < |added| ensures Updates(runs[k], added[k], runs[k + 1]) {
      assert added[..k + 1][..k] == added[..k];
      AppendFollows(p, added[..k + 1], c);
    }
    RunsTrack(runs, items, added);
    assert added[..|added|] == added;
  }

  // After a build the active run is the one that was started and after which no run starts
  // or ends, and there is none if there is no such run.
  lemma BuildTracksRun(items: seq<Item>, events: seq<Event>, post: Option<map<string, Event>>, verbose: bool, r: Renderer)
    ensures TracksRun(Build(items, events, post, verbose, r).rows.activeRunId, items)
  {
    BuildRowsTrackRun(items, Context(SubagentTypes(map[], events), post, verbose, r));
  }

  // And so after any append.
  lemma AppendTracksRun(prev: Cache, items: seq<Item>, events: seq<Event>, post: Option<map<string, Event>>, r: Renderer)
    requires prev.items <= items && prev.events <= events && TracksRun(prev.rows.activeRunId, prev.items)
    ensures TracksRun(Append(prev, items, events, post, r).rows.activeRunId, items)
  {
    var types := SubagentTypes(prev.types, events[|prev.events|..]);
    AppendRowsTrackRun(prev.rows, prev.items, items[|prev.items|..], Context(types, post, prev.verbose, r));
    assert prev.items + items[|prev.items|..] == items;
  }

  // --------------------------------------------------------------- the rows

  function MessageCount(items: seq<Item>): nat {
    if items == [] then 0
    else MessageCount(items[..|items| - 1]) + if items[|items| - 1].Msg? then 1 else 0
  }

  // The row of the message at position i: its number, its text, who wrote it, and the run
  // open before it.
  ghost predicate TellsMessage(row: Entry, items: seq<Item>, i: nat)
    requires i < |items| && items[i].Msg?
  {
    && row.id == MessageNumber(MessageCount(items[..i]) + 1) && TellsText(row, items[i].message)
    && forall id :: row.runId == Some(id) <==> RunOpen(items, i, id)
  }

  predicate TellsText(row: Entry, m: Message) {
    && row.ts == m.ts && row.details == m.content
    && (if m.fromUser then row.actor == "USER" && row.actorId == "user"
        else row.actor == "AGENT" && row.actorId == "agent:root")
    && row.look.op == (if m.fromUser then "User Msg" else "Agent Msg")
    && row.look.opTag == (if m.fromUser then "msg.user" else "msg.agent")
    && row.searchText == row.look.summary + "\n" + m.content
    && row.feedEvent.None? && row.paired.None? && !row.error && (row.expandable <==> |m.content| > 120)
  }

  predicate TellsEvent(row: Entry, e: Event, paired: Option<Event>, r: Renderer) {
    && row.id == EventId(e.id) && row.ts == e.ts && row.runId == Some(e.runId) && row.actorId == e.actorId
    && row.feedEvent == Some(e) && row.paired == paired && row.look == r.look(e, paired)
    && row.actor == (if "subagent:" <= e.actorId then "SUB AGENT" else r.actorLabel(e.actorId))
    && row.expandable && row.searchText == row.look.summary
    && (row.error <==> r.isError(e) || (paired.Some? && paired.value.kind.ToolFailure?))
  }

  // The row at position RowCount of the items before, for every message and every shown
  // event; and there are no other rows.
  ghost predicate TellsAll(rows: seq<Entry>, items: seq<Item>, shown: set<Event>, pairs: map<Event, Event>, r: Renderer) {
    && |rows| == RowCount(items, shown)
    && forall i | 0 <= i < |items| :: TellsItem(rows, items, shown, pairs, r, i)
  }

  ghost predicate TellsItem(rows: seq<Entry>, items: seq<Item>, shown: set<Event>, pairs: map<Event, Event>, r: Renderer,
                            i: nat)
    requires i < |items|
  {
    var at := RowCount(items[..i], shown);
    && (items[i].Msg? ==> at < |rows| && TellsMessage(rows[at], items, i))
    && (items[i].Feed? && items[i].event in shown ==>
          at < |rows| && TellsEvent(rows[at], items[i].event, Lookup(pairs, items[i].event), r))
  }

  lemma {:induction false} RunTracks(items: seq<Item>)
    ensures forall id :: Run(items) == Some(id) <==> RunOpen(items, |items|, id)
    ensures Counter(items) == MessageCount(items) + 1
  {
    if items != [] {
      var front, x := items[..|items| - 1], items[|items| - 1];
      RunTracks(front);
      forall id ensures Run(items) == Some(id) <==> RunOpen(items, |items|, id) {
        OpenOneMore(front, x, id);
        assert items == front + [x];
      }
    }
  }

  lemma OpenBefore(front: seq<Item>, x: Item)
    ensures forall id :: Run(front) == Some(id) <==> RunOpen(front + [x], |front|, id)
  {
    RunTracks(front);
    assert (front + [x])[..|front|] == front;
    forall id ensures RunOpen(front + [x], |front|, id) <==> RunOpen(front, |front|, id) {
      OpenPrefix(front + [x], |front|, id);
    }
  }

  lemma EntryTellsText(m: Message, run: Option<string>, n: nat, r: Renderer)
    ensures TellsText(MessageEntry(m, run, n, r), m)
  {
  }

  lemma MessageTells(row: Entry, front: seq<Item>, m: Message)
    requires TellsText(row, m) && row.id == MessageNumber(Counter(front)) && row.runId == Run(front)
    ensures TellsMessage(row, front + [Msg(m)], |front|)
  {
    assert (front + [Msg(m)])[..|front|] == front;
    RunTracks(front);
    OpenBefore(front, Msg(m));
  }

  // The rows an item adds tell of it.
  ghost predicate AddsRows(more: seq<Entry>, front: seq<Item>, x: Item, shown: set<Event>, pairs: map<Event, Event>,
                           r: Renderer)
  {
    && |more| == (if x.Msg? || x.event in shown then 1 else 0)
    && (x.Msg? ==> TellsMessage(more[0], front + [x], |front|))
    && (x.Feed? && x.event in shown ==> TellsEvent(more[0], x.event, Lookup(pairs, x.event), r))
  }

  lemma ItemAddsRows(front: seq<Item>, x: Item, shown: set<Event>, pairs: map<Event, Event>, r: Renderer)
    ensures AddsRows(ItemRows(x, Run(front), Counter(front), shown, pairs, r), front, x, shown, pairs, r)
  {
    if x.Msg? {
      EntryTellsText(x.message, Run(front), Counter(front), r);
      MessageTells(MessageEntry(x.message, Run(front), Counter(front), r), front, x.message);
    }
  }

  lemma StillTells(rows: seq<Entry>, more: seq<Entry>, items: seq<Item>, x: Item, shown: set<Event>,
                   pairs: map<Event, Event>, r: Renderer, i: nat)
    requires i < |items| && TellsItem(rows, items, shown, pairs, r, i)
    ensures TellsItem(rows + more, items + [x], shown, pairs, r, i)
  {
    assert (items + [x])[..i] == items[..i];
    forall id ensures RunOpen(items + [x], i, id) <==> RunOpen(items, i, id) {
      OpenPrefix(items + [x], i, id);
      OpenPrefix(items, i, id);
    }
  }

  lemma RowsTellMore(rows: seq<Entry>, more: seq<Entry>, front: seq<Item>, x: Item, shown: set<Event>,
                     pairs: map<Event, Event>, r: Renderer)
    requires TellsAll(rows, front, shown, pairs, r) && AddsRows(more, front, x, shown, pairs, r)
    ensures TellsAll(rows + more, front + [x], shown, pairs, r)
  {
    assert (front + [x])[..|front|] == front;
    forall i | 0 <= i < |front| + 1 ensures TellsItem(rows + more, front + [x], shown, pairs, r, i) {
      if i < |front| { StillTells(rows, more, front, x, shown, pairs, r, i); }
    }
  }

  lemma {:induction false} RowsTell(items: seq<Item>, shown: set<Event>, pairs: map<Event, Event>, r: Renderer)
    ensures TellsAll(Rows(items, shown, pairs, r), items, shown, pairs, r)
  {
    if items != [] {
      var front, x := items[..|items| - 1], items[|items| - 1];
      RowsTell(front, shown, pairs, r);
      ItemAddsRows(front, x, shown, pairs, r);
      RowsTellMore(Rows(front, shown, pairs, r), ItemRows(x, Run(front), Counter(front), shown, pairs, r), front, x,
                   shown, pairs, r);
      assert items == front + [x];
    }
  }

  // The duplicate marks change nothing of this.
  lemma MarkedTells(rows: seq<Entry>, items: seq<Item>, shown: set<Event>, pairs: map<Event, Event>, r: Renderer)
    requires TellsAll(rows, items, shown, pairs, r)
    ensures TellsAll(Marked(rows), items, shown, pairs, r)
  {
    forall i | 0 <= i < |items| ensures TellsItem(Marked(rows), items, shown, pairs, r, i) {
      assert TellsItem(rows, items, shown, pairs, r, i);
    }
  }

  // What a build shows.
  lemma BuildTells(items: seq<Item>, events: seq<Event>, verbose: bool, r: Renderer)
    requires DistinctFeed(items)
    ensures var post := PostByToolUseId(events);
            TellsAll(Rebuilt(items, events, verbose, r).rows.entries, items, Shown(items, post, verbose),
                     Pairs(items, post), r)
  {
    var post := PostByToolUseId(events);
    RebuiltIsRows(items, events, verbose, r);
    RowsTell(items, Shown(items, post, verbose), Pairs(items, post), r);
    MarkedTells(Rows(items, Shown(items, post, verbose), Pairs(items, post), r), items, Shown(items, post, verbose),
                Pairs(items, post), r);
  }

  // What an append shows.
  lemma AppendTells(items1: seq<Item>, items2: seq<Item>, events1: seq<Event>, events2: seq<Event>, verbose: bool,
                    r: Renderer)
    requires WellFormed(items1, events1) && WellFormed(items1 + items2, events1 + events2)
    ensures var n := InputsOf(items1, events1, events2, verbose);
            TellsAll(Appended(items1, items2, events1, events2, verbose, r).rows.entries, items1 + items2,
                     NewShown(n, items2), NewPairs(n, items2), r)
  {
    var n := InputsOf(items1, events1, events2, verbose);
    AppendedTracks(items1, items2, events1, events2, verbose, r);
    RowsTell(items1 + items2, NewShown(n, items2), NewPairs(n, items2), r);
    MarkedTells(NewRows(n, items2, r), items1 + items2, NewShown(n, items2), NewPairs(n, items2), r);
  }

  // -------------------------------------------------- marks, types and kinds

  // The category of an operation: its text up to the first dot.
  lemma {:induction false} CategoryIsPrefix(op: string)
    ensures '.' !in CategoryOf(op) && CategoryOf(op) <= op
    ensures CategoryOf(op) == op || op[|CategoryOf(op)|] == '.'
  {
    if op != "" && op[0] != '.' { CategoryIsPrefix(op[1..]); }
  }

  // A row is marked exactly if the row before it has the same actor and the same category
  // of operation.
  predicate MarksRepeats(rows: seq<Entry>) {
    forall i | 0 <= i < |rows| ::
      rows[i].duplicateActor <==>
      i > 0 && rows[i].actorId == rows[i - 1].actorId &&
      CategoryOf(rows[i].look.opTag) == CategoryOf(rows[i - 1].look.opTag)
  }

  lemma MarkedMarks(rows: seq<Entry>)
    ensures MarksRepeats(Marked(rows))
  {
  }

  // In what is built, and in what is appended.
  lemma RowsAreMarked(items1: seq<Item>, items2: seq<Item>, events1: seq<Event>, events2: seq<Event>, verbose: bool,
                      r: Renderer)
    requires WellFormed(items1, events1) && WellFormed(items1 + items2, events1 + events2)
    ensures MarksRepeats(Rebuilt(items1, events1, verbose, r).rows.entries)
    ensures MarksRepeats(Appended(items1, items2, events1, events2, verbose, r).rows.entries)
  {
    var post, n := PostByToolUseId(events1), InputsOf(items1, events1, events2, verbose);
    RebuiltIsRows(items1, events1, verbose, r);
    AppendedTracks(items1, items2, events1, events2, verbose, r);
    MarkedMarks(Rows(items1, Shown(items1, post, verbose), Pairs(items1, post), r));
    MarkedMarks(NewRows(n, items2, r));
  }

  predicate ReportsType(e: Event, id: string) {
    (e.kind.SubagentStart? || e.kind.SubagentStop?) && e.kind.agentId == id && id != "" && e.kind.agentType != ""
  }

  // The type of a subagent is the one reported first.
  lemma {:induction false} TypeIsFirst(events: seq<Event>, id: string)
    ensures id in SubagentTypes(map[], events) <==> exists i | 0 <= i < |events| :: ReportsType(events[i], id)
    ensures forall i | 0 <= i < |events| && ReportsType(events[i], id) &&
                       (forall j | 0 <= j < i :: !ReportsType(events[j], id)) ::
              id in SubagentTypes(map[], events) && SubagentTypes(map[], events)[id] == events[i].kind.agentType
  {
    if events != [] {
      var front, e := events[..|events| - 1], events[|events| - 1];
      TypeIsFirst(front, id);
      assert forall i | 0 <= i < |front| :: front[i] == events[i];
      assert e == events[|front|];
    }
  }

  // What is shown only in a verbose timeline: starts and ends of runs, reasoning, stops
  // without an active hook, and the notifications and events listed.
  lemma VerboseOnly(e: Event, post: Option<map<string, Event>>)
    ensures Shows(e, post, true) <==> !e.kind.ToolDelta? && !Merged(e, post)
    ensures Shows(e, post, false) <==>
            && Shows(e, post, true) && !e.kind.RunStart? && !e.kind.RunEnd? && !e.kind.ReasoningSummary?
            && (e.kind.StopRequest? ==> e.kind.hookActive)
            && (e.kind.Notification? ==> e.kind.topic !in VERBOSE_ONLY_NOTIFICATIONS)
            && (e.kind.Plain? ==> e.kind.name !in VERBOSE_ONLY_KINDS)
  {
  }

  // -------------------------------------------------------- pairs and merges

  // A report on the tool use.
  predicate ReportsOn(e: Event, id: string) {
    (e.kind.ToolDelta? || e.kind.ToolPost? || e.kind.ToolFailure?) && e.kind.useId == Some(id) && id != ""
  }

  predicate LastReport(events: seq<Event>, id: string, i: int) {
    0 <= i < |events| && ReportsOn(events[i], id) && forall j | i < j < |events| :: !ReportsOn(events[j], id)
  }

  // A request whose row shows what became of the tool use; subagents have rows of their own.
  predicate AsksFor(e: Event, id: string) {
    && (e.kind.ToolPre? || e.kind.PermissionRequest?) && e.kind.tool !in {"Task", "Agent"}
    && e.kind.useId == Some(id) && id != ""
  }

  lemma IndexedIsLast(events: seq<Event>, id: string)
    ensures forall i | LastReport(events, id, i) ::
              id in PostByToolUseId(events) && PostByToolUseId(events)[id] == events[i]
    ensures id in PostByToolUseId(events) ==> exists i :: LastReport(events, id, i)
  {
    forall i | LastReport(events, id, i)
      ensures id in PostByToolUseId(events) && PostByToolUseId(events)[id] == events[i]
    {
      PostCovers(events, events[i], id);
      var at := PostIsLatest(events, id);
      assert ReportsOn(events[at], id);
    }
    if id in PostByToolUseId(events) {
      var at := PostIsLatest(events, id);
      assert ReportsOn(events[at], id) && forall j | at < j < |events| :: !ReportsOn(events[j], id);
      assert LastReport(events, id, at);
    }
  }

  // In a build an event is paired if and only if it is a request for a tool use with a
  // report, and then with the last report of all.
  lemma PairIsLastReport(items: seq<Item>, events: seq<Event>, e: Event)
    requires Feed(e) in items
    ensures var pair := Lookup(Pairs(items, PostByToolUseId(events)), e);
            && (forall id, i | AsksFor(e, id) && LastReport(events, id, i) :: pair == Some(events[i]))
            && (pair.Some? ==> exists id, i :: AsksFor(e, id) && LastReport(events, id, i))
  {
    assert e in Events(items);
    forall id, i | AsksFor(e, id) && LastReport(events, id, i)
      ensures Lookup(Pairs(items, PostByToolUseId(events)), e) == Some(events[i])
    {
      IndexedIsLast(events, id);
    }
    if Lookup(Pairs(items, PostByToolUseId(events)), e).Some? {
      var id := e.kind.useId.value;
      IndexedIsLast(events, id);
      assert AsksFor(e, id);
    }
  }

  // An outcome has no row of its own if and only if it is the last report of its tool use,
  // and that is no subagent's.
  lemma MergedIsLastOutcome(events: seq<Event>, e: Event)
    requires e in events
    ensures Merged(e, Some(PostByToolUseId(events))) <==>
            && (e.kind.ToolPost? || e.kind.ToolFailure?) && e.kind.tool !in {"Task", "Agent"}
            && exists id, i :: ReportsOn(e, id) && LastReport(events, id, i) && events[i] == e
  {
    var post := PostByToolUseId(events);
    if Merged(e, Some(post)) {
      var id := e.kind.useId.value;
      IndexedIsLast(events, id);
      var i :| LastReport(events, id, i);
      assert ReportsOn(e, id) && events[i] == e;
    }
    if (e.kind.ToolPost? || e.kind.ToolFailure?) && e.kind.tool !in {"Task", "Agent"} {
      if id, i :| ReportsOn(e, id) && LastReport(events, id, i) && events[i] == e {
        IndexedIsLast(events, id);
      }
    }
  }
}
