/** The timeline with its indexes: run and error positions, run summaries kept event
    by event, and a small search cache. Each query is proved to return what a scan of
    all rows, or a fold over all events, returns. */
module TimelineIndex {
  import opened Wrappers
  import opened FeedTypes
  import opened StableSort
  import opened Timeline
  import opened TimelineAgreement

  datatype RunStatus = Running | Succeeded | RunFailed | Cancelled

  datatype RunSummary = RunSummary(runId: string, title: string, status: RunStatus, startedAt: int, endedAt: Option<int>)

  datatype SearchEntry = SearchEntry(query: string, matches: seq<nat>, lastScanned: nat)

  // The text functions left open: run titles, row details and lower-casing.
  datatype Texts = Texts(renderer: Renderer, title: string -> string, expansion: Event -> string, lower: string -> string)

  const MAX_SEARCH_CACHE_SIZE := 8
  const NO_RUN := "__none__"

  // A list of rows handed out to a caller; two lists are the same only if they are
  // the same object.
  class View {
    const entries: seq<Entry>

    constructor (entries: seq<Entry>)
      ensures this.entries == entries
    {
      this.entries := entries;
    }
  }

  // ------------------------------------------------------ specifications

  function RunKey(e: Entry): string {
    if e.runId.Some? then e.runId.value else NO_RUN
  }

  function PositionsOf(entries: seq<Entry>, run: string): seq<nat> {
    if entries == [] then []
    else
      var last := |entries| - 1;
      PositionsOf(entries[..last], run) + if RunKey(entries[last]) == run then [last] else []
  }

  predicate Wanted(e: Entry, run: Option<string>, errorsOnly: bool) {
    (run.Some? ==> RunKey(e) == run.value) && (errorsOnly ==> e.error)
  }

  function Filtered(entries: seq<Entry>, run: Option<string>, errorsOnly: bool): seq<Entry> {
    if entries == [] then []
    else
      var e := entries[|entries| - 1];
      Filtered(entries[..|entries| - 1], run, errorsOnly) + if Wanted(e, run, errorsOnly) then [e] else []
  }

  predicate Contains(text: string, q: string) {
    exists i | 0 <= i <= |text| :: q <= text[i..]
  }

  function SearchText(e: Entry, t: Texts): string {
    if e.feedEvent.None? then e.searchText
    else
      var details := if e.details != "" then e.details else t.expansion(e.feedEvent.value);
      if details != "" then e.look.summary + "\n" + details else e.look.summary
  }

  predicate Hit(e: Entry, q: string, t: Texts) {
    Contains(t.lower(SearchText(e, t)), q)
  }

  function Matches(entries: seq<Entry>, q: string, t: Texts): seq<nat> {
    if entries == [] then []
    else
      var last := |entries| - 1;
      Matches(entries[..last], q, t) + if Hit(entries[last], q, t) then [last] else []
  }

  function StatusOf(outcome: RunOutcome): RunStatus {
    match outcome
    case Completed => Succeeded
    case Failed => RunFailed
    case Aborted => Cancelled
  }

  // Setting a key of an insertion-ordered map: an existing key keeps its place.
  function PutRun(runs: seq<RunSummary>, s: RunSummary): seq<RunSummary> {
    if runs == [] then [s]
    else if runs[0].runId == s.runId then [s] + runs[1..]
    else [runs[0]] + PutRun(runs[1..], s)
  }

  function FindRun(runs: seq<RunSummary>, runId: string): Option<RunSummary> {
    if runs == [] then None
    else if runs[0].runId == runId then Some(runs[0])
    else FindRun(runs[1..], runId)
  }

  function ProcessRunEvent(runs: seq<RunSummary>, e: Event, t: Texts): seq<RunSummary> {
    match e.kind
    case RunStart(preview) =>
      PutRun(runs, RunSummary(e.runId, t.title(if preview == "" then "Untitled run" else preview), Running, e.ts, None))
    case RunEnd(outcome) =>
      var known := FindRun(runs, e.runId);
      PutRun(runs, if known.Some? then known.value.(status := StatusOf(outcome), endedAt := Some(e.ts))
                   else RunSummary(e.runId, "Untitled run", StatusOf(outcome), e.ts, Some(e.ts)))
    case _ => runs
  }

  function RunsOf(events: seq<Event>, t: Texts): seq<RunSummary> {
    if events == [] then [] else ProcessRunEvent(RunsOf(events[..|events| - 1], t), events[|events| - 1], t)
  }

  function StartOf(s: RunSummary): int {
    s.startedAt
  }

  function ByStart(runs: seq<RunSummary>): seq<RunSummary> {
    Sort(runs, StartOf)
  }

  predicate CanAppend(cache: Option<Cache>, items: seq<Item>, events: seq<Event>, verbose: bool) {
    cache.Some? && cache.value.verbose == verbose && cache.value.items <= items && cache.value.events <= events
  }

  function Updated(cache: Option<Cache>, items: seq<Item>, events: seq<Event>, post: Option<map<string, Event>>,
                   verbose: bool, r: Renderer): Cache
  {
    if CanAppend(cache, items, events, verbose) then Append(cache.value, items, events, post, r)
    else Build(items, events, post, verbose, r)
  }

  // Every cached search holds the matches of the rows scanned so far.
  ghost predicate CacheMatches(searches: seq<SearchEntry>, view: View?, t: Texts) {
    |searches| <= MAX_SEARCH_CACHE_SIZE &&
    forall k | 0 <= k < |searches| ::
      && view != null && searches[k].lastScanned <= |view.entries|
      && searches[k].matches == Matches(view.entries[..searches[k].lastScanned], searches[k].query, t)
  }

  // ------------------------------------------------------------ the class

  class IndexedTimeline {
    const texts: Texts
    var cache: Option<Cache>
    var runIndex: map<string, seq<nat>>
    var errorPositions: set<nat>
    var runs: seq<RunSummary>
    var runSummariesDirty: bool
    var runSummariesCache: seq<RunSummary>
    var lastFeedEventsLength: nat
    var searchCache: seq<SearchEntry>
    var lastFilteredRef: View?

    function Entries(): seq<Entry>
      reads this
    {
      if cache.Some? then cache.value.rows.entries else []
    }

    ghost predicate Valid()
      reads this
    {
      && IndexesMatch(Entries())
      && (cache.None? ==> lastFeedEventsLength == 0 && runs == [])
      && (cache.Some? ==> lastFeedEventsLength == |cache.value.events| && runs == RunsOf(cache.value.events, texts))
      && SummariesCurrent()
      && CacheMatches(searchCache, lastFilteredRef, texts)
    }

    predicate SummariesCurrent()
      reads this
    {
      !runSummariesDirty ==> runSummariesCache == ByStart(runs)
    }

    ghost predicate IndexesMatch(entries: seq<Entry>)
      reads this
    {
      RunsIndexed(runIndex, entries) && ErrorsIndexed(errorPositions, entries)
    }

    constructor (texts: Texts)
      ensures Valid() && cache.None? && this.texts == texts
    {
      this.texts := texts;
      cache, runIndex, errorPositions, runs, lastFeedEventsLength := None, map[], {}, [], 0;
      runSummariesDirty, runSummariesCache := true, [];
      searchCache, lastFilteredRef := [], null;
    }

    method Update(items: seq<Item>, events: seq<Event>, post: Option<map<string, Event>>, verbose: bool)
      requires Valid()
      modifies this
      ensures Valid()
      ensures cache == Some(Updated(old(cache), items, events, post, verbose, texts.renderer))
      ensures runs == RunsOf(events, texts)
    {
      RefreshCache(items, events, post, verbose);
      RebuildIndexes();
    }

    method RefreshCache(items: seq<Item>, events: seq<Event>, post: Option<map<string, Event>>, verbose: bool)
      requires SummariesCurrent()
      requires cache.Some? ==> lastFeedEventsLength == |cache.value.events| && runs == RunsOf(cache.value.events, texts)
      modifies this`cache, this`runs, this`runSummariesDirty, this`lastFeedEventsLength
      ensures SummariesCurrent() && lastFeedEventsLength == |events| && runs == RunsOf(events, texts)
      ensures cache == Some(Updated(old(cache), items, events, post, verbose, texts.renderer))
    {
      if CanAppend(cache, items, events, verbose) {
        assert events[..lastFeedEventsLength] == cache.value.events;
        UpdateRunSummaries(events);
        var next := AppendTimelineCache(cache.value, items, events, post, texts.renderer);
        cache := Some(next);
      } else {
        runs, runSummariesDirty, lastFeedEventsLength := [], true, 0;
        UpdateRunSummaries(events);
        var next := BuildTimelineCache(items, events, post, verbose, texts.renderer);
        cache := Some(next);
      }
    }

    method UpdateRunSummaries(events: seq<Event>)
      requires lastFeedEventsLength <= |events| && runs == RunsOf(events[..lastFeedEventsLength], texts)
      requires SummariesCurrent()
      modifies this`runs, this`runSummariesDirty, this`lastFeedEventsLength
      ensures SummariesCurrent()
      ensures runs == RunsOf(events, texts) && lastFeedEventsLength == |events|
    {
      for i := lastFeedEventsLength to |events|
        invariant runs == RunsOf(events[..i], texts) && SummariesCurrent()
      {
        assert events[..i + 1][..i] == events[..i];
        runs := ProcessRunEvent(runs, events[i], texts);
        if events[i].kind.RunStart? || events[i].kind.RunEnd? { runSummariesDirty := true; }
      }
      assert events[..|events|] == events;
      lastFeedEventsLength := |events|;
    }

    method GetRunSummaries() returns (summaries: seq<RunSummary>)
      requires Valid()
      modifies this`runSummariesDirty, this`runSummariesCache
      ensures Valid()
      ensures summaries == ByStart(runs)
    {
      if runSummariesDirty {
        runSummariesCache, runSummariesDirty := ByStart(runs), false;
      }
      summaries := runSummariesCache;
    }

    method RebuildIndexes()
      modifies this`runIndex, this`errorPositions, this`searchCache
      ensures IndexesMatch(Entries()) && searchCache == []
    {
      searchCache := [];
      var entries := Entries();
      var byRun: map<string, seq<nat>>, errors: set<nat> := map[], {};
      for i := 0 to |entries|
        invariant RunsIndexed(byRun, entries[..i]) && ErrorsIndexed(errors, entries[..i])
        invariant searchCache == [] && entries == Entries()
      {
        IndexOneMore(byRun, entries, i);
        ErrorOneMore(errors, entries, i);
        var run := RunKey(entries[i]);
        byRun := byRun[run := (if run in byRun then byRun[run] else []) + [i]];
        if entries[i].error { errors := errors + {i}; }
      }
      assert entries[..|entries|] == entries;
      runIndex, errorPositions := byRun, errors;
    }

    // The rows of a run, or of all runs, perhaps only the errors, in order.
    method GetFilteredView(runFilter: Option<string>, errorsOnly: bool) returns (view: seq<Entry>)
      requires Valid()
      ensures view == Filtered(Entries(), RunFilter(runFilter), errorsOnly)
    {
      var entries := Entries();
      var run := RunFilter(runFilter);
      if run.None? && !errorsOnly {
        AllWanted(entries);
        return entries;
      }
      var candidates: seq<nat>;
      if run.Some? {
        candidates := if run.value in runIndex then runIndex[run.value] else [];
      } else {
        candidates := seq(|entries|, i => i);
      }
      CandidatesCover(entries, run, candidates);
      view := Pick(entries, run, candidates, errorsOnly, errorPositions);
    }

    // The positions of the rows of the list that contain the query.
    method GetSearchMatches(filtered: View, q: string) returns (matches: seq<nat>)
      requires Valid()
      modifies this`searchCache, this`lastFilteredRef
      ensures Valid()
      ensures matches == if q == "" then [] else Matches(filtered.entries, q, texts)
    {
      if q == "" { return []; }
      if filtered != lastFilteredRef {
        searchCache, lastFilteredRef := [], filtered;
      }
      var entries := filtered.entries;
      var slot := SlotOf(q);
      var startFrom := 0;
      matches := [];
      if slot < |searchCache| {
        startFrom, matches := searchCache[slot].lastScanned, searchCache[slot].matches;
        if startFrom == |entries| {
          assert entries[..|entries|] == entries;
          return;
        }
      }
      matches := Scan(entries, q, startFrom, matches, texts);
      var found := SearchEntry(q, matches, |entries|);
      assert entries[..|entries|] == entries;
      if slot < |searchCache| {
        searchCache := searchCache[slot := found];
      } else {
        searchCache := searchCache + [found];
        if |searchCache| > MAX_SEARCH_CACHE_SIZE {
          searchCache := searchCache[1..];
        }
      }
    }

    method SlotOf(q: string) returns (slot: nat)
      ensures slot <= |searchCache| && (slot < |searchCache| ==> searchCache[slot].query == q)
      ensures forall k :: 0 <= k < slot ==> searchCache[k].query != q
    {
      slot := 0;
      while slot < |searchCache| && searchCache[slot].query != q
        invariant slot <= |searchCache| && forall k :: 0 <= k < slot ==> searchCache[k].query != q
      {
        slot := slot + 1;
      }
    }
  }

  method Scan(entries: seq<Entry>, q: string, from: nat, found: seq<nat>, t: Texts) returns (matches: seq<nat>)
    requires from <= |entries| && found == Matches(entries[..from], q, t)
    ensures matches == Matches(entries, q, t)
  {
    matches := found;
    for i := from to |entries|
      invariant matches == Matches(entries[..i], q, t)
    {
      assert entries[..i + 1][..i] == entries[..i];
      if Hit(entries[i], q, t) { matches := matches + [i]; }
    }
    assert entries[..|entries|] == entries;
  }

  // The candidates that are errors, if only errors are wanted, as rows.
  method Pick(entries: seq<Entry>, ghost run: Option<string>, candidates: seq<nat>, errorsOnly: bool, errors: set<nat>)
    returns (view: seq<Entry>)
    requires Covers(entries, run, candidates) && ErrorsIndexed(errors, entries)
    ensures view == Filtered(entries, run, errorsOnly)
  {
    view := [];
    for k := 0 to |candidates|
      invariant view == Filtered(Decided(entries, candidates, k), run, errorsOnly)
    {
      PickOneMore(entries, run, candidates, errorsOnly, errors, k);
      if !errorsOnly || candidates[k] in errors {
        view := view + [entries[candidates[k]]];
      }
    }
    PickDone(entries, run, candidates, errorsOnly);
  }

  // How many rows the first k candidates settle, and these rows.
  function Reach(candidates: seq<nat>, k: nat): nat
    requires k <= |candidates|
  {
    if k == 0 then 0 else candidates[k - 1] + 1
  }

  function Decided(entries: seq<Entry>, candidates: seq<nat>, k: nat): seq<Entry>
    requires k <= |candidates|
  {
    if Reach(candidates, k) <= |entries| then entries[..Reach(candidates, k)] else entries
  }

  lemma PickDone(entries: seq<Entry>, run: Option<string>, candidates: seq<nat>, errorsOnly: bool)
    requires Covers(entries, run, candidates)
    ensures Filtered(Decided(entries, candidates, |candidates|), run, errorsOnly) == Filtered(entries, run, errorsOnly)
  {
    NoneBetween(entries, run, errorsOnly, candidates, |candidates|);
    assert entries[..|entries|] == entries;
  }

  lemma PickOneMore(entries: seq<Entry>, run: Option<string>, candidates: seq<nat>, errorsOnly: bool,
                    errors: set<nat>, k: nat)
    requires Covers(entries, run, candidates) && ErrorsIndexed(errors, entries) && k < |candidates|
    ensures Filtered(Decided(entries, candidates, k + 1), run, errorsOnly) ==
            Filtered(Decided(entries, candidates, k), run, errorsOnly) +
            if !errorsOnly || candidates[k] in errors then [entries[candidates[k]]] else []
  {
    NoneBetween(entries, run, errorsOnly, candidates, k);
    CandidateWanted(entries, run, candidates, errorsOnly, errors, k);
    DecideOneMore(entries, run, candidates, errorsOnly, k);
  }

  lemma DecideOneMore(entries: seq<Entry>, run: Option<string>, candidates: seq<nat>, errorsOnly: bool, k: nat)
    requires k < |candidates| && Reach(candidates, k) <= candidates[k] < |entries|
    requires Filtered(entries[..candidates[k]], run, errorsOnly) ==
             Filtered(entries[..Reach(candidates, k)], run, errorsOnly)
    ensures Filtered(Decided(entries, candidates, k + 1), run, errorsOnly) ==
            Filtered(Decided(entries, candidates, k), run, errorsOnly) +
            if Wanted(entries[candidates[k]], run, errorsOnly) then [entries[candidates[k]]] else []
  {
    FilteredOneMore(entries, run, errorsOnly, candidates[k]);
  }

  lemma CandidateWanted(entries: seq<Entry>, run: Option<string>, candidates: seq<nat>, errorsOnly: bool,
                        errors: set<nat>, k: nat)
    requires Covers(entries, run, candidates) && ErrorsIndexed(errors, entries) && k < |candidates|
    ensures candidates[k] < |entries|
    ensures Wanted(entries[candidates[k]], run, errorsOnly) <==> !errorsOnly || candidates[k] in errors
  {
    assert candidates[k] in candidates;
  }

  lemma FilteredOneMore(entries: seq<Entry>, run: Option<string>, errorsOnly: bool, i: nat)
    requires i < |entries|
    ensures Filtered(entries[..i + 1], run, errorsOnly) ==
            Filtered(entries[..i], run, errorsOnly) + if Wanted(entries[i], run, errorsOnly) then [entries[i]] else []
  {
    assert entries[..i + 1][..i] == entries[..i];
  }

  ghost predicate RunsIndexed(byRun: map<string, seq<nat>>, entries: seq<Entry>) {
    forall run :: Positions(byRun, run) == PositionsOf(entries, run)
  }

  function Positions(byRun: map<string, seq<nat>>, run: string): seq<nat> {
    if run in byRun then byRun[run] else []
  }

  ghost predicate ErrorsIndexed(errors: set<nat>, entries: seq<Entry>) {
    forall i: nat :: i in errors <==> i < |entries| && entries[i].error
  }

  lemma IndexOneMore(byRun: map<string, seq<nat>>, entries: seq<Entry>, i: nat)
    requires i < |entries| && RunsIndexed(byRun, entries[..i])
    ensures var run := RunKey(entries[i]);
            RunsIndexed(byRun[run := (if run in byRun then byRun[run] else []) + [i]], entries[..i + 1])
  {
    var own := RunKey(entries[i]);
    var after := byRun[own := (if own in byRun then byRun[own] else []) + [i]];
    forall run ensures Positions(after, run) == PositionsOf(entries[..i + 1], run) {
      PositionsOneMore(entries, i, run);
      assert Positions(byRun, run) == PositionsOf(entries[..i], run);
    }
  }

  lemma PositionsOneMore(entries: seq<Entry>, i: nat, run: string)
    requires i < |entries|
    ensures PositionsOf(entries[..i + 1], run) ==
            PositionsOf(entries[..i], run) + if RunKey(entries[i]) == run then [i] else []
  {
    assert entries[..i + 1][..i] == entries[..i];
  }

  lemma ErrorOneMore(errors: set<nat>, entries: seq<Entry>, i: nat)
    requires i < |entries| && ErrorsIndexed(errors, entries[..i])
    ensures ErrorsIndexed(if entries[i].error then errors + {i} else errors, entries[..i + 1])
  {
    forall k: nat ensures k in errors <==> k < i && entries[k].error {
      assert k in errors <==> k < i && entries[..i][k].error;
    }
  }

  function RunFilter(f: Option<string>): Option<string> {
    if f == Some("") || f == Some("all") then None else f
  }

  lemma {:induction false} AllWanted(entries: seq<Entry>)
    ensures Filtered(entries, None, false) == entries
  {
    if entries != [] {
      AllWanted(entries[..|entries| - 1]);
      assert entries == entries[..|entries| - 1] + [entries[|entries| - 1]];
    }
  }

  // The candidate positions ascend, are of the wanted run, and miss no row of it.
  ghost predicate Covers(entries: seq<Entry>, run: Option<string>, candidates: seq<nat>) {
    && (forall k :: 0 <= k < |candidates| ==> candidates[k] < |entries| && Wanted(entries[candidates[k]], run, false))
    && (forall j, k :: 0 <= j < k < |candidates| ==> candidates[j] < candidates[k])
    && (forall i :: 0 <= i < |entries| && Wanted(entries[i], run, false) ==> i in candidates)
  }

  lemma {:induction false} PositionsCover(entries: seq<Entry>, run: string)
    ensures Covers(entries, Some(run), PositionsOf(entries, run))
  {
    if entries != [] {
      var last := |entries| - 1;
      PositionsCover(entries[..last], run);
      CoverOneMore(entries, run, PositionsOf(entries[..last], run));
    }
  }

  lemma CoverOneMore(entries: seq<Entry>, run: string, front: seq<nat>)
    requires entries != [] && Covers(entries[..|entries| - 1], Some(run), front)
    ensures var last := |entries| - 1;
            Covers(entries, Some(run), front + if RunKey(entries[last]) == run then [last] else [])
  {
    var last := |entries| - 1;
    var all := front + if RunKey(entries[last]) == run then [last] else [];
    forall i | 0 <= i < |entries| && Wanted(entries[i], Some(run), false) ensures i in all {
      if i < last { assert Wanted(entries[..last][i], Some(run), false) && i in front; }
    }
    assert forall k :: 0 <= k < |front| ==> front[k] < last && entries[front[k]] == entries[..last][front[k]];
  }

  lemma CandidatesCover(entries: seq<Entry>, run: Option<string>, candidates: seq<nat>)
    requires candidates == if run.Some? then PositionsOf(entries, run.value) else seq(|entries|, i => i)
    ensures Covers(entries, run, candidates)
  {
    if run.Some? { PositionsCover(entries, run.value); }
    else { assert forall i :: 0 <= i < |entries| ==> candidates[i] == i; }
  }

  // The rows skipped between two candidates contribute nothing.
  lemma NoneBetween(entries: seq<Entry>, run: Option<string>, errorsOnly: bool, candidates: seq<nat>, k: nat)
    requires Covers(entries, run, candidates) && k <= |candidates|
    ensures var n := Reach(candidates, k);
            var upto := if k < |candidates| then candidates[k] else |entries|;
            n <= upto <= |entries| && Filtered(entries[..upto], run, errorsOnly) == Filtered(entries[..n], run, errorsOnly)
  {
    var n := Reach(candidates, k);
    var upto := if k < |candidates| then candidates[k] else |entries|;
    forall j | 0 <= j < |candidates| ensures !(n <= candidates[j] < upto) {
      if j < k { assert candidates[j] <= candidates[k - 1]; } else { assert candidates[j] >= candidates[k]; }
    }
    forall i | n <= i < upto ensures !Wanted(entries[i], run, false) {
      assert i !in candidates;
    }
    SkipRows(entries, run, errorsOnly, n, upto);
  }

  lemma {:induction false} SkipRows(entries: seq<Entry>, run: Option<string>, errorsOnly: bool, n: nat, upto: nat)
    requires n <= upto <= |entries| && forall i :: n <= i < upto ==> !Wanted(entries[i], run, false)
    ensures Filtered(entries[..upto], run, errorsOnly) == Filtered(entries[..n], run, errorsOnly)
  {
    if n < upto {
      SkipRows(entries, run, errorsOnly, n, upto - 1);
      assert entries[..upto][..upto - 1] == entries[..upto - 1];
    }
  }

  // ------------------------------------------------- many updates in a row

  datatype Feeding = Feeding(items: seq<Item>, events: seq<Event>, verbose: bool)

  // The cache after a series of updates, each with the index of its events.
  function CacheAfter(feedings: seq<Feeding>, r: Renderer): Option<Cache> {
    if feedings == [] then None
    else
      var f := feedings[|feedings| - 1];
      Some(Updated(CacheAfter(feedings[..|feedings| - 1], r), f.items, f.events,
                   Some(PostByToolUseId(f.events)), f.verbose, r))
  }

  // The update extends the previous one, so that it is appended.
  ghost predicate Extends(f: Feeding, g: Feeding) {
    f.items <= g.items && f.events <= g.events && f.verbose == g.verbose
  }

  // Requests and outcomes of the extended items agree with the extended index.
  ghost predicate AgreesWith(f: Feeding, g: Feeding)
    requires Extends(f, g)
  {
    Agrees(InputsOf(f.items, f.events, g.events[|f.events|..], g.verbose), g.items[|f.items|..])
  }

  ghost predicate OutcomesOnly(post: map<string, Event>) {
    forall id :: id in post ==> IsOutcome(post[id])
  }

  // Every update is well-formed, and one that extends the previous one agrees with it and
  // leaves no tool use without an outcome as its latest update.
  ghost predicate AgreeingFeedings(feedings: seq<Feeding>) {
    && (forall k :: 0 <= k < |feedings| ==> WellFormed(feedings[k].items, feedings[k].events))
    && (forall k :: 0 <= k < |feedings| - 1 ==> AgreeingNext(feedings[k], feedings[k + 1]))
  }

  ghost predicate AgreeingNext(f: Feeding, g: Feeding) {
    Extends(f, g) ==> AgreesWith(f, g) && OutcomesOnly(PostByToolUseId(g.events))
  }

  lemma CacheOneMore(feedings: seq<Feeding>, g: Feeding, r: Renderer)
    ensures CacheAfter(feedings + [g], r) ==
            Some(Updated(CacheAfter(feedings, r), g.items, g.events, Some(PostByToolUseId(g.events)), g.verbose, r))
  {
    assert (feedings + [g])[..|feedings|] == feedings;
  }

  lemma UpdatedExtends(f: Feeding, g: Feeding, r: Renderer)
    requires Extends(f, g)
    ensures Updated(Some(Rebuilt(f.items, f.events, f.verbose, r)), g.items, g.events, Some(PostByToolUseId(g.events)),
                    g.verbose, r) ==
            Appended(f.items, g.items[|f.items|..], f.events, g.events[|f.events|..], g.verbose, r)
  {
    assert f.items + g.items[|f.items|..] == g.items && f.events + g.events[|f.events|..] == g.events;
  }

  lemma UpdateRebuilds(f: Feeding, g: Feeding, r: Renderer)
    requires WellFormed(f.items, f.events) && WellFormed(g.items, g.events) && AgreeingNext(f, g)
    ensures Updated(Some(Rebuilt(f.items, f.events, f.verbose, r)), g.items, g.events, Some(PostByToolUseId(g.events)),
                    g.verbose, r) == Rebuilt(g.items, g.events, g.verbose, r)
  {
    if Extends(f, g) {
      UpdatedExtends(f, g, r);
      assert f.items + g.items[|f.items|..] == g.items && f.events + g.events[|f.events|..] == g.events;
      AppendIsRebuild(f.items, g.items[|f.items|..], f.events, g.events[|f.events|..], g.verbose, r);
    }
  }

  // However updates extend or replace one another, the timeline is the one a
  // rebuild of the latest input gives.
  lemma {:induction false} UpdatesRebuild(feedings: seq<Feeding>, r: Renderer)
    requires feedings != [] && AgreeingFeedings(feedings)
    ensures var f := feedings[|feedings| - 1];
            CacheAfter(feedings, r) == Some(Rebuilt(f.items, f.events, f.verbose, r))
  {
    var front, g := feedings[..|feedings| - 1], feedings[|feedings| - 1];
    if front != [] {
      UpdatesRebuild(front, r);
      assert AgreeingNext(feedings[|front| - 1], feedings[|front| - 1 + 1]);
      UpdateRebuilds(front[|front| - 1], g, r);
    }
  }

  // After such a series, one more update that extends the last one is appended.
  lemma NextIsAppended(feedings: seq<Feeding>, g: Feeding, r: Renderer)
    requires feedings != [] && AgreeingFeedings(feedings) && Extends(feedings[|feedings| - 1], g)
    ensures var f := feedings[|feedings| - 1];
            CacheAfter(feedings + [g], r) ==
            Some(Appended(f.items, g.items[|f.items|..], f.events, g.events[|f.events|..], g.verbose, r))
  {
    UpdatesRebuild(feedings, r);
    CacheOneMore(feedings, g, r);
    UpdatedExtends(feedings[|feedings| - 1], g, r);
  }

  // And gives the rows of a rebuild exactly if it agrees with the last one.
  lemma NextRebuildsIff(feedings: seq<Feeding>, g: Feeding, r: Renderer)
    requires feedings != [] && AgreeingFeedings(feedings) && WellFormed(g.items, g.events)
    requires Extends(feedings[|feedings| - 1], g)
    ensures var cache := CacheAfter(feedings + [g], r);
            cache.Some? && (cache.value.rows.entries == Rebuilt(g.items, g.events, g.verbose, r).rows.entries <==>
                            AgreesWith(feedings[|feedings| - 1], g))
  {
    var f := feedings[|feedings| - 1];
    NextIsAppended(feedings, g, r);
    assert f.items + g.items[|f.items|..] == g.items && f.events + g.events[|f.events|..] == g.events;
    AppendEqualsRebuild(f.items, g.items[|f.items|..], f.events, g.events[|f.events|..], g.verbose, r);
  }

  // Ordinary series agree all along.
  lemma OrdinaryAgreesNext(f: Feeding, g: Feeding)
    requires WellFormed(f.items, f.events) && WellFormed(g.items, g.events)
    requires Extends(f, g) ==> Ordinary(f.items, g.items[|f.items|..], f.events, g.events[|f.events|..])
    ensures AgreeingNext(f, g)
  {
    if Extends(f, g) {
      assert f.items + g.items[|f.items|..] == g.items && f.events + g.events[|f.events|..] == g.events;
      OrdinaryAgrees(f.items, g.items[|f.items|..], f.events, g.events[|f.events|..], g.verbose);
      forall id | id in PostByToolUseId(g.events) ensures IsOutcome(PostByToolUseId(g.events)[id]) {
        var at := PostIsLatest(g.events, id);
      }
    }
  }
}
