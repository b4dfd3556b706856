/** The timeline rows: built from scratch for a whole list of feed items, or appended
    to the rows of a shorter list. Functions give the meaning of one item; the
    methods run the loops. */
module Timeline {
  import opened Wrappers
  import opened FeedTypes

  datatype Message = Message(fromUser: bool, content: string, ts: int)

  datatype Item = Msg(message: Message) | Feed(event: Event)

  datatype EntryId = MessageNumber(n: nat) | EventId(id: string)

  datatype Look = Look(op: string, opTag: string, toolColumn: string, summary: string)

  datatype Entry = Entry(
    id: EntryId, ts: int, runId: Option<string>, actor: string, actorId: string,
    look: Look, searchText: string, error: bool, expandable: bool, details: string,
    feedEvent: Option<Event>, paired: Option<Event>, duplicateActor: bool)

  // The rendering of texts is left open: any functions of an event and its pair.
  datatype Renderer = Renderer(
    look: (Event, Option<Event>) -> Look,
    isError: Event -> bool,
    actorLabel: string -> string,
    compact: string -> string)

  datatype Context = Context(
    types: map<string, string>, post: Option<map<string, Event>>, verbose: bool, renderer: Renderer)

  datatype Progress = Progress(
    entries: seq<Entry>, activeRunId: Option<string>, counter: nat, pending: map<string, nat>)

  datatype Cache = Cache(
    items: seq<Item>, events: seq<Event>, types: map<string, string>, verbose: bool, rows: Progress)

  // ------------------------------------------------------------- one event

  const VERBOSE_ONLY_KINDS := {
    "session.start", "session.end", "unknown.hook", "compact.pre", "config.change",
    "instructions.loaded", "worktree.create", "worktree.remove", "turn.diff",
    "usage.update", "thread.status", "server.request.resolved"}

  const VERBOSE_ONLY_NOTIFICATIONS := {
    "account.rate_limits_updated", "account.updated", "item.agentMessage.started",
    "raw_response_item.completed", "command_exec.output_delta", "fuzzy_file_search.updated",
    "fuzzy_file_search.completed", "app.list_updated", "thread_name", "thread.archived",
    "thread.unarchived", "thread.realtime.transcript_delta", "thread.realtime.output_audio_delta"}

  predicate ShouldSkip(e: Event, verbose: bool) {
    && !verbose
    && match e.kind
       case RunStart(_) => true
       case RunEnd(_) => true
       case ReasoningSummary(_, _) => true
       case StopRequest(hookActive) => !hookActive
       case Notification(topic) => topic in VERBOSE_ONLY_NOTIFICATIONS
       case Plain(name) => name in VERBOSE_ONLY_KINDS
       case _ => false
  }

  predicate IsSubagentTool(tool: string) {
    tool == "Task" || tool == "Agent"
  }

  // The tool use an update would be merged into.
  function MergeableUpdateOf(e: Event): Option<string> {
    match e.kind
    case ToolDelta(tool, useId) => if IsSubagentTool(tool) then None else NonEmpty(useId)
    case ToolPost(tool, useId) => if IsSubagentTool(tool) then None else NonEmpty(useId)
    case ToolFailure(tool, useId) => if IsSubagentTool(tool) then None else NonEmpty(useId)
    case _ => None
  }

  // The tool use whose outcome a request row shows.
  function RequestOf(e: Event): Option<string> {
    match e.kind
    case ToolPre(tool, useId) => if IsSubagentTool(tool) then None else NonEmpty(useId)
    case PermissionRequest(tool, useId) => if IsSubagentTool(tool) then None else NonEmpty(useId)
    case _ => None
  }

  predicate IsOutcome(e: Event) {
    e.kind.ToolPost? || e.kind.ToolFailure?
  }

  // An outcome shown in its request's row has no row of its own.
  predicate Merged(e: Event, post: Option<map<string, Event>>) {
    && IsOutcome(e) && MergeableUpdateOf(e).Some? && post.Some?
    && MergeableUpdateOf(e).value in post.value && post.value[MergeableUpdateOf(e).value] == e
  }

  function PairedPost(e: Event, post: Option<map<string, Event>>): Option<Event> {
    if RequestOf(e).Some? && post.Some? && RequestOf(e).value in post.value
    then Some(post.value[RequestOf(e).value]) else None
  }

  predicate Shows(e: Event, post: Option<map<string, Event>>, verbose: bool) {
    !ShouldSkip(e, verbose) && !e.kind.ToolDelta? && !Merged(e, post)
  }

  function SubagentActorLabel(agentType: Option<string>, agentId: string): string {
    "SUB AGENT"
  }

  const SUBAGENT_PREFIX := "subagent:"

  function ActorLabel(e: Event, types: map<string, string>, r: Renderer): string {
    if !(SUBAGENT_PREFIX <= e.actorId) then r.actorLabel(e.actorId)
    else
      var agentId := e.actorId[|SUBAGENT_PREFIX|..];
      var own := if e.kind.SubagentStart? || e.kind.SubagentStop? then e.kind.agentType else "";
      SubagentActorLabel(if own != "" then Some(own) else if agentId in types then Some(types[agentId]) else None,
                         agentId)
  }

  function EventEntry(e: Event, paired: Option<Event>, types: map<string, string>, r: Renderer): Entry {
    var look := r.look(e, paired);
    Entry(EventId(e.id), e.ts, Some(e.runId), ActorLabel(e, types, r), e.actorId, look, look.summary,
          r.isError(e) || (paired.Some? && paired.value.kind.ToolFailure?), true, "",
          Some(e), paired, false)
  }

  function MessageEntry(m: Message, activeRunId: Option<string>, counter: nat, r: Renderer): Entry {
    var summary := r.compact(m.content);
    Entry(MessageNumber(counter), m.ts, activeRunId,
          if m.fromUser then "USER" else "AGENT", if m.fromUser then "user" else "agent:root",
          Look(if m.fromUser then "User Msg" else "Agent Msg", if m.fromUser then "msg.user" else "msg.agent",
               "", summary),
          summary + "\n" + m.content, false, |m.content| > 120, m.content, None, None, false)
  }

  // The first reported type of each subagent.
  function SubagentTypes(types: map<string, string>, events: seq<Event>): map<string, string> {
    if events == [] then types
    else
      var front := SubagentTypes(types, events[..|events| - 1]);
      var k := events[|events| - 1].kind;
      if (k.SubagentStart? || k.SubagentStop?) && k.agentId != "" && k.agentType != "" && k.agentId !in front
      then front[k.agentId := k.agentType] else front
  }

  method UpdateSubagentTypes(types: map<string, string>, events: seq<Event>) returns (r: map<string, string>)
    ensures r == SubagentTypes(types, events)
  {
    r := types;
    for i := 0 to |events|
      invariant r == SubagentTypes(types, events[..i])
    {
      assert events[..i + 1][..i] == events[..i];
      var k := events[i].kind;
      if (k.SubagentStart? || k.SubagentStop?) && k.agentId != "" && k.agentType != "" && k.agentId !in r {
        r := r[k.agentId := k.agentType];
      }
    }
    assert events[..|events|] == events;
  }

  // ------------------------------------------------------ duplicate actors

  function CategoryOf(op: string): string {
    if op == "" || op[0] == '.' then "" else [op[0]] + CategoryOf(op[1..])
  }

  predicate RepeatsActor(entries: seq<Entry>, i: nat)
    requires i < |entries|
  {
    && i > 0 && entries[i].actorId == entries[i - 1].actorId
    && CategoryOf(entries[i].look.opTag) == CategoryOf(entries[i - 1].look.opTag)
  }

  function Marked(entries: seq<Entry>): seq<Entry> {
    seq(|entries|, i requires 0 <= i < |entries| => entries[i].(duplicateActor := RepeatsActor(entries, i)))
  }

  method ComputeDuplicateActors(entries: array<Entry>)
    modifies entries
    ensures entries[..] == Marked(old(entries[..]))
  {
    ghost var was := entries[..];
    for i := 0 to entries.Length
      invariant forall k :: 0 <= k < i ==> entries[k] == was[k].(duplicateActor := RepeatsActor(was, k))
      invariant forall k :: i <= k < entries.Length ==> entries[k] == was[k]
    {
      var sameActor := i > 0 && entries[i].actorId == entries[i - 1].actorId;
      var isBreak := i > 0 && CategoryOf(entries[i].look.opTag) != CategoryOf(entries[i - 1].look.opTag);
      entries[i] := entries[i].(duplicateActor := sameActor && !isBreak);
    }
  }

  function RecomputedAt(entries: seq<Entry>, i: nat): seq<Entry>
    requires i < |entries|
  {
    entries[i := entries[i].(duplicateActor := RepeatsActor(entries, i))]
  }

  function RecomputedAround(entries: seq<Entry>, i: nat): seq<Entry>
    requires i < |entries|
  {
    var at := RecomputedAt(entries, i);
    if i + 1 < |entries| then RecomputedAt(at, i + 1) else at
  }

  // ------------------------------------------------------------ one item

  function Remember(pending: map<string, nat>, e: Event, paired: Option<Event>, index: nat): map<string, nat> {
    if RequestOf(e).Some? && paired.None? then pending[RequestOf(e).value := index] else pending
  }

  function RunAfter(run: Option<string>, e: Event): Option<string> {
    if e.kind.RunStart? then Some(e.runId) else if e.kind.RunEnd? then None else run
  }

  function BuildStep(p: Progress, item: Item, c: Context): Progress {
    match item
    case Msg(m) =>
      p.(entries := p.entries + [MessageEntry(m, p.activeRunId, p.counter, c.renderer)], counter := p.counter + 1)
    case Feed(e) =>
      var q := p.(activeRunId := RunAfter(p.activeRunId, e));
      if !Shows(e, c.post, c.verbose) then q
      else
        var paired := PairedPost(e, c.post);
        q.(entries := p.entries + [EventEntry(e, paired, c.types, c.renderer)],
           pending := Remember(p.pending, e, paired, |p.entries|))
  }

  const START := Progress([], None, 1, map[])

  function BuildRows(items: seq<Item>, c: Context): Progress {
    if items == [] then START
    else BuildStep(BuildRows(items[..|items| - 1], c), items[|items| - 1], c)
  }

  function Build(items: seq<Item>, events: seq<Event>, post: Option<map<string, Event>>, verbose: bool, r: Renderer): Cache {
    var types := SubagentTypes(map[], events);
    var rows := BuildRows(items, Context(types, post, verbose, r));
    Cache(items, events, types, verbose, rows.(entries := Marked(rows.entries)))
  }

  // An update is folded into the pending row of its tool use, or dropped when there
  // is none; an outcome ends the wait.
  function FoldUpdate(p: Progress, e: Event, c: Context): Progress
    requires MergeableUpdateOf(e).Some?
  {
    var id := MergeableUpdateOf(e).value;
    if id in p.pending && p.pending[id] < |p.entries| && p.entries[p.pending[id]].feedEvent.Some? then
      var at := p.pending[id];
      var row := EventEntry(p.entries[at].feedEvent.value, Some(e), c.types, c.renderer);
      p.(entries := RecomputedAround(p.entries[at := row], at),
         pending := if IsOutcome(e) then p.pending - {id} else p.pending)
    else p
  }

  function AppendStep(p: Progress, item: Item, c: Context): Progress {
    match item
    case Msg(m) =>
      var entries := p.entries + [MessageEntry(m, p.activeRunId, p.counter, c.renderer)];
      p.(entries := RecomputedAround(entries, |p.entries|), counter := p.counter + 1)
    case Feed(e) =>
      if MergeableUpdateOf(e).Some? then FoldUpdate(p, e, c)
      else
        var q := p.(activeRunId := RunAfter(p.activeRunId, e));
        if !Shows(e, c.post, c.verbose) then q
        else
          var paired := PairedPost(e, c.post);
          var entries := p.entries + [EventEntry(e, paired, c.types, c.renderer)];
          q.(entries := RecomputedAround(entries, |p.entries|),
             pending := Remember(p.pending, e, paired, |p.entries|))
  }

  function AppendRows(p: Progress, items: seq<Item>, c: Context): Progress {
    if items == [] then p
    else AppendStep(AppendRows(p, items[..|items| - 1], c), items[|items| - 1], c)
  }

  function Append(prev: Cache, items: seq<Item>, events: seq<Event>, post: Option<map<string, Event>>, r: Renderer): Cache
    requires prev.items <= items && prev.events <= events
  {
    var types := SubagentTypes(prev.types, events[|prev.events|..]);
    var c := Context(types, post, prev.verbose, r);
    Cache(items, events, types, prev.verbose, AppendRows(prev.rows, items[|prev.items|..], c))
  }

  // -------------------------------------------------------------- the loops

  // The body of the build loop.
  method BuildItem(p: Progress, item: Item, c: Context) returns (q: Progress)
    ensures q == BuildStep(p, item, c)
  {
    var entries, activeRunId, pending := p.entries, p.activeRunId, p.pending;
    match item {
      case Msg(m) =>
        entries := entries + [MessageEntry(m, activeRunId, p.counter, c.renderer)];
        return Progress(entries, activeRunId, p.counter + 1, pending);
      case Feed(e) =>
        if e.kind.RunStart? { activeRunId := Some(e.runId); }
        if Shows(e, c.post, c.verbose) {
          var paired := PairedPost(e, c.post);
          entries := entries + [EventEntry(e, paired, c.types, c.renderer)];
          pending := Remember(pending, e, paired, |entries| - 1);
        }
        if e.kind.RunEnd? { activeRunId := None; }
        return Progress(entries, activeRunId, p.counter, pending);
    }
  }

  method BuildTimelineCache(items: seq<Item>, events: seq<Event>, post: Option<map<string, Event>>,
                            verbose: bool, r: Renderer) returns (cache: Cache)
    ensures cache == Build(items, events, post, verbose, r)
  {
    var types := UpdateSubagentTypes(map[], events);
    var c := Context(types, post, verbose, r);
    var rows := START;
    for i := 0 to |items|
      invariant rows == BuildRows(items[..i], c)
    {
      assert items[..i + 1][..i] == items[..i];
      rows := BuildItem(rows, items[i], c);
    }
    assert items[..|items|] == items;
    var entries := rows.entries;
    var marked := new Entry[|entries|](i requires 0 <= i < |entries| => entries[i]);
    assert marked[..] == entries;
    ComputeDuplicateActors(marked);
    cache := Cache(items, events, types, verbose, rows.(entries := marked[..]));
  }

  // The body of the append loop.
  method AppendItem(p: Progress, item: Item, c: Context) returns (q: Progress)
    ensures q == AppendStep(p, item, c)
  {
    var entries, activeRunId, pending := p.entries, p.activeRunId, p.pending;
    match item {
      case Msg(m) =>
        entries := entries + [MessageEntry(m, activeRunId, p.counter, c.renderer)];
        entries := RecomputedAround(entries, |entries| - 1);
        return Progress(entries, activeRunId, p.counter + 1, pending);
      case Feed(e) =>
        if e.kind.RunStart? { activeRunId := Some(e.runId); }
        var update := MergeableUpdateOf(e);
        if update.Some? {
          if update.value in pending {
            var at := pending[update.value];
            if at < |entries| && entries[at].feedEvent.Some? {
              entries := entries[at := EventEntry(entries[at].feedEvent.value, Some(e), c.types, c.renderer)];
              if IsOutcome(e) { pending := pending - {update.value}; }
              entries := RecomputedAround(entries, at);
            }
          }
          return Progress(entries, activeRunId, p.counter, pending);
        }
        if Shows(e, c.post, c.verbose) {
          var paired := PairedPost(e, c.post);
          entries := entries + [EventEntry(e, paired, c.types, c.renderer)];
          pending := Remember(pending, e, paired, |entries| - 1);
          entries := RecomputedAround(entries, |entries| - 1);
        }
        if e.kind.RunEnd? { activeRunId := None; }
        return Progress(entries, activeRunId, p.counter, pending);
    }
  }

  method AppendTimelineCache(prev: Cache, items: seq<Item>, events: seq<Event>,
                             post: Option<map<string, Event>>, r: Renderer) returns (cache: Cache)
    requires prev.items <= items && prev.events <= events
    ensures cache == Append(prev, items, events, post, r)
  {
    var types := UpdateSubagentTypes(prev.types, events[|prev.events|..]);
    var c := Context(types, post, prev.verbose, r);
    var added := items[|prev.items|..];
    var rows := prev.rows;
    for i := 0 to |added|
      invariant rows == AppendRows(prev.rows, added[..i], c)
    {
      assert added[..i + 1][..i] == added[..i];
      rows := AppendItem(rows, added[i], c);
    }
    assert added[..|added|] == added;
    cache := Cache(items, events, types, prev.verbose, rows);
  }
}
