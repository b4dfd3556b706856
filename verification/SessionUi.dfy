/** The cursor, scroll and focus state of the session screen: the resolver that fits a
    state to the current contents, and the reducer of user actions. */
module SessionUi {
  import opened Wrappers

  datatype FocusMode = FeedFocus | InputFocus | TodoFocus | MessagesFocus
  datatype InputMode = Normal | Search | Command
  datatype TodoCursorMode = Auto | Manual
  datatype MessageTab = UserTab | AgentTab | BothTabs

  datatype FeedState = FeedState(cursorId: Option<string>, viewportStart: int, tailFollow: bool)

  datatype MessageState = MessageState(viewportStart: int, cursorIndex: int, tailFollow: bool)

  datatype State = State(
    focusMode: FocusMode, inputMode: InputMode, hintsForced: Option<bool>, showRunOverlay: bool,
    searchQuery: string, searchMatchPos: int, feed: FeedState,
    todoVisible: bool, todoShowDone: bool, todoCursor: int, todoScroll: int, todoCursorMode: TodoCursorMode,
    messagePanelTab: MessageTab, messages: MessageState)

  // feedEntries: the ids of the entries.
  datatype Context = Context(
    feedEntryCount: nat, feedContentRows: int, feedEntries: seq<string>, searchMatchCount: int,
    todoVisibleCount: int, todoListHeight: int, todoFocusable: bool, todoAnchorIndex: int, staticFloor: nat,
    messageEntryCount: int, messageEntryLength: int, messageEntryLineOffsets: seq<nat>, messageContentRows: int)

  datatype Action =
    | CycleFocus
    | SetFocusMode(focusMode: FocusMode)
    | OpenCommandInput
    | OpenSearchInput
    | OpenNormalInput
    | CancelInput
    | CycleHintsForced
    | SetInputMode(inputMode: InputMode)
    | SetShowRunOverlay(show: bool)
    | SetSearchQuery(query: string)
    | SubmitSearchQuery(query: string, firstMatchIndex: Option<int>)
    | StepSearchMatch(forward: bool, matches: seq<int>)
    | ClearSearchAndJumpTail
    | MoveFeedCursor(delta: int)
    | JumpFeedTail
    | JumpFeedTop
    | SetFeedCursor(cursor: int)
    | SetTailFollow(tailFollow: bool)
    | ToggleTodoVisible
    | SetTodoVisible(visible: bool)
    | SetTodoShowDone(showDone: bool)
    | MoveTodoCursor(delta: int)
    | SetTodoCursor(cursor: int)
    | RevealFeedEntry(cursor: int)
    | SetSearchMatchPos(position: int)
    | SetMessageTab(tab: MessageTab)
    | ScrollMessageViewport(delta: int)
    | MoveMessageCursor(delta: int)
    | JumpMessageTail
    | JumpMessageTop

  const INITIAL := State(InputFocus, Normal, None, false, "", 0, FeedState(None, 0, true), true, true, 0, 0, Auto,
                         BothTabs, MessageState(0, 0, true))

  // ------------------------------------------------------------ arithmetic

  function Max(a: int, b: int): int {
    if a >= b then a else b
  }

  function Min(a: int, b: int): int {
    if a <= b then a else b
  }

  function Clamp(value: int, min: int, max: int): int {
    Max(min, Min(value, max))
  }

  // The start of a window moved as little as possible so that it shows the cursor.
  function Shown(start: int, cursor: int, rows: int): int {
    if cursor < start then cursor
    else if rows > 0 && cursor > start + rows - 1 then cursor - rows + 1
    else start
  }

  function MaxStart(count: int, rows: int): int {
    if rows <= 0 then 0 else Max(0, count - rows)
  }

  // The new cursor and the new start of the window.
  function ScrollState(cursor: int, start: int, tailFollow: bool, count: nat, rows: int, floor: nat): (int, int) {
    var maxCursor, maxStart := Max(floor, count - 1), MaxStart(count, rows);
    if tailFollow then (maxCursor, maxStart)
    else
      var next := Clamp(cursor, floor, maxCursor);
      (next, Clamp(Shown(Clamp(start, floor, maxStart), next, rows), floor, maxStart))
  }

  // ------------------------------------------------------------- resolving

  function IdToIndex(entries: seq<string>, id: Option<string>): int
    ensures -1 <= IdToIndex(entries, id) < |entries|
    ensures IdToIndex(entries, id) >= 0 ==> id == Some(entries[IdToIndex(entries, id)])
  {
    if id.None? || entries == [] then -1
    else if entries[0] == id.value then 0
    else
      var i := IdToIndex(entries[1..], id);
      if i < 0 then -1 else i + 1
  }

  function IndexToId(entries: seq<string>, i: int): Option<string> {
    if 0 <= i < |entries| then Some(entries[i]) else None
  }

  function ComputeFeed(cursor: int, start: int, tailFollow: bool, ctx: Context): FeedState {
    var (next, first) :=
      ScrollState(cursor, start, tailFollow, ctx.feedEntryCount, ctx.feedContentRows, ctx.staticFloor);
    FeedState(IndexToId(ctx.feedEntries, next), first, tailFollow)
  }

  function FeedTail(ctx: Context): FeedState {
    FeedState(IndexToId(ctx.feedEntries, Max(ctx.staticFloor, ctx.feedEntryCount - 1)),
              MaxStart(ctx.feedEntryCount, ctx.feedContentRows), true)
  }

  function MaxMessageCursor(ctx: Context): int {
    Max(0, ctx.messageEntryLength - 1)
  }

  function MaxMessageStart(ctx: Context): int {
    MaxStart(ctx.messageEntryCount, ctx.messageContentRows)
  }

  function MessageCursor(cursor: int, ctx: Context): int {
    if ctx.messageEntryLength > 0 then Clamp(cursor, 0, MaxMessageCursor(ctx)) else 0
  }

  function ShownLine(start: int, line: int, rows: int): int {
    var up := if line < start then line else start;
    if line >= up + rows then line - rows + 1 else up
  }

  function ComputeMessages(start: int, tailFollow: bool, cursor: int, ctx: Context): MessageState {
    var maxStart := MaxMessageStart(ctx);
    if tailFollow then
      MessageState(maxStart, if ctx.messageEntryLength > 0 then MaxMessageCursor(ctx) else 0, true)
    else
      var next, first := MessageCursor(cursor, ctx), Clamp(start, 0, maxStart);
      var offsets := ctx.messageEntryLineOffsets;
      MessageState(
        if 0 <= next < |offsets| then Clamp(ShownLine(first, offsets[next], ctx.messageContentRows), 0, maxStart) else first,
        next, false)
  }

  function ResolveTodoCursor(s: State, ctx: Context): int {
    if ctx.todoVisibleCount <= 0 then 0
    else
      Clamp(if s.todoCursorMode.Auto? && ctx.todoAnchorIndex >= 0 then ctx.todoAnchorIndex else s.todoCursor,
            0, ctx.todoVisibleCount - 1)
  }

  function ResolveTodoScroll(cursor: int, scroll: int, ctx: Context): int {
    if ctx.todoListHeight <= 0 || ctx.todoVisibleCount <= 0 then 0
    else
      var maxScroll := Max(0, ctx.todoVisibleCount - ctx.todoListHeight);
      Clamp(Shown(Clamp(scroll, 0, maxScroll), cursor, ctx.todoListHeight), 0, maxScroll)
  }

  function ResolveFeed(feed: FeedState, ctx: Context): FeedState {
    var found := IdToIndex(ctx.feedEntries, feed.cursorId);
    ComputeFeed(if found < 0 && ctx.feedEntryCount > 0 then ctx.feedEntryCount - 1 else found,
                feed.viewportStart, feed.tailFollow, ctx)
  }

  function ResolveMessages(m: MessageState, ctx: Context): MessageState {
    ComputeMessages(m.viewportStart, m.tailFollow, m.cursorIndex, ctx)
  }

  function ResolveFocus(s: State, ctx: Context): FocusMode {
    if s.focusMode.TodoFocus? && (!s.todoVisible || !ctx.todoFocusable) then FeedFocus
    else if s.focusMode.MessagesFocus? && ctx.messageEntryCount <= 0 then FeedFocus
    else s.focusMode
  }

  function ResolveMatchPos(pos: int, ctx: Context): int {
    if ctx.searchMatchCount <= 0 then 0 else Clamp(pos, 0, ctx.searchMatchCount - 1)
  }

  function Resolve(s: State, ctx: Context): State {
    var todoCursor := ResolveTodoCursor(s, ctx);
    s.(focusMode := ResolveFocus(s, ctx), searchMatchPos := ResolveMatchPos(s.searchMatchPos, ctx),
       feed := ResolveFeed(s.feed, ctx), todoCursor := todoCursor,
       todoScroll := ResolveTodoScroll(todoCursor, s.todoScroll, ctx), messages := ResolveMessages(s.messages, ctx))
  }

  // -------------------------------------------------------------- reducing

  function CycledFocus(s: State, ctx: Context): State {
    match s.focusMode
    case InputFocus =>
      if s.todoVisible && ctx.todoFocusable then s.(focusMode := TodoFocus, todoCursorMode := Auto)
      else s.(focusMode := if ctx.messageEntryCount > 0 then MessagesFocus else FeedFocus)
    case TodoFocus => s.(focusMode := if ctx.messageEntryCount > 0 then MessagesFocus else FeedFocus)
    case MessagesFocus => s.(focusMode := FeedFocus)
    case FeedFocus => s.(focusMode := InputFocus)
  }

  function NextHints(h: Option<bool>): Option<bool> {
    if h.None? then Some(true) else if h.value then Some(false) else None
  }

  function WithTodoVisible(s: State, visible: bool): State {
    s.(todoVisible := visible,
       focusMode := if s.focusMode.TodoFocus? && !visible then FeedFocus else s.focusMode,
       todoCursorMode := if visible then Auto else s.todoCursorMode)
  }

  function WithTodoCursor(s: State, cursor: int, ctx: Context): State {
    s.(todoCursor := if ctx.todoVisibleCount <= 0 then 0 else Clamp(cursor, 0, ctx.todoVisibleCount - 1),
       todoCursorMode := Manual)
  }

  function Scrolled(m: MessageState, delta: int, cursor: int, ctx: Context): MessageState {
    MessageState(Clamp(m.viewportStart + delta, 0, MaxMessageStart(ctx)), cursor, false)
  }

  function MessagesAfter(m: MessageState, a: Action, ctx: Context): MessageState {
    match a
    case ScrollMessageViewport(delta) => Scrolled(m, delta, MessageCursor(m.cursorIndex, ctx), ctx)
    case MoveMessageCursor(delta) =>
      var actual := MessageCursor(m.cursorIndex + delta, ctx);
      if actual == m.cursorIndex && delta != 0 then Scrolled(m, delta, actual, ctx)
      else ComputeMessages(m.viewportStart, false, actual, ctx)
    case JumpMessageTail => ComputeMessages(m.viewportStart, true, m.cursorIndex, ctx)
    case JumpMessageTop => MessageState(0, 0, false)
    case _ => m
  }

  function StepPos(pos: int, forward: bool, count: nat): int
    requires count > 0
  {
    (pos + (if forward then 1 else -1) + count) % count
  }

  function Apply(s: State, a: Action, ctx: Context): State {
    match a
    case CycleFocus => CycledFocus(s, ctx)
    case SetFocusMode(f) =>
      s.(focusMode := if f.TodoFocus? && (!s.todoVisible || !ctx.todoFocusable) then FeedFocus else f,
         todoCursorMode := if f.TodoFocus? then Auto else s.todoCursorMode)
    case OpenCommandInput => s.(focusMode := InputFocus, inputMode := Command)
    case OpenSearchInput => s.(focusMode := InputFocus, inputMode := Search)
    case OpenNormalInput => s.(focusMode := InputFocus, inputMode := Normal)
    case CancelInput => s.(focusMode := FeedFocus, inputMode := Normal)
    case CycleHintsForced => s.(hintsForced := NextHints(s.hintsForced))
    case SetInputMode(m) => s.(inputMode := m)
    case SetShowRunOverlay(show) => s.(showRunOverlay := show)
    case SetSearchQuery(q) => s.(searchQuery := q, searchMatchPos := if q == "" then 0 else s.searchMatchPos)
    case SubmitSearchQuery(q, first) =>
      var t := s.(focusMode := FeedFocus, inputMode := Normal, searchQuery := q, searchMatchPos := 0);
      if first.None? then t else t.(feed := ComputeFeed(first.value, s.feed.viewportStart, false, ctx))
    case StepSearchMatch(forward, matches) =>
      if matches == [] then s
      else
        var pos := StepPos(s.searchMatchPos, forward, |matches|);
        s.(searchMatchPos := pos, feed := ComputeFeed(matches[pos], s.feed.viewportStart, false, ctx))
    case ClearSearchAndJumpTail => s.(searchQuery := "", searchMatchPos := 0, showRunOverlay := false, feed := FeedTail(ctx))
    case MoveFeedCursor(delta) =>
      var i := IdToIndex(ctx.feedEntries, s.feed.cursorId);
      s.(feed := ComputeFeed((if i < 0 then 0 else i) + delta, s.feed.viewportStart, false, ctx))
    case JumpFeedTail => s.(feed := FeedTail(ctx))
    case JumpFeedTop => s.(feed := FeedState(IndexToId(ctx.feedEntries, ctx.staticFloor), ctx.staticFloor, false))
    case SetFeedCursor(cursor) => s.(feed := ComputeFeed(cursor, s.feed.viewportStart, false, ctx))
    case SetTailFollow(follow) => if follow then s.(feed := FeedTail(ctx)) else s.(feed := s.feed.(tailFollow := false))
    case ToggleTodoVisible => WithTodoVisible(s, !s.todoVisible)
    case SetTodoVisible(visible) => WithTodoVisible(s, visible)
    case SetTodoShowDone(showDone) => s.(todoShowDone := showDone)
    case MoveTodoCursor(delta) => WithTodoCursor(s, s.todoCursor + delta, ctx)
    case SetTodoCursor(cursor) => WithTodoCursor(s, cursor, ctx)
    case RevealFeedEntry(cursor) =>
      s.(focusMode := FeedFocus, feed := ComputeFeed(cursor, s.feed.viewportStart, false, ctx))
    case SetSearchMatchPos(position) => s.(searchMatchPos := position)
    case SetMessageTab(tab) => s.(messagePanelTab := tab)
    case _ => s.(messages := MessagesAfter(s.messages, a, ctx))
  }

  function Reduce(s: State, a: Action, ctx: Context): State {
    Apply(Resolve(s, ctx), a, ctx)
  }

  // ------------------------------------------------------------- the feed

  predicate UniqueIds(ctx: Context) {
    && |ctx.feedEntries| == ctx.feedEntryCount
    && forall i, j :: 0 <= i < j < |ctx.feedEntries| ==> ctx.feedEntries[i] != ctx.feedEntries[j]
  }

  lemma {:induction false} IndexOfId(entries: seq<string>, i: nat)
    requires i < |entries| && forall j, k :: 0 <= j < k < |entries| ==> entries[j] != entries[k]
    ensures IdToIndex(entries, Some(entries[i])) == i
  {
    if i > 0 {
      assert entries[1..][i - 1] == entries[i];
      IndexOfId(entries[1..], i - 1);
    }
  }

  lemma {:induction false} NoIndexOfNone(entries: seq<string>)
    ensures IdToIndex(entries, None) == -1
  {
  }

  // Where scrolling ends it stays.
  lemma ScrollSettles(cursor: int, start: int, count: nat, rows: int, floor: nat)
    ensures var (c, v) := ScrollState(cursor, start, false, count, rows, floor);
            floor <= c <= Max(floor, count - 1) && ScrollState(c, v, false, count, rows, floor) == (c, v)
  {
  }

  // A feed state that resolving leaves alone.
  ghost predicate FeedSettled(feed: FeedState, ctx: Context) {
    ResolveFeed(feed, ctx) == feed
  }

  lemma ComputedIsSettled(cursor: int, start: int, tailFollow: bool, ctx: Context)
    requires UniqueIds(ctx)
    ensures FeedSettled(ComputeFeed(cursor, start, tailFollow, ctx), ctx)
  {
    var (c, v) := ScrollState(cursor, start, tailFollow, ctx.feedEntryCount, ctx.feedContentRows, ctx.staticFloor);
    if !tailFollow { ScrollSettles(cursor, start, ctx.feedEntryCount, ctx.feedContentRows, ctx.staticFloor); }
    if 0 <= c < |ctx.feedEntries| { IndexOfId(ctx.feedEntries, c); } else { NoIndexOfNone(ctx.feedEntries); }
  }

  // The cursor is an entry inside the window, and the window inside the feed.
  ghost predicate InView(feed: FeedState, ctx: Context) {
    var i := IdToIndex(ctx.feedEntries, feed.cursorId);
    && i >= 0 && feed.viewportStart <= i < feed.viewportStart + ctx.feedContentRows
    && ctx.staticFloor <= i
    && 0 <= feed.viewportStart <= Max(ctx.staticFloor, MaxStart(ctx.feedEntryCount, ctx.feedContentRows))
  }

  lemma ComputedIsInView(cursor: int, start: int, tailFollow: bool, ctx: Context)
    requires UniqueIds(ctx) && ctx.feedContentRows > 0 && ctx.staticFloor < ctx.feedEntryCount
    ensures InView(ComputeFeed(cursor, start, tailFollow, ctx), ctx)
  {
    var (c, v) := ScrollState(cursor, start, tailFollow, ctx.feedEntryCount, ctx.feedContentRows, ctx.staticFloor);
    IndexOfId(ctx.feedEntries, c);
  }

  // With rows to show and an entry at or above the floor, the resolved cursor is
  // always an entry inside the window.
  lemma CursorInView(s: State, ctx: Context)
    requires UniqueIds(ctx) && ctx.feedContentRows > 0 && ctx.staticFloor < ctx.feedEntryCount
    ensures InView(Resolve(s, ctx).feed, ctx)
  {
    var found := IdToIndex(ctx.feedEntries, s.feed.cursorId);
    ComputedIsInView(if found < 0 && ctx.feedEntryCount > 0 then ctx.feedEntryCount - 1 else found,
                     s.feed.viewportStart, s.feed.tailFollow, ctx);
  }

  lemma ResolvedFeedSettled(feed: FeedState, ctx: Context)
    requires UniqueIds(ctx)
    ensures FeedSettled(ResolveFeed(feed, ctx), ctx)
  {
    var found := IdToIndex(ctx.feedEntries, feed.cursorId);
    ComputedIsSettled(if found < 0 && ctx.feedEntryCount > 0 then ctx.feedEntryCount - 1 else found,
                      feed.viewportStart, feed.tailFollow, ctx);
  }

  // -------------------------------------------------------- idempotence

  lemma MessagesSettle(m: MessageState, ctx: Context)
    ensures ResolveMessages(ResolveMessages(m, ctx), ctx) == ResolveMessages(m, ctx)
  {
  }

  lemma TodoSettles(s: State, ctx: Context)
    ensures var r := Resolve(s, ctx);
            ResolveTodoCursor(r, ctx) == r.todoCursor && ResolveTodoScroll(r.todoCursor, r.todoScroll, ctx) == r.todoScroll
  {
  }

  // Resolving twice is resolving once.
  lemma ResolveIdempotent(s: State, ctx: Context)
    requires UniqueIds(ctx)
    ensures Resolve(Resolve(s, ctx), ctx) == Resolve(s, ctx)
  {
    ResolvedFeedSettled(s.feed, ctx);
    MessagesSettle(s.messages, ctx);
    TodoSettles(s, ctx);
  }

  // ------------------------------------------------------------ all actions

  // The feed cursor an action asks for.
  function Asked(s: State, a: Action, ctx: Context): Option<int> {
    match a
    case SubmitSearchQuery(_, first) => first
    case StepSearchMatch(forward, matches) =>
      if matches == [] then None else Some(matches[StepPos(s.searchMatchPos, forward, |matches|)])
    case MoveFeedCursor(delta) =>
      var i := IdToIndex(ctx.feedEntries, s.feed.cursorId);
      Some((if i < 0 then 0 else i) + delta)
    case SetFeedCursor(cursor) => Some(cursor)
    case RevealFeedEntry(cursor) => Some(cursor)
    case _ => None
  }

  lemma AskedIsComputed(s: State, a: Action, ctx: Context)
    ensures Asked(s, a, ctx).Some? ==>
              Apply(s, a, ctx).feed == ComputeFeed(Asked(s, a, ctx).value, s.feed.viewportStart, false, ctx)
    ensures Asked(s, a, ctx).None? && a != SetTailFollow(false) ==>
              var feed := Apply(s, a, ctx).feed;
              || feed == s.feed || feed == FeedTail(ctx)
              || feed == FeedState(IndexToId(ctx.feedEntries, ctx.staticFloor), ctx.staticFloor, false)
  {
  }

  // Letting go of the tail needs a floor no deeper than the last window.
  predicate FeedHolds(s: State, a: Action, ctx: Context) {
    a == SetTailFollow(false) && s.feed.tailFollow ==>
      ctx.staticFloor <= MaxStart(ctx.feedEntryCount, ctx.feedContentRows)
  }

  // After an action the feed cursor and window need no correction, with one exception:
  // letting go of the tail above a deep floor.
  lemma FeedSettledAfter(s: State, a: Action, ctx: Context)
    requires UniqueIds(ctx)
    ensures FeedSettled(Reduce(s, a, ctx).feed, ctx) <==> FeedHolds(s, a, ctx)
  {
    var r := Resolve(s, ctx);
    AskedIsComputed(r, a, ctx);
    ResolvedFeedSettled(s.feed, ctx);
    if a == SetTailFollow(false) {
      UnfollowSettledIff(r.feed, ctx);
    } else if Asked(r, a, ctx).Some? {
      ComputedIsSettled(Asked(r, a, ctx).value, r.feed.viewportStart, false, ctx);
    } else {
      EndsSettled(ctx);
    }
  }

  lemma EndsSettled(ctx: Context)
    requires UniqueIds(ctx)
    ensures FeedSettled(FeedTail(ctx), ctx)
    ensures FeedSettled(FeedState(IndexToId(ctx.feedEntries, ctx.staticFloor), ctx.staticFloor, false), ctx)
  {
    ComputedIsSettled(0, 0, true, ctx);
    ComputedIsSettled(ctx.staticFloor, ctx.staticFloor, false, ctx);
  }

  // Ceasing to follow the tail leaves the view where it is, unless the floor is below
  // the start of the last window.
  lemma UnfollowSettledIff(feed: FeedState, ctx: Context)
    requires UniqueIds(ctx) && FeedSettled(feed, ctx)
    ensures FeedSettled(feed.(tailFollow := false), ctx) <==>
            (feed.tailFollow ==> ctx.staticFloor <= MaxStart(ctx.feedEntryCount, ctx.feedContentRows))
  {
  }

  // The focus does not hold only on a message panel without messages.
  predicate FocusHolds(a: Action, ctx: Context) {
    a == SetFocusMode(MessagesFocus) ==> ctx.messageEntryCount > 0
  }

  predicate OnFocus(a: Action) {
    a.CycleFocus? || a.SetFocusMode? || a.ToggleTodoVisible? || a.SetTodoVisible?
  }

  // The other actions leave the focus alone or move it to the feed or the input.
  lemma FocusUntouched(r: State, a: Action, ctx: Context)
    requires !OnFocus(a)
    ensures var t := Apply(r, a, ctx);
            t.todoVisible == r.todoVisible && (t.focusMode == r.focusMode || t.focusMode in {FeedFocus, InputFocus})
  {
  }

  lemma FocusPart(r: State, a: Action, ctx: Context)
    requires ResolveFocus(r, ctx) == r.focusMode
    ensures ResolveFocus(Apply(r, a, ctx), ctx) == Apply(r, a, ctx).focusMode <==> FocusHolds(a, ctx)
  {
    if !OnFocus(a) { FocusUntouched(r, a, ctx); }
  }

  lemma FocusSettledAfter(s: State, a: Action, ctx: Context)
    ensures var t := Reduce(s, a, ctx); ResolveFocus(t, ctx) == t.focusMode <==> FocusHolds(a, ctx)
  {
    FocusPart(Resolve(s, ctx), a, ctx);
  }

  // A match position asked for, or stepped to, must be one of the matches counted.
  predicate SearchHolds(s: State, a: Action, ctx: Context) {
    match a
    case SetSearchMatchPos(position) => 0 <= position < Max(1, ctx.searchMatchCount)
    case StepSearchMatch(forward, matches) =>
      matches != [] ==> StepPos(ResolveMatchPos(s.searchMatchPos, ctx), forward, |matches|) < Max(1, ctx.searchMatchCount)
    case _ => true
  }

  // The match position an action sets.
  function MatchPosAsked(r: State, a: Action): Option<int> {
    match a
    case SetSearchMatchPos(position) => Some(position)
    case StepSearchMatch(forward, matches) =>
      if matches == [] then None else Some(StepPos(r.searchMatchPos, forward, |matches|))
    case SetSearchQuery(query) => if query == "" then Some(0) else None
    case SubmitSearchQuery(_, _) => Some(0)
    case ClearSearchAndJumpTail => Some(0)
    case _ => None
  }

  lemma SearchPart(r: State, a: Action, ctx: Context)
    ensures Apply(r, a, ctx).searchMatchPos ==
            if MatchPosAsked(r, a).Some? then MatchPosAsked(r, a).value else r.searchMatchPos
  {
  }

  lemma SearchSettledAfter(s: State, a: Action, ctx: Context)
    ensures var t := Reduce(s, a, ctx);
            ResolveMatchPos(t.searchMatchPos, ctx) == t.searchMatchPos <==> SearchHolds(s, a, ctx)
  {
    SearchPart(Resolve(s, ctx), a, ctx);
  }

  // Whether an action lets the todo cursor follow its anchor again.
  predicate Anchors(s: State, a: Action, ctx: Context) {
    match a
    case CycleFocus => s.focusMode.InputFocus? && s.todoVisible && ctx.todoFocusable
    case SetFocusMode(f) => f.TodoFocus?
    case ToggleTodoVisible => !s.todoVisible
    case SetTodoVisible(visible) => visible
    case _ => false
  }

  // The todo cursor an action asks for.
  function TodoAsked(s: State, a: Action): Option<int> {
    match a
    case MoveTodoCursor(delta) => Some(s.todoCursor + delta)
    case SetTodoCursor(cursor) => Some(cursor)
    case _ => None
  }

  // A todo cursor that is moved must stay in the window of its list; one that follows
  // its anchor again must already be there. For a resolved state.
  predicate TodoHolds(r: State, a: Action, ctx: Context) {
    ctx.todoVisibleCount > 0 ==>
      && (TodoAsked(r, a).Some? && ctx.todoListHeight > 0 ==>
            r.todoScroll <= Clamp(TodoAsked(r, a).value, 0, ctx.todoVisibleCount - 1) < r.todoScroll + ctx.todoListHeight)
      && (Anchors(r, a, ctx) && ctx.todoAnchorIndex >= 0 ==>
            r.todoCursor == Min(ctx.todoAnchorIndex, ctx.todoVisibleCount - 1))
  }

  predicate TodoSettled(t: State, ctx: Context) {
    ResolveTodoCursor(t, ctx) == t.todoCursor && ResolveTodoScroll(t.todoCursor, t.todoScroll, ctx) == t.todoScroll
  }

  lemma TodoPart(r: State, a: Action, ctx: Context)
    ensures var t := Apply(r, a, ctx);
            if TodoAsked(r, a).Some? then t == WithTodoCursor(r, TodoAsked(r, a).value, ctx)
            else && t.todoScroll == r.todoScroll && t.todoCursor == r.todoCursor
                 && t.todoCursorMode == if Anchors(r, a, ctx) then Auto else r.todoCursorMode
  {
  }

  lemma TodoSettledAfter(s: State, a: Action, ctx: Context)
    ensures TodoSettled(Reduce(s, a, ctx), ctx) <==> TodoHolds(Resolve(s, ctx), a, ctx)
  {
    TodoPart(Resolve(s, ctx), a, ctx);
    TodoSettles(s, ctx);
  }

  // How far an action scrolls the messages without moving their cursor: scrolling, or
  // moving the cursor against an end of the list.
  function ScrolledBy(m: MessageState, a: Action, ctx: Context): Option<int> {
    match a
    case ScrollMessageViewport(delta) => Some(delta)
    case MoveMessageCursor(delta) =>
      if delta != 0 && MessageCursor(m.cursorIndex + delta, ctx) == m.cursorIndex then Some(delta) else None
    case _ => None
  }

  // The window shows the line of the cursor, or starts above it at the very end.
  predicate ShowsLine(start: int, cursor: int, ctx: Context) {
    var offsets, rows := ctx.messageEntryLineOffsets, ctx.messageContentRows;
    rows > 0 && 0 <= cursor < |offsets| ==>
      start <= offsets[cursor] && (offsets[cursor] < start + rows || start == MaxMessageStart(ctx))
  }

  // A scroll lasts if the scrolled window shows the line of the cursor, and a jump to the
  // top if the window there shows the first entry. For a resolved state.
  predicate MessagesHold(m: MessageState, a: Action, ctx: Context) {
    && (ScrolledBy(m, a, ctx).Some? ==>
          ShowsLine(Clamp(m.viewportStart + ScrolledBy(m, a, ctx).value, 0, MaxMessageStart(ctx)), m.cursorIndex, ctx))
    && (a.JumpMessageTop? ==> ShowsLine(0, 0, ctx))
  }

  lemma ScrolledSettledIff(start: int, cursor: int, ctx: Context)
    requires 0 <= start <= MaxMessageStart(ctx) && MessageCursor(cursor, ctx) == cursor
    ensures var m := MessageState(start, cursor, false);
            ResolveMessages(m, ctx) == m <==> ShowsLine(start, cursor, ctx)
  {
  }

  lemma MessagesOnly(r: State, a: Action, ctx: Context)
    ensures Apply(r, a, ctx).messages == MessagesAfter(r.messages, a, ctx)
  {
  }

  // A scroll changes nothing but the start of the window.
  lemma ScrolledPart(m: MessageState, a: Action, ctx: Context)
    requires ScrolledBy(m, a, ctx).Some? && MessageCursor(m.cursorIndex, ctx) == m.cursorIndex
    ensures MessagesAfter(m, a, ctx) == Scrolled(m, ScrolledBy(m, a, ctx).value, m.cursorIndex, ctx)
  {
  }

  lemma MessagesPart(m: MessageState, a: Action, ctx: Context)
    requires ResolveMessages(m, ctx) == m && MessageCursor(m.cursorIndex, ctx) == m.cursorIndex
    ensures var t := MessagesAfter(m, a, ctx); ResolveMessages(t, ctx) == t <==> MessagesHold(m, a, ctx)
  {
    if ScrolledBy(m, a, ctx).Some? {
      ScrolledPart(m, a, ctx);
      var start := Clamp(m.viewportStart + ScrolledBy(m, a, ctx).value, 0, MaxMessageStart(ctx));
      ScrolledSettledIff(start, m.cursorIndex, ctx);
    } else if a.JumpMessageTop? {
      ScrolledSettledIff(0, 0, ctx);
    } else {
      UnscrolledPart(m, a, ctx);
    }
  }

  lemma UnscrolledPart(m: MessageState, a: Action, ctx: Context)
    requires ScrolledBy(m, a, ctx).None? && !a.JumpMessageTop? && ResolveMessages(m, ctx) == m
    ensures var t := MessagesAfter(m, a, ctx); ResolveMessages(t, ctx) == t
  {
    if a.MoveMessageCursor? {
      MessagesSettle(MessageState(m.viewportStart, MessageCursor(m.cursorIndex + a.delta, ctx), false), ctx);
    } else if a.JumpMessageTail? {
      MessagesSettle(MessageState(m.viewportStart, m.cursorIndex, true), ctx);
    }
  }

  lemma MessagesSettledAfter(s: State, a: Action, ctx: Context)
    ensures var m := Reduce(s, a, ctx).messages;
            ResolveMessages(m, ctx) == m <==> MessagesHold(Resolve(s, ctx).messages, a, ctx)
  {
    MessagesSettle(s.messages, ctx);
    MessagesOnly(Resolve(s, ctx), a, ctx);
    MessagesPart(Resolve(s, ctx).messages, a, ctx);
  }

  // Exactly when what an action leaves is what the screen shows, with nothing left to
  // correct at the next resolving.
  lemma ReduceSettlesIff(s: State, a: Action, ctx: Context)
    requires UniqueIds(ctx)
    ensures var r, t := Resolve(s, ctx), Reduce(s, a, ctx);
            Resolve(t, ctx) == t <==>
            && FeedHolds(s, a, ctx) && FocusHolds(a, ctx) && SearchHolds(s, a, ctx)
            && TodoHolds(r, a, ctx) && MessagesHold(r.messages, a, ctx)
  {
    FeedSettledAfter(s, a, ctx);
    FocusSettledAfter(s, a, ctx);
    SearchSettledAfter(s, a, ctx);
    TodoSettledAfter(s, a, ctx);
    MessagesSettledAfter(s, a, ctx);
  }

  // -------------------------------------------------------------- in bounds

  ghost predicate InBounds(s: State, ctx: Context) {
    && (ctx.feedContentRows > 0 && ctx.staticFloor < ctx.feedEntryCount ==> InView(s.feed, ctx))
    && 0 <= s.searchMatchPos && (ctx.searchMatchCount > 0 ==> s.searchMatchPos < ctx.searchMatchCount)
    && 0 <= s.todoCursor && (ctx.todoVisibleCount > 0 ==> s.todoCursor < ctx.todoVisibleCount)
    && (ctx.todoListHeight > 0 && ctx.todoVisibleCount > 0 ==>
          0 <= s.todoScroll <= s.todoCursor < s.todoScroll + ctx.todoListHeight)
    && 0 <= s.messages.viewportStart <= MaxMessageStart(ctx)
    && 0 <= s.messages.cursorIndex && (ctx.messageEntryLength > 0 ==> s.messages.cursorIndex < ctx.messageEntryLength)
    && (s.focusMode.TodoFocus? ==> s.todoVisible && ctx.todoFocusable)
    && (s.focusMode.MessagesFocus? ==> ctx.messageEntryCount > 0)
  }

  // Resolving puts any state whatever in bounds; so a state that needs no correction is
  // in bounds.
  lemma ResolvedInBounds(ctx: Context)
    requires UniqueIds(ctx)
    ensures forall s: State :: InBounds(Resolve(s, ctx), ctx)
  {
    forall s: State ensures InBounds(Resolve(s, ctx), ctx) {
      if ctx.feedContentRows > 0 && ctx.staticFloor < ctx.feedEntryCount { CursorInView(s, ctx); }
    }
  }

  // ------------------------------------------------------ what is corrected

  function Screen(entries: seq<string>, rows: int, floor: nat, todos: int, todoRows: int, lines: int,
                  messageRows: int): Context
  {
    Context(|entries|, rows, entries, 0, todos, todoRows, true, -1, floor, lines, 1, [0], messageRows)
  }

  // Two entries in ten rows above a floor of one: following the tail the window starts
  // at 0, and after letting go at 1.
  lemma LettingGoMovesWindow()
    ensures var ctx := Screen(["a", "b"], 10, 1, 0, 0, 0, 0);
            var t := Reduce(INITIAL, SetTailFollow(false), ctx);
            UniqueIds(ctx) && t.feed.viewportStart == 0 && Resolve(t, ctx).feed.viewportStart == 1
  {
    var ctx := Screen(["a", "b"], 10, 1, 0, 0, 0, 0);
    var feed := ResolveFeed(INITIAL.feed, ctx);
    assert feed == FeedState(Some("b"), 0, true);
    assert ResolveFeed(feed.(tailFollow := false), ctx).viewportStart == 1;
  }

  // One message of twenty lines in five rows: moving its cursor down scrolls by a line,
  // and the next resolving scrolls back.
  lemma BoundaryScrollUndone()
    ensures var ctx := Screen([], 0, 0, 0, 0, 20, 5);
            var t := Reduce(INITIAL.(messages := MessageState(0, 0, false)), MoveMessageCursor(1), ctx);
            t.messages.viewportStart == 1 && Resolve(t, ctx).messages.viewportStart == 0
  {
  }

  // Ten todos in three rows: a cursor set to the last is below the window until the next
  // resolving.
  lemma TodoCursorLeavesWindow()
    ensures var ctx := Screen([], 0, 0, 10, 3, 0, 0);
            var t := Reduce(INITIAL, SetTodoCursor(9), ctx);
            t.todoScroll == 0 && t.todoCursor == 9 && Resolve(t, ctx).todoScroll == 7
  {
  }

  // ---------------------------------------------------------------- search

  // Stepping puts the cursor on the match it steps to, in view.
  lemma StepLandsOnMatch(s: State, forward: bool, matches: seq<int>, ctx: Context)
    requires UniqueIds(ctx) && ctx.feedContentRows > 0 && matches != []
    requires forall m | m in matches :: ctx.staticFloor <= m < ctx.feedEntryCount
    ensures var t := Reduce(s, StepSearchMatch(forward, matches), ctx);
            && 0 <= t.searchMatchPos < |matches| && InView(t.feed, ctx)
            && t.feed.cursorId == IndexToId(ctx.feedEntries, matches[t.searchMatchPos])
  {
    var r := Resolve(s, ctx);
    var pos := StepPos(r.searchMatchPos, forward, |matches|);
    assert matches[pos] in matches;
    ComputedIsInView(matches[pos], r.feed.viewportStart, false, ctx);
  }

  lemma StepPosIs(pos: int, count: nat)
    requires 0 <= pos < count
    ensures StepPos(pos, true, count) == if pos == count - 1 then 0 else pos + 1
    ensures StepPos(pos, false, count) == if pos == 0 then count - 1 else pos - 1
  {
  }

  // A step forward and a step back end at the match they began at, exactly when that
  // position is among the matches stepped through and the next one is among those
  // counted. In particular whenever the two numbers agree.
  lemma StepForwardAndBack(s: State, matches: seq<int>, ctx: Context)
    requires matches != []
    ensures var pos := Resolve(s, ctx).searchMatchPos;
            var there := Reduce(s, StepSearchMatch(true, matches), ctx);
            var back := Reduce(there, StepSearchMatch(false, matches), ctx);
            back.searchMatchPos == pos <==>
            pos < |matches| && (if pos == |matches| - 1 then 0 else pos + 1) < Max(1, ctx.searchMatchCount)
    ensures |matches| == ctx.searchMatchCount ==>
              Reduce(Reduce(s, StepSearchMatch(true, matches), ctx), StepSearchMatch(false, matches), ctx).searchMatchPos ==
              Resolve(s, ctx).searchMatchPos
  {
    var pos, n := Resolve(s, ctx).searchMatchPos, |matches|;
    var next := StepPos(pos, true, n);
    assert 0 <= next < n;
    var seen := ResolveMatchPos(next, ctx);
    assert 0 <= seen <= next;
    StepPosIs(seen, n);
    if pos < n { StepPosIs(pos, n); }
  }
}
