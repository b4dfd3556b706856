/** What resolving makes of a state, and what each user action does to the session screen, by
    positions in the lists shown. */
module SessionActions {
  import opened Wrappers
  import opened SessionUi

  // x limited to the range from low to high.
  predicate Limited(x: int, low: int, high: int, r: int) {
    (x < low ==> r == low) && (x > high ==> r == high) && (low <= x <= high ==> r == x)
  }

  // The cursor is on the i-th entry.
  predicate CursorOn(feed: FeedState, ctx: Context, i: int) {
    0 <= i < |ctx.feedEntries| && feed.cursorId == Some(ctx.feedEntries[i])
  }

  // The window shows the i-th entry.
  predicate WindowShows(feed: FeedState, ctx: Context, i: int) {
    feed.viewportStart <= i < feed.viewportStart + ctx.feedContentRows
  }

  // The ids are distinct, and there is an entry from the floor on.
  ghost predicate HasEntries(ctx: Context) {
    UniqueIds(ctx) && ctx.staticFloor < ctx.feedEntryCount
  }

  // ----------------------------------------------------------- the resolver

  function Distance(a: int, b: int): nat {
    if a <= b then b - a else a - b
  }

  // Of all windows between low and high that show the i-th row none starts nearer to where
  // the window was.
  ghost predicate MovedLeast(before: int, after: int, i: int, rows: int, low: int, high: int) {
    forall w | low <= w <= high && w <= i < w + rows :: Distance(before, after) <= Distance(before, w)
  }

  lemma ShownMovesLeast(start: int, i: int, rows: int, low: int, high: int)
    requires rows > 0
    ensures MovedLeast(start, Clamp(Shown(Clamp(start, low, high), i, rows), low, high), i, rows, low, Max(low, high))
  {
  }

  // The cursor stays on its entry, limited to the entries; it is on the last one if its entry
  // is gone or the tail is followed. The window moves only as far as it has to.
  lemma FeedResolves(s: State, ctx: Context)
    requires HasEntries(ctx)
    ensures var f, r, last := s.feed, Resolve(s, ctx).feed, ctx.feedEntryCount - 1;
            && r.tailFollow == f.tailFollow
            && (f.tailFollow ==> CursorOn(r, ctx, last))
            && ((forall i :: !CursorOn(f, ctx, i)) ==> CursorOn(r, ctx, last))
            && (!f.tailFollow ==> forall i | CursorOn(f, ctx, i) ::
                  exists j :: Limited(i, ctx.staticFloor, last, j) && CursorOn(r, ctx, j))
            && (!f.tailFollow && ctx.feedContentRows > 0 ==> forall j | CursorOn(r, ctx, j) ::
                  MovedLeast(f.viewportStart, r.viewportStart, j, ctx.feedContentRows, ctx.staticFloor,
                             Max(ctx.staticFloor, MaxStart(ctx.feedEntryCount, ctx.feedContentRows))))
  {
    var found, last := IdToIndex(ctx.feedEntries, s.feed.cursorId), ctx.feedEntryCount - 1;
    FoundIsOn(s.feed, ctx);
    if found >= 0 { assert CursorOn(s.feed, ctx, found); }
    ComputedIsAt(if found < 0 then last else found, s.feed, ctx);
  }

  lemma FoundIsOn(f: FeedState, ctx: Context)
    requires UniqueIds(ctx)
    ensures forall i :: CursorOn(f, ctx, i) <==> i >= 0 && i == IdToIndex(ctx.feedEntries, f.cursorId)
  {
    forall i | CursorOn(f, ctx, i) ensures i == IdToIndex(ctx.feedEntries, f.cursorId) { IndexOfId(ctx.feedEntries, i); }
  }

  lemma ComputedIsAt(cursor: int, f: FeedState, ctx: Context)
    requires HasEntries(ctx) && 0 <= cursor < ctx.feedEntryCount
    ensures var r, last := ComputeFeed(cursor, f.viewportStart, f.tailFollow, ctx), ctx.feedEntryCount - 1;
            var j := if f.tailFollow then last else if cursor < ctx.staticFloor then ctx.staticFloor else cursor;
            && r.tailFollow == f.tailFollow
            && CursorOn(r, ctx, j) && (forall i | CursorOn(r, ctx, i) :: i == j)
            && (!f.tailFollow ==> Limited(cursor, ctx.staticFloor, last, j))
            && (!f.tailFollow && ctx.feedContentRows > 0 ==>
                  MovedLeast(f.viewportStart, r.viewportStart, j, ctx.feedContentRows, ctx.staticFloor,
                             Max(ctx.staticFloor, MaxStart(ctx.feedEntryCount, ctx.feedContentRows))))
  {
    if !f.tailFollow && ctx.feedContentRows > 0 {
      ShownMovesLeast(f.viewportStart, if cursor < ctx.staticFloor then ctx.staticFloor else cursor, ctx.feedContentRows,
                      ctx.staticFloor, MaxStart(ctx.feedEntryCount, ctx.feedContentRows));
    }
  }

  // The todo cursor follows the anchor, if it follows and there is one, and else stays, both
  // limited to the todos; its window moves only as far as it has to.
  lemma TodosResolve(s: State, ctx: Context)
    requires ctx.todoVisibleCount > 0
    ensures var r, n := Resolve(s, ctx), ctx.todoVisibleCount;
            && Limited(if s.todoCursorMode.Auto? && ctx.todoAnchorIndex >= 0 then ctx.todoAnchorIndex else s.todoCursor,
                       0, n - 1, r.todoCursor)
            && (ctx.todoListHeight > 0 ==>
                  && r.todoScroll <= r.todoCursor < r.todoScroll + ctx.todoListHeight
                  && MovedLeast(s.todoScroll, r.todoScroll, r.todoCursor, ctx.todoListHeight, 0,
                                Max(0, n - ctx.todoListHeight)))
  {
    if ctx.todoListHeight > 0 {
      ShownMovesLeast(s.todoScroll, ResolveTodoCursor(s, ctx), ctx.todoListHeight, 0,
                      Max(0, ctx.todoVisibleCount - ctx.todoListHeight));
    }
  }

  // Following the tail of the messages: the last of them in the last window. Otherwise the
  // cursor stays, limited, and the window moves only as far as its line needs.
  lemma MessagesResolve(s: State, ctx: Context)
    requires ctx.messageEntryLength > 0
    ensures var m, r := s.messages, Resolve(s, ctx).messages;
            && r.tailFollow == m.tailFollow
            && (m.tailFollow ==> r.cursorIndex == ctx.messageEntryLength - 1 && r.viewportStart == MaxMessageStart(ctx))
            && (!m.tailFollow ==>
                  && Limited(m.cursorIndex, 0, ctx.messageEntryLength - 1, r.cursorIndex)
                  && (r.cursorIndex < |ctx.messageEntryLineOffsets| && ctx.messageContentRows > 0 ==>
                        MovedLeast(m.viewportStart, r.viewportStart, ctx.messageEntryLineOffsets[r.cursorIndex],
                                   ctx.messageContentRows, 0, MaxMessageStart(ctx))))
  {
  }

  // Where there is nothing to show: no cursor, and windows at the start.
  lemma NothingResolves(s: State, ctx: Context)
    ensures var r := Resolve(s, ctx);
            && (ctx.todoVisibleCount <= 0 ==> r.todoCursor == 0)
            && (ctx.todoVisibleCount <= 0 || ctx.todoListHeight <= 0 ==> r.todoScroll == 0)
            && (ctx.messageEntryLength <= 0 ==> r.messages.cursorIndex == 0)
            && (ctx.feedEntries == [] ==> r.feed.cursorId.None?)
  {
  }

  // The position of the search and the focus stay where they can.
  lemma OthersResolve(s: State, ctx: Context)
    ensures var r := Resolve(s, ctx);
            && (if ctx.searchMatchCount > 0 then Limited(s.searchMatchPos, 0, ctx.searchMatchCount - 1, r.searchMatchPos)
                else r.searchMatchPos == 0)
            && r.focusMode == (if CanFocus(s, s.focusMode, ctx) then s.focusMode else FeedFocus)
            && r.inputMode == s.inputMode && r.hintsForced == s.hintsForced && r.showRunOverlay == s.showRunOverlay
            && r.searchQuery == s.searchQuery && r.todoVisible == s.todoVisible && r.todoShowDone == s.todoShowDone
            && r.todoCursorMode == s.todoCursorMode && r.messagePanelTab == s.messagePanelTab
  {
  }

  // ---------------------------------------------------------------- the feed

  // Going to the tail: the cursor is on the last entry, which the window ends with, and
  // the tail is followed.
  lemma GoesToTail(s: State, a: Action, ctx: Context)
    requires HasEntries(ctx) && (a.JumpFeedTail? || a.ClearSearchAndJumpTail? || a == SetTailFollow(true))
    ensures var t, last := Reduce(s, a, ctx), ctx.feedEntryCount - 1;
            && CursorOn(t.feed, ctx, last) && t.feed.tailFollow && t.feed.viewportStart >= 0
            && (ctx.feedContentRows > 0 ==>
                  WindowShows(t.feed, ctx, last) &&
                  (t.feed.viewportStart == 0 || t.feed.viewportStart + ctx.feedContentRows == ctx.feedEntryCount))
  {
  }

  // Going to the top: the cursor and the window are at the floor, and the tail is let go.
  lemma GoesToTop(s: State, ctx: Context)
    requires HasEntries(ctx)
    ensures var t := Reduce(s, JumpFeedTop, ctx);
            && CursorOn(t.feed, ctx, ctx.staticFloor) && !t.feed.tailFollow && t.feed.viewportStart == ctx.staticFloor
            && (ctx.feedContentRows > 0 ==> WindowShows(t.feed, ctx, ctx.staticFloor))
  {
  }

  // What moving the cursor to an index leaves: it is there, limited to the entries, in a
  // window that moves only if it has to.
  ghost predicate CursorGoesTo(before: FeedState, index: int, after: FeedState, ctx: Context) {
    !after.tailFollow &&
    exists j ::
      && Limited(index, ctx.staticFloor, ctx.feedEntryCount - 1, j) && CursorOn(after, ctx, j)
      && (ctx.feedContentRows > 0 ==> WindowShows(after, ctx, j))
      && (ctx.feedContentRows > 0 ==>
            MovedLeast(before.viewportStart, after.viewportStart, j, ctx.feedContentRows, ctx.staticFloor,
                       Max(ctx.staticFloor, MaxStart(ctx.feedEntryCount, ctx.feedContentRows))))
  }

  lemma ComputedGoesTo(before: FeedState, index: int, ctx: Context)
    requires HasEntries(ctx)
    ensures CursorGoesTo(before, index, ComputeFeed(index, before.viewportStart, false, ctx), ctx)
  {
    var after := ComputeFeed(index, before.viewportStart, false, ctx);
    var last := ctx.feedEntryCount - 1;
    var j := if index < ctx.staticFloor then ctx.staticFloor else if index > last then last else index;
    if ctx.feedContentRows > 0 {
      ShownMovesLeast(before.viewportStart, j, ctx.feedContentRows, ctx.staticFloor,
                      MaxStart(ctx.feedEntryCount, ctx.feedContentRows));
    }
    assert Limited(index, ctx.staticFloor, last, j) && CursorOn(after, ctx, j);
  }

  // A move of the cursor ends at the old index plus delta.
  lemma CursorMoves(s: State, delta: int, ctx: Context) returns (i: nat)
    requires HasEntries(ctx)
    ensures CursorOn(Resolve(s, ctx).feed, ctx, i)
    ensures CursorGoesTo(Resolve(s, ctx).feed, i + delta, Reduce(s, MoveFeedCursor(delta), ctx).feed, ctx)
  {
    i := ResolvedCursor(s, ctx);
    MoveGoesTo(Resolve(s, ctx), delta, i, ctx);
  }

  lemma MoveGoesTo(r: State, delta: int, i: nat, ctx: Context)
    requires HasEntries(ctx) && CursorOn(r.feed, ctx, i)
    ensures CursorGoesTo(r.feed, i + delta, Apply(r, MoveFeedCursor(delta), ctx).feed, ctx)
  {
    IndexOfId(ctx.feedEntries, i);
    ComputedGoesTo(r.feed, i + delta, ctx);
  }

  lemma ResolvedCursor(s: State, ctx: Context) returns (i: nat)
    requires HasEntries(ctx)
    ensures CursorOn(Resolve(s, ctx).feed, ctx, i) && ctx.staticFloor <= i
  {
    var found := IdToIndex(ctx.feedEntries, s.feed.cursorId);
    var cursor := if found < 0 then ctx.feedEntryCount - 1 else found;
    i := ScrollState(cursor, s.feed.viewportStart, s.feed.tailFollow, ctx.feedEntryCount, ctx.feedContentRows,
                     ctx.staticFloor).0;
  }

  // Setting, revealing and submitting a search with a match end at the index asked for.
  lemma CursorIsSet(s: State, a: Action, index: int, ctx: Context)
    requires HasEntries(ctx)
    requires a == SetFeedCursor(index) || a == RevealFeedEntry(index) ||
             (a.SubmitSearchQuery? && a.firstMatchIndex == Some(index))
    ensures CursorGoesTo(Resolve(s, ctx).feed, index, Reduce(s, a, ctx).feed, ctx)
  {
    ComputedGoesTo(Resolve(s, ctx).feed, index, ctx);
  }

  lemma TailLetGo(s: State, ctx: Context)
    ensures var f, r := Reduce(s, SetTailFollow(false), ctx).feed, Resolve(s, ctx).feed;
            !f.tailFollow && f.cursorId == r.cursorId && f.viewportStart == r.viewportStart
  {
  }

  predicate MovesFeed(a: Action) {
    || a.JumpFeedTail? || a.JumpFeedTop? || a.ClearSearchAndJumpTail? || a.SetTailFollow? || a.MoveFeedCursor?
    || a.SetFeedCursor? || a.RevealFeedEntry? || (a.SubmitSearchQuery? && a.firstMatchIndex.Some?)
    || (a.StepSearchMatch? && a.matches != [])
  }

  // --------------------------------------------------------------- the todos

  // A todo cursor moved or set is at the index asked for, limited to the todos shown, and
  // stays there.
  lemma TodoCursorMoves(s: State, a: Action, index: int, ctx: Context)
    requires a == SetTodoCursor(index) || (a.MoveTodoCursor? && index == Resolve(s, ctx).todoCursor + a.delta)
    ensures var t := Reduce(s, a, ctx);
            && t.todoCursorMode.Manual?
            && (if ctx.todoVisibleCount > 0 then Limited(index, 0, ctx.todoVisibleCount - 1, t.todoCursor)
                else t.todoCursor == 0)
  {
  }

  // ------------------------------------------------------------ the messages

  lemma MessagesScroll(s: State, delta: int, ctx: Context)
    ensures var m, t := Resolve(s, ctx).messages, Reduce(s, ScrollMessageViewport(delta), ctx).messages;
            && Limited(m.viewportStart + delta, 0, MaxMessageStart(ctx), t.viewportStart)
            && t.cursorIndex == m.cursorIndex && !t.tailFollow
  {
  }

  // A message cursor moved is at the old index plus delta, limited to the messages; against
  // an end of the list the window moves by delta instead.
  lemma MessageCursorMoves(s: State, delta: int, ctx: Context)
    requires ctx.messageEntryLength > 0
    ensures var m, t := Resolve(s, ctx).messages, Reduce(s, MoveMessageCursor(delta), ctx).messages;
            && Limited(m.cursorIndex + delta, 0, ctx.messageEntryLength - 1, t.cursorIndex) && !t.tailFollow
            && (delta != 0 && t.cursorIndex == m.cursorIndex ==>
                  Limited(m.viewportStart + delta, 0, MaxMessageStart(ctx), t.viewportStart))
            && (t.cursorIndex != m.cursorIndex ==> ShowsLine(t.viewportStart, t.cursorIndex, ctx))
  {
    MessageMoves(Resolve(s, ctx).messages, delta, ctx);
    MessagesOnly(Resolve(s, ctx), MoveMessageCursor(delta), ctx);
    assert 0 <= Resolve(s, ctx).messages.cursorIndex < ctx.messageEntryLength;
  }

  lemma MessageMoves(m: MessageState, delta: int, ctx: Context)
    requires 0 <= m.cursorIndex < ctx.messageEntryLength
    ensures var t := MessagesAfter(m, MoveMessageCursor(delta), ctx);
            && Limited(m.cursorIndex + delta, 0, ctx.messageEntryLength - 1, t.cursorIndex) && !t.tailFollow
            && (delta != 0 && t.cursorIndex == m.cursorIndex ==>
                  Limited(m.viewportStart + delta, 0, MaxMessageStart(ctx), t.viewportStart))
            && (t.cursorIndex != m.cursorIndex ==> ShowsLine(t.viewportStart, t.cursorIndex, ctx))
  {
  }

  // To the tail: the last message, the last window, following. To the top: the first ones.
  lemma MessagesJump(s: State, ctx: Context)
    ensures var t, u := Reduce(s, JumpMessageTail, ctx).messages, Reduce(s, JumpMessageTop, ctx).messages;
            && t.tailFollow && t.viewportStart == MaxMessageStart(ctx)
            && t.cursorIndex == (if ctx.messageEntryLength > 0 then ctx.messageEntryLength - 1 else 0)
            && !u.tailFollow && u.viewportStart == 0 && u.cursorIndex == 0
  {
  }

  // --------------------------------------------------------------- the focus

  // The order in which the focus goes round.
  function NextFocus(f: FocusMode): FocusMode {
    match f
    case InputFocus => TodoFocus
    case TodoFocus => MessagesFocus
    case MessagesFocus => FeedFocus
    case FeedFocus => InputFocus
  }

  predicate CanFocus(s: State, f: FocusMode, ctx: Context) {
    (f.TodoFocus? ==> s.todoVisible && ctx.todoFocusable) && (f.MessagesFocus? ==> ctx.messageEntryCount > 0)
  }

  // The first one after the focus that can have it.
  predicate ComesNext(s: State, f: FocusMode, ctx: Context) {
    var one := NextFocus(s.focusMode);
    var two := NextFocus(one);
    f == if CanFocus(s, one, ctx) then one else if CanFocus(s, two, ctx) then two else NextFocus(two)
  }

  // Cycling goes to the next part of the screen that can have the focus.
  lemma FocusCycles(s: State, ctx: Context)
    ensures var r, f := Resolve(s, ctx), Reduce(s, CycleFocus, ctx).focusMode;
            && CanFocus(r, f, ctx)
            && ComesNext(r, f, ctx)
  {
    CycleGoesOn(Resolve(s, ctx), ctx);
  }

  lemma CycleGoesOn(r: State, ctx: Context)
    ensures var f := Apply(r, CycleFocus, ctx).focusMode;
            && CanFocus(r, f, ctx)
            && ComesNext(r, f, ctx)
  {
  }

  // The focus and the input mode an action names.
  lemma FocusIsNamed(s: State, a: Action, ctx: Context)
    ensures var r, t := Resolve(s, ctx), Reduce(s, a, ctx);
            && (a.SetFocusMode? ==>
                  t.focusMode == if a.focusMode.TodoFocus? && !CanFocus(r, TodoFocus, ctx) then FeedFocus else a.focusMode)
            && (a.OpenCommandInput? || a.OpenSearchInput? || a.OpenNormalInput? ==> t.focusMode.InputFocus?)
            && (a.CancelInput? || a.SubmitSearchQuery? || a.RevealFeedEntry? ==> t.focusMode.FeedFocus?)
            && (a.OpenCommandInput? ==> t.inputMode.Command?) && (a.OpenSearchInput? ==> t.inputMode.Search?)
            && (a.OpenNormalInput? || a.CancelInput? || a.SubmitSearchQuery? ==> t.inputMode.Normal?)
            && (a.SetInputMode? ==> t.inputMode == a.inputMode)
  {
  }

  // The todo list is shown or hidden as named; hiding it takes the focus off it, showing it
  // lets its cursor follow again.
  lemma VisibilityIsNamed(s: State, a: Action, ctx: Context)
    requires a.ToggleTodoVisible? || a.SetTodoVisible?
    ensures var r, t := Resolve(s, ctx), Reduce(s, a, ctx);
            && (a.ToggleTodoVisible? ==> t.todoVisible != r.todoVisible)
            && (a.SetTodoVisible? ==> t.todoVisible == a.visible)
            && (t.todoVisible ==> t.todoCursorMode.Auto? && t.focusMode == r.focusMode)
            && (!t.todoVisible ==> !t.focusMode.TodoFocus? && (t.focusMode == r.focusMode || r.focusMode.TodoFocus?))
  {
  }

  // The other settings an action names.
  lemma SettingIsNamed(s: State, a: Action, ctx: Context)
    ensures var r, t := Resolve(s, ctx), Reduce(s, a, ctx);
            && (a.SetShowRunOverlay? ==> t.showRunOverlay == a.show)
            && (a.SetSearchQuery? || a.SubmitSearchQuery? ==> t.searchQuery == a.query)
            && (a.ClearSearchAndJumpTail? ==> t.searchQuery == "" && !t.showRunOverlay)
            && (a.ClearSearchAndJumpTail? || a.SubmitSearchQuery? || a == SetSearchQuery("") ==> t.searchMatchPos == 0)
            && (a.SetSearchMatchPos? ==> t.searchMatchPos == a.position)
            && (a.SetTodoShowDone? ==> t.todoShowDone == a.showDone)
            && (a.SetMessageTab? ==> t.messagePanelTab == a.tab)
  {
  }

  // Hints go round: shown, hidden, left to the screen.
  lemma HintsGoRound(s: State, ctx: Context)
    ensures var t := Reduce(s, CycleHintsForced, ctx);
            var u := Reduce(t, CycleHintsForced, ctx);
            var v := Reduce(u, CycleHintsForced, ctx);
            && v.hintsForced == s.hintsForced
            && {s.hintsForced, t.hintsForced, u.hintsForced} == {None, Some(true), Some(false)}
            && (s.hintsForced == None ==> t.hintsForced == Some(true))
  {
  }

  // ------------------------------------------------------- what is left alone

  predicate MovesMessages(a: Action) {
    a.ScrollMessageViewport? || a.MoveMessageCursor? || a.JumpMessageTail? || a.JumpMessageTop?
  }

  predicate MovesTodos(a: Action) {
    a.MoveTodoCursor? || a.SetTodoCursor?
  }

  // An action that does not name a part of the screen leaves it alone.
  lemma OthersLeftAlone(s: State, a: Action, ctx: Context)
    ensures var r, t := Resolve(s, ctx), Reduce(s, a, ctx);
            && (!MovesFeed(a) ==> t.feed == r.feed)
            && (!MovesMessages(a) ==> t.messages == r.messages)
            && (!MovesTodos(a) ==> t.todoCursor == r.todoCursor)
            && t.todoScroll == r.todoScroll
            && (!a.ToggleTodoVisible? && !a.SetTodoVisible? ==> t.todoVisible == r.todoVisible)
  {
    LeftAlone(Resolve(s, ctx), a, ctx);
    if !MovesMessages(a) { MessagesOnly(Resolve(s, ctx), a, ctx); }
  }

  lemma LeftAlone(r: State, a: Action, ctx: Context)
    ensures var t := Apply(r, a, ctx);
            && (!MovesFeed(a) ==> t.feed == r.feed)
            && (!MovesTodos(a) ==> t.todoCursor == r.todoCursor)
            && t.todoScroll == r.todoScroll
            && (!a.ToggleTodoVisible? && !a.SetTodoVisible? ==> t.todoVisible == r.todoVisible)
  {
  }

  predicate NamesFocus(a: Action) {
    || a.CycleFocus? || a.SetFocusMode? || a.OpenCommandInput? || a.OpenSearchInput? || a.OpenNormalInput?
    || a.CancelInput? || a.SubmitSearchQuery? || a.RevealFeedEntry? || a.ToggleTodoVisible? || a.SetTodoVisible?
  }

  predicate NamesInputMode(a: Action) {
    || a.OpenCommandInput? || a.OpenSearchInput? || a.OpenNormalInput? || a.CancelInput? || a.SubmitSearchQuery?
    || a.SetInputMode?
  }

  predicate NamesQuery(a: Action) {
    a.SetSearchQuery? || a.SubmitSearchQuery? || a.ClearSearchAndJumpTail?
  }

  lemma FocusLeftAlone(r: State, a: Action, ctx: Context)
    ensures !NamesFocus(a) ==> Apply(r, a, ctx).focusMode == r.focusMode
  {
  }

  lemma InputModeLeftAlone(r: State, a: Action, ctx: Context)
    ensures !NamesInputMode(a) ==> Apply(r, a, ctx).inputMode == r.inputMode
  {
  }

  lemma SearchLeftAlone(r: State, a: Action, ctx: Context)
    ensures var t := Apply(r, a, ctx);
            && (!NamesQuery(a) ==> t.searchQuery == r.searchQuery)
            && (!a.SetShowRunOverlay? && !a.ClearSearchAndJumpTail? ==> t.showRunOverlay == r.showRunOverlay)
  {
  }

  lemma HintsLeftAlone(r: State, a: Action, ctx: Context)
    ensures var t := Apply(r, a, ctx);
            && (!a.CycleHintsForced? ==> t.hintsForced == r.hintsForced)
            && (!a.SetTodoShowDone? ==> t.todoShowDone == r.todoShowDone)
            && (!a.SetMessageTab? ==> t.messagePanelTab == r.messagePanelTab)
  {
  }

  // Showing the todo list, or giving it the focus, makes its cursor follow again.
  predicate LetsTodosFollow(r: State, a: Action, ctx: Context) {
    || (a.CycleFocus? && r.focusMode.InputFocus? && CanFocus(r, TodoFocus, ctx))
    || (a.SetFocusMode? && a.focusMode.TodoFocus?)
    || (a.ToggleTodoVisible? && !r.todoVisible) || (a.SetTodoVisible? && a.visible)
  }

  lemma TodoCursorModeIs(r: State, a: Action, ctx: Context)
    ensures Apply(r, a, ctx).todoCursorMode ==
            if MovesTodos(a) then Manual else if LetsTodosFollow(r, a, ctx) then Auto else r.todoCursorMode
  {
  }

  predicate MovesMatchPos(a: Action) {
    || a.SetSearchMatchPos? || a.StepSearchMatch? || a.SubmitSearchQuery? || a.ClearSearchAndJumpTail?
    || a == SetSearchQuery("")
  }

  lemma MatchPosLeftAlone(r: State, a: Action, ctx: Context)
    ensures !MovesMatchPos(a) ==> Apply(r, a, ctx).searchMatchPos == r.searchMatchPos
  {
  }

  // Focus, input mode and settings change only by the actions that name them.
  lemma SettingsLeftAlone(s: State, a: Action, ctx: Context)
    ensures var r, t := Resolve(s, ctx), Reduce(s, a, ctx);
            && (!NamesFocus(a) ==> t.focusMode == r.focusMode)
            && (!NamesInputMode(a) ==> t.inputMode == s.inputMode)
            && (!NamesQuery(a) ==> t.searchQuery == s.searchQuery)
            && (!a.SetShowRunOverlay? && !a.ClearSearchAndJumpTail? ==> t.showRunOverlay == s.showRunOverlay)
            && (!a.CycleHintsForced? ==> t.hintsForced == s.hintsForced)
            && (!a.SetTodoShowDone? ==> t.todoShowDone == s.todoShowDone)
            && (!a.SetMessageTab? ==> t.messagePanelTab == s.messagePanelTab)
            && (!MovesMatchPos(a) ==> t.searchMatchPos == r.searchMatchPos)
            && t.todoCursorMode == (if MovesTodos(a) then Manual else if LetsTodosFollow(r, a, ctx) then Auto
                                    else s.todoCursorMode)
  {
    var r := Resolve(s, ctx);
    TodoCursorModeIs(r, a, ctx);
    MatchPosLeftAlone(r, a, ctx);
    FocusLeftAlone(r, a, ctx);
    InputModeLeftAlone(r, a, ctx);
    SearchLeftAlone(r, a, ctx);
    HintsLeftAlone(r, a, ctx);
  }
}
