/** When the appended timeline equals the one built from scratch: exactly when three
    conditions on the requests and updates hold. Both are brought to one closed form,
    the rows of an item list for a set of shown events and a pairing. */
module TimelineAgreement {
  import opened Wrappers
  import opened FeedTypes
  import opened Timeline

  function Events(items: seq<Item>): set<Event> {
    set item | item in items && item.Feed? :: item.event
  }

  ghost predicate DistinctFeed(items: seq<Item>) {
    forall i, j :: 0 <= i < j < |items| && items[i].Feed? ==> items[i] != items[j]
  }

  function Lookup(pairs: map<Event, Event>, e: Event): Option<Event> {
    if e in pairs then Some(pairs[e]) else None
  }

  function Run(items: seq<Item>): Option<string> {
    if items == [] then None
    else
      var front, x := Run(items[..|items| - 1]), items[|items| - 1];
      if x.Feed? then RunAfter(front, x.event) else front
  }

  function Counter(items: seq<Item>): nat {
    if items == [] then 1 else Counter(items[..|items| - 1]) + if items[|items| - 1].Msg? then 1 else 0
  }

  function Row(e: Event, pairs: map<Event, Event>, r: Renderer): Entry {
    EventEntry(e, Lookup(pairs, e), map[], r)
  }

  // The rows without duplicate marks.
  function Rows(items: seq<Item>, shown: set<Event>, pairs: map<Event, Event>, r: Renderer): (rows: seq<Entry>)
    ensures forall row :: row in rows ==> !row.duplicateActor
  {
    if items == [] then []
    else
      var front, x := items[..|items| - 1], items[|items| - 1];
      Rows(front, shown, pairs, r) + ItemRows(x, Run(front), Counter(front), shown, pairs, r)
  }

  function ItemRows(x: Item, run: Option<string>, counter: nat, shown: set<Event>, pairs: map<Event, Event>,
                    r: Renderer): seq<Entry>
  {
    match x
    case Msg(m) => [MessageEntry(m, run, counter, r)]
    case Feed(e) => if e in shown then [Row(e, pairs, r)] else []
  }

  // The position of an event's row.
  function Place(items: seq<Item>, shown: set<Event>, e: Event): nat {
    if items == [] then 0
    else
      var front, x := items[..|items| - 1], items[|items| - 1];
      if x == Feed(e) then RowCount(front, shown) else Place(front, shown, e)
  }

  function RowCount(items: seq<Item>, shown: set<Event>): nat {
    if items == [] then 0
    else
      var x := items[|items| - 1];
      RowCount(items[..|items| - 1], shown) + if x.Msg? || x.event in shown then 1 else 0
  }

  // ------------------------------------------------- facts about the rows

  lemma Split(items: seq<Item>)
    requires items != []
    ensures items == items[..|items| - 1] + [items[|items| - 1]]
    ensures forall x :: x in items <==> x in items[..|items| - 1] || x == items[|items| - 1]
    ensures DistinctFeed(items) ==> DistinctFeed(items[..|items| - 1])
    ensures DistinctFeed(items) && items[|items| - 1].Feed? ==> items[|items| - 1] !in items[..|items| - 1]
  {
    assert items == items[..|items| - 1] + [items[|items| - 1]];
  }

  lemma {:induction false} RowsLength(items: seq<Item>, shown: set<Event>, pairs: map<Event, Event>, r: Renderer)
    ensures |Rows(items, shown, pairs, r)| == RowCount(items, shown)
  {
    if items != [] { RowsLength(items[..|items| - 1], shown, pairs, r); }
  }

  lemma {:induction false} RowsCongruent(items: seq<Item>, s1: set<Event>, p1: map<Event, Event>,
                                         s2: set<Event>, p2: map<Event, Event>, r: Renderer)
    requires forall e :: Feed(e) in items ==> (e in s1 <==> e in s2)
    requires forall e :: Feed(e) in items && e in s1 ==> Lookup(p1, e) == Lookup(p2, e)
    ensures Rows(items, s1, p1, r) == Rows(items, s2, p2, r)
    ensures RowCount(items, s1) == RowCount(items, s2)
  {
    if items != [] {
      Split(items);
      RowsCongruent(items[..|items| - 1], s1, p1, s2, p2, r);
    }
  }

  lemma {:induction false} PlaceCongruent(items: seq<Item>, s1: set<Event>, s2: set<Event>, e: Event, r: Renderer)
    requires forall x :: Feed(x) in items ==> (x in s1 <==> x in s2)
    ensures Place(items, s1, e) == Place(items, s2, e)
  {
    if items != [] {
      Split(items);
      RowsCongruent(items[..|items| - 1], s1, map[], s2, map[], r);
      PlaceCongruent(items[..|items| - 1], s1, s2, e, r);
    }
  }

  lemma {:induction false} RowAtPlace(items: seq<Item>, shown: set<Event>, pairs: map<Event, Event>, e: Event, r: Renderer)
    requires DistinctFeed(items) && Feed(e) in items && e in shown
    ensures var at := Place(items, shown, e);
            at < |Rows(items, shown, pairs, r)| && Rows(items, shown, pairs, r)[at] == Row(e, pairs, r)
  {
    Split(items);
    var front, x := items[..|items| - 1], items[|items| - 1];
    RowsLength(front, shown, pairs, r);
    if x != Feed(e) { RowAtPlace(front, shown, pairs, e, r); }
  }

  // The last item pairs anew: the rows before it do not hold its event.
  lemma LastRepaired(front: seq<Item>, shown: set<Event>, pairs: map<Event, Event>, e: Event, u: Event, r: Renderer)
    requires Feed(e) !in front && e in shown
    ensures var rows := Rows(front, shown, pairs, r);
            Rows(front + [Feed(e)], shown, pairs[e := u], r) ==
            (rows + ItemRows(Feed(e), Run(front), Counter(front), shown, pairs, r))
              [|rows| := EventEntry(e, Some(u), map[], r)]
  {
    assert (front + [Feed(e)])[..|front|] == front;
    RowsCongruent(front, shown, pairs, shown, pairs[e := u], r);
  }

  // Another item comes last: its row stays.
  lemma EarlierRepaired(front: seq<Item>, x: Item, shown: set<Event>, pairs: map<Event, Event>, e: Event, u: Event,
                        at: nat, r: Renderer)
    requires x != Feed(e) && at < |Rows(front, shown, pairs, r)|
    requires Rows(front, shown, pairs[e := u], r) == Rows(front, shown, pairs, r)[at := EventEntry(e, Some(u), map[], r)]
    ensures Rows(front + [x], shown, pairs[e := u], r) ==
            Rows(front + [x], shown, pairs, r)[at := EventEntry(e, Some(u), map[], r)]
  {
    assert (front + [x])[..|front|] == front;
    UpdateLeft(Rows(front, shown, pairs, r), ItemRows(x, Run(front), Counter(front), shown, pairs, r), at,
               EventEntry(e, Some(u), map[], r));
  }

  // A new pairing of one event changes the row at its place and no other.
  lemma {:induction false} RowsRepaired(items: seq<Item>, shown: set<Event>, pairs: map<Event, Event>, e: Event,
                                        u: Event, r: Renderer)
    requires DistinctFeed(items) && Feed(e) in items && e in shown
    ensures var rows, at := Rows(items, shown, pairs, r), Place(items, shown, e);
            && at < |rows| && Rows(items, shown, pairs[e := u], r) == rows[at := EventEntry(e, Some(u), map[], r)]
  {
    Split(items);
    RowAtPlace(items, shown, pairs, e, r);
    var front, x := items[..|items| - 1], items[|items| - 1];
    if x == Feed(e) {
      RowsLength(front, shown, pairs, r);
      LastRepaired(front, shown, pairs, e, u, r);
    } else {
      RowsRepaired(front, shown, pairs, e, u, r);
      EarlierRepaired(front, x, shown, pairs, e, u, Place(front, shown, e), r);
    }
  }

  lemma UpdateLeft<T>(a: seq<T>, b: seq<T>, at: nat, x: T)
    requires at < |a|
    ensures (a + b)[at := x] == a[at := x] + b
  {}

  // A row for an event exists only if the event is an item and shown, and carries
  // the event's pairing.
  lemma {:induction false} RowsComeFrom(items: seq<Item>, shown: set<Event>, pairs: map<Event, Event>, r: Renderer)
    ensures forall row | row in Rows(items, shown, pairs, r) && row.feedEvent.Some? ::
              var e := row.feedEvent.value;
              Feed(e) in items && e in shown && row.paired == Lookup(pairs, e)
  {
    if items != [] {
      Split(items);
      RowsComeFrom(items[..|items| - 1], shown, pairs, r);
    }
  }

  lemma {:induction false} RowsHold(items: seq<Item>, shown: set<Event>, pairs: map<Event, Event>, e: Event, r: Renderer)
    requires Feed(e) in items && e in shown
    ensures Row(e, pairs, r) in Rows(items, shown, pairs, r)
  {
    Split(items);
    if items[|items| - 1] != Feed(e) { RowsHold(items[..|items| - 1], shown, pairs, e, r); }
  }

  // Two sets of rows for the same items are equal exactly when they show the same
  // events with the same pairs.
  lemma RowsEqualIff(items: seq<Item>, s1: set<Event>, p1: map<Event, Event>,
                     s2: set<Event>, p2: map<Event, Event>, r: Renderer)
    ensures Rows(items, s1, p1, r) == Rows(items, s2, p2, r) <==>
      forall e :: Feed(e) in items ==> (e in s1 <==> e in s2) && (e in s1 ==> Lookup(p1, e) == Lookup(p2, e))
  {
    if Rows(items, s1, p1, r) == Rows(items, s2, p2, r) {
      forall e | Feed(e) in items
        ensures (e in s1 <==> e in s2) && (e in s1 ==> Lookup(p1, e) == Lookup(p2, e))
      {
        RowsComeFrom(items, s1, p1, r);
        RowsComeFrom(items, s2, p2, r);
        if e in s1 { RowsHold(items, s1, p1, e, r); assert Row(e, p1, r).feedEvent == Some(e); }
        if e in s2 { RowsHold(items, s2, p2, e, r); assert Row(e, p2, r).feedEvent == Some(e); }
      }
    } else if forall e :: Feed(e) in items ==> (e in s1 <==> e in s2) && (e in s1 ==> Lookup(p1, e) == Lookup(p2, e)) {
      RowsCongruent(items, s1, p1, s2, p2, r);
      assert false;
    }
  }

  // --------------------------------------------------- duplicate marks

  lemma MarkedAppend(rows: seq<Entry>, row: Entry)
    ensures RecomputedAround(Marked(rows) + [row], |rows|) == Marked(rows + [row])
  {
    var left, right := RecomputedAround(Marked(rows) + [row], |rows|), Marked(rows + [row]);
    forall i | 0 <= i < |rows| + 1 ensures left[i] == right[i] {}
  }

  lemma MarkedReplace(rows: seq<Entry>, at: nat, row: Entry)
    requires at < |rows|
    ensures RecomputedAround(Marked(rows)[at := row], at) == Marked(rows[at := row])
  {
    var left, right := RecomputedAround(Marked(rows)[at := row], at), Marked(rows[at := row]);
    forall i | 0 <= i < |rows| ensures left[i] == right[i] {}
  }

  lemma MarkedInjective(a: seq<Entry>, b: seq<Entry>)
    requires forall row :: row in a || row in b ==> !row.duplicateActor
    ensures Marked(a) == Marked(b) <==> a == b
  {
    if Marked(a) == Marked(b) {
      assert |a| == |Marked(a)| == |Marked(b)| == |b|;
      forall i | 0 <= i < |a| ensures a[i] == b[i] {
        assert Marked(a)[i] == Marked(b)[i] && a[i] in a && b[i] in b;
        assert a[i] == Marked(a)[i].(duplicateActor := false) && b[i] == Marked(b)[i].(duplicateActor := false);
      }
    }
  }

  // ------------------------------------------------------ the rebuild

  type Post = map<string, Event>

  function Shown(items: seq<Item>, post: Post, verbose: bool): set<Event> {
    set e | e in Events(items) && Shows(e, Some(post), verbose)
  }

  function Pairs(items: seq<Item>, post: Post): map<Event, Event> {
    map e | e in Events(items) && PairedPost(e, Some(post)).Some? :: PairedPost(e, Some(post)).value
  }

  function LastRequest(items: seq<Item>, id: string): Option<Event> {
    if items == [] then None
    else
      var x := items[|items| - 1];
      if x.Feed? && RequestOf(x.event) == Some(id) then Some(x.event) else LastRequest(items[..|items| - 1], id)
  }

  lemma {:induction false} LastRequestIsItem(items: seq<Item>, id: string)
    ensures LastRequest(items, id).Some? ==>
      Feed(LastRequest(items, id).value) in items && RequestOf(LastRequest(items, id).value) == Some(id)
    ensures LastRequest(items, id).None? ==> forall e :: Feed(e) in items ==> RequestOf(e) != Some(id)
  {
    if items != [] {
      Split(items);
      LastRequestIsItem(items[..|items| - 1], id);
    }
  }

  lemma {:induction false} BuildIsRows(items: seq<Item>, c: Context, shown: set<Event>, pairs: map<Event, Event>)
    requires c.post.Some?
    requires forall e :: Feed(e) in items ==> (e in shown <==> Shows(e, c.post, c.verbose))
    requires forall e :: Feed(e) in items ==> Lookup(pairs, e) == PairedPost(e, c.post)
    ensures var p := BuildRows(items, c);
            && p.entries == Rows(items, shown, pairs, c.renderer)
            && p.activeRunId == Run(items) && p.counter == Counter(items)
  {
    if items != [] {
      Split(items);
      BuildIsRows(items[..|items| - 1], c, shown, pairs);
      BuildStepRows(BuildRows(items[..|items| - 1], c), items[|items| - 1], c, shown, pairs);
    }
  }

  lemma BuildStepRows(p: Progress, x: Item, c: Context, shown: set<Event>, pairs: map<Event, Event>)
    requires x.Feed? ==> (x.event in shown <==> Shows(x.event, c.post, c.verbose))
    requires x.Feed? ==> Lookup(pairs, x.event) == PairedPost(x.event, c.post)
    ensures var q := BuildStep(p, x, c);
            && q.entries == p.entries + ItemRows(x, p.activeRunId, p.counter, shown, pairs, c.renderer)
            && q.activeRunId == (if x.Feed? then RunAfter(p.activeRunId, x.event) else p.activeRunId)
            && q.counter == p.counter + if x.Msg? then 1 else 0
  {}

  // The pending map of a rebuild: the last request of every tool use without update.
  ghost predicate PendingIs(pending: map<string, nat>, items: seq<Item>, shown: set<Event>, post: Post) {
    forall id :: && (id in pending <==> id !in post && LastRequest(items, id).Some?)
                 && (id in pending ==> pending[id] == Place(items, shown, LastRequest(items, id).value))
  }

  lemma RequestsShow(e: Event, post: Option<Post>, verbose: bool)
    requires RequestOf(e).Some?
    ensures Shows(e, post, verbose)
  {}

  lemma PendingStep(pending: map<string, nat>, items: seq<Item>, shown: set<Event>, post: Post)
    requires items != [] && DistinctFeed(items) && PendingIs(pending, items[..|items| - 1], shown, post)
    ensures var front, x := items[..|items| - 1], items[|items| - 1];
            PendingIs(if x.Feed? then Remember(pending, x.event, PairedPost(x.event, Some(post)), RowCount(front, shown))
                      else pending, items, shown, post)
  {
    Split(items);
    var front, x := items[..|items| - 1], items[|items| - 1];
    forall id | LastRequest(front, id).Some?
      ensures x.Feed? ==> LastRequest(front, id).value != x.event
      ensures Place(items, shown, LastRequest(front, id).value) == Place(front, shown, LastRequest(front, id).value)
    {
      LastRequestIsItem(front, id);
    }
  }

  lemma {:induction false} BuildPending(items: seq<Item>, c: Context, shown: set<Event>, pairs: map<Event, Event>)
    requires DistinctFeed(items) && c.post.Some?
    requires forall e :: Feed(e) in items ==> (e in shown <==> Shows(e, c.post, c.verbose))
    requires forall e :: Feed(e) in items ==> Lookup(pairs, e) == PairedPost(e, c.post)
    ensures PendingIs(BuildRows(items, c).pending, items, shown, c.post.value)
  {
    if items != [] {
      Split(items);
      var front := items[..|items| - 1];
      BuildPending(front, c, shown, pairs);
      BuildIsRows(front, c, shown, pairs);
      RowsLength(front, shown, pairs, c.renderer);
      PendingStep(BuildRows(front, c).pending, items, shown, c.post.value);
    }
  }

  // ------------------------------------------------------- the append

  // The update a waiting row ends up with: the first outcome, else the last delta.
  function SettledPair(items: seq<Item>, id: string): Option<Event> {
    if items == [] then None
    else
      var front, x := SettledPair(items[..|items| - 1], id), items[|items| - 1];
      if x.Feed? && MergeableUpdateOf(x.event) == Some(id) && !(front.Some? && IsOutcome(front.value))
      then Some(x.event) else front
  }

  lemma {:induction false} SettledIsItem(items: seq<Item>, id: string)
    ensures SettledPair(items, id).Some? ==>
      Feed(SettledPair(items, id).value) in items && MergeableUpdateOf(SettledPair(items, id).value) == Some(id)
  {
    if items != [] {
      Split(items);
      SettledIsItem(items[..|items| - 1], id);
    }
  }

  // The inputs of an append: what the previous cache was built from, and the new
  // items read so far.
  datatype Inputs = Inputs(old_: seq<Item>, post1: Post, post2: Post, verbose: bool)

  // The pair an old request's row shows once the new items have been read.
  function OldPair(e: Event, n: Inputs, added: seq<Item>): Option<Event> {
    if RequestOf(e).None? then None
    else
      var id := RequestOf(e).value;
      if id in n.post1 then Some(n.post1[id])
      else if LastRequest(n.old_, id) == Some(e) then SettledPair(added, id)
      else None
  }

  function NewPair(e: Event, n: Inputs, added: seq<Item>): Option<Event> {
    if Feed(e) in n.old_ then OldPair(e, n, added) else PairedPost(e, Some(n.post2))
  }

  predicate NewShows(e: Event, n: Inputs) {
    if Feed(e) in n.old_ then Shows(e, Some(n.post1), n.verbose)
    else MergeableUpdateOf(e).None? && Shows(e, Some(n.post2), n.verbose)
  }

  function NewShown(n: Inputs, added: seq<Item>): set<Event> {
    set e | e in Events(n.old_ + added) && NewShows(e, n)
  }

  function NewPairs(n: Inputs, added: seq<Item>): map<Event, Event> {
    map e | e in Events(n.old_ + added) && NewPair(e, n, added).Some? :: NewPair(e, n, added).value
  }

  function NewRows(n: Inputs, added: seq<Item>, r: Renderer): seq<Entry> {
    Rows(n.old_ + added, NewShown(n, added), NewPairs(n, added), r)
  }

  // A tool use of the old items still waiting for its outcome.
  predicate Waiting(n: Inputs, added: seq<Item>, id: string) {
    && id !in n.post1 && LastRequest(n.old_, id).Some?
    && (SettledPair(added, id).Some? ==> !IsOutcome(SettledPair(added, id).value))
  }

  predicate PendingFor(pending: map<string, nat>, n: Inputs, added: seq<Item>, id: string) {
    if id in n.post2
    then (id in pending <==> Waiting(n, added, id)) &&
         (id in pending ==> pending[id] == Place(n.old_, Shown(n.old_, n.post1, n.verbose), LastRequest(n.old_, id).value))
    else (id in pending <==> LastRequest(n.old_ + added, id).Some?) &&
         (id in pending ==> pending[id] == Place(n.old_ + added, NewShown(n, added), LastRequest(n.old_ + added, id).value))
  }

  ghost predicate AppendPending(pending: map<string, nat>, n: Inputs, added: seq<Item>) {
    forall id :: PendingFor(pending, n, added, id)
  }

  // What the appended cache is after the items read so far.
  ghost predicate Tracks(p: Progress, n: Inputs, added: seq<Item>, r: Renderer) {
    && p.entries == Marked(NewRows(n, added, r))
    && p.activeRunId == Run(n.old_ + added) && p.counter == Counter(n.old_ + added)
    && AppendPending(p.pending, n, added)
  }

  // The items are distinct, every update among them is indexed, and an entry of the
  // older index is still in the newer one.
  ghost predicate Consistent(n: Inputs, added: seq<Item>) {
    && DistinctFeed(n.old_ + added)
    && (forall e :: Feed(e) in n.old_ && UpdateOf(e).Some? ==> UpdateOf(e).value in n.post1)
    && (forall e :: Feed(e) in added && UpdateOf(e).Some? ==> UpdateOf(e).value in n.post2)
    && n.post1.Keys <= n.post2.Keys
  }

  lemma MergeableIsUpdate(e: Event)
    ensures MergeableUpdateOf(e).Some? ==> UpdateOf(e) == MergeableUpdateOf(e)
  {}

  lemma PendingStart(pending: map<string, nat>, n: Inputs)
    requires PendingIs(pending, n.old_, Shown(n.old_, n.post1, n.verbose), n.post1) && n.post1.Keys <= n.post2.Keys
    requires NewShown(n, []) == Shown(n.old_, n.post1, n.verbose)
    ensures AppendPending(pending, n, [])
  {
    assert n.old_ + [] == n.old_;
    forall id ensures PendingFor(pending, n, [], id) {}
  }

  lemma TracksStart(n: Inputs, types: map<string, string>, r: Renderer)
    requires DistinctFeed(n.old_) && n.post1.Keys <= n.post2.Keys
    ensures var p := BuildRows(n.old_, Context(types, Some(n.post1), n.verbose, r));
            Tracks(p.(entries := Marked(p.entries)), n, [], r)
  {
    var c := Context(types, Some(n.post1), n.verbose, r);
    assert n.old_ + [] == n.old_;
    var shown, pairs := Shown(n.old_, n.post1, n.verbose), Pairs(n.old_, n.post1);
    BuildIsRows(n.old_, c, shown, pairs);
    BuildPending(n.old_, c, shown, pairs);
    assert NewShown(n, []) == shown;
    forall e | Feed(e) in n.old_ ensures Lookup(NewPairs(n, []), e) == Lookup(pairs, e) {}
    RowsCongruent(n.old_, shown, pairs, NewShown(n, []), NewPairs(n, []), r);
    PendingStart(BuildRows(n.old_, c).pending, n);
  }

  lemma Extend(n: Inputs, front: seq<Item>, x: Item)
    ensures (front + [x])[..|front + [x]| - 1] == front && (front + [x])[|front + [x]| - 1] == x
    ensures n.old_ + (front + [x]) == n.old_ + front + [x]
    ensures (n.old_ + front + [x])[..|n.old_ + front + [x]| - 1] == n.old_ + front
    ensures forall e :: e in Events(n.old_ + front) ==> e in Events(n.old_ + front + [x])
  {
    assert (n.old_ + front + [x])[..|n.old_ + front + [x]| - 1] == n.old_ + front;
    assert forall y :: y in n.old_ + front ==> y in n.old_ + front + [x];
  }

  lemma NewShownHas(n: Inputs, added: seq<Item>, e: Event)
    ensures e in NewShown(n, added) <==> Feed(e) in n.old_ + added && NewShows(e, n)
    ensures Lookup(NewPairs(n, added), e) == if Feed(e) in n.old_ + added then NewPair(e, n, added) else None
  {
    assert e in Events(n.old_ + added) <==> Feed(e) in n.old_ + added;
  }

  // Who is shown among the items read so far does not depend on the next item.
  lemma NewShownExtend(n: Inputs, front: seq<Item>, x: Item)
    ensures forall e :: Feed(e) in n.old_ + front ==> (e in NewShown(n, front + [x]) <==> e in NewShown(n, front))
  {
    Extend(n, front, x);
    forall e | Feed(e) in n.old_ + front ensures e in NewShown(n, front + [x]) <==> e in NewShown(n, front) {
      NewShownHas(n, front, e);
      NewShownHas(n, front + [x], e);
      assert Feed(e) in n.old_ + front + [x];
    }
  }

  lemma SettledExtend(front: seq<Item>, x: Item, id: string)
    ensures SettledPair(front + [x], id) ==
            if x.Feed? && MergeableUpdateOf(x.event) == Some(id) &&
               !(SettledPair(front, id).Some? && IsOutcome(SettledPair(front, id).value))
            then Some(x.event) else SettledPair(front, id)
  {
    assert (front + [x])[..|front + [x]| - 1] == front;
  }

  // Reading an item that is no mergeable update only adds its own row, if any.
  lemma RowsExtend(n: Inputs, front: seq<Item>, x: Item, r: Renderer)
    requires x.Feed? ==> MergeableUpdateOf(x.event).None?
    ensures var all, shown, pairs := n.old_ + front, NewShown(n, front + [x]), NewPairs(n, front + [x]);
            NewRows(n, front + [x], r) == NewRows(n, front, r) + ItemRows(x, Run(all), Counter(all), shown, pairs, r)
    ensures RowCount(n.old_ + front, NewShown(n, front + [x])) == |NewRows(n, front, r)|
  {
    Extend(n, front, x);
    NewShownExtend(n, front, x);
    var all, shown, pairs := n.old_ + front, NewShown(n, front + [x]), NewPairs(n, front + [x]);
    forall e | Feed(e) in all ensures Lookup(pairs, e) == Lookup(NewPairs(n, front), e) {
      NewShownHas(n, front, e);
      NewShownHas(n, front + [x], e);
      assert Feed(e) in all + [x];
      if RequestOf(e).Some? { SettledExtend(front, x, RequestOf(e).value); }
    }
    RowsCongruent(all, shown, pairs, NewShown(n, front), NewPairs(n, front), r);
    RowsLength(all, NewShown(n, front), NewPairs(n, front), r);
  }

  // The latest request of each tool use, and its place, after one more item.
  lemma PlaceExtend(n: Inputs, front: seq<Item>, x: Item, id: string, r: Renderer)
    requires DistinctFeed(n.old_ + (front + [x]))
    ensures var all, req := n.old_ + front, LastRequest(n.old_ + front, id);
            && LastRequest(n.old_ + (front + [x]), id) ==
               (if x.Feed? && RequestOf(x.event) == Some(id) then Some(x.event) else req)
            && (req.Some? ==> Place(n.old_ + (front + [x]), NewShown(n, front + [x]), req.value) ==
                              Place(all, NewShown(n, front), req.value))
            && (x.Feed? ==> Place(n.old_ + (front + [x]), NewShown(n, front + [x]), x.event) ==
                            RowCount(all, NewShown(n, front + [x])))
  {
    Extend(n, front, x);
    var all := n.old_ + front;
    Split(all + [x]);
    LastRequestIsItem(all, id);
    if LastRequest(all, id).Some? {
      NewShownExtend(n, front, x);
      PlaceCongruent(all, NewShown(n, front + [x]), NewShown(n, front), LastRequest(all, id).value, r);
    }
  }

  lemma PendingForExtend(pending: map<string, nat>, n: Inputs, front: seq<Item>, x: Item, id: string, r: Renderer)
    requires DistinctFeed(n.old_ + (front + [x])) && PendingFor(pending, n, front, id)
    requires x.Feed? ==> MergeableUpdateOf(x.event).None?
    ensures PendingFor(if x.Feed? then Remember(pending, x.event, PairedPost(x.event, Some(n.post2)), |NewRows(n, front, r)|)
                       else pending, n, front + [x], id)
  {
    SettledExtend(front, x, id);
    if id !in n.post2 {
      RowsExtend(n, front, x, r);
      PlaceExtend(n, front, x, id, r);
    }
  }

  lemma PendingExtend(pending: map<string, nat>, n: Inputs, front: seq<Item>, x: Item, r: Renderer)
    requires DistinctFeed(n.old_ + (front + [x])) && AppendPending(pending, n, front)
    requires x.Feed? ==> MergeableUpdateOf(x.event).None?
    ensures AppendPending(if x.Feed? then Remember(pending, x.event, PairedPost(x.event, Some(n.post2)), |NewRows(n, front, r)|)
                          else pending, n, front + [x])
  {
    var after := if x.Feed? then Remember(pending, x.event, PairedPost(x.event, Some(n.post2)), |NewRows(n, front, r)|)
                 else pending;
    forall id ensures PendingFor(after, n, front + [x], id) {
      PendingForExtend(pending, n, front, x, id, r);
    }
  }

  lemma TracksPlain(p: Progress, n: Inputs, front: seq<Item>, x: Item, c: Context)
    requires Tracks(p, n, front, c.renderer) && Consistent(n, front + [x])
    requires c.post == Some(n.post2) && c.verbose == n.verbose
    requires x.Feed? ==> MergeableUpdateOf(x.event).None?
    ensures Tracks(AppendStep(p, x, c), n, front + [x], c.renderer)
  {
    PendingExtend(p.pending, n, front, x, c.renderer);
    PlainStepRows(p, n, front, x, c);
    PlainStepRest(p, x, c);
    Extend(n, front, x);
    assert |p.entries| == |NewRows(n, front, c.renderer)|;
  }

  lemma PlainStepRest(p: Progress, x: Item, c: Context)
    requires x.Feed? ==> MergeableUpdateOf(x.event).None?
    ensures var q := AppendStep(p, x, c);
            && q.activeRunId == (if x.Feed? then RunAfter(p.activeRunId, x.event) else p.activeRunId)
            && q.counter == p.counter + (if x.Msg? then 1 else 0)
            && q.pending == if x.Feed? then Remember(p.pending, x.event, PairedPost(x.event, c.post), |p.entries|)
                            else p.pending
  {}

  lemma PlainStepRows(p: Progress, n: Inputs, front: seq<Item>, x: Item, c: Context)
    requires p.entries == Marked(NewRows(n, front, c.renderer)) && DistinctFeed(n.old_ + (front + [x]))
    requires p.activeRunId == Run(n.old_ + front) && p.counter == Counter(n.old_ + front)
    requires c.post == Some(n.post2) && c.verbose == n.verbose
    requires x.Feed? ==> MergeableUpdateOf(x.event).None?
    ensures AppendStep(p, x, c).entries == Marked(NewRows(n, front + [x], c.renderer))
  {
    var before := NewRows(n, front, c.renderer);
    RowsExtend(n, front, x, c.renderer);
    if x.Feed? { NewItemRows(n, front, x.event, p.activeRunId, p.counter, c); }
    PlainStepAppends(p, before, x, c);
  }

  function PlainRows(x: Item, run: Option<string>, counter: nat, c: Context): seq<Entry> {
    match x
    case Msg(m) => [MessageEntry(m, run, counter, c.renderer)]
    case Feed(e) => if Shows(e, c.post, c.verbose) then [EventEntry(e, PairedPost(e, c.post), c.types, c.renderer)] else []
  }

  lemma PlainStepAppends(p: Progress, before: seq<Entry>, x: Item, c: Context)
    requires p.entries == Marked(before) && forall row | row in before :: !row.duplicateActor
    requires x.Feed? ==> MergeableUpdateOf(x.event).None?
    ensures AppendStep(p, x, c).entries == Marked(before + PlainRows(x, p.activeRunId, p.counter, c))
  {
    var rows := PlainRows(x, p.activeRunId, p.counter, c);
    if rows == [] { assert before + rows == before; } else { MarkedAppend(before, rows[0]); }
  }

  lemma NewItemRows(n: Inputs, front: seq<Item>, e: Event, run: Option<string>, counter: nat, c: Context)
    requires DistinctFeed(n.old_ + (front + [Feed(e)])) && c.post == Some(n.post2) && c.verbose == n.verbose
    requires MergeableUpdateOf(e).None?
    ensures ItemRows(Feed(e), run, counter, NewShown(n, front + [Feed(e)]), NewPairs(n, front + [Feed(e)]), c.renderer) ==
            PlainRows(Feed(e), run, counter, c)
  {
    Extend(n, front, Feed(e));
    Split(n.old_ + front + [Feed(e)]);
    NewShownHas(n, front + [Feed(e)], e);
  }

  // Reading a mergeable update changes the pair of the one waiting request of its
  // tool use, if there is one.
  lemma PairFold(n: Inputs, front: seq<Item>, e: Event, id: string, x: Event)
    requires MergeableUpdateOf(e) == Some(id)
    ensures NewPair(x, n, front + [Feed(e)]) ==
            if Feed(x) in n.old_ && Waiting(n, front, id) && LastRequest(n.old_, id) == Some(x) then Some(e)
            else NewPair(x, n, front)
  {
    LastRequestIsItem(n.old_, id);
    if RequestOf(x).Some? { SettledExtend(front, Feed(e), RequestOf(x).value); }
  }

  lemma FoldLookup(n: Inputs, front: seq<Item>, e: Event, id: string, x: Event)
    requires DistinctFeed(n.old_ + (front + [Feed(e)])) && MergeableUpdateOf(e) == Some(id) && Feed(x) in n.old_ + front
    ensures Lookup(NewPairs(n, front + [Feed(e)]), x) ==
            Lookup(if Waiting(n, front, id) then NewPairs(n, front)[LastRequest(n.old_, id).value := e]
                   else NewPairs(n, front), x)
  {
    Extend(n, front, Feed(e));
    Split(n.old_ + front + [Feed(e)]);
    NewShownHas(n, front, x);
    NewShownHas(n, front + [Feed(e)], x);
    LastRequestIsItem(n.old_, id);
    PairFold(n, front, e, id, x);
    assert Feed(x) in n.old_ + front + [Feed(e)];
  }

  // It adds no row.
  lemma RowsFold(n: Inputs, front: seq<Item>, e: Event, id: string, r: Renderer)
    requires DistinctFeed(n.old_ + (front + [Feed(e)])) && MergeableUpdateOf(e) == Some(id)
    ensures NewRows(n, front + [Feed(e)], r) ==
            if Waiting(n, front, id) then
              Rows(n.old_ + front, NewShown(n, front), NewPairs(n, front)[LastRequest(n.old_, id).value := e], r)
            else NewRows(n, front, r)
  {
    var item := Feed(e);
    Extend(n, front, item);
    NewShownExtend(n, front, item);
    var all, shown, pairs := n.old_ + front, NewShown(n, front + [item]), NewPairs(n, front + [item]);
    var was := if Waiting(n, front, id) then NewPairs(n, front)[LastRequest(n.old_, id).value := e] else NewPairs(n, front);
    forall x | Feed(x) in all ensures Lookup(pairs, x) == Lookup(was, x) {
      FoldLookup(n, front, e, id, x);
    }
    Split(all + [item]);
    RowsCongruent(all, shown, pairs, NewShown(n, front), was, r);
    NewShownHas(n, front + [item], e);
    UnshownLast(all, e, shown, pairs, r);
  }

  lemma UnshownLast(items: seq<Item>, e: Event, shown: set<Event>, pairs: map<Event, Event>, r: Renderer)
    requires e !in shown
    ensures Rows(items + [Feed(e)], shown, pairs, r) == Rows(items, shown, pairs, r)
  {
    assert (items + [Feed(e)])[..|items|] == items;
  }

  lemma TracksUpdate(p: Progress, n: Inputs, front: seq<Item>, e: Event, c: Context)
    requires Tracks(p, n, front, c.renderer) && Consistent(n, front + [Feed(e)])
    requires MergeableUpdateOf(e).Some?
    ensures Tracks(FoldUpdate(p, e, c), n, front + [Feed(e)], c.renderer)
  {
    var id := MergeableUpdateOf(e).value;
    Extend(n, front, Feed(e));
    MergeableIsUpdate(e);
    Split(n.old_ + front + [Feed(e)]);
    assert Feed(e) in front + [Feed(e)] && id in n.post2;
    assert PendingFor(p.pending, n, front, id);
    if Waiting(n, front, id) { WaitingRow(n, front, id, c.renderer); }
    FoldStepRows(p, n, front, e, id, c);
    PendingFold(p, n, front, e, c);
    FoldRest(p, n, front, e, c);
  }

  lemma FoldRest(p: Progress, n: Inputs, front: seq<Item>, e: Event, c: Context)
    requires MergeableUpdateOf(e).Some?
    ensures FoldUpdate(p, e, c).activeRunId == p.activeRunId && FoldUpdate(p, e, c).counter == p.counter
    ensures Run(n.old_ + (front + [Feed(e)])) == Run(n.old_ + front)
    ensures Counter(n.old_ + (front + [Feed(e)])) == Counter(n.old_ + front)
  {
    Extend(n, front, Feed(e));
  }

  // Where the row of a waiting request is and what it shows.
  lemma WaitingRow(n: Inputs, front: seq<Item>, id: string, r: Renderer)
    requires DistinctFeed(n.old_ + front) && LastRequest(n.old_, id).Some?
    ensures var req, rows := LastRequest(n.old_, id).value, NewRows(n, front, r);
            var at := Place(n.old_, Shown(n.old_, n.post1, n.verbose), req);
            && at < |rows| && rows[at].feedEvent == Some(req)
            && forall u :: Rows(n.old_ + front, NewShown(n, front), NewPairs(n, front)[req := u], r) ==
                           rows[at := EventEntry(req, Some(u), map[], r)]
  {
    WaitingPlace(n, front, id, r);
    var req := LastRequest(n.old_, id).value;
    RowAtPlace(n.old_ + front, NewShown(n, front), NewPairs(n, front), req, r);
    forall u {
      RowsRepaired(n.old_ + front, NewShown(n, front), NewPairs(n, front), req, u, r);
    }
  }

  lemma FoldStepRows(p: Progress, n: Inputs, front: seq<Item>, e: Event, id: string, c: Context)
    requires p.entries == Marked(NewRows(n, front, c.renderer)) && DistinctFeed(n.old_ + (front + [Feed(e)]))
    requires DistinctFeed(n.old_ + front)
    requires MergeableUpdateOf(e) == Some(id) && (id in p.pending <==> Waiting(n, front, id))
    requires id in p.pending ==> p.pending[id] == Place(n.old_, Shown(n.old_, n.post1, n.verbose), LastRequest(n.old_, id).value)
    ensures FoldUpdate(p, e, c).entries == Marked(NewRows(n, front + [Feed(e)], c.renderer))
  {
    var r, rows := c.renderer, NewRows(n, front, c.renderer);
    RowsFold(n, front, e, id, r);
    if id in p.pending {
      var req := LastRequest(n.old_, id).value;
      WaitingRow(n, front, id, r);
      var at := p.pending[id];
      assert p.entries[at].feedEvent == Some(req);
      MarkedReplace(rows, at, EventEntry(req, Some(e), c.types, r));
    }
  }

  // The place of a waiting request does not depend on what follows the old items.
  lemma WaitingPlace(n: Inputs, added: seq<Item>, id: string, r: Renderer)
    requires DistinctFeed(n.old_ + added) && LastRequest(n.old_, id).Some?
    ensures var req := LastRequest(n.old_, id).value;
            && Feed(req) in n.old_ + added && req in NewShown(n, added)
            && Place(n.old_ + added, NewShown(n, added), req) == Place(n.old_, Shown(n.old_, n.post1, n.verbose), req)
  {
    LastRequestIsItem(n.old_, id);
    var req := LastRequest(n.old_, id).value;
    RequestsShow(req, Some(n.post1), n.verbose);
    assert req in Events(n.old_ + added);
    PlaceInPrefix(n.old_, added, NewShown(n, added), req);
    forall e | Feed(e) in n.old_ ensures e in NewShown(n, added) <==> e in Shown(n.old_, n.post1, n.verbose) {
      assert e in Events(n.old_ + added) && e in Events(n.old_);
    }
    PlaceCongruent(n.old_, NewShown(n, added), Shown(n.old_, n.post1, n.verbose), req, r);
  }

  lemma {:induction false} PlaceInPrefix(a: seq<Item>, b: seq<Item>, shown: set<Event>, e: Event)
    requires DistinctFeed(a + b) && Feed(e) in a
    ensures Place(a + b, shown, e) == Place(a, shown, e)
  {
    if b == [] {
      assert a + b == a;
    } else {
      assert (a + b)[..|a + b| - 1] == a + b[..|b| - 1];
      Split(a + b);
      PlaceInPrefix(a, b[..|b| - 1], shown, e);
    }
  }

  lemma PendingFold(p: Progress, n: Inputs, front: seq<Item>, e: Event, c: Context)
    requires AppendPending(p.pending, n, front) && Consistent(n, front + [Feed(e)]) && MergeableUpdateOf(e).Some?
    requires MergeableUpdateOf(e).value in n.post2
    requires var id := MergeableUpdateOf(e).value;
             id in p.pending ==> p.pending[id] < |p.entries| && p.entries[p.pending[id]].feedEvent.Some?
    ensures AppendPending(FoldUpdate(p, e, c).pending, n, front + [Feed(e)])
  {
    var after := FoldUpdate(p, e, c).pending;
    forall id ensures PendingFor(after, n, front + [Feed(e)], id) {
      assert PendingFor(p.pending, n, front, id);
      SettledExtend(front, Feed(e), id);
      PlaceExtend(n, front, Feed(e), id, c.renderer);
    }
  }

  lemma ConsistentPrefix(n: Inputs, front: seq<Item>, x: Item)
    requires Consistent(n, front + [x])
    ensures Consistent(n, front)
  {
    Extend(n, front, x);
    Split(n.old_ + front + [x]);
    assert forall y :: y in front ==> y in front + [x];
  }

  lemma TracksOne(p: Progress, n: Inputs, front: seq<Item>, x: Item, c: Context)
    requires Tracks(p, n, front, c.renderer) && Consistent(n, front + [x])
    requires c.post == Some(n.post2) && c.verbose == n.verbose
    ensures Tracks(AppendStep(p, x, c), n, front + [x], c.renderer)
  {
    if x.Feed? && MergeableUpdateOf(x.event).Some? {
      TracksUpdate(p, n, front, x.event, c);
    } else {
      TracksPlain(p, n, front, x, c);
    }
  }

  lemma {:induction false} TracksAll(p: Progress, n: Inputs, added: seq<Item>, c: Context)
    requires Tracks(p, n, [], c.renderer) && Consistent(n, added)
    requires c.post == Some(n.post2) && c.verbose == n.verbose
    ensures Tracks(AppendRows(p, added, c), n, added, c.renderer)
  {
    if added != [] {
      var front, x := added[..|added| - 1], added[|added| - 1];
      assert added == front + [x];
      ConsistentPrefix(n, front, x);
      TracksAll(p, n, front, c);
      TracksOne(AppendRows(p, front, c), n, front, x, c);
    }
  }

  // --------------------------------------------------------- main theorems

  // The feed items of a timeline are among its events, each once.
  ghost predicate WellFormed(items: seq<Item>, events: seq<Event>) {
    DistinctFeed(items) && forall e :: Feed(e) in items ==> e in events
  }

  // No tool use answered in the old items is answered anew; a request still open
  // there is the last one of its tool use, and its outcome is read in order.
  predicate RequestsAgree(n: Inputs, added: seq<Item>) {
    forall e | e in Events(n.old_) && RequestOf(e).Some? && RequestOf(e).value in n.post2 ::
      var id := RequestOf(e).value;
      if id in n.post1 then n.post1[id] == n.post2[id]
      else LastRequest(n.old_, id) == Some(e) && SettledPair(added, id) == Some(n.post2[id])
  }

  // No outcome that the old items folded into its request has been superseded.
  predicate OldOutcomesAgree(n: Inputs) {
    forall e | e in Events(n.old_) :: Merged(e, Some(n.post1)) <==> Merged(e, Some(n.post2))
  }

  // Every new outcome is the latest update of its tool use.
  predicate NewOutcomesAgree(n: Inputs, added: seq<Item>) {
    forall e | e in Events(added) && IsOutcome(e) && MergeableUpdateOf(e).Some? :: Merged(e, Some(n.post2))
  }

  predicate Agrees(n: Inputs, added: seq<Item>) {
    RequestsAgree(n, added) && OldOutcomesAgree(n) && NewOutcomesAgree(n, added)
  }

  // The appended and the rebuilt view agree on every item.
  ghost predicate SameView(n: Inputs, added: seq<Item>) {
    forall e :: Feed(e) in n.old_ + added ==>
      && (NewShows(e, n) <==> Shows(e, Some(n.post2), n.verbose))
      && (NewShows(e, n) ==> NewPair(e, n, added) == PairedPost(e, Some(n.post2)))
  }

  lemma SameViewIffAgrees(n: Inputs, added: seq<Item>)
    requires Consistent(n, added)
    ensures SameView(n, added) <==> Agrees(n, added)
  {
    forall e | Feed(e) in n.old_ + added
      ensures Feed(e) in n.old_ <==> Feed(e) !in added
    {
      OneSide(n.old_, added, e);
    }
    forall e | Feed(e) in n.old_ && RequestOf(e).Some?
      ensures NewPair(e, n, added) == PairedPost(e, Some(n.post2)) <==>
        (RequestOf(e).value in n.post2 ==>
          var id := RequestOf(e).value;
          if id in n.post1 then n.post1[id] == n.post2[id]
          else LastRequest(n.old_, id) == Some(e) && SettledPair(added, id) == Some(n.post2[id]))
    {
      var id := RequestOf(e).value;
      SettledIsItem(added, id);
      if SettledPair(added, id).Some? { MergeableIsUpdate(SettledPair(added, id).value); }
    }
    if SameView(n, added) { ViewGivesAgreement(n, added); }
    if Agrees(n, added) { AgreementGivesView(n, added); }
  }

  lemma OneSide(a: seq<Item>, b: seq<Item>, e: Event)
    requires DistinctFeed(a + b) && Feed(e) in a + b
    ensures Feed(e) in a <==> Feed(e) !in b
  {
    assert forall k :: 0 <= k < |a| ==> (a + b)[k] == a[k];
    assert forall k :: 0 <= k < |b| ==> (a + b)[|a| + k] == b[k];
  }

  // A request of the old items shows the pair the index holds now.
  ghost predicate PairsUpToDate(n: Inputs, added: seq<Item>) {
    forall e :: Feed(e) in n.old_ && RequestOf(e).Some? ==>
      (NewPair(e, n, added) == PairedPost(e, Some(n.post2)) <==>
       (RequestOf(e).value in n.post2 ==>
          var id := RequestOf(e).value;
          if id in n.post1 then n.post1[id] == n.post2[id]
          else LastRequest(n.old_, id) == Some(e) && SettledPair(added, id) == Some(n.post2[id])))
  }

  lemma ViewGivesAgreement(n: Inputs, added: seq<Item>)
    requires SameView(n, added) && PairsUpToDate(n, added)
    requires forall e :: Feed(e) in n.old_ + added ==> (Feed(e) in n.old_ <==> Feed(e) !in added)
    ensures Agrees(n, added)
  {
    forall e | e in Events(n.old_) && RequestOf(e).Some? && RequestOf(e).value in n.post2
      ensures NewPair(e, n, added) == PairedPost(e, Some(n.post2))
    {
      assert Feed(e) in n.old_ + added;
      RequestsShow(e, Some(n.post1), n.verbose);
    }
    forall e | e in Events(n.old_)
      ensures Merged(e, Some(n.post1)) <==> Merged(e, Some(n.post2))
    {
      assert Feed(e) in n.old_ + added;
    }
    forall e | e in Events(added) && IsOutcome(e) && MergeableUpdateOf(e).Some?
      ensures Merged(e, Some(n.post2))
    {
      assert Feed(e) in n.old_ + added && Feed(e) !in n.old_;
    }
  }

  lemma AgreementGivesView(n: Inputs, added: seq<Item>)
    requires Agrees(n, added) && PairsUpToDate(n, added)
    requires forall e :: Feed(e) in n.old_ + added ==> (Feed(e) in n.old_ <==> Feed(e) !in added)
    ensures SameView(n, added)
  {
    forall e | Feed(e) in n.old_ + added
      ensures NewShows(e, n) <==> Shows(e, Some(n.post2), n.verbose)
      ensures NewShows(e, n) ==> NewPair(e, n, added) == PairedPost(e, Some(n.post2))
    {
      if Feed(e) in n.old_ {
        assert e in Events(n.old_);
      } else {
        assert e in Events(added);
      }
    }
  }

  lemma {:induction false} TypesSplit(m: map<string, string>, a: seq<Event>, b: seq<Event>)
    ensures SubagentTypes(SubagentTypes(m, a), b) == SubagentTypes(m, a + b)
  {
    if b == [] {
      assert a + b == a;
    } else {
      assert (a + b)[..|a + b| - 1] == a + b[..|b| - 1];
      TypesSplit(m, a, b[..|b| - 1]);
    }
  }

  lemma IndexGrows(events1: seq<Event>, events2: seq<Event>)
    ensures PostByToolUseId(events1).Keys <= PostByToolUseId(events1 + events2).Keys
  {
    forall id | id in PostByToolUseId(events1) ensures id in PostByToolUseId(events1 + events2) {
      var at := PostIsLatest(events1, id);
      PostCovers(events1 + events2, (events1 + events2)[at], id);
    }
  }

  function InputsOf(items1: seq<Item>, events1: seq<Event>, events2: seq<Event>, verbose: bool): Inputs {
    Inputs(items1, PostByToolUseId(events1), PostByToolUseId(events1 + events2), verbose)
  }

  function Appended(items1: seq<Item>, items2: seq<Item>, events1: seq<Event>, events2: seq<Event>,
                    verbose: bool, r: Renderer): Cache
  {
    Append(Build(items1, events1, Some(PostByToolUseId(events1)), verbose, r),
           items1 + items2, events1 + events2, Some(PostByToolUseId(events1 + events2)), r)
  }

  function Rebuilt(items: seq<Item>, events: seq<Event>, verbose: bool, r: Renderer): Cache {
    Build(items, events, Some(PostByToolUseId(events)), verbose, r)
  }

  lemma InputsConsistent(items1: seq<Item>, items2: seq<Item>, events1: seq<Event>, events2: seq<Event>, verbose: bool)
    requires WellFormed(items1, events1) && WellFormed(items1 + items2, events1 + events2)
    ensures Consistent(InputsOf(items1, events1, events2, verbose), items2)
    ensures Consistent(InputsOf(items1, events1, events2, verbose), [])
  {
    assert items1 + [] == items1;
    IndexGrows(events1, events2);
    forall e | Feed(e) in items1 && UpdateOf(e).Some? ensures UpdateOf(e).value in PostByToolUseId(events1) {
      PostCovers(events1, e, UpdateOf(e).value);
    }
    forall e | Feed(e) in items2 && UpdateOf(e).Some? ensures UpdateOf(e).value in PostByToolUseId(events1 + events2) {
      assert Feed(e) in items1 + items2;
      PostCovers(events1 + events2, e, UpdateOf(e).value);
    }
  }

  // What the appended cache consists of, for any well-formed input.
  lemma AppendedTracks(items1: seq<Item>, items2: seq<Item>, events1: seq<Event>, events2: seq<Event>,
                       verbose: bool, r: Renderer)
    requires WellFormed(items1, events1) && WellFormed(items1 + items2, events1 + events2)
    ensures Tracks(Appended(items1, items2, events1, events2, verbose, r).rows,
                   InputsOf(items1, events1, events2, verbose), items2, r)
    ensures Appended(items1, items2, events1, events2, verbose, r).types == SubagentTypes(map[], events1 + events2)
  {
    var n := InputsOf(items1, events1, events2, verbose);
    var types1 := SubagentTypes(map[], events1);
    InputsConsistent(items1, items2, events1, events2, verbose);
    TracksStart(n, types1, r);
    TypesSplit(map[], events1, events2);
    assert (events1 + events2)[|events1|..] == events2 && (items1 + items2)[|items1|..] == items2;
    var prev := Build(items1, events1, Some(n.post1), verbose, r);
    TracksAll(prev.rows, n, items2, Context(SubagentTypes(types1, events2), Some(n.post2), verbose, r));
  }

  lemma RebuiltIsRows(items: seq<Item>, events: seq<Event>, verbose: bool, r: Renderer)
    requires DistinctFeed(items)
    ensures var b, post := Rebuilt(items, events, verbose, r), PostByToolUseId(events);
            && b.rows.entries == Marked(Rows(items, Shown(items, post, verbose), Pairs(items, post), r))
            && b.rows.activeRunId == Run(items) && b.rows.counter == Counter(items)
            && PendingIs(b.rows.pending, items, Shown(items, post, verbose), post)
  {
    var post := PostByToolUseId(events);
    var c := Context(SubagentTypes(map[], events), Some(post), verbose, r);
    BuildIsRows(items, c, Shown(items, post, verbose), Pairs(items, post));
    BuildPending(items, c, Shown(items, post, verbose), Pairs(items, post));
  }

  // Appending gives the rows that rebuilding gives exactly when the old requests,
  // the old outcomes and the new outcomes agree with the index; the active run, the
  // message counter and the subagent types always agree.
  lemma AppendEqualsRebuild(items1: seq<Item>, items2: seq<Item>, events1: seq<Event>, events2: seq<Event>,
                            verbose: bool, r: Renderer)
    requires WellFormed(items1, events1) && WellFormed(items1 + items2, events1 + events2)
    ensures var a, b := Appended(items1, items2, events1, events2, verbose, r),
                        Rebuilt(items1 + items2, events1 + events2, verbose, r);
            && (a.rows.entries == b.rows.entries <==> Agrees(InputsOf(items1, events1, events2, verbose), items2))
            && a.rows.activeRunId == b.rows.activeRunId && a.rows.counter == b.rows.counter
            && a.types == b.types
  {
    var n, items := InputsOf(items1, events1, events2, verbose), items1 + items2;
    AppendedTracks(items1, items2, events1, events2, verbose, r);
    RebuiltIsRows(items, events1 + events2, verbose, r);
    InputsConsistent(items1, items2, events1, events2, verbose);
    MarkedInjective(NewRows(n, items2, r), Rows(items, Shown(items, n.post2, verbose), Pairs(items, n.post2), r));
    RowsAgreeIff(n, items2, r);
  }

  lemma RowsAgreeIff(n: Inputs, added: seq<Item>, r: Renderer)
    requires Consistent(n, added)
    ensures var items := n.old_ + added;
            NewRows(n, added, r) == Rows(items, Shown(items, n.post2, n.verbose), Pairs(items, n.post2), r)
            <==> Agrees(n, added)
  {
    var items := n.old_ + added;
    var s1, p1, s2, p2 := NewShown(n, added), NewPairs(n, added), Shown(items, n.post2, n.verbose), Pairs(items, n.post2);
    RowsEqualIff(items, s1, p1, s2, p2, r);
    forall e | Feed(e) in items
      ensures e in s1 <==> NewShows(e, n)
      ensures Lookup(p1, e) == NewPair(e, n, added)
      ensures e in s2 <==> Shows(e, Some(n.post2), n.verbose)
      ensures Lookup(p2, e) == PairedPost(e, Some(n.post2))
    {
      NewShownHas(n, added, e);
      assert e in Events(items);
    }
    SameViewIffAgrees(n, added);
  }

  // If moreover no tool use has a delta as its latest update, the whole caches are
  // equal, so a further append starts from what a rebuild would have left.
  lemma AppendIsRebuild(items1: seq<Item>, items2: seq<Item>, events1: seq<Event>, events2: seq<Event>,
                        verbose: bool, r: Renderer)
    requires WellFormed(items1, events1) && WellFormed(items1 + items2, events1 + events2)
    requires Agrees(InputsOf(items1, events1, events2, verbose), items2)
    requires forall id :: id in PostByToolUseId(events1 + events2) ==> IsOutcome(PostByToolUseId(events1 + events2)[id])
    ensures Appended(items1, items2, events1, events2, verbose, r) ==
            Rebuilt(items1 + items2, events1 + events2, verbose, r)
  {
    AppendEqualsRebuild(items1, items2, events1, events2, verbose, r);
    AppendedTracks(items1, items2, events1, events2, verbose, r);
    RebuiltIsRows(items1 + items2, events1 + events2, verbose, r);
    SamePending(items1, items2, events1, events2, verbose, r);
  }

  lemma SamePending(items1: seq<Item>, items2: seq<Item>, events1: seq<Event>, events2: seq<Event>,
                    verbose: bool, r: Renderer)
    requires WellFormed(items1, events1) && WellFormed(items1 + items2, events1 + events2)
    requires Agrees(InputsOf(items1, events1, events2, verbose), items2)
    requires forall id :: id in PostByToolUseId(events1 + events2) ==> IsOutcome(PostByToolUseId(events1 + events2)[id])
    ensures forall a, b | AppendPending(a, InputsOf(items1, events1, events2, verbose), items2)
                          && PendingIs(b, items1 + items2, Shown(items1 + items2, PostByToolUseId(events1 + events2), verbose),
                                       PostByToolUseId(events1 + events2)) :: a == b
  {
    var n, items := InputsOf(items1, events1, events2, verbose), items1 + items2;
    InputsConsistent(items1, items2, events1, events2, verbose);
    SameViewIffAgrees(n, items2);
    var s1, s2 := NewShown(n, items2), Shown(items, n.post2, verbose);
    forall e | Feed(e) in items ensures e in s1 <==> e in s2 {
      NewShownHas(n, items2, e);
      assert e in Events(items);
    }
    forall id
      ensures id in n.post2 ==> !Waiting(n, items2, id)
      ensures LastRequest(items, id).Some? ==>
                Place(items, s1, LastRequest(items, id).value) == Place(items, s2, LastRequest(items, id).value)
    {
      LastRequestIsItem(n.old_, id);
      if LastRequest(n.old_, id).Some? { assert LastRequest(n.old_, id).value in Events(n.old_); }
      if LastRequest(items, id).Some? { PlaceCongruent(items, s1, s2, LastRequest(items, id).value, r); }
    }
    forall a, b | AppendPending(a, n, items2) && PendingIs(b, items, s2, n.post2) ensures a == b {
      SameMap(a, b, n, items2, s2);
    }
  }

  lemma SameMap(a: map<string, nat>, b: map<string, nat>, n: Inputs, added: seq<Item>, s2: set<Event>)
    requires AppendPending(a, n, added) && PendingIs(b, n.old_ + added, s2, n.post2)
    requires forall id :: id in n.post2 ==> !Waiting(n, added, id)
    requires forall id :: LastRequest(n.old_ + added, id).Some? ==>
      Place(n.old_ + added, NewShown(n, added), LastRequest(n.old_ + added, id).value) ==
      Place(n.old_ + added, s2, LastRequest(n.old_ + added, id).value)
    ensures a == b
  {
    forall id ensures id in a <==> id in b { assert PendingFor(a, n, added, id); }
    forall id | id in a ensures a[id] == b[id] { assert PendingFor(a, n, added, id); }
  }

  // ------------------------------------------------------- the usual case

  // No deltas, one request and one outcome per tool use, and the outcome of an old
  // request read as an item.
  ghost predicate Ordinary(items1: seq<Item>, items2: seq<Item>, events1: seq<Event>, events2: seq<Event>) {
    && (forall e :: e in events1 + events2 ==> !e.kind.ToolDelta?)
    && (forall e, f | Feed(e) in items1 && Feed(f) in items1 :: RequestOf(e).Some? && RequestOf(e) == RequestOf(f) ==> e == f)
    && (forall e, f | e in events1 + events2 && f in events1 + events2 ::
          UpdateOf(e).Some? && UpdateOf(e) == UpdateOf(f) ==> e == f)
    && (forall e, u | Feed(e) in items1 && u in events2 :: RequestOf(e).Some? && UpdateOf(u) == RequestOf(e) ==>
          Feed(u) in items2 && MergeableUpdateOf(u) == UpdateOf(u))
  }

  lemma {:induction false} SettledCovers(items: seq<Item>, u: Event, id: string)
    requires Feed(u) in items && MergeableUpdateOf(u) == Some(id)
    ensures SettledPair(items, id).Some?
  {
    Split(items);
    if items[|items| - 1] != Feed(u) { SettledCovers(items[..|items| - 1], u, id); }
  }

  lemma OrdinaryAgrees(items1: seq<Item>, items2: seq<Item>, events1: seq<Event>, events2: seq<Event>, verbose: bool)
    requires WellFormed(items1, events1) && WellFormed(items1 + items2, events1 + events2)
    requires Ordinary(items1, items2, events1, events2)
    ensures Agrees(InputsOf(items1, events1, events2, verbose), items2)
  {
    var n, events := InputsOf(items1, events1, events2, verbose), events1 + events2;
    forall id | id in n.post2
      ensures n.post2[id] in events && UpdateOf(n.post2[id]) == Some(id)
      ensures id in n.post1 ==> n.post1[id] == n.post2[id]
    {
      var at := PostIsLatest(events, id);
      if id in n.post1 {
        var at1 := PostIsLatest(events1, id);
        assert n.post1[id] in events;
      }
    }
    forall e | e in events && UpdateOf(e).Some?
      ensures UpdateOf(e).value in n.post2 && n.post2[UpdateOf(e).value] == e
    {
      PostCovers(events, e, UpdateOf(e).value);
    }
    forall e | e in Events(items1) && RequestOf(e).Some? && RequestOf(e).value in n.post2 && RequestOf(e).value !in n.post1
      ensures LastRequest(items1, RequestOf(e).value) == Some(e)
      ensures SettledPair(items2, RequestOf(e).value) == Some(n.post2[RequestOf(e).value])
    {
      OpenRequestAnswered(n, items2, events1, events2, e);
    }
    forall e | e in Events(items1) && IsOutcome(e) && MergeableUpdateOf(e).Some?
      ensures Merged(e, Some(n.post1)) && Merged(e, Some(n.post2))
    {
      MergeableIsUpdate(e);
      PostCovers(events1, e, UpdateOf(e).value);
    }
    forall e | e in Events(items2) && IsOutcome(e) && MergeableUpdateOf(e).Some?
      ensures Merged(e, Some(n.post2))
    {
      MergeableIsUpdate(e);
      assert Feed(e) in items1 + items2;
    }
  }

  lemma OpenRequestAnswered(n: Inputs, items2: seq<Item>, events1: seq<Event>, events2: seq<Event>, e: Event)
    requires n == InputsOf(n.old_, events1, events2, n.verbose)
    requires WellFormed(n.old_ + items2, events1 + events2) && Ordinary(n.old_, items2, events1, events2)
    requires Feed(e) in n.old_ && RequestOf(e).Some? && RequestOf(e).value in n.post2 && RequestOf(e).value !in n.post1
    ensures LastRequest(n.old_, RequestOf(e).value) == Some(e)
    ensures SettledPair(items2, RequestOf(e).value) == Some(n.post2[RequestOf(e).value])
  {
    var id := RequestOf(e).value;
    LastRequestIsItem(n.old_, id);
    var at := PostIsLatest(events1 + events2, id);
    var u := n.post2[id];
    if u in events1 { PostCovers(events1, u, id); }
    assert u in events2;
    SettledCovers(items2, u, id);
    SettledIsItem(items2, id);
    var f := SettledPair(items2, id).value;
    MergeableIsUpdate(f);
    assert Feed(f) in n.old_ + items2;
  }

  // In the usual case appending is rebuilding.
  lemma OrdinaryAppendIsRebuild(items1: seq<Item>, items2: seq<Item>, events1: seq<Event>, events2: seq<Event>,
                                verbose: bool, r: Renderer)
    requires WellFormed(items1, events1) && WellFormed(items1 + items2, events1 + events2)
    requires Ordinary(items1, items2, events1, events2)
    ensures Appended(items1, items2, events1, events2, verbose, r) ==
            Rebuilt(items1 + items2, events1 + events2, verbose, r)
  {
    OrdinaryAgrees(items1, items2, events1, events2, verbose);
    forall id | id in PostByToolUseId(events1 + events2) ensures IsOutcome(PostByToolUseId(events1 + events2)[id]) {
      var at := PostIsLatest(events1 + events2, id);
    }
    AppendIsRebuild(items1, items2, events1, events2, verbose, r);
  }

  // ------------------------------------------------------- where they differ

  // A row paired with a delta at build time never takes up the outcome.
  lemma DeltaBlocksOutcome(pre: Event, delta: Event, post: Event, verbose: bool, r: Renderer)
    requires RequestOf(pre).Some? && delta.kind.ToolDelta? && IsOutcome(post)
    requires RequestOf(pre) == MergeableUpdateOf(delta) == MergeableUpdateOf(post)
    ensures Appended([Feed(pre), Feed(delta)], [Feed(post)], [pre, delta], [post], verbose, r).rows.entries !=
            Rebuilt([Feed(pre), Feed(delta), Feed(post)], [pre, delta, post], verbose, r).rows.entries
  {
    var items1, items2 := [Feed(pre), Feed(delta)], [Feed(post)];
    var n := InputsOf(items1, [pre, delta], [post], verbose);
    assert items1 + items2 == [Feed(pre), Feed(delta), Feed(post)] && [pre, delta] + [post] == [pre, delta, post];
    assert [pre, delta, post][..2] == [pre, delta] && [pre, delta][..1] == [pre];
    AppendEqualsRebuild(items1, items2, [pre, delta], [post], verbose, r);
    assert pre in Events(items1) by { assert items1[0].Feed?; }
    assert n.post1[RequestOf(pre).value] == delta && n.post2[RequestOf(pre).value] == post;
    assert !RequestsAgree(n, items2);
  }

  lemma OpenPair(n: Inputs, pre: Event, perm: Event, post: Event)
    requires RequestOf(pre).Some? && RequestOf(perm) == RequestOf(pre) && pre != perm && IsOutcome(post)
    requires MergeableUpdateOf(post) == RequestOf(pre)
    requires n == InputsOf([Feed(pre), Feed(perm)], [pre, perm], [post], n.verbose)
    ensures !RequestsAgree(n, [Feed(post)])
  {
    var id := RequestOf(pre).value;
    assert pre in Events(n.old_) by { assert n.old_[0].Feed?; }
    if id in n.post1 { var at := PostIsLatest([pre, perm], id); }
    assert n.post2[id] == post;
    assert LastRequest(n.old_, id) == Some(perm);
  }

  // Of two open requests of one tool use only the later one takes up the outcome.
  lemma EarlierRequestStaysOpen(pre: Event, perm: Event, post: Event, verbose: bool, r: Renderer)
    requires RequestOf(pre).Some? && RequestOf(perm) == RequestOf(pre) && pre != perm && IsOutcome(post)
    requires MergeableUpdateOf(post) == RequestOf(pre)
    ensures Appended([Feed(pre), Feed(perm)], [Feed(post)], [pre, perm], [post], verbose, r).rows.entries !=
            Rebuilt([Feed(pre), Feed(perm), Feed(post)], [pre, perm, post], verbose, r).rows.entries
  {
    var items1, items2 := [Feed(pre), Feed(perm)], [Feed(post)];
    var n := InputsOf(items1, [pre, perm], [post], verbose);
    assert items1 + items2 == [Feed(pre), Feed(perm), Feed(post)] && [pre, perm] + [post] == [pre, perm, post];
    AppendEqualsRebuild(items1, items2, [pre, perm], [post], verbose, r);
    OpenPair(n, pre, perm, post);
  }

  // A superseded outcome has a row of its own only in a rebuild.
  lemma SupersededOutcomeHasNoRow(pre: Event, first: Event, second: Event, verbose: bool, r: Renderer)
    requires RequestOf(pre).Some? && IsOutcome(first) && IsOutcome(second) && first != second
    requires MergeableUpdateOf(first) == MergeableUpdateOf(second) == RequestOf(pre)
    ensures Appended([Feed(pre)], [Feed(first), Feed(second)], [pre], [first, second], verbose, r).rows.entries !=
            Rebuilt([Feed(pre), Feed(first), Feed(second)], [pre, first, second], verbose, r).rows.entries
  {
    var items1, items2 := [Feed(pre)], [Feed(first), Feed(second)];
    var n := InputsOf(items1, [pre], [first, second], verbose);
    assert items1 + items2 == [Feed(pre), Feed(first), Feed(second)] && [pre] + [first, second] == [pre, first, second];
    AppendEqualsRebuild(items1, items2, [pre], [first, second], verbose, r);
    assert first in Events(items2) by { assert items2[0].Feed?; }
    assert n.post2[RequestOf(pre).value] == second;
    assert !NewOutcomesAgree(n, items2);
  }
}
