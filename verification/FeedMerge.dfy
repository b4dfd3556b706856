/** The list of feed items: messages and events by sequence number. Proved: new messages
    and events leave the old items a prefix, which is what lets the timeline be extended
    instead of rebuilt, exactly when none of them sorts before an old one. */
module FeedMerge {
  import opened FeedTypes
  import opened Timeline
  import opened StableSort

  // The sequence numbers of messages and events.
  datatype Numbering = Numbering(ofMessage: Message -> int, ofEvent: Event -> int)

  const TASK_TOOL_NAMES := {"TodoWrite", "TaskCreate", "TaskUpdate", "TaskList", "TaskGet"}

  predicate ShouldExclude(e: Event) {
    match e.kind
    case ToolPre(tool, _) => tool in TASK_TOOL_NAMES
    case ToolPost(tool, _) => tool in TASK_TOOL_NAMES
    case Plain(name) => name == "todo.update"
    case _ => false
  }

  function SeqOf(x: Item, n: Numbering): int {
    match x
    case Msg(m) => n.ofMessage(m)
    case Feed(e) => n.ofEvent(e)
  }

  // The comparison the items are sorted by.
  function Compare(left: Item, right: Item, n: Numbering): int {
    if SeqOf(left, n) != SeqOf(right, n) then SeqOf(left, n) - SeqOf(right, n)
    else if left.Msg? && !right.Msg? then -1
    else if !left.Msg? && right.Msg? then 1
    else 0
  }

  // The same order as a number: events after messages of the same sequence number.
  function Rank(n: Numbering): Item -> int {
    x => 2 * SeqOf(x, n) + if x.Feed? then 1 else 0
  }

  lemma CompareIsRank(a: Item, b: Item, n: Numbering)
    ensures Compare(a, b, n) < 0 <==> Rank(n)(a) < Rank(n)(b)
    ensures Compare(a, b, n) == 0 <==> Rank(n)(a) == Rank(n)(b)
  {
  }

  function MessageItems(messages: seq<Message>): seq<Item> {
    seq(|messages|, i requires 0 <= i < |messages| => Msg(messages[i]))
  }

  function FeedItems(events: seq<Event>): seq<Item> {
    if events == [] then []
    else (if ShouldExclude(events[0]) then [] else [Feed(events[0])]) + FeedItems(events[1..])
  }

  function MergeFeedItems(messages: seq<Message>, events: seq<Event>, n: Numbering): seq<Item> {
    Sort(MessageItems(messages) + FeedItems(events), Rank(n))
  }

  lemma {:induction false} FeedItemsBoth(a: seq<Event>, b: seq<Event>)
    ensures FeedItems(a + b) == FeedItems(a) + FeedItems(b)
  {
    if a == [] {
      assert a + b == b;
    } else {
      assert (a + b)[1..] == a[1..] + b;
      FeedItemsBoth(a[1..], b);
    }
  }

  lemma {:induction false} NoMessages(s: seq<Item>, n: Numbering, k: int)
    requires k % 2 == 0 && forall x | x in s :: x.Feed?
    ensures At(s, Rank(n), k) == []
  {
    if s != [] { NoMessages(s[1..], n, k); }
  }

  lemma {:induction false} NoEvents(s: seq<Item>, n: Numbering, k: int)
    requires k % 2 == 1 && forall x | x in s :: x.Msg?
    ensures At(s, Rank(n), k) == []
  {
    if s != [] { NoEvents(s[1..], n, k); }
  }

  lemma {:induction false} FeedItemsAreEvents(events: seq<Event>)
    ensures forall x | x in FeedItems(events) :: x.Feed?
  {
    if events != [] { FeedItemsAreEvents(events[1..]); }
  }

  // At one rank there are only messages or only events, so it does not matter that
  // all messages are put in front of all events.
  lemma InputsInterleave(m: seq<Message>, m2: seq<Message>, e: seq<Event>, e2: seq<Event>, n: Numbering)
    ensures SameAt(MessageItems(m + m2) + FeedItems(e + e2),
                   (MessageItems(m) + FeedItems(e)) + (MessageItems(m2) + FeedItems(e2)), Rank(n))
  {
    var a, a2, b, b2 := MessageItems(m), MessageItems(m2), FeedItems(e), FeedItems(e2);
    assert MessageItems(m + m2) == a + a2;
    FeedItemsBoth(e, e2);
    FeedItemsAreEvents(e);
    FeedItemsAreEvents(e2);
    forall k ensures At((a + a2) + (b + b2), Rank(n), k) == At((a + b) + (a2 + b2), Rank(n), k) {
      if k % 2 == 0 {
        NoMessages(b, n, k);
        NoMessages(b2, n, k);
      } else {
        NoEvents(a, n, k);
        NoEvents(a2, n, k);
      }
      InterleaveAt(a, a2, b, b2, Rank(n), k);
    }
  }

  lemma InterleaveAt(a: seq<Item>, a2: seq<Item>, b: seq<Item>, b2: seq<Item>, key: Item -> int, k: int)
    requires (At(a, key, k) == [] && At(a2, key, k) == []) || (At(b, key, k) == [] && At(b2, key, k) == [])
    ensures At((a + a2) + (b + b2), key, k) == At((a + b) + (a2 + b2), key, k)
  {
    AtBoth(a + a2, b + b2, key, k);
    AtBoth(a, a2, key, k);
    AtBoth(b, b2, key, k);
    AtBoth(a + b, a2 + b2, key, k);
    AtBoth(a, b, key, k);
    AtBoth(a2, b2, key, k);
  }

  // No item of the second list sorts before one of the first.
  ghost predicate Follows(old_: seq<Item>, more: seq<Item>, n: Numbering) {
    forall x, y | x in old_ && y in more :: Compare(y, x, n) >= 0
  }

  lemma ConcatenationSorted(s: seq<Item>, t: seq<Item>, n: Numbering)
    requires Sorted(s, Rank(n)) && Sorted(t, Rank(n)) && Follows(s, t, n)
    ensures Sorted(s + t, Rank(n))
  {
    forall i, j | 0 <= i < |s| && 0 <= j < |t| ensures Rank(n)(s[i]) <= Rank(n)(t[j]) {
      assert s[i] in s && t[j] in t;
      CompareIsRank(t[j], s[i], n);
    }
  }

  lemma MergeHas(messages: seq<Message>, events: seq<Event>, n: Numbering)
    ensures forall x :: x in MergeFeedItems(messages, events, n) <==> x in MessageItems(messages) + FeedItems(events)
  {
    var s := MessageItems(messages) + FeedItems(events);
    SortSorts(s, Rank(n));
    forall x ensures x in Sort(s, Rank(n)) <==> x in s {
      AtHas(s, Rank(n), x);
      AtHas(Sort(s, Rank(n)), Rank(n), x);
    }
  }

  // The merged items: those of the inputs, in order, and at each rank in input order.
  lemma MergeSorts(messages: seq<Message>, events: seq<Event>, n: Numbering)
    ensures var r := MergeFeedItems(messages, events, n);
            && (forall i, j :: 0 <= i < j < |r| ==> Compare(r[i], r[j], n) <= 0)
            && SameAt(r, MessageItems(messages) + FeedItems(events), Rank(n))
            && forall x :: x in r <==> x in MessageItems(messages) + FeedItems(events)
  {
    MergeHas(messages, events, n);
    SortSorts(MessageItems(messages) + FeedItems(events), Rank(n));
    var r := MergeFeedItems(messages, events, n);
    forall i, j | 0 <= i < j < |r| ensures Compare(r[i], r[j], n) <= 0 { CompareIsRank(r[i], r[j], n); }
  }

  // By numbers: they never fall, and of equal number messages come before events.
  lemma MergedByNumber(messages: seq<Message>, events: seq<Event>, n: Numbering, i: nat, j: nat)
    requires i < j < |MergeFeedItems(messages, events, n)|
    ensures var x, y := MergeFeedItems(messages, events, n)[i], MergeFeedItems(messages, events, n)[j];
            SeqOf(x, n) <= SeqOf(y, n) && (SeqOf(x, n) == SeqOf(y, n) && x.Feed? ==> y.Feed?)
  {
    MergeSorts(messages, events, n);
  }

  // Every event is an item, except for the tools that keep the todo list: their requests
  // and outcomes, and the updates of the list.
  lemma OnlyTodosKeptOut(messages: seq<Message>, events: seq<Event>, n: Numbering, e: Event)
    ensures Feed(e) in MergeFeedItems(messages, events, n) <==>
            && e in events && e.kind != Plain("todo.update")
            && !((e.kind.ToolPre? || e.kind.ToolPost?) &&
                 e.kind.tool in {"TodoWrite", "TaskCreate", "TaskUpdate", "TaskList", "TaskGet"})
  {
    MergeHas(messages, events, n);
    FeedItemsHas(events, e);
  }

  lemma {:induction false} FeedItemsHas(events: seq<Event>, e: Event)
    ensures Feed(e) in FeedItems(events) <==> e in events && !ShouldExclude(e)
  {
    if events != [] { FeedItemsHas(events[1..], e); }
  }

  // Messages and events that come later extend the list of items.
  lemma MergeExtends(m: seq<Message>, m2: seq<Message>, e: seq<Event>, e2: seq<Event>, n: Numbering)
    requires Follows(MergeFeedItems(m, e, n), MergeFeedItems(m2, e2, n), n)
    ensures MergeFeedItems(m + m2, e + e2, n) == MergeFeedItems(m, e, n) + MergeFeedItems(m2, e2, n)
  {
    var key := Rank(n);
    var s, t := MessageItems(m) + FeedItems(e), MessageItems(m2) + FeedItems(e2);
    var all := MessageItems(m + m2) + FeedItems(e + e2);
    SortSorts(s, key);
    SortSorts(t, key);
    SortSorts(all, key);
    ConcatenationSorted(Sort(s, key), Sort(t, key), n);
    InputsInterleave(m, m2, e, e2, n);
    forall k ensures At(Sort(all, key), key, k) == At(Sort(s, key) + Sort(t, key), key, k) {
      AtBoth(Sort(s, key), Sort(t, key), key, k);
      AtBoth(s, t, key, k);
      assert At(all, key, k) == At(s + t, key, k);
    }
    SortedUnique(Sort(all, key), Sort(s, key) + Sort(t, key), key);
  }

  // The old items are a prefix of the new ones exactly then: an update can be appended
  // if and only if nothing new sorts before something old.
  lemma ExtendsIffFollows(m: seq<Message>, m2: seq<Message>, e: seq<Event>, e2: seq<Event>, n: Numbering)
    ensures MergeFeedItems(m, e, n) <= MergeFeedItems(m + m2, e + e2, n) <==>
            Follows(MergeFeedItems(m, e, n), MergeFeedItems(m2, e2, n), n)
  {
    if Follows(MergeFeedItems(m, e, n), MergeFeedItems(m2, e2, n), n) {
      MergeExtends(m, m2, e, e2, n);
    }
    if MergeFeedItems(m, e, n) <= MergeFeedItems(m + m2, e + e2, n) {
      PrefixFollows(m, m2, e, e2, n);
    }
  }

  lemma PrefixFollows(m: seq<Message>, m2: seq<Message>, e: seq<Event>, e2: seq<Event>, n: Numbering)
    requires MergeFeedItems(m, e, n) <= MergeFeedItems(m + m2, e + e2, n)
    ensures Follows(MergeFeedItems(m, e, n), MergeFeedItems(m2, e2, n), n)
  {
    var before, all := MergeFeedItems(m, e, n), MergeFeedItems(m + m2, e + e2, n);
    var rest := all[|before|..];
    assert before + rest == all;
    RestIsNew(m, m2, e, e2, n, rest);
    MergeSorts(m + m2, e + e2, n);
    forall x, y | x in before && y in rest ensures Compare(y, x, n) >= 0 {
      var i :| 0 <= i < |before| && before[i] == x;
      var j :| 0 <= j < |rest| && rest[j] == y;
      assert all[i] == x && all[|before| + j] == y;
      assert Compare(all[i], all[|before| + j], n) <= 0;
    }
  }

  lemma RestIsNew(m: seq<Message>, m2: seq<Message>, e: seq<Event>, e2: seq<Event>, n: Numbering, rest: seq<Item>)
    requires MergeFeedItems(m + m2, e + e2, n) == MergeFeedItems(m, e, n) + rest
    ensures forall y :: y in rest <==> y in MergeFeedItems(m2, e2, n)
  {
    var key := Rank(n);
    var s, t := MessageItems(m) + FeedItems(e), MessageItems(m2) + FeedItems(e2);
    var all := MessageItems(m + m2) + FeedItems(e + e2);
    SortSorts(s, key);
    SortSorts(t, key);
    SortSorts(all, key);
    InputsInterleave(m, m2, e, e2, n);
    forall y ensures y in rest <==> y in Sort(t, key) {
      var k := key(y);
      AtBoth(Sort(s, key), rest, key, k);
      AtBoth(s, t, key, k);
      assert At(all, key, k) == At(s + t, key, k);
      var front := At(Sort(s, key), key, k);
      assert (front + At(rest, key, k))[|front|..] == At(rest, key, k);
      assert (front + At(t, key, k))[|front|..] == At(t, key, k);
      AtHas(rest, key, y);
      AtHas(Sort(t, key), key, y);
    }
  }
}
