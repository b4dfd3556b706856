/** What a push leaves in the store, by positions: the event is added at the end, or takes
    the place of the one event it replaces; and everything but deltas and reasoning
    summaries stays, in the order pushed. */
module FeedContents {
  import opened Wrappers
  import opened FeedTypes
  import opened FeedStore

  // The event at i is the running delta or the pushed summary that e replaces.
  predicate ReplacedAt(events: seq<Event>, base: nat, e: Event, i: int) {
    && 0 <= i < |events|
    && ((e.kind.ToolDelta? && events[i].kind.ToolDelta? && UpdateOf(e).Some? && UpdateOf(events[i]) == UpdateOf(e)
         && forall k :: i < k < |events| ==> UpdateOf(events[k]) != UpdateOf(e))
        || (base <= i && e.kind.ReasoningSummary? && events[i].kind.ReasoningSummary?
            && e.kind.itemId == events[i].kind.itemId && e.kind.index == events[i].kind.index))
  }

  // A new event is stored: exactly in the place of what it replaces, or else at the end,
  // and every other event stays where it is.
  lemma PushStores(s: State, e: Event, base: nat)
    requires Sound(s, base) && e !in s.events
    ensures var after := Push(s, e).events;
            && (forall i | ReplacedAt(s.events, base, e, i) :: after == s.events[i := e])
            && ((forall i :: !ReplacedAt(s.events, base, e, i)) ==> after == s.events + [e])
            && e in after
  {
    forall i | ReplacedAt(s.events, base, e, i) ensures Push(s, e).events == s.events[i := e] {
      if e.kind.ToolDelta? { DeltaReplaced(s, e, base, i); } else { SummaryReplaced(s, e, base, i); }
    }
    if Coalesces(s, e) {
      var at := PostIsLatest(s.events, UpdateOf(e).value);
      assert ReplacedAt(s.events, base, e, at);
      assert s.events[at := e][at] == e;
    } else if Revises(s, e) {
      var at := PushedAt(s.events, s.reasoning[KeyOf(e)], base);
      assert ReplacedAt(s.events, base, e, at);
      assert s.events[at := e][at] == e;
    }
  }

  lemma PushedAt(events: seq<Event>, e: Event, base: nat) returns (i: nat)
    requires Pushed(events, e, base)
    ensures base <= i < |events| && events[i] == e
  {
    i :| base <= i < |events| && events[i] == e;
  }

  lemma DeltaReplaced(s: State, e: Event, base: nat, i: int)
    requires Sound(s, base) && e.kind.ToolDelta? && ReplacedAt(s.events, base, e, i)
    ensures Push(s, e).events == s.events[i := e]
  {
    var at := LatestAfter(s.events, i, UpdateOf(e).value);
    assert at == i && Coalesces(s, e);
    assert IndexOf(s.events, s.events[i]) == i;
  }

  lemma SummaryReplaced(s: State, e: Event, base: nat, i: int)
    requires Sound(s, base) && e.kind.ReasoningSummary? && ReplacedAt(s.events, base, e, i)
    ensures Push(s, e).events == s.events[i := e]
  {
    assert Pushed(s.events, s.events[i], base);
    assert s.reasoning[KeyOf(e)] == s.events[i] && IndexOf(s.events, s.events[i]) == i;
  }

  // ------------------------------------------------------- what is never replaced

  predicate Lasts(e: Event) {
    !e.kind.ToolDelta? && !e.kind.ReasoningSummary?
  }

  function Lasting(events: seq<Event>): seq<Event> {
    if events == [] then []
    else
      var last := events[|events| - 1];
      Lasting(events[..|events| - 1]) + if Lasts(last) then [last] else []
  }

  lemma LastingMore(events: seq<Event>, e: Event)
    ensures Lasting(events + [e]) == Lasting(events) + if Lasts(e) then [e] else []
  {
    assert (events + [e])[..|events|] == events;
  }

  lemma {:induction false} LastingReplaced(events: seq<Event>, i: nat, e: Event)
    requires i < |events| && !Lasts(events[i]) && !Lasts(e)
    ensures Lasting(events[i := e]) == Lasting(events)
  {
    var last := |events| - 1;
    if i < last {
      LastingReplaced(events[..last], i, e);
      assert events[i := e][..last] == events[..last][i := e];
    } else {
      assert events[i := e][..last] == events[..last];
    }
  }

  lemma PushLasting(s: State, e: Event, base: nat)
    requires Sound(s, base) && e !in s.events
    ensures Lasting(Push(s, e).events) == Lasting(s.events) + if Lasts(e) then [e] else []
  {
    PushStores(s, e, base);
    if i :| ReplacedAt(s.events, base, e, i) {
      LastingReplaced(s.events, i, e);
      assert Lasting(s.events) + [] == Lasting(s.events);
    } else {
      LastingMore(s.events, e);
    }
  }

  // Over any batch of new events: those that are neither deltas nor summaries are all
  // stored, after the ones stored before, in the order pushed, and none of them twice.
  lemma {:induction false} PushAllLasting(s: State, events: seq<Event>, base: nat)
    requires Sound(s, base) && NewTo(s, events)
    ensures Lasting(PushAll(s, events).events) == Lasting(s.events) + Lasting(events)
  {
    if events == [] {
      assert Lasting(s.events) + [] == Lasting(s.events);
    } else {
      var front, e := events[..|events| - 1], events[|events| - 1];
      PushAllSound(s, front, base);
      PushAllLasting(s, front, base);
      assert e !in PushAll(s, front).events;
      PushLasting(PushAll(s, front), e, base);
    }
  }

  // ------------------------------------------------------------ by positions

  // Where the n-th lasting event stands.
  lemma {:induction false} LastingAt(events: seq<Event>, n: nat) returns (i: nat)
    requires n < |Lasting(events)|
    ensures i < |events| && events[i] == Lasting(events)[n] && |Lasting(events[..i])| == n
  {
    var last := |events| - 1;
    if n < |Lasting(events[..last])| {
      i := LastingAt(events[..last], n);
      assert events[..last][..i] == events[..i];
    } else {
      i := last;
    }
  }

  lemma {:induction false} LastingBefore(events: seq<Event>, i: nat, j: nat)
    requires i <= j <= |events|
    ensures |Lasting(events[..i])| <= |Lasting(events[..j])|
    ensures i < j && Lasts(events[i]) ==> |Lasting(events[..i])| < |Lasting(events[..j])|
    decreases j - i
  {
    if i < j {
      LastingBefore(events, i, j - 1);
      assert events[..j][..j - 1] == events[..j - 1];
    }
  }

  lemma {:induction false} LastingStands(events: seq<Event>, i: nat)
    requires i < |events| && Lasts(events[i])
    ensures |Lasting(events[..i])| < |Lasting(events)| && Lasting(events)[|Lasting(events[..i])|] == events[i]
  {
    var last := |events| - 1;
    if i < last {
      LastingStands(events[..last], i);
      assert events[..last][..i] == events[..i];
    }
  }

  // A store whose lasting events end with those pushed has them in the order pushed.
  lemma OrderKept(stored: seq<Event>, before: seq<Event>, events: seq<Event>, i: nat, j: nat) returns (p: nat, q: nat)
    requires Lasting(stored) == before + Lasting(events)
    requires i < j < |events| && Lasts(events[i]) && Lasts(events[j])
    ensures p < q < |stored| && stored[p] == events[i] && stored[q] == events[j]
  {
    LastingStands(events, i);
    LastingStands(events, j);
    LastingBefore(events, i, j);
    p := LastingAt(stored, |before| + |Lasting(events[..i])|);
    q := LastingAt(stored, |before| + |Lasting(events[..j])|);
    if q <= p { LastingBefore(stored, q, p); }
  }

  // After any batches on any bootstrap of distinct events: of two lasting events pushed one
  // after the other both are stored, the first before the second.
  lemma PushedInOrder(bootstrap: seq<Event>, pushes: seq<seq<Event>>, i: nat, j: nat) returns (p: nat, q: nat)
    requires DistinctEvents(bootstrap) && NewTo(Bootstrap(bootstrap), Flatten(pushes))
    requires i < j < |Flatten(pushes)| && Lasts(Flatten(pushes)[i]) && Lasts(Flatten(pushes)[j])
    ensures var stored := PushBatches(Bootstrap(bootstrap), pushes).events;
            p < q < |stored| && stored[p] == Flatten(pushes)[i] && stored[q] == Flatten(pushes)[j]
  {
    BatchesAreOnePush(Bootstrap(bootstrap), pushes);
    PushAllLasting(Bootstrap(bootstrap), Flatten(pushes), |bootstrap|);
    p, q := OrderKept(PushBatches(Bootstrap(bootstrap), pushes).events, Lasting(bootstrap), Flatten(pushes), i, j);
  }
}
