/** The store of feed events: every addition goes through PushEvents, which replaces
    a running delta or reasoning summary in place and keeps an index per tool use. */
module FeedStore {
  import opened Wrappers
  import opened FeedTypes

  // The pair behind the reasoning key; an index has no colon, so the key text
  // determines the pair.
  datatype ReasoningKey = ReasoningKey(itemId: string, index: int)

  datatype State = State(events: seq<Event>, post: map<string, Event>, reasoning: map<ReasoningKey, Event>)

  function KeyOf(e: Event): ReasoningKey
    requires e.kind.ReasoningSummary?
  {
    ReasoningKey(e.kind.itemId, e.kind.index)
  }

  function IndexOf(events: seq<Event>, e: Event): (i: nat)
    ensures i <= |events|
    ensures i < |events| ==> events[i] == e
    ensures i == |events| <==> e !in events
    ensures e !in events[..i]
  {
    if events == [] || events[0] == e then 0
    else
      assert events == [events[0]] + events[1..];
      1 + IndexOf(events[1..], e)
  }

  function Bootstrap(events: seq<Event>): State {
    State(events, PostByToolUseId(events), map[])
  }

  // The stored delta that a new delta replaces.
  predicate Coalesces(s: State, e: Event) {
    && e.kind.ToolDelta? && UpdateOf(e).Some? && UpdateOf(e).value in s.post
    && s.post[UpdateOf(e).value].kind.ToolDelta?
    && s.post[UpdateOf(e).value] in s.events
  }

  predicate Revises(s: State, e: Event) {
    e.kind.ReasoningSummary? && KeyOf(e) in s.reasoning && s.reasoning[KeyOf(e)] in s.events
  }

  function Push(s: State, e: Event): State {
    if Coalesces(s, e) then
      var id := UpdateOf(e).value;
      s.(events := s.events[IndexOf(s.events, s.post[id]) := e], post := s.post[id := e])
    else if Revises(s, e) then
      s.(events := s.events[IndexOf(s.events, s.reasoning[KeyOf(e)]) := e],
         reasoning := s.reasoning[KeyOf(e) := e])
    else
      State(s.events + [e],
            if UpdateOf(e).Some? then s.post[UpdateOf(e).value := e] else s.post,
            if e.kind.ReasoningSummary? then s.reasoning[KeyOf(e) := e] else s.reasoning)
  }

  function PushAll(s: State, events: seq<Event>): State {
    if events == [] then s else Push(PushAll(s, events[..|events| - 1]), events[|events| - 1])
  }

  class Store {
    var events: seq<Event>
    var postByToolUseId: map<string, Event>
    var reasoningByKey: map<ReasoningKey, Event>
    var version: nat

    ghost function Value(): State
      reads this
    {
      State(events, postByToolUseId, reasoningByKey)
    }

    constructor (bootstrap: seq<Event>)
      ensures Value() == Bootstrap(bootstrap) && version == 0
    {
      events, reasoningByKey, version := bootstrap, map[], 0;
      new;
      postByToolUseId := BuildPostByToolUseId(bootstrap);
    }

    method PushEvents(newEvents: seq<Event>)
      modifies this
      ensures Value() == PushAll(old(Value()), newEvents)
      ensures version == old(version) + if newEvents == [] then 0 else 1
    {
      if newEvents == [] { return; }
      var nextEvents, nextPost, nextReasoning := events, postByToolUseId, reasoningByKey;
      for i := 0 to |newEvents|
        invariant State(nextEvents, nextPost, nextReasoning) == PushAll(old(Value()), newEvents[..i])
      {
        var e := newEvents[i];
        assert newEvents[..i + 1][..i] == newEvents[..i];
        if e.kind.ToolDelta? && UpdateOf(e).Some? {
          var id := UpdateOf(e).value;
          if id in nextPost && nextPost[id].kind.ToolDelta? {
            var idx := IndexOf(nextEvents, nextPost[id]);
            if idx < |nextEvents| {
              nextEvents, nextPost := nextEvents[idx := e], nextPost[id := e];
              continue;
            }
          }
        }
        if e.kind.ReasoningSummary? && KeyOf(e) in nextReasoning {
          var idx := IndexOf(nextEvents, nextReasoning[KeyOf(e)]);
          if idx < |nextEvents| {
            nextEvents, nextReasoning := nextEvents[idx := e], nextReasoning[KeyOf(e) := e];
            continue;
          }
        }
        nextEvents := nextEvents + [e];
        if UpdateOf(e).Some? { nextPost := nextPost[UpdateOf(e).value := e]; }
        if e.kind.ReasoningSummary? { nextReasoning := nextReasoning[KeyOf(e) := e]; }
      }
      assert newEvents[..|newEvents|] == newEvents;
      events, postByToolUseId, reasoningByKey := nextEvents, nextPost, nextReasoning;
      version := version + 1;
    }

    method Reset()
      modifies this
      ensures Value() == Bootstrap([]) && version == old(version) + 1
    {
      events, postByToolUseId, reasoningByKey := [], map[], map[];
      version := version + 1;
    }
  }

  // ------------------------------------------------------ index agreement

  // No update of the tool use follows position i.
  predicate LastUpdate(events: seq<Event>, i: nat, id: string) {
    forall k :: i < k < |events| ==> UpdateOf(events[k]) != Some(id)
  }

  // Replacing an update of a tool use by another one of the same tool use.
  lemma {:induction false} PostAfterReplacing(events: seq<Event>, i: nat, e: Event, id: string)
    requires i < |events| && UpdateOf(e) == Some(id) == UpdateOf(events[i])
    ensures PostByToolUseId(events[i := e]) ==
            if LastUpdate(events, i, id) then PostByToolUseId(events)[id := e] else PostByToolUseId(events)
  {
    var last := |events| - 1;
    var front := events[..last];
    if i < last {
      PostAfterReplacing(front, i, e, id);
      assert events[i := e][..last] == front[i := e];
      assert LastUpdate(events, i, id) <==> LastUpdate(front, i, id) && UpdateOf(events[last]) != Some(id);
    } else {
      assert events[i := e][..last] == front;
    }
  }

  // Replacing an event that is no update by another such event.
  lemma {:induction false} PostIgnores(events: seq<Event>, i: nat, e: Event)
    requires i < |events| && UpdateOf(events[i]).None? && UpdateOf(e).None?
    ensures PostByToolUseId(events[i := e]) == PostByToolUseId(events)
  {
    var last := |events| - 1;
    if i < last {
      PostIgnores(events[..last], i, e);
      assert events[i := e][..last] == events[..last][i := e];
    } else {
      assert events[i := e][..last] == events[..last];
    }
  }

  ghost predicate NoAdjacentDeltas(events: seq<Event>) {
    forall i, j | 0 <= i < j < |events| && SameDelta(events[i], events[j]) ::
      exists k | i < k < j :: Concludes(events[i], events[k])
  }

  // An update of the same tool use that is no delta.
  predicate Concludes(d: Event, e: Event) {
    UpdateOf(e) == UpdateOf(d) && !e.kind.ToolDelta?
  }

  predicate SameDelta(d: Event, e: Event) {
    d.kind.ToolDelta? && e.kind.ToolDelta? && UpdateOf(d).Some? && UpdateOf(d) == UpdateOf(e)
  }

  // The reasoning map knows every summary from position `base` on, and no other.
  ghost predicate KnowsReasoning(events: seq<Event>, known: map<ReasoningKey, Event>, base: nat) {
    && (forall k :: k in known ==> Pushed(events, known[k], base) && KeyOf(known[k]) == k)
    && (forall e: Event :: Pushed(events, e, base) ==> KeyOf(e) in known && known[KeyOf(e)] == e)
  }

  ghost predicate Pushed(events: seq<Event>, e: Event, base: nat) {
    e.kind.ReasoningSummary? && exists i :: base <= i < |events| && events[i] == e
  }

  // What holds of a store that started from `base` events: the index is the one
  // computed from scratch, and the reasoning map knows every pushed summary.
  ghost predicate Sound(s: State, base: nat) {
    && base <= |s.events| && DistinctEvents(s.events)
    && s.post == PostByToolUseId(s.events)
    && KnowsReasoning(s.events, s.reasoning, base)
  }

  // Replacing one event, or adding one at the end, changes what was pushed by that.
  lemma PushedAfterReplacing(events: seq<Event>, i: nat, e: Event, base: nat)
    requires DistinctEvents(events) && i < |events|
    ensures forall x :: x != e ==> (Pushed(events[i := e], x, base) <==> Pushed(events, x, base) && x != events[i])
    ensures base <= i && e.kind.ReasoningSummary? ==> Pushed(events[i := e], e, base)
  {
    var after := events[i := e];
    forall x | x != e ensures Pushed(after, x, base) <==> Pushed(events, x, base) && x != events[i] {
      if Pushed(after, x, base) {
        var j :| base <= j < |after| && after[j] == x;
        assert events[j] == x;
      }
      if Pushed(events, x, base) && x != events[i] {
        var j :| base <= j < |events| && events[j] == x;
        assert after[j] == x;
      }
    }
    assert after[i] == e;
  }

  lemma PushedAfterAppending(events: seq<Event>, e: Event, base: nat)
    requires base <= |events|
    ensures forall x :: x != e ==> (Pushed(events + [e], x, base) <==> Pushed(events, x, base))
    ensures e.kind.ReasoningSummary? ==> Pushed(events + [e], e, base)
  {
    var after := events + [e];
    forall x | x != e ensures Pushed(after, x, base) <==> Pushed(events, x, base) {
      if Pushed(events, x, base) {
        var j :| base <= j < |events| && events[j] == x;
        assert after[j] == x;
      }
    }
    assert after[|events|] == e;
  }

  lemma CoalesceSound(s: State, e: Event, base: nat)
    requires Sound(s, base) && e !in s.events && Coalesces(s, e)
    ensures Sound(Push(s, e), base)
  {
    var id := UpdateOf(e).value;
    var i := IndexOf(s.events, s.post[id]);
    var at := PostIsLatest(s.events, id);
    PostAfterReplacing(s.events, i, e, id);
    assert at == i;
    PushedAfterReplacing(s.events, i, e, base);
  }

  lemma ReviseSound(s: State, e: Event, base: nat)
    requires Sound(s, base) && e !in s.events && !Coalesces(s, e) && Revises(s, e)
    ensures Sound(Push(s, e), base)
  {
    var was := s.reasoning[KeyOf(e)];
    var i := IndexOf(s.events, was);
    PostIgnores(s.events, i, e);
    PushedAfterReplacing(s.events, i, e, base);
    assert Pushed(s.events, was, base) && base <= i;
  }

  lemma AppendSound(s: State, e: Event, base: nat)
    requires Sound(s, base) && e !in s.events && !Coalesces(s, e) && !Revises(s, e)
    ensures Sound(Push(s, e), base)
  {
    assert (s.events + [e])[..|s.events|] == s.events;
    PushedAfterAppending(s.events, e, base);
    assert forall x :: Pushed(s.events, x, base) ==> x in s.events;
  }

  lemma ReplacingKeepsDeltas(before: seq<Event>, at: nat, e: Event)
    requires at < |before| && UpdateOf(e) == UpdateOf(before[at]) && e.kind.ToolDelta? == before[at].kind.ToolDelta?
    ensures NoAdjacentDeltas(before) ==> NoAdjacentDeltas(before[at := e])
  {
    var after := before[at := e];
    if NoAdjacentDeltas(before) {
      forall i, j | 0 <= i < j < |after| && SameDelta(after[i], after[j])
        ensures exists k | i < k < j :: Concludes(after[i], after[k])
      {
        assert SameDelta(before[i], before[j]);
        var k :| i < k < j && Concludes(before[i], before[k]);
        assert Concludes(after[i], after[k]);
      }
    }
  }

  lemma PushKeepsDeltasApart(s: State, e: Event, base: nat)
    requires DistinctEvents(s.events) && s.post == PostByToolUseId(s.events) && NoAdjacentDeltas(s.events)
    requires KnowsReasoning(s.events, s.reasoning, base)
    ensures NoAdjacentDeltas(Push(s, e).events)
  {
    if Coalesces(s, e) {
      var at := PostIsLatest(s.events, UpdateOf(e).value);
      ReplacingKeepsDeltas(s.events, IndexOf(s.events, s.post[UpdateOf(e).value]), e);
    } else if Revises(s, e) {
      ReplacingKeepsDeltas(s.events, IndexOf(s.events, s.reasoning[KeyOf(e)]), e);
    } else {
      EarlierDeltasSettled(s, e);
      AppendKeepsDeltasApart(s.events, e);
    }
  }

  // A delta that is appended rather than coalesced comes after a post or failure.
  lemma EarlierDeltasSettled(s: State, e: Event)
    requires s.post == PostByToolUseId(s.events) && !Coalesces(s, e)
    ensures forall i | 0 <= i < |s.events| && SameDelta(s.events[i], e) ::
              exists k | i < k < |s.events| :: Concludes(s.events[i], s.events[k])
  {
    forall i | 0 <= i < |s.events| && SameDelta(s.events[i], e)
      ensures exists k | i < k < |s.events| :: Concludes(s.events[i], s.events[k])
    {
      var at := LatestAfter(s.events, i, UpdateOf(e).value);
      assert Concludes(s.events[i], s.events[at]);
    }
  }

  lemma AppendKeepsDeltasApart(events: seq<Event>, e: Event)
    requires NoAdjacentDeltas(events)
    requires forall i | 0 <= i < |events| && SameDelta(events[i], e) ::
               exists k | i < k < |events| :: Concludes(events[i], events[k])
    ensures NoAdjacentDeltas(events + [e])
  {
    var more := events + [e];
    forall i, j | 0 <= i < j < |more| && SameDelta(more[i], more[j])
      ensures exists k | i < k < j :: Concludes(more[i], more[k])
    {
      assert SameDelta(events[i], more[j]);
      var k :| i < k < j && Concludes(events[i], events[k]);
      assert Concludes(more[i], more[k]);
    }
  }

  lemma LatestAfter(events: seq<Event>, i: nat, id: string) returns (at: nat)
    requires i < |events| && UpdateOf(events[i]) == Some(id)
    ensures id in PostByToolUseId(events)
    ensures i <= at < |events| && events[at] == PostByToolUseId(events)[id] && UpdateOf(events[at]) == Some(id)
  {
    PostCovers(events, events[i], id);
    at := PostIsLatest(events, id);
  }

  ghost predicate NewTo(s: State, events: seq<Event>) {
    DistinctEvents(events) && forall e :: e in events ==> e !in s.events
  }

  lemma PushOnlyAdds(s: State, e: Event)
    ensures forall x :: x in Push(s, e).events ==> x in s.events || x == e
  {}

  lemma {:induction false} PushAllSound(s: State, events: seq<Event>, base: nat)
    requires Sound(s, base) && NewTo(s, events)
    ensures Sound(PushAll(s, events), base)
    ensures NoAdjacentDeltas(s.events) ==> NoAdjacentDeltas(PushAll(s, events).events)
    ensures forall x :: x in PushAll(s, events).events ==> x in s.events || x in events
  {
    if events != [] {
      var front, e := events[..|events| - 1], events[|events| - 1];
      PushAllSound(s, front, base);
      var mid := PushAll(s, front);
      assert e !in mid.events;
      PushOnlyAdds(mid, e);
      if NoAdjacentDeltas(s.events) { PushKeepsDeltasApart(mid, e, base); }
      if Coalesces(mid, e) { CoalesceSound(mid, e, base); }
      else if Revises(mid, e) { ReviseSound(mid, e, base); }
      else { AppendSound(mid, e, base); }
    }
  }

  // After any sequence of pushes of new events, the maintained index is the one
  // built from scratch, pushed reasoning summaries are unique per key, and no two
  // deltas of one tool use became adjacent.
  lemma IndexAgreement(bootstrap: seq<Event>, pushes: seq<seq<Event>>) returns (s: State)
    requires DistinctEvents(bootstrap) && NewTo(Bootstrap(bootstrap), Flatten(pushes))
    ensures s == PushBatches(Bootstrap(bootstrap), pushes)
    ensures |bootstrap| <= |s.events| && s.post == PostByToolUseId(s.events)
    ensures NoAdjacentDeltas(bootstrap) ==> NoAdjacentDeltas(s.events)
    ensures forall i, j | |bootstrap| <= i < j < |s.events| && s.events[i].kind.ReasoningSummary?
                          && s.events[j].kind.ReasoningSummary? :: KeyOf(s.events[i]) != KeyOf(s.events[j])
  {
    BatchesAreOnePush(Bootstrap(bootstrap), pushes);
    PushAllSound(Bootstrap(bootstrap), Flatten(pushes), |bootstrap|);
    s := PushBatches(Bootstrap(bootstrap), pushes);
    assert forall i | |bootstrap| <= i < |s.events| && s.events[i].kind.ReasoningSummary? ::
      Pushed(s.events, s.events[i], |bootstrap|);
  }

  function Flatten(pushes: seq<seq<Event>>): seq<Event> {
    if pushes == [] then [] else Flatten(pushes[..|pushes| - 1]) + pushes[|pushes| - 1]
  }

  function PushBatches(s: State, pushes: seq<seq<Event>>): State {
    if pushes == [] then s else PushAll(PushBatches(s, pushes[..|pushes| - 1]), pushes[|pushes| - 1])
  }

  lemma {:induction false} PushAllSplit(s: State, xs: seq<Event>, ys: seq<Event>)
    ensures PushAll(s, xs + ys) == PushAll(PushAll(s, xs), ys)
  {
    if ys == [] {
      assert xs + ys == xs;
    } else {
      PushAllSplit(s, xs, ys[..|ys| - 1]);
      assert (xs + ys)[..|xs + ys| - 1] == xs + ys[..|ys| - 1];
    }
  }

  // How the events are divided into calls does not matter.
  lemma {:induction false} BatchesAreOnePush(s: State, pushes: seq<seq<Event>>)
    ensures PushBatches(s, pushes) == PushAll(s, Flatten(pushes))
  {
    if pushes != [] {
      BatchesAreOnePush(s, pushes[..|pushes| - 1]);
      PushAllSplit(s, Flatten(pushes[..|pushes| - 1]), pushes[|pushes| - 1]);
    }
  }

  // Without distinctness: a push keeps the index exactly if it coalesces nothing, or
  // coalesces an object with itself, or no update of the tool use follows the first
  // occurrence of the stored delta.
  lemma PushKeepsIndexIff(s: State, e: Event)
    requires s.post == PostByToolUseId(s.events)
    requires forall k :: k in s.reasoning ==> s.reasoning[k].kind.ReasoningSummary?
    ensures var t := Push(s, e);
            t.post == PostByToolUseId(t.events) <==>
            (Coalesces(s, e) ==>
               var d := s.post[UpdateOf(e).value];
               d == e || LastUpdate(s.events, IndexOf(s.events, d), UpdateOf(e).value))
  {
    if Coalesces(s, e) {
      var id := UpdateOf(e).value;
      var at := PostIsLatest(s.events, id);
      PostAfterReplacing(s.events, IndexOf(s.events, s.post[id]), e, id);
      assert s.post[id := e][id] == e;
    } else if Revises(s, e) {
      PostIgnores(s.events, IndexOf(s.events, s.reasoning[KeyOf(e)]), e);
    } else {
      assert (s.events + [e])[..|s.events|] == s.events;
    }
  }

  // So distinctness is needed: pushing one delta object twice around a post and then a
  // further delta rewrites the first copy, and the index no longer agrees.
  lemma RepeatedObjectBreaksIndex(d: Event, p: Event, next: Event)
    requires d.kind.ToolDelta? && next.kind.ToolDelta? && p.kind.ToolPost?
    requires UpdateOf(d).Some? && UpdateOf(d) == UpdateOf(p) == UpdateOf(next) && d != next
    ensures var s := PushAll(Bootstrap([]), [d, p, d, next]);
            s.events == [next, p, d] && s.post != PostByToolUseId(s.events)
  {
    var s0 := Bootstrap([]);
    assert [d, p, d, next][..3] == [d, p, d] && [d, p, d][..2] == [d, p] && [d, p][..1] == [d] && [d][..0] == [];
    assert PushAll(s0, [d]).events == [d];
    assert PushAll(s0, [d, p]).events == [d, p];
    assert PushAll(s0, [d, p, d]).events == [d, p, d];
    var s := PushAll(s0, [d, p, d, next]);
    assert s.events == [next, p, d] && s.post[UpdateOf(d).value] == next;
    assert PostByToolUseId([next, p, d])[UpdateOf(d).value] == d;
  }
}
