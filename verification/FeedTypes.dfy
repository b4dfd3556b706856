/** Feed events and the lookup from a tool use to its latest update. An event value
    stands for one event object: the event id tells apart objects that agree
    otherwise. */
module FeedTypes {
  import opened Wrappers

  datatype RunOutcome = Completed | Failed | Aborted

  // The kinds the feed code branches on; `Plain` carries the name of any other.
  datatype Kind =
    | ToolPre(tool: string, useId: Option<string>)
    | PermissionRequest(tool: string, useId: Option<string>)
    | ToolDelta(tool: string, useId: Option<string>)
    | ToolPost(tool: string, useId: Option<string>)
    | ToolFailure(tool: string, useId: Option<string>)
    | ReasoningSummary(itemId: string, index: int)
    | RunStart(promptPreview: string)
    | RunEnd(outcome: RunOutcome)
    | SubagentStart(agentId: string, agentType: string)
    | SubagentStop(agentId: string, agentType: string)
    | StopRequest(hookActive: bool)
    | Notification(topic: string)
    | Plain(name: string)

  datatype Event = Event(id: string, ts: int, runId: string, actorId: string, kind: Kind)

  function NonEmpty(id: Option<string>): Option<string> {
    if id == Some("") then None else id
  }

  // The tool use a delta, post or failure reports on.
  function UpdateOf(e: Event): Option<string> {
    if e.kind.ToolDelta? || e.kind.ToolPost? || e.kind.ToolFailure? then NonEmpty(e.kind.useId) else None
  }

  // Tool use id to its latest delta, post or failure.
  function PostByToolUseId(events: seq<Event>): map<string, Event> {
    if events == [] then map[]
    else
      var front := PostByToolUseId(events[..|events| - 1]);
      var e := events[|events| - 1];
      if UpdateOf(e).Some? then front[UpdateOf(e).value := e] else front
  }

  method BuildPostByToolUseId(events: seq<Event>) returns (post: map<string, Event>)
    ensures post == PostByToolUseId(events)
  {
    post := map[];
    for i := 0 to |events|
      invariant post == PostByToolUseId(events[..i])
    {
      assert events[..i + 1][..i] == events[..i];
      if UpdateOf(events[i]).Some? {
        post := post[UpdateOf(events[i]).value := events[i]];
      }
    }
    assert events[..|events|] == events;
  }

  // The map holds, per tool use, the update after which no other one follows.
  lemma {:induction false} PostIsLatest(events: seq<Event>, id: string) returns (at: nat)
    requires id in PostByToolUseId(events)
    ensures at < |events| && events[at] == PostByToolUseId(events)[id] && UpdateOf(events[at]) == Some(id)
    ensures forall k :: at < k < |events| ==> UpdateOf(events[k]) != Some(id)
  {
    var last := |events| - 1;
    if UpdateOf(events[last]) == Some(id) {
      at := last;
    } else {
      at := PostIsLatest(events[..last], id);
      assert forall k :: 0 <= k < last ==> events[k] == events[..last][k];
    }
  }

  // And it has an entry for every tool use with an update.
  lemma {:induction false} PostCovers(events: seq<Event>, e: Event, id: string)
    requires e in events && UpdateOf(e) == Some(id)
    ensures id in PostByToolUseId(events)
  {
    var last := |events| - 1;
    assert events == events[..last] + [events[last]];
    if UpdateOf(events[last]) != Some(id) {
      PostCovers(events[..last], e, id);
    }
  }

  ghost predicate DistinctEvents(events: seq<Event>) {
    forall i, j :: 0 <= i < j < |events| ==> events[i] != events[j]
  }
}
