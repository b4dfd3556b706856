/** The channel manager: which channels are registered, and the window of keys by which
    a repeated inbound message is dropped. */
module Channels {
  import opened Wrappers

  type Registered = map<string, Option<string>>

  // The keys of the last messages let through, in order, and as a set.
  datatype Window = Window(dedup: seq<string>, seen: set<string>)

  const EMPTY := Window([], {})

  function Evicted(w: Window, max: nat): Window
    decreases |w.dedup|
  {
    if |w.dedup| <= max then w else Evicted(Window(w.dedup[1..], w.seen - {w.dedup[0]}), max)
  }

  function Seen(w: Window, key: string, max: nat): Window {
    if key in w.seen then w else Evicted(Window(w.dedup + [key], w.seen + {key}), max)
  }

  // What the adapter does when it is started or stopped.
  datatype Adapter = Adapter(id: string, starts: bool)

  datatype RegisterResult = Started | ManagerStopped | Duplicate | StartFailed

  datatype UnregisterResult = Stopped | UnknownChannel | StopFailed

  function AfterRegister(channels: Registered, stopped: bool, a: Adapter, attachmentId: Option<string>): Registered {
    if stopped || a.id in channels || !a.starts then channels else channels[a.id := attachmentId]
  }

  function RegisterOutcome(channels: Registered, stopped: bool, a: Adapter): RegisterResult {
    if stopped then ManagerStopped
    else if a.id in channels then Duplicate
    else if !a.starts then StartFailed
    else Started
  }

  function UnregisterOutcome(channels: Registered, id: string, stops: bool): UnregisterResult {
    if id !in channels then UnknownChannel else if stops then Stopped else StopFailed
  }

  // A message that reached the inbound sink, with the attachment of its channel.
  datatype Delivered = Delivered(idempotencyKey: string, attachmentId: Option<string>)

  class ChannelManager {
    const dedupMax: nat
    var entries: Registered
    var dedup: seq<string>
    var dedupSet: set<string>
    var hasSink: bool
    var stopped: bool
    var sunk: seq<Delivered>

    constructor (dedupMax: nat)
      ensures this.dedupMax == dedupMax && entries == map[] && !stopped && Value() == EMPTY && sunk == []
    {
      this.dedupMax := dedupMax;
      entries, dedup, dedupSet, hasSink, stopped, sunk := map[], [], {}, false, false, [];
    }

    function Value(): Window
      reads this
    {
      Window(dedup, dedupSet)
    }

    method HandleInbound(channelId: string, key: string)
      modifies this`dedup, this`dedupSet, this`sunk
      ensures Value() == Seen(old(Value()), key, dedupMax)
      ensures sunk == old(sunk) + if key in old(dedupSet) || !hasSink then []
                                  else [Delivered(key, if channelId in entries then entries[channelId] else None)]
    {
      if key in dedupSet { return; }
      dedupSet := dedupSet + {key};
      dedup := dedup + [key];
      while |dedup| > dedupMax
        invariant Evicted(Value(), dedupMax) == Evicted(Window(old(dedup) + [key], old(dedupSet) + {key}), dedupMax)
        invariant sunk == old(sunk)
        decreases |dedup|
      {
        var evicted := dedup[0];
        dedup := dedup[1..];
        dedupSet := dedupSet - {evicted};
      }
      if hasSink {
        sunk := sunk + [Delivered(key, if channelId in entries then entries[channelId] else None)];
      }
    }

    // The entry is there while the adapter starts, and is taken back if it fails.
    method Register(a: Adapter, attachmentId: Option<string>) returns (r: RegisterResult)
      modifies this`entries
      ensures r == RegisterOutcome(old(entries), stopped, a)
      ensures entries == AfterRegister(old(entries), stopped, a, attachmentId)
      ensures r.ManagerStopped? <==> stopped
      ensures r.Duplicate? <==> !stopped && a.id in old(entries)
      ensures r.Started? <==> !stopped && a.id !in old(entries) && a.starts
      ensures r.Started? ==> entries == old(entries)[a.id := attachmentId]
      ensures !r.Started? ==> entries == old(entries)
    {
      if stopped { return ManagerStopped; }
      if a.id in entries { return Duplicate; }
      entries := entries[a.id := attachmentId];
      if !a.starts {
        entries := entries - {a.id};
        assert entries == old(entries);
        return StartFailed;
      }
      return Started;
    }

    // The entry is gone whether or not the adapter stops properly.
    method Unregister(id: string, stops: bool) returns (r: UnregisterResult)
      modifies this`entries
      ensures r == UnregisterOutcome(old(entries), id, stops)
      ensures entries == old(entries) - {id}
    {
      if id !in entries { return UnknownChannel; }
      entries := entries - {id};
      return if stops then Stopped else StopFailed;
    }

    // Each registered id once.
    method ListChannels() returns (ids: seq<string>)
      ensures Lists(ids, entries)
    {
      ids := [];
      var left := entries.Keys;
      while left != {}
        invariant left <= entries.Keys
        invariant forall id :: id in ids <==> id in entries.Keys - left
        invariant forall i, j :: 0 <= i < j < |ids| ==> ids[i] != ids[j]
        decreases |left|
      {
        var id :| id in left;
        assert id !in ids && forall i :: 0 <= i < |ids| ==> ids[i] in ids;
        left := left - {id};
        ids := ids + [id];
      }
    }
  }

  ghost predicate Lists(ids: seq<string>, channels: Registered) {
    && (forall id :: id in ids <==> id in channels)
    && (forall i, j :: 0 <= i < j < |ids| ==> ids[i] != ids[j])
  }

  // ---------------------------------------------------------- dedup window

  function AfterKeys(keys: seq<string>, max: nat): Window {
    if keys == [] then EMPTY else Seen(AfterKeys(keys[..|keys| - 1], max), keys[|keys| - 1], max)
  }

  // The keys let through.
  function Accepted(keys: seq<string>, max: nat): seq<string> {
    if keys == [] then []
    else
      var front, key := keys[..|keys| - 1], keys[|keys| - 1];
      Accepted(front, max) + if key in AfterKeys(front, max).seen then [] else [key]
  }

  function Last(s: seq<string>, n: nat): seq<string> {
    if |s| <= n then s else s[|s| - n..]
  }

  predicate DistinctKeys(s: seq<string>) {
    forall i, j :: 0 <= i < j < |s| ==> s[i] != s[j]
  }

  ghost predicate SameKeys(w: Window) {
    DistinctKeys(w.dedup) && forall key :: key in w.seen <==> key in w.dedup
  }

  lemma {:induction false} EvictedIsLast(w: Window, max: nat)
    requires SameKeys(w)
    ensures SameKeys(Evicted(w, max)) && Evicted(w, max).dedup == Last(w.dedup, max)
    decreases |w.dedup|
  {
    if |w.dedup| > max {
      var first, rest := w.dedup[0], w.dedup[1..];
      assert w.dedup == [first] + rest;
      assert first !in rest;
      EvictedIsLast(Window(rest, w.seen - {first}), max);
    }
  }

  lemma SeenIsLast(w: Window, accepted: seq<string>, key: string, max: nat)
    requires SameKeys(w) && w.dedup == Last(accepted, max) && key !in w.seen
    ensures SameKeys(Seen(w, key, max)) && Seen(w, key, max).dedup == Last(accepted + [key], max)
  {
    var grown := Window(w.dedup + [key], w.seen + {key});
    EvictedIsLast(grown, max);
    if |accepted| < max {
      assert w.dedup + [key] == accepted + [key];
    } else {
      assert Last(w.dedup + [key], max) == Last(accepted + [key], max);
    }
  }

  // The window holds the last keys let through, so a message is dropped exactly when
  // its key is among the last dedupMax let through.
  lemma {:induction false} WindowHoldsLast(keys: seq<string>, max: nat)
    ensures var w := AfterKeys(keys, max);
            SameKeys(w) && w.dedup == Last(Accepted(keys, max), max)
  {
    if keys != [] {
      var front, key := keys[..|keys| - 1], keys[|keys| - 1];
      WindowHoldsLast(front, max);
      var w := AfterKeys(front, max);
      if key !in w.seen {
        SeenIsLast(w, Accepted(front, max), key, max);
      } else {
        assert Accepted(front, max) + [] == Accepted(front, max);
      }
    }
  }

  lemma DroppedIffRecent(keys: seq<string>, key: string, max: nat)
    ensures var accepted := Accepted(keys, max);
            Accepted(keys + [key], max) == accepted + if key in Last(accepted, max) then [] else [key]
  {
    WindowHoldsLast(keys, max);
    assert (keys + [key])[..|keys|] == keys;
  }

  // Any dedupMax + 1 keys let through in a row are distinct.
  lemma {:induction false} RunsOfAcceptedDistinct(keys: seq<string>, max: nat, i: nat, j: nat)
    requires i < j < |Accepted(keys, max)| && j - i <= max
    ensures Accepted(keys, max)[i] != Accepted(keys, max)[j]
  {
    var front, key := keys[..|keys| - 1], keys[|keys| - 1];
    var before, accepted := Accepted(front, max), Accepted(keys, max);
    if j < |before| {
      RunsOfAcceptedDistinct(front, max, i, j);
    } else {
      DroppedIffRecent(front, key, max);
      assert front + [key] == keys;
      var recent := Last(before, max);
      assert recent[i - (|before| - |recent|)] == before[i];
    }
  }
}
