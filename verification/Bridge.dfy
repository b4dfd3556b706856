/** The runtime's end of the gateway connection: turns that arrive while nobody has
    subscribed are kept and replayed to the first subscriber. */
module Bridge {
  import opened Wrappers
  import opened Pipeline

  // client: the connection in use; pushSource: the one whose pushes are listened to;
  // handlers: no two alike, in the order of subscription.
  // received: what each handler was called with, in order.
  datatype Bridge = Bridge(client: Option<string>, pushSource: Option<string>, buffered: seq<Push>,
                           handlers: seq<nat>, received: map<nat, seq<Push>>)

  const IDLE := Bridge(None, None, [], [], map[])

  function Got(received: map<nat, seq<Push>>, h: nat): seq<Push> {
    if h in received then received[h] else []
  }

  function CalledWith(received: map<nat, seq<Push>>, h: nat, turns: seq<Push>): map<nat, seq<Push>> {
    received[h := Got(received, h) + turns]
  }

  function AllCalled(received: map<nat, seq<Push>>, handlers: seq<nat>, push: Push): map<nat, seq<Push>> {
    if handlers == [] then received
    else
      var last := |handlers| - 1;
      CalledWith(AllCalled(received, handlers[..last], push), handlers[last], [push])
  }

  predicate DistinctHandlers(handlers: seq<nat>) {
    forall i, j :: 0 <= i < j < |handlers| ==> handlers[i] != handlers[j]
  }

  function Left(handlers: seq<nat>, h: nat): seq<nat> {
    if handlers == [] then []
    else
      var last := |handlers| - 1;
      Left(handlers[..last], h) + if handlers[last] == h then [] else [handlers[last]]
  }

  // Each handler is called once.
  lemma {:induction false} CalledOnce(received: map<nat, seq<Push>>, handlers: seq<nat>, push: Push, h: nat)
    requires DistinctHandlers(handlers)
    ensures Got(AllCalled(received, handlers, push), h) == Got(received, h) + if h in handlers then [push] else []
  {
    if handlers == [] {
      assert Got(received, h) + [] == Got(received, h);
    } else {
      var last := |handlers| - 1;
      CalledOnce(received, handlers[..last], push, h);
      assert h in handlers <==> h in handlers[..last] || h == handlers[last];
    }
  }

  lemma {:induction false} LeftDistinct(handlers: seq<nat>, h: nat)
    requires DistinctHandlers(handlers)
    ensures DistinctHandlers(Left(handlers, h)) && forall g :: g in Left(handlers, h) <==> g in handlers && g != h
  {
    if handlers != [] {
      var front, last := handlers[..|handlers| - 1], handlers[|handlers| - 1];
      LeftDistinct(front, h);
      forall i | 0 <= i < |Left(front, h)| ensures Left(front, h)[i] != last {
        assert Left(front, h)[i] in front;
      }
    }
  }

  lemma CalledTwice(received: map<nat, seq<Push>>, h: nat, a: seq<Push>, b: seq<Push>)
    ensures CalledWith(CalledWith(received, h, a), h, b) == CalledWith(received, h, a + b)
  {
    assert Got(received, h) + a + b == Got(received, h) + (a + b);
  }

  function Arrived(b: Bridge, push: Push): Bridge {
    if b.handlers == [] then b.(buffered := b.buffered + [push])
    else b.(received := AllCalled(b.received, b.handlers, push))
  }

  function Subscribed(b: Bridge, h: nat): Bridge {
    var more := b.(handlers := if h in b.handlers then b.handlers else b.handlers + [h]);
    if b.handlers == [] && b.buffered != []
    then more.(received := CalledWith(b.received, h, b.buffered), buffered := [])
    else more
  }

  function Unsubscribed(b: Bridge, h: nat): Bridge {
    b.(handlers := Left(b.handlers, h))
  }

  function Replaced(b: Bridge, client: string): Bridge {
    b.(client := Some(client), pushSource := Some(client))
  }

  // The registration over a new connection failed.
  function Reverted(b: Bridge, previous: Option<string>): Bridge {
    b.(client := previous, pushSource := None)
  }

  function Stopped(b: Bridge): Bridge {
    if b.client.None? then b else b.(client := None, pushSource := None, buffered := [])
  }

  class SessionBridge {
    var client: Option<string>
    var turnDispatchSource: Option<string>
    var bufferedDispatches: seq<Push>
    var turnDispatchHandlers: seq<nat>
    var received: map<nat, seq<Push>>

    function Value(): Bridge
      reads this
    {
      Bridge(client, turnDispatchSource, bufferedDispatches, turnDispatchHandlers, received)
    }

    constructor ()
      ensures Value() == IDLE
    {
      client, turnDispatchSource, bufferedDispatches, turnDispatchHandlers, received := None, None, [], [], map[];
    }

    method OnTurnDispatch(h: nat)
      modifies this
      ensures Value() == Subscribed(old(Value()), h)
    {
      var wasEmpty := turnDispatchHandlers == [];
      if h !in turnDispatchHandlers { turnDispatchHandlers := turnDispatchHandlers + [h]; }
      if wasEmpty && bufferedDispatches != [] {
        var drained := bufferedDispatches;
        bufferedDispatches := [];
        Replay(h, drained);
      }
    }

    method Replay(h: nat, drained: seq<Push>)
      requires drained != []
      modifies this`received
      ensures received == CalledWith(old(received), h, drained)
    {
      ghost var before := received;
      received := CalledWith(received, h, [drained[0]]);
      assert drained[..1] == [drained[0]];
      for i := 1 to |drained|
        invariant received == CalledWith(before, h, drained[..i])
      {
        CalledTwice(before, h, drained[..i], [drained[i]]);
        assert drained[..i + 1] == drained[..i] + [drained[i]];
        received := CalledWith(received, h, [drained[i]]);
      }
      assert drained[..|drained|] == drained;
    }

    method Unsubscribe(h: nat)
      modifies this
      ensures Value() == Unsubscribed(old(Value()), h)
    {
      turnDispatchHandlers := Left(turnDispatchHandlers, h);
    }

    // The push handler installed on a client.
    method OnPush(push: Push)
      modifies this
      ensures Value() == Arrived(old(Value()), push)
    {
      if turnDispatchHandlers == [] {
        bufferedDispatches := bufferedDispatches + [push];
        return;
      }
      var handlers := turnDispatchHandlers;
      for i := 0 to |handlers|
        invariant received == AllCalled(old(received), handlers[..i], push)
        invariant Value() == old(Value()).(received := received)
      {
        assert handlers[..i + 1][..i] == handlers[..i];
        received := CalledWith(received, handlers[i], [push]);
      }
      assert handlers[..|handlers|] == handlers;
    }

    method ReplaceClient(next: string)
      modifies this
      ensures Value() == Replaced(old(Value()), next)
    {
      turnDispatchSource := None;
      client := Some(next);
      turnDispatchSource := Some(next);
    }

    method RegisterFailed(previousClient: Option<string>)
      modifies this
      ensures Value() == Reverted(old(Value()), previousClient)
    {
      turnDispatchSource := None;
      client := previousClient;
    }

    method Stop()
      modifies this
      ensures Value() == Stopped(old(Value()))
    {
      if client.None? { return; }
      turnDispatchSource := None;
      client := None;
      bufferedDispatches := [];
    }
  }
}
