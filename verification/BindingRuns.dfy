/** The slot state machine over whole runs: what every slot satisfies, which slot a
    grace timer may delete, and what equal epochs say about the connection. */
module BindingRuns {
  import opened Wrappers
  import opened Bindings

  datatype Action =
    | Bind(input: BindInput, now: int)
    | Unbind(runtimeId: string)
    | Close(connectionId: string, now: int)
    | Fire(timer: nat)

  // The store and the connections that have closed so far.
  datatype World = World(store: Store, closed: set<string>)

  const START := World(Store([], map[], 0), {})

  // What the gateway's callers keep to: a registration comes over an open connection
  // with its push handle, a connection hosts one slot and closes once, and a runtime
  // registers under one key.
  ghost predicate Possible(w: World, a: Action) {
    match a
    case Bind(x, _) =>
      && x.connectionId !in w.closed && x.push == Some(x.connectionId)
      && forall slot | slot in w.store.slots && slot.key != x.key ::
           slot.runtime.runtimeId != x.runtimeId && slot.binding.connectionId != x.connectionId
    case Unbind(_) => true
    case Close(connectionId, _) => connectionId !in w.closed
    case Fire(timer) => timer in w.store.alarms
  }

  function After(w: World, a: Action, grace: int): World {
    match a
    case Bind(x, now) => if Conflict(w.store, x) then w else w.(store := Bound(w.store, x, now))
    case Unbind(runtimeId) => w.(store := Unbound(w.store, runtimeId))
    case Close(c, now) => World(Closed(w.store, c, now, grace), w.closed + {c})
    case Fire(timer) => if timer in w.store.alarms then w.(store := Fired(w.store, timer)) else w
  }

  // ------------------------------------------------------------- invariant

  // An active slot can push and waits for nothing; a stale one cannot push and has
  // its own timer armed.
  predicate SlotOk(slot: Slot, alarms: map<nat, Alarm>, closed: set<string>) {
    slot.binding.epoch >= 1 &&
    match slot.binding
    case Active(c, _, _, _) => slot.push == Some(c) && slot.staleTimer.None? && slot.staleSince.None? && c !in closed
    case Stale(c, since, _, _) =>
      && slot.push.None? && slot.staleSince == Some(since) && c in closed
      && slot.staleTimer.Some? && slot.staleTimer.value in alarms
      && alarms[slot.staleTimer.value] == Alarm(slot.key, slot.runtime.runtimeId)
  }

  predicate Apart(s: Slot, t: Slot) {
    s.key != t.key && s.runtime.runtimeId != t.runtime.runtimeId && s.binding.connectionId != t.binding.connectionId
  }

  ghost predicate AllApart(slots: seq<Slot>) {
    forall i, j :: 0 <= i < |slots| && 0 <= j < |slots| && i != j ==> Apart(slots[i], slots[j])
  }

  ghost predicate AllOk(slots: set<Slot>, alarms: map<nat, Alarm>, closed: set<string>) {
    forall slot | slot in slots :: SlotOk(slot, alarms, closed)
  }

  ghost predicate Owned(slots: set<Slot>, timer: nat) {
    exists slot | slot in slots :: slot.staleTimer == Some(timer)
  }

  ghost predicate AllOwned(slots: set<Slot>, s: Store) {
    forall t | t in s.alarms :: t < s.nextAlarm && Owned(slots, t)
  }

  function SlotSet(slots: seq<Slot>): set<Slot> {
    set slot | slot in slots
  }

  ghost predicate Inv(w: World) {
    var slots := SlotSet(w.store.slots);
    AllApart(w.store.slots) && AllOk(slots, w.store.alarms, w.closed) && AllOwned(slots, w.store)
  }

  // One slot leaves, one comes, or both; the alarms are those of the slots.
  lemma SwapInv(w: World, v: World, out: set<Slot>, come: set<Slot>)
    requires Inv(w) && AllApart(v.store.slots)
    requires SlotSet(v.store.slots) == SlotSet(w.store.slots) - out + come
    requires AllOk(come, v.store.alarms, v.closed)
    requires w.closed <= v.closed && forall slot | slot in SlotSet(w.store.slots) - out ::
               slot.binding.connectionId in v.closed ==> slot.binding.connectionId in w.closed
    requires KeepsAlarms(w.store, v.store, out, come)
    ensures Inv(v)
  {
    var before, now := SlotSet(w.store.slots), SlotSet(v.store.slots);
    forall slot | slot in now ensures SlotOk(slot, v.store.alarms, v.closed) {
      if slot in before && slot !in come { assert SlotOk(slot, w.store.alarms, w.closed); }
    }
    forall t | t in v.store.alarms ensures t < v.store.nextAlarm && Owned(now, t) {
      if !Owned(come, t) { assert Owned(before, t); }
    }
  }

  ghost predicate KeepsAlarms(s: Store, t: Store, out: set<Slot>, come: set<Slot>) {
    && (forall slot | slot in SlotSet(s.slots) - out && slot.staleTimer.Some? :: SameAlarm(s, t, slot.staleTimer.value))
    && (forall timer | timer in t.alarms ::
          timer < t.nextAlarm && (Owned(come, timer) || (timer in s.alarms && !Owned(out, timer))))
  }

  predicate SameAlarm(s: Store, t: Store, timer: nat) {
    timer in s.alarms ==> timer in t.alarms && t.alarms[timer] == s.alarms[timer]
  }

  // ---------------------------------------------------- the slots as a set

  lemma ReplacedSet(slots: seq<Slot>, i: nat, slot: Slot)
    requires i < |slots| && AllApart(slots)
    requires forall j :: 0 <= j < |slots| && j != i ==> Apart(slots[j], slot)
    ensures AllApart(slots[i := slot]) && SlotSet(slots[i := slot]) == SlotSet(slots) - {slots[i]} + {slot}
  {
    var r := slots[i := slot];
    forall j | 0 <= j < |slots| && j != i ensures r[j] == slots[j] && slots[j] != slots[i] {
      assert Apart(slots[j], slots[i]);
    }
    assert r[i] == slot;
    forall x ensures x in r <==> x == slot || (x in slots && x != slots[i]) {
      if x in slots && x != slots[i] {
        var j :| 0 <= j < |slots| && slots[j] == x;
        assert r[j] == x;
      }
    }
  }

  lemma WithoutSet(slots: seq<Slot>, i: nat)
    requires i < |slots| && AllApart(slots)
    ensures AllApart(SlotsWithout(slots, i)) && SlotSet(SlotsWithout(slots, i)) == SlotSet(slots) - {slots[i]}
  {
    var r := SlotsWithout(slots, i);
    assert forall j :: 0 <= j < |r| ==> r[j] == slots[if j < i then j else j + 1];
    forall j | 0 <= j < |slots| && j != i ensures slots[j] != slots[i] && slots[j] in r {
      assert Apart(slots[j], slots[i]);
      assert r[if j < i then j else j - 1] == slots[j];
    }
  }

  // ------------------------------------------------------------- each step

  lemma BindInv(w: World, x: BindInput, now: int, grace: int)
    requires Inv(w) && Possible(w, Bind(x, now))
    ensures Inv(After(w, Bind(x, now), grace))
  {
    var slots := w.store.slots;
    var i := Find(slots, ByKey(x.key));
    var v := After(w, Bind(x, now), grace);
    if Conflict(w.store, x) { return; }
    if i == |slots| {
      var slot := BoundSlot(None, x, now);
      forall j | 0 <= j < |slots| ensures Apart(slots[j], slot) { assert slots[j] in slots; }
      assert SlotSet(v.store.slots) == SlotSet(slots) - {} + {slot};
      SwapInv(w, v, {}, {slot});
    } else {
      var slot := BoundSlot(Some(slots[i]), x, now);
      forall j | 0 <= j < |slots| && j != i ensures Apart(slots[j], slot) {
        assert Apart(slots[j], slots[i]) && slots[j] in slots;
      }
      assert slots[i] in SlotSet(slots);
      ReplacedSet(slots, i, slot);
      DisarmedKeeps(w, i);
      SwapInv(w, v, {slots[i]}, {slot});
    }
  }

  // Clearing a slot's timer leaves the timers of the others alone.
  lemma DisarmedKeeps(w: World, i: nat)
    requires Inv(w) && i < |w.store.slots|
    ensures var slot := w.store.slots[i];
            KeepsAlarms(w.store, w.store.(alarms := Disarmed(w.store.alarms, slot)), {slot}, {})
  {
    var slots, slot := w.store.slots, w.store.slots[i];
    assert SlotOk(slot, w.store.alarms, w.closed) by { assert slot in SlotSet(slots); }
    forall other | other in SlotSet(slots) - {slot} && other.staleTimer.Some?
      ensures other.staleTimer != slot.staleTimer
    {
      var j :| 0 <= j < |slots| && slots[j] == other;
      assert Apart(other, slot) && SlotOk(other, w.store.alarms, w.closed);
    }
  }

  lemma UnbindInv(w: World, runtimeId: string, grace: int)
    requires Inv(w)
    ensures Inv(After(w, Unbind(runtimeId), grace))
  {
    var slots := w.store.slots;
    var i := Find(slots, ByRuntime(runtimeId));
    if i < |slots| {
      WithoutSet(slots, i);
      DisarmedKeeps(w, i);
      SwapInv(w, After(w, Unbind(runtimeId), grace), {slots[i]}, {});
    }
  }

  lemma CloseInv(w: World, c: string, now: int, grace: int)
    requires Inv(w) && c !in w.closed
    ensures Inv(After(w, Close(c, now), grace))
  {
    var slots := w.store.slots;
    var i := Find(slots, ByConnection(c));
    if i == |slots| {
      forall slot | slot in SlotSet(slots) ensures slot.binding.connectionId != c {
        var j :| 0 <= j < |slots| && slots[j] == slot;
        assert !Is(slots[j], ByConnection(c));
      }
      SwapInv(w, After(w, Close(c, now), grace), {}, {});
      return;
    }
    assert SlotOk(slots[i], w.store.alarms, w.closed) by { assert slots[i] in SlotSet(slots); }
    forall j | 0 <= j < |slots| && j != i ensures slots[j].binding.connectionId != c {
      assert Apart(slots[j], slots[i]);
    }
    if grace <= 0 {
      WithoutSet(slots, i);
      SwapInv(w, After(w, Close(c, now), grace), {slots[i]}, {});
    } else {
      StaleInv(w, c, now, grace);
    }
  }

  // A slot that goes stale takes a timer of its own.
  lemma StaleInv(w: World, c: string, now: int, grace: int)
    requires Inv(w) && c !in w.closed && grace > 0 && Find(w.store.slots, ByConnection(c)) < |w.store.slots|
    ensures Inv(After(w, Close(c, now), grace))
  {
    var slots := w.store.slots;
    var i := Find(slots, ByConnection(c));
    var slot := slots[i];
    var stale := StaleSlot(slot, c, now, w.store.nextAlarm);
    assert SlotOk(slot, w.store.alarms, w.closed) by { assert slot in SlotSet(slots); }
    forall j | 0 <= j < |slots| && j != i ensures slots[j].binding.connectionId != c && Apart(slots[j], stale) {
      assert Apart(slots[j], slot);
    }
    ReplacedSet(slots, i, stale);
    SwapInv(w, After(w, Close(c, now), grace), {slot}, {stale});
  }

  // The slot a timer belongs to is the one it deletes.
  lemma TimerOwner(w: World, timer: nat) returns (i: nat)
    requires Inv(w) && timer in w.store.alarms
    ensures i < |w.store.slots| && w.store.slots[i].staleTimer == Some(timer)
    ensures w.store.slots[i].binding.Stale? && i == Find(w.store.slots, ByKey(w.store.alarms[timer].key))
    ensures Fired(w.store, timer) == Store(SlotsWithout(w.store.slots, i), w.store.alarms - {timer}, w.store.nextAlarm)
  {
    var slots := w.store.slots;
    assert Owned(SlotSet(slots), timer);
    var slot :| slot in SlotSet(slots) && slot.staleTimer == Some(timer);
    i :| 0 <= i < |slots| && slots[i] == slot;
    assert SlotOk(slot, w.store.alarms, w.closed);
    assert forall j :: 0 <= j < i ==> Apart(slots[j], slots[i]);
    FirstIsFind(slots, ByKey(slot.key), i);
  }

  lemma FireInv(w: World, timer: nat, grace: int)
    requires Inv(w) && timer in w.store.alarms
    ensures Inv(After(w, Fire(timer), grace))
  {
    var i := TimerOwner(w, timer);
    WithoutSet(w.store.slots, i);
    DisarmedKeeps(w, i);
    SwapInv(w, After(w, Fire(timer), grace), {w.store.slots[i]}, {});
  }

  // Active slots push and have no timer, stale slots are the reverse, whatever the
  // order of registrations, closes and timers.
  lemma StepKeepsInv(w: World, a: Action, grace: int)
    requires Inv(w) && Possible(w, a)
    ensures Inv(After(w, a, grace))
  {
    match a {
      case Bind(x, now) => BindInv(w, x, now, grace);
      case Unbind(runtimeId) => UnbindInv(w, runtimeId, grace);
      case Close(c, now) => CloseInv(w, c, now, grace);
      case Fire(timer) => FireInv(w, timer, grace);
    }
  }

  // ------------------------------------------------------------ whole runs

  ghost predicate StepOf(w: World, a: Action, grace: int, v: World) {
    Possible(w, a) && v == After(w, a, grace)
  }

  // The worlds a series of actions leads through, from the empty store on.
  ghost predicate Trace(worlds: seq<World>, actions: seq<Action>, grace: int) {
    && |worlds| == |actions| + 1 && worlds[0] == START
    && forall k :: 0 <= k < |actions| ==> StepOf(worlds[k], actions[k], grace, worlds[k + 1])
  }

  lemma {:induction false} TraceKeepsInv(worlds: seq<World>, actions: seq<Action>, grace: int, n: nat)
    requires Trace(worlds, actions, grace) && n < |worlds|
    ensures Inv(worlds[n])
  {
    if n > 0 {
      TraceKeepsInv(worlds, actions, grace, n - 1);
      assert StepOf(worlds[n - 1], actions[n - 1], grace, worlds[n - 1 + 1]);
      StepKeepsInv(worlds[n - 1], actions[n - 1], grace);
    }
  }

  // While a timer stays armed its slot stays as it was.
  lemma ArmedStep(w: World, a: Action, grace: int, timer: nat, slot: Slot)
    requires Inv(w) && Possible(w, a)
    requires slot in SlotSet(w.store.slots) && slot.staleTimer == Some(timer) && timer in After(w, a, grace).store.alarms
    ensures slot in SlotSet(After(w, a, grace).store.slots)
  {
    var slots := w.store.slots;
    assert SlotOk(slot, w.store.alarms, w.closed);
    match a {
      case Bind(x, now) =>
        var i := Find(slots, ByKey(x.key));
        if i < |slots| && !Conflict(w.store, x) { UpdateKeeps(slots, i, BoundSlot(Some(slots[i]), x, now), slot); }
      case Unbind(runtimeId) =>
        var i := Find(slots, ByRuntime(runtimeId));
        if i < |slots| { WithoutSet(slots, i); }
      case Close(c, now) =>
        var i := Find(slots, ByConnection(c));
        if i < |slots| {
          WithoutSet(slots, i);
          UpdateKeeps(slots, i, StaleSlot(slots[i], c, now, w.store.nextAlarm), slot);
        }
      case Fire(t) =>
        var i := TimerOwner(w, t);
        WithoutSet(slots, i);
    }
  }

  lemma UpdateKeeps(slots: seq<Slot>, i: nat, new': Slot, slot: Slot)
    requires i < |slots| && slot in slots && slot != slots[i]
    ensures slot in slots[i := new']
  {
    var j :| 0 <= j < |slots| && slots[j] == slot;
    assert slots[i := new'][j] == slot;
  }

  lemma NeverRearmed(w: World, a: Action, grace: int, timer: nat)
    requires timer < w.store.nextAlarm && timer in After(w, a, grace).store.alarms
    ensures timer in w.store.alarms
  {
  }

  lemma {:induction false} ArmedBefore(worlds: seq<World>, actions: seq<Action>, grace: int, m: nat, n: nat, timer: nat)
    requires Trace(worlds, actions, grace) && m <= n < |worlds|
    requires timer < worlds[m].store.nextAlarm && timer in worlds[n].store.alarms
    ensures timer in worlds[m].store.alarms
    decreases n - m
  {
    if m < n {
      assert StepOf(worlds[m], actions[m], grace, worlds[m + 1]);
      ArmedBefore(worlds, actions, grace, m + 1, n, timer);
      NeverRearmed(worlds[m], actions[m], grace, timer);
    }
  }

  ghost predicate Watches(w: World, timer: nat, slot: Slot) {
    slot in SlotSet(w.store.slots) && slot.staleTimer == Some(timer)
  }

  lemma WatchedAt(worlds: seq<World>, actions: seq<Action>, grace: int, n: nat, timer: nat) returns (slot: Slot)
    requires Trace(worlds, actions, grace) && n < |worlds| && timer in worlds[n].store.alarms
    ensures slot.binding.Stale? && Watches(worlds[n], timer, slot)
  {
    TraceKeepsInv(worlds, actions, grace, n);
    var i := TimerOwner(worlds[n], timer);
    slot := worlds[n].store.slots[i];
  }

  lemma WatchStep(worlds: seq<World>, actions: seq<Action>, grace: int, k: nat, timer: nat, slot: Slot)
    requires Trace(worlds, actions, grace) && k < |actions|
    requires Watches(worlds[k], timer, slot) && timer in worlds[k + 1].store.alarms
    ensures Watches(worlds[k + 1], timer, slot)
  {
    TraceKeepsInv(worlds, actions, grace, k);
    assert StepOf(worlds[k], actions[k], grace, worlds[k + 1]);
    ArmedStep(worlds[k], actions[k], grace, timer, slot);
  }

  // A grace timer that is still armed has watched one slot, which was stale, and
  // the very same, all along since the timer was set.
  lemma {:induction false} ContinuouslyStale(worlds: seq<World>, actions: seq<Action>, grace: int, m: nat, n: nat,
                                             timer: nat) returns (slot: Slot)
    requires Trace(worlds, actions, grace) && m <= n < |worlds|
    requires timer < worlds[m].store.nextAlarm && timer in worlds[n].store.alarms
    ensures slot.binding.Stale? && forall k :: m <= k <= n ==> Watches(worlds[k], timer, slot)
    decreases n - m
  {
    if m == n {
      slot := WatchedAt(worlds, actions, grace, n, timer);
    } else {
      ArmedJustBefore(worlds, actions, grace, m, n - 1, timer);
      slot := ContinuouslyStale(worlds, actions, grace, m, n - 1, timer);
      WatchStep(worlds, actions, grace, n - 1, timer, slot);
    }
  }

  lemma ArmedJustBefore(worlds: seq<World>, actions: seq<Action>, grace: int, m: nat, n: nat, timer: nat)
    requires Trace(worlds, actions, grace) && m <= n < |actions|
    requires timer < worlds[m].store.nextAlarm && timer in worlds[n + 1].store.alarms
    ensures timer in worlds[n].store.alarms
  {
    NextAlarmGrows(worlds, actions, grace, m, n);
    ArmedBefore(worlds, actions, grace, n, n + 1, timer);
  }

  lemma {:induction false} NextAlarmGrows(worlds: seq<World>, actions: seq<Action>, grace: int, m: nat, n: nat)
    requires Trace(worlds, actions, grace) && m <= n < |worlds|
    ensures worlds[m].store.nextAlarm <= worlds[n].store.nextAlarm
    decreases n - m
  {
    if m < n {
      NextAlarmGrows(worlds, actions, grace, m, n - 1);
      assert StepOf(worlds[n - 1], actions[n - 1], grace, worlds[n - 1 + 1]);
    }
  }

  // And that slot is all it deletes when it goes off.
  lemma FireDeletesWatched(w: World, timer: nat, slot: Slot)
    requires Inv(w) && Watches(w, timer, slot) && timer in w.store.alarms
    ensures SlotSet(Fired(w.store, timer).slots) == SlotSet(w.store.slots) - {slot}
  {
    var i := TimerOwner(w, timer);
    WithoutSet(w.store.slots, i);
    OneOwner(w, w.store.slots[i], slot, timer);
  }

  lemma TimersDiffer(w: World)
    requires Inv(w)
    ensures var slots := w.store.slots;
            forall i, j :: 0 <= i < |slots| && 0 <= j < |slots| && i != j && slots[i].staleTimer.Some? ==>
              slots[i].staleTimer != slots[j].staleTimer
  {
    var slots := w.store.slots;
    forall i, j | 0 <= i < |slots| && 0 <= j < |slots| && i != j && slots[i].staleTimer.Some?
      ensures slots[i].staleTimer != slots[j].staleTimer
    {
      var s, t := slots[i], slots[j];
      assert s in SlotSet(slots) && t in SlotSet(slots);
      assert SlotOk(s, w.store.alarms, w.closed) && SlotOk(t, w.store.alarms, w.closed) && Apart(s, t);
    }
  }

  lemma OneOwner(w: World, s: Slot, t: Slot, timer: nat)
    requires Inv(w) && s in SlotSet(w.store.slots) && t in SlotSet(w.store.slots)
    requires s.staleTimer == Some(timer) && t.staleTimer == Some(timer)
    ensures s == t
  {
    TimersDiffer(w);
    var slots := w.store.slots;
    var i :| 0 <= i < |slots| && slots[i] == s;
    var j :| 0 <= j < |slots| && slots[j] == t;
    assert i == j;
  }

  // No slot is hosted by the connection.
  ghost predicate Unhosted(slots: seq<Slot>, c: string) {
    forall j :: 0 <= j < |slots| ==> slots[j].binding.connectionId != c
  }

  lemma UnhostedWithout(slots: seq<Slot>, i: nat, c: string)
    requires i < |slots| && Unhosted(slots, c)
    ensures Unhosted(SlotsWithout(slots, i), c)
  {
    var r := SlotsWithout(slots, i);
    assert forall j :: 0 <= j < |r| ==> r[j] == slots[if j < i then j else j + 1];
  }

  lemma UnhostedUpdate(slots: seq<Slot>, i: nat, slot: Slot, c: string)
    requires i < |slots| && Unhosted(slots, c) && slot.binding.connectionId != c
    ensures Unhosted(slots[i := slot], c)
  {
  }

  lemma UnhostedCloseIgnored(s: Store, c: string, later: int, grace: int)
    requires Unhosted(s.slots, c)
    ensures Closed(s, c, later, grace) == s
  {
    FirstIsFind(s.slots, ByConnection(c), |s.slots|);
  }

  predicate BindsOver(a: Action, c: string) {
    a.Bind? && a.input.connectionId == c
  }

  // Only a registration over a connection makes it host a slot.
  lemma UnhostedStep(w: World, a: Action, grace: int, c: string)
    requires Unhosted(w.store.slots, c) && !BindsOver(a, c)
    ensures Unhosted(After(w, a, grace).store.slots, c)
  {
    var slots := w.store.slots;
    match a {
      case Bind(x, now) =>
        var i := Find(slots, ByKey(x.key));
        if i < |slots| { UnhostedUpdate(slots, i, BoundSlot(Some(slots[i]), x, now), c); }
      case Unbind(runtimeId) =>
        var i := Find(slots, ByRuntime(runtimeId));
        if i < |slots| { UnhostedWithout(slots, i, c); }
      case Close(d, now) => UnhostedClose(w.store, d, now, grace, c);
      case Fire(t) => if t in w.store.alarms { UnhostedFire(w.store, t, c); }
    }
  }

  lemma UnhostedClose(s: Store, d: string, now: int, grace: int, c: string)
    requires Unhosted(s.slots, c)
    ensures Unhosted(Closed(s, d, now, grace).slots, c)
  {
    var i := Find(s.slots, ByConnection(d));
    if i < |s.slots| {
      UnhostedWithout(s.slots, i, c);
      UnhostedUpdate(s.slots, i, StaleSlot(s.slots[i], d, now, s.nextAlarm), c);
    }
  }

  lemma UnhostedFire(s: Store, timer: nat, c: string)
    requires timer in s.alarms && Unhosted(s.slots, c)
    ensures Unhosted(Fired(s, timer).slots, c)
  {
    var i := Find(s.slots, ByKey(s.alarms[timer].key));
    if i < |s.slots| {
      UnhostedWithout(s.slots, i, c);
      UnhostedUpdate(s.slots, i, s.slots[i].(staleTimer := None, staleSince := None), c);
    }
  }

  lemma {:induction false} StaysUnhosted(worlds: seq<World>, actions: seq<Action>, grace: int, m: nat, n: nat, c: string)
    requires Trace(worlds, actions, grace) && m <= n < |worlds| && Unhosted(worlds[m].store.slots, c)
    requires forall k :: m <= k < n ==> !BindsOver(actions[k], c)
    ensures Unhosted(worlds[n].store.slots, c)
    decreases n - m
  {
    if m < n {
      assert StepOf(worlds[m], actions[m], grace, worlds[m + 1]);
      UnhostedStep(worlds[m], actions[m], grace, c);
      StaysUnhosted(worlds, actions, grace, m + 1, n, c);
    }
  }

  // Binding the key of a slot anew leaves no slot for the connection it had.
  lemma RebindUnhosts(w: World, x: BindInput, now: int)
    requires Inv(w) && Possible(w, Bind(x, now)) && Supersedes(w.store, x)
    ensures Unhosted(Bound(w.store, x, now).slots, SlotAt(w.store.slots, ByKey(x.key)).value.binding.connectionId)
  {
    var slots := w.store.slots;
    var i := Find(slots, ByKey(x.key));
    var c := slots[i].binding.connectionId;
    var after := Bound(w.store, x, now).slots;
    forall j | 0 <= j < |after| ensures after[j].binding.connectionId != c {
      if j != i { assert Apart(slots[j], slots[i]); }
    }
  }

  // The registration takes a slot over from another connection.
  predicate Supersedes(s: Store, x: BindInput) {
    && !Conflict(s, x)
    && SlotAt(s.slots, ByKey(x.key)).Some? && SlotAt(s.slots, ByKey(x.key)).value.binding.connectionId != x.connectionId
  }

  // Once the slot of a connection has been taken over, a close of that connection
  // changes nothing, however late it comes and whatever happened in between, unless
  // something was registered over it again.
  lemma SupersededCloseIgnored(worlds: seq<World>, actions: seq<Action>, grace: int, m: nat, n: nat, later: int)
    requires Trace(worlds, actions, grace) && m < n < |worlds|
    requires actions[m].Bind? && Supersedes(worlds[m].store, actions[m].input)
    ensures var c := SlotAt(worlds[m].store.slots, ByKey(actions[m].input.key)).value.binding.connectionId;
            (forall k :: m < k < n ==> !BindsOver(actions[k], c)) ==>
              Closed(worlds[n].store, c, later, grace) == worlds[n].store
  {
    var c := SlotAt(worlds[m].store.slots, ByKey(actions[m].input.key)).value.binding.connectionId;
    TraceKeepsInv(worlds, actions, grace, m);
    assert StepOf(worlds[m], actions[m], grace, worlds[m + 1]);
    RebindUnhosts(worlds[m], actions[m].input, actions[m].now);
    if forall k :: m < k < n ==> !BindsOver(actions[k], c) {
      StaysUnhosted(worlds, actions, grace, m + 1, n, c);
      UnhostedCloseIgnored(worlds[n].store, c, later, grace);
    }
  }

  // ---------------------------------------------------------------- epochs

  // The slot of the key came back over another connection, or from being stale.
  predicate Switched(s: Slot, t: Slot) {
    t.binding.Active? && (s.binding.Stale? || s.binding.connectionId != t.binding.connectionId)
  }

  function SlotOf(w: World, key: Key): Option<Slot> {
    SlotAt(w.store.slots, ByKey(key))
  }

  // What one step does to the slot of a key.
  ghost predicate Continues(before: Option<Slot>, after: Option<Slot>) {
    && (before.None? && after.Some? ==>
          after.value.binding.epoch == 1 && after.value.binding.Active? && after.value.binding.lastRebindAt.None?)
    && (before.Some? && after.Some? ==> Keeps(before.value, after.value))
  }

  ghost predicate Keeps(s: Slot, t: Slot) {
    && t.runtime.runtimeId == s.runtime.runtimeId
    && t.binding.epoch == s.binding.epoch + (if Switched(s, t) then 1 else 0)
    && (!Switched(s, t) ==> t.binding.connectionId == s.binding.connectionId)
    && t.binding.lastRebindAt == if Switched(s, t) then Some(t.binding.boundAt) else s.binding.lastRebindAt
  }

  lemma EpochStep(w: World, a: Action, grace: int, key: Key)
    requires Inv(w) && Possible(w, a)
    ensures Continues(SlotOf(w, key), SlotOf(After(w, a, grace), key))
  {
    match a {
      case Bind(x, now) => if !Conflict(w.store, x) { BoundContinues(w.store, x, now, key); }
      case Unbind(runtimeId) =>
        var i := Find(w.store.slots, ByRuntime(runtimeId));
        if i < |w.store.slots| { FindWithout(w.store.slots, i, key); }
      case Close(c, now) => ClosedContinues(w.store, c, now, grace, key);
      case Fire(t) =>
        var i := TimerOwner(w, t);
        FindWithout(w.store.slots, i, key);
    }
  }

  lemma BoundContinues(s: Store, x: BindInput, now: int, key: Key)
    requires !Conflict(s, x)
    ensures Continues(SlotAt(s.slots, ByKey(key)), SlotAt(Bound(s, x, now).slots, ByKey(key)))
  {
    var i := Find(s.slots, ByKey(x.key));
    if i == |s.slots| {
      FindAppended(s.slots, BoundSlot(None, x, now), ByKey(key));
    } else {
      var slot := BoundSlot(Some(s.slots[i]), x, now);
      FindUpdated(s.slots, i, slot, key);
      assert Keeps(s.slots[i], slot);
    }
  }

  lemma ClosedContinues(s: Store, c: string, now: int, grace: int, key: Key)
    requires AllApart(s.slots)
    ensures Continues(SlotAt(s.slots, ByKey(key)), SlotAt(Closed(s, c, now, grace).slots, ByKey(key)))
  {
    var i := Find(s.slots, ByConnection(c));
    if i < |s.slots| {
      if grace <= 0 {
        FindWithout(s.slots, i, key);
      } else {
        FindUpdated(s.slots, i, StaleSlot(s.slots[i], c, now, s.nextAlarm), key);
        assert Keeps(s.slots[i], StaleSlot(s.slots[i], c, now, s.nextAlarm));
      }
    }
  }

  lemma FindUpdated(slots: seq<Slot>, i: nat, slot: Slot, key: Key)
    requires i < |slots| && slot.key == slots[i].key
    ensures Find(slots[i := slot], ByKey(key)) == Find(slots, ByKey(key))
  {
    FirstIsFind(slots[i := slot], ByKey(key), Find(slots, ByKey(key)));
  }

  lemma FindWithout(slots: seq<Slot>, i: nat, key: Key)
    requires i < |slots| && AllApart(slots)
    ensures SlotAt(SlotsWithout(slots, i), ByKey(key)) ==
            if slots[i].key == key then None else SlotAt(slots, ByKey(key))
  {
    var r, f := SlotsWithout(slots, i), Find(slots, ByKey(key));
    assert forall j :: 0 <= j < |r| ==> r[j] == slots[if j < i then j else j + 1];
    if slots[i].key == key {
      assert forall j :: 0 <= j < |slots| && j != i ==> Apart(slots[j], slots[i]);
      FirstIsFind(r, ByKey(key), |r|);
    } else {
      FirstIsFind(r, ByKey(key), if f <= i then f else f - 1);
    }
  }

  // A registration that is not refused.
  predicate Registers(s: Store, a: Action, key: Key) {
    a.Bind? && a.input.key == key && !Conflict(s, a.input)
  }

  predicate RunsAs(runtime: Runtime, x: BindInput) {
    runtime.runtimeId == x.runtimeId && runtime.defaultAgentId == x.defaultAgentId && runtime.pid == x.pid
  }

  // A new slot belongs to its attachment from now on; a taken over one stays as it is.
  predicate Keyed(before: Option<Slot>, after: Slot, key: Key, now: int) {
    if before.None? then after.runtime.attachmentId == key && after.runtime.registeredAt == now
    else after.runtime.attachmentId == before.value.runtime.attachmentId &&
         after.runtime.registeredAt == before.value.runtime.registeredAt
  }

  lemma RegisterShows(s: Store, x: BindInput, now: int)
    requires !Conflict(s, x)
    ensures var slot, before := SlotAt(Bound(s, x, now).slots, ByKey(x.key)), SlotAt(s.slots, ByKey(x.key));
            slot.Some? && RunsAs(slot.value.runtime, x) && Keyed(before, slot.value, x.key, now)
  {
    var i := Find(s.slots, ByKey(x.key));
    if i == |s.slots| {
      FindAppended(s.slots, BoundSlot(None, x, now), ByKey(x.key));
    } else {
      FindUpdated(s.slots, i, BoundSlot(Some(s.slots[i]), x, now), x.key);
    }
  }

  ghost predicate SameRuntime(before: Option<Slot>, after: Option<Slot>) {
    after.Some? ==> before.Some? && after.value.runtime == before.value.runtime
  }

  // Nothing but a registration of its key changes the runtime of a slot.
  lemma RuntimeStep(w: World, a: Action, grace: int, key: Key)
    requires Inv(w) && Possible(w, a) && !Registers(w.store, a, key)
    ensures SameRuntime(SlotOf(w, key), SlotOf(After(w, a, grace), key))
  {
    var slots := w.store.slots;
    match a {
      case Bind(x, now) => if !Conflict(w.store, x) { OtherBound(w.store, x, now, key); }
      case Unbind(runtimeId) =>
        var i := Find(slots, ByRuntime(runtimeId));
        if i < |slots| { FindWithout(slots, i, key); }
      case Close(c, now) => ClosedRuntime(w.store, c, now, grace, key);
      case Fire(t) =>
        var i := TimerOwner(w, t);
        FindWithout(slots, i, key);
    }
  }

  lemma OtherBound(s: Store, x: BindInput, now: int, key: Key)
    requires !Conflict(s, x) && x.key != key
    ensures SlotAt(Bound(s, x, now).slots, ByKey(key)) == SlotAt(s.slots, ByKey(key))
  {
    var i := Find(s.slots, ByKey(x.key));
    if i == |s.slots| {
      FindAppended(s.slots, BoundSlot(None, x, now), ByKey(key));
    } else {
      FindUpdated(s.slots, i, BoundSlot(Some(s.slots[i]), x, now), key);
    }
  }

  lemma ClosedRuntime(s: Store, c: string, now: int, grace: int, key: Key)
    requires AllApart(s.slots)
    ensures SameRuntime(SlotAt(s.slots, ByKey(key)), SlotAt(Closed(s, c, now, grace).slots, ByKey(key)))
  {
    var i := Find(s.slots, ByConnection(c));
    if i < |s.slots| {
      if grace <= 0 { FindWithout(s.slots, i, key); }
      else { FindUpdated(s.slots, i, StaleSlot(s.slots[i], c, now, s.nextAlarm), key); }
    }
  }

  // In every run a slot shows the runtime, the default agent and the process of the last
  // registration of its key.
  lemma {:induction false} ShowsLastRegistration(worlds: seq<World>, actions: seq<Action>, grace: int, n: nat, key: Key)
      returns (k: nat)
    requires Trace(worlds, actions, grace) && n < |worlds| && SlotOf(worlds[n], key).Some?
    ensures k < n && Registers(worlds[k].store, actions[k], key)
    ensures RunsAs(SlotOf(worlds[n], key).value.runtime, actions[k].input)
    ensures forall j | k < j < n :: !Registers(worlds[j].store, actions[j], key)
  {
    NoSlotAtStart(key);
    if Registers(worlds[n - 1].store, actions[n - 1], key) {
      RegisteredNext(worlds, actions, grace, n - 1, key);
      k := n - 1;
    } else {
      UnchangedNext(worlds, actions, grace, n - 1, key);
      k := ShowsLastRegistration(worlds, actions, grace, n - 1, key);
    }
  }

  lemma NoSlotAtStart(key: Key)
    ensures SlotOf(START, key).None?
  {
  }

  lemma RegisteredNext(worlds: seq<World>, actions: seq<Action>, grace: int, n: nat, key: Key)
    requires Trace(worlds, actions, grace) && n < |actions| && Registers(worlds[n].store, actions[n], key)
    ensures var after := SlotOf(worlds[n + 1], key);
            after.Some? && RunsAs(after.value.runtime, actions[n].input) &&
            Keyed(SlotOf(worlds[n], key), after.value, key, actions[n].now)
  {
    assert StepOf(worlds[n], actions[n], grace, worlds[n + 1]);
    RegisterShows(worlds[n].store, actions[n].input, actions[n].now);
  }

  lemma UnchangedNext(worlds: seq<World>, actions: seq<Action>, grace: int, n: nat, key: Key)
    requires Trace(worlds, actions, grace) && n < |actions| && !Registers(worlds[n].store, actions[n], key)
    ensures SameRuntime(SlotOf(worlds[n], key), SlotOf(worlds[n + 1], key))
  {
    TraceKeepsInv(worlds, actions, grace, n);
    assert StepOf(worlds[n], actions[n], grace, worlds[n + 1]);
    RuntimeStep(worlds[n], actions[n], grace, key);
  }

  // And its runtime is registered for the attachment of that key.
  lemma {:induction false} AttachmentIsKey(worlds: seq<World>, actions: seq<Action>, grace: int, n: nat, key: Key)
    requires Trace(worlds, actions, grace) && n < |worlds| && SlotOf(worlds[n], key).Some?
    ensures SlotOf(worlds[n], key).value.runtime.attachmentId == key
  {
    NoSlotAtStart(key);
    if Registers(worlds[n - 1].store, actions[n - 1], key) { RegisteredNext(worlds, actions, grace, n - 1, key); }
    else { UnchangedNext(worlds, actions, grace, n - 1, key); }
    if SlotOf(worlds[n - 1], key).Some? { AttachmentIsKey(worlds, actions, grace, n - 1, key); }
  }

  // A life of a slot: its states from one moment to another.
  ghost predicate Life(slots: seq<Slot>) {
    forall k :: 0 <= k < |slots| - 1 ==> Keeps(slots[k], slots[k + 1])
  }

  // How often the connection was switched in it.
  function Switches(slots: seq<Slot>): nat {
    if |slots| < 2 then 0
    else Switches(slots[..|slots| - 1]) + if Switched(slots[|slots| - 2], slots[|slots| - 1]) then 1 else 0
  }

  ghost predicate Shows(worlds: seq<World>, key: Key, m: nat, slots: seq<Slot>) {
    m + |slots| <= |worlds| && forall k :: 0 <= k < |slots| ==> SlotOf(worlds[m + k], key) == Some(slots[k])
  }

  // The states the slot of a key goes through while it exists are a life.
  lemma ShownIsLife(worlds: seq<World>, actions: seq<Action>, grace: int, key: Key, m: nat, slots: seq<Slot>)
    requires Trace(worlds, actions, grace) && Shows(worlds, key, m, slots)
    ensures Life(slots)
  {
    forall k | 0 <= k < |slots| - 1 ensures Keeps(slots[k], slots[k + 1]) {
      TraceKeepsInv(worlds, actions, grace, m + k);
      assert StepOf(worlds[m + k], actions[m + k], grace, worlds[m + k + 1]);
      EpochStep(worlds[m + k], actions[m + k], grace, key);
      assert SlotOf(worlds[m + (k + 1)], key) == Some(slots[k + 1]);
    }
  }

  // As long as a slot lives, its epoch counts the switches of its connection.
  lemma {:induction false} EpochCountsSwitches(slots: seq<Slot>)
    requires Life(slots) && slots != []
    ensures slots[|slots| - 1].binding.epoch == slots[0].binding.epoch + Switches(slots)
  {
    if |slots| > 1 {
      EpochCountsSwitches(slots[..|slots| - 1]);
      assert Keeps(slots[|slots| - 2], slots[|slots| - 2 + 1]);
    }
  }

  // And the time of the last rebinding is that of the last switch.
  lemma {:induction false} LastRebindIsLastSwitch(slots: seq<Slot>, k: nat)
    requires Life(slots) && k < |slots| && forall j | k < j < |slots| :: !Switched(slots[j - 1], slots[j])
    ensures var last := slots[|slots| - 1].binding.lastRebindAt;
            last == if k > 0 && Switched(slots[k - 1], slots[k]) then Some(slots[k].binding.boundAt)
                    else slots[k].binding.lastRebindAt
  {
    var n := |slots| - 1;
    if n > 0 { assert Keeps(slots[n - 1], slots[n - 1 + 1]); }
    if k < n {
      assert !Switched(slots[n - 1], slots[n]);
      LastRebindIsLastSwitch(slots[..n], k);
    }
  }

  // Equal epochs at both ends, the last of them active: the connection was the same
  // and never lost in between.
  lemma {:induction false} EqualEpochsUninterrupted(slots: seq<Slot>)
    requires Life(slots) && slots != [] && slots[|slots| - 1].binding.Active?
    requires slots[0].binding.epoch == slots[|slots| - 1].binding.epoch
    ensures forall slot | slot in slots ::
              slot.binding.Active? && slot.binding.connectionId == slots[|slots| - 1].binding.connectionId
  {
    var n := |slots|;
    if n > 1 {
      var front := slots[..n - 1];
      EpochCountsSwitches(front);
      assert Keeps(slots[n - 2], slots[n - 2 + 1]);
      EqualEpochsUninterrupted(front);
      assert forall slot | slot in slots :: slot in front || slot == slots[n - 1];
    }
  }
}
