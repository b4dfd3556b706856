/** The gateway's table of registered runtimes: one slot an attachment, active while
    its connection lives, stale for a grace period after it is lost. Timers and
    connection closes may come in any order. */
module Bindings {
  import opened Wrappers

  type Key = Option<string>

  datatype Runtime = Runtime(runtimeId: string, defaultAgentId: string, pid: int, registeredAt: int, attachmentId: Key)

  datatype Binding =
    | Active(connectionId: string, boundAt: int, epoch: nat, lastRebindAt: Option<int>)
    | Stale(connectionId: string, staleSince: int, epoch: nat, lastRebindAt: Option<int>)

  // A push handle is named by the connection it writes to.
  datatype Slot = Slot(key: Key, runtime: Runtime, binding: Binding, push: Option<string>,
                       staleTimer: Option<nat>, staleSince: Option<int>)

  // What an armed grace timer will do when it goes off.
  datatype Alarm = Alarm(key: Key, runtimeId: string)

  datatype Store = Store(slots: seq<Slot>, alarms: map<nat, Alarm>, nextAlarm: nat)

  datatype BindInput = BindInput(runtimeId: string, defaultAgentId: string, pid: int, connectionId: string,
                                 key: Key, push: Option<string>)

  datatype Search = ByKey(key: Key) | ByRuntime(runtimeId: string) | ByConnection(connectionId: string)

  predicate Is(slot: Slot, who: Search) {
    match who
    case ByKey(key) => slot.key == key
    case ByRuntime(runtimeId) => slot.runtime.runtimeId == runtimeId
    case ByConnection(connectionId) => slot.binding.connectionId == connectionId
  }

  // The first slot found, or the number of slots.
  function Find(slots: seq<Slot>, who: Search): (i: nat)
    ensures i <= |slots| && (i < |slots| ==> Is(slots[i], who)) && forall j :: 0 <= j < i ==> !Is(slots[j], who)
  {
    if slots == [] || Is(slots[0], who) then 0 else 1 + Find(slots[1..], who)
  }

  function SlotAt(slots: seq<Slot>, who: Search): Option<Slot> {
    var i := Find(slots, who);
    if i < |slots| then Some(slots[i]) else None
  }

  function SlotsWithout(slots: seq<Slot>, i: nat): seq<Slot>
    requires i < |slots|
  {
    slots[..i] + slots[i + 1..]
  }

  function Disarmed(alarms: map<nat, Alarm>, slot: Slot): map<nat, Alarm> {
    if slot.staleTimer.Some? then alarms - {slot.staleTimer.value} else alarms
  }

  // ------------------------------------------------------------ operations

  predicate Conflict(s: Store, x: BindInput) {
    var slot := SlotAt(s.slots, ByKey(x.key));
    slot.Some? && slot.value.runtime.runtimeId != x.runtimeId
  }

  predicate Rebinds(previous: Option<Binding>, connectionId: string) {
    previous.Some? && (previous.value.Stale? || previous.value.connectionId != connectionId)
  }

  function NewBinding(previous: Option<Binding>, connectionId: string, now: int): Binding {
    var again := Rebinds(previous, connectionId);
    Active(connectionId, now,
           if previous.None? then 1 else previous.value.epoch + if again then 1 else 0,
           if again then Some(now) else if previous.Some? then previous.value.lastRebindAt else None)
  }

  function BoundSlot(existing: Option<Slot>, x: BindInput, now: int): Slot {
    if existing.None? then
      Slot(x.key, Runtime(x.runtimeId, x.defaultAgentId, x.pid, now, x.key), NewBinding(None, x.connectionId, now),
           x.push, None, None)
    else
      Slot(x.key, existing.value.runtime.(defaultAgentId := x.defaultAgentId, pid := x.pid),
           NewBinding(Some(existing.value.binding), x.connectionId, now),
           if x.push.Some? then x.push else existing.value.push, None, None)
  }

  function Bound(s: Store, x: BindInput, now: int): Store {
    var i := Find(s.slots, ByKey(x.key));
    if i == |s.slots| then s.(slots := s.slots + [BoundSlot(None, x, now)])
    else Store(s.slots[i := BoundSlot(Some(s.slots[i]), x, now)], Disarmed(s.alarms, s.slots[i]), s.nextAlarm)
  }

  function Unbound(s: Store, runtimeId: string): Store {
    var i := Find(s.slots, ByRuntime(runtimeId));
    if i == |s.slots| then s
    else Store(SlotsWithout(s.slots, i), Disarmed(s.alarms, s.slots[i]), s.nextAlarm)
  }

  function StaleSlot(slot: Slot, connectionId: string, now: int, timer: nat): Slot {
    slot.(binding := Stale(connectionId, now, slot.binding.epoch, slot.binding.lastRebindAt),
          push := None, staleSince := Some(now), staleTimer := Some(timer))
  }

  function Closed(s: Store, connectionId: string, now: int, grace: int): Store {
    var i := Find(s.slots, ByConnection(connectionId));
    if i == |s.slots| then s
    else if grace <= 0 then s.(slots := SlotsWithout(s.slots, i))
    else
      var slot := s.slots[i];
      Store(s.slots[i := StaleSlot(slot, connectionId, now, s.nextAlarm)],
            s.alarms[s.nextAlarm := Alarm(slot.key, slot.runtime.runtimeId)], s.nextAlarm + 1)
  }

  function Fired(s: Store, timer: nat): Store
    requires timer in s.alarms
  {
    var alarm := s.alarms[timer];
    var left := s.(alarms := s.alarms - {timer});
    var i := Find(s.slots, ByKey(alarm.key));
    if i == |s.slots| then left
    else
      var slot := s.slots[i].(staleTimer := None, staleSince := None);
      if slot.runtime.runtimeId != alarm.runtimeId || slot.binding.Active? then left.(slots := s.slots[i := slot])
      else left.(slots := SlotsWithout(s.slots, i))
  }

  predicate ActiveAt(s: Store, key: Key) {
    var slot := SlotAt(s.slots, ByKey(key));
    slot.Some? && slot.value.binding.Active?
  }

  // The connection a push to the slot is written to, if any.
  function PushTarget(s: Store, key: Key): Option<string> {
    var slot := SlotAt(s.slots, ByKey(key));
    if slot.Some? then slot.value.push else None
  }

  // ------------------------------------------------------------- the class

  datatype BindResult = Registered(registeredAt: int) | AlreadyRegistered(existing: Runtime)

  // The slot is active and shows what the runtime registered with.
  predicate BoundAs(slot: Slot, x: BindInput, now: int, registeredAt: int) {
    && slot.runtime.runtimeId == x.runtimeId && slot.runtime.defaultAgentId == x.defaultAgentId
    && slot.runtime.pid == x.pid && slot.runtime.registeredAt == registeredAt
    && slot.binding.Active? && slot.binding.connectionId == x.connectionId && slot.binding.boundAt == now
    && (x.push.Some? ==> slot.push == x.push) && slot.staleTimer.None? && slot.staleSince.None?
  }

  class RuntimeBindingStore {
    const gracePeriodMs: int
    var slots: seq<Slot>
    var alarms: map<nat, Alarm>
    var nextAlarm: nat

    function Value(): Store
      reads this
    {
      Store(slots, alarms, nextAlarm)
    }

    constructor (gracePeriodMs: int)
      ensures this.gracePeriodMs == gracePeriodMs && Value() == Store([], map[], 0)
    {
      this.gracePeriodMs := gracePeriodMs;
      slots, alarms, nextAlarm := [], map[], 0;
    }

    method IndexOf(who: Search) returns (i: nat)
      ensures i == Find(slots, who)
    {
      i := 0;
      while i < |slots| && !Is(slots[i], who)
        invariant i <= |slots| && Find(slots, who) == i + Find(slots[i..], who)
      {
        assert slots[i..][1..] == slots[i + 1..];
        i := i + 1;
      }
    }

    method Bind(x: BindInput, now: int) returns (r: BindResult)
      modifies this
      ensures r.AlreadyRegistered? <==> old(Conflict(Value(), x))
      ensures Value() == if r.AlreadyRegistered? then old(Value()) else Bound(old(Value()), x, now)
      ensures r.Registered? ==>
                SlotAt(slots, ByKey(x.key)).Some? && BoundAs(SlotAt(slots, ByKey(x.key)).value, x, now, r.registeredAt)
      ensures r.Registered? ==>
                r.registeredAt == if old(SlotAt(slots, ByKey(x.key))).None? then now
                                  else old(SlotAt(slots, ByKey(x.key))).value.runtime.registeredAt
    {
      var i := IndexOf(ByKey(x.key));
      if i == |slots| {
        slots := slots + [BoundSlot(None, x, now)];
        FindAppended(slots[..i], slots[i], ByKey(x.key));
        return Registered(now);
      }
      var existing := slots[i];
      if existing.runtime.runtimeId != x.runtimeId {
        return AlreadyRegistered(existing.runtime);
      }
      alarms := Disarmed(alarms, existing);
      FindReplaced(slots, i, BoundSlot(Some(existing), x, now), ByKey(x.key));
      slots := slots[i := BoundSlot(Some(existing), x, now)];
      return Registered(existing.runtime.registeredAt);
    }

    method Unbind(runtimeId: string) returns (registered: bool)
      modifies this
      ensures registered <==> old(SlotAt(slots, ByRuntime(runtimeId))).Some?
      ensures Value() == Unbound(old(Value()), runtimeId)
    {
      var i := IndexOf(ByRuntime(runtimeId));
      if i == |slots| { return false; }
      alarms := Disarmed(alarms, slots[i]);
      slots := SlotsWithout(slots, i);
      return true;
    }

    method NotifyConnectionClosed(connectionId: string, now: int) returns (runtimeId: Option<string>)
      modifies this
      ensures Value() == Closed(old(Value()), connectionId, now, gracePeriodMs)
      ensures runtimeId == var slot := old(SlotAt(slots, ByConnection(connectionId)));
                           if slot.Some? then Some(slot.value.runtime.runtimeId) else None
    {
      var i := IndexOf(ByConnection(connectionId));
      if i == |slots| { return None; }
      var slot := slots[i];
      runtimeId := Some(slot.runtime.runtimeId);
      if gracePeriodMs <= 0 {
        slots := SlotsWithout(slots, i);
        return;
      }
      slots := slots[i := StaleSlot(slot, connectionId, now, nextAlarm)];
      alarms := alarms[nextAlarm := Alarm(slot.key, slot.runtime.runtimeId)];
      nextAlarm := nextAlarm + 1;
    }

    // A grace timer goes off.
    method ExpireStaleBinding(timer: nat)
      requires timer in alarms
      modifies this
      ensures Value() == Fired(old(Value()), timer)
    {
      var alarm := alarms[timer];
      alarms := alarms - {timer};
      var i := IndexOf(ByKey(alarm.key));
      if i == |slots| { return; }
      var slot := slots[i].(staleTimer := None, staleSince := None);
      if slot.runtime.runtimeId != alarm.runtimeId || slot.binding.Active? {
        slots := slots[i := slot];
        return;
      }
      slots := SlotsWithout(slots, i);
    }

    method PushTo(key: Key) returns (target: Option<string>)
      ensures target == PushTarget(Value(), key)
    {
      var i := IndexOf(ByKey(key));
      target := if i == |slots| then None else slots[i].push;
    }
  }

  lemma {:induction false} FindAppended(slots: seq<Slot>, slot: Slot, who: Search)
    ensures Find(slots + [slot], who) ==
            if Find(slots, who) < |slots| then Find(slots, who) else if Is(slot, who) then |slots| else |slots| + 1
  {
    FirstIsFind(slots + [slot], who,
                if Find(slots, who) < |slots| then Find(slots, who) else if Is(slot, who) then |slots| else |slots| + 1);
  }

  lemma {:induction false} FirstIsFind(slots: seq<Slot>, who: Search, i: nat)
    requires i <= |slots| && (i < |slots| ==> Is(slots[i], who)) && forall j :: 0 <= j < i ==> !Is(slots[j], who)
    ensures Find(slots, who) == i
  {
    var f := Find(slots, who);
  }

  lemma FindReplaced(slots: seq<Slot>, i: nat, slot: Slot, who: Search)
    requires i < |slots| && Is(slot, who) && i == Find(slots, who)
    ensures Find(slots[i := slot], who) == i
  {
    FirstIsFind(slots[i := slot], who, i);
  }
}
