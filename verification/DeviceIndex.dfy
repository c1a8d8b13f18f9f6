/**
 The automation engine's index from a device to the triggers that watch it.

 Runtimes are objects compared by identity. `runtimes` lists the values of the
 engine's map in insertion order; what a teardown does to a runtime's queue and
 timers is modelled in RunAdmission and HoldTrigger.
 */
module DeviceIndex {
  import opened Option
  import opened Devices

  datatype StateTrigger = StateTrigger(
    deviceId: string,
    attribute: string,
    from: Option<Value>,
    to: Option<Value>)

  datatype Trigger =
    | Time(cron: string)
    | Sun(sunrise: bool)
    | DeviceState(state: StateTrigger)
    | Manual

  datatype Automation = Automation(id: string, enabled: bool, triggers: seq<Trigger>)

  class Runtime {
    const automation: Automation

    constructor (automation: Automation)
      ensures this.automation == automation
    {
      this.automation := automation;
    }
  }

  datatype Entry = Entry(runtime: Runtime, trigger: StateTrigger)

  /** A device as a bag of attributes. */
  type Attributes = map<string, Value>

  /** The triggers among `triggers` that watch the device, as entries of the runtime. */
  function Watching(rt: Runtime, triggers: seq<Trigger>, device: string): seq<Entry> {
    if triggers == [] then []
    else
      var last := triggers[|triggers| - 1];
      Watching(rt, triggers[..|triggers| - 1], device) +
      if last.DeviceState? && last.state.deviceId == device then [Entry(rt, last.state)] else []
  }

  /** The same over several runtimes: what the index should hold for the device. */
  function WatchingAll(runtimes: seq<Runtime>, device: string): seq<Entry> {
    if runtimes == [] then []
    else
      var last := runtimes[|runtimes| - 1];
      WatchingAll(runtimes[..|runtimes| - 1], device) + Watching(last, last.automation.triggers, device)
  }

  function Without(entries: seq<Entry>, rt: Runtime): seq<Entry> {
    if entries == [] then []
    else
      var last := entries[|entries| - 1];
      Without(entries[..|entries| - 1], rt) + if last.runtime != rt then [last] else []
  }

  function Dropped(runtimes: seq<Runtime>, rt: Runtime): seq<Runtime> {
    if runtimes == [] then []
    else
      var last := runtimes[|runtimes| - 1];
      Dropped(runtimes[..|runtimes| - 1], rt) + if last != rt then [last] else []
  }

  /** The trigger's attribute changed, and its `from` and `to` agree. */
  predicate Fires(trigger: StateTrigger, prev: Attributes, current: Attributes) {
    var was, now := Get(prev, trigger.attribute), Get(current, trigger.attribute);
    && was != now
    && (trigger.from.None? || trigger.from == was)
    && (trigger.to.None? || trigger.to == now)
  }

  function Firing(entries: seq<Entry>, prev: Attributes, current: Attributes): seq<Entry> {
    if entries == [] then []
    else
      var last := entries[|entries| - 1];
      Firing(entries[..|entries| - 1], prev, current) + if Fires(last.trigger, prev, current) then [last] else []
  }

  /** Asking every trigger of every registered automation, in order. */
  function Scan(runtimes: seq<Runtime>, device: string, prev: Attributes, current: Attributes): seq<Entry> {
    if runtimes == [] then []
    else
      var last := runtimes[|runtimes| - 1];
      Scan(runtimes[..|runtimes| - 1], device, prev, current) +
      ScanOne(last, last.automation.triggers, device, prev, current)
  }

  function ScanOne(rt: Runtime, triggers: seq<Trigger>, device: string, prev: Attributes, current: Attributes): seq<Entry> {
    if triggers == [] then []
    else
      var last := triggers[|triggers| - 1];
      ScanOne(rt, triggers[..|triggers| - 1], device, prev, current) +
      if last.DeviceState? && last.state.deviceId == device && Fires(last.state, prev, current)
      then [Entry(rt, last.state)] else []
  }

  // ---------------------------------------------------------------------------
  // Distribution over concatenation
  // ---------------------------------------------------------------------------

  lemma {:induction false} WithoutConcat(a: seq<Entry>, b: seq<Entry>, rt: Runtime)
    ensures Without(a + b, rt) == Without(a, rt) + Without(b, rt)
  {
    if b == [] {
      assert a + b == a;
    } else {
      WithoutConcat(a, b[..|b| - 1], rt);
      assert (a + b)[..|a + b| - 1] == a + b[..|b| - 1];
    }
  }

  lemma {:induction false} FiringConcat(a: seq<Entry>, b: seq<Entry>, prev: Attributes, current: Attributes)
    ensures Firing(a + b, prev, current) == Firing(a, prev, current) + Firing(b, prev, current)
  {
    if b == [] {
      assert a + b == a;
    } else {
      FiringConcat(a, b[..|b| - 1], prev, current);
      assert (a + b)[..|a + b| - 1] == a + b[..|b| - 1];
    }
  }

  lemma {:induction false} WithoutOwn(rt: Runtime, triggers: seq<Trigger>, device: string, gone: Runtime)
    ensures Without(Watching(rt, triggers, device), gone) ==
      if rt == gone then [] else Watching(rt, triggers, device)
  {
    if triggers != [] {
      var last := triggers[|triggers| - 1];
      var rest := Watching(rt, triggers[..|triggers| - 1], device);
      WithoutOwn(rt, triggers[..|triggers| - 1], device, gone);
      if last.DeviceState? && last.state.deviceId == device {
        WithoutConcat(rest, [Entry(rt, last.state)], gone);
        assert Without([Entry(rt, last.state)], gone) == if rt == gone then [] else [Entry(rt, last.state)];
      } else {
        assert rest + [] == rest;
      }
    }
  }

  /** Removing a runtime's entries is indexing the other runtimes only. */
  lemma {:induction false} WithoutAll(runtimes: seq<Runtime>, device: string, gone: Runtime)
    ensures Without(WatchingAll(runtimes, device), gone) == WatchingAll(Dropped(runtimes, gone), device)
  {
    if runtimes != [] {
      var init, last := runtimes[..|runtimes| - 1], runtimes[|runtimes| - 1];
      var own := Watching(last, last.automation.triggers, device);
      WithoutAll(init, device, gone);
      WithoutConcat(WatchingAll(init, device), own, gone);
      WithoutOwn(last, last.automation.triggers, device, gone);
      if last != gone {
        assert (Dropped(init, gone) + [last])[..|Dropped(init, gone)|] == Dropped(init, gone);
      } else {
        assert Dropped(init, gone) + [] == Dropped(init, gone);
      }
    }
  }

  lemma {:induction false} ScanOneIsFiring(rt: Runtime, triggers: seq<Trigger>, device: string,
                                           prev: Attributes, current: Attributes)
    ensures ScanOne(rt, triggers, device, prev, current) == Firing(Watching(rt, triggers, device), prev, current)
  {
    if triggers != [] {
      var last := triggers[|triggers| - 1];
      ScanOneIsFiring(rt, triggers[..|triggers| - 1], device, prev, current);
      if last.DeviceState? && last.state.deviceId == device {
        var rest, own := Watching(rt, triggers[..|triggers| - 1], device), Entry(rt, last.state);
        assert (rest + [own])[..|rest|] == rest;
      } else {
        var rest := Watching(rt, triggers[..|triggers| - 1], device);
        assert rest + [] == rest;
        assert ScanOne(rt, triggers[..|triggers| - 1], device, prev, current) + []
            == ScanOne(rt, triggers[..|triggers| - 1], device, prev, current);
      }
    }
  }

  /** The indexed handler fires what a scan of every automation would, in the same order. */
  lemma {:induction false} ScanIsFiring(runtimes: seq<Runtime>, device: string, prev: Attributes, current: Attributes)
    ensures Scan(runtimes, device, prev, current) == Firing(WatchingAll(runtimes, device), prev, current)
  {
    if runtimes != [] {
      var init, last := runtimes[..|runtimes| - 1], runtimes[|runtimes| - 1];
      ScanIsFiring(init, device, prev, current);
      ScanOneIsFiring(last, last.automation.triggers, device, prev, current);
      FiringConcat(WatchingAll(init, device), Watching(last, last.automation.triggers, device), prev, current);
    }
  }

  /**
   The attribute is not what it was, and it was what `from` says, and is what `to` says, wherever they say something.
   */
  ghost predicate IsWanted(trigger: StateTrigger, prev: Attributes, current: Attributes) {
    var a := trigger.attribute;
    && (a in prev || a in current)
    && (a in prev && a in current ==> prev[a] != current[a])
    && (trigger.from.Some? ==> a in prev && prev[a] == trigger.from.value)
    && (trigger.to.Some? ==> a in current && current[a] == trigger.to.value)
  }

  lemma {:induction false} ScanOneIff(rt: Runtime, triggers: seq<Trigger>, device: string,
                                      prev: Attributes, current: Attributes, e: Entry)
    ensures e in ScanOne(rt, triggers, device, prev, current) <==>
              && e.runtime == rt && DeviceState(e.trigger) in triggers
              && e.trigger.deviceId == device && IsWanted(e.trigger, prev, current)
  {
    if triggers != [] {
      var init, last := triggers[..|triggers| - 1], triggers[|triggers| - 1];
      ScanOneIff(rt, init, device, prev, current, e);
      assert triggers == init + [last];
    }
  }

  /** What fires are exactly the triggers of registered automations that watch the device and want the change. */
  lemma {:induction false} ScanIff(runtimes: seq<Runtime>, device: string, prev: Attributes, current: Attributes, e: Entry)
    ensures e in Scan(runtimes, device, prev, current) <==>
              && e.runtime in runtimes && DeviceState(e.trigger) in e.runtime.automation.triggers
              && e.trigger.deviceId == device && IsWanted(e.trigger, prev, current)
  {
    if runtimes != [] {
      var init, last := runtimes[..|runtimes| - 1], runtimes[|runtimes| - 1];
      ScanIff(init, device, prev, current, e);
      ScanOneIff(last, last.automation.triggers, device, prev, current, e);
      assert runtimes == init + [last];
    }
  }

  // ---------------------------------------------------------------------------
  // The engine
  // ---------------------------------------------------------------------------

  function Lookup(index: map<string, seq<Entry>>, device: string): seq<Entry> {
    if device in index then index[device] else []
  }

  ghost predicate OneEach(runtimes: seq<Runtime>) {
    forall i, j :: 0 <= i < j < |runtimes| ==>
      runtimes[i] != runtimes[j] && runtimes[i].automation.id != runtimes[j].automation.id
  }

  /** The index holds exactly the entries of the runtimes, and no empty lists. */
  ghost predicate Indexes(index: map<string, seq<Entry>>, runtimes: seq<Runtime>) {
    && (forall d: string :: Lookup(index, d) == WatchingAll(runtimes, d))
    && forall d | d in index :: index[d] != []
  }

  /** An index under construction: all of `runtimes`, and `triggers` of one more. */
  ghost predicate Covers(index: map<string, seq<Entry>>, runtimes: seq<Runtime>, rt: Runtime, triggers: seq<Trigger>) {
    && (forall d: string :: Lookup(index, d) == WatchingAll(runtimes, d) + Watching(rt, triggers, d))
    && forall d | d in index :: index[d] != []
  }

  lemma CoversStart(index: map<string, seq<Entry>>, runtimes: seq<Runtime>, rt: Runtime)
    requires Indexes(index, runtimes)
    ensures Covers(index, runtimes, rt, [])
  {
  }

  lemma CoversEnd(index: map<string, seq<Entry>>, runtimes: seq<Runtime>, rt: Runtime)
    requires Covers(index, runtimes, rt, rt.automation.triggers)
    ensures Indexes(index, runtimes + [rt])
  {
    assert (runtimes + [rt])[..|runtimes|] == runtimes;
  }

  lemma WatchingNext(rt: Runtime, triggers: seq<Trigger>, t: Trigger, d: string)
    ensures Watching(rt, triggers + [t], d) == Watching(rt, triggers, d) +
      if t.DeviceState? && t.state.deviceId == d then [Entry(rt, t.state)] else []
  {
    assert (triggers + [t])[..|triggers|] == triggers;
  }

  lemma CoversNext(index: map<string, seq<Entry>>, runtimes: seq<Runtime>, rt: Runtime, triggers: seq<Trigger>, t: Trigger)
    requires Covers(index, runtimes, rt, triggers)
    ensures t.DeviceState? ==>
      Covers(index[t.state.deviceId := Lookup(index, t.state.deviceId) + [Entry(rt, t.state)]], runtimes, rt, triggers + [t])
    ensures !t.DeviceState? ==> Covers(index, runtimes, rt, triggers + [t])
  {
    hide Watching, WatchingAll;
    forall d: string
      ensures Watching(rt, triggers + [t], d) == Watching(rt, triggers, d) +
        if t.DeviceState? && t.state.deviceId == d then [Entry(rt, t.state)] else []
    {
      WatchingNext(rt, triggers, t, d);
    }
    forall d: string
      ensures WatchingAll(runtimes, d) + Watching(rt, triggers, d) + []
           == WatchingAll(runtimes, d) + (Watching(rt, triggers, d) + [])
    {
    }
  }

  /** An index being cleared of `rt`: done for the devices that `triggers` watch. */
  ghost predicate Cleared(index: map<string, seq<Entry>>, was: map<string, seq<Entry>>, rt: Runtime, triggers: seq<Trigger>) {
    && (forall d: string :: Lookup(index, d) ==
          if Watching(rt, triggers, d) != [] then Without(Lookup(was, d), rt) else Lookup(was, d))
    && forall d | d in index :: index[d] != []
  }

  lemma ClearedStart(index: map<string, seq<Entry>>, rt: Runtime)
    requires forall d | d in index :: index[d] != []
    ensures Cleared(index, index, rt, [])
  {
  }

  lemma {:induction false} WithoutTwice(entries: seq<Entry>, rt: Runtime)
    ensures Without(Without(entries, rt), rt) == Without(entries, rt)
  {
    if entries != [] {
      var init, last := entries[..|entries| - 1], entries[|entries| - 1];
      WithoutTwice(init, rt);
      if last.runtime != rt {
        assert (Without(init, rt) + [last])[..|Without(init, rt)|] == Without(init, rt);
      } else {
        assert Without(init, rt) + [] == Without(init, rt);
      }
    }
  }

  function SetOrDelete(index: map<string, seq<Entry>>, d: string, entries: seq<Entry>): map<string, seq<Entry>> {
    if entries == [] then map k | k in index && k != d :: index[k] else index[d := entries]
  }

  lemma LookupAfter(index: map<string, seq<Entry>>, k: string, entries: seq<Entry>, d: string)
    ensures Lookup(SetOrDelete(index, k, entries), d) == if d == k then entries else Lookup(index, d)
  {
  }

  lemma ClearedNext(index: map<string, seq<Entry>>, was: map<string, seq<Entry>>, rt: Runtime,
                    triggers: seq<Trigger>, t: Trigger)
    requires Cleared(index, was, rt, triggers) && t.DeviceState?
    ensures Cleared(SetOrDelete(index, t.state.deviceId, Without(Lookup(index, t.state.deviceId), rt)),
                    was, rt, triggers + [t])
  {
    hide Watching, Without;
    var k := t.state.deviceId;
    var next := SetOrDelete(index, k, Without(Lookup(index, k), rt));
    WithoutTwice(Lookup(was, k), rt);
    forall d: string
      ensures Lookup(next, d) ==
        if Watching(rt, triggers + [t], d) != [] then Without(Lookup(was, d), rt) else Lookup(was, d)
    {
      LookupAfter(index, k, Without(Lookup(index, k), rt), d);
      WatchingNext(rt, triggers, t, d);
    }
  }

  lemma ClearedSkip(index: map<string, seq<Entry>>, was: map<string, seq<Entry>>, rt: Runtime,
                    triggers: seq<Trigger>, t: Trigger)
    requires Cleared(index, was, rt, triggers) && !t.DeviceState?
    ensures Cleared(index, was, rt, triggers + [t])
  {
    hide Watching, Without;
    forall d: string ensures Watching(rt, triggers + [t], d) == Watching(rt, triggers, d) {
      WatchingNext(rt, triggers, t, d);
    }
  }

  lemma ClearedEnd(index: map<string, seq<Entry>>, was: map<string, seq<Entry>>, runtimes: seq<Runtime>, rt: Runtime)
    requires Indexes(was, runtimes) && Cleared(index, was, rt, rt.automation.triggers)
    ensures Indexes(index, Dropped(runtimes, rt))
  {
    forall d: string ensures Lookup(index, d) == WatchingAll(Dropped(runtimes, rt), d) {
      WithoutAll(runtimes, d, rt);
      if Watching(rt, rt.automation.triggers, d) == [] {
        NothingToDrop(runtimes, d, rt);
      }
    }
  }

  lemma {:induction false} NothingToDrop(runtimes: seq<Runtime>, d: string, rt: Runtime)
    requires Watching(rt, rt.automation.triggers, d) == []
    ensures WatchingAll(Dropped(runtimes, rt), d) == WatchingAll(runtimes, d)
  {
    if runtimes != [] {
      var init, last := runtimes[..|runtimes| - 1], runtimes[|runtimes| - 1];
      NothingToDrop(init, d, rt);
      if last != rt {
        assert (Dropped(init, rt) + [last])[..|Dropped(init, rt)|] == Dropped(init, rt);
      } else {
        assert Dropped(init, rt) + [] == Dropped(init, rt);
      }
    }
  }

  lemma {:induction false} DroppedKeeps(runtimes: seq<Runtime>, rt: Runtime)
    requires OneEach(runtimes)
    ensures OneEach(Dropped(runtimes, rt))
    ensures forall k <- Dropped(runtimes, rt) :: k in runtimes && k != rt
    ensures forall k <- runtimes | k != rt :: k in Dropped(runtimes, rt)
  {
    if runtimes != [] {
      var init, last := runtimes[..|runtimes| - 1], runtimes[|runtimes| - 1];
      DroppedKeeps(init, rt);
      var kept := Dropped(init, rt);
      forall i | 0 <= i < |kept| ensures kept[i] != last && kept[i].automation.id != last.automation.id {
        assert kept[i] in kept && kept[i] in init;
        var j :| 0 <= j < |init| && init[j] == kept[i];
        assert runtimes[j] == init[j];
      }
    }
  }

  ghost predicate Registered(runtimes: seq<Runtime>, a: Automation) {
    exists rt <- runtimes :: rt.automation == a
  }

  class AutomationEngine {
    var runtimes: seq<Runtime>
    var deviceIndex: map<string, seq<Entry>>

    ghost predicate Valid()
      reads this
    {
      OneEach(runtimes) && Indexes(deviceIndex, runtimes)
    }

    constructor ()
      ensures Valid() && runtimes == []
    {
      runtimes, deviceIndex := [], map[];
    }

    method AddToDeviceIndex(rt: Runtime, trigger: StateTrigger)
      modifies this`deviceIndex
      ensures deviceIndex == old(deviceIndex)[trigger.deviceId :=
        Lookup(old(deviceIndex), trigger.deviceId) + [Entry(rt, trigger)]]
    {
      var entry := Entry(rt, trigger);
      if trigger.deviceId in deviceIndex {
        deviceIndex := deviceIndex[trigger.deviceId := deviceIndex[trigger.deviceId] + [entry]];
      } else {
        assert [] + [entry] == [entry];
        deviceIndex := deviceIndex[trigger.deviceId := [entry]];
      }
    }

    method Register(automation: Automation)
      requires Valid() && forall rt <- runtimes :: rt.automation.id != automation.id
      modifies this
      ensures Valid() && |runtimes| == |old(runtimes)| + 1
      ensures runtimes[..|old(runtimes)|] == old(runtimes)
      ensures runtimes[|old(runtimes)|].automation == automation
    {
      var rt := new Runtime(automation);
      CoversStart(deviceIndex, runtimes, rt);
      var triggers := automation.triggers;
      for i := 0 to |triggers|
        invariant runtimes == old(runtimes)
        invariant Covers(deviceIndex, runtimes, rt, triggers[..i])
      {
        assert triggers[..i + 1] == triggers[..i] + [triggers[i]];
        CoversNext(deviceIndex, runtimes, rt, triggers[..i], triggers[i]);
        if triggers[i].DeviceState? {
          AddToDeviceIndex(rt, triggers[i].state);
        }
      }
      assert triggers[..|triggers|] == triggers;
      CoversEnd(deviceIndex, runtimes, rt);
      runtimes := runtimes + [rt];
    }

    method RemoveFromDeviceIndex(rt: Runtime)
      requires Valid()
      modifies this`deviceIndex
      ensures Indexes(deviceIndex, Dropped(runtimes, rt))
    {
      hide Watching, Without;
      ghost var was := deviceIndex;
      ClearedStart(was, rt);
      var triggers := rt.automation.triggers;
      for i := 0 to |triggers|
        invariant Cleared(deviceIndex, was, rt, triggers[..i])
      {
        assert triggers[..i + 1] == triggers[..i] + [triggers[i]];
        if !triggers[i].DeviceState? {
          ClearedSkip(deviceIndex, was, rt, triggers[..i], triggers[i]);
          continue;
        }
        ClearedNext(deviceIndex, was, rt, triggers[..i], triggers[i]);
        var d := triggers[i].state.deviceId;
        RemoveFor(rt, d);
      }
      assert triggers[..|triggers|] == triggers;
      ClearedEnd(deviceIndex, was, runtimes, rt);
    }

    method RemoveFor(rt: Runtime, d: string)
      modifies this`deviceIndex
      ensures deviceIndex == SetOrDelete(old(deviceIndex), d, Without(Lookup(old(deviceIndex), d), rt))
    {
      if d !in deviceIndex {
        return;
      }
      var filtered := Filter(deviceIndex[d], rt);
      if filtered == [] {
        deviceIndex := map k | k in deviceIndex && k != d :: deviceIndex[k];
      } else {
        deviceIndex := deviceIndex[d := filtered];
      }
    }

    method Filter(entries: seq<Entry>, rt: Runtime) returns (kept: seq<Entry>)
      ensures kept == Without(entries, rt)
    {
      kept := [];
      for i := 0 to |entries|
        invariant kept == Without(entries[..i], rt)
      {
        assert entries[..i + 1][..i] == entries[..i];
        if entries[i].runtime != rt {
          kept := kept + [entries[i]];
        }
      }
      assert entries[..|entries|] == entries;
    }

    method Find(id: string) returns (found: Option<Runtime>)
      ensures found.None? ==> forall rt <- runtimes :: rt.automation.id != id
      ensures found.Some? ==> found.value in runtimes && found.value.automation.id == id
    {
      for i := 0 to |runtimes|
        invariant forall j | 0 <= j < i :: runtimes[j].automation.id != id
      {
        if runtimes[i].automation.id == id {
          return Some(runtimes[i]);
        }
      }
      return None;
    }

    /** Reloading one automation; `row` is what the database holds for it now. */
    method Reload(id: string, row: Option<Automation>)
      requires Valid() && (row.Some? ==> row.value.id == id)
      modifies this
      ensures Valid()
      ensures (exists rt <- runtimes :: rt.automation.id == id) <==> row.Some? && row.value.enabled
      ensures forall rt <- runtimes :: rt.automation.id == id ==> Some(rt.automation) == row
      ensures forall rt <- old(runtimes) | rt.automation.id != id :: rt in runtimes
    {
      var existing := Find(id);
      if existing.Some? {
        RemoveFromDeviceIndex(existing.value);
        DroppedKeeps(runtimes, existing.value);
        runtimes := Dropped(runtimes, existing.value);
      }
      label removed:
      assert forall rt <- runtimes :: rt.automation.id != id;
      if row.Some? && row.value.enabled {
        Register(row.value);
        assert forall rt <- old@removed(runtimes) :: rt in runtimes[..|old@removed(runtimes)|];
        assert forall rt <- runtimes ::
          rt in runtimes[..|old@removed(runtimes)|] || rt == runtimes[|old@removed(runtimes)|];
      }
    }

    method Clear()
      modifies this
      ensures Valid() && runtimes == []
    {
      runtimes, deviceIndex := [], map[];
    }

    /** Reloading everything; `rows` is what the database holds, one row for each automation. */
    method ReloadAll(rows: seq<Automation>)
      requires forall i, j | 0 <= i < j < |rows| :: rows[i].id != rows[j].id
      modifies this
      ensures Valid()
      ensures forall a | a in rows && a.enabled :: Registered(runtimes, a)
      ensures forall rt <- runtimes :: rt.automation in rows && rt.automation.enabled
    {
      Clear();
      for i := 0 to |rows|
        invariant Valid()
        invariant forall rt <- runtimes :: rt.automation in rows[..i] && rt.automation.enabled
        invariant forall k | 0 <= k < i && rows[k].enabled :: Registered(runtimes, rows[k])
      {
        assert rows[..i + 1] == rows[..i] + [rows[i]];
        if rows[i].enabled {
          ghost var was := runtimes;
          Register(rows[i]);
          assert runtimes == was + [runtimes[|was|]];
        }
      }
      assert rows[..|rows|] == rows;
    }

    /** The entries whose triggers fire on a change of a device from `prev` to `current`. */
    method HandleDeviceUpdate(device: string, prev: Option<Attributes>, current: Attributes) returns (fired: seq<Entry>)
      requires Valid()
      ensures fired == if prev.None? then [] else Scan(runtimes, device, prev.value, current)
    {
      if prev.None? {
        return [];
      }
      ScanIsFiring(runtimes, device, prev.value, current);
      assert WatchingAll(runtimes, device) == Lookup(deviceIndex, device);
      if device !in deviceIndex {
        return [];
      }
      fired := FireEach(deviceIndex[device], prev.value, current);
    }

    method FireEach(entries: seq<Entry>, prev: Attributes, current: Attributes) returns (fired: seq<Entry>)
      ensures fired == Firing(entries, prev, current)
    {
      fired := [];
      for i := 0 to |entries|
        invariant fired == Firing(entries[..i], prev, current)
      {
        assert entries[..i + 1][..i] == entries[..i];
        var trigger := entries[i].trigger;
        var was, now := Get(prev, trigger.attribute), Get(current, trigger.attribute);
        if was == now {
          continue;
        }
        if trigger.from.Some? && trigger.from != was {
          continue;
        }
        if trigger.to.Some? && trigger.to != now {
          continue;
        }
        fired := fired + [entries[i]];
      }
      assert entries[..|entries|] == entries;
    }
  }
}
