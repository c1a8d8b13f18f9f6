/**
 The device store with the group and combine helpers listening on it. An update
 that changes a device is announced synchronously, so a helper recomputes, and
 updates the store again, inside the announcement.
 */
module HelperStore {
  import opened Option
  import opened Devices

  datatype Helper =
    | Group(name: string, members: seq<string>, binary: bool, aggregation: Option<Method>)
    | Combine(name: string, members: seq<string>, how: Method)

  function DeviceId(h: Helper): string {
    "helpers." + h.name
  }

  /** The `on` flags of the members that have one. */
  function Flags(members: seq<string>, devices: map<string, Device>): seq<bool> {
    if members == [] then []
    else
      var last := members[|members| - 1];
      Flags(members[..|members| - 1], devices) +
      if last in devices && devices[last].on.Some? then [devices[last].on.value] else []
  }

  /** The numbers of the members that have one. */
  function Numbers(members: seq<string>, devices: map<string, Device>, parse: ParseFloat): seq<real> {
    if members == [] then []
    else
      var last := members[|members| - 1];
      Numbers(members[..|members| - 1], devices, parse) +
      if last in devices && ExtractNumeric(devices[last], parse).Some?
      then [ExtractNumeric(devices[last], parse).value] else []
  }

  function Shown(number: Option<real>): Value {
    if number.Some? then Num(number.value) else Null
  }

  /** What a helper shows when it is computed directly from a store. */
  function Result(h: Helper, devices: map<string, Device>, parse: ParseFloat, sqrt: real -> real): Value {
    match h
    case Group(_, members, true, aggregation) =>
      var flags := Flags(members, devices);
      Flag(if aggregation == Some(Min) then false !in flags else true in flags)
    case Group(_, members, false, aggregation) =>
      Shown(Aggregate(Numbers(members, devices, parse),
                      if aggregation.Some? then aggregation.value else Mean, sqrt))
    case Combine(_, members, how) =>
      Shown(Aggregate(Numbers(members, devices, parse), how, sqrt))
  }

  /** The device has no `on`, or there is none. */
  predicate Silent(m: string, devices: map<string, Device>) {
    m in devices ==> devices[m].on.None?
  }

  ghost predicate Shows(members: seq<string>, devices: map<string, Device>, on: bool) {
    exists m <- members :: m in devices && devices[m].on == Some(on)
  }

  lemma {:induction false} FlagsAre(members: seq<string>, devices: map<string, Device>, on: bool)
    ensures on in Flags(members, devices) <==> Shows(members, devices, on)
  {
    if members != [] {
      var init, last := members[..|members| - 1], members[|members| - 1];
      FlagsAre(init, devices, on);
      assert members == init + [last];
    }
  }

  /** A binary group is on when no member shows off, or when some member shows on; a silent member plays no part. */
  lemma BinaryMeaning(h: Helper, devices: map<string, Device>, parse: ParseFloat, sqrt: real -> real)
    requires h.Group? && h.binary
    ensures Result(h, devices, parse, sqrt) ==
            Flag(if h.aggregation == Some(Min) then !Shows(h.members, devices, false) else Shows(h.members, devices, true))
  {
    FlagsAre(h.members, devices, true);
    FlagsAre(h.members, devices, false);
  }

  /** A group has no flag to go by if and only if all of its members are silent. */
  lemma NoFlagsIff(members: seq<string>, devices: map<string, Device>)
    ensures Flags(members, devices) == [] <==> forall m <- members :: Silent(m, devices)
  {
    FlagsAre(members, devices, true);
    FlagsAre(members, devices, false);
    var flags := Flags(members, devices);
    if flags != [] {
      assert flags[0] in flags && (flags[0] == true || flags[0] == false);
      assert Shows(members, devices, flags[0]);
      var m :| m in members && m in devices && devices[m].on == Some(flags[0]);
      assert !Silent(m, devices);
    }
    forall m | m in members && !Silent(m, devices) ensures flags != [] {
      var on := devices[m].on.value;
      assert Shows(members, devices, on) && (on == true || on == false);
    }
  }

  /** A helper reads the same of both devices. */
  predicate SameReading(a: Device, b: Device, parse: ParseFloat) {
    a.on == b.on && ExtractNumeric(a, parse) == ExtractNumeric(b, parse)
  }

  ghost predicate Alike(members: seq<string>, a: map<string, Device>, b: map<string, Device>, parse: ParseFloat) {
    forall m <- members :: (m in a <==> m in b) && (m in a ==> SameReading(a[m], b[m], parse))
  }

  lemma {:induction false} ReadingsAlike(members: seq<string>, a: map<string, Device>, b: map<string, Device>,
                                         parse: ParseFloat)
    requires Alike(members, a, b, parse)
    ensures Flags(members, a) == Flags(members, b)
    ensures Numbers(members, a, parse) == Numbers(members, b, parse)
  {
    if members != [] {
      ReadingsAlike(members[..|members| - 1], a, b, parse);
      assert members[|members| - 1] in members;
    }
  }

  /** Two stores that read the same on a helper's members give it the same value. */
  lemma ResultAlike(h: Helper, a: map<string, Device>, b: map<string, Device>, parse: ParseFloat, sqrt: real -> real)
    requires Alike(h.members, a, b, parse)
    ensures Result(h, a, parse, sqrt) == Result(h, b, parse, sqrt)
  {
    ReadingsAlike(h.members, a, b, parse);
  }

  // ---------------------------------------------------------------------------
  // Acyclic member lists
  // ---------------------------------------------------------------------------

  predicate Feeds(helpers: seq<Helper>, from: string, to: string) {
    exists h <- helpers :: DeviceId(h) == to && from in h.members
  }

  /** `p` goes from member to helper, one step at a time. */
  ghost predicate IsPath(helpers: seq<Helper>, p: seq<string>) {
    p != [] && forall i :: 0 <= i < |p| - 1 ==> Feeds(helpers, p[i], p[i + 1])
  }

  ghost predicate Leads(helpers: seq<Helper>, from: string, to: string) {
    exists p: seq<string> :: IsPath(helpers, p) && p[0] == from && p[|p| - 1] == to
  }

  /** No helper is, through any chain of members, a member of itself. */
  ghost predicate Acyclic(helpers: seq<Helper>) {
    forall p: seq<string> :: IsPath(helpers, p) && |p| > 1 ==> p[0] != p[|p| - 1]
  }

  function Ids(helpers: seq<Helper>): set<string> {
    set h <- helpers :: DeviceId(h)
  }

  lemma IdsHave(helpers: seq<Helper>)
    ensures forall h <- helpers :: DeviceId(h) in Ids(helpers)
  {
  }

  /** The helpers that `id` depends on, itself included. */
  ghost function Below(helpers: seq<Helper>, id: string): set<string> {
    set x | x in Ids(helpers) && Leads(helpers, x, id)
  }

  ghost function Height(helpers: seq<Helper>, id: string): (n: nat)
    ensures n <= |Ids(helpers)|
  {
    SubsetSmaller(Below(helpers, id), Ids(helpers));
    |Below(helpers, id)|
  }

  lemma SubsetSmaller<T>(a: set<T>, b: set<T>)
    requires a <= b
    ensures |a| <= |b|
    ensures a != b ==> |a| < |b|
  {
    assert b == a + (b - a);
  }

  lemma PathExtends(helpers: seq<Helper>, p: seq<string>, to: string)
    requires IsPath(helpers, p) && Feeds(helpers, p[|p| - 1], to)
    ensures IsPath(helpers, p + [to])
  {
    var q := p + [to];
    forall i | 0 <= i < |q| - 1 ensures Feeds(helpers, q[i], q[i + 1]) {
      if i < |p| - 1 {
        assert q[i] == p[i] && q[i + 1] == p[i + 1];
      }
    }
  }

  lemma NoWayBack(helpers: seq<Helper>, p: seq<string>, h: Helper)
    requires Acyclic(helpers) && h in helpers && IsPath(helpers, p) && p[|p| - 1] in h.members
    ensures p[0] != DeviceId(h)
  {
    var q := p + [DeviceId(h)];
    assert Feeds(helpers, p[|p| - 1], DeviceId(h));
    PathExtends(helpers, p, DeviceId(h));
    assert |q| > 1 && q[0] == p[0] && q[|q| - 1] == DeviceId(h);
  }

  /** A helper stands higher than each of its members: this is what bounds a cascade. */
  lemma HigherThanMembers(helpers: seq<Helper>, h: Helper, m: string)
    requires Acyclic(helpers) && h in helpers && m in h.members
    ensures Height(helpers, m) < Height(helpers, DeviceId(h)) <= |Ids(helpers)|
  {
    var top := DeviceId(h);
    assert Feeds(helpers, m, top);
    forall x | x in Below(helpers, m) ensures x in Below(helpers, top) {
      var p :| IsPath(helpers, p) && p[0] == x && p[|p| - 1] == m;
      PathExtends(helpers, p, top);
      assert (p + [top])[0] == x && (p + [top])[|p + [top]| - 1] == top;
    }
    assert IsPath(helpers, [top]);
    assert Leads(helpers, top, top) by { assert [top][0] == top && [top][|[top]| - 1] == top; }
    assert top in Below(helpers, top);
    assert top !in Below(helpers, m) by {
      forall p | IsPath(helpers, p) && p[|p| - 1] == m ensures p[0] != top {
        NoWayBack(helpers, p, h);
      }
    }
    SubsetSmaller(Below(helpers, m), Below(helpers, top));
    SubsetSmaller(Below(helpers, top), Ids(helpers));
  }

  // ---------------------------------------------------------------------------
  // The store
  // ---------------------------------------------------------------------------

  ghost predicate Distinct(helpers: seq<Helper>) {
    forall i, j :: 0 <= i < j < |helpers| ==> DeviceId(helpers[i]) != DeviceId(helpers[j])
  }

  /** The helper has a device, and it shows what the helper's members say now. */
  predicate UpToDate(h: Helper, devices: map<string, Device>, parse: ParseFloat, sqrt: real -> real) {
    && DeviceId(h) in devices
    && devices[DeviceId(h)].value == Some(Result(h, devices, parse, sqrt))
  }

  /** Apart from `id` itself, only helpers standing higher than `id` differ. */
  ghost predicate Touched(helpers: seq<Helper>, id: string, before: map<string, Device>, after: map<string, Device>) {
    && after.Keys == before.Keys + {id}
    && forall x | x in before && x != id && (x !in Ids(helpers) || Height(helpers, x) <= Height(helpers, id)) ::
         after[x] == before[x]
  }

  /** Only helpers standing higher than `id` differ. */
  ghost predicate Untouched(helpers: seq<Helper>, id: string, before: map<string, Device>, after: map<string, Device>) {
    && after.Keys == before.Keys
    && forall x | x in before && (x !in Ids(helpers) || Height(helpers, x) <= Height(helpers, id)) ::
         after[x] == before[x]
  }

  lemma UntouchedYet(helpers: seq<Helper>, id: string, devices: map<string, Device>)
    ensures Untouched(helpers, id, devices, devices)
  {
  }

  lemma UntouchedThenTouched(helpers: seq<Helper>, id: string, h: Helper,
                             before: map<string, Device>, mid: map<string, Device>, after: map<string, Device>)
    requires h in helpers && DeviceId(h) in mid && Height(helpers, id) < Height(helpers, DeviceId(h))
    requires Untouched(helpers, id, before, mid) && Touched(helpers, DeviceId(h), mid, after)
    ensures Untouched(helpers, id, before, after)
  {
  }

  /** What stands no higher than a helper, the helper aside, leaves its members as they were. */
  lemma MembersKept(helpers: seq<Helper>, h: Helper, before: map<string, Device>, after: map<string, Device>,
                    parse: ParseFloat)
    requires Acyclic(helpers) && h in helpers && Touched(helpers, DeviceId(h), before, after)
    ensures Alike(h.members, before, after, parse)
  {
    forall m | m in h.members
      ensures (m in before <==> m in after) && (m in before ==> SameReading(before[m], after[m], parse))
    {
      HigherThanMembers(helpers, h, m);
    }
  }

  /** No helper that showed its aggregate has stopped showing it. */
  ghost predicate StayUpToDate(helpers: seq<Helper>, before: map<string, Device>, after: map<string, Device>,
                               parse: ParseFloat, sqrt: real -> real) {
    forall h <- helpers | UpToDate(h, before, parse, sqrt) :: UpToDate(h, after, parse, sqrt)
  }

  /** A helper's own device has nothing to read but its value. */
  predicate Plain(d: Device) {
    d.on.None? && d.temperature.None? && d.brightness.None? && d.powerW.None? && d.batteryLevel.None?
  }

  ghost predicate SameOutside(helpers: seq<Helper>, a: map<string, Device>, b: map<string, Device>, parse: ParseFloat) {
    && (forall x | x !in Ids(helpers) :: (x in a <==> x in b) && (x in a ==> SameReading(a[x], b[x], parse)))
    && forall h <- helpers :: DeviceId(h) in a && DeviceId(h) in b && Plain(a[DeviceId(h)]) && Plain(b[DeviceId(h)])
  }

  /**
   The values of all helpers, nested to any depth, are determined by the other
   devices: however a cascade runs, it can only end in one result.
   */
  lemma {:induction false} ValueDetermined(helpers: seq<Helper>, h: Helper, a: map<string, Device>,
                                           b: map<string, Device>, parse: ParseFloat, sqrt: real -> real)
    requires Acyclic(helpers) && h in helpers && SameOutside(helpers, a, b, parse)
    requires forall k <- helpers :: UpToDate(k, a, parse, sqrt) && UpToDate(k, b, parse, sqrt)
    ensures a[DeviceId(h)].value == b[DeviceId(h)].value
    decreases Height(helpers, DeviceId(h))
  {
    forall m | m in h.members
      ensures (m in a <==> m in b) && (m in a ==> SameReading(a[m], b[m], parse))
    {
      if m in Ids(helpers) {
        var k :| k in helpers && DeviceId(k) == m;
        HigherThanMembers(helpers, h, m);
        ValueDetermined(helpers, k, a, b, parse, sqrt);
      }
    }
    ResultAlike(h, a, b, parse, sqrt);
  }

  /** Storing a device only disturbs the helpers that list it, and those only if the device changed. */
  lemma StoreKeeps(helpers: seq<Helper>, before: map<string, Device>, d: Device, parse: ParseFloat, sqrt: real -> real)
    ensures forall h <- helpers |
      && DeviceId(h) != d.id && UpToDate(h, before, parse, sqrt)
      && (d.id !in h.members || (d.id in before && SameState(before[d.id], d))) ::
      UpToDate(h, before[d.id := d], parse, sqrt)
  {
    forall h | h in helpers && DeviceId(h) != d.id && UpToDate(h, before, parse, sqrt)
        && (d.id !in h.members || (d.id in before && SameState(before[d.id], d)))
      ensures UpToDate(h, before[d.id := d], parse, sqrt)
    {
      ResultAlike(h, before, before[d.id := d], parse, sqrt);
    }
  }

  /**
   A binary group whose members are all group and combine helpers never changes: such
   helpers have a `value` and no `on`, so any-on is always off and all-on always on.
   */
  lemma GroupOfHelpers(store: StateStore, h: Helper)
    requires store.Wired() && h.Group? && h.binary && forall m <- h.members :: m in Ids(store.listeners)
    ensures Result(h, store.devices, store.parse, store.sqrt) == Flag(h.aggregation == Some(Min))
  {
    forall m | m in h.members ensures Silent(m, store.devices) {
      var k :| k in store.listeners && DeviceId(k) == m;
    }
    NoFlagsIff(h.members, store.devices);
  }

  lemma MergeKeepsOn(prev: Option<Device>, device: Device)
    ensures Merge(prev, device).on == device.on
    ensures Merge(prev, device).id == device.id && Merge(prev, device).value == device.value
  {
  }

  class StateStore {
    var devices: map<string, Device>
    var listeners: seq<Helper>     // handlers of device_updated, in subscription order
    const parse: ParseFloat
    const sqrt: real -> real

    constructor (parse: ParseFloat, sqrt: real -> real)
      ensures devices == map[] && listeners == [] && this.parse == parse && this.sqrt == sqrt
    {
      devices, listeners := map[], [];
      this.parse, this.sqrt := parse, sqrt;
    }

    /** Listeners are acyclic, and have devices of their own in the store, which carry no `on`. */
    ghost predicate Wired()
      reads this
    {
      && Acyclic(listeners)
      && Distinct(listeners)
      && (forall h <- listeners :: DeviceId(h) in devices && devices[DeviceId(h)].on.None?)
      && forall x | x in devices :: devices[x].id == x
    }

    ghost predicate Fresh(h: Helper)
      reads this
    {
      UpToDate(h, devices, parse, sqrt)
    }

    /** Every helper shows the aggregate of the current store. */
    ghost predicate Consistent()
      reads this
    {
      Wired() && forall h <- listeners :: Fresh(h)
    }

    method Now() returns (t: int) {
      t := *;
    }

    /** Stores the device and, if it changed, lets every helper that lists it recompute. */
    method Update(device: Device)
      requires Wired() && (device.id in Ids(listeners) ==> device.on.None?)
      modifies this`devices
      ensures Wired()
      ensures Touched(listeners, device.id, old(devices), devices)
      ensures devices[device.id] == Merge(Get(old(devices), device.id), device)
      ensures forall h <- listeners | DeviceId(h) != device.id && old(Fresh(h)) :: Fresh(h)
      ensures forall h <- listeners | DeviceId(h) == device.id &&
        device.value == Some(Result(h, old(devices), parse, sqrt)) :: Fresh(h)
      decreases |Ids(listeners)| - Height(listeners, device.id), 1
    {
      hide Height, Acyclic, Result, Merge, SameState;
      ghost var before := devices;
      MergeKeepsOn(Get(devices, device.id), device);
      var prev := Get(devices, device.id);
      var merged := Merge(prev, device);
      devices := devices[device.id := merged];
      StoreKeeps(listeners, before, merged, parse, sqrt);
      if prev.None? || !SameState(prev.value, merged) {
        Announce(merged);
      }
      forall h | h in listeners && DeviceId(h) == device.id && device.value == Some(Result(h, before, parse, sqrt))
        ensures Fresh(h)
      {
        MembersKept(listeners, h, before, devices, parse);
        ResultAlike(h, before, devices, parse, sqrt);
      }
    }

    method Announce(current: Device)
      requires Wired() && current.id in devices
      modifies this`devices
      ensures Wired() && Untouched(listeners, current.id, old(devices), devices)
      ensures StayUpToDate(listeners, old(devices), devices, parse, sqrt)
      ensures forall h <- listeners | current.id in h.members :: Fresh(h)
      decreases |Ids(listeners)| - Height(listeners, current.id), 0
    {
      hide UpToDate, Untouched, Touched, Height, Acyclic, Result;
      ghost var before := devices;
      UntouchedYet(listeners, current.id, devices);
      for k := 0 to |listeners|
        invariant Wired() && Untouched(listeners, current.id, before, devices)
        invariant StayUpToDate(listeners, before, devices, parse, sqrt)
        invariant forall j | 0 <= j < k && current.id in listeners[j].members :: Fresh(listeners[j])
      {
        var h := listeners[k];
        if current.id in h.members {
          ghost var mid := devices;
          HigherThanMembers(listeners, h, current.id);
          Recompute(h);
          UntouchedThenTouched(listeners, current.id, h, before, mid, devices);
        }
      }
    }

    method Recompute(h: Helper)
      requires Wired() && h in listeners
      modifies this`devices
      ensures Wired() && Touched(listeners, DeviceId(h), old(devices), devices)
      ensures StayUpToDate(listeners, old(devices), devices, parse, sqrt) && Fresh(h)
      decreases |Ids(listeners)| - Height(listeners, DeviceId(h)), 2
    {
      var result := Compute(h);
      var current := devices[DeviceId(h)];
      var now := Now();
      assert forall k <- listeners | DeviceId(k) == DeviceId(h) :: k == h;
      Update(current.(value := Some(result), lastUpdated := now));
    }

    /** An integration reports one of its devices: once the call returns, every helper agrees with the store. */
    method Report(device: Device)
      requires Consistent() && device.id !in Ids(listeners)
      modifies this`devices
      ensures Consistent()
      ensures devices.Keys == old(devices.Keys) + {device.id}
      ensures devices[device.id] == Merge(Get(old(devices), device.id), device)
      ensures forall x | x in old(devices) && x != device.id && x !in Ids(listeners) :: devices[x] == old(devices[x])
    {
      hide UpToDate, Height, Acyclic, Merge;
      Update(device);
    }

    method Subscribe(h: Helper)
      requires Wired() && Acyclic(listeners + [h]) && DeviceId(h) !in Ids(listeners)
      requires DeviceId(h) in devices && devices[DeviceId(h)].on.None?
      modifies this`listeners
      ensures Wired() && listeners == old(listeners) + [h]
    {
      hide Acyclic;
      listeners := listeners + [h];
    }

    /** A helper begins: its device first, then its subscription, then its first value. */
    method StartHelper(h: Helper, unnamed: Device)
      requires Consistent()
      requires Acyclic(listeners + [h]) && DeviceId(h) !in Ids(listeners)
      requires unnamed.id == DeviceId(h) && unnamed.value == Some(Null) && unnamed.on.None?
      modifies this`devices, this`listeners
      ensures Consistent() && listeners == old(listeners) + [h]
    {
      hide UpToDate, Height, Acyclic, Merge, Ids;
      Update(unnamed);
      MergeKeepsOn(Get(old(devices), unnamed.id), unnamed);
      assert DeviceId(h) in devices;
      assert forall k <- listeners :: UpToDate(k, devices, parse, sqrt) by {
        assert forall k <- listeners :: DeviceId(k) != DeviceId(h) by { IdsHave(listeners); }
      }
      Subscribe(h);
      Recompute(h);
    }

    method Compute(h: Helper) returns (result: Value)
      ensures result == Result(h, devices, parse, sqrt)
    {
      match h {
        case Group(_, members, true, aggregation) =>
          var flags := CollectFlags(members);
          result := Flag(if aggregation == Some(Min) then false !in flags else true in flags);
        case Group(_, members, false, aggregation) =>
          var values := CollectNumericValues(members);
          result := Shown(Aggregate(values, if aggregation.Some? then aggregation.value else Mean, sqrt));
        case Combine(_, members, how) =>
          var values := CollectNumericValues(members);
          result := Shown(Aggregate(values, how, sqrt));
      }
    }

    method CollectFlags(members: seq<string>) returns (flags: seq<bool>)
      ensures flags == Flags(members, devices)
    {
      flags := [];
      for i := 0 to |members|
        invariant flags == Flags(members[..i], devices)
      {
        assert members[..i + 1][..i] == members[..i];
        if members[i] in devices && devices[members[i]].on.Some? {
          flags := flags + [devices[members[i]].on.value];
        }
      }
      assert members[..|members|] == members;
    }

    method CollectNumericValues(members: seq<string>) returns (values: seq<real>)
      ensures values == Numbers(members, devices, parse)
    {
      values := [];
      for i := 0 to |members|
        invariant values == Numbers(members[..i], devices, parse)
      {
        assert members[..i + 1][..i] == members[..i];
        if members[i] in devices {
          var v := ExtractNumeric(devices[members[i]], parse);
          if v.Some? {
            values := values + [v.value];
          }
        }
      }
      assert members[..|members|] == members;
    }
  }
}
