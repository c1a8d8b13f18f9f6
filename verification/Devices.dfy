/**
 Device states as the store keeps them, and the readings helpers take of them.

 Numbers are reals: rounding, NaN and infinities are not modelled. `parseFloat`
 and `Math.sqrt` are parameters.
 */
module Devices {
  import opened Option

  datatype Value = Num(n: real) | Text(s: string) | Flag(b: bool) | Null

  /** The attributes the store or a helper looks at; an attribute a device lacks is `None`. */
  datatype Device = Device(
    id: string,
    kind: string,
    available: bool,
    displayName: Option<string>,
    aliases: Option<seq<string>>,
    userAreaId: Option<string>,
    mapUpdatedAt: Option<int>,
    on: Option<bool>,
    value: Option<Value>,
    temperature: Option<real>,
    brightness: Option<real>,
    powerW: Option<real>,
    batteryLevel: Option<real>,
    lastChanged: int,
    lastUpdated: int)

  /** `deepEqual`: the same in everything but the two timestamps. */
  predicate SameState(a: Device, b: Device) {
    a.(lastChanged := 0, lastUpdated := 0) == b.(lastChanged := 0, lastUpdated := 0)
  }

  function KeepText(was: Option<string>, now: Option<string>): Option<string> {
    if was.Some? && was.value != "" && (now.None? || now.value == "") then was else now
  }

  /** An update takes over what the user set and integrations do not know about. */
  function Merge(prev: Option<Device>, device: Device): Device {
    if prev.None? then device
    else
      var was := prev.value;
      device.(
        displayName := KeepText(was.displayName, device.displayName),
        aliases := if was.aliases.Some? && was.aliases.value != [] && (device.aliases.None? || device.aliases.value == [])
                   then was.aliases else device.aliases,
        userAreaId := KeepText(was.userAreaId, device.userAreaId),
        mapUpdatedAt := if was.kind == "vacuum" && device.kind == "vacuum" && device.mapUpdatedAt.None?
                        then was.mapUpdatedAt else device.mapUpdatedAt)
  }

  /** Two devices are the same state exactly when one is the other with its own two timestamps. */
  lemma SameStateIff(a: Device, b: Device)
    ensures SameState(a, b) <==> a == b.(lastChanged := a.lastChanged, lastUpdated := a.lastUpdated)
  {
    var c := b.(lastChanged := a.lastChanged, lastUpdated := a.lastUpdated);
    assert c.(lastChanged := 0, lastUpdated := 0) == b.(lastChanged := 0, lastUpdated := 0);
    if SameState(a, b) {
      assert a == a.(lastChanged := 0, lastUpdated := 0).(lastChanged := a.lastChanged, lastUpdated := a.lastUpdated);
      assert c == b.(lastChanged := 0, lastUpdated := 0).(lastChanged := a.lastChanged, lastUpdated := a.lastUpdated);
    }
  }

  /** What the store has of a device after a sequence of updates. */
  function Stored(updates: seq<Device>): Option<Device> {
    if updates == [] then None
    else Some(Merge(Stored(updates[..|updates| - 1]), updates[|updates| - 1]))
  }

  predicate Given(text: Option<string>) {
    text.Some? && text.value != ""
  }

  /** A name, once given, is the device's until an update brings another one; so is an area. */
  lemma {:induction false} LastTextsStay(updates: seq<Device>, k: nat)
    requires k < |updates|
    ensures Stored(updates).Some?
    ensures Given(updates[k].displayName) && (forall j :: k < j < |updates| ==> !Given(updates[j].displayName)) ==>
              Stored(updates).value.displayName == updates[k].displayName
    ensures Given(updates[k].userAreaId) && (forall j :: k < j < |updates| ==> !Given(updates[j].userAreaId)) ==>
              Stored(updates).value.userAreaId == updates[k].userAreaId
  {
    var init := updates[..|updates| - 1];
    if k < |init| {
      LastTextsStay(init, k);
      assert forall j :: 0 <= j < |init| ==> init[j] == updates[j];
    }
  }

  /** So are aliases, and the map of what stays a vacuum. */
  lemma {:induction false} LastAliasesStay(updates: seq<Device>, k: nat)
    requires k < |updates| && updates[k].aliases.Some? && updates[k].aliases.value != []
    requires forall j :: k < j < |updates| ==> updates[j].aliases.None? || updates[j].aliases.value == []
    ensures Stored(updates).Some? && Stored(updates).value.aliases == updates[k].aliases
  {
    var init := updates[..|updates| - 1];
    if k < |init| {
      LastAliasesStay(init, k);
    }
  }

  lemma {:induction false} LastMapStays(updates: seq<Device>, k: nat)
    requires k < |updates| && updates[k].kind == "vacuum" && updates[k].mapUpdatedAt.Some?
    requires forall j :: k < j < |updates| ==> updates[j].kind == "vacuum" && updates[j].mapUpdatedAt.None?
    ensures Stored(updates).Some? && Stored(updates).value.mapUpdatedAt == updates[k].mapUpdatedAt
    ensures Stored(updates).value.kind == "vacuum"
  {
    var init := updates[..|updates| - 1];
    if k < |init| {
      LastMapStays(init, k);
    }
  }

  /** Nothing else outlives an update: all other attributes, and what was never given, are those of the last one. */
  lemma {:induction false} OthersAreLast(updates: seq<Device>)
    requires updates != []
    ensures Stored(updates).Some?
    ensures var d, last := Stored(updates).value, updates[|updates| - 1];
            && d == last.(displayName := d.displayName, aliases := d.aliases, userAreaId := d.userAreaId,
                          mapUpdatedAt := d.mapUpdatedAt)
            && (last.kind != "vacuum" || (|updates| > 1 && updates[|updates| - 2].kind != "vacuum") ==>
                  d.mapUpdatedAt == last.mapUpdatedAt)
    ensures (forall d <- updates :: !Given(d.displayName)) ==>
              Stored(updates).value.displayName == updates[|updates| - 1].displayName
    ensures (forall d <- updates :: !Given(d.userAreaId)) ==>
              Stored(updates).value.userAreaId == updates[|updates| - 1].userAreaId
    ensures (forall d <- updates :: d.aliases.None? || d.aliases.value == []) ==>
              Stored(updates).value.aliases == updates[|updates| - 1].aliases
  {
    var init := updates[..|updates| - 1];
    assert updates[|updates| - 1] in updates;
    assert forall d <- init :: d in updates;
    if init != [] {
      OthersAreLast(init);
      assert init[|init| - 1] in updates;
    }
  }

  function Get<V>(m: map<string, V>, id: string): Option<V> {
    if id in m then Some(m[id]) else None
  }

  type ParseFloat = string -> Option<real>

  function ExtractNumeric(device: Device, parse: ParseFloat): Option<real> {
    if device.value.Some? && device.value.value.Num? then Some(device.value.value.n)
    else if device.value.Some? && device.value.value.Text? then parse(device.value.value.s)
    else if device.temperature.Some? then device.temperature
    else if device.brightness.Some? then device.brightness
    else if device.powerW.Some? then device.powerW
    else device.batteryLevel
  }

  datatype Method = Min | Max | Sum | Mean | Median | Range | Product | Stdev | First | Last | Unknown

  function Total(values: seq<real>): real {
    if values == [] then 0.0 else Total(values[..|values| - 1]) + values[|values| - 1]
  }

  function Times(values: seq<real>): real {
    if values == [] then 1.0 else Times(values[..|values| - 1]) * values[|values| - 1]
  }

  function Least(values: seq<real>): (r: real)
    requires values != []
    ensures r in values && forall v <- values :: r <= v
  {
    if |values| == 1 then values[0]
    else
      var rest := Least(values[1..]);
      assert values == [values[0]] + values[1..];
      if values[0] <= rest then values[0] else rest
  }

  function Greatest(values: seq<real>): (r: real)
    requires values != []
    ensures r in values && forall v <- values :: v <= r
  {
    if |values| == 1 then values[0]
    else
      var rest := Greatest(values[1..]);
      assert values == [values[0]] + values[1..];
      if values[0] >= rest then values[0] else rest
  }

  ghost predicate IsSorted(values: seq<real>) {
    forall i, j :: 0 <= i < j < |values| ==> values[i] <= values[j]
  }

  function Insert(v: real, sorted: seq<real>): seq<real> {
    if sorted == [] then [v]
    else if v <= sorted[0] then [v] + sorted
    else [sorted[0]] + Insert(v, sorted[1..])
  }

  lemma {:induction false} InsertAdds(v: real, sorted: seq<real>)
    ensures multiset(Insert(v, sorted)) == multiset(sorted) + multiset{v}
  {
    if sorted != [] && v > sorted[0] {
      InsertAdds(v, sorted[1..]);
      assert sorted == [sorted[0]] + sorted[1..];
    }
  }

  lemma FrontSorted(x: real, rest: seq<real>)
    requires IsSorted(rest) && forall y <- rest :: x <= y
    ensures IsSorted([x] + rest)
  {
    forall i, j | 0 <= i < j < |[x] + rest| ensures ([x] + rest)[i] <= ([x] + rest)[j] {
      assert ([x] + rest)[j] == rest[j - 1] && rest[j - 1] in rest;
    }
  }

  lemma {:induction false} InsertKeepsOrder(v: real, sorted: seq<real>)
    requires IsSorted(sorted)
    ensures IsSorted(Insert(v, sorted))
  {
    if sorted != [] {
      if v <= sorted[0] {
        FrontSorted(v, sorted);
      } else {
        var rest := Insert(v, sorted[1..]);
        InsertKeepsOrder(v, sorted[1..]);
        InsertAdds(v, sorted[1..]);
        forall x | x in rest ensures sorted[0] <= x {
          assert x in multiset(rest);
        }
        FrontSorted(sorted[0], rest);
      }
    }
  }

  function Sort(values: seq<real>): seq<real> {
    if values == [] then [] else Insert(values[0], Sort(values[1..]))
  }

  lemma {:induction false} SortSorts(values: seq<real>)
    ensures IsSorted(Sort(values)) && multiset(Sort(values)) == multiset(values)
    ensures |Sort(values)| == |values|
  {
    if values != [] {
      SortSorts(values[1..]);
      InsertAdds(values[0], Sort(values[1..]));
      InsertKeepsOrder(values[0], Sort(values[1..]));
      assert values == [values[0]] + values[1..];
    }
    assert |multiset(Sort(values))| == |Sort(values)| && |multiset(values)| == |values|;
  }

  function Squares(values: seq<real>, mean: real): seq<real> {
    seq(|values|, i requires 0 <= i < |values| => (values[i] - mean) * (values[i] - mean))
  }

  function Aggregate(values: seq<real>, how: Method, sqrt: real -> real): Option<real> {
    if values == [] then None
    else match how
      case Min => Some(Least(values))
      case Max => Some(Greatest(values))
      case Sum => Some(Total(values))
      case Mean => Some(Total(values) / |values| as real)
      case Median =>
        SortSorts(values);
        var sorted, mid := Sort(values), |values| / 2;
        if |values| % 2 == 1 then Some(sorted[mid]) else Some((sorted[mid - 1] + sorted[mid]) / 2.0)
      case Range => Some(Greatest(values) - Least(values))
      case Product => Some(Times(values))
      case Stdev =>
        var mean := Total(values) / |values| as real;
        Some(sqrt(Total(Squares(values, mean)) / |values| as real))
      case First => Some(values[0])
      case Last => Some(values[|values| - 1])
      case Unknown => None
  }

  lemma {:induction false} TotalBetween(values: seq<real>, lo: real, hi: real)
    requires forall v <- values :: lo <= v <= hi
    ensures lo * |values| as real <= Total(values) <= hi * |values| as real
  {
    if values != [] {
      var n := |values| - 1;
      assert forall v <- values[..n] :: v in values;
      TotalBetween(values[..n], lo, hi);
      assert values[n] in values;
      assert |values| as real == n as real + 1.0;
    }
  }

  lemma QuotientBetween(total: real, n: nat, lo: real, hi: real)
    requires n > 0 && lo * n as real <= total <= hi * n as real
    ensures lo <= total / n as real <= hi
  {
    var q, r := total / n as real, n as real;
    assert q * r == total;
    assert (q - lo) * r >= 0.0 && (hi - q) * r >= 0.0;
  }

  lemma MiddlesBetween(values: seq<real>, k: nat, lo: real, hi: real)
    requires k < |values| && forall v <- values :: lo <= v <= hi
    ensures |Sort(values)| == |values| && lo <= Sort(values)[k] <= hi
  {
    hide Sort;
    SortSorts(values);
    var sorted := Sort(values);
    assert multiset(sorted)[sorted[k]] > 0;
    assert sorted[k] in values;
  }

  /** An average of readings, of whatever kind, lies between the least and the greatest of them. */
  lemma AverageWithin(values: seq<real>, how: Method, sqrt: real -> real)
    requires values != [] && how in {Min, Max, Mean, Median, First, Last}
    ensures Aggregate(values, how, sqrt).Some?
    ensures Least(values) <= Aggregate(values, how, sqrt).value <= Greatest(values)
  {
    hide Sort, Total, Least, Greatest;
    var lo, hi, mid := Least(values), Greatest(values), |values| / 2;
    assert values[0] in values && values[|values| - 1] in values;
    TotalBetween(values, lo, hi);
    QuotientBetween(Total(values), |values|, lo, hi);
    MiddlesBetween(values, mid, lo, hi);
    MiddlesBetween(values, if mid > 0 then mid - 1 else 0, lo, hi);
  }
}
