/**
 A sensor that reports how long, or how often, a device was in a state during the
 last period. Times are milliseconds of a clock that does not go back.
 */
module HistorySensor {
  import opened JsMath

  datatype Entry = Entry(t: int, inState: bool)

  datatype Mode = Time | Ratio | Count

  ghost predicate Sorted(log: seq<Entry>) {
    forall i, j :: 0 <= i < j < |log| ==> log[i].t <= log[j].t
  }

  ghost predicate InOrder(log: seq<Entry>, now: int) {
    && Sorted(log)
    && (forall i :: 0 <= i < |log| ==> log[i].t <= now)
  }

  /** The entries from `cutoff` on. */
  function Since(log: seq<Entry>, cutoff: int): seq<Entry> {
    if log == [] then []
    else
      var last := log[|log| - 1];
      Since(log[..|log| - 1], cutoff) + if last.t < cutoff then [] else [last]
  }

  /** How long the recorded states were the wanted one, up to `now`. */
  function TimeIn(entries: seq<Entry>, now: int): int {
    if entries == [] then 0
    else
      var last := entries[|entries| - 1];
      TimeIn(entries[..|entries| - 1], last.t) + if last.inState then now - last.t else 0
  }

  function TimeOut(entries: seq<Entry>, now: int): int {
    if entries == [] then 0
    else
      var last := entries[|entries| - 1];
      TimeOut(entries[..|entries| - 1], last.t) + if last.inState then 0 else now - last.t
  }

  function CountIn(entries: seq<Entry>): nat {
    if entries == [] then 0
    else CountIn(entries[..|entries| - 1]) + if entries[|entries| - 1].inState then 1 else 0
  }

  function Report(mode: Mode, period: nat, entries: seq<Entry>, now: int): real
    requires period > 0
  {
    match mode
    case Time => RoundHalfUp(TimeIn(entries, now) as real / 3600000.0 * 1000.0) as real / 1000.0
    case Ratio => RoundHalfUp(TimeIn(entries, now) as real / (period * 1000) as real * 10000.0) as real / 100.0
    case Count => CountIn(entries) as real
  }

  // ---------------------------------------------------------------------------
  // The sensor object
  // ---------------------------------------------------------------------------

  class HistoryStats {
    const mode: Mode
    const period: nat                 // seconds
    var transitions: seq<Entry>
    var value: real
    ghost var log: seq<Entry>         // everything that was ever recorded
    ghost var lastRun: int

    ghost predicate Valid()
      reads this
    {
      && period > 0
      && InOrder(log, lastRun)
      && transitions == Since(log, lastRun - period * 1000)
    }

    constructor (mode: Mode, period: nat, now: int)
      requires period > 0
      ensures Valid() && this.mode == mode && this.period == period && log == [] && lastRun == now
    {
      this.mode, this.period, lastRun := mode, period, now;
      transitions, value, log := [], 0.0, [];
    }

    method DropOld(cutoff: int)
      requires Sorted(log) && exists before: int :: before <= cutoff && transitions == Since(log, before)
      modifies this`transitions
      ensures transitions == Since(log, cutoff)
    {
      hide Since;
      ghost var before :| before <= cutoff && transitions == Since(log, before);
      SinceIsTail(log, before);
      ghost var from := |log| - |transitions|;
      while transitions != [] && transitions[0].t < cutoff
        invariant 0 <= from <= |log| && transitions == log[from..]
        invariant forall i :: 0 <= i < from ==> log[i].t < cutoff
        decreases |transitions|
      {
        transitions := transitions[1..];
        from := from + 1;
      }
      TailIsSince(log, from, cutoff);
    }

    method Measure(now: int) returns (timeInState: int, count: nat)
      ensures timeInState == TimeIn(transitions, now) && count == CountIn(transitions)
    {
      timeInState, count := 0, 0;
      var n := |transitions|;
      for i := 0 to n
        invariant count == CountIn(transitions[..i])
        invariant timeInState == TimeIn(transitions[..i], if i < n then transitions[i].t else now)
      {
        assert transitions[..i + 1][..i] == transitions[..i];
        var entry := transitions[i];
        if entry.inState {
          var end := if i + 1 < n then transitions[i + 1].t else now;
          timeInState := timeInState + (end - entry.t);
          count := count + 1;
        }
      }
      assert transitions[..n] == transitions;
    }

    method Recompute(now: int)
      requires period > 0 && InOrder(log, now)
      requires exists before: int :: before <= now - period * 1000 && transitions == Since(log, before)
      modifies this`transitions, this`value, this`lastRun
      ensures Valid() && lastRun == now
      ensures value == Report(mode, period, transitions, now)
    {
      DropOld(now - period * 1000);
      var timeInState, count := Measure(now);
      match mode {
        case Time => value := RoundHalfUp(timeInState as real / 3600000.0 * 1000.0) as real / 1000.0;
        case Ratio => value := RoundHalfUp(timeInState as real / (period * 1000) as real * 10000.0) as real / 100.0;
        case Count => value := count as real;
      }
      lastRun := now;
    }

    method OnUpdate(now: int, inState: bool)
      requires Valid() && lastRun <= now
      modifies this
      ensures Valid() && lastRun == now && log == old(log) + [Entry(now, inState)]
      ensures value == Report(mode, period, transitions, now)
    {
      SinceAppend(log, Entry(now, inState), lastRun - period * 1000);
      log := log + [Entry(now, inState)];
      transitions := transitions + [Entry(now, inState)];
      Recompute(now);
    }

    method OnTimer(now: int)
      requires Valid() && lastRun <= now
      modifies this`transitions, this`value, this`lastRun
      ensures Valid() && lastRun == now
      ensures value == Report(mode, period, transitions, now)
    {
      Recompute(now);
    }
  }

  lemma SinceAppend(log: seq<Entry>, e: Entry, cutoff: int)
    ensures Since(log + [e], cutoff) == Since(log, cutoff) + if e.t < cutoff then [] else [e]
  {
    assert (log + [e])[..|log|] == log;
  }

  /** From `from` on, and only from there, the log is not older than `cutoff`. */
  ghost predicate IsTail(log: seq<Entry>, from: nat, cutoff: int) {
    && from <= |log|
    && (forall i :: 0 <= i < from ==> log[i].t < cutoff)
    && (forall i :: from <= i < |log| ==> log[i].t >= cutoff)
  }

  lemma TailUnique(log: seq<Entry>, from: nat, other: nat, cutoff: int)
    requires IsTail(log, from, cutoff) && IsTail(log, other, cutoff)
    ensures from == other
  {
    var k := if from < other then from else other;
    assert k < |log| ==> (log[k].t < cutoff <==> k < from) && (log[k].t < cutoff <==> k < other);
  }

  lemma TailGrows(init: seq<Entry>, last: Entry, from: nat, cutoff: int)
    requires Sorted(init + [last]) && IsTail(init, from, cutoff)
    ensures Sorted(init)
    ensures last.t < cutoff ==> from == |init| && IsTail(init + [last], |init| + 1, cutoff)
    ensures last.t >= cutoff ==> IsTail(init + [last], from, cutoff)
  {
    var log := init + [last];
    assert forall i :: 0 <= i < |init| ==> init[i] == log[i] && log[i].t <= log[|init|].t;
    if last.t < cutoff {
      TailUnique(init, from, |init|, cutoff);
    }
  }

  lemma {:induction false} SinceFrom(log: seq<Entry>, cutoff: int) returns (from: nat)
    requires Sorted(log)
    ensures from <= |log| && IsTail(log, from, cutoff) && Since(log, cutoff) == log[from..]
  {
    if log == [] {
      from := 0;
    } else {
      var init, last := log[..|log| - 1], log[|log| - 1];
      assert log == init + [last];
      hide Since, IsTail, Sorted;
      SortedInit(init, last);
      var before := SinceFrom(init, cutoff);
      TailGrows(init, last, before, cutoff);
      SinceAppend(init, last, cutoff);
      SliceAppend(init, last, before);
      from := if last.t < cutoff then |log| else before;
      assert last.t < cutoff ==> init[before..] == [];
    }
  }

  /** In an ordered log the entries since some time are its tail. */
  lemma SinceIsTail(log: seq<Entry>, cutoff: int)
    requires Sorted(log)
    ensures var from := |log| - |Since(log, cutoff)|;
            from >= 0 && IsTail(log, from, cutoff) && Since(log, cutoff) == log[from..]
  {
    var from := SinceFrom(log, cutoff);
  }

  lemma SortedInit(init: seq<Entry>, last: Entry)
    requires Sorted(init + [last])
    ensures Sorted(init)
  {
    assert forall i :: 0 <= i < |init| ==> init[i] == (init + [last])[i];
  }

  lemma SliceAppend(init: seq<Entry>, last: Entry, from: nat)
    requires from <= |init|
    ensures (init + [last])[from..] == init[from..] + [last] && (init + [last])[|init| + 1..] == []
  {
  }

  lemma TailIsSince(log: seq<Entry>, from: nat, cutoff: int)
    requires Sorted(log) && IsTail(log, from, cutoff)
    ensures Since(log, cutoff) == log[from..]
  {
    hide Since;
    SinceIsTail(log, cutoff);
    TailUnique(log, from, |log| - |Since(log, cutoff)|, cutoff);
  }

  // ---------------------------------------------------------------------------
  // What the reported time means
  // ---------------------------------------------------------------------------

  /** In the wanted state at an instant: by the last entry not after it; not before the first entry. */
  function StateAt(log: seq<Entry>, instant: int): bool {
    log != [] &&
    if log[|log| - 1].t <= instant then log[|log| - 1].inState else StateAt(log[..|log| - 1], instant)
  }

  /** How many milliseconds from `from` up to `end` were spent in the wanted state. */
  function Spent(log: seq<Entry>, from: int, end: int): nat
    decreases end - from
  {
    if end <= from then 0 else Spent(log, from, end - 1) + if StateAt(log, end - 1) then 1 else 0
  }

  lemma {:induction false} SpentSplit(log: seq<Entry>, from: int, middle: int, end: int)
    requires from <= middle <= end
    ensures Spent(log, from, end) == Spent(log, from, middle) + Spent(log, middle, end)
    decreases end - middle
  {
    if middle < end {
      SpentSplit(log, from, middle, end - 1);
    }
  }

  lemma {:induction false} SpentAlike(a: seq<Entry>, b: seq<Entry>, from: int, end: int)
    requires forall i :: from <= i < end ==> StateAt(a, i) == StateAt(b, i)
    ensures Spent(a, from, end) == Spent(b, from, end)
    decreases end - from
  {
    if from < end {
      SpentAlike(a, b, from, end - 1);
    }
  }

  lemma {:induction false} SpentConstant(log: seq<Entry>, from: int, end: int, state: bool)
    requires from <= end && forall i :: from <= i < end ==> StateAt(log, i) == state
    ensures Spent(log, from, end) == (if state then end - from else 0)
    decreases end - from
  {
    if from < end {
      SpentConstant(log, from, end - 1, state);
    }
  }

  /** The computed time is the number of instants in the state since the oldest entry. */
  lemma {:induction false} TimeInMeasures(entries: seq<Entry>, now: int)
    requires entries != [] && InOrder(entries, now)
    ensures TimeIn(entries, now) == Spent(entries, entries[0].t, now)
    ensures TimeIn(entries, now) + TimeOut(entries, now) == now - entries[0].t
  {
    var n := |entries| - 1;
    var init, last := entries[..n], entries[n];
    SpentConstant(entries, last.t, now, last.inState);
    if n > 0 {
      TimeInMeasures(init, last.t);
      SpentAlike(init, entries, entries[0].t, last.t);
      SpentSplit(entries, entries[0].t, last.t, now);
    }
  }

  /** Before the oldest entry that is kept, only the dropped ones say what the state was. */
  lemma {:induction false} StateOfParts(dropped: seq<Entry>, kept: seq<Entry>, instant: int)
    requires Sorted(dropped + kept)
    ensures kept != [] && instant >= kept[0].t ==> StateAt(dropped + kept, instant) == StateAt(kept, instant)
    ensures kept == [] || instant < kept[0].t ==> StateAt(dropped + kept, instant) == StateAt(dropped, instant)
  {
    if kept == [] {
      assert dropped + kept == dropped;
    } else {
      var n := |kept| - 1;
      var all, fewer := dropped + kept, dropped + kept[..n];
      assert all[..|all| - 1] == fewer;
      assert all[|dropped|] == kept[0] && all[|all| - 1] == kept[n];
      assert forall i :: 0 <= i < |fewer| ==> all[i] == fewer[i];
      StateOfParts(dropped, kept[..n], instant);
    }
  }

  /** The oldest instant the report knows the state of. */
  function KnownFrom(kept: seq<Entry>, now: int): int {
    if kept == [] then now else kept[0].t
  }

  /** Whether the device was in the state when the period began, by the last entry before it. */
  predicate Entered(dropped: seq<Entry>) {
    dropped != [] && dropped[|dropped| - 1].inState
  }

  /** What the report leaves out: the time from the start of the period to the first entry in it. */
  lemma Undercount(dropped: seq<Entry>, kept: seq<Entry>, cutoff: int, now: int)
    requires InOrder(dropped + kept, now) && cutoff <= now
    requires IsTail(dropped + kept, |dropped|, cutoff)
    ensures Spent(dropped + kept, cutoff, now) ==
            TimeIn(kept, now) + if Entered(dropped) then KnownFrom(kept, now) - cutoff else 0
  {
    var log, known := dropped + kept, KnownFrom(kept, now);
    assert forall i :: 0 <= i < |kept| ==> log[|dropped| + i] == kept[i];
    forall i ensures i >= known && kept != [] ==> StateAt(log, i) == StateAt(kept, i) {
      StateOfParts(dropped, kept, i);
    }
    forall i | cutoff <= i < known ensures StateAt(log, i) == Entered(dropped) {
      StateOfParts(dropped, kept, i);
      assert dropped != [] ==> log[|dropped| - 1] == dropped[|dropped| - 1];
    }
    SpentConstant(log, cutoff, known, Entered(dropped));
    SpentSplit(log, cutoff, known, now);
    if kept != [] {
      SpentAlike(log, kept, known, now);
      TimeInMeasures(kept, now);
    }
  }

  /**
   The computed time is the whole time in the state during the period exactly when the
   device was not in it as the period began, or an entry falls on that very moment.
   */
  lemma CompleteIff(log: seq<Entry>, period: nat, now: int)
    requires period > 0 && InOrder(log, now)
    ensures var cutoff := now - period * 1000;
            var kept := Since(log, cutoff);
            && |kept| <= |log|
            && TimeIn(kept, now) <= Spent(log, cutoff, now)
            && (TimeIn(kept, now) == Spent(log, cutoff, now) <==>
                  !Entered(log[..|log| - |kept|]) || (kept != [] && kept[0].t == cutoff))
  {
    var cutoff := now - period * 1000;
    var kept := Since(log, cutoff);
    SinceIsTail(log, cutoff);
    var dropped := log[..|log| - |kept|];
    assert log == dropped + kept;
    Undercount(dropped, kept, cutoff, now);
  }

  /** A device that entered the state and then reports nothing for a period is said to have spent no time in it. */
  lemma LongStayForgotten(log: seq<Entry>, period: nat, now: int)
    requires period > 0 && InOrder(log, now) && log != []
    requires log[|log| - 1].t < now - period * 1000 && log[|log| - 1].inState
    ensures Since(log, now - period * 1000) == []
    ensures Report(Time, period, Since(log, now - period * 1000), now) == 0.0
    ensures Spent(log, now - period * 1000, now) == period * 1000
  {
    var cutoff := now - period * 1000;
    TailIsSince(log, |log|, cutoff);
    SpentConstant(log, cutoff, now, true);
  }

  lemma Percentage(a: int, b: int)
    requires 0 <= a <= b && 0 < b
    ensures 0.0 <= RoundHalfUp(a as real / b as real * 10000.0) as real / 100.0 <= 100.0
  {
    var q := a as real / b as real;
    assert q * b as real == a as real;
    assert 0.0 <= q <= 1.0;
  }

  /** The time in the state lies within the period. */
  lemma TimeFits(log: seq<Entry>, period: nat, now: int)
    requires period > 0 && InOrder(log, now)
    ensures 0 <= TimeIn(Since(log, now - period * 1000), now) <= period * 1000
  {
    hide TimeIn, TimeOut, Since;
    var cutoff := now - period * 1000;
    var kept := Since(log, cutoff);
    SinceIsTail(log, cutoff);
    if kept == [] {
      NoTime(now);
    } else {
      assert forall i :: 0 <= i < |kept| ==> kept[i] == log[|log| - |kept| + i];
      TimeInMeasures(kept, now);
      TimesArePositive(kept, now);
    }
  }

  lemma NoTime(now: int)
    ensures TimeIn([], now) == 0
  {
  }

  /** The reported ratio is a percentage. */
  lemma RatioIsPercentage(log: seq<Entry>, period: nat, now: int)
    requires period > 0 && InOrder(log, now)
    ensures 0.0 <= Report(Ratio, period, Since(log, now - period * 1000), now) <= 100.0
  {
    hide TimeIn, Since, RoundHalfUp;
    TimeFits(log, period, now);
    Percentage(TimeIn(Since(log, now - period * 1000), now), period * 1000);
  }

  lemma {:induction false} TimesArePositive(entries: seq<Entry>, now: int)
    requires InOrder(entries, now)
    ensures TimeIn(entries, now) >= 0 && TimeOut(entries, now) >= 0
  {
    if entries != [] {
      TimesArePositive(entries[..|entries| - 1], entries[|entries| - 1].t);
    }
  }

  /** The places of the entries in the state. */
  ghost function PlacesIn(entries: seq<Entry>): set<nat> {
    set i: nat | i < |entries| && entries[i].inState
  }

  lemma {:induction false} CountsPlaces(entries: seq<Entry>)
    ensures CountIn(entries) == |PlacesIn(entries)|
  {
    if entries == [] {
      assert |PlacesIn([])| == 0;
    } else {
      var n := |entries| - 1;
      CountsPlaces(entries[..n]);
      assert PlacesIn(entries) == PlacesIn(entries[..n]) + if entries[n].inState then {n} else {};
    }
  }

  /** `value` is a whole number of steps, `unit` of which make one, and the nearest to `exact`; halfway it is the upper one. */
  ghost predicate IsNearest(value: real, unit: int, exact: real)
    requires unit > 0
  {
    var steps := value * unit as real;
    steps == steps.Floor as real && -1.0 < 2.0 * (steps - exact * unit as real) <= 1.0
  }

  lemma RoundingIsNearest(exact: real, unit: int)
    requires unit > 0
    ensures IsNearest(RoundHalfUp(exact * unit as real) as real / unit as real, unit, exact)
  {
    var steps := RoundHalfUp(exact * unit as real);
    assert steps as real / unit as real * unit as real == steps as real;
  }

  /**
   The report is the time in the state in hours, to the nearest thousandth; its percentage of the period, to the
   nearest hundredth; or the number of entries in the state.
   */
  lemma ReportMeans(period: nat, entries: seq<Entry>, now: int)
    requires period > 0
    ensures IsNearest(Report(Time, period, entries, now), 1000, TimeIn(entries, now) as real / (60 * 60 * 1000) as real)
    ensures IsNearest(Report(Ratio, period, entries, now), 100,
                          100.0 * (TimeIn(entries, now) as real / (1000 * period) as real))
    ensures Report(Count, period, entries, now) == |PlacesIn(entries)| as real
  {
    hide TimeIn, RoundHalfUp, IsNearest;
    var hours, part := TimeIn(entries, now) as real / 3600000.0, TimeIn(entries, now) as real / (period * 1000) as real;
    RoundingIsNearest(hours, 1000);
    RoundingIsNearest(100.0 * part, 100);
    assert 100.0 * part * 100 as real == part * 10000.0;
    CountsPlaces(entries);
  }
}
