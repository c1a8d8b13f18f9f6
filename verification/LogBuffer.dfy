/**
 The in-memory buffer of recent log lines. When it is over its cap the oldest
 low-severity line goes first; only a buffer of nothing but warnings and worse
 loses its oldest line.
 */
module LogBuffer {
  datatype Level = Trace | Debug | Info | Warn | Error | Fatal

  datatype Entry = Entry(ts: int, level: Level, msg: string)

  const MAX_ENTRIES: nat := 2500

  predicate IsLow(e: Entry) {
    e.level.Trace? || e.level.Debug? || e.level.Info?
  }

  function Lows(entries: seq<Entry>): nat {
    if entries == [] then 0
    else Lows(entries[..|entries| - 1]) + if IsLow(entries[|entries| - 1]) then 1 else 0
  }

  function Highs(entries: seq<Entry>): nat {
    if entries == [] then 0
    else Highs(entries[..|entries| - 1]) + if IsLow(entries[|entries| - 1]) then 0 else 1
  }

  function Min(a: nat, b: nat): nat {
    if a < b then a else b
  }

  /** The last `high` high-severity and the last `low` low-severity entries, in their order. */
  function Recent(entries: seq<Entry>, high: nat, low: nat): seq<Entry> {
    if entries == [] then []
    else
      var init, last := entries[..|entries| - 1], entries[|entries| - 1];
      if IsLow(last) then
        if low == 0 then Recent(init, high, 0) else Recent(init, high, low - 1) + [last]
      else
        if high == 0 then Recent(init, 0, low) else Recent(init, high - 1, low) + [last]
  }

  lemma {:induction false} Counts(entries: seq<Entry>)
    ensures Highs(entries) + Lows(entries) == |entries|
  {
    if entries != [] {
      Counts(entries[..|entries| - 1]);
    }
  }

  /** How many entries of each kind the buffer holds. */
  function HighRoom(entries: seq<Entry>, cap: nat): nat {
    Min(Highs(entries), cap)
  }

  function LowRoom(entries: seq<Entry>, cap: nat): nat {
    Counts(entries);
    Min(|entries|, cap) - HighRoom(entries, cap)
  }

  /** What the buffer should hold after all of `entries` were appended, with room for `cap`. */
  function Kept(entries: seq<Entry>, cap: nat): seq<Entry> {
    Recent(entries, HighRoom(entries, cap), LowRoom(entries, cap))
  }

  lemma CountsAppend(entries: seq<Entry>, e: Entry)
    ensures Highs(entries + [e]) == Highs(entries) + if IsLow(e) then 0 else 1
    ensures Lows(entries + [e]) == Lows(entries) + if IsLow(e) then 1 else 0
  {
    assert (entries + [e])[..|entries|] == entries;
  }

  lemma CountsLast(entries: seq<Entry>)
    requires entries != []
    ensures var init, last := entries[..|entries| - 1], entries[|entries| - 1];
            && Highs(entries) == Highs(init) + (if IsLow(last) then 0 else 1)
            && Lows(entries) == Lows(init) + if IsLow(last) then 1 else 0
  {
  }

  lemma RecentLast(entries: seq<Entry>, high: nat, low: nat)
    requires entries != []
    ensures var init, last := entries[..|entries| - 1], entries[|entries| - 1];
            Recent(entries, high, low) ==
              if IsLow(last) then (if low == 0 then Recent(init, high, 0) else Recent(init, high, low - 1) + [last])
              else if high == 0 then Recent(init, 0, low) else Recent(init, high - 1, low) + [last]
  {
  }

  lemma NothingCounts()
    ensures Highs([]) == 0 && Lows([]) == 0 && forall high: nat, low: nat :: Recent([], high, low) == []
  {
  }

  lemma {:induction false} RecentCounts(entries: seq<Entry>, high: nat, low: nat)
    requires high <= Highs(entries) && low <= Lows(entries)
    ensures Highs(Recent(entries, high, low)) == high && Lows(Recent(entries, high, low)) == low
    ensures |Recent(entries, high, low)| == high + low
  {
    hide Recent, Highs, Lows;
    if entries == [] {
      NothingCounts();
    } else {
      var init, last := entries[..|entries| - 1], entries[|entries| - 1];
      var high', low' := if IsLow(last) || high == 0 then high else high - 1, if IsLow(last) && low > 0 then low - 1 else low;
      CountsLast(entries);
      RecentLast(entries, high, low);
      RecentCounts(init, high', low');
      CountsAppend(Recent(init, high', low'), last);
    }
    Counts(Recent(entries, high, low));
  }

  lemma {:induction false} RecentAll(entries: seq<Entry>)
    ensures Recent(entries, Highs(entries), Lows(entries)) == entries
  {
    if entries != [] {
      RecentAll(entries[..|entries| - 1]);
    }
  }

  // ---------------------------------------------------------------------------
  // The same, place by place
  // ---------------------------------------------------------------------------

  /** Entry `i` is recent: few enough entries of its kind follow it. */
  predicate Stays(entries: seq<Entry>, i: nat, high: nat, low: nat)
    requires i < |entries|
  {
    if IsLow(entries[i]) then Lows(entries[i + 1..]) < low else Highs(entries[i + 1..]) < high
  }

  /** Of the first `n` entries those that stay, in order. */
  function Staying(entries: seq<Entry>, n: nat, high: nat, low: nat): seq<Entry>
    requires n <= |entries|
  {
    if n == 0 then []
    else Staying(entries, n - 1, high, low) + if Stays(entries, n - 1, high, low) then [entries[n - 1]] else []
  }

  function Less(n: nat): nat {
    if n == 0 then 0 else n - 1
  }

  lemma StaysWithoutLast(init: seq<Entry>, last: Entry, i: nat, high: nat, low: nat)
    requires i < |init|
    ensures Stays(init + [last], i, high, low) ==
            if IsLow(last) then Stays(init, i, high, Less(low)) else Stays(init, i, Less(high), low)
  {
    assert (init + [last])[i + 1..] == init[i + 1..] + [last];
    CountsAppend(init[i + 1..], last);
  }

  lemma {:induction false} StayingWithoutLast(init: seq<Entry>, last: Entry, n: nat, high: nat, low: nat)
    requires n <= |init|
    ensures Staying(init + [last], n, high, low) ==
            if IsLow(last) then Staying(init, n, high, Less(low)) else Staying(init, n, Less(high), low)
  {
    if n > 0 {
      StayingWithoutLast(init, last, n - 1, high, low);
      StaysWithoutLast(init, last, n - 1, high, low);
    }
  }

  /** The view keeps an entry if and only if fewer than `high`, or `low`, entries of its kind follow it. */
  lemma {:induction false} RecentPlaces(entries: seq<Entry>, high: nat, low: nat)
    ensures Recent(entries, high, low) == Staying(entries, |entries|, high, low)
  {
    if entries != [] {
      var init, last := entries[..|entries| - 1], entries[|entries| - 1];
      var less := if IsLow(last) then (high, Less(low)) else (Less(high), low);
      assert entries == init + [last];
      RecentPlaces(init, less.0, less.1);
      StayingWithoutLast(init, last, |init|, high, low);
      assert entries[|entries|..] == [];
    }
  }

  /** So the buffer keeps an entry if and only if there is room for it and all later entries of its kind. */
  lemma KeptPlaces(entries: seq<Entry>, cap: nat)
    ensures Kept(entries, cap) == Staying(entries, |entries|, HighRoom(entries, cap), LowRoom(entries, cap))
  {
    RecentPlaces(entries, HighRoom(entries, cap), LowRoom(entries, cap));
  }

  predicate IsFirstLow(entries: seq<Entry>, k: nat) {
    k < |entries| && IsLow(entries[k]) && forall i :: 0 <= i < k ==> !IsLow(entries[i])
  }

  function Cut(entries: seq<Entry>, k: nat): seq<Entry>
    requires k < |entries|
  {
    entries[..k] + entries[k + 1..]
  }

  lemma CutBeforeLast(rest: seq<Entry>, last: Entry, k: nat)
    requires IsFirstLow(rest + [last], k) && (Lows(rest) > 0 || !IsLow(last))
    ensures IsFirstLow(rest, k) && Cut(rest + [last], k) == Cut(rest, k) + [last]
  {
    if Lows(rest) > 0 {
      SomeLow(rest);
      var i :| 0 <= i < |rest| && IsLow(rest[i]);
      assert (rest + [last])[i] == rest[i];
    }
    assert (rest + [last])[k] == rest[k];
    forall i | 0 <= i < k ensures !IsLow(rest[i]) {
      assert (rest + [last])[i] == rest[i];
    }
  }

  lemma CutOnlyLow(rest: seq<Entry>, last: Entry, k: nat)
    requires Lows(rest) == 0 && IsFirstLow(rest + [last], k)
    ensures Cut(rest + [last], k) == rest
  {
    NoLows(rest);
    assert forall i :: 0 <= i < |rest| ==> (rest + [last])[i] == rest[i] && rest[i] in rest;
    assert k == |rest|;
  }

  lemma {:induction false} CutLowAfterLow(init: seq<Entry>, last: Entry, high: nat, low: nat, k: nat)
    requires high <= Highs(init) && 0 < low <= Lows(init) + 1
    requires IsFirstLow(Recent(init, high, low - 1) + [last], k)
    ensures Cut(Recent(init, high, low - 1) + [last], k) ==
            if low == 1 then Recent(init, high, 0) else Recent(init, high, low - 2) + [last]
    decreases |init|, 1
  {
    hide Recent, Highs, Lows, Cut, IsFirstLow;
    var rest := Recent(init, high, low - 1);
    RecentCounts(init, high, low - 1);
    if low == 1 {
      CutOnlyLow(rest, last, k);
    } else {
      CutBeforeLast(rest, last, k);
      CutLow(init, high, low - 1, k);
    }
  }

  lemma {:induction false} CutLowAfterHigh(init: seq<Entry>, last: Entry, high: nat, low: nat, k: nat)
    requires 0 < high <= Highs(init) + 1 && 0 < low <= Lows(init) && !IsLow(last)
    requires IsFirstLow(Recent(init, high - 1, low) + [last], k)
    ensures Cut(Recent(init, high - 1, low) + [last], k) == Recent(init, high - 1, low - 1) + [last]
    decreases |init|, 1
  {
    hide Recent, Highs, Lows, Cut, IsFirstLow;
    RecentCounts(init, high - 1, low);
    CutBeforeLast(Recent(init, high - 1, low), last, k);
    CutLow(init, high - 1, low, k);
  }

  /** Dropping the oldest low entry of a recent view leaves the view with one low entry fewer. */
  lemma {:induction false} CutLow(entries: seq<Entry>, high: nat, low: nat, k: nat)
    requires high <= Highs(entries) && 0 < low <= Lows(entries)
    requires IsFirstLow(Recent(entries, high, low), k)
    ensures Cut(Recent(entries, high, low), k) == Recent(entries, high, low - 1)
    decreases |entries|, 0
  {
    SomeEntry(entries);
    var init, last := entries[..|entries| - 1], entries[|entries| - 1];
    hide Recent, Highs, Lows, Cut, IsFirstLow;
    CountsLast(entries);
    RecentLast(entries, high, low);
    RecentLast(entries, high, low - 1);
    if IsLow(last) {
      CutLowAfterLow(init, last, high, low, k);
    } else if high == 0 {
      CutLow(init, 0, low, k);
    } else {
      CutLowAfterHigh(init, last, high, low, k);
    }
  }

  lemma SomeEntry(entries: seq<Entry>)
    requires Lows(entries) > 0
    ensures entries != []
  {
  }

  lemma {:induction false} NoLows(entries: seq<Entry>)
    requires Lows(entries) == 0
    ensures forall e <- entries :: !IsLow(e)
  {
    if entries != [] {
      NoLows(entries[..|entries| - 1]);
    }
  }

  lemma {:induction false} SomeLow(entries: seq<Entry>)
    requires Lows(entries) > 0
    ensures exists i :: 0 <= i < |entries| && IsLow(entries[i])
  {
    if !IsLow(entries[|entries| - 1]) {
      SomeLow(entries[..|entries| - 1]);
      var i :| 0 <= i < |entries| - 1 && IsLow(entries[..|entries| - 1][i]);
      assert IsLow(entries[i]);
    }
  }

  /** Without low entries, dropping the oldest one leaves one high entry fewer. */
  lemma {:induction false} CutHigh(entries: seq<Entry>, high: nat)
    requires 0 < high <= Highs(entries)
    ensures Recent(entries, high, 0) != [] && Recent(entries, high, 0)[1..] == Recent(entries, high - 1, 0)
  {
    var init, last := entries[..|entries| - 1], entries[|entries| - 1];
    if IsLow(last) {
      CutHigh(init, high);
    } else if high == 1 {
      RecentCounts(init, 0, 0);
    } else {
      CutHigh(init, high - 1);
    }
  }

  // ---------------------------------------------------------------------------
  // One append
  // ---------------------------------------------------------------------------

  /** Appending to a buffer that is as it should be, before trimming. */
  lemma AppendRecent(entries: seq<Entry>, e: Entry, high: nat, low: nat)
    ensures Recent(entries, high, low) + [e] ==
      if IsLow(e) then Recent(entries + [e], high, low + 1) else Recent(entries + [e], high + 1, low)
  {
    assert (entries + [e])[..|entries|] == entries;
  }

  /** What one round of trimming an overfull buffer removes. */
  ghost predicate TrimsTo(buffer: seq<Entry>, trimmed: seq<Entry>, cap: nat) {
    if |buffer| <= cap then trimmed == buffer
    else if Lows(buffer) > 0 then exists k :: IsFirstLow(buffer, k) && trimmed == Cut(buffer, k)
    else trimmed == buffer[|buffer| - cap..]
  }

  /** Trimming a view that is one entry too long. */
  lemma TrimRecent(all: seq<Entry>, high: nat, low: nat, cap: nat, trimmed: seq<Entry>)
    requires high <= Highs(all) && low <= Lows(all) && high + low == cap + 1
    requires TrimsTo(Recent(all, high, low), trimmed, cap)
    ensures trimmed == if low > 0 then Recent(all, high, low - 1) else Recent(all, high - 1, 0)
  {
    hide Recent, Highs, Lows, Cut;
    RecentCounts(all, high, low);
    if low > 0 {
      var k :| IsFirstLow(Recent(all, high, low), k) && trimmed == Cut(Recent(all, high, low), k);
      CutLow(all, high, low, k);
    } else {
      CutHigh(all, high);
    }
  }

  lemma AppendKeeps(entries: seq<Entry>, e: Entry, cap: nat, trimmed: seq<Entry>)
    requires TrimsTo(Kept(entries, cap) + [e], trimmed, cap)
    ensures trimmed == Kept(entries + [e], cap)
  {
    hide Recent, Highs, Lows, Cut, IsFirstLow;
    var high, low := HighRoom(entries, cap), LowRoom(entries, cap);
    var high', low' := if IsLow(e) then high else high + 1, if IsLow(e) then low + 1 else low;
    Counts(entries);
    Counts(entries + [e]);
    CountsAppend(entries, e);
    AppendRecent(entries, e, high, low);
    if |entries| < cap {
      RecentCounts(entries + [e], high', low');
      assert trimmed == Recent(entries + [e], high', low');
    } else {
      TrimRecent(entries + [e], high', low', cap, trimmed);
    }
  }

  // ---------------------------------------------------------------------------
  // The buffer object
  // ---------------------------------------------------------------------------

  class Buffer {
    var buffer: seq<Entry>
    ghost var history: seq<Entry>

    ghost predicate Valid()
      reads this
    {
      buffer == Kept(history, MAX_ENTRIES)
    }

    constructor ()
      ensures Valid() && history == []
    {
      buffer, history := [], [];
    }

    method FindLow() returns (k: int)
      ensures k >= 0 ==> IsFirstLow(buffer, k)
      ensures k < 0 ==> forall e <- buffer :: !IsLow(e)
    {
      for i := 0 to |buffer|
        invariant forall j :: 0 <= j < i ==> !IsLow(buffer[j])
      {
        if IsLow(buffer[i]) {
          return i;
        }
      }
      return -1;
    }

    method TrimBuffer()
      requires |buffer| <= MAX_ENTRIES + 1
      modifies this`buffer
      ensures TrimsTo(old(buffer), buffer, MAX_ENTRIES)
    {
      while |buffer| > MAX_ENTRIES
        invariant |buffer| <= MAX_ENTRIES + 1
        invariant buffer == old(buffer) ||
          (|buffer| <= MAX_ENTRIES && Lows(old(buffer)) > 0 && TrimsTo(old(buffer), buffer, MAX_ENTRIES))
        decreases |buffer|
      {
        var dropAt := FindLow();
        if dropAt < 0 {
          break;
        }
        LowCounted(buffer, dropAt);
        buffer := buffer[..dropAt] + buffer[dropAt + 1..];
      }
      if |buffer| > MAX_ENTRIES {
        NoneCounted(buffer);
        buffer := buffer[|buffer| - MAX_ENTRIES..];
      }
    }

    method Append(e: Entry)
      requires Valid()
      modifies this
      ensures Valid() && history == old(history) + [e]
    {
      KeptFits(history, MAX_ENTRIES);
      buffer := buffer + [e];
      TrimBuffer();
      AppendKeeps(history, e, MAX_ENTRIES, buffer);
      history := history + [e];
    }
  }

  lemma {:induction false} LowCounted(entries: seq<Entry>, k: nat)
    requires k < |entries| && IsLow(entries[k])
    ensures Lows(entries) > 0
  {
    if k < |entries| - 1 {
      LowCounted(entries[..|entries| - 1], k);
    }
  }

  lemma {:induction false} NoneCounted(entries: seq<Entry>)
    requires forall e <- entries :: !IsLow(e)
    ensures Lows(entries) == 0
  {
    if entries != [] {
      assert entries[|entries| - 1] in entries;
      NoneCounted(entries[..|entries| - 1]);
    }
  }

  /** The buffer never exceeds its cap, and keeps every high-severity entry that fits. */
  lemma KeptFits(entries: seq<Entry>, cap: nat)
    ensures |Kept(entries, cap)| == Min(|entries|, cap)
    ensures Highs(Kept(entries, cap)) == Min(Highs(entries), cap)
  {
    Counts(entries);
    var high := Min(Highs(entries), cap);
    RecentCounts(entries, high, Min(|entries|, cap) - high);
  }

  // ---------------------------------------------------------------------------
  // What is kept, told by the levels
  // ---------------------------------------------------------------------------

  const SEVERE: set<Level> := {Warn, Error, Fatal}

  /** The places from `i` on that hold entries of some levels. */
  ghost function PlacesOf(levels: set<Level>, entries: seq<Entry>, i: nat): set<nat> {
    set j: nat | i <= j < |entries| && entries[j].level in levels
  }

  lemma NoPlaces(levels: set<Level>, entries: seq<Entry>)
    ensures |PlacesOf(levels, entries, |entries|)| == 0
  {
    assert PlacesOf(levels, entries, |entries|) == {};
  }

  lemma PlacesOfLast(levels: set<Level>, entries: seq<Entry>, i: nat)
    requires i < |entries|
    ensures var n := |entries| - 1;
            |PlacesOf(levels, entries, i)| ==
            |PlacesOf(levels, entries[..n], i)| + if entries[n].level in levels then 1 else 0
  {
    var n := |entries| - 1;
    assert PlacesOf(levels, entries, i) ==
           PlacesOf(levels, entries[..n], i) + if entries[n].level in levels then {n} else {};
  }

  lemma {:induction false} CountsArePlaces(entries: seq<Entry>, i: nat)
    requires i <= |entries|
    ensures Highs(entries[i..]) == |PlacesOf(SEVERE, entries, i)|
    ensures Lows(entries[i..]) == |PlacesOf({Trace, Debug, Info}, entries, i)|
    decreases |entries|
  {
    if i == |entries| {
      NoPlaces(SEVERE, entries);
      NoPlaces({Trace, Debug, Info}, entries);
    } else {
      var n := |entries| - 1;
      CountsArePlaces(entries[..n], i);
      PlacesOfLast(SEVERE, entries, i);
      PlacesOfLast({Trace, Debug, Info}, entries, i);
      assert entries[i..][..n - i] == entries[..n][i..];
    }
  }

  /**
   A warning or worse stays in the buffer exactly as long as fewer than 2500 of them follow. Any other entry
   stays as long as the others that follow and all the warnings and worse are fewer than 2500.
   */
  lemma StaysIff(entries: seq<Entry>, i: nat)
    requires i < |entries|
    ensures Stays(entries, i, HighRoom(entries, MAX_ENTRIES), LowRoom(entries, MAX_ENTRIES)) <==>
              if entries[i].level in SEVERE then |PlacesOf(SEVERE, entries, i + 1)| < 2500
              else |PlacesOf({Trace, Debug, Info}, entries, i + 1)| + |PlacesOf(SEVERE, entries, 0)| < 2500
  {
    hide Highs, Lows, PlacesOf;
    CountsArePlaces(entries, 0);
    CountsArePlaces(entries, i + 1);
    assert entries[0..] == entries;
    Counts(entries);
    CountsFrom(entries, i);
  }

  /** The entry itself is one of its kind that is not after it. */
  lemma CountsFrom(entries: seq<Entry>, i: nat)
    requires i < |entries|
    ensures if IsLow(entries[i]) then Lows(entries[i + 1..]) < Lows(entries)
            else Highs(entries[i + 1..]) < Highs(entries)
  {
    CountsJoin(entries[..i] + [entries[i]], entries[i + 1..]);
    assert entries == entries[..i] + [entries[i]] + entries[i + 1..];
    CountsAppend(entries[..i], entries[i]);
  }

  lemma {:induction false} CountsJoin(a: seq<Entry>, b: seq<Entry>)
    ensures Highs(a + b) == Highs(a) + Highs(b) && Lows(a + b) == Lows(a) + Lows(b)
  {
    if b == [] {
      assert a + b == a;
    } else {
      CountsJoin(a, b[..|b| - 1]);
      assert (a + b)[..|a + b| - 1] == a + b[..|b| - 1];
    }
  }
}
