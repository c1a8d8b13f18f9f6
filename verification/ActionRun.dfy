/**
 The interpreter of an automation's actions, nested to any depth, under a signal
 that may be aborted at any moment.

 Time is counted in moments: one passes at every check of the signal and at every
 `await`. What the world answers (whether a condition holds, whether an action
 throws) is given per started action, so two runs can be compared answer by answer.
 */
module ActionRun {
  import opened Option

  datatype Action =
    | Command(name: string)
    | Delay(duration: string)
    | Conditional(condition: string, thenBranch: seq<Action>, elseBranch: seq<Action>)
    | Call(automation: string)
    | LogMessage(message: string)

  datatype Result = Success | Skipped | Failed

  /** `ordinal` is the action's place in the order of starting. */
  datatype Log = Log(ordinal: nat, index: nat, result: Result)

  datatype Started = Started(moment: nat, parent: Option<nat>, action: Action)

  datatype World = World(
    holds: nat -> bool,        // does the condition of the n-th started action hold
    throws: nat -> bool,       // does the n-th started action throw
    abortAt: Option<nat>)      // from which moment on the signal is aborted

  predicate Aborted(w: World, moment: nat) {
    w.abortAt.Some? && w.abortAt.value <= moment
  }

  datatype Trace = Trace(moment: nat, started: seq<Started>, commands: seq<string>, logs: seq<Log>)

  function Begin(t: Trace, parent: Option<nat>, action: Action): Trace {
    t.(moment := t.moment + 1, started := t.started + [Started(t.moment, parent, action)])
  }

  function Finish(t: Trace, ordinal: nat, index: nat, result: Result): Trace {
    t.(logs := t.logs + [Log(ordinal, index, result)])
  }

  /** What is logged for an action that awaited something. */
  function Verdict(w: World, ordinal: nat, moment: nat): Result {
    if !w.throws(ordinal) then Success else if Aborted(w, moment) then Skipped else Failed
  }

  /** The actions from the `i`-th on. */
  function ExecFrom(actions: seq<Action>, i: nat, parent: Option<nat>, t: Trace, w: World): Trace
    requires i <= |actions|
    decreases actions, 1 + |actions| - i
  {
    if i == |actions| || Aborted(w, t.moment) then t
    else ExecFrom(actions, i + 1, parent, Exec(actions[i], i, parent, t, w), w)
  }

  function Exec(action: Action, index: nat, parent: Option<nat>, t: Trace, w: World): Trace
    decreases action, 0
  {
    var n := |t.started|;
    var b := Begin(t, parent, action);
    match action
    case Command(name) =>
      var c := b.(commands := b.commands + [name], moment := b.moment + 1);
      Finish(c, n, index, Verdict(w, n, c.moment))
    case Call(_) =>
      var c := b.(moment := b.moment + 1);
      Finish(c, n, index, Verdict(w, n, c.moment))
    case Delay(_) => Finish(b.(moment := b.moment + 1), n, index, Success)
    case LogMessage(_) => Finish(b, n, index, Success)
    case Conditional(_, thenBranch, elseBranch) =>
      var passed := w.holds(n);
      Finish(ExecFrom(if passed then thenBranch else elseBranch, 0, Some(n), b, w), n, index,
             if passed then Success else Skipped)
  }

  // ---------------------------------------------------------------------------
  // The interpreter object
  // ---------------------------------------------------------------------------

  class Interpreter {
    const world: World
    var moment: nat
    var started: seq<Started>
    var commands: seq<string>
    var logs: seq<Log>

    ghost function Now(): Trace
      reads this
    {
      Trace(moment, started, commands, logs)
    }

    constructor (world: World)
      ensures this.world == world && Now() == Trace(0, [], [], [])
    {
      this.world := world;
      moment, started, commands, logs := 0, [], [], [];
    }

    method ExecuteActions(actions: seq<Action>, parent: Option<nat>)
      modifies this
      ensures Now() == ExecFrom(actions, 0, parent, old(Now()), world)
      decreases actions, 1
    {
      for i := 0 to |actions|
        invariant ExecFrom(actions, 0, parent, old(Now()), world) == ExecFrom(actions, i, parent, Now(), world)
      {
        if Aborted(world, moment) {
          return;
        }
        ExecuteAction(actions[i], i, parent);
      }
    }

    method ExecuteAction(action: Action, index: nat, parent: Option<nat>)
      modifies this
      ensures Now() == Exec(action, index, parent, old(Now()), world)
      decreases action, 0
    {
      var n := |started|;
      started := started + [Started(moment, parent, action)];
      moment := moment + 1;
      var result := Success;
      match action {
        case Command(name) =>
          commands := commands + [name];
          moment := moment + 1;
          if world.throws(n) {
            result := if Aborted(world, moment) then Skipped else Failed;
          }
        case Delay(_) =>
          moment := moment + 1;
        case Conditional(_, thenBranch, elseBranch) =>
          var passed := world.holds(n);
          var branch := if passed then thenBranch else elseBranch;
          if branch != [] {
            ExecuteActions(branch, Some(n));
          }
          result := if passed then Success else Skipped;
        case Call(_) =>
          moment := moment + 1;
          if world.throws(n) {
            result := if Aborted(world, moment) then Skipped else Failed;
          }
        case LogMessage(_) =>
      }
      logs := logs + [Log(n, index, result)];
    }
  }

  // ---------------------------------------------------------------------------
  // Nothing starts after the abort
  // ---------------------------------------------------------------------------

  ghost predicate StartsBeforeAbort(started: seq<Started>, w: World) {
    forall s <- started :: !Aborted(w, s.moment)
  }

  lemma {:induction false} ExecFromStartsEarly(actions: seq<Action>, i: nat, parent: Option<nat>, t: Trace, w: World)
    requires i <= |actions| && StartsBeforeAbort(t.started, w)
    ensures StartsBeforeAbort(ExecFrom(actions, i, parent, t, w).started, w)
    decreases actions, 1 + |actions| - i
  {
    if i < |actions| && !Aborted(w, t.moment) {
      ExecStartsEarly(actions[i], i, parent, t, w);
      ExecFromStartsEarly(actions, i + 1, parent, Exec(actions[i], i, parent, t, w), w);
    }
  }

  lemma {:induction false} ExecStartsEarly(action: Action, index: nat, parent: Option<nat>, t: Trace, w: World)
    requires StartsBeforeAbort(t.started, w) && !Aborted(w, t.moment)
    ensures StartsBeforeAbort(Exec(action, index, parent, t, w).started, w)
    decreases action, 0
  {
    if action.Conditional? {
      var branch := if w.holds(|t.started|) then action.thenBranch else action.elseBranch;
      ExecFromStartsEarly(branch, 0, Some(|t.started|), Begin(t, parent, action), w);
    }
  }

  /** Once the signal is aborted, no action of the run starts, at any depth. */
  lemma NothingStartsAfterAbort(actions: seq<Action>, w: World)
    ensures StartsBeforeAbort(ExecFrom(actions, 0, None, Trace(0, [], [], []), w).started, w)
  {
    ExecFromStartsEarly(actions, 0, None, Trace(0, [], [], []), w);
  }

  // ---------------------------------------------------------------------------
  // An aborted run is the beginning of the unaborted one
  // ---------------------------------------------------------------------------

  function Unaborted(w: World): World {
    w.(abortAt := None)
  }

  /** The same starts and commands so far, the logs aside. */
  predicate SameSoFar(a: Trace, b: Trace) {
    a.moment == b.moment && a.started == b.started && a.commands == b.commands
  }

  /** `a` has gone as far as `b`, or has stopped short of it because of the abort. */
  predicate BeginningOf(a: Trace, b: Trace, w: World) {
    || SameSoFar(a, b)
    || (Aborted(w, a.moment) && a.started <= b.started && a.commands <= b.commands && a.moment <= b.moment)
  }

  lemma {:induction false} ExecFromGrows(actions: seq<Action>, i: nat, parent: Option<nat>, t: Trace, w: World)
    requires i <= |actions|
    ensures var r := ExecFrom(actions, i, parent, t, w);
            t.started <= r.started && t.commands <= r.commands && t.moment <= r.moment
    decreases actions, 1 + |actions| - i
  {
    if i < |actions| && !Aborted(w, t.moment) {
      ExecGrows(actions[i], i, parent, t, w);
      ExecFromGrows(actions, i + 1, parent, Exec(actions[i], i, parent, t, w), w);
    }
  }

  lemma {:induction false} ExecGrows(action: Action, index: nat, parent: Option<nat>, t: Trace, w: World)
    ensures var r := Exec(action, index, parent, t, w);
            t.started <= r.started && t.commands <= r.commands && t.moment <= r.moment
    decreases action, 0
  {
    if action.Conditional? {
      var branch := if w.holds(|t.started|) then action.thenBranch else action.elseBranch;
      ExecFromGrows(branch, 0, Some(|t.started|), Begin(t, parent, action), w);
    }
  }

  lemma {:induction false} ExecFromBeginning(actions: seq<Action>, i: nat, parent: Option<nat>,
                                             a: Trace, b: Trace, w: World)
    requires i <= |actions| && BeginningOf(a, b, w)
    ensures BeginningOf(ExecFrom(actions, i, parent, a, w), ExecFrom(actions, i, parent, b, Unaborted(w)), w)
    decreases actions, 1 + |actions| - i
  {
    if i < |actions| {
      if Aborted(w, a.moment) {
        ExecFromGrows(actions, i, parent, b, Unaborted(w));
      } else {
        ExecBeginning(actions[i], i, parent, a, b, w);
        ExecFromBeginning(actions, i + 1, parent, Exec(actions[i], i, parent, a, w),
                          Exec(actions[i], i, parent, b, Unaborted(w)), w);
      }
    }
  }

  lemma {:induction false} ExecBeginning(action: Action, index: nat, parent: Option<nat>, a: Trace, b: Trace, w: World)
    requires SameSoFar(a, b)
    ensures BeginningOf(Exec(action, index, parent, a, w), Exec(action, index, parent, b, Unaborted(w)), w)
    decreases action, 0
  {
    if action.Conditional? {
      var branch := if w.holds(|a.started|) then action.thenBranch else action.elseBranch;
      ExecFromBeginning(branch, 0, Some(|a.started|), Begin(a, parent, action), Begin(b, parent, action), w);
    }
  }

  /** The commands of an aborted run are a prefix of those the run would have issued unaborted. */
  lemma CommandsArePrefix(actions: seq<Action>, w: World)
    ensures var empty := Trace(0, [], [], []);
            var a, b := ExecFrom(actions, 0, None, empty, w), ExecFrom(actions, 0, None, empty, Unaborted(w));
            a.commands <= b.commands && a.started <= b.started
  {
    var empty := Trace(0, [], [], []);
    ExecFromBeginning(actions, 0, None, empty, empty, w);
  }

  // ---------------------------------------------------------------------------
  // The action logs
  // ---------------------------------------------------------------------------

  predicate Logged(logs: seq<Log>, from: nat, ordinal: nat) {
    exists k :: from <= k < |logs| && logs[k].ordinal == ordinal
  }

  /** `logs` has one entry for each action started from `lo` to `hi`, children before parents. */
  ghost predicate Block(logs: seq<Log>, started: seq<Started>, lo: nat, hi: nat, parent: Option<nat>) {
    && lo <= hi <= |started|
    && (forall j :: 0 <= j < |logs| ==> lo <= logs[j].ordinal < hi)
    && (forall i, j :: 0 <= i < j < |logs| ==> logs[i].ordinal != logs[j].ordinal)
    && (forall o :: lo <= o < hi ==> Logged(logs, 0, o))
    && forall j :: 0 <= j < |logs| ==> ChildFirst(logs, started, j, parent)
  }

  predicate ChildFirst(logs: seq<Log>, started: seq<Started>, j: nat, parent: Option<nat>)
    requires j < |logs|
  {
    logs[j].ordinal < |started| &&
    var p := started[logs[j].ordinal].parent;
    p == parent || (p.Some? && Logged(logs, j + 1, p.value))
  }

  lemma LoggedMore(a: seq<Log>, b: seq<Log>, from: nat, ordinal: nat)
    requires Logged(a, from, ordinal)
    ensures Logged(a + b, from, ordinal)
  {
    var k :| from <= k < |a| && a[k].ordinal == ordinal;
    assert (a + b)[k] == a[k];
  }

  lemma LoggedShift(a: seq<Log>, b: seq<Log>, from: nat, ordinal: nat)
    requires Logged(b, from, ordinal)
    ensures Logged(a + b, |a| + from, ordinal)
    ensures Logged(a + b, 0, ordinal)
  {
    var k :| from <= k < |b| && b[k].ordinal == ordinal;
    assert (a + b)[|a| + k] == b[k];
  }

  lemma BlocksJoin(a: seq<Log>, b: seq<Log>, before: seq<Started>, after: seq<Started>,
                   lo: nat, mid: nat, hi: nat, parent: Option<nat>)
    requires before <= after && Block(a, before, lo, mid, parent) && Block(b, after, mid, hi, parent)
    ensures Block(a + b, after, lo, hi, parent)
  {
    forall o | lo <= o < hi ensures Logged(a + b, 0, o) {
      if o < mid {
        LoggedMore(a, b, 0, o);
      } else {
        LoggedShift(a, b, 0, o);
      }
    }
    forall j | 0 <= j < |a + b| ensures ChildFirst(a + b, after, j, parent) {
      if j < |a| {
        assert ChildFirst(a, before, j, parent);
        var p := before[a[j].ordinal].parent;
        if p != parent {
          LoggedMore(a, b, j + 1, p.value);
        }
      } else {
        assert ChildFirst(b, after, j - |a|, parent);
        var p := after[b[j - |a|].ordinal].parent;
        if p != parent {
          LoggedShift(a, b, j - |a| + 1, p.value);
        }
      }
    }
  }

  /** The entry of an action comes after the entries of the actions nested in it. */
  lemma BlockCloses(inner: seq<Log>, started: seq<Started>, lo: nat, hi: nat, parent: Option<nat>, own: Log)
    requires Block(inner, started, lo + 1, hi, Some(lo)) && own.ordinal == lo && started[lo].parent == parent
    ensures Block(inner + [own], started, lo, hi, parent)
  {
    var logs := inner + [own];
    assert logs[|inner|] == own;
    forall o | lo <= o < hi ensures Logged(logs, 0, o) {
      if o > lo {
        LoggedMore(inner, [own], 0, o);
      }
    }
    forall j | 0 <= j < |logs| ensures ChildFirst(logs, started, j, parent) {
      if j < |inner| {
        assert ChildFirst(inner, started, j, Some(lo));
        var p := started[inner[j].ordinal].parent;
        if p != Some(lo) {
          LoggedMore(inner, [own], j + 1, p.value);
        }
      }
    }
  }

  /** What a stretch of execution adds to the logs is one block. */
  ghost predicate AddsBlock(t: Trace, r: Trace, parent: Option<nat>) {
    && t.logs <= r.logs && t.started <= r.started
    && Block(r.logs[|t.logs|..], r.started, |t.started|, |r.started|, parent)
  }

  lemma {:induction false} ExecFromLogs(actions: seq<Action>, i: nat, parent: Option<nat>, t: Trace, w: World)
    requires i <= |actions|
    ensures AddsBlock(t, ExecFrom(actions, i, parent, t, w), parent)
    decreases actions, 1 + |actions| - i
  {
    if i < |actions| && !Aborted(w, t.moment) {
      var m := Exec(actions[i], i, parent, t, w);
      var r := ExecFrom(actions, i + 1, parent, m, w);
      ExecLogs(actions[i], i, parent, t, w);
      ExecFromLogs(actions, i + 1, parent, m, w);
      BlocksJoin(m.logs[|t.logs|..], r.logs[|m.logs|..], m.started, r.started,
                 |t.started|, |m.started|, |r.started|, parent);
      assert r.logs[|t.logs|..] == m.logs[|t.logs|..] + r.logs[|m.logs|..];
    }
  }

  lemma {:induction false} ExecLogs(action: Action, index: nat, parent: Option<nat>, t: Trace, w: World)
    ensures AddsBlock(t, Exec(action, index, parent, t, w), parent)
    decreases action, 0
  {
    var n, b, r := |t.started|, Begin(t, parent, action), Exec(action, index, parent, t, w);
    if action.Conditional? {
      var branch := if w.holds(n) then action.thenBranch else action.elseBranch;
      var inner := ExecFrom(branch, 0, Some(n), b, w);
      ExecFromLogs(branch, 0, Some(n), b, w);
      BlockCloses(inner.logs[|t.logs|..], r.started, n, |r.started|, parent, r.logs[|inner.logs|]);
      assert r.logs[|t.logs|..] == inner.logs[|t.logs|..] + [r.logs[|inner.logs|]];
    } else {
      BlockCloses([], r.started, n, |r.started|, parent, r.logs[|t.logs|]);
      assert r.logs[|t.logs|..] == [] + [r.logs[|t.logs|]];
    }
  }

  /** Every started action has exactly one log entry, and a nested one has it before its parent's. */
  lemma OneLogEach(actions: seq<Action>, w: World)
    ensures var r := ExecFrom(actions, 0, None, Trace(0, [], [], []), w);
            Block(r.logs, r.started, 0, |r.started|, None)
  {
    ExecFromLogs(actions, 0, None, Trace(0, [], [], []), w);
    var r := ExecFrom(actions, 0, None, Trace(0, [], [], []), w);
    assert r.logs[0..] == r.logs;
  }
}
