/**
 Which actions a run starts: the branch the condition asks for, whole and in order.
 */
module ActionMeaning {
  import opened Option
  import opened ActionRun

  const NOT_BEGUN: Trace := Trace(0, [], [], [])

  /** The trace of a whole run. */
  function Whole(actions: seq<Action>, w: World): Trace {
    ExecFrom(actions, 0, None, NOT_BEGUN, w)
  }

  /** The actions started under `parent`, in the order of starting. */
  function Children(started: seq<Started>, parent: Option<nat>): seq<Action> {
    if started == [] then []
    else
      var last := started[|started| - 1];
      Children(started[..|started| - 1], parent) + if last.parent == parent then [last.action] else []
  }

  lemma {:induction false} ChildrenJoin(a: seq<Started>, b: seq<Started>, parent: Option<nat>)
    ensures Children(a + b, parent) == Children(a, parent) + Children(b, parent)
  {
    if b == [] {
      assert a + b == a;
    } else {
      ChildrenJoin(a, b[..|b| - 1], parent);
      assert (a + b)[..|a + b| - 1] == a + b[..|b| - 1];
    }
  }

  lemma ChildrenOfOne(s: Started, parent: Option<nat>)
    ensures Children([s], parent) == if s.parent == parent then [s.action] else []
  {
    assert [s][..0] == [];
  }

  /** The names of the commands among the started actions. */
  function CommandNames(started: seq<Started>): seq<string> {
    if started == [] then []
    else
      var last := started[|started| - 1].action;
      CommandNames(started[..|started| - 1]) + if last.Command? then [last.name] else []
  }

  lemma {:induction false} CommandNamesJoin(a: seq<Started>, b: seq<Started>)
    ensures CommandNames(a + b) == CommandNames(a) + CommandNames(b)
  {
    if b == [] {
      assert a + b == a;
    } else {
      CommandNamesJoin(a, b[..|b| - 1]);
      assert (a + b)[..|a + b| - 1] == a + b[..|b| - 1];
    }
  }

  /** What a started action asks to be run inside it. */
  function Inner(action: Action, holds: bool): seq<Action> {
    match action
    case Conditional(_, thenBranch, elseBranch) => if holds then thenBranch else elseBranch
    case _ => []
  }

  /** As far as the run got, the list was started from its beginning; without an abort, all of it. */
  predicate RunsList(started: seq<Action>, list: seq<Action>, w: World) {
    started <= list && (w.abortAt.None? ==> started == list)
  }

  /** `more` are the starts from `lo` to `hi` among `all`: `list` under `parent`, and under each of them its inner list. */
  ghost predicate Family(more: seq<Started>, all: seq<Started>, lo: nat, hi: nat, parent: Option<nat>,
                         list: seq<Action>, w: World)
    requires hi <= |all|
  {
    && RunsList(Children(more, parent), list, w)
    && (forall q: Option<nat> | q != parent && (q.None? || q.value < lo || q.value >= hi) :: Children(more, q) == [])
    && forall q: nat | lo <= q < hi :: RunsList(Children(more, Some(q)), Inner(all[q].action, w.holds(q)), w)
  }

  /** What was started from `t` to `r`, under `parent` and below. */
  ghost predicate Starts(t: Trace, r: Trace, parent: Option<nat>, list: seq<Action>, w: World) {
    && t.started <= r.started
    && var more := r.started[|t.started|..];
       && Family(more, r.started, |t.started|, |r.started|, parent, list, w)
       && r.commands == t.commands + CommandNames(more)
  }

  ghost predicate Before(parent: Option<nat>, t: Trace) {
    parent.Some? ==> parent.value < |t.started|
  }

  lemma NothingStarts(t: Trace, parent: Option<nat>, list: seq<Action>, w: World)
    requires list == [] || w.abortAt.Some?
    ensures Starts(t, t, parent, list, w)
  {
    assert t.started[|t.started|..] == [];
    assert t.commands + [] == t.commands;
  }

  lemma FamilyThen(first: seq<Started>, then_: seq<Started>, before: seq<Started>, all: seq<Started>,
                   lo: nat, mid: nat, hi: nat, parent: Option<nat>, a: Action, rest: seq<Action>, w: World)
    requires lo <= mid <= hi <= |all| && mid <= |before| && before <= all && (parent.Some? ==> parent.value < lo)
    requires Family(first, before, lo, mid, parent, [a], w) && Family(then_, all, mid, hi, parent, rest, w)
    requires Children(first, parent) == [a]
    ensures Family(first + then_, all, lo, hi, parent, [a] + rest, w)
  {
    hide Children, Inner;
    forall q: Option<nat> ensures Children(first + then_, q) == Children(first, q) + Children(then_, q) {
      ChildrenJoin(first, then_, q);
    }
    forall q: nat | lo <= q < hi
      ensures RunsList(Children(first + then_, Some(q)), Inner(all[q].action, w.holds(q)), w)
    {
      if q < mid {
        assert Children(then_, Some(q)) == [] && Children(first, Some(q)) + [] == Children(first, Some(q));
      } else {
        assert Children(first, Some(q)) == [] && [] + Children(then_, Some(q)) == Children(then_, Some(q));
      }
    }
  }

  lemma StartsThen(t: Trace, m: Trace, r: Trace, parent: Option<nat>, a: Action, rest: seq<Action>, w: World)
    requires Before(parent, t) && Starts(t, m, parent, [a], w) && Starts(m, r, parent, rest, w)
    requires Children(m.started[|t.started|..], parent) == [a]
    ensures Starts(t, r, parent, [a] + rest, w)
  {
    hide Children, CommandNames, Family;
    var first, then_ := m.started[|t.started|..], r.started[|m.started|..];
    assert r.started[|t.started|..] == first + then_;
    FamilyThen(first, then_, m.started, r.started, |t.started|, |m.started|, |r.started|, parent, a, rest, w);
    CommandNamesJoin(first, then_);
  }

  lemma FamilyOne(own: Started, inside: seq<Started>, all: seq<Started>, n: nat, hi: nat, w: World)
    requires n < hi <= |all| && all[n] == own && (own.parent.Some? ==> own.parent.value < n)
    requires Family(inside, all, n + 1, hi, Some(n), Inner(own.action, w.holds(n)), w)
    ensures Family([own] + inside, all, n, hi, own.parent, [own.action], w)
    ensures Children([own] + inside, own.parent) == [own.action]
  {
    hide Children, Inner;
    forall q: Option<nat>
      ensures Children([own] + inside, q) ==
              if q == own.parent then [own.action] + Children(inside, q) else Children(inside, q)
    {
      OwnAndInside(own, inside, q);
    }
    assert Children(inside, own.parent) == [] && [own.action] + [] == [own.action];
  }

  /** An action that starts others only by running its inner list. */
  lemma StartsOne(t: Trace, b: Trace, r: Trace, parent: Option<nat>, action: Action, w: World)
    requires Before(parent, t) && b.started == t.started + [Started(t.moment, parent, action)]
    requires b.commands == t.commands + if action.Command? then [action.name] else []
    requires Starts(b, r, Some(|t.started|), Inner(action, w.holds(|t.started|)), w)
    ensures Starts(t, r, parent, [action], w) && Children(r.started[|t.started|..], parent) == [action]
  {
    hide Inner, Children, CommandNames, Family;
    var n := |t.started|;
    var own, inside := Started(t.moment, parent, action), r.started[n + 1..];
    assert b.started[n] == own && r.started[n] == own;
    assert r.started[n..] == [own] + inside && inside == r.started[|b.started|..];
    FamilyOne(own, inside, r.started, n, |r.started|, w);
    OwnName(own, inside);
  }

  lemma OwnAndInside(own: Started, inside: seq<Started>, q: Option<nat>)
    ensures Children([own] + inside, q) == if own.parent == q then [own.action] + Children(inside, q) else Children(inside, q)
  {
    ChildrenJoin([own], inside, q);
    ChildrenOfOne(own, q);
    assert [] + Children(inside, q) == Children(inside, q);
  }

  lemma OwnName(own: Started, inside: seq<Started>)
    ensures CommandNames([own] + inside) ==
            (if own.action.Command? then [own.action.name] else []) + CommandNames(inside)
  {
    CommandNamesJoin([own], inside);
    assert [own][..0] == [];
  }

  lemma {:induction false} ExecFromStarts(actions: seq<Action>, i: nat, parent: Option<nat>, t: Trace, w: World)
    requires i <= |actions| && Before(parent, t)
    ensures Starts(t, ExecFrom(actions, i, parent, t, w), parent, actions[i..], w)
    decreases actions, 1 + |actions| - i
  {
    hide Starts;
    if i == |actions| || Aborted(w, t.moment) {
      NothingStarts(t, parent, actions[i..], w);
    } else {
      var m := Exec(actions[i], i, parent, t, w);
      ExecStarts(actions[i], i, parent, t, w);
      assert Before(parent, m) by { StartsExtends(t, m, parent, [actions[i]], w); }
      ExecFromStarts(actions, i + 1, parent, m, w);
      StartsThen(t, m, ExecFrom(actions, i + 1, parent, m, w), parent, actions[i], actions[i + 1..], w);
      assert actions[i..] == [actions[i]] + actions[i + 1..];
    }
  }

  lemma StartsExtends(t: Trace, r: Trace, parent: Option<nat>, list: seq<Action>, w: World)
    requires Starts(t, r, parent, list, w)
    ensures t.started <= r.started
  {
  }

  lemma {:induction false} ExecStarts(action: Action, index: nat, parent: Option<nat>, t: Trace, w: World)
    requires Before(parent, t)
    ensures var r := Exec(action, index, parent, t, w);
            Starts(t, r, parent, [action], w) && t.started <= r.started && Children(r.started[|t.started|..], parent) == [action]
    decreases action, 0
  {
    hide Starts, Children, CommandNames;
    var n, r := |t.started|, Exec(action, index, parent, t, w);
    var b := Begin(t, parent, action);
    if action.Conditional? {
      var branch := if w.holds(n) then action.thenBranch else action.elseBranch;
      ExecFromStarts(branch, 0, Some(n), b, w);
      assert branch[0..] == branch;
      var inner := ExecFrom(branch, 0, Some(n), b, w);
      SameStarts(b, inner, b, r, Some(n), branch, w);
    } else {
      var c := b.(commands := r.commands);
      assert r.started == c.started;
      NothingStarts(c, Some(n), [], w);
      SameStarts(c, c, c, r, Some(n), [], w);
      StartsOne(t, c, r, parent, action, w);
    }
    if action.Conditional? {
      StartsOne(t, b, r, parent, action, w);
    }
    StartsExtends(t, r, parent, [action], w);
  }

  /** Only what was started and commanded counts. */
  lemma SameStarts(t: Trace, r: Trace, t': Trace, r': Trace, parent: Option<nat>, list: seq<Action>, w: World)
    requires Starts(t, r, parent, list, w)
    requires t.started == t'.started && r.started == r'.started && t.commands == t'.commands && r.commands == r'.commands
    ensures Starts(t', r', parent, list, w)
  {
  }

  /**
   A run starts its list from the beginning, and inside each conditional its `then` list
   if the condition held and its `else` list otherwise; all of them, unless it is aborted.
   No other action has any inside it. The commands are those of the started actions, in order.
   */
  lemma WhatStarts(actions: seq<Action>, w: World)
    ensures var r := Whole(actions, w);
            && RunsList(Children(r.started, None), actions, w)
            && r.commands == CommandNames(r.started)
            && forall n: nat | n < |r.started| ::
                 match r.started[n].action
                 case Conditional(_, thenBranch, elseBranch) =>
                   RunsList(Children(r.started, Some(n)), if w.holds(n) then thenBranch else elseBranch, w)
                 case _ => Children(r.started, Some(n)) == []
  {
    ExecFromStarts(actions, 0, None, NOT_BEGUN, w);
    var r := Whole(actions, w);
    assert actions[0..] == actions && r.started[0..] == r.started;
    assert [] + CommandNames(r.started) == CommandNames(r.started);
  }

  // ---------------------------------------------------------------------------
  // The action logs
  // ---------------------------------------------------------------------------

  /** What may be logged for an action. */
  predicate FitsAction(action: Action, ordinal: nat, result: Result, w: World) {
    match action
    case Conditional(_, _, _) => result == if w.holds(ordinal) then Success else Skipped
    case Delay(_) => result == Success
    case LogMessage(_) => result == Success
    case _ =>
      && (!w.throws(ordinal) ==> result == Success)
      && (w.throws(ordinal) ==> result != Success && (w.abortAt.None? ==> result == Failed))
  }

  ghost predicate LogsFit(r: Trace, from: nat, w: World) {
    forall k :: from <= k < |r.logs| ==>
      r.logs[k].ordinal < |r.started| && FitsAction(r.started[r.logs[k].ordinal].action, r.logs[k].ordinal, r.logs[k].result, w)
  }

  lemma {:induction false} ExecFromLogsFit(actions: seq<Action>, i: nat, parent: Option<nat>, t: Trace, w: World)
    requires i <= |actions|
    ensures var r := ExecFrom(actions, i, parent, t, w);
            t.started <= r.started && t.logs <= r.logs && LogsFit(r, |t.logs|, w)
    decreases actions, 1 + |actions| - i
  {
    if i < |actions| && !Aborted(w, t.moment) {
      ExecLogsFit(actions[i], i, parent, t, w);
      ExecFromLogsFit(actions, i + 1, parent, Exec(actions[i], i, parent, t, w), w);
    }
  }

  lemma {:induction false} ExecLogsFit(action: Action, index: nat, parent: Option<nat>, t: Trace, w: World)
    ensures var r := Exec(action, index, parent, t, w);
            t.started <= r.started && t.logs <= r.logs && LogsFit(r, |t.logs|, w)
    decreases action, 0
  {
    if action.Conditional? {
      var branch := if w.holds(|t.started|) then action.thenBranch else action.elseBranch;
      ExecFromLogsFit(branch, 0, Some(|t.started|), Begin(t, parent, action), w);
    }
  }

  /** Every logged index is the action's place in its list. */
  ghost predicate PlacesFit(r: Trace, from: nat) {
    forall k :: from <= k < |r.logs| ==>
      && r.logs[k].ordinal < |r.started|
      && r.logs[k].index == |Children(r.started[..r.logs[k].ordinal], r.started[r.logs[k].ordinal].parent)|
  }

  /** Nothing was started under an action that has not started. */
  ghost predicate NoneAhead(started: seq<Started>) {
    forall q: nat | q >= |started| :: Children(started, Some(q)) == []
  }

  lemma Ahead(t: Trace, r: Trace, parent: Option<nat>, list: seq<Action>, w: World)
    requires NoneAhead(t.started) && Before(parent, t) && Starts(t, r, parent, list, w)
    ensures NoneAhead(r.started)
    ensures Children(r.started, parent) == Children(t.started, parent) + Children(r.started[|t.started|..], parent)
  {
    hide Children, CommandNames, Inner;
    var more := r.started[|t.started|..];
    assert r.started == t.started + more;
    forall q: Option<nat> ensures Children(r.started, q) == Children(t.started, q) + Children(more, q) {
      ChildrenJoin(t.started, more, q);
    }
  }

  lemma BegunAhead(t: Trace, parent: Option<nat>, action: Action)
    requires NoneAhead(t.started) && Before(parent, t)
    ensures var b := Begin(t, parent, action); NoneAhead(b.started) && Children(b.started, Some(|t.started|)) == []
  {
    hide Children;
    var own := Started(t.moment, parent, action);
    forall q: Option<nat> ensures Children(t.started + [own], q) == Children(t.started, q) + Children([own], q) {
      ChildrenJoin(t.started, [own], q);
    }
    forall q: Option<nat> ensures Children([own], q) == if parent == q then [action] else [] {
      ChildrenOfOne(own, q);
    }
  }

  lemma PlacesThen(t: Trace, m: Trace, r: Trace)
    requires |t.logs| <= |m.logs| && m.logs <= r.logs && m.started <= r.started
    requires PlacesFit(m, |t.logs|) && PlacesFit(r, |m.logs|)
    ensures PlacesFit(r, |t.logs|)
  {
    forall k | |t.logs| <= k < |m.logs|
      ensures m.logs[k].ordinal < |m.started| && r.logs[k] == m.logs[k]
      ensures r.started[..m.logs[k].ordinal] == m.started[..m.logs[k].ordinal]
    {
    }
  }

  lemma {:induction false} ExecFromPlaces(actions: seq<Action>, i: nat, parent: Option<nat>, t: Trace, w: World)
    requires i <= |actions| && Before(parent, t) && NoneAhead(t.started) && |Children(t.started, parent)| == i
    ensures PlacesFit(ExecFrom(actions, i, parent, t, w), |t.logs|)
    decreases actions, 1 + |actions| - i
  {
    hide PlacesFit, NoneAhead, Children, Starts;
    if i == |actions| || Aborted(w, t.moment) {
      NothingPlaced(t);
    } else {
      var m := Exec(actions[i], i, parent, t, w);
      ExecPlaces(actions[i], i, parent, t, w);
      ExecStarts(actions[i], i, parent, t, w);
      Ahead(t, m, parent, [actions[i]], w);
      ExecFromPlaces(actions, i + 1, parent, m, w);
      ExecLogsFit(actions[i], i, parent, t, w);
      ExecFromLogsFit(actions, i + 1, parent, m, w);
      PlacesThen(t, m, ExecFrom(actions, i + 1, parent, m, w));
    }
  }

  lemma NothingPlaced(t: Trace)
    ensures PlacesFit(t, |t.logs|)
  {
  }

  lemma {:induction false} ExecPlaces(action: Action, index: nat, parent: Option<nat>, t: Trace, w: World)
    requires Before(parent, t) && NoneAhead(t.started) && |Children(t.started, parent)| == index
    ensures PlacesFit(Exec(action, index, parent, t, w), |t.logs|)
    decreases action, 0
  {
    hide NoneAhead, Children, Starts;
    var n, b, r := |t.started|, Begin(t, parent, action), Exec(action, index, parent, t, w);
    ExecLogsFit(action, index, parent, t, w);
    assert r.started[..n] == t.started;
    if action.Conditional? {
      var branch := if w.holds(n) then action.thenBranch else action.elseBranch;
      BegunAhead(t, parent, action);
      ExecFromPlaces(branch, 0, Some(n), b, w);
      ExecFromLogsFit(branch, 0, Some(n), b, w);
      assert r.started[n] == b.started[n];
    }
  }

  /** The index in a log entry says how many actions of the same list were started before. */
  lemma WhereIsLogged(actions: seq<Action>, w: World, k: nat)
    requires k < |Whole(actions, w).logs|
    ensures var r := Whole(actions, w);
            var entry := r.logs[k];
            && entry.ordinal < |r.started|
            && entry.index == |Children(r.started[..entry.ordinal], r.started[entry.ordinal].parent)|
  {
    ExecFromPlaces(actions, 0, None, NOT_BEGUN, w);
  }

  /**
   A conditional is logged as a success if and only if its condition held, and as skipped
   otherwise; a command or a call if and only if it did not throw.
   */
  lemma WhatIsLogged(actions: seq<Action>, w: World, k: nat)
    requires k < |Whole(actions, w).logs|
    ensures var r := Whole(actions, w);
            var entry := r.logs[k];
            entry.ordinal < |r.started| &&
            var action := r.started[entry.ordinal].action;
            && (action.Conditional? ==> entry.result == if w.holds(entry.ordinal) then Success else Skipped)
            && (action.Command? || action.Call? ==> (entry.result == Success <==> !w.throws(entry.ordinal)))
            && (action.Delay? || action.LogMessage? ==> entry.result == Success)
  {
    ExecFromLogsFit(actions, 0, None, NOT_BEGUN, w);
  }
}
