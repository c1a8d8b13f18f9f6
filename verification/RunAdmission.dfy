/**
 Which triggers of one runtime become runs, in the queued and the parallel mode.

 A trigger's start is one atomic step: everything up to the first `await` of the
 run happens before the next event. A runtime's accepted triggers are numbered in
 order of acceptance; the number names the run.
 */
module RunAdmission {
  import opened Option
  import opened Sequences

  datatype Mode = Queued | Parallel

  const DEFAULT_MAX_QUEUED := 10
  const DEFAULT_MAX_PARALLEL := 10

  /** The runtime's counters and queue, and beside them the history they answer for. */
  datatype State = State(
    activeCount: int,
    queue: seq<nat>,
    runningAbort: Option<nat>,  // the run whose signal the runtime can abort
    accepted: nat,          // how many triggers were not dropped
    live: set<nat>,         // runs that have started and not finished
    started: seq<nat>,      // in order of starting
    finished: seq<nat>,
    discarded: seq<nat>,    // queued runs a teardown threw away
    aborted: set<nat>)      // runs a teardown told to stop

  datatype Event = Trigger | Finish(run: nat) | Teardown

  const IDLE: State := State(0, [], None, 0, {}, [], [], [], {})

  function Start(mode: Mode, s: State, run: nat): State {
    s.(activeCount := s.activeCount + 1, live := s.live + {run}, started := s.started + [run],
       runningAbort := if mode.Queued? then Some(run) else s.runningAbort)
  }

  function Step(mode: Mode, s: State, e: Event): State {
    match e
    case Trigger =>
      if mode.Queued? && s.activeCount > 0 then
        if |s.queue| >= DEFAULT_MAX_QUEUED then s
        else s.(queue := s.queue + [s.accepted], accepted := s.accepted + 1)
      else if mode.Parallel? && s.activeCount >= DEFAULT_MAX_PARALLEL then s
      else Start(mode, s, s.accepted).(accepted := s.accepted + 1)
    case Finish(run) =>
      if run !in s.live then s
      else
        var t := s.(activeCount := s.activeCount - 1, live := s.live - {run}, finished := s.finished + [run],
                    runningAbort := if mode.Queued? then None else s.runningAbort);
        if t.queue == [] then t else Start(mode, t, t.queue[0]).(queue := t.queue[1..])
    case Teardown =>
      s.(queue := [], discarded := s.discarded + s.queue,
         aborted := if s.runningAbort.Some? then s.aborted + {s.runningAbort.value} else s.aborted)
  }

  function Run(mode: Mode, events: seq<Event>): State {
    if events == [] then IDLE
    else Step(mode, Run(mode, events[..|events| - 1]), events[|events| - 1])
  }

  // ---------------------------------------------------------------------------
  // The runtime object
  // ---------------------------------------------------------------------------

  class AdmissionControl {
    const mode: Mode
    var activeCount: int
    var queue: seq<nat>
    var runningAbort: Option<nat>
    var accepted: nat
    ghost var live: set<nat>
    ghost var started: seq<nat>
    ghost var finished: seq<nat>
    ghost var discarded: seq<nat>
    ghost var aborted: set<nat>

    ghost function Now(): State
      reads this
    {
      State(activeCount, queue, runningAbort, accepted, live, started, finished, discarded, aborted)
    }

    constructor (mode: Mode)
      ensures this.mode == mode && Now() == IDLE
    {
      this.mode := mode;
      activeCount, queue, runningAbort, accepted := 0, [], None, 0;
      live, started, finished, discarded, aborted := {}, [], [], [], {};
    }

    method StartRun(run: nat)
      modifies this`activeCount, this`live, this`started, this`runningAbort
      ensures Now() == Start(mode, old(Now()), run)
    {
      activeCount := activeCount + 1;
      if mode.Queued? {
        runningAbort := Some(run);
      }
      live, started := live + {run}, started + [run];
    }

    method ExecuteTrigger()
      modifies this
      ensures Now() == Step(mode, old(Now()), Trigger)
    {
      match mode {
        case Queued =>
          if activeCount > 0 {
            if |queue| >= DEFAULT_MAX_QUEUED {
              return;
            }
            queue := queue + [accepted];
            accepted := accepted + 1;
            return;
          }
        case Parallel =>
          if activeCount >= DEFAULT_MAX_PARALLEL {
            return;
          }
      }
      accepted := accepted + 1;
      StartRun(accepted - 1);
    }

    /** The `finally` of a run. */
    method RunEnded(ghost run: nat)
      requires run in live
      modifies this
      ensures Now() == Step(mode, old(Now()), Finish(run))
    {
      activeCount := activeCount - 1;
      if mode.Queued? {
        runningAbort := None;
      }
      live, finished := live - {run}, finished + [run];
      if queue != [] {
        var next := queue[0];
        queue := queue[1..];
        StartRun(next);
      }
    }

    /** The part of `teardown` that concerns runs. */
    method Stop()
      modifies this`queue, this`discarded, this`aborted
      ensures Now() == Step(mode, old(Now()), Teardown)
    {
      if runningAbort.Some? {
        aborted := aborted + {runningAbort.value};
      }
      discarded := discarded + queue;
      queue := [];
    }
  }

  // ---------------------------------------------------------------------------
  // Every run of events
  // ---------------------------------------------------------------------------

  /** The runs that have started, followed by those still waiting. */
  function Line(s: State): seq<nat> {
    s.started + s.queue
  }

  /** What one runtime's state always satisfies. */
  ghost predicate Ok(mode: Mode, s: State) {
    && Counts(mode, s)
    && Increasing(Line(s))
    && (forall r :: r in Line(s) || r in s.discarded <==> 0 <= r < s.accepted)
    && (forall r <- s.discarded :: r !in Line(s))
    && (forall r <- s.started :: r in s.live <==> r !in s.finished)
    && (forall r <- s.live :: r in s.started)
    && (forall r <- s.finished :: r in s.started)
  }

  ghost predicate Counts(mode: Mode, s: State) {
    && s.activeCount == |s.live|
    && (mode.Queued? ==> s.activeCount <= 1 && (s.queue != [] ==> s.activeCount == 1))
    && (mode.Parallel? ==>
          s.activeCount <= DEFAULT_MAX_PARALLEL && s.queue == [] && s.discarded == [] && s.aborted == {})
    && |s.queue| <= DEFAULT_MAX_QUEUED
    && (s.runningAbort.Some? <==> mode.Queued? && s.live != {})
    && (s.runningAbort.Some? ==> s.live == {s.runningAbort.value})
    && |s.started| == |s.finished| + |s.live|
    && s.accepted == |s.finished| + |s.live| + |s.queue| + |s.discarded|
  }

  lemma IncreasingApart(xs: seq<nat>, ys: seq<nat>)
    requires Increasing(xs + ys)
    ensures forall y <- ys :: y !in xs
  {
    forall i, j | 0 <= i < |xs| && 0 <= j < |ys| ensures xs[i] < ys[j] {
      assert (xs + ys)[i] == xs[i] && (xs + ys)[|xs| + j] == ys[j];
    }
  }

  lemma InConcat(xs: seq<nat>, ys: seq<nat>, r: nat)
    ensures r in xs + ys <==> r in xs || r in ys
  {
  }

  lemma IncreasingExtends(xs: seq<nat>, r: nat)
    requires Increasing(xs) && forall x <- xs :: x < r
    ensures Increasing(xs + [r])
  {
    forall i, j | 0 <= i < j < |xs + [r]| ensures (xs + [r])[i] < (xs + [r])[j] {
      assert xs[i] in xs;
    }
  }

  lemma EnqueuedOk(s: State)
    requires Ok(Queued, s) && s.activeCount > 0 && |s.queue| < DEFAULT_MAX_QUEUED
    ensures Ok(Queued, Step(Queued, s, Trigger))
  {
    var t, r := Step(Queued, s, Trigger), s.accepted;
    assert Line(t) == Line(s) + [r];
    assert r !in Line(s) && r !in s.discarded;
    IncreasingExtends(Line(s), r);
  }

  lemma StartedCounts(mode: Mode, s: State)
    requires Counts(mode, s) && s.queue == [] && s.accepted !in s.live
    requires s.activeCount < if mode.Queued? then 1 else DEFAULT_MAX_PARALLEL
    ensures Counts(mode, Start(mode, s, s.accepted).(accepted := s.accepted + 1))
  {
    assert |s.live + {s.accepted}| == |s.live| + 1;
    if mode.Queued? {
      assert s.live == {};
    }
  }

  lemma StartedOk(mode: Mode, s: State)
    requires Ok(mode, s) && s.queue == []
    requires s.activeCount < if mode.Queued? then 1 else DEFAULT_MAX_PARALLEL
    ensures Ok(mode, Start(mode, s, s.accepted).(accepted := s.accepted + 1))
  {
    hide Counts;
    var t, r := Start(mode, s, s.accepted).(accepted := s.accepted + 1), s.accepted;
    assert Line(s) == s.started && Line(t) == s.started + [r];
    assert r !in Line(s) && r !in s.discarded && r !in s.live && r !in s.finished;
    assert forall x <- t.started :: x in s.started || x == r;
    IncreasingExtends(s.started, r);
    StartedCounts(mode, s);
  }

  lemma {:induction false} TriggerOk(mode: Mode, s: State)
    requires Ok(mode, s)
    ensures Ok(mode, Step(mode, s, Trigger))
  {
    if mode.Queued? && s.activeCount > 0 {
      if |s.queue| < DEFAULT_MAX_QUEUED {
        EnqueuedOk(s);
      }
    } else if mode.Queued? || s.activeCount < DEFAULT_MAX_PARALLEL {
      StartedOk(mode, s);
    }
  }

  lemma {:induction false} FinishOk(mode: Mode, s: State, run: nat)
    requires Ok(mode, s) && run in s.live
    ensures Ok(mode, Step(mode, s, Finish(run)))
  {
    var t := Step(mode, s, Finish(run));
    IncreasingApart(s.started, s.queue);
    assert Line(t) == Line(s);
    if s.queue != [] {
      var next := s.queue[0];
      assert next in s.queue && next in t.started;
      assert forall r <- t.started :: r in s.started || r == next;
    }
  }

  lemma {:induction false} TeardownOk(mode: Mode, s: State)
    requires Ok(mode, s)
    ensures Ok(mode, Step(mode, s, Teardown))
  {
    var t := Step(mode, s, Teardown);
    IncreasingApart(s.started, s.queue);
    assert Line(t) == s.started && s.started == Line(s)[..|s.started|];
    forall r ensures r in Line(t) || r in t.discarded <==> r in Line(s) || r in s.discarded {
      InConcat(s.started, s.queue, r);
      InConcat(s.discarded, s.queue, r);
    }
  }

  lemma {:induction false} RunOk(mode: Mode, events: seq<Event>)
    ensures Ok(mode, Run(mode, events))
  {
    if events != [] {
      var s, e := Run(mode, events[..|events| - 1]), events[|events| - 1];
      RunOk(mode, events[..|events| - 1]);
      match e {
        case Trigger => TriggerOk(mode, s);
        case Finish(run) =>
          if run in s.live {
            FinishOk(mode, s, run);
          }
        case Teardown => TeardownOk(mode, s);
      }
    }
  }

  /** Queued mode: one run of the runtime at a time, at most ten waiting, none waiting while nothing runs, nothing lost. */
  lemma QueuedRuns(events: seq<Event>)
    ensures var s := Run(Queued, events);
            && 0 <= s.activeCount <= 1 && |s.queue| <= DEFAULT_MAX_QUEUED
            && (s.queue != [] ==> |s.live| == 1)
            && s.accepted == |s.finished| + |s.live| + |s.queue| + |s.discarded|
  {
    RunOk(Queued, events);
  }

  /** Runs start in the order they were accepted; one that is passed over was discarded. */
  lemma StartOrder(mode: Mode, events: seq<Event>, i: nat, r: nat)
    requires i < |Run(mode, events).started| && r < Run(mode, events).started[i]
    ensures r in Run(mode, events).started[..i] || r in Run(mode, events).discarded
  {
    RunOk(mode, events);
    var s := Run(mode, events);
    assert Line(s)[i] == s.started[i] && s.started[i] in Line(s);
    if r !in s.discarded {
      var j :| 0 <= j < |Line(s)| && Line(s)[j] == r;
      assert j < i;
      assert s.started[..i][j] == r;
    }
  }

  /** Parallel mode: the counter is the number of the runtime's live runs, and never exceeds ten. */
  lemma ParallelRuns(events: seq<Event>)
    ensures var s := Run(Parallel, events);
            s.activeCount == |s.live| <= DEFAULT_MAX_PARALLEL && s.queue == [] && s.discarded == []
  {
    RunOk(Parallel, events);
  }

  lemma {:induction false} DiscardedStays(mode: Mode, events: seq<Event>, more: seq<Event>)
    ensures Run(mode, events).discarded <= Run(mode, events + more).discarded
  {
    if more == [] {
      assert events + more == events;
    } else {
      DiscardedStays(mode, events, more[..|more| - 1]);
      assert (events + more)[..|events + more| - 1] == events + more[..|more| - 1];
    }
  }

  /** A trigger thrown away by a teardown never starts, whatever happens afterwards. */
  lemma DiscardedNeverStarts(mode: Mode, events: seq<Event>, more: seq<Event>, r: nat)
    requires r in Run(mode, events).discarded
    ensures r !in Run(mode, events + more).started
  {
    DiscardedStays(mode, events, more);
    RunOk(mode, events + more);
    var s := Run(mode, events + more);
    assert r in s.discarded;
    assert forall x <- s.started :: x in Line(s);
  }

  ghost function LiveRun(s: State): (run: nat)
    requires s.live != {}
    ensures run in s.live
  {
    var r :| r in s.live;
    r
  }

  /** Every live run finishes, one after the other, and nothing else happens. */
  ghost function Drain(s: State): State
    requires Ok(Queued, s)
    decreases |s.queue| + |s.live|
  {
    if s.live == {} then s
    else
      FinishOk(Queued, s, LiveRun(s));
      Drain(Step(Queued, s, Finish(LiveRun(s))))
  }

  lemma DrainStep(s: State, run: nat)
    requires Ok(Queued, s) && run in s.live
    ensures var t := Step(Queued, s, Finish(run));
            && Ok(Queued, t) && Line(t) == Line(s) && t.discarded == s.discarded && t.accepted == s.accepted
            && |t.queue| + |t.live| < |s.queue| + |s.live|
  {
    FinishOk(Queued, s, run);
    var t := Step(Queued, s, Finish(run));
    assert Line(t) == Line(s);
  }

  lemma DrainDone(s: State)
    requires Ok(Queued, s) && s.live == {}
    ensures s.queue == [] && s.started == Line(s) && |s.finished| == s.accepted - |s.discarded|
  {
    assert s.queue == [];
  }

  /** Then everything that was waiting runs to its end, in order. */
  lemma {:induction false} DrainFinishesAll(s: State)
    requires Ok(Queued, s)
    ensures var t := Drain(s);
            && t.queue == [] && t.live == {} && t.started == Line(s)
            && t.discarded == s.discarded && |t.finished| == s.accepted - |s.discarded|
    decreases |s.queue| + |s.live|
  {
    hide Ok, Step, Line;
    if s.live == {} {
      DrainDone(s);
    } else {
      DrainStep(s, LiveRun(s));
      DrainFinishesAll(Step(Queued, s, Finish(LiveRun(s))));
    }
  }

  /** A teardown tells every live run to stop in the queued mode; in the parallel mode it tells none. */
  lemma TeardownStopsIff(mode: Mode, events: seq<Event>)
    ensures var t := Step(mode, Run(mode, events), Teardown);
            t.live <= t.aborted <==> mode.Queued? || t.live == {}
  {
    RunOk(mode, events);
  }

  lemma StepKeeps(mode: Mode, s: State, e: Event)
    requires Ok(mode, s)
    ensures Ok(mode, Step(mode, s, e))
    ensures !e.Trigger? && s.queue == [] ==> Step(mode, s, e).queue == []
  {
    hide Ok;
    match e {
      case Trigger => TriggerOk(mode, s);
      case Finish(run) =>
        if run in s.live {
          FinishOk(mode, s, run);
        }
      case Teardown => TeardownOk(mode, s);
    }
  }

  lemma FreshIsOk(mode: Mode)
    ensures Ok(mode, IDLE)
  {
  }

  lemma TeardownEmpties(mode: Mode, s: State)
    ensures Step(mode, s, Teardown).queue == [] && Step(mode, s, Teardown).live == s.live
  {
  }

  lemma FinishLeavesFewer(mode: Mode, s: State, run: nat)
    requires Ok(mode, s) && mode.Queued?
    ensures |Step(mode, s, Finish(run)).live| <= |s.live|
    ensures s.queue == [] && run in s.live ==> |Step(mode, s, Finish(run)).live| == |s.live| - 1
  {
    if run in s.live {
      FinishOk(mode, s, run);
    }
  }

  lemma TriggerStarts(s: State)
    requires Ok(Queued, s)
    ensures |Step(Queued, s, Trigger).live| == 1 && |s.live| <= 1
  {
    TriggerOk(Queued, s);
    if s.activeCount == 0 {
      assert s.live == {};
    }
  }
}
