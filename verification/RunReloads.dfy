/**
 The runs of one automation while it is reloaded and triggered. A reload tears the
 runtime down at once and registers a new one when it has read the automation's row;
 a trigger that finds no runtime reads the row and then starts a run of its own.

 Reloads of the automation do not overlap. What is left of a trigger after reading the
 row is one atomic step, as every start is.
 */
module RunReloads {
  import opened Option
  import opened RunAdmission

  datatype Life = Life(
    past: seq<State>,           // torn-down runtimes, whose runs may still be going on
    current: Option<State>,     // the registered runtime
    loading: nat,               // triggers that found no runtime and are reading the row
    direct: nat)                // runs such triggers have started

  datatype Happening =
    | Triggered
    | Loaded(found: bool)
    | Finished(runtime: nat, run: nat)    // torn-down runtimes count from the oldest; the next number is the registered one
    | DirectFinished
    | TornDown                            // a reload begins
    | Registered                          // and ends, for an enabled automation

  const UNREGISTERED: Life := Life([], None, 0, 0)

  function Happen(mode: Mode, a: Life, h: Happening): Life {
    match h
    case Triggered =>
      if a.current.Some? then a.(current := Some(Step(mode, a.current.value, Trigger)))
      else a.(loading := a.loading + 1)
    case Loaded(found) =>
      if a.loading == 0 then a
      else a.(loading := a.loading - 1, direct := if found then a.direct + 1 else a.direct)
    case Finished(k, run) =>
      if k < |a.past| then a.(past := a.past[k := Step(mode, a.past[k], Finish(run))])
      else if k == |a.past| && a.current.Some? then a.(current := Some(Step(mode, a.current.value, Finish(run))))
      else a
    case DirectFinished => if a.direct == 0 then a else a.(direct := a.direct - 1)
    case TornDown =>
      if a.current.None? then a
      else a.(past := a.past + [Step(mode, a.current.value, Teardown)], current := None)
    case Registered => if a.current.Some? then a else a.(current := Some(IDLE))
  }

  function Live(mode: Mode, happenings: seq<Happening>): Life {
    if happenings == [] then UNREGISTERED
    else Happen(mode, Live(mode, happenings[..|happenings| - 1]), happenings[|happenings| - 1])
  }

  function LiveRuns(states: seq<State>): nat {
    if states == [] then 0 else LiveRuns(states[..|states| - 1]) + |states[|states| - 1].live|
  }

  /** How many runs the registered runtime has going on. */
  function Own(a: Life): nat {
    if a.current.Some? then |a.current.value.live| else 0
  }

  /** How many runs of the automation are going on. */
  function Going(a: Life): nat {
    LiveRuns(a.past) + Own(a) + a.direct
  }

  ghost predicate LifeOk(mode: Mode, a: Life) {
    && (a.current.Some? ==> Ok(mode, a.current.value))
    && forall k :: 0 <= k < |a.past| ==> Ok(mode, a.past[k]) && a.past[k].queue == []
  }

  lemma HappenKeeps(mode: Mode, a: Life, h: Happening)
    requires LifeOk(mode, a)
    ensures LifeOk(mode, Happen(mode, a, h))
  {
    hide Ok, Step;
    match h {
      case Triggered =>
        if a.current.Some? {
          StepKeeps(mode, a.current.value, Trigger);
        }
      case Finished(k, run) =>
        if k < |a.past| {
          StepKeeps(mode, a.past[k], Finish(run));
        } else if a.current.Some? {
          StepKeeps(mode, a.current.value, Finish(run));
        }
      case TornDown =>
        if a.current.Some? {
          StepKeeps(mode, a.current.value, Teardown);
          TeardownEmpties(mode, a.current.value);
        }
      case Registered => FreshIsOk(mode);
      case _ =>
    }
  }

  lemma {:induction false} LifeHolds(mode: Mode, happenings: seq<Happening>)
    ensures LifeOk(mode, Live(mode, happenings))
  {
    hide Ok;
    if happenings != [] {
      LifeHolds(mode, happenings[..|happenings| - 1]);
      HappenKeeps(mode, Live(mode, happenings[..|happenings| - 1]), happenings[|happenings| - 1]);
    }
  }

  lemma {:induction false} LiveRunsChange(states: seq<State>, k: nat, s: State)
    requires k < |states|
    ensures LiveRuns(states[k := s]) == LiveRuns(states) - |states[k].live| + |s.live|
    ensures LiveRuns(states) >= |states[k].live|
  {
    var n := |states| - 1;
    if k < n {
      LiveRunsChange(states[..n], k, s);
      assert states[k := s][..n] == states[..n][k := s];
    } else {
      assert states[k := s][..n] == states[..n];
    }
  }

  /** How the three kinds of runs change. */
  lemma RunsAfter(a: Life, h: Happening)
    requires LifeOk(Queued, a)
    ensures var b := Happen(Queued, a, h);
            && (h.Triggered? ==>
                  LiveRuns(b.past) == LiveRuns(a.past) && b.direct == a.direct
                  && Own(b) == (if a.current.Some? then 1 else 0) && Own(a) <= 1)
            && (h.Loaded? ==>
                  LiveRuns(b.past) == LiveRuns(a.past) && Own(b) == Own(a)
                  && b.direct == if a.loading > 0 && h.found then a.direct + 1 else a.direct)
            && (h.Finished? || h.DirectFinished? ==>
                  LiveRuns(b.past) <= LiveRuns(a.past) && Own(b) <= Own(a) && b.direct <= a.direct)
            && (h.TornDown? ==> LiveRuns(b.past) == LiveRuns(a.past) + Own(a) && Own(b) == 0 && b.direct == a.direct)
            && (h.Registered? ==> LiveRuns(b.past) == LiveRuns(a.past) && Own(b) == Own(a) && b.direct == a.direct)
  {
    hide Ok, Step;
    match h {
      case Triggered =>
        if a.current.Some? {
          TriggerStarts(a.current.value);
        }
      case Finished(k, run) =>
        if k < |a.past| {
          FinishLeavesFewer(Queued, a.past[k], run);
          LiveRunsChange(a.past, k, Step(Queued, a.past[k], Finish(run)));
        } else if a.current.Some? {
          FinishLeavesFewer(Queued, a.current.value, run);
        }
      case TornDown =>
        if a.current.Some? {
          TeardownEmpties(Queued, a.current.value);
          assert Happen(Queued, a, h).past[..|a.past|] == a.past;
        }
      case _ =>
    }
  }

  /**
   Two runs of a queued automation begin to overlap when the registered runtime is
   triggered while a run of a torn-down runtime or a direct run is going on, or when a
   direct run starts while any run is.
   */
  lemma OverlapsIff(happenings: seq<Happening>, h: Happening)
    requires Going(Live(Queued, happenings)) <= 1
    ensures var a := Live(Queued, happenings);
            Going(Happen(Queued, a, h)) > 1 <==>
              || (h.Triggered? && a.current.Some? && (LiveRuns(a.past) > 0 || a.direct > 0))
              || (h == Loaded(true) && a.loading > 0 && Going(a) > 0)
  {
    LifeHolds(Queued, happenings);
    RunsAfter(Live(Queued, happenings), h);
  }

  /** A torn-down runtime has a run going on if and only if a reload came while it had. */
  lemma LeftBehindIff(happenings: seq<Happening>, h: Happening)
    requires LiveRuns(Live(Queued, happenings).past) == 0
    ensures var a := Live(Queued, happenings);
            LiveRuns(Happen(Queued, a, h).past) > 0 <==> h.TornDown? && Own(a) > 0
  {
    LifeHolds(Queued, happenings);
    RunsAfter(Live(Queued, happenings), h);
  }

  /** A direct run comes from a trigger that found no runtime. */
  lemma DirectIff(mode: Mode, happenings: seq<Happening>, h: Happening)
    ensures var a, b := Live(mode, happenings), Happen(mode, Live(mode, happenings), h);
            && (b.loading > a.loading <==> h.Triggered? && a.current.None?)
            && (b.direct > a.direct <==> h == Loaded(true) && a.loading > 0)
  {
  }

  /** Every trigger finds a runtime, and every reload one with nothing going on. */
  ghost predicate Careful(happenings: seq<Happening>) {
    forall k :: 0 <= k < |happenings| ==>
      && (happenings[k].Triggered? ==> Live(Queued, happenings[..k]).current.Some?)
      && (happenings[k].TornDown? ==> Own(Live(Queued, happenings[..k])) == 0)
  }

  lemma CarefulInit(happenings: seq<Happening>)
    requires happenings != [] && Careful(happenings)
    ensures Careful(happenings[..|happenings| - 1])
  {
    var before := happenings[..|happenings| - 1];
    forall k | 0 <= k < |before|
      ensures before[k] == happenings[k] && before[..k] == happenings[..k]
    {
    }
  }

  /** Then a queued automation never has two runs going on. */
  lemma {:induction false} NoOverlap(happenings: seq<Happening>)
    requires Careful(happenings)
    ensures var a := Live(Queued, happenings);
            LiveRuns(a.past) == 0 && a.loading == 0 && a.direct == 0 && Going(a) <= 1
  {
    if happenings != [] {
      var before, last := happenings[..|happenings| - 1], happenings[|happenings| - 1];
      CarefulInit(happenings);
      NoOverlap(before);
      OverlapsIff(before, last);
      LeftBehindIff(before, last);
      DirectIff(Queued, before, last);
    }
  }

  /** One happening more, with what it does to the counts. */
  lemma HappensNext(happenings: seq<Happening>, h: Happening, all: seq<Happening>)
    requires all == happenings + [h]
    ensures Live(Queued, all) == Happen(Queued, Live(Queued, happenings), h)
    ensures var a, b := Live(Queued, happenings), Live(Queued, all);
            && (h.Registered? ==>
                  LiveRuns(b.past) == LiveRuns(a.past) && b.direct == a.direct && b.current.Some? && b.loading == a.loading)
            && (h.Triggered? && a.current.Some? ==>
                  LiveRuns(b.past) == LiveRuns(a.past) && b.direct == a.direct && Own(b) == 1 && b.current.Some?)
            && (h.TornDown? ==>
                  LiveRuns(b.past) == LiveRuns(a.past) + Own(a) && b.current.None? && b.direct == a.direct
                  && b.loading == a.loading)
  {
    assert all[..|all| - 1] == happenings;
    LifeHolds(Queued, happenings);
    RunsAfter(Live(Queued, happenings), h);
  }

  /** A reload while a run is going on: the new runtime does not wait for the run that is told to stop. */
  lemma OverlapRun()
    ensures Going(Live(Queued, [Registered, Triggered, TornDown, Registered, Triggered])) == 2
  {
    hide Happen, LiveRuns;
    FirstRegistered();
    HappensNext([Registered], Triggered, [Registered, Triggered]);
    HappensNext([Registered, Triggered], TornDown, [Registered, Triggered, TornDown]);
    HappensNext([Registered, Triggered, TornDown], Registered, [Registered, Triggered, TornDown, Registered]);
    HappensNext([Registered, Triggered, TornDown, Registered], Triggered,
                [Registered, Triggered, TornDown, Registered, Triggered]);
  }

  lemma FirstRegistered()
    ensures var a := Live(Queued, [Registered]);
            a.current == Some(IDLE) && LiveRuns(a.past) == 0 && Own(a) == 0 && a.direct == 0 && a.loading == 0
  {
    assert [Registered][..0] == [];
  }

  /** A disabled automation that is triggered twice. */
  lemma UnregisteredRun()
    ensures Going(Live(Queued, [Triggered, Triggered, Loaded(true), Loaded(true)])) == 2
  {
    hide Live;
    FirstTriggered();
    HappensNext([Triggered], Triggered, [Triggered, Triggered]);
    HappensNext([Triggered, Triggered], Loaded(true), [Triggered, Triggered, Loaded(true)]);
    HappensNext([Triggered, Triggered, Loaded(true)], Loaded(true), [Triggered, Triggered, Loaded(true), Loaded(true)]);
    assert Live(Queued, [Triggered, Triggered, Loaded(true), Loaded(true)]) == Life([], None, 0, 2);
  }

  lemma FirstTriggered()
    ensures Live(Queued, [Triggered]) == Life([], None, 1, 0)
  {
    assert [Triggered][..0] == [];
  }

  /** A trigger between the two halves of a reload, though the reload came while nothing was going on. */
  lemma GapRun()
    ensures Going(Live(Queued, [Registered, TornDown, Triggered, Loaded(true), Registered, Triggered])) == 2
  {
    hide Live, LiveRuns, Step;
    FirstRegistered();
    HappensNext([Registered], TornDown, [Registered, TornDown]);
    HappensNext([Registered, TornDown], Triggered, [Registered, TornDown, Triggered]);
    HappensNext([Registered, TornDown, Triggered], Loaded(true), [Registered, TornDown, Triggered, Loaded(true)]);
    HappensNext([Registered, TornDown, Triggered, Loaded(true)], Registered,
                [Registered, TornDown, Triggered, Loaded(true), Registered]);
    HappensNext([Registered, TornDown, Triggered, Loaded(true), Registered], Triggered,
                [Registered, TornDown, Triggered, Loaded(true), Registered, Triggered]);
  }
}
