/** What becomes of a trigger, and of the end of a run, after every history of a runtime. */
module AdmissionLaws {
  import opened RunAdmission

  lemma Next(mode: Mode, events: seq<Event>, e: Event)
    ensures Run(mode, events + [e]) == Step(mode, Run(mode, events), e)
  {
    assert (events + [e])[..|events|] == events;
  }

  /**
   A queued trigger is accepted exactly when fewer than ten wait. It starts at once exactly when
   no run is going on, and waits behind the others otherwise.
   */
  lemma QueuedAdmission(events: seq<Event>)
    ensures var s, t := Run(Queued, events), Run(Queued, events + [Trigger]);
            && (t == s <==> |s.queue| >= 10)
            && (s.live == {} ==>
                  t.started == s.started + [s.accepted] && t.live == {s.accepted} && t.queue == s.queue == [])
            && (s.live != {} && |s.queue| < 10 ==>
                  t.queue == s.queue + [s.accepted] && t.started == s.started && t.live == s.live)
            && (t != s ==> t.accepted == s.accepted + 1)
            && t.finished == s.finished && t.discarded == s.discarded && t.aborted == s.aborted
  {
    RunOk(Queued, events);
    Next(Queued, events, Trigger);
    var s := Run(Queued, events);
    assert s.activeCount > 0 <==> s.live != {};
  }

  /** A parallel trigger starts exactly when fewer than ten runs are going on; nothing ever waits. */
  lemma ParallelAdmission(events: seq<Event>)
    ensures var s, t := Run(Parallel, events), Run(Parallel, events + [Trigger]);
            && (t == s <==> |s.live| >= 10)
            && (|s.live| < 10 ==>
                  && s.accepted !in s.live && t.live == s.live + {s.accepted}
                  && t.started == s.started + [s.accepted] && t.accepted == s.accepted + 1)
            && t.queue == [] && t.finished == s.finished && t.discarded == s.discarded && t.aborted == s.aborted
  {
    RunOk(Parallel, events);
    Next(Parallel, events, Trigger);
    assert forall r <- Run(Parallel, events).live :: r in Line(Run(Parallel, events));
  }

  /** The end of a run starts the one that has waited longest, if any waits, and only that one. */
  lemma EndStartsNext(mode: Mode, events: seq<Event>, run: nat)
    ensures var s, t := Run(mode, events), Run(mode, events + [Finish(run)]);
            && (run !in s.live ==> t == s)
            && (run in s.live ==> t.finished == s.finished + [run])
            && (run in s.live && s.queue == [] ==>
                  t.live == s.live - {run} && t.started == s.started && t.queue == [])
            && (run in s.live && s.queue != [] ==>
                  t.live == {s.queue[0]} && t.started == s.started + [s.queue[0]] && t.queue == s.queue[1..])
            && t.accepted == s.accepted && t.discarded == s.discarded && t.aborted == s.aborted
  {
    RunOk(mode, events);
    Next(mode, events, Finish(run));
    var s := Run(mode, events);
    if run in s.live && s.queue != [] {
      assert |s.live - {run}| == 0;
    }
  }

  function Triggers(k: nat): seq<Event> {
    if k == 0 then [] else Triggers(k - 1) + [Trigger]
  }

  function Numbered(first: nat, n: nat): (r: seq<nat>)
    ensures |r| == n && forall i :: 0 <= i < n ==> r[i] == first + i
  {
    if n == 0 then [] else Numbered(first, n - 1) + [first + n - 1]
  }

  lemma NoTriggers(events: seq<Event>)
    ensures events + Triggers(0) == events
  {
  }

  lemma MoreTriggers(mode: Mode, events: seq<Event>, k: nat)
    requires k > 0
    ensures Run(mode, events + Triggers(k)) == Run(mode, events + Triggers(k - 1) + [Trigger])
  {
    assert events + Triggers(k) == events + Triggers(k - 1) + [Trigger];
  }

  /** `k` triggers of a queued runtime with nothing going on: one runs, and the next ones wait, at most ten of them. */
  lemma {:induction false} QueuedBurst(events: seq<Event>, k: nat)
    requires k > 0 && Run(Queued, events).live == {}
    ensures var s, t := Run(Queued, events), Run(Queued, events + Triggers(k));
            && t.live == {s.accepted} && t.started == s.started + [s.accepted]
            && t.queue == Numbered(s.accepted + 1, if k - 1 < 10 then k - 1 else 10)
            && t.accepted == s.accepted + (if k < 11 then k else 11)
  {
    hide Run, Step, Triggers;
    MoreTriggers(Queued, events, k);
    QueuedAdmission(events + Triggers(k - 1));
    if k == 1 {
      NoTriggers(events);
    } else {
      QueuedBurst(events, k - 1);
    }
  }

  /** `k` triggers of a parallel runtime with nothing going on: at most ten run, the first ones. */
  lemma {:induction false} ParallelBurst(events: seq<Event>, k: nat)
    requires Run(Parallel, events).live == {}
    ensures var s, t := Run(Parallel, events), Run(Parallel, events + Triggers(k));
            && |t.live| == (if k < 10 then k else 10)
            && t.started == s.started + Numbered(s.accepted, |t.live|)
            && t.accepted == s.accepted + |t.live|
            && forall r :: r in t.live <==> s.accepted <= r < t.accepted
  {
    hide Run, Step, Triggers;
    if k == 0 {
      NoTriggers(events);
    } else {
      MoreTriggers(Parallel, events, k);
      ParallelAdmission(events + Triggers(k - 1));
      ParallelBurst(events, k - 1);
    }
  }
}
