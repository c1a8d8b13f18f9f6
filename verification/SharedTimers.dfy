/**
 Several `for` triggers of one automation on one attribute of one device. They share
 a timer: arming one clears what another has armed.
 */
module SharedTimers {
  import opened Option
  import opened Devices
  import opened HoldTrigger

  /** The timer, and the place in the list of the trigger that set it. */
  datatype Set = Set(which: nat, armed: Armed)

  datatype Shared = Shared(history: seq<Sample>, timer: Option<Set>, fired: Option<nat>)

  const NOTHING: Shared := Shared([], None, None)

  /** The last of the triggers that listen to a change. */
  function LastMatch(triggers: seq<Trigger>, was: Attribute, now: Attribute): Option<nat> {
    if triggers == [] then None
    else if Matches(triggers[|triggers| - 1], was, now) then Some(|triggers| - 1)
    else LastMatch(triggers[..|triggers| - 1], was, now)
  }

  lemma {:induction false} LastMatchIs(triggers: seq<Trigger>, was: Attribute, now: Attribute)
    ensures var last := LastMatch(triggers, was, now);
            && (last.Some? ==> last.value < |triggers| && Matches(triggers[last.value], was, now))
            && forall j :: (if last.Some? then last.value else -1) < j < |triggers| ==> !Matches(triggers[j], was, now)
  {
    if triggers != [] {
      LastMatchIs(triggers[..|triggers| - 1], was, now);
    }
  }

  predicate Possible(s: Shared, e: Event) {
    && (s.history != [] ==> Latest(s.history).at <= e.now)
    && (e.TimerRuns? ==> s.timer.Some? && s.timer.value.armed.deadline <= e.now)
  }

  /** What an update does to the timer. */
  function Arm(triggers: seq<Trigger>, s: Shared, now: nat, value: Attribute): Option<Set> {
    if s.history == [] then s.timer
    else
      var last := LastMatch(triggers, Latest(s.history).value, value);
      LastMatchIs(triggers, Latest(s.history).value, value);
      if last.None? then s.timer
      else Some(Set(last.value, Armed(now + Delay(triggers[last.value].duration), value)))
  }

  function Next(triggers: seq<Trigger>, s: Shared, e: Event): Shared {
    if !Possible(s, e) then s.(fired := None)
    else match e
      case Update(now, value) => Shared(s.history + [Sample(now, value)], Arm(triggers, s, now, value), None)
      case TimerRuns(_) =>
        Shared(s.history, None,
               if s.history != [] && Latest(s.history).value == s.timer.value.armed.value
               then Some(s.timer.value.which) else None)
  }

  function RunAll(triggers: seq<Trigger>, events: seq<Event>): Shared {
    if events == [] then NOTHING
    else Next(triggers, RunAll(triggers, events[..|events| - 1]), events[|events| - 1])
  }

  // ---------------------------------------------------------------------------
  // The handler
  // ---------------------------------------------------------------------------

  class SharedTimer {
    const triggers: seq<Trigger>
    var timer: Option<Set>
    ghost var history: seq<Sample>

    constructor (triggers: seq<Trigger>)
      ensures this.triggers == triggers && timer == None && history == []
    {
      this.triggers := triggers;
      timer, history := None, [];
    }

    method OnDeviceUpdate(now: nat, prev: Option<Attribute>, value: Attribute, ghost fired: Option<nat>)
      requires prev == if history == [] then None else Some(Latest(history).value)
      requires Possible(Shared(history, timer, fired), Update(now, value))
      modifies this
      ensures Shared(history, timer, None) == Next(triggers, old(Shared(history, timer, fired)), Update(now, value))
    {
      ghost var before := history;
      history := history + [Sample(now, value)];
      if prev.None? {
        return;
      }
      for i := 0 to |triggers|
        invariant history == before + [Sample(now, value)]
        invariant var last := LastMatch(triggers[..i], prev.value, value);
          && (last.None? ==> timer == old(timer))
          && (last.Some? ==>
                last.value < i && timer == Some(Set(last.value, Armed(now + Delay(triggers[last.value].duration), value))))
      {
        assert triggers[..i + 1][..i] == triggers[..i];
        var trigger := triggers[i];
        if prev.value == value {
          continue;
        }
        if trigger.from.Some? && trigger.from.value != prev.value {
          continue;
        }
        if trigger.to.Some? && trigger.to.value != value {
          continue;
        }
        timer := Some(Set(i, Armed(now + Delay(trigger.duration), value)));
      }
      assert triggers[..|triggers|] == triggers;
    }

    method OnTimer(now: nat, device: Option<Attribute>, ghost before: Option<nat>) returns (fired: Option<nat>)
      requires device == if history == [] then None else Some(Latest(history).value)
      requires Possible(Shared(history, timer, before), TimerRuns(now))
      modifies this`timer
      ensures Shared(history, timer, fired) == Next(triggers, old(Shared(history, timer, before)), TimerRuns(now))
    {
      fired := if device.Some? && device.value == timer.value.armed.value then Some(timer.value.which) else None;
      timer := None;
    }
  }

  // ---------------------------------------------------------------------------
  // What sharing does
  // ---------------------------------------------------------------------------

  lemma LastOfOne(t: Trigger, was: Attribute, now: Attribute)
    ensures LastMatch([t], was, now) == if Matches(t, was, now) then Some(0) else None
  {
    assert [t][..0] == [];
  }

  /** A trigger alone on the timer is the one of HoldTrigger. */
  lemma {:induction false} OneAlone(t: Trigger, events: seq<Event>)
    ensures var a, b := RunAll([t], events), Run(t, events);
            && a.history == b.history && (a.fired.Some? <==> b.fired)
            && a.timer == if b.timer.Some? then Some(Set(0, b.timer.value)) else None
  {
    if events != [] {
      var s, e := Run(t, events[..|events| - 1]), events[|events| - 1];
      OneAlone(t, events[..|events| - 1]);
      if e.Update? && s.history != [] {
        LastOfOne(t, Latest(s.history).value, e.value);
      }
    }
  }

  /** An armed trigger loses its timer unfired if and only if a change comes whose last match is another trigger. */
  lemma LosesIff(triggers: seq<Trigger>, s: Shared, e: Event)
    requires s.timer.Some? && Possible(s, e) && s.history != []
    ensures var i, t := s.timer.value.which, Next(triggers, s, e);
            (t.timer.Some? && t.timer.value.which != i) <==>
              && e.Update?
              && var last := LastMatch(triggers, Latest(s.history).value, e.value);
                 last.Some? && last.value != i
  {
    if e.Update? {
      LastMatchIs(triggers, Latest(s.history).value, e.value);
    }
  }

  /** The last event is a change to which some trigger listens; the last of them is `i`. */
  predicate Change(triggers: seq<Trigger>, events: seq<Event>, i: nat) {
    && events != [] && Latest(events).Update?
    && var s := RunAll(triggers, events[..|events| - 1]);
       && Possible(s, Latest(events)) && s.history != []
       && LastMatch(triggers, Latest(s.history).value, Latest(events).value) == Some(i)
  }

  lemma {:induction false} HeldFor(triggers: seq<Trigger>, events: seq<Event>, more: seq<Event>, i: nat)
    requires Change(triggers, events, i) && forall e <- more :: e.Update? && e.value == Latest(events).value
    ensures var s := RunAll(triggers, events + more);
            && s.timer.Some? && s.timer.value.which == i && s.timer.value.armed.value == Latest(events).value
            && s.history != [] && Latest(s.history).value == Latest(events).value
  {
    if more == [] {
      assert events + more == events;
      var s := RunAll(triggers, events[..|events| - 1]);
      LastMatchIs(triggers, Latest(s.history).value, Latest(events).value);
    } else {
      HeldFor(triggers, events, more[..|more| - 1], i);
      assert (events + more)[..|events + more| - 1] == events + more[..|more| - 1];
      var s := RunAll(triggers, events + more[..|more| - 1]);
      LastMatchIs(triggers, Latest(s.history).value, Latest(events).value);
    }
  }

  /**
   Of the triggers that listen to a change to a value that is then held, exactly one
   fires when the timer runs: the last in the list. Alone, each of them would.
   */
  lemma OnlyLastFires(triggers: seq<Trigger>, events: seq<Event>, more: seq<Event>, i: nat, j: nat, now: nat)
    requires Change(triggers, events, i) && forall e <- more :: e.Update? && e.value == Latest(events).value
    requires Possible(RunAll(triggers, events + more), TimerRuns(now))
    ensures Next(triggers, RunAll(triggers, events + more), TimerRuns(now)).fired == Some(j) <==> j == i
  {
    HeldFor(triggers, events, more, i);
  }

  // ---------------------------------------------------------------------------
  // What a firing says
  // ---------------------------------------------------------------------------

  /** The armed value has been held since the timer was set, if it is the current one and its trigger has no `from`. */
  ghost predicate SetOk(triggers: seq<Trigger>, s: Shared) {
    s.timer.Some? ==>
      var i, armed := s.timer.value.which, s.timer.value.armed;
      && i < |triggers| && s.history != []
      && (triggers[i].from.None? ==>
            && (triggers[i].to.Some? ==> triggers[i].to.value == armed.value)
            && (Latest(s.history).value == armed.value ==>
                  HeldSince(s.history, armed.value, armed.deadline - Delay(triggers[i].duration))))
  }

  lemma UpdateKeepsSet(triggers: seq<Trigger>, s: Shared, now: nat, value: Attribute)
    requires SetOk(triggers, s) && Possible(s, Update(now, value))
    ensures SetOk(triggers, Next(triggers, s, Update(now, value)))
  {
    var history := s.history + [Sample(now, value)];
    if s.history != [] {
      var was := Latest(s.history).value;
      LastMatchIs(triggers, was, value);
      if LastMatch(triggers, was, value).Some? {
        assert AllFrom(history, |history| - 1, value) && history[|history| - 1].at <= now;
      } else if s.timer.Some? && value == s.timer.value.armed.value && triggers[s.timer.value.which].from.None? {
        var i := s.timer.value.which;
        assert !Matches(triggers[i], was, value);
        HeldExtends(s.history, value, s.timer.value.armed.deadline - Delay(triggers[i].duration), now);
      }
    }
  }

  lemma {:induction false} SetHolds(triggers: seq<Trigger>, events: seq<Event>)
    ensures SetOk(triggers, RunAll(triggers, events))
  {
    if events != [] {
      var s, e := RunAll(triggers, events[..|events| - 1]), events[|events| - 1];
      SetHolds(triggers, events[..|events| - 1]);
      if e.Update? && Possible(s, e) {
        UpdateKeepsSet(triggers, s, e.now, e.value);
      }
    }
  }

  /** A trigger without a `from` and within the timers' bound fires only if the value was held, whatever it shares the timer with. */
  lemma SharedFiresOnlyIfHeld(triggers: seq<Trigger>, events: seq<Event>, now: nat, i: nat)
    requires i < |triggers| && triggers[i].from.None? && triggers[i].duration <= MAX_DELAY
    requires Next(triggers, RunAll(triggers, events), TimerRuns(now)).fired == Some(i)
    ensures var history := RunAll(triggers, events).history;
            history != [] && HeldSince(history, Latest(history).value, now - triggers[i].duration)
  {
    SetHolds(triggers, events);
    var s := RunAll(triggers, events);
    var v := Latest(s.history).value;
    var k :| 0 <= k < |s.history| && s.history[k].at <= s.timer.value.armed.deadline - Delay(triggers[i].duration)
             && AllFrom(s.history, k, v);
    assert s.history[k].at <= now - triggers[i].duration;
  }
}
