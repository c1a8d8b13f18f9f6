/**
 A device trigger with a `for` duration: it fires some time after the attribute
 took a value, if the attribute has that value when the timer runs out.

 One trigger alone on its timer key, on a device that is not removed. Times are
 milliseconds of a clock that does not go back; a timer runs at or after its deadline,
 which is not always the one that was asked for.
 */
module HoldTrigger {
  import opened Option
  import opened Devices

  /** The attribute as the store has it; a missing attribute is `None`. */
  type Attribute = Option<Value>

  datatype Trigger = Trigger(from: Option<Attribute>, to: Option<Attribute>, duration: int)

  const MAX_DELAY: int := 0x7fff_ffff

  /** How long `setTimeout` waits: one millisecond where it cannot take the delay. */
  function Delay(duration: int): nat {
    if 1 <= duration <= MAX_DELAY then duration else 1
  }

  /** The attribute's value after an update at some time. */
  datatype Sample = Sample(at: nat, value: Attribute)

  datatype Armed = Armed(deadline: nat, value: Attribute)

  datatype State = State(history: seq<Sample>, timer: Option<Armed>, fired: bool)

  datatype Event =
    | Update(now: nat, value: Attribute)
    | TimerRuns(now: nat)

  const START: State := State([], None, false)

  function Latest<T>(xs: seq<T>): T
    requires xs != []
  {
    xs[|xs| - 1]
  }

  /** A change that the trigger listens to. */
  predicate Matches(t: Trigger, was: Attribute, now: Attribute) {
    was != now && (t.from.None? || t.from.value == was) && (t.to.None? || t.to.value == now)
  }

  predicate Enabled(s: State, e: Event) {
    && (s.history != [] ==> Latest(s.history).at <= e.now)
    && (e.TimerRuns? ==> s.timer.Some? && s.timer.value.deadline <= e.now)
  }

  /** `fired` says whether this very step fired. */
  function Step(t: Trigger, s: State, e: Event): State {
    if !Enabled(s, e) then s.(fired := false)
    else match e
      case Update(now, value) =>
        State(s.history + [Sample(now, value)],
              if s.history != [] && Matches(t, Latest(s.history).value, value)
              then Some(Armed(now + Delay(t.duration), value)) else s.timer,
              false)
      case TimerRuns(_) =>
        State(s.history, None, s.history != [] && Latest(s.history).value == s.timer.value.value)
  }

  function Run(t: Trigger, events: seq<Event>): State {
    if events == [] then START
    else Step(t, Run(t, events[..|events| - 1]), events[|events| - 1])
  }

  // ---------------------------------------------------------------------------
  // The handler
  // ---------------------------------------------------------------------------

  class HoldTimers {
    const trigger: Trigger
    var timer: Option<Armed>
    ghost var history: seq<Sample>

    ghost function Now(fired: bool): State
      reads this
    {
      State(history, timer, fired)
    }

    constructor (trigger: Trigger)
      ensures this.trigger == trigger && Now(false) == START
    {
      this.trigger := trigger;
      timer, history := None, [];
    }

    method OnDeviceUpdate(now: nat, prev: Option<Attribute>, value: Attribute, ghost fired: bool)
      requires prev == if history == [] then None else Some(Latest(history).value)
      requires Enabled(Now(fired), Update(now, value))
      modifies this
      ensures Now(false) == Step(trigger, old(Now(fired)), Update(now, value))
    {
      history := history + [Sample(now, value)];
      if prev.None? || prev.value == value {
        return;
      }
      if trigger.from.Some? && trigger.from.value != prev.value {
        return;
      }
      if trigger.to.Some? && trigger.to.value != value {
        return;
      }
      timer := Some(Armed(now + Delay(trigger.duration), value));
    }

    method OnTimer(now: nat, device: Option<Attribute>, ghost before: bool) returns (fired: bool)
      requires device == if history == [] then None else Some(Latest(history).value)
      requires Enabled(Now(before), TimerRuns(now))
      modifies this`timer
      ensures Now(fired) == Step(trigger, old(Now(before)), TimerRuns(now))
    {
      fired := device.Some? && device.value == timer.value.value;
      timer := None;
    }
  }

  // ---------------------------------------------------------------------------
  // What a firing says about the past
  // ---------------------------------------------------------------------------

  /** From some sample taken no later than `time`, the attribute has been `v` in every sample. */
  ghost predicate HeldSince(history: seq<Sample>, v: Attribute, time: int) {
    exists i :: 0 <= i < |history| && history[i].at <= time && AllFrom(history, i, v)
  }

  ghost predicate AllFrom(history: seq<Sample>, i: nat, v: Attribute) {
    forall k :: i <= k < |history| ==> history[k].value == v
  }

  /** A firing step is justified: the value has been held for the whole duration. */
  ghost predicate Justified(t: Trigger, s: State, now: nat) {
    s.history != [] && HeldSince(s.history, Latest(s.history).value, now - t.duration)
  }

  ghost predicate AlwaysJustified(t: Trigger) {
    forall events: seq<Event>, now: nat | Step(t, Run(t, events), TimerRuns(now)).fired ::
      Justified(t, Run(t, events), now)
  }

  /** While the armed value is the current one, it has been so since the timer was set. */
  ghost predicate ArmedOk(t: Trigger, s: State) {
    s.timer.Some? ==>
      && s.history != []
      && (t.to.Some? ==> t.to.value == s.timer.value.value)
      && (Latest(s.history).value == s.timer.value.value ==>
            HeldSince(s.history, s.timer.value.value, s.timer.value.deadline - Delay(t.duration)))
  }

  lemma HeldExtends(history: seq<Sample>, v: Attribute, time: int, now: nat)
    requires HeldSince(history, v, time)
    ensures HeldSince(history + [Sample(now, v)], v, time)
  {
    var i :| 0 <= i < |history| && history[i].at <= time && AllFrom(history, i, v);
    assert AllFrom(history + [Sample(now, v)], i, v);
    assert (history + [Sample(now, v)])[i] == history[i];
  }

  lemma {:induction false} ArmedHolds(t: Trigger, events: seq<Event>)
    requires t.from.None?
    ensures ArmedOk(t, Run(t, events))
  {
    if events != [] {
      var s, e := Run(t, events[..|events| - 1]), events[|events| - 1];
      ArmedHolds(t, events[..|events| - 1]);
      if Enabled(s, e) && e.Update? {
        var history := s.history + [Sample(e.now, e.value)];
        if s.history != [] && Matches(t, Latest(s.history).value, e.value) {
          assert AllFrom(history, |history| - 1, e.value) && history[|history| - 1].at <= e.now;
        } else if s.timer.Some? && e.value == s.timer.value.value {
          assert Latest(s.history).value == e.value;
          HeldExtends(s.history, e.value, s.timer.value.deadline - Delay(t.duration), e.now);
        }
      }
    }
  }

  /** Without a `from`, the trigger fires only if the value was held for the whole duration, if a timer can take it. */
  lemma FiresOnlyIfHeld(t: Trigger, events: seq<Event>, now: nat)
    requires t.from.None? && t.duration <= MAX_DELAY && Step(t, Run(t, events), TimerRuns(now)).fired
    ensures Justified(t, Run(t, events), now)
  {
    ArmedHolds(t, events);
    var s := Run(t, events);
    var v := Latest(s.history).value;
    var i :| 0 <= i < |s.history| && s.history[i].at <= s.timer.value.deadline - Delay(t.duration) && AllFrom(s.history, i, v);
    assert s.history[i].at <= now - t.duration;
  }

  // ---------------------------------------------------------------------------
  // Exactly when that is so
  // ---------------------------------------------------------------------------

  lemma {:induction false} NeverArmed(t: Trigger, events: seq<Event>)
    requires t.from.Some? && t.from == t.to
    ensures Run(t, events).timer.None?
  {
    if events != [] {
      NeverArmed(t, events[..|events| - 1]);
    }
  }

  lemma NoDurationJustified(t: Trigger, events: seq<Event>, now: nat)
    requires t.duration <= 0 && Step(t, Run(t, events), TimerRuns(now)).fired
    ensures Justified(t, Run(t, events), now)
  {
    var history := Run(t, events).history;
    assert AllFrom(history, |history| - 1, Latest(history).value) && history[|history| - 1].at <= now;
  }

  /** A value that is neither `a` nor `b`. */
  function Third(a: Attribute, b: Attribute): (c: Attribute)
    ensures c != a && c != b
  {
    var x, y, z := Some(Null), Some(Flag(true)), Some(Flag(false));
    if x != a && x != b then x else if y != a && y != b then y else z
  }

  function Other(t: Trigger): Attribute
    requires t.from.Some?
  {
    if t.to.Some? then t.to.value else Third(t.from.value, t.from.value)
  }

  /** Away and back: the return does not come from `from`, so the first timer keeps running. */
  function Flicker(t: Trigger): seq<Event>
    requires t.from.Some?
  {
    [Update(0, t.from.value), Update(0, Other(t)), Update(0, Third(t.from.value, Other(t))), Update(1, Other(t))]
  }

  lemma RunStep(t: Trigger, events: seq<Event>, k: nat)
    requires k < |events|
    ensures Run(t, events[..k + 1]) == Step(t, Run(t, events[..k]), events[k])
  {
    assert events[..k + 1][..k] == events[..k];
  }

  lemma FlickerRun(t: Trigger)
    requires t.from.Some? && t.from != t.to && t.duration > 0
    ensures var a, b, c := t.from.value, Other(t), Third(t.from.value, Other(t));
            && a != b && b != c
            && Run(t, Flicker(t)) == State([Sample(0, a), Sample(0, b), Sample(0, c), Sample(1, b)],
                                           Some(Armed(Delay(t.duration), b)), false)
  {
    hide Run, Delay;
    var es := Flicker(t);
    var a, b := t.from.value, Other(t);
    RunStep(t, es, 0);
    RunStep(t, es, 1);
    assert es[..0] == [] && Run(t, []) == START by { NothingRun(t); }
    assert Run(t, es[..2]) == State([Sample(0, a), Sample(0, b)], Some(Armed(Delay(t.duration), b)), false);
    RunStep(t, es, 2);
    RunStep(t, es, 3);
    assert es[..4] == es;
  }

  lemma NothingRun(t: Trigger)
    ensures Run(t, []) == START
  {
  }

  lemma FlickerFires(t: Trigger)
    requires t.from.Some? && t.from != t.to && t.duration > 0
    ensures Step(t, Run(t, Flicker(t)), TimerRuns(t.duration)).fired
    ensures !Justified(t, Run(t, Flicker(t)), t.duration)
  {
    hide Run, Other, Third, Flicker;
    FlickerRun(t);
    var s, b, c := Run(t, Flicker(t)), Other(t), Third(t.from.value, Other(t));
    forall i | 0 <= i < |s.history| && s.history[i].at <= 0 ensures !AllFrom(s.history, i, b) {
      assert s.history[2].value == c;
    }
  }

  /** What the value changes to, and something it can change from, for a trigger without a `from`. */
  function Changed(t: Trigger): Attribute {
    if t.to.Some? then t.to.value else None
  }

  /** A duration no timer can take: the trigger fires a millisecond after the change. */
  lemma LongDurationFires(t: Trigger)
    requires t.from.None? && t.duration > MAX_DELAY
    ensures var events := [Update(0, Third(Changed(t), Changed(t))), Update(0, Changed(t))];
            && Step(t, Run(t, events), TimerRuns(1)).fired
            && !Justified(t, Run(t, events), 1)
  {
    var b := Changed(t);
    var a := Third(b, b);
    var es := [Update(0, a), Update(0, b)];
    RunStep(t, es, 0);
    RunStep(t, es, 1);
    assert es[..2] == es && es[..0] == [];
    assert Run(t, es) == State([Sample(0, a), Sample(0, b)], Some(Armed(1, b)), false);
  }

  /** When firings can be relied on: the condition is on the trigger alone. */
  predicate Reliable(t: Trigger) {
    || (t.from.None? && t.duration <= MAX_DELAY)
    || (t.from.Some? && t.from == t.to)
    || t.duration <= 0
  }

  /**
   A trigger's firings are always justified exactly when it has no `from` and a duration
   that a timer can take, or could never match (`from` equals `to`), or asks for no duration.
   */
  lemma JustifiedIff(t: Trigger)
    ensures AlwaysJustified(t) <==> Reliable(t)
  {
    if Reliable(t) {
      forall events: seq<Event>, now: nat | Step(t, Run(t, events), TimerRuns(now)).fired
        ensures Justified(t, Run(t, events), now)
      {
        if t.duration <= 0 {
          NoDurationJustified(t, events, now);
        } else if t.from.None? {
          FiresOnlyIfHeld(t, events, now);
        } else {
          NeverArmed(t, events);
        }
      }
    } else if t.from.None? {
      LongDurationFires(t);
    } else {
      FlickerFires(t);
    }
  }

  // ---------------------------------------------------------------------------
  // What arms the timer
  // ---------------------------------------------------------------------------

  /** A change, from the value the trigger names, if it names one, to the value it names, if it does. */
  predicate IsWanted(t: Trigger, was: Attribute, now: Attribute) {
    && was != now
    && t.from in {None, Some(was)}
    && t.to in {None, Some(now)}
  }

  /** The `i`-th sample was such a change, to `v`, and as long ago as the timer takes. */
  ghost predicate IsCause(t: Trigger, history: seq<Sample>, i: nat, v: Attribute, time: int) {
    && 0 < i < |history| && history[i].value == v && IsWanted(t, history[i - 1].value, v)
    && history[i].at + (if 1 <= t.duration <= 2147483647 then t.duration else 1) == time
  }

  ghost predicate HasCause(t: Trigger, s: State) {
    s.timer.Some? ==> exists i: nat :: IsCause(t, s.history, i, s.timer.value.value, s.timer.value.deadline)
  }

  lemma {:induction false} TimerHasCause(t: Trigger, events: seq<Event>)
    ensures HasCause(t, Run(t, events))
  {
    if events != [] {
      var init, e := events[..|events| - 1], events[|events| - 1];
      var s := Run(t, init);
      TimerHasCause(t, init);
      if Enabled(s, e) && e.Update? {
        var u := Step(t, s, e);
        if s.history != [] && Matches(t, Latest(s.history).value, e.value) {
          assert IsCause(t, u.history, |s.history|, e.value, u.timer.value.deadline);
        } else if s.timer.Some? {
          var i: nat :| IsCause(t, s.history, i, s.timer.value.value, s.timer.value.deadline);
          assert IsCause(t, u.history, i, s.timer.value.value, s.timer.value.deadline);
        }
      }
    }
  }

  /** Every firing goes back to a wanted change to the present value, at least the whole wait ago. */
  lemma FiringHasCause(t: Trigger, events: seq<Event>, now: nat)
    requires Step(t, Run(t, events), TimerRuns(now)).fired
    ensures var history := Run(t, events).history;
            && history != []
            && exists i: nat, time: int :: IsCause(t, history, i, Latest(history).value, time) && time <= now
  {
    TimerHasCause(t, events);
  }

  /** The last event is a change the trigger listens to. */
  predicate MatchingChange(t: Trigger, events: seq<Event>) {
    && events != [] && Latest(events).Update?
    && var s := Run(t, events[..|events| - 1]);
       Enabled(s, Latest(events)) && s.history != [] && IsWanted(t, Latest(s.history).value, Latest(events).value)
  }

  lemma {:induction false} StaysArmed(t: Trigger, events: seq<Event>, more: seq<Event>)
    requires MatchingChange(t, events) && forall e <- more :: e.Update? && e.value == Latest(events).value
    ensures var s := Run(t, events + more);
            && s.timer == Some(Armed(Latest(events).now + Delay(t.duration), Latest(events).value))
            && s.history != [] && Latest(s.history).value == Latest(events).value
  {
    if more == [] {
      assert events + more == events;
    } else {
      StaysArmed(t, events, more[..|more| - 1]);
      assert (events + more)[..|events + more| - 1] == events + more[..|more| - 1];
    }
  }

  /** Conversely, after a matching change that only reports of the same value follow, the timer fires. */
  lemma HeldValueFires(t: Trigger, events: seq<Event>, more: seq<Event>, now: nat)
    requires MatchingChange(t, events) && forall e <- more :: e.Update? && e.value == Latest(events).value
    requires Enabled(Run(t, events + more), TimerRuns(now))
    ensures Step(t, Run(t, events + more), TimerRuns(now)).fired
  {
    StaysArmed(t, events, more);
  }
}
