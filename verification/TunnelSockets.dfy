/**
 Which socket is the tunnel: connecting, registering, and the close handler, which
 resets the tunnel's state for whatever socket closes.

 A registration is read from any socket that listens, also from one that is already
 closing. Whether it is valid is given with it.
 */
module TunnelSockets {
  import opened Option

  type Socket = nat

  datatype Ready = Open | Closing | Closed

  datatype State = State(
    tunnel: Option<Socket>,
    authenticated: bool,
    heartbeat: Option<Socket>,
    authTimers: set<Socket>,
    ready: map<Socket, Ready>,      // of every socket that ever connected
    hooked: set<Socket>,            // those that were not turned away
    asked: set<Socket>,             // those from which a registration has been read
    verified: set<Socket>,          // those on which a registration was found valid
    told: set<Socket>)              // those whose home was told that it is registered

  datatype Event =
    | Connect(ws: Socket)
    | Registration(ws: Socket, valid: bool)
    | AuthTimeout(ws: Socket)
    | MissedPong(ws: Socket)
    | Leaves(ws: Socket)            // the other side, or the network, begins to close it
    | CloseEvent(ws: Socket)

  const START: State := State(None, false, None, {}, map[], {}, {}, {}, {})

  predicate IsOpen(s: State, ws: Socket) {
    ws in s.ready && s.ready[ws].Open?
  }

  predicate TunnelOpen(s: State) {
    s.tunnel.Some? && IsOpen(s, s.tunnel.value)
  }

  predicate Connected(s: State) {
    s.authenticated && TunnelOpen(s)
  }

  predicate Enabled(s: State, e: Event) {
    match e
    case Connect(ws) => ws !in s.ready
    case Registration(ws, _) => ws in s.hooked && ws in s.ready && !s.ready[ws].Closed?
    case AuthTimeout(ws) => ws in s.authTimers
    case MissedPong(ws) => s.heartbeat == Some(ws) && IsOpen(s, ws)
    case Leaves(ws) => IsOpen(s, ws)
    case CloseEvent(ws) => ws in s.hooked && ws in s.ready && !s.ready[ws].Closed?
  }

  function Shut(s: State, ws: Socket): State {
    if IsOpen(s, ws) then s.(ready := s.ready[ws := Closing]) else s
  }

  function Step(s: State, e: Event): State {
    if !Enabled(s, e) then s
    else match e
      case Connect(ws) =>
        if TunnelOpen(s) then s.(ready := s.ready[ws := Closing])
        else s.(tunnel := Some(ws), authenticated := false, authTimers := s.authTimers + {ws},
                ready := s.ready[ws := Open], hooked := s.hooked + {ws})
      case Registration(ws, valid) =>
        var t := s.(asked := s.asked + {ws});
        if s.authenticated then t
        else if valid then
          t.(authenticated := true, authTimers := t.authTimers - {ws}, heartbeat := Some(ws),
             verified := t.verified + {ws},
             told := if TunnelOpen(s) then t.told + {s.tunnel.value} else t.told)
        else Shut(t, ws)
      case AuthTimeout(ws) =>
        var t := s.(authTimers := s.authTimers - {ws});
        if s.authenticated then t else Shut(t, ws)
      case MissedPong(ws) => Shut(s, ws)
      case Leaves(ws) => Shut(s, ws)
      case CloseEvent(ws) =>
        s.(ready := s.ready[ws := Closed], authTimers := s.authTimers - {ws}, heartbeat := None,
           authenticated := false, tunnel := if s.tunnel == Some(ws) then None else s.tunnel)
  }

  function Run(events: seq<Event>): State {
    if events == [] then START else Step(Run(events[..|events| - 1]), events[|events| - 1])
  }

  ghost predicate Reachable(s: State) {
    exists events :: Run(events) == s
  }

  // ---------------------------------------------------------------------------
  // The handlers
  // ---------------------------------------------------------------------------

  class TunnelServer {
    var tunnel: Option<Socket>
    var authenticated: bool
    var heartbeat: Option<Socket>
    var authTimers: set<Socket>
    var ready: map<Socket, Ready>
    ghost var hooked: set<Socket>
    ghost var asked: set<Socket>
    ghost var verified: set<Socket>
    var told: set<Socket>           // where `home_registered` was sent

    ghost function Now(): State
      reads this
    {
      State(tunnel, authenticated, heartbeat, authTimers, ready, hooked, asked, verified, told)
    }

    constructor ()
      ensures Now() == START
    {
      tunnel, authenticated, heartbeat, authTimers := None, false, None, {};
      ready, told, hooked, asked, verified := map[], {}, {}, {}, {};
    }

    method OnConnection(ws: Socket)
      requires Enabled(Now(), Connect(ws))
      modifies this
      ensures Now() == Step(old(Now()), Connect(ws))
    {
      if tunnel.Some? && tunnel.value in ready && ready[tunnel.value].Open? {
        ready := ready[ws := Closing];
        return;
      }
      tunnel := Some(ws);
      authenticated := false;
      authTimers := authTimers + {ws};
      ready, hooked := ready[ws := Open], hooked + {ws};
    }

    method OnAuthTimeout(ws: Socket)
      requires Enabled(Now(), AuthTimeout(ws))
      modifies this`authTimers, this`ready
      ensures Now() == Step(old(Now()), AuthTimeout(ws))
    {
      authTimers := authTimers - {ws};
      if !authenticated && ws in ready && ready[ws].Open? {
        ready := ready[ws := Closing];
      }
    }

    method OnRegistration(ws: Socket, valid: bool)
      requires Enabled(Now(), Registration(ws, valid))
      modifies this
      ensures Now() == Step(old(Now()), Registration(ws, valid))
    {
      asked := asked + {ws};
      if authenticated {
        return;
      }
      if valid {
        authenticated := true;
        authTimers := authTimers - {ws};
        if tunnel.Some? && tunnel.value in ready && ready[tunnel.value].Open? {
          told := told + {tunnel.value};
        }
        verified := verified + {ws};
        heartbeat := Some(ws);
      } else if ready[ws].Open? {
        ready := ready[ws := Closing];
      }
    }

    method OnClose(ws: Socket)
      requires Enabled(Now(), CloseEvent(ws))
      modifies this
      ensures Now() == Step(old(Now()), CloseEvent(ws))
    {
      ready := ready[ws := Closed];
      authTimers := authTimers - {ws};
      heartbeat := None;
      authenticated := false;
      if tunnel == Some(ws) {
        tunnel := None;
      }
    }
  }

  // ---------------------------------------------------------------------------
  // One tunnel at a time
  // ---------------------------------------------------------------------------

  /** The tunnel's home was told that it is registered, but the proxy no longer thinks so. */
  predicate Stranded(s: State) {
    TunnelOpen(s) && s.tunnel.value in s.told && !s.authenticated
  }

  /** Requests are relayed over a socket whose home has not shown who it is. */
  predicate Mistaken(s: State) {
    Connected(s) && s.tunnel.value !in s.verified
  }

  ghost predicate Ok(s: State) {
    && s.told <= s.hooked <= s.ready.Keys && s.verified <= s.asked <= s.hooked
    && (s.tunnel.Some? ==> s.tunnel.value in s.hooked && !s.ready[s.tunnel.value].Closed?)
    && (forall ws <- s.hooked :: IsOpen(s, ws) ==> s.tunnel == Some(ws))
    && (Connected(s) ==> s.tunnel.value in s.told)
    && (Stranded(s) ==> s.heartbeat.None?)
  }

  lemma StepKeepsOk(s: State, e: Event)
    requires Ok(s)
    ensures Ok(Step(s, e))
  {
    match e {
      case Connect(ws) =>
      case Registration(ws, valid) =>
      case AuthTimeout(ws) =>
      case MissedPong(ws) =>
      case Leaves(ws) =>
      case CloseEvent(ws) =>
    }
  }

  lemma StartOk()
    ensures Ok(START)
  {
  }

  lemma {:induction false} RunKeepsOk(events: seq<Event>)
    ensures Ok(Run(events))
  {
    hide Step, Ok;
    if events == [] {
      StartOk();
    } else {
      RunKeepsOk(events[..|events| - 1]);
      StepKeepsOk(Run(events[..|events| - 1]), events[|events| - 1]);
    }
  }

  /** Of the sockets that were not turned away at most one is open, and it is the tunnel. */
  lemma OneTunnel(s: State, a: Socket, b: Socket)
    requires Reachable(s) && a in s.hooked && b in s.hooked && IsOpen(s, a) && IsOpen(s, b)
    ensures a == b && s.tunnel == Some(a)
    ensures Connected(s) ==> a in s.told
  {
    var events :| Run(events) == s;
    RunKeepsOk(events);
  }

  /** A home that was told it is registered, on a socket that is still open, is connected, unless it is stranded. */
  lemma Agreement(s: State, ws: Socket)
    requires Reachable(s) && ws in s.told && IsOpen(s, ws)
    ensures s.tunnel == Some(ws) && (Connected(s) <==> !Stranded(s))
  {
    var events :| Run(events) == s;
    RunKeepsOk(events);
  }

  // ---------------------------------------------------------------------------
  // How sockets close, and when the proxy is connected
  // ---------------------------------------------------------------------------

  /** What makes the proxy, the other side or the network close a socket. */
  ghost predicate IsClosing(s: State, e: Event) {
    match e
    case Connect(_) => false
    case Registration(_, valid) => !valid && !s.authenticated
    case AuthTimeout(_) => !s.authenticated
    case _ => true
  }

  /** An open socket stops being open exactly by such an event of its own. */
  lemma ClosesIff(s: State, e: Event, ws: Socket)
    requires IsOpen(s, ws)
    ensures !IsOpen(Step(s, e), ws) <==> Enabled(s, e) && e.ws == ws && IsClosing(s, e)
  {
  }

  /** A new socket is let in exactly if the tunnel is not open; then it is the tunnel, on its way to register. */
  lemma LetInIff(s: State, ws: Socket)
    requires Reachable(s) && ws !in s.ready
    ensures var t := Step(s, Connect(ws));
            && (ws in t.hooked <==> !TunnelOpen(s))
            && (ws in t.hooked <==> IsOpen(t, ws))
            && (ws in t.hooked ==> t.tunnel == Some(ws) && ws in t.authTimers && !t.authenticated)
            && (ws !in t.hooked ==> t.tunnel == s.tunnel && t.authenticated == s.authenticated)
  {
    var events :| Run(events) == s;
    RunKeepsOk(events);
  }

  /** The proxy becomes connected exactly by a valid registration while the tunnel is open and nobody is registered. */
  lemma ConnectsIff(s: State, e: Event)
    requires !Connected(s)
    ensures Connected(Step(s, e)) <==>
              Enabled(s, e) && e.Registration? && e.valid && !s.authenticated && TunnelOpen(s)
  {
  }

  /** It stops being connected exactly when its tunnel begins to close, or any socket has closed. */
  lemma DisconnectsIff(s: State, e: Event)
    requires Reachable(s) && Connected(s)
    ensures !Connected(Step(s, e)) <==>
              Enabled(s, e) && (e.CloseEvent? || (e.ws == s.tunnel.value && (e.MissedPong? || e.Leaves?)))
  {
    var events :| Run(events) == s;
    RunKeepsOk(events);
  }

  // ---------------------------------------------------------------------------
  // A registration that comes late
  // ---------------------------------------------------------------------------

  /** A valid registration is read from another socket than the open tunnel, while nobody is registered. */
  predicate LateRegistration(s: State, e: Event) {
    && e.Registration? && e.valid && Enabled(s, e)
    && TunnelOpen(s) && s.tunnel != Some(e.ws) && !s.authenticated
  }

  /** Requests begin to be relayed over a socket that did not register on one kind of event only. */
  lemma MistakenIff(s: State, e: Event)
    requires !Mistaken(s)
    ensures Mistaken(Step(s, e)) <==> LateRegistration(s, e) && s.tunnel.value !in s.verified
  {
  }

  /** Every registration is read while its socket is open. */
  ghost predicate OnTime(events: seq<Event>) {
    forall k :: 0 <= k < |events| && events[k].Registration? ==> IsOpen(Run(events[..k]), events[k].ws)
  }

  /** In such a run the tunnel's own home has always registered. */
  lemma {:induction false} OnTimeIsNotMistaken(events: seq<Event>)
    requires OnTime(events)
    ensures !Mistaken(Run(events))
  {
    if events != [] {
      var init, last := events[..|events| - 1], events[|events| - 1];
      forall k | 0 <= k < |init| && init[k].Registration? ensures IsOpen(Run(init[..k]), init[k].ws) {
        assert init[..k] == events[..k];
      }
      OnTimeIsNotMistaken(init);
      MistakenIff(Run(init), last);
      RunKeepsOk(init);
    }
  }

  lemma LateSteps()
    ensures Mistaken(Step(Step(Step(Step(START, Connect(0)), AuthTimeout(0)), Connect(1)), Registration(0, true)))
  {
    var s := Step(Step(Step(START, Connect(0)), AuthTimeout(0)), Connect(1));
    assert s == State(Some(1), false, None, {1}, map[0 := Closing, 1 := Open], {0, 1}, {}, {}, {});
  }

  /** The registration of a socket that is already closing opens the next one's way, and its heartbeat is the wrong one. */
  lemma LateRegistrationRun()
    ensures var s := Run([Connect(0), AuthTimeout(0), Connect(1), Registration(0, true)]);
            Mistaken(s) && s.tunnel == Some(1) && 1 !in s.asked && s.heartbeat == Some(0)
  {
    hide Run, Step, Mistaken;
    var events := [Connect(0), AuthTimeout(0), Connect(1), Registration(0, true)];
    RunStep(events, 0);
    RunStep(events, 1);
    RunStep(events, 2);
    RunStep(events, 3);
    assert events[..0] == [] && events[..4] == events;
    LateSteps();
    LateState();
  }

  lemma LateState()
    ensures var s := Step(Step(Step(Step(START, Connect(0)), AuthTimeout(0)), Connect(1)), Registration(0, true));
            s.tunnel == Some(1) && s.asked == {0} && s.heartbeat == Some(0)
  {
    var s := Step(Step(Step(START, Connect(0)), AuthTimeout(0)), Connect(1));
    assert s == State(Some(1), false, None, {1}, map[0 := Closing, 1 := Open], {0, 1}, {}, {}, {});
  }

  // ---------------------------------------------------------------------------
  // A close event that comes late
  // ---------------------------------------------------------------------------

  /** The close event of another socket than the tunnel's. */
  predicate StaleClose(s: State, e: Event) {
    e.CloseEvent? && Enabled(s, e) && s.tunnel != Some(e.ws)
  }

  /** A tunnel gets stranded by one kind of event only: the late close event of an earlier socket. */
  lemma StrandsIff(s: State, e: Event)
    requires Reachable(s) && !Stranded(s)
    ensures Stranded(Step(s, e)) <==> StaleClose(s, e) && Connected(s)
  {
    var events :| Run(events) == s;
    RunKeepsOk(events);
  }

  /** The other side gives the tunnel's socket up. */
  predicate GivesUp(s: State, e: Event) {
    s.tunnel.Some? && (e == Leaves(s.tunnel.value) || e == CloseEvent(s.tunnel.value))
  }

  /**
   What ends a stranding: the other side leaves; or the tunnel's own authentication
   timer, if it is still armed; or a registration, of whatever socket if it is valid.
   */
  lemma StrandingEndsIff(s: State, e: Event)
    requires Reachable(s) && Stranded(s) && Enabled(s, e)
    ensures !Stranded(Step(s, e)) <==>
      || GivesUp(s, e)
      || e == AuthTimeout(s.tunnel.value)
      || (e.Registration? && (e.valid || e.ws == s.tunnel.value))
  {
    var events :| Run(events) == s;
    RunKeepsOk(events);
  }

  /** Nothing but the other side, by leaving or by registering, can end the stranding. */
  ghost predicate OnlyOthersHelp(s: State) {
    forall e | Enabled(s, e) && !GivesUp(s, e) && !e.Registration? :: Stranded(Step(s, e))
  }

  /** That is so if and only if the authentication timer is gone. */
  lemma ForGoodIff(s: State)
    requires Reachable(s) && Stranded(s)
    ensures OnlyOthersHelp(s) <==> s.tunnel.value !in s.authTimers
  {
    var t := s.tunnel.value;
    if OnlyOthersHelp(s) && t in s.authTimers {
      assert Enabled(s, AuthTimeout(t));
      StrandingEndsIff(s, AuthTimeout(t));
      assert false;
    }
    if !OnlyOthersHelp(s) {
      var e :| Enabled(s, e) && !GivesUp(s, e) && !e.Registration? && !Stranded(Step(s, e));
      StrandingEndsIff(s, e);
    }
  }

  /** Neither the home nor the network gives up the tunnel's socket, and no registration is read that could end the stranding. */
  predicate NoHelp(events: seq<Event>, ws: Socket) {
    forall e <- events :: e != Leaves(ws) && e != CloseEvent(ws) && (e.Registration? ==> !e.valid && e.ws != ws)
  }

  function RunFrom(s: State, events: seq<Event>): State {
    if events == [] then s else Step(RunFrom(s, events[..|events| - 1]), events[|events| - 1])
  }

  ghost predicate StrandedForGood(s: State) {
    Stranded(s) && s.tunnel.value !in s.authTimers
  }

  lemma ForGoodStep(s: State, e: Event)
    requires Ok(s) && StrandedForGood(s) && NoHelp([e], s.tunnel.value)
    ensures StrandedForGood(Step(s, e)) && Step(s, e).tunnel == s.tunnel && Step(s, e).hooked == s.hooked
  {
    assert e in [e];
  }

  lemma {:induction false} ForGoodRun(s: State, events: seq<Event>)
    requires Ok(s) && StrandedForGood(s) && NoHelp(events, s.tunnel.value)
    ensures var t := RunFrom(s, events);
            Ok(t) && StrandedForGood(t) && t.tunnel == s.tunnel && t.hooked == s.hooked
  {
    var ws := s.tunnel.value;
    hide StrandedForGood, Step, Ok;
    if events != [] {
      var init, last := events[..|events| - 1], events[|events| - 1];
      assert last in events;
      assert NoHelp(init, ws) && NoHelp([last], ws);
      ForGoodRun(s, init);
      ForGoodStep(RunFrom(s, init), last);
      StepKeepsOk(RunFrom(s, init), last);
    }
  }

  /** Then the tunnel stays stranded until the other side helps, and every new connection is turned away. */
  lemma StrandedStays(s: State, events: seq<Event>)
    requires Reachable(s) && StrandedForGood(s) && NoHelp(events, s.tunnel.value)
    ensures var t := RunFrom(s, events);
            Stranded(t) && !Connected(t) && t.tunnel == s.tunnel && t.hooked == s.hooked
  {
    var before :| Run(before) == s;
    RunKeepsOk(before);
    ForGoodRun(s, events);
  }

  function StrandingEvents(): seq<Event> {
    [Connect(0), Registration(0, false), Connect(1), Registration(1, true), CloseEvent(0)]
  }

  lemma StrandingSteps()
    ensures StrandedForGood(Step(Step(Step(Step(Step(START, Connect(0)), Registration(0, false)), Connect(1)),
                               Registration(1, true)), CloseEvent(0)))
  {
    var s := Step(Step(Step(START, Connect(0)), Registration(0, false)), Connect(1));
    assert s == State(Some(1), false, None, {0, 1}, map[0 := Closing, 1 := Open], {0, 1}, {0}, {}, {});
  }

  /** It takes a socket that is slow to close and a home that has come back in the meantime. */
  lemma StrandingRun()
    ensures StrandedForGood(Run(StrandingEvents()))
  {
    hide Run, Step, StrandedForGood;
    var events := StrandingEvents();
    RunStep(events, 0);
    RunStep(events, 1);
    RunStep(events, 2);
    RunStep(events, 3);
    RunStep(events, 4);
    assert events[..0] == [] && events[..5] == events;
    StrandingSteps();
  }

  lemma RunStep(events: seq<Event>, k: nat)
    requires k < |events|
    ensures Run(events[..k + 1]) == Step(Run(events[..k]), events[k])
    ensures Run([]) == START
  {
    assert events[..k + 1][..k] == events[..k];
  }
}
