/**
 What connected clients see: each gets a snapshot of the device store when it
 connects, and afterwards every change, over its own socket or over the tunnel.

 An update is announced to the local and the remote listeners one after the other;
 other devices may change in between, but not the device itself. Clients connect
 between updates.
 */
module LiveView {
  import opened Option
  import opened Devices

  datatype Message =
    | Snapshot(devices: map<string, Device>)    // the list, by id
    | DeviceUpdated(device: Device)
    | DeviceRemoved(deviceId: string)
    | Other                                     // health, notifications, automations, sessions

  datatype Kind = Local | Remote

  /** A client and everything it was sent. A local socket that is closing is no longer open. */
  datatype Client = Client(kind: Kind, open: bool, sent: seq<Message>)

  /** An announcement that one kind of listener has not heard yet. */
  datatype Key = Key(kind: Kind, id: string)

  datatype State = State(devices: map<string, Device>, clients: map<string, Client>, late: map<Key, Message>)

  datatype Event =
    | Update(device: Device)
    | Remove(id: string)
    | Deliver(key: Key)
    | Connect(client: string, kind: Kind, open: bool)
    | Closing(client: string)
    | Closed(client: string)
    | Tell(kind: Kind)

  const START: State := State(map[], map[], map[])

  /** What a client makes of a message. */
  function Seen(before: map<string, Device>, m: Message): map<string, Device> {
    match m
    case Snapshot(devices) => devices
    case DeviceUpdated(device) => before[device.id := device]
    case DeviceRemoved(deviceId) => before - {deviceId}
    case Other => before
  }

  /** The device map a client keeps. */
  function View(sent: seq<Message>): map<string, Device> {
    if sent == [] then map[] else Seen(View(sent[..|sent| - 1]), sent[|sent| - 1])
  }

  function Told(c: Client, m: Message): Client {
    if c.open then c.(sent := c.sent + [m]) else c
  }

  function ToldAll(clients: map<string, Client>, kind: Kind, m: Message): map<string, Client> {
    map c <- clients :: if clients[c].kind == kind then Told(clients[c], m) else clients[c]
  }

  function Joined(clients: map<string, Client>, id: string, c: Client, devices: map<string, Device>): map<string, Client> {
    clients[id := Told(c, Snapshot(devices))]
  }

  /** The change itself, and what is announced of it. */
  function Updated(devices: map<string, Device>, device: Device): (map<string, Device>, Option<Message>) {
    var prev := Get(devices, device.id);
    var merged := Merge(prev, device);
    (devices[device.id := merged],
     if prev.None? || !SameState(prev.value, merged) then Some(DeviceUpdated(merged)) else None)
  }

  predicate Busy(s: State, id: string) {
    Key(Local, id) in s.late || Key(Remote, id) in s.late
  }

  function Announced(s: State, id: string, m: Message): State {
    s.(late := s.late[Key(Local, id) := m][Key(Remote, id) := m])
  }

  function Step(s: State, e: Event): State {
    match e
    case Update(device) =>
      if Busy(s, device.id) then s
      else
        var (devices, message) := Updated(s.devices, device);
        var t := s.(devices := devices);
        if message.None? then t else Announced(t, device.id, message.value)
    case Remove(id) =>
      if Busy(s, id) || id !in s.devices then s
      else Announced(s.(devices := s.devices - {id}), id, DeviceRemoved(id))
    case Deliver(key) =>
      if key !in s.late then s
      else s.(clients := ToldAll(s.clients, key.kind, s.late[key]), late := s.late - {key})
    case Connect(client, kind, open) =>
      if client in s.clients || s.late != map[] then s
      else s.(clients := Joined(s.clients, client, Client(kind, open, []), s.devices))
    case Closing(client) =>
      if client !in s.clients then s
      else s.(clients := s.clients[client := s.clients[client].(open := false)])
    case Closed(client) => s.(clients := s.clients - {client})
    case Tell(kind) => s.(clients := ToldAll(s.clients, kind, Other))
  }

  function Run(events: seq<Event>): State {
    if events == [] then START else Step(Run(events[..|events| - 1]), events[|events| - 1])
  }

  ghost predicate Reachable(s: State) {
    exists events :: Run(events) == s
  }

  // ---------------------------------------------------------------------------
  // The objects
  // ---------------------------------------------------------------------------

  class Socket {
    const id: string
    var open: bool
    var sent: seq<Message>

    ghost function Now(): Client
      reads this
    {
      Client(Local, open, sent)
    }

    constructor (id: string)
      ensures this.id == id && Now() == Client(Local, true, [])
    {
      this.id := id;
      open, sent := true, [];
    }

    method Send(m: Message)
      modifies this`sent
      ensures sent == old(sent) + [m]
    {
      sent := sent + [m];
    }
  }

  /** The clients of the home's own server. */
  class Hub {
    var clients: set<Socket>

    ghost predicate Valid()
      reads this
    {
      forall a <- clients, b <- clients :: a.id == b.id ==> a == b
    }

    /** The state's clients that are connected here. */
    ghost function Clients(): map<string, Client>
      requires Valid()
      reads this, clients
    {
      map ws <- clients :: ws.id := ws.Now()
    }

    constructor ()
      ensures Valid() && Clients() == map[]
    {
      clients := {};
    }

    method Broadcast(m: Message)
      requires Valid()
      modifies clients
      ensures Clients() == ToldAll(old(Clients()), Local, m)
    {
      var rest := clients;
      while rest != {}
        invariant rest <= clients
        invariant forall ws <- rest :: ws.Now() == old(ws.Now())
        invariant forall ws <- clients - rest :: ws.Now() == Told(old(ws.Now()), m)
        decreases |rest|
      {
        var ws :| ws in rest;
        if ws.open {
          ws.Send(m);
        }
        rest := rest - {ws};
      }
    }

    method OnConnect(socket: Socket, devices: map<string, Device>)
      requires Valid() && socket.open && socket.sent == [] && forall ws <- clients :: ws.id != socket.id
      modifies this, socket
      ensures Valid() && Clients() == Joined(old(Clients()), socket.id, Client(Local, true, []), devices)
    {
      clients := clients + {socket};
      assert forall ws <- clients :: ws == socket || ws in old(clients);
      socket.Send(Snapshot(devices));
    }

    method OnClose(socket: Socket)
      requires Valid() && socket in clients
      modifies this
      ensures Valid() && Clients() == old(Clients()) - {socket.id}
    {
      clients := clients - {socket};
    }
  }

  datatype Frame = Frame(sessionId: string, message: Message)

  /** The messages of one session among those that went through the tunnel. */
  function Of(frames: seq<Frame>, sessionId: string): seq<Message> {
    if frames == [] then []
    else
      var last := frames[|frames| - 1];
      Of(frames[..|frames| - 1], sessionId) + if last.sessionId == sessionId then [last.message] else []
  }

  /** Clients away from home: sessions that share the tunnel's socket. */
  class Sessions {
    var sessions: set<string>
    var tunnelOpen: bool
    var outbox: seq<Frame>

    /** The state's clients that are connected here. */
    ghost function Clients(): map<string, Client>
      reads this
    {
      map id <- sessions :: Client(Remote, tunnelOpen, Of(outbox, id))
    }

    constructor ()
      ensures Clients() == map[] && tunnelOpen && outbox == []
    {
      sessions, tunnelOpen, outbox := {}, true, [];
    }

    /** A frame for a socket that is not open is dropped. */
    method Send(sessionId: string, m: Message) returns (sent: bool)
      modifies this`outbox
      ensures sent == tunnelOpen
      ensures forall id :: Of(outbox, id) ==
                if tunnelOpen && id == sessionId then Of(old(outbox), id) + [m] else Of(old(outbox), id)
    {
      if !tunnelOpen {
        return false;
      }
      outbox := outbox + [Frame(sessionId, m)];
      assert outbox[..|outbox| - 1] == old(outbox);
      return true;
    }

    method Forward(m: Message)
      modifies this`outbox
      ensures Clients() == ToldAll(old(Clients()), Remote, m)
      ensures forall id :: id !in sessions ==> Of(outbox, id) == Of(old(outbox), id)
    {
      hide Of;
      var rest := sessions;
      while rest != {}
        invariant rest <= sessions
        invariant forall id :: Of(outbox, id) ==
                    if tunnelOpen && id in sessions && id !in rest then Of(old(outbox), id) + [m] else Of(old(outbox), id)
        decreases |rest|
      {
        var id :| id in rest;
        var _ := Send(id, m);
        rest := rest - {id};
      }
    }

    method HandleWsOpen(sessionId: string, devices: map<string, Device>)
      modifies this
      ensures sessionId in old(sessions) ==> Clients() == old(Clients())
      ensures sessionId !in old(sessions) ==>
        Clients() == Joined(old(Clients()), sessionId, Client(Remote, tunnelOpen, Of(old(outbox), sessionId)), devices)
    {
      if sessionId in sessions {
        return;
      }
      hide Of;
      sessions := sessions + {sessionId};
      var _ := Send(sessionId, Snapshot(devices));
    }

    method HandleWsClose(sessionId: string)
      modifies this`sessions
      ensures Clients() == old(Clients()) - {sessionId}
    {
      if sessionId !in sessions {
        return;
      }
      sessions := sessions - {sessionId};
    }

    method OnTunnelClosing()
      modifies this`tunnelOpen
      ensures Clients() == map c <- old(Clients()) :: old(Clients())[c].(open := false)
    {
      tunnelOpen := false;
    }
  }

  // ---------------------------------------------------------------------------
  // Every client's view
  // ---------------------------------------------------------------------------

  /** Two maps agree on a device, save for its timestamps. */
  ghost predicate SameEntry(a: map<string, Device>, b: map<string, Device>, id: string) {
    (id in a <==> id in b) && (id in a ==> SameState(a[id], b[id]))
  }

  /** An announcement that is under way tells the present state of its device. */
  ghost predicate TellsNow(devices: map<string, Device>, id: string, m: Message) {
    match m
    case DeviceUpdated(device) => device.id == id && id in devices && SameState(device, devices[id])
    case DeviceRemoved(deviceId) => deviceId == id && id !in devices
    case _ => false
  }

  ghost predicate LateOk(s: State) {
    forall key <- s.late :: TellsNow(s.devices, key.id, s.late[key])
  }

  /** An open client is right about every device it is not about to hear of. */
  ghost predicate SeesAll(s: State, c: Client) {
    c.open ==> forall id :: Key(c.kind, id) !in s.late ==> SameEntry(View(c.sent), s.devices, id)
  }

  ghost predicate Ok(s: State) {
    LateOk(s) && forall c <- s.clients :: SeesAll(s, s.clients[c])
  }

  lemma ViewAppend(sent: seq<Message>, m: Message)
    ensures View(sent + [m]) == Seen(View(sent), m)
  {
    assert (sent + [m])[..|sent|] == sent;
  }

  ghost predicate SameBut(a: map<string, Device>, b: map<string, Device>, id: string) {
    forall other | other != id :: (other in a <==> other in b) && (other in a ==> a[other] == b[other])
  }

  /** A change that is not worth announcing leaves every client right. */
  lemma SilentOk(s: State, devices: map<string, Device>, id: string)
    requires Ok(s) && !Busy(s, id) && SameBut(s.devices, devices, id) && SameEntry(s.devices, devices, id)
    ensures Ok(s.(devices := devices))
  {
    hide View;
    var t := s.(devices := devices);
    forall c | c in t.clients ensures SeesAll(t, t.clients[c]) {
      assert SeesAll(s, s.clients[c]);
    }
  }

  /** An announced change leaves them right about the other devices. */
  lemma AnnouncedOk(s: State, devices: map<string, Device>, id: string, m: Message)
    requires Ok(s) && SameBut(s.devices, devices, id) && TellsNow(devices, id, m)
    ensures Ok(Announced(s.(devices := devices), id, m))
  {
    hide View;
    var t := Announced(s.(devices := devices), id, m);
    forall key | key in t.late ensures TellsNow(devices, key.id, t.late[key]) {
      assert key.kind == Local || key.kind == Remote;
      assert key.id != id ==> key in s.late && t.late[key] == s.late[key];
      assert key.id == id ==> t.late[key] == m;
    }
    forall c | c in t.clients ensures SeesAll(t, t.clients[c]) {
      var client := s.clients[c];
      assert SeesAll(s, client);
      assert Key(client.kind, id) in t.late by {
        assert client.kind == Local || client.kind == Remote;
      }
      if client.open {
        forall other | Key(client.kind, other) !in t.late ensures SameEntry(View(client.sent), devices, other) {
          assert SameEntry(View(client.sent), s.devices, other);
        }
      }
    }
  }

  lemma DeliverOk(s: State, key: Key)
    requires Ok(s) && key in s.late
    ensures Ok(Step(s, Deliver(key)))
  {
    hide View;
    var t := Step(s, Deliver(key));
    forall c | c in t.clients ensures SeesAll(t, t.clients[c]) {
      assert SeesAll(s, s.clients[c]);
      ViewAppend(s.clients[c].sent, s.late[key]);
    }
  }

  lemma TellOk(s: State, kind: Kind)
    requires Ok(s)
    ensures Ok(Step(s, Tell(kind)))
  {
    hide View;
    var t := Step(s, Tell(kind));
    forall c | c in t.clients ensures SeesAll(t, t.clients[c]) {
      assert SeesAll(s, s.clients[c]);
      ViewAppend(s.clients[c].sent, Other);
    }
  }

  lemma ConnectOk(s: State, client: string, kind: Kind, open: bool)
    requires Ok(s)
    ensures Ok(Step(s, Connect(client, kind, open)))
  {
    hide View;
    var t := Step(s, Connect(client, kind, open));
    ViewAppend([], Snapshot(s.devices));
    assert [] + [Snapshot(s.devices)] == [Snapshot(s.devices)];
    forall c | c in t.clients ensures SeesAll(t, t.clients[c]) {
      if c in s.clients {
        assert SeesAll(s, s.clients[c]);
      }
    }
  }

  lemma LeaveOk(s: State, e: Event)
    requires Ok(s) && (e.Closing? || e.Closed?)
    ensures Ok(Step(s, e))
  {
  }

  lemma UpdateOk(s: State, device: Device)
    requires Ok(s)
    ensures Ok(Step(s, Update(device)))
  {
    hide View, Ok;
    if !Busy(s, device.id) {
      var (devices, message) := Updated(s.devices, device);
      if message.None? {
        SilentOk(s, devices, device.id);
      } else {
        AnnouncedOk(s, devices, device.id, message.value);
      }
    }
  }

  lemma RemoveOk(s: State, id: string)
    requires Ok(s)
    ensures Ok(Step(s, Remove(id)))
  {
    hide View, Ok;
    if !Busy(s, id) && id in s.devices {
      AnnouncedOk(s, s.devices - {id}, id, DeviceRemoved(id));
    }
  }

  lemma StepKeepsOk(s: State, e: Event)
    requires Ok(s)
    ensures Ok(Step(s, e))
  {
    hide View, Ok, ToldAll;
    match e {
      case Update(device) => UpdateOk(s, device);
      case Remove(deviceId) => RemoveOk(s, deviceId);
      case Deliver(key) =>
        if key in s.late {
          DeliverOk(s, key);
        }
      case Connect(client, kind, open) => ConnectOk(s, client, kind, open);
      case Closing(client) => LeaveOk(s, e);
      case Closed(client) => LeaveOk(s, e);
      case Tell(kind) => TellOk(s, kind);
    }
  }

  lemma {:induction false} RunKeepsOk(events: seq<Event>)
    ensures Ok(Run(events))
  {
    hide Ok, Step;
    if events == [] {
      StartOk();
    } else {
      RunKeepsOk(events[..|events| - 1]);
      StepKeepsOk(Run(events[..|events| - 1]), events[|events| - 1]);
    }
  }

  lemma StartOk()
    ensures Ok(START)
  {
  }

  /**
   In every reachable state, what an open client has put together from its messages is the
   store, save for timestamps and for devices whose announcement is just on its way to it.
   */
  lemma ViewIsStore(s: State, c: string, id: string)
    requires Reachable(s) && c in s.clients && s.clients[c].open
    requires Key(s.clients[c].kind, id) !in s.late
    ensures var view := View(s.clients[c].sent);
            && (id in view <==> id in s.devices)
            && (id in view ==> view[id] == s.devices[id].(lastChanged := view[id].lastChanged,
                                                          lastUpdated := view[id].lastUpdated))
  {
    hide View, Run;
    var events :| Run(events) == s;
    RunKeepsOk(events);
    assert SeesAll(s, s.clients[c]);
    var view := View(s.clients[c].sent);
    assert SameEntry(view, s.devices, id);
    if id in view {
      SameStateIff(view[id], s.devices[id]);
    }
  }

  /**
   An update is announced, with what is stored, if and only if the device is new or something other
   than a timestamp is not as it was stored before.
   */
  lemma AnnouncedIff(devices: map<string, Device>, device: Device)
    ensures Updated(devices, device).0 == devices[device.id := Merge(Get(devices, device.id), device)]
    ensures var (stored, message) := Updated(devices, device);
            var now := stored[device.id];
            && (message == None || message == Some(DeviceUpdated(now)))
            && (message == None <==>
                  device.id in devices
                  && now == devices[device.id].(lastChanged := now.lastChanged, lastUpdated := now.lastUpdated))
  {
    if device.id in devices {
      var was, now := devices[device.id], Updated(devices, device).0[device.id];
      SameStateIff(was, now);
      SameStateIff(now, was);
    }
  }

  /** Between updates the two are the same map, save for timestamps. */
  lemma QuietView(s: State, c: string)
    requires Reachable(s) && c in s.clients && s.clients[c].open && s.late == map[]
    ensures View(s.clients[c].sent).Keys == s.devices.Keys
    ensures var view := View(s.clients[c].sent);
            forall id <- s.devices ::
              view[id] == s.devices[id].(lastChanged := view[id].lastChanged, lastUpdated := view[id].lastUpdated)
  {
    hide View;
    var view := View(s.clients[c].sent);
    forall id
      ensures id in view <==> id in s.devices
      ensures id in view ==>
                view[id] == s.devices[id].(lastChanged := view[id].lastChanged, lastUpdated := view[id].lastUpdated)
    {
      ViewIsStore(s, c, id);
    }
  }

  /** Any two connected clients, at home or away, then see the same devices. */
  lemma SameForAll(s: State, a: string, b: string)
    requires Reachable(s) && a in s.clients && b in s.clients && s.clients[a].open && s.clients[b].open
    requires s.late == map[]
    ensures var here, there := View(s.clients[a].sent), View(s.clients[b].sent);
            && here.Keys == there.Keys
            && forall id <- here ::
                 here[id] == there[id].(lastChanged := here[id].lastChanged, lastUpdated := here[id].lastUpdated)
  {
    hide View;
    QuietView(s, a);
    QuietView(s, b);
  }

  // ---------------------------------------------------------------------------
  // A change reaches everyone
  // ---------------------------------------------------------------------------

  /** The event, and the delivery of what it announced to both kinds of listeners. */
  function WithDeliveries(e: Event, id: string): seq<Event> {
    [e, Deliver(Key(Local, id)), Deliver(Key(Remote, id))]
  }

  lemma RunOne(events: seq<Event>, e: Event)
    ensures Run(events + [e]) == Step(Run(events), e)
  {
    assert (events + [e])[..|events|] == events;
  }

  lemma RunThree(events: seq<Event>, a: Event, b: Event, c: Event)
    ensures Run(events + [a, b, c]) == Step(Step(Step(Run(events), a), b), c)
  {
    hide Run, Step;
    RunOne(events, a);
    RunOne(events + [a], b);
    RunOne(events + [a] + [b], c);
    assert events + [a, b, c] == events + [a] + [b] + [c];
  }

  lemma DeliveriesOnly(s: State, id: string)
    requires s.late.Keys <= {Key(Local, id), Key(Remote, id)}
    ensures var t := Step(Step(s, Deliver(Key(Local, id))), Deliver(Key(Remote, id)));
            && t.late == map[] && t.devices == s.devices
            && t.clients.Keys == s.clients.Keys
            && forall c <- s.clients :: t.clients[c].open == s.clients[c].open
  {
  }

  /** After an update and its two deliveries every open client has what is now stored, save for timestamps. */
  lemma UpdateReachesAll(events: seq<Event>, device: Device, c: string)
    requires Run(events).late == map[] && c in Run(events).clients && Run(events).clients[c].open
    ensures var s, t := Run(events), Run(events + WithDeliveries(Update(device), device.id));
            && t.late == map[]
            && t.devices == s.devices[device.id := Merge(Get(s.devices, device.id), device)]
            && c in t.clients
            && var view := View(t.clients[c].sent);
               && view.Keys == s.devices.Keys + {device.id}
               && view[device.id] == t.devices[device.id].(lastChanged := view[device.id].lastChanged,
                                                           lastUpdated := view[device.id].lastUpdated)
  {
    hide View, Run, Merge, Reachable;
    var s := Run(events);
    RunThree(events, Update(device), Deliver(Key(Local, device.id)), Deliver(Key(Remote, device.id)));
    DeliveriesOnly(Step(s, Update(device)), device.id);
    ReachedView(events + WithDeliveries(Update(device), device.id), c);
  }

  lemma ReachedView(events: seq<Event>, c: string)
    requires Run(events).late == map[] && c in Run(events).clients && Run(events).clients[c].open
    ensures var s, view := Run(events), View(Run(events).clients[c].sent);
            && view.Keys == s.devices.Keys
            && forall id <- s.devices ::
                 view[id] == s.devices[id].(lastChanged := view[id].lastChanged, lastUpdated := view[id].lastUpdated)
  {
    hide View, Run;
    assert Reachable(Run(events));
    QuietView(Run(events), c);
  }

  /** After a removal and its two deliveries no open client has the device any more. */
  lemma RemovalReachesAll(events: seq<Event>, id: string, c: string)
    requires Run(events).late == map[] && c in Run(events).clients && Run(events).clients[c].open
    ensures var s, t := Run(events), Run(events + WithDeliveries(Remove(id), id));
            && t.late == map[] && t.devices == s.devices - {id} && c in t.clients
            && View(t.clients[c].sent).Keys == s.devices.Keys - {id}
  {
    hide View, Run, Reachable;
    var s := Run(events);
    RunThree(events, Remove(id), Deliver(Key(Local, id)), Deliver(Key(Remote, id)));
    DeliveriesOnly(Step(s, Remove(id)), id);
    ReachedView(events + WithDeliveries(Remove(id), id), c);
  }
}
