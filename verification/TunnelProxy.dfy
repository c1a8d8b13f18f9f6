/**
 The proxy's end of the tunnel: pending requests, the streams handed to HTTP
 replies, and the route that turns a stream into a reply.

 Requests are identified by the random UUID the route draws, so an identifier is
 never used twice. Promises, timers and streams are therefore named by it too.
 */
module TunnelProxy {
  import opened Option
  import opened Base64
  import opened TunnelMessages

  datatype Pending = PendingBuffered | PendingStreaming

  /** One call of a promise's `resolve` or `reject`. */
  datatype Outcome =
    | ResolvedBuffered(head: Head, body: string, base64: bool)
    | ResolvedStreaming(head: Head)
    | Rejected(reason: string)

  datatype Flow = Open | Ended | Destroyed

  /** A PassThrough: bytes written, how many its listener has been given, and how it was closed. */
  datatype Pipe = Pipe(written: Bytes, taken: nat, flow: Flow)

  datatype ProxyState = ProxyState(
    tunnelOpen: bool,
    authenticated: bool,
    pending: map<Id, Pending>,
    timers: set<Id>,
    promises: map<Id, seq<Outcome>>,
    pipes: map<Id, Pipe>,
    outbox: seq<ToHome>)

  const NOT_CONNECTED := "tunnel not connected"
  const TIMED_OUT := "tunnel request timeout"
  const DISCONNECTED := "tunnel disconnected"
  const CANCELLED := "cancelled"

  /** What a request has been told so far. */
  function Outcomes(promises: map<Id, seq<Outcome>>, id: Id): seq<Outcome> {
    if id in promises then promises[id] else []
  }

  function Settle(promises: map<Id, seq<Outcome>>, id: Id, outcome: Outcome): map<Id, seq<Outcome>> {
    promises[id := Outcomes(promises, id) + [outcome]]
  }

  /** Writing to, ending or destroying a stream has no effect once it is no longer open. */
  function Close(pipes: map<Id, Pipe>, id: Id, flow: Flow): map<Id, Pipe> {
    if id in pipes && pipes[id].flow.Open? then pipes[id := pipes[id].(flow := flow)] else pipes
  }

  function Write(pipes: map<Id, Pipe>, id: Id, bytes: Bytes): map<Id, Pipe> {
    if id in pipes && pipes[id].flow.Open?
    then pipes[id := pipes[id].(written := pipes[id].written + bytes)] else pipes
  }

  function Send(p: ProxyState, frame: ToHome): ProxyState {
    if p.tunnelOpen then p.(outbox := p.outbox + [frame]) else p
  }

  function SendHttpRequest(p: ProxyState, id: Id, request: Request): ProxyState {
    if !(p.authenticated && p.tunnelOpen) then
      p.(promises := p.promises[id := [Rejected(NOT_CONNECTED)]])
    else
      p.(pending := p.pending[id := PendingBuffered],
         timers := p.timers + {id},
         promises := p.promises[id := []],
         outbox := p.outbox + [HttpRequest(id, request)])
  }

  function Expire(p: ProxyState, id: Id): ProxyState {
    if id !in p.timers then p
    else if id !in p.pending then p.(timers := p.timers - {id})
    else p.(timers := p.timers - {id},
            pending := p.pending - {id},
            promises := Settle(p.promises, id, Rejected(TIMED_OUT)))
  }

  function CancelStream(p: ProxyState, id: Id): ProxyState {
    if id !in p.pending then p
    else Send(p.(pipes := if p.pending[id].PendingStreaming? then Close(p.pipes, id, Destroyed) else p.pipes,
                 timers := p.timers - {id},
                 pending := p.pending - {id}), StreamCancel(id))
  }

  function Receive(p: ProxyState, frame: ToProxy): ProxyState {
    if frame.id !in p.pending then p
    else
      var id := frame.id;
      var pending := p.pending[id];
      match frame
      case HttpResponse(_, head, body, base64) =>
        p.(timers := p.timers - {id},
           pending := p.pending - {id},
           pipes := if pending.PendingStreaming? then Close(p.pipes, id, Destroyed) else p.pipes,
           promises := Settle(p.promises, id, ResolvedBuffered(head, body, base64)))
      case StreamStart(_, head) =>
        p.(timers := p.timers - {id},
           pending := p.pending[id := PendingStreaming],
           pipes := p.pipes[id := Pipe([], 0, Open)],
           promises := Settle(p.promises, id, ResolvedStreaming(head)))
      case StreamChunk(_, data) =>
        if pending.PendingBuffered? then p
        else p.(pipes := Write(p.pipes, id, Decode(data)))
      case StreamEnd(_, error) =>
        p.(pending := p.pending - {id},
           pipes := if pending.PendingBuffered? then p.pipes
                    else Close(p.pipes, id, if EndsCleanly(error) then Ended else Destroyed))
  }

  /** The proxy treats a missing or empty error, and the error `cancelled`, as a normal end. */
  predicate EndsCleanly(error: Option<string>) {
    error.None? || error.value == "" || error.value == CANCELLED
  }

  /** The pending entries in `ids` are told: a buffered one is rejected, a streaming one loses its stream. */
  function Released(p: ProxyState, ids: set<Id>): ProxyState {
    p.(timers := p.timers - ids,
       promises := map id | id in p.promises ::
         if Rejects(p, ids, id) then p.promises[id] + [Rejected(DISCONNECTED)] else p.promises[id],
       pipes := map id | id in p.pipes ::
         p.pipes[id].(flow := if Streams(p, ids, id) && p.pipes[id].flow.Open? then Destroyed else p.pipes[id].flow))
  }

  predicate Streams(p: ProxyState, ids: set<Id>, id: Id) {
    id in ids && id in p.pending && p.pending[id].PendingStreaming?
  }

  predicate Rejects(p: ProxyState, ids: set<Id>, id: Id) {
    id in ids && id in p.pending && p.pending[id].PendingBuffered?
  }

  function RejectAllPending(p: ProxyState): ProxyState {
    Released(p, p.pending.Keys).(pending := map[])
  }

  lemma ReleasedNone(p: ProxyState)
    ensures Released(p, {}) == p
  {
    assert Released(p, {}).promises == p.promises;
    assert Released(p, {}).pipes == p.pipes;
  }

  function RejectOne(p: ProxyState, id: Id): ProxyState
    requires id in p.pending
  {
    if p.pending[id].PendingBuffered? then
      p.(timers := p.timers - {id}, promises := Settle(p.promises, id, Rejected(DISCONNECTED)))
    else
      p.(timers := p.timers - {id}, pipes := Close(p.pipes, id, Destroyed))
  }

  lemma ReleasedOneMore(p: ProxyState, ids: set<Id>, id: Id)
    requires id in p.pending && id !in ids && id in p.promises
    ensures RejectOne(Released(p, ids), id) == Released(p, ids + {id})
  {
    var q, r := RejectOne(Released(p, ids), id), Released(p, ids + {id});
    assert q.timers == r.timers;
    assert q.promises == r.promises;
    assert q.pipes == r.pipes;
  }

  function OnClose(p: ProxyState): ProxyState {
    RejectAllPending(p.(authenticated := false, tunnelOpen := false))
  }

  /** Up to `n` buffered bytes reach the listener; a destroyed stream gives nothing more. */
  function Take(pipe: Pipe, n: nat): (Bytes, Pipe)
    requires !pipe.flow.Destroyed? && pipe.taken + n <= |pipe.written|
  {
    (pipe.written[pipe.taken..pipe.taken + n], pipe.(taken := pipe.taken + n))
  }

  // ---------------------------------------------------------------------------
  // The manager object
  // ---------------------------------------------------------------------------

  class TunnelManager {
    var tunnel: Option<nat>        // the socket in use
    var tunnelOpen: bool           // its readyState is OPEN
    var authenticated: bool
    var authTimers: set<nat>       // sockets whose registration is overdue when theirs runs
    var heartbeat: Option<nat>     // the socket that is pinged
    var homeVersion: Option<string>
    var pendingRequests: map<Id, Pending>
    var timers: set<Id>            // armed time-to-first-byte timers
    var promises: map<Id, seq<Outcome>>
    var streams: map<Id, Pipe>
    var outbox: seq<ToHome>        // what has been sent on the socket

    ghost function State(): ProxyState
      reads this
    {
      ProxyState(tunnelOpen, authenticated, pendingRequests, timers, promises, streams, outbox)
    }

    /** What the entries rely on: a promise for each, and an open stream for each streaming one. */
    ghost predicate Valid()
      reads this
    {
      && pendingRequests.Keys <= promises.Keys
      && (forall id | id in pendingRequests && pendingRequests[id].PendingStreaming? ::
            id in streams && streams[id].flow.Open?)
      && (tunnel.None? ==> !tunnelOpen)
    }

    constructor ()
      ensures Valid()
      ensures State() == ProxyState(false, false, map[], {}, map[], map[], [])
    {
      tunnel, tunnelOpen, authenticated := None, false, false;
      authTimers, heartbeat, homeVersion := {}, None, None;
      pendingRequests, timers, promises, streams, outbox := map[], {}, map[], map[], [];
    }

    method SendToTunnel(frame: ToHome) returns (sent: bool)
      requires Valid()
      modifies this`outbox
      ensures Valid()
      ensures State() == Send(old(State()), frame)
      ensures sent == tunnelOpen
    {
      if !tunnelOpen {
        return false;
      }
      outbox := outbox + [frame];
      return true;
    }

    method SendRequest(id: Id, request: Request)
      requires Valid() && id !in promises
      modifies this
      ensures Valid()
      ensures State() == SendHttpRequest(old(State()), id, request)
    {
      promises := promises[id := []];
      if !(authenticated && tunnelOpen) {
        promises := Settle(promises, id, Rejected(NOT_CONNECTED));
        assert promises[id] == [Rejected(NOT_CONNECTED)];
        assert promises == old(promises)[id := [Rejected(NOT_CONNECTED)]];
        return;
      }
      timers := timers + {id};
      pendingRequests := pendingRequests[id := PendingBuffered];
      var _ := SendToTunnel(HttpRequest(id, request));
    }

    method OnTimeout(id: Id)
      requires Valid() && id in timers
      modifies this
      ensures Valid()
      ensures State() == Expire(old(State()), id)
    {
      timers := timers - {id};
      if id !in pendingRequests {
        return;
      }
      pendingRequests := pendingRequests - {id};
      promises := Settle(promises, id, Rejected(TIMED_OUT));
    }

    method Cancel(id: Id)
      requires Valid()
      modifies this
      ensures Valid()
      ensures State() == CancelStream(old(State()), id)
    {
      if id !in pendingRequests {
        return;
      }
      if pendingRequests[id].PendingStreaming? && streams[id].flow.Open? {
        streams := streams[id := streams[id].(flow := Destroyed)];
      }
      timers := timers - {id};
      pendingRequests := pendingRequests - {id};
      var _ := SendToTunnel(StreamCancel(id));
    }

    method HandleTunnelMessage(frame: ToProxy)
      requires Valid()
      modifies this
      ensures Valid()
      ensures State() == Receive(old(State()), frame)
    {
      var id := frame.id;
      if id !in pendingRequests {
        return;
      }
      var pending := pendingRequests[id];
      match frame {
        case HttpResponse(_, head, body, base64) =>
          timers := timers - {id};
          pendingRequests := pendingRequests - {id};
          if pending.PendingStreaming? && streams[id].flow.Open? {
            streams := streams[id := streams[id].(flow := Destroyed)];
          }
          promises := Settle(promises, id, ResolvedBuffered(head, body, base64));
        case StreamStart(_, head) =>
          timers := timers - {id};
          streams := streams[id := Pipe([], 0, Open)];
          pendingRequests := pendingRequests[id := PendingStreaming];
          promises := Settle(promises, id, ResolvedStreaming(head));
        case StreamChunk(_, data) =>
          if pending.PendingBuffered? || !streams[id].flow.Open? {
            return;
          }
          streams := streams[id := streams[id].(written := streams[id].written + Decode(data))];
        case StreamEnd(_, error) =>
          pendingRequests := pendingRequests - {id};
          if pending.PendingStreaming? && streams[id].flow.Open? {
            if error.Some? && error.value != "" && error.value != CANCELLED {
              streams := streams[id := streams[id].(flow := Destroyed)];
            } else {
              streams := streams[id := streams[id].(flow := Ended)];
            }
          }
      }
    }

    method Reject(id: Id)
      requires id in pendingRequests && (pendingRequests[id].PendingStreaming? ==> id in streams)
      modifies this`timers, this`promises, this`streams
      ensures State() == RejectOne(old(State()), id)
    {
      timers := timers - {id};
      if pendingRequests[id].PendingStreaming? {
        if streams[id].flow.Open? {
          streams := streams[id := streams[id].(flow := Destroyed)];
        }
      } else {
        promises := Settle(promises, id, Rejected(DISCONNECTED));
      }
    }

    method RejectAll()
      requires Valid()
      modifies this`timers, this`promises, this`streams, this`pendingRequests
      ensures Valid()
      ensures State() == RejectAllPending(old(State()))
    {
      ghost var was, done := State(), {};
      ReleasedNone(was);
      var rest := pendingRequests.Keys;
      while rest != {}
        invariant rest !! done && rest + done == was.pending.Keys
        invariant State() == Released(was, done)
        decreases rest
      {
        var id :| id in rest;
        ReleasedOneMore(was, done, id);
        Reject(id);
        rest, done := rest - {id}, done + {id};
      }
      assert done == was.pending.Keys;
      pendingRequests := map[];
    }

    /** The close handler of any socket that was admitted; only the current one is forgotten. */
    method OnSocketClose(ws: nat)
      requires Valid()
      modifies this
      ensures Valid()
      ensures tunnel == if old(tunnel) == Some(ws) then None else old(tunnel)
      ensures authTimers == old(authTimers) - {ws} && heartbeat == None && homeVersion == None
      ensures old(tunnel) == Some(ws) ==> State() == OnClose(old(State()))
      ensures old(tunnel) != Some(ws) ==> State() == RejectAllPending(old(State()).(authenticated := false))
    {
      authTimers := authTimers - {ws};
      heartbeat := None;
      authenticated := false;
      homeVersion := None;
      if tunnel == Some(ws) {
        tunnel, tunnelOpen := None, false;
      }
      RejectAll();
    }
  }

  // ---------------------------------------------------------------------------
  // The /api/* route: a stream becomes one reply
  // ---------------------------------------------------------------------------

  function Flatten(chunks: seq<Bytes>): Bytes {
    if chunks == [] then [] else Flatten(chunks[..|chunks| - 1]) + chunks[|chunks| - 1]
  }

  /** `Buffer.concat(list, total)`: cut or zero-filled to exactly `total` bytes. */
  function BufferConcat(list: seq<Bytes>, total: nat): (r: Bytes)
    ensures |r| == total
    ensures total == |Flatten(list)| ==> r == Flatten(list)
  {
    var all := Flatten(list);
    if total <= |all| then all[..total] else all + seq(total - |all|, _ => 0)
  }

  datatype Route = Route(chunks: seq<Bytes>, totalBytes: nat, reply: Option<Bytes>)

  function OnData(r: Route, chunk: Bytes): Route {
    r.(chunks := r.chunks + [chunk], totalBytes := r.totalBytes + |chunk|)
  }

  function OnEnd(r: Route): Route {
    r.(reply := Some(BufferConcat(r.chunks, r.totalBytes)))
  }

  lemma FlattenAppend(chunks: seq<Bytes>, chunk: Bytes)
    ensures Flatten(chunks + [chunk]) == Flatten(chunks) + chunk
  {
    assert (chunks + [chunk])[..|chunks|] == chunks;
  }

  class ReplyRoute {
    var chunks: seq<Bytes>
    var totalBytes: nat
    var reply: Option<Bytes>

    ghost function State(): Route
      reads this
    {
      Route(chunks, totalBytes, reply)
    }

    ghost predicate Valid()
      reads this
    {
      totalBytes == |Flatten(chunks)|
    }

    constructor ()
      ensures Valid() && State() == Route([], 0, None)
    {
      chunks, totalBytes, reply := [], 0, None;
    }

    method Data(chunk: Bytes)
      requires Valid()
      modifies this
      ensures Valid() && State() == OnData(old(State()), chunk)
      ensures Flatten(chunks) == old(Flatten(chunks)) + chunk
    {
      FlattenAppend(chunks, chunk);
      chunks := chunks + [chunk];
      totalBytes := totalBytes + |chunk|;
    }

    method End()
      requires Valid()
      modifies this
      ensures Valid() && State() == OnEnd(old(State()))
      ensures reply == Some(Flatten(old(chunks)))
    {
      reply := Some(BufferConcat(chunks, totalBytes));
    }
  }
}
