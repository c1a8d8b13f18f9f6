/**
 The home's end of the tunnel: each relayed request is a job that runs between
 awaits, and a streaming job can be aborted while it waits.
 */
module TunnelHome {
  import opened Option
  import opened Base64
  import opened TunnelMessages

  /** What a streaming or buffered job is waiting for. */
  datatype Pc =
    | Injecting   // the buffered reply of `app.inject` or of the frontend
    | Fetching    // the response headers
    | Draining    // room in the socket's outbound buffer
    | Reading     // the next slice of the body
    | Cancelling  // the reader's own cancellation
    | Done

  /** `body` is what upstream holds, `read` how many of its bytes the job has read. */
  datatype Job = Job(pc: Pc, aborted: bool, body: Bytes, read: nat)

  /** Why a fetch or a read rejected: the abort signal, or an error with a message. */
  datatype Failure = AbortError | Failed(message: string)

  datatype HomeState = HomeState(
    open: bool,                 // the socket takes frames
    listening: bool,            // and still brings some, also while it is closing
    activeStreams: set<Id>,
    jobs: map<Id, Job>,
    outbox: seq<ToProxy>)

  function SegmentLength(s: string): nat {
    if s == "" || s[0] == '/' then 0 else 1 + SegmentLength(s[1..])
  }

  lemma SegmentFits(s: string)
    ensures SegmentLength(s) <= |s|
  {
  }

  function BeforeQuery(path: string): string {
    if path == "" || path[0] == '?' then "" else [path[0]] + BeforeQuery(path[1..])
  }

  const CAMERAS := "/api/cameras/"

  /** `/api/cameras/<segment>/hls/...` and `/api/cameras/<segment>/mjpeg`. */
  predicate IsStreamingPath(path: string) {
    var p := BeforeQuery(path);
    CAMERAS <= p &&
    var rest := p[|CAMERAS|..];
    var n := SegmentLength(rest);
    SegmentFits(rest);
    n > 0 && ("/hls/" <= rest[n..] || rest[n..] == "/mjpeg")
  }

  predicate IsStreamed(request: Request) {
    && !("x-tunnel-target" in request.headers && request.headers["x-tunnel-target"] == "frontend")
    && IsStreamingPath(request.path)
  }

  function Send(h: HomeState, frame: ToProxy): HomeState {
    if h.open then h.(outbox := h.outbox + [frame]) else h
  }

  function SetJob(h: HomeState, id: Id, job: Job): HomeState {
    h.(jobs := h.jobs[id := job])
  }

  /** The `finally` of a streaming job. */
  function Finish(h: HomeState, id: Id): HomeState
    requires id in h.jobs
  {
    SetJob(h, id, h.jobs[id].(pc := Done)).(activeStreams := h.activeStreams - {id})
  }

  function Receive(h: HomeState, frame: ToHome): HomeState {
    match frame
    case HttpRequest(id, request) =>
      if IsStreamed(request)
      then SetJob(h, id, Job(Fetching, false, [], 0)).(activeStreams := h.activeStreams + {id})
      else SetJob(h, id, Job(Injecting, false, [], 0))
    case StreamCancel(id) =>
      if id in h.activeStreams && id in h.jobs
      then SetJob(h, id, h.jobs[id].(aborted := true)).(activeStreams := h.activeStreams - {id})
      else h
  }

  function Injected(h: HomeState, id: Id, head: Head, body: string, base64: bool): HomeState
    requires id in h.jobs
  {
    SetJob(Send(h, HttpResponse(id, head, body, base64)), id, h.jobs[id].(pc := Done))
  }

  function Fetched(h: HomeState, id: Id, head: Head, body: Option<Bytes>): HomeState
    requires id in h.jobs
  {
    var started := Send(h, StreamStart(id, head));
    match body
    case None => Finish(Send(started, StreamEnd(id, None)), id)
    case Some(bytes) => SetJob(started, id, h.jobs[id].(pc := Draining, body := bytes, read := 0))
  }

  function Drained(h: HomeState, id: Id): HomeState
    requires id in h.jobs
  {
    SetJob(h, id, h.jobs[id].(pc := if id in h.activeStreams then Reading else Cancelling))
  }

  /** The next `n` bytes arrive; an empty slice is skipped without a frame. */
  function ReadSlice(h: HomeState, id: Id, n: nat): HomeState
    requires id in h.jobs && h.jobs[id].read + n <= |h.jobs[id].body|
  {
    var job := h.jobs[id];
    var slice := job.body[job.read..job.read + n];
    var h' := if n == 0 then h else Send(h, StreamChunk(id, Encode(slice)));
    SetJob(h', id, job.(pc := Draining, read := job.read + n))
  }

  function ReadEnd(h: HomeState, id: Id): HomeState
    requires id in h.jobs
  {
    Finish(Send(h, StreamEnd(id, None)), id)
  }

  function ErrorText(failure: Failure): string {
    match failure
    case AbortError => "cancelled"
    case Failed(message) => message
  }

  function Fail(h: HomeState, id: Id, failure: Failure): HomeState
    requires id in h.jobs
  {
    Finish(Send(h, StreamEnd(id, Some(ErrorText(failure)))), id)
  }

  function AbortAllStreams(h: HomeState): HomeState {
    h.(jobs := map id | id in h.jobs ::
         if id in h.activeStreams then h.jobs[id].(aborted := true) else h.jobs[id],
       activeStreams := {})
  }

  /** The socket begins to close: jobs go on, but what they send is dropped. */
  function OnClosing(h: HomeState): HomeState {
    h.(open := false)
  }

  function OnClose(h: HomeState): HomeState {
    AbortAllStreams(h.(open := false, listening := false))
  }

  // ---------------------------------------------------------------------------
  // The client object: one method for each stretch of code between two awaits
  // ---------------------------------------------------------------------------

  class TunnelClient {
    var connected: bool
    var listening: bool
    var activeStreams: set<Id>
    var jobs: map<Id, Job>
    var outbox: seq<ToProxy>

    ghost function State(): HomeState
      reads this
    {
      HomeState(connected, listening, activeStreams, jobs, outbox)
    }

    ghost predicate Valid()
      reads this
    {
      activeStreams <= jobs.Keys
    }

    constructor ()
      ensures Valid() && State() == HomeState(true, true, {}, map[], [])
    {
      connected, listening, activeStreams, jobs, outbox := true, true, {}, map[], [];
    }

    method SendFrame(frame: ToProxy) returns (sent: bool)
      modifies this`outbox
      ensures State() == Send(old(State()), frame)
      ensures sent == connected
    {
      if !connected {
        return false;
      }
      outbox := outbox + [frame];
      return true;
    }

    method HandleMessage(frame: ToHome)
      requires Valid()
      modifies this
      ensures Valid() && State() == Receive(old(State()), frame)
    {
      match frame {
        case HttpRequest(id, request) =>
          if IsStreamed(request) {
            activeStreams := activeStreams + {id};
            jobs := jobs[id := Job(Fetching, false, [], 0)];
          } else {
            jobs := jobs[id := Job(Injecting, false, [], 0)];
          }
        case StreamCancel(id) =>
          if id in activeStreams {
            jobs := jobs[id := jobs[id].(aborted := true)];
            activeStreams := activeStreams - {id};
          }
      }
    }

    method EndJob(id: Id)
      requires Valid() && id in jobs
      modifies this`jobs, this`activeStreams
      ensures Valid() && State() == Finish(old(State()), id)
    {
      activeStreams := activeStreams - {id};
      jobs := jobs[id := jobs[id].(pc := Done)];
    }

    method OnInjected(id: Id, head: Head, body: string, base64: bool)
      requires Valid() && id in jobs && jobs[id].pc.Injecting?
      modifies this
      ensures Valid() && State() == Injected(old(State()), id, head, body, base64)
    {
      var _ := SendFrame(HttpResponse(id, head, body, base64));
      jobs := jobs[id := jobs[id].(pc := Done)];
    }

    method OnFetched(id: Id, head: Head, body: Option<Bytes>)
      requires Valid() && id in jobs && jobs[id].pc.Fetching?
      modifies this
      ensures Valid() && State() == Fetched(old(State()), id, head, body)
    {
      var _ := SendFrame(StreamStart(id, head));
      if body.None? {
        var _ := SendFrame(StreamEnd(id, None));
        EndJob(id);
        return;
      }
      jobs := jobs[id := jobs[id].(pc := Draining, body := body.value, read := 0)];
    }

    method OnDrained(id: Id)
      requires Valid() && id in jobs && jobs[id].pc.Draining?
      modifies this`jobs
      ensures Valid() && State() == Drained(old(State()), id)
    {
      if id !in activeStreams {
        jobs := jobs[id := jobs[id].(pc := Cancelling)];
        return;
      }
      jobs := jobs[id := jobs[id].(pc := Reading)];
    }

    method OnSlice(id: Id, n: nat)
      requires Valid() && id in jobs && jobs[id].pc.Reading? && jobs[id].read + n <= |jobs[id].body|
      modifies this
      ensures Valid() && State() == ReadSlice(old(State()), id, n)
    {
      var job := jobs[id];
      if n != 0 {
        var _ := SendFrame(StreamChunk(id, Encode(job.body[job.read..job.read + n])));
      }
      jobs := jobs[id := job.(pc := Draining, read := job.read + n)];
    }

    method OnReadEnd(id: Id)
      requires Valid() && id in jobs && jobs[id].pc.Reading?
      modifies this
      ensures Valid() && State() == ReadEnd(old(State()), id)
    {
      var _ := SendFrame(StreamEnd(id, None));
      EndJob(id);
    }

    method OnFailure(id: Id, failure: Failure)
      requires Valid() && id in jobs && (jobs[id].pc.Fetching? || jobs[id].pc.Reading?)
      modifies this
      ensures Valid() && State() == Fail(old(State()), id, failure)
    {
      var aborted := failure.AbortError?;
      var _ := SendFrame(StreamEnd(id, Some(if aborted then "cancelled" else failure.message)));
      EndJob(id);
    }

    method OnSocketClosing()
      requires Valid()
      modifies this`connected
      ensures Valid() && State() == OnClosing(old(State()))
    {
      connected := false;
    }

    method OnSocketClose()
      requires Valid()
      modifies this
      ensures Valid() && State() == OnClose(old(State()))
    {
      ghost var was := jobs;
      connected, listening := false, false;
      var rest := activeStreams;
      while rest != {}
        invariant rest <= activeStreams <= jobs.Keys == was.Keys
        invariant !connected && !listening && activeStreams == old(activeStreams) && outbox == old(outbox)
        invariant forall id | id in jobs ::
          jobs[id] == if id in activeStreams && id !in rest then was[id].(aborted := true) else was[id]
        decreases rest
      {
        var id :| id in rest;
        jobs := jobs[id := jobs[id].(aborted := true)];
        rest := rest - {id};
      }
      activeStreams := {};
    }
  }
}
