/** What becomes of a request on a connection that nothing disturbs, from the caller to the home and back. */
module TunnelRoundTrips {
  import opened Option
  import opened Base64
  import opened TunnelMessages
  import opened TunnelView
  import opened TunnelProtocol
  import opened TunnelTheorems
  import P = TunnelProxy
  import H = TunnelHome

  /** Both ends are connected and every frame has arrived. */
  ghost predicate Quiet(s: System) {
    && s.proxy.tunnelOpen && s.proxy.authenticated && s.home.open && s.home.listening
    && s.homeSeen == |s.proxy.outbox| && s.proxySeen == |s.home.outbox|
  }

  lemma RunFour(s: System, a: Event, b: Event, c: Event, d: Event)
    ensures Run(s, [a, b, c, d]) == Step(Step(Step(Step(s, a), b), c), d)
  {
    hide Step;
    RunThree(s, a, b, c);
    assert [a, b, c, d][..3] == [a, b, c];
  }

  lemma {:induction false} RunStays(events: seq<Event>, more: seq<Event>)
    ensures Run(INIT, events + more) == Run(Run(INIT, events), more) && Reachable(Run(Run(INIT, events), more))
  {
    RunAppend(INIT, events, more);
    RunReaches(events + more);
  }

  /** The request arrives, and becomes a job of its kind. */
  lemma Asked(s: System, id: Id, request: TunnelMessages.Request)
    requires Quiet(s) && id !in s.proxy.promises
    ensures var t := Step(Step(s, Event.Request(id, request)), DeliverToHome);
            && Quiet(t) && OutcomesOf(t, id) == []
            && id in t.proxy.pending && t.proxy.pending[id].PendingBuffered?
            && t.proxy.pipes == s.proxy.pipes && t.routes == s.routes
            && id in t.home.jobs
            && t.home.jobs[id] == H.Job(if H.IsStreamed(request) then H.Fetching else H.Injecting, false, [], 0)
            && (H.IsStreamed(request) ==> id in t.home.activeStreams)
  {
    hide H.IsStreamed;
    var u := Step(s, Event.Request(id, request));
    assert u.proxy.outbox[s.homeSeen] == HttpRequest(id, request);
  }

  lemma Answered(s: System, id: Id, head: Head, body: string, base64: bool)
    requires Quiet(s) && OutcomesOf(s, id) == [] && id in s.proxy.pending && Awaits(s, id, H.Injecting)
    ensures var t := Step(Step(s, Injected(id, head, body, base64)), DeliverToProxy);
            && Quiet(t) && id !in t.proxy.pending
            && OutcomesOf(t, id) == [P.ResolvedBuffered(head, body, base64)]
  {
    var u := Step(s, Injected(id, head, body, base64));
    assert u.home.outbox[s.proxySeen] == HttpResponse(id, head, body, base64);
  }

  /** A request that is not streamed is answered by what the local server gave. */
  lemma BufferedRoundTrip(events: seq<Event>, id: Id, request: TunnelMessages.Request, head: Head, body: string,
                          base64: bool)
    requires Quiet(Run(INIT, events)) && id !in Run(INIT, events).proxy.promises && !H.IsStreamed(request)
    ensures var t := Run(INIT, events + [Event.Request(id, request), DeliverToHome, Injected(id, head, body, base64),
                                         DeliverToProxy]);
            && Quiet(t) && id !in t.proxy.pending
            && OutcomesOf(t, id) == [P.ResolvedBuffered(head, body, base64)]
  {
    hide Run, Step, H.IsStreamed, Quiet, OutcomesOf;
    var s := Run(INIT, events);
    var more := [Event.Request(id, request), DeliverToHome, Injected(id, head, body, base64), DeliverToProxy];
    RunStays(events, more);
    RunFour(s, more[0], more[1], more[2], more[3]);
    Asked(s, id, request);
    Answered(Step(Step(s, more[0]), more[1]), id, head, body, base64);
  }

  // ---------------------------------------------------------------------------
  // Streams
  // ---------------------------------------------------------------------------

  /** The caller has the head and the first `k` bytes, and the home waits to read on. */
  ghost predicate IsStreaming(s: System, id: Id, head: Head, bytes: Bytes, k: nat) {
    && Quiet(s) && k <= |bytes|
    && OutcomesOf(s, id) == [P.ResolvedStreaming(head)]
    && id in s.proxy.pending && s.proxy.pending[id].PendingStreaming?
    && id in s.home.jobs && s.home.jobs[id] == H.Job(H.Draining, false, bytes, k) && id in s.home.activeStreams
    && id in s.proxy.pipes && s.proxy.pipes[id] == P.Pipe(bytes[..k], k, P.Open)
    && RouteOf(s, id).reply.None?
  }

  lemma Begins(s: System, id: Id, head: Head, bytes: Bytes)
    requires Quiet(s) && OutcomesOf(s, id) == [] && Awaits(s, id, H.Fetching)
    requires id in s.proxy.pending && id in s.home.activeStreams && RouteOf(s, id).reply.None?
    requires s.home.jobs[id] == H.Job(H.Fetching, false, [], 0)
    ensures IsStreaming(Step(Step(s, Fetched(id, head, Some(bytes))), DeliverToProxy), id, head, bytes, 0)
  {
    var u := Step(s, Fetched(id, head, Some(bytes)));
    assert u.home.outbox[s.proxySeen] == StreamStart(id, head);
    assert bytes[..0] == [];
  }

  function SliceEvents(id: Id, n: nat): seq<Event> {
    [Drained(id), Slice(id, n), DeliverToProxy, RouteData(id, n)]
  }

  /** The home has read a slice; its frame is on the way. */
  lemma SliceSent(s: System, id: Id, head: Head, bytes: Bytes, k: nat, n: nat)
    requires IsStreaming(s, id, head, bytes, k) && k + n <= |bytes|
    ensures var t := Step(Step(s, Drained(id)), Slice(id, n));
            && t.proxy == s.proxy && t.routes == s.routes && t.homeSeen == s.homeSeen && t.proxySeen == s.proxySeen
            && t.home.outbox == s.home.outbox + (if n == 0 then [] else [StreamChunk(id, Encode(bytes[k..k + n]))])
            && t.home.open && t.home.listening && id in t.home.activeStreams
            && id in t.home.jobs && t.home.jobs[id] == H.Job(H.Draining, false, bytes, k + n)
  {
    hide Encode;
  }

  lemma SliceGoes(s: System, id: Id, head: Head, bytes: Bytes, k: nat, n: nat)
    requires IsStreaming(s, id, head, bytes, k) && k + n <= |bytes|
    ensures IsStreaming(Run(s, SliceEvents(id, n)), id, head, bytes, k + n)
  {
    hide Encode, Decode, Run;
    RunFour(s, Drained(id), Slice(id, n), DeliverToProxy, RouteData(id, n));
    SliceSent(s, id, head, bytes, k, n);
    var t := Step(Step(s, Drained(id)), Slice(id, n));
    hide H.ReadSlice, H.Drained;
    SliceArrives(t, s, id, bytes, k, n);
    assert OutcomesOf(Step(Step(t, DeliverToProxy), RouteData(id, n)), id) == OutcomesOf(s, id);
  }

  lemma SliceArrives(t: System, s: System, id: Id, bytes: Bytes, k: nat, n: nat)
    requires k + n <= |bytes| && t.proxy == s.proxy && t.routes == s.routes && t.proxySeen == s.proxySeen == |s.home.outbox|
    requires t.home.outbox == s.home.outbox + (if n == 0 then [] else [StreamChunk(id, Encode(bytes[k..k + n]))])
    requires s.proxy.authenticated && id in s.proxy.pending && s.proxy.pending[id].PendingStreaming?
    requires id in s.proxy.pipes && s.proxy.pipes[id] == P.Pipe(bytes[..k], k, P.Open)
    requires RouteOf(s, id).reply.None?
    ensures var u := Step(Step(t, DeliverToProxy), RouteData(id, n));
            && u.home == t.home && u.homeSeen == t.homeSeen && u.proxySeen == |t.home.outbox|
            && u.proxy == s.proxy.(pipes := u.proxy.pipes)
            && id in u.proxy.pipes && u.proxy.pipes[id] == P.Pipe(bytes[..k + n], k + n, P.Open)
            && RouteOf(u, id).reply.None?
  {
    hide Encode, Decode;
    var slice := bytes[k..k + n];
    RoundTrip(slice);
    assert bytes[..k + n] == bytes[..k] + slice;
    var v := Step(t, DeliverToProxy);
    if n > 0 {
      assert t.home.outbox[t.proxySeen] == StreamChunk(id, Encode(slice));
    }
    assert v.proxy.pipes[id] == P.Pipe(bytes[..k + n], k, P.Open);
  }

  function Sum(sizes: seq<nat>): nat {
    if sizes == [] then 0 else Sum(sizes[..|sizes| - 1]) + sizes[|sizes| - 1]
  }

  function AllSlices(id: Id, sizes: seq<nat>): seq<Event> {
    if sizes == [] then [] else AllSlices(id, sizes[..|sizes| - 1]) + SliceEvents(id, sizes[|sizes| - 1])
  }

  lemma {:induction false} SlicesGo(s: System, id: Id, head: Head, bytes: Bytes, sizes: seq<nat>)
    requires IsStreaming(s, id, head, bytes, 0) && Sum(sizes) <= |bytes|
    ensures IsStreaming(Run(s, AllSlices(id, sizes)), id, head, bytes, Sum(sizes))
  {
    if sizes != [] {
      hide IsStreaming, Run, SliceEvents;
      var init, last := sizes[..|sizes| - 1], sizes[|sizes| - 1];
      SlicesGo(s, id, head, bytes, init);
      RunAppend(s, AllSlices(id, init), SliceEvents(id, last));
      SliceGoes(Run(s, AllSlices(id, init)), id, head, bytes, Sum(init), last);
    }
  }

  lemma Ends(s: System, id: Id, head: Head, bytes: Bytes)
    requires IsStreaming(s, id, head, bytes, |bytes|)
    ensures var t := Step(Step(Step(Step(s, Drained(id)), SourceEnd(id)), DeliverToProxy), RouteEnd(id));
            && Quiet(t) && id !in t.proxy.pending && OutcomesOf(t, id) == [P.ResolvedStreaming(head)]
            && RouteOf(t, id).reply.Some? && id in t.home.jobs
            && t.home.jobs[id].body == bytes && t.home.jobs[id].read == |bytes|
  {
    var u := Step(Step(s, Drained(id)), SourceEnd(id));
    assert u.home.outbox[s.proxySeen] == StreamEnd(id, None);
    var v := Step(u, DeliverToProxy);
    assert v.proxy.pipes[id] == P.Pipe(bytes[..|bytes|], |bytes|, P.Ended);
  }

  lemma NoRouteYet(s: System, id: Id)
    requires Reachable(s) && id !in s.proxy.promises
    ensures RouteOf(s, id) == NO_REPLY
  {
    ReachableInv(s, id);
  }

  /** The caller's whole exchange for a stream read in slices of these sizes. */
  function StreamEvents(id: Id, request: TunnelMessages.Request, head: Head, bytes: Bytes, sizes: seq<nat>): seq<Event> {
    [Event.Request(id, request), DeliverToHome, Fetched(id, head, Some(bytes)), DeliverToProxy]
    + AllSlices(id, sizes)
    + [Drained(id), SourceEnd(id), DeliverToProxy, RouteEnd(id)]
  }

  lemma StreamBegins(s: System, id: Id, request: TunnelMessages.Request, head: Head, bytes: Bytes)
    requires Reachable(s) && Quiet(s) && id !in s.proxy.promises && H.IsStreamed(request)
    ensures IsStreaming(Run(s, [Event.Request(id, request), DeliverToHome, Fetched(id, head, Some(bytes)), DeliverToProxy]),
                        id, head, bytes, 0)
  {
    hide Run, Step, H.IsStreamed, Quiet, IsStreaming, OutcomesOf;
    RunFour(s, Event.Request(id, request), DeliverToHome, Fetched(id, head, Some(bytes)), DeliverToProxy);
    NoRouteYet(s, id);
    Asked(s, id, request);
    Begins(Step(Step(s, Event.Request(id, request)), DeliverToHome), id, head, bytes);
  }

  /** A streamed request is answered by the whole of upstream's body, in whatever slices the home has read it. */
  lemma StreamRoundTrip(events: seq<Event>, id: Id, request: TunnelMessages.Request, head: Head, bytes: Bytes,
                        sizes: seq<nat>)
    requires Quiet(Run(INIT, events)) && id !in Run(INIT, events).proxy.promises && H.IsStreamed(request)
    requires Sum(sizes) == |bytes|
    ensures var t := Run(INIT, events + StreamEvents(id, request, head, bytes, sizes));
            && Quiet(t) && id !in t.proxy.pending && OutcomesOf(t, id) == [P.ResolvedStreaming(head)]
            && RouteOf(t, id).reply == Some(bytes)
  {
    hide Run, Step, H.IsStreamed, Quiet, IsStreaming, OutcomesOf, AllSlices, Sum, Reachable;
    var s := Run(INIT, events);
    var first := [Event.Request(id, request), DeliverToHome, Fetched(id, head, Some(bytes)), DeliverToProxy];
    var slices, last := AllSlices(id, sizes), [Drained(id), SourceEnd(id), DeliverToProxy, RouteEnd(id)];
    RunReaches(events);
    StreamBegins(s, id, request, head, bytes);
    SlicesGo(Run(s, first), id, head, bytes, sizes);
    RunStays(events, first + slices + last);
    RunAppend(s, first, slices);
    RunAppend(s, first + slices, last);
    var u, t := Run(s, first + slices), Run(s, first + slices + last);
    RunFour(u, Drained(id), SourceEnd(id), DeliverToProxy, RouteEnd(id));
    Ends(u, id, head, bytes);
    ReplyIsWhatWasRead(t, id);
    assert bytes[..|bytes|] == bytes;
  }

  // ---------------------------------------------------------------------------
  // Cancelling, and losing the socket
  // ---------------------------------------------------------------------------

  /** A cancel destroys the caller's stream and, once it has arrived, aborts the home's job. */
  lemma CancelAborts(s: System, id: Id, head: Head, bytes: Bytes, k: nat)
    requires IsStreaming(s, id, head, bytes, k)
    ensures var t := Step(Step(s, Cancel(id)), DeliverToHome);
            && Quiet(t) && id !in t.proxy.pending && id in t.proxy.pipes && t.proxy.pipes[id].flow.Destroyed?
            && id !in t.home.activeStreams && id in t.home.jobs && t.home.jobs[id].aborted
  {
    var u := Step(s, Cancel(id));
    assert u.proxy.outbox[s.homeSeen] == StreamCancel(id);
  }

  /** When the home's socket closes, all its active streams are aborted, and no other job is. */
  lemma CloseAborts(s: System, id: Id)
    requires id in s.home.jobs
    ensures var t := Step(s, HomeClose);
            && id in t.home.jobs && t.home.activeStreams == {} && !t.home.open && !t.home.listening
            && (t.home.jobs[id].aborted <==> s.home.jobs[id].aborted || id in s.home.activeStreams)
  {
  }
}
