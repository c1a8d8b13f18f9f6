/**
 Both ends of one tunnel connection joined by two FIFO channels, as a transition
 system, and what holds in every state that any sequence of events can reach.
 */
module TunnelProtocol {
  import opened Option
  import opened Base64
  import opened TunnelMessages
  import P = TunnelProxy
  import H = TunnelHome
  import opened TunnelView

  /** A channel is its sender's outbox together with how much of it has been delivered. */
  datatype System = System(
    proxy: P.ProxyState,
    routes: map<Id, P.Route>,
    home: H.HomeState,
    homeSeen: nat,      // frames of proxy.outbox delivered to the home
    proxySeen: nat)     // frames of home.outbox delivered to the proxy

  datatype Event =
    | Request(id: Id, request: TunnelMessages.Request)
    | Cancel(id: Id)
    | Expire(id: Id)
    | DeliverToHome
    | DeliverToProxy
    | Injected(id: Id, head: Head, body: string, base64: bool)
    | Fetched(id: Id, head: Head, source: Option<Bytes>)
    | Drained(id: Id)
    | Slice(id: Id, n: nat)
    | SourceEnd(id: Id)
    | Failure(id: Id, failure: H.Failure)
    | ReaderCancelled(id: Id)
    | RouteData(id: Id, n: nat)
    | RouteEnd(id: Id)
    | ProxyClosing
    | ProxyClose
    | HomeClosing
    | HomeClose

  const INIT: System := System(
    P.ProxyState(true, true, map[], {}, map[], map[], []), map[],
    H.HomeState(true, true, {}, map[], []), 0, 0)


  function RouteOf(s: System, id: Id): P.Route {
    if id in s.routes then s.routes[id] else NO_REPLY
  }

  predicate Awaits(s: System, id: Id, pc: H.Pc) {
    id in s.home.jobs && s.home.jobs[id].pc == pc
  }

  /** When an event can happen. Identifiers are fresh; a failure is an abort only if the job was aborted. */
  predicate Enabled(s: System, e: Event) {
    match e
    case Request(id, _) => id !in s.proxy.promises
    case Cancel(_) => true
    case Expire(id) => id in s.proxy.timers
    case DeliverToHome => s.home.listening && s.homeSeen < |s.proxy.outbox|
    case DeliverToProxy => s.proxy.authenticated && s.proxySeen < |s.home.outbox|
    case Injected(id, _, _, _) => Awaits(s, id, H.Injecting)
    case Fetched(id, _, _) => Awaits(s, id, H.Fetching)
    case Drained(id) => Awaits(s, id, H.Draining)
    case Slice(id, n) => Awaits(s, id, H.Reading) && s.home.jobs[id].read + n <= |s.home.jobs[id].body|
    case SourceEnd(id) => Awaits(s, id, H.Reading) && s.home.jobs[id].read == |s.home.jobs[id].body|
    case Failure(id, failure) =>
      && (Awaits(s, id, H.Fetching) || Awaits(s, id, H.Reading))
      && (failure.AbortError? ==> s.home.jobs[id].aborted)
    case ReaderCancelled(id) => Awaits(s, id, H.Cancelling)
    case RouteData(id, n) =>
      && id in s.proxy.pipes && !s.proxy.pipes[id].flow.Destroyed?
      && s.proxy.pipes[id].taken + n <= |s.proxy.pipes[id].written|
    case RouteEnd(id) =>
      && id in s.proxy.pipes && s.proxy.pipes[id].flow.Ended?
      && s.proxy.pipes[id].taken == |s.proxy.pipes[id].written| && RouteOf(s, id).reply.None?
    case ProxyClosing | ProxyClose | HomeClosing | HomeClose => true
  }

  function Step(s: System, e: Event): System {
    if !Enabled(s, e) then s
    else match e
      case Request(id, request) => s.(proxy := P.SendHttpRequest(s.proxy, id, request))
      case Cancel(id) => s.(proxy := P.CancelStream(s.proxy, id))
      case Expire(id) => s.(proxy := P.Expire(s.proxy, id))
      case DeliverToHome =>
        s.(home := H.Receive(s.home, s.proxy.outbox[s.homeSeen]), homeSeen := s.homeSeen + 1)
      case DeliverToProxy =>
        s.(proxy := P.Receive(s.proxy, s.home.outbox[s.proxySeen]), proxySeen := s.proxySeen + 1)
      case Injected(id, head, body, base64) => s.(home := H.Injected(s.home, id, head, body, base64))
      case Fetched(id, head, source) => s.(home := H.Fetched(s.home, id, head, source))
      case Drained(id) => s.(home := H.Drained(s.home, id))
      case Slice(id, n) => s.(home := H.ReadSlice(s.home, id, n))
      case SourceEnd(id) => s.(home := H.ReadEnd(s.home, id))
      case Failure(id, failure) => s.(home := H.Fail(s.home, id, failure))
      case ReaderCancelled(id) => s.(home := H.Finish(s.home, id))
      case RouteData(id, n) =>
        var (chunk, pipe) := P.Take(s.proxy.pipes[id], n);
        s.(proxy := s.proxy.(pipes := s.proxy.pipes[id := pipe]),
           routes := s.routes[id := P.OnData(RouteOf(s, id), chunk)])
      case RouteEnd(id) => s.(routes := s.routes[id := P.OnEnd(RouteOf(s, id))])
      case ProxyClosing => s.(proxy := s.proxy.(tunnelOpen := false))
      case ProxyClose => s.(proxy := P.OnClose(s.proxy))
      case HomeClosing => s.(home := H.OnClosing(s.home))
      case HomeClose => s.(home := H.OnClose(s.home))
  }

  function Run(s: System, events: seq<Event>): System {
    if events == [] then s
    else Step(Run(s, events[..|events| - 1]), events[|events| - 1])
  }

  /** Upstream errors only carry messages from `errors`. */
  ghost predicate Admits(errors: iset<string>, e: Event) {
    e.Failure? && e.failure.Failed? ==> e.failure.message in errors
  }

  ghost predicate AllAdmitted(errors: iset<string>, events: seq<Event>) {
    forall k :: 0 <= k < |events| ==> Admits(errors, events[k])
  }

  // ---------------------------------------------------------------------------
  // The part of a state that concerns one request
  // ---------------------------------------------------------------------------

  function Get<V>(m: map<Id, V>, id: Id): Option<V> {
    if id in m then Some(m[id]) else None
  }

  predicate InBounds(s: System) {
    s.homeSeen <= |s.proxy.outbox| && s.proxySeen <= |s.home.outbox|
  }

  function ViewOf(s: System, id: Id): View
    requires InBounds(s)
  {
    View(s.home.open, id in s.home.activeStreams, Get(s.home.jobs, id),
         Answers(s.home.outbox, id), |Answers(s.home.outbox[..s.proxySeen], id)|,
         Demands(s.proxy.outbox, id), |Demands(s.proxy.outbox[..s.homeSeen], id)|,
         Get(s.proxy.pending, id), Get(s.proxy.promises, id), id in s.proxy.timers,
         Get(s.proxy.pipes, id), RouteOf(s, id))
  }

  ghost predicate Inv(s: System, errors: iset<string>) {
    InBounds(s) && forall id :: Ok(ViewOf(s, id), errors)
  }

  /** What the proxy appends to its outbox reaches exactly one request's view. */
  lemma ProxySent(s: System, s': System, frame: ToHome, id: Id)
    requires InBounds(s) && s'.homeSeen == s.homeSeen
    requires s'.proxy.outbox == s.proxy.outbox + [frame]
    ensures Demands(s'.proxy.outbox[..s'.homeSeen], id) == Demands(s.proxy.outbox[..s.homeSeen], id)
    ensures Demands(s'.proxy.outbox, id) == Demands(s.proxy.outbox, id) + if frame.id == id then [frame] else []
  {
    assert s'.proxy.outbox[..s'.homeSeen] == s.proxy.outbox[..s.homeSeen];
    DemandsAppend(s.proxy.outbox, frame, id);
  }

  lemma HomeSent(before: seq<ToProxy>, frames: seq<ToProxy>, taken: nat, owner: Id, id: Id)
    requires taken <= |before| && |frames| <= 2 && forall f <- frames :: f.id == owner
    ensures (before + frames)[..taken] == before[..taken]
    ensures Answers(before + frames, id) == Answers(before, id) + if owner == id then frames else []
  {
    if |frames| == 0 {
      assert before + frames == before;
    } else if |frames| == 1 {
      assert frames == [frames[0]];
      AnswersAppend(before, frames[0], id);
    } else {
      assert before + frames == (before + [frames[0]]) + [frames[1]];
      AnswersAppend(before, frames[0], id);
      AnswersAppend(before + [frames[0]], frames[1], id);
    }
  }

  lemma OnRequest(s: System, e: Event, id: Id)
    requires InBounds(s) && e.Request? && Enabled(s, e)
    ensures InBounds(Step(s, e))
    ensures ViewOf(Step(s, e), id) == if id != e.id then ViewOf(s, id)
      else Requested(ViewOf(s, id), s.proxy.authenticated && s.proxy.tunnelOpen, HttpRequest(id, e.request))
  {
    if s.proxy.authenticated && s.proxy.tunnelOpen {
      ProxySent(s, Step(s, e), HttpRequest(e.id, e.request), id);
    }
  }

  lemma OnCancelElsewhere(s: System, e: Event, id: Id)
    requires InBounds(s) && e.Cancel? && id != e.id
    ensures InBounds(Step(s, e)) && ViewOf(Step(s, e), id) == ViewOf(s, id)
  {
    if s.proxy.tunnelOpen && e.id in s.proxy.pending {
      ProxySent(s, Step(s, e), StreamCancel(e.id), id);
    }
  }

  lemma OnCancel(s: System, e: Event)
    requires InBounds(s) && e.Cancel?
    ensures InBounds(Step(s, e))
    ensures ViewOf(Step(s, e), e.id) == Cancelled(ViewOf(s, e.id), s.proxy.tunnelOpen, StreamCancel(e.id))
  {
    if s.proxy.tunnelOpen && e.id in s.proxy.pending {
      ProxySent(s, Step(s, e), StreamCancel(e.id), e.id);
    }
  }

  /** `v` shows what the proxy `p` holds about the request `id`. */
  predicate Shows(v: View, p: P.ProxyState, id: Id) {
    && v.pending == Get(p.pending, id) && v.promise == Get(p.promises, id)
    && v.armed == (id in p.timers) && v.pipe == Get(p.pipes, id)
  }

  lemma ExpiredOne(v: View, p: P.ProxyState, i: Id, id: Id)
    requires Shows(v, p, id) && i in p.timers
    ensures Shows(if id != i then v else Expired(v), P.Expire(p, i), id)
  {
  }

  lemma OnExpire(s: System, i: Id, id: Id)
    requires InBounds(s) && Enabled(s, Expire(i))
    ensures InBounds(Step(s, Expire(i)))
    ensures ViewOf(Step(s, Expire(i)), id) == if id != i then ViewOf(s, id) else Expired(ViewOf(s, id))
  {
    ExpiredOne(ViewOf(s, id), s.proxy, i, id);
  }

  lemma ClosedOne(v: View, p: P.ProxyState, id: Id)
    requires Shows(v, p, id) && (id in p.pending ==> id in p.promises)
    ensures Shows(ProxyClosed(v), P.OnClose(p), id)
  {
  }

  lemma OnProxyClose(s: System, id: Id)
    requires InBounds(s) && s.proxy.pending.Keys <= s.proxy.promises.Keys
    ensures InBounds(Step(s, ProxyClose))
    ensures ViewOf(Step(s, ProxyClose), id) == ProxyClosed(ViewOf(s, id))
  {
    ClosedOne(ViewOf(s, id), s.proxy, id);
  }

  lemma OnRouteData(s: System, e: Event, id: Id)
    requires InBounds(s) && e.RouteData? && Enabled(s, e)
    ensures InBounds(Step(s, e))
    ensures ViewOf(Step(s, e), id) == if id != e.id then ViewOf(s, id) else Read(ViewOf(s, id), e.n)
  {
  }

  lemma OnRouteEnd(s: System, e: Event, id: Id)
    requires InBounds(s) && e.RouteEnd? && Enabled(s, e)
    ensures InBounds(Step(s, e))
    ensures ViewOf(Step(s, e), id) == if id != e.id then ViewOf(s, id)
      else ViewOf(s, id).(route := P.OnEnd(ViewOf(s, id).route))
  {
  }

  /** Delivering one more frame takes the next one from the addressed request's own sequence. */
  lemma NextAnswer(frames: seq<ToProxy>, k: nat, id: Id)
    requires k < |frames|
    ensures var before, all := Answers(frames[..k], id), Answers(frames, id);
            if frames[k].id != id then Answers(frames[..k + 1], id) == before
            else |Answers(frames[..k + 1], id)| == |before| + 1 && |before| < |all| && all[|before|] == frames[k]
  {
    AnswersTaken(frames, k, id);
    AnswersPrefix(frames, k + 1, id);
  }

  lemma NextDemand(frames: seq<ToHome>, k: nat, id: Id)
    requires k < |frames|
    ensures var before, all := Demands(frames[..k], id), Demands(frames, id);
            if frames[k].id != id then Demands(frames[..k + 1], id) == before
            else |Demands(frames[..k + 1], id)| == |before| + 1 && |before| < |all| && all[|before|] == frames[k]
  {
    DemandsTaken(frames, k, id);
    DemandsPrefix(frames, k + 1, id);
  }

  lemma OnDeliverElsewhere(s: System, id: Id)
    requires InBounds(s) && Enabled(s, DeliverToProxy) && id != s.home.outbox[s.proxySeen].id
    ensures InBounds(Step(s, DeliverToProxy))
    ensures ViewOf(Step(s, DeliverToProxy), id) == ViewOf(s, id)
  {
    NextAnswer(s.home.outbox, s.proxySeen, id);
  }

  lemma ReceivedOne(v: View, p: P.ProxyState, frame: ToProxy)
    requires Shows(v, p, frame.id) && v.seen < |v.sent| && v.sent[v.seen] == frame
    requires frame.id in p.pending ==> frame.id in p.promises
    ensures Shows(Seen(v), P.Receive(p, frame), frame.id)
    ensures P.Receive(p, frame).outbox == p.outbox
    ensures var w := Seen(v);
            w == v.(seen := v.seen + 1, pending := w.pending, promise := w.promise, armed := w.armed, pipe := w.pipe)
  {
    hide Decode;
    match frame {
      case HttpResponse(_, _, _, _) =>
      case StreamStart(_, _) =>
      case StreamChunk(_, _) =>
      case StreamEnd(_, _) =>
    }
  }

  lemma OnDeliverToProxy(s: System, id: Id)
    requires InBounds(s) && Enabled(s, DeliverToProxy) && id == s.home.outbox[s.proxySeen].id
    requires id in s.proxy.pending ==> id in s.proxy.promises
    ensures InBounds(Step(s, DeliverToProxy)) && ViewOf(s, id).seen < |ViewOf(s, id).sent|
    ensures ViewOf(Step(s, DeliverToProxy), id) == Seen(ViewOf(s, id))
  {
    NextAnswer(s.home.outbox, s.proxySeen, id);
    ReceivedOne(ViewOf(s, id), s.proxy, s.home.outbox[s.proxySeen]);
    hide P.Receive, Seen;
  }

  lemma HeardOne(v: View, h: H.HomeState, frame: ToHome, id: Id)
    requires v.job == Get(h.jobs, id) && v.active == (id in h.activeStreams)
    requires v.heard < |v.asked| && (frame.id == id ==> v.asked[v.heard] == frame)
    ensures var h', v' := H.Receive(h, frame), if frame.id == id then Heard(v) else v;
            && v'.job == Get(h'.jobs, id) && v'.active == (id in h'.activeStreams)
            && h'.open == h.open && h'.outbox == h.outbox
            && v' == v.(heard := v'.heard, job := v'.job, active := v'.active)
            && v'.heard == if frame.id == id then v.heard + 1 else v.heard
  {
  }

  lemma OnDeliverToHome(s: System, id: Id)
    requires InBounds(s) && Enabled(s, DeliverToHome) && id == s.proxy.outbox[s.homeSeen].id
    ensures InBounds(Step(s, DeliverToHome)) && ViewOf(s, id).heard < |ViewOf(s, id).asked|
    ensures ViewOf(Step(s, DeliverToHome), id) == Heard(ViewOf(s, id))
  {
    NextDemand(s.proxy.outbox, s.homeSeen, id);
    HeardOne(ViewOf(s, id), s.home, s.proxy.outbox[s.homeSeen], id);
    hide H.Receive, Heard;
  }

  lemma OnDeliverHomeElsewhere(s: System, id: Id)
    requires InBounds(s) && Enabled(s, DeliverToHome) && id != s.proxy.outbox[s.homeSeen].id
    ensures InBounds(Step(s, DeliverToHome))
    ensures ViewOf(Step(s, DeliverToHome), id) == ViewOf(s, id)
  {
    NextDemand(s.proxy.outbox, s.homeSeen, id);
  }

  lemma OnHomeClose(s: System, id: Id)
    requires InBounds(s)
    ensures InBounds(Step(s, HomeClose))
    ensures ViewOf(Step(s, HomeClose), id) == HomeClosed(ViewOf(s, id))
  {
  }

  predicate IsJobEvent(e: Event) {
    e.Injected? || e.Fetched? || e.Drained? || e.Slice? || e.SourceEnd? || e.Failure? || e.ReaderCancelled?
  }

  /** The frames a job's event sends. */
  function JobFrames(s: System, e: Event): seq<ToProxy>
    requires IsJobEvent(e) && Enabled(s, e)
  {
    match e
    case Injected(id, head, body, base64) => [HttpResponse(id, head, body, base64)]
    case Fetched(id, head, source) =>
      if source.None? then [StreamStart(id, head), StreamEnd(id, None)] else [StreamStart(id, head)]
    case Slice(id, n) =>
      var job := s.home.jobs[id];
      if n == 0 then [] else [StreamChunk(id, Encode(job.body[job.read..job.read + n]))]
    case SourceEnd(id) => [StreamEnd(id, None)]
    case Failure(id, failure) => [StreamEnd(id, Some(H.ErrorText(failure)))]
    case _ => []
  }

  function JobAfter(job: H.Job, active: bool, e: Event): H.Job
    requires IsJobEvent(e)
  {
    match e
    case Fetched(_, _, Some(bytes)) => job.(pc := H.Draining, body := bytes, read := 0)
    case Drained(_) => job.(pc := if active then H.Reading else H.Cancelling)
    case Slice(_, n) => job.(pc := H.Draining, read := job.read + n)
    case _ => job.(pc := H.Done)
  }

  predicate Finishes(e: Event) {
    (e.Fetched? && e.source.None?) || e.SourceEnd? || e.Failure? || e.ReaderCancelled?
  }

  lemma JobOutbox(s: System, e: Event)
    requires IsJobEvent(e) && Enabled(s, e)
    ensures Step(s, e).home.outbox ==
      s.home.outbox + if s.home.open then JobFrames(s, e) else []
  {
    hide Encode;
    var frames := JobFrames(s, e);
    if |frames| == 2 {
      assert s.home.outbox + frames == s.home.outbox + [frames[0]] + [frames[1]];
    }
  }

  lemma JobState(s: System, e: Event)
    requires IsJobEvent(e) && Enabled(s, e)
    ensures var s' := Step(s, e);
            && s'.proxy == s.proxy && s'.routes == s.routes
            && s'.homeSeen == s.homeSeen && s'.proxySeen == s.proxySeen && s'.home.open == s.home.open
            && s'.home.jobs == s.home.jobs[e.id := JobAfter(s.home.jobs[e.id], e.id in s.home.activeStreams, e)]
            && s'.home.activeStreams ==
                 if Finishes(e) then s.home.activeStreams - {e.id} else s.home.activeStreams
  {
    hide Encode;
  }

  lemma JobFramesOwner(s: System, e: Event)
    requires IsJobEvent(e) && Enabled(s, e)
    ensures |JobFrames(s, e)| <= 2 && forall f <- JobFrames(s, e) :: f.id == e.id
  {
  }

  lemma OnJobEventElsewhere(s: System, e: Event, id: Id)
    requires InBounds(s) && IsJobEvent(e) && Enabled(s, e) && id != e.id
    ensures InBounds(Step(s, e)) && ViewOf(Step(s, e), id) == ViewOf(s, id)
  {
    hide Step, JobFrames, JobAfter;
    JobState(s, e);
    JobOutbox(s, e);
    JobFramesOwner(s, e);
    HomeSent(s.home.outbox, if s.home.open then JobFrames(s, e) else [], s.proxySeen, e.id, id);
  }

  function JobView(v: View, frames: seq<ToProxy>, e: Event): View
    requires IsJobEvent(e) && v.job.Some?
  {
    Emit(v, frames).(job := Some(JobAfter(v.job.value, v.active, e)), active := v.active && !Finishes(e))
  }

  lemma JobAnswers(s: System, e: Event)
    requires InBounds(s) && IsJobEvent(e) && Enabled(s, e)
    ensures var after := Step(s, e).home.outbox;
            && |s.home.outbox| <= |after| && after[..s.proxySeen] == s.home.outbox[..s.proxySeen]
            && Answers(after, e.id) == Answers(s.home.outbox, e.id) + if s.home.open then JobFrames(s, e) else []
  {
    hide Step, JobFrames, Answers;
    JobOutbox(s, e);
    JobFramesOwner(s, e);
    HomeSent(s.home.outbox, if s.home.open then JobFrames(s, e) else [], s.proxySeen, e.id, e.id);
  }

  /** A job's event appends its frames and changes its job; nothing else of the request changes. */
  lemma OnJobEvent(s: System, e: Event)
    requires InBounds(s) && IsJobEvent(e) && Enabled(s, e)
    ensures InBounds(Step(s, e))
    ensures ViewOf(Step(s, e), e.id) == JobView(ViewOf(s, e.id), JobFrames(s, e), e)
  {
    hide Step, JobFrames, JobAfter, Finishes, Demands, Answers;
    JobState(s, e);
    JobAnswers(s, e);
    assert Answers(s.home.outbox, e.id) + [] == Answers(s.home.outbox, e.id);
  }

  lemma EmptySliceKeeps(v: View, e: Event, errors: iset<string>)
    requires e.Slice? && e.n == 0 && Ok(v, errors) && v.job.Some? && v.job.value.pc == H.Reading
    ensures Ok(JobView(v, [], e), errors)
  {
    EmptySliceOk(v, errors);
    assert v.sent + [] == v.sent;
    assert JobView(v, [], e) == v.(job := Some(v.job.value.(pc := H.Draining)));
  }

  lemma SliceKeeps(v: View, e: Event, slice: Bytes, errors: iset<string>)
    requires e.Slice? && Ok(v, errors) && v.job.Some? && v.job.value.pc == H.Reading
    requires v.job.value.read + e.n <= |v.job.value.body|
    requires slice == v.job.value.body[v.job.value.read..v.job.value.read + e.n]
    ensures Ok(JobView(v, [StreamChunk(e.id, Encode(slice))], e), errors)
  {
    hide Ok, Encode, Decode;
    var chunk := StreamChunk(e.id, Encode(slice));
    RoundTrip(slice);
    SliceOk(v, e.n, chunk, errors);
    assert JobView(v, [chunk], e) ==
      Emit(v, [chunk]).(job := Some(v.job.value.(pc := H.Draining, read := v.job.value.read + e.n)));
  }

  lemma EndKeeps(v: View, e: Event, error: Option<string>, errors: iset<string>)
    requires e.SourceEnd? || e.Failure?
    requires Ok(v, errors) && v.job.Some? && Admits(errors, e)
    requires v.job.value.pc == H.Reading || (e.Failure? && v.job.value.pc == H.Fetching)
    requires e.SourceEnd? ==> error.None? && v.job.value.read == |v.job.value.body|
    requires e.Failure? ==> error == Some(H.ErrorText(e.failure)) && (e.failure.AbortError? ==> v.job.value.aborted)
    ensures Ok(JobView(v, [StreamEnd(e.id, error)], e), errors)
  {
    hide Ok;
    var end := StreamEnd(e.id, error);
    EndedOk(v, end, errors);
    assert JobView(v, [end], e) == Finished(Emit(v, [end]));
  }

  lemma FetchedKeeps(v: View, e: Event, errors: iset<string>)
    requires e.Fetched? && Ok(v, errors) && v.job.Some? && v.job.value.pc == H.Fetching
    ensures var start, end := StreamStart(e.id, e.head), StreamEnd(e.id, None);
            Ok(JobView(v, if e.source.None? then [start, end] else [start], e), errors)
  {
    hide Ok;
    var start, end := StreamStart(e.id, e.head), StreamEnd(e.id, None);
    FetchedOk(v, start, e.source, end, errors);
    if e.source.None? {
      assert JobView(v, [start, end], e) == Finished(Emit(v, [start, end]));
    } else {
      assert JobView(v, [start], e)
          == Emit(v, [start]).(job := Some(v.job.value.(pc := H.Draining, body := e.source.value, read := 0)));
    }
  }

  lemma QuietKeeps(v: View, e: Event, errors: iset<string>)
    requires Ok(v, errors) && v.job.Some?
    requires (e.Drained? && v.job.value.pc == H.Draining) || (e.ReaderCancelled? && v.job.value.pc == H.Cancelling)
    ensures Ok(JobView(v, [], e), errors)
  {
    hide Ok;
    assert v.sent + [] == v.sent;
    if e.Drained? {
      DrainedOk(v, errors);
      assert JobView(v, [], e) == v.(job := Some(v.job.value.(pc := if v.active then H.Reading else H.Cancelling)));
    } else {
      ReaderCancelledOk(v, errors);
      assert JobView(v, [], e) == Finished(v);
    }
  }

  lemma InjectedKeeps(v: View, e: Event, frame: ToProxy, errors: iset<string>)
    requires Ok(v, errors) && v.job.Some?
    requires e.Injected? && v.job.value.pc == H.Injecting && frame.HttpResponse?
    ensures Ok(JobView(v, [frame], e), errors)
  {
    hide Ok;
    RespondedOk(v, frame, errors);
    assert JobView(v, [frame], e) == Emit(v, [frame]).(job := Some(v.job.value.(pc := H.Done)));
  }

  /** The frames an event sends, said of the view alone. */
  predicate Sends(v: View, e: Event, frames: seq<ToProxy>)
    requires IsJobEvent(e)
  {
    v.job.Some? &&
    var job := v.job.value;
    match e
    case Injected(_, _, _, _) => job.pc == H.Injecting && |frames| == 1 && frames[0].HttpResponse?
    case Fetched(id, head, source) =>
      && job.pc == H.Fetching
      && frames == (if source.None? then [StreamStart(id, head), StreamEnd(id, None)] else [StreamStart(id, head)])
    case Drained(_) => job.pc == H.Draining && frames == []
    case Slice(id, n) =>
      && job.pc == H.Reading && job.read + n <= |job.body|
      && frames == if n == 0 then [] else [StreamChunk(id, Encode(job.body[job.read..job.read + n]))]
    case SourceEnd(id) => job.pc == H.Reading && job.read == |job.body| && frames == [StreamEnd(id, None)]
    case Failure(id, failure) =>
      && (job.pc == H.Fetching || job.pc == H.Reading)
      && (failure.AbortError? ==> job.aborted)
      && frames == [StreamEnd(id, Some(H.ErrorText(failure)))]
    case ReaderCancelled(_) => job.pc == H.Cancelling && frames == []
  }

  lemma JobSends(s: System, e: Event)
    requires InBounds(s) && IsJobEvent(e) && Enabled(s, e)
    ensures Sends(ViewOf(s, e.id), e, JobFrames(s, e))
  {
  }

  lemma JobKeeps(v: View, e: Event, frames: seq<ToProxy>, errors: iset<string>)
    requires IsJobEvent(e) && Admits(errors, e) && Sends(v, e, frames) && Ok(v, errors)
    ensures Ok(JobView(v, frames, e), errors)
  {
    hide Ok, Encode;
    match e {
      case Injected(_, _, _, _) =>
        assert frames == [frames[0]];
        InjectedKeeps(v, e, frames[0], errors);
      case Fetched(_, _, _) => FetchedKeeps(v, e, errors);
      case Slice(_, n) =>
        if n == 0 {
          EmptySliceKeeps(v, e, errors);
        } else {
          SliceKeeps(v, e, v.job.value.body[v.job.value.read..v.job.value.read + n], errors);
        }
      case SourceEnd(_) => EndKeeps(v, e, None, errors);
      case Failure(_, failure) => EndKeeps(v, e, Some(H.ErrorText(failure)), errors);
      case Drained(_) => QuietKeeps(v, e, errors);
      case ReaderCancelled(_) => QuietKeeps(v, e, errors);
    }
  }

  /** One event keeps the picture of one request. */
  lemma StepKeepsView(s: System, e: Event, id: Id, errors: iset<string>)
    requires Inv(s, errors) && Enabled(s, e) && Admits(errors, e)
    ensures InBounds(Step(s, e)) && Ok(ViewOf(Step(s, e), id), errors)
  {
    hide Ok;
    var v := ViewOf(s, id);
    assert Ok(v, errors);
    if IsJobEvent(e) {
      if id == e.id {
        OnJobEvent(s, e);
        JobSends(s, e);
        JobKeeps(v, e, JobFrames(s, e), errors);
      } else {
        OnJobEventElsewhere(s, e, id);
      }
    } else {
      ProxyStepKeepsView(s, e, id, errors);
    }
  }

  lemma PendingHavePromises(s: System, errors: iset<string>)
    requires Inv(s, errors)
    ensures s.proxy.pending.Keys <= s.proxy.promises.Keys
  {
    forall id | id in s.proxy.pending ensures id in s.proxy.promises {
      assert Ok(ViewOf(s, id), errors);
    }
  }

  lemma ProxyStepKeepsView(s: System, e: Event, id: Id, errors: iset<string>)
    requires Inv(s, errors) && Enabled(s, e) && !IsJobEvent(e)
    ensures InBounds(Step(s, e)) && Ok(ViewOf(Step(s, e), id), errors)
  {
    hide Ok;
    var v := ViewOf(s, id);
    assert Ok(v, errors);
    PendingHavePromises(s, errors);
    match e {
      case Request(i, request) =>
        OnRequest(s, e, id);
        if i == id {
          RequestedOk(v, s.proxy.authenticated && s.proxy.tunnelOpen, HttpRequest(i, request), errors);
        }
      case Cancel(i) =>
        if i == id {
          OnCancel(s, e);
          CancelledOk(v, s.proxy.tunnelOpen, StreamCancel(i), errors);
        } else {
          OnCancelElsewhere(s, e, id);
        }
      case Expire(i) =>
        OnExpire(s, i, id);
        if i == id {
          ExpiredOk(v, errors);
        }
      case DeliverToHome =>
        if id == s.proxy.outbox[s.homeSeen].id {
          OnDeliverToHome(s, id);
          HeardOk(v, errors);
        } else {
          OnDeliverHomeElsewhere(s, id);
        }
      case DeliverToProxy =>
        if id == s.home.outbox[s.proxySeen].id {
          OnDeliverToProxy(s, id);
          SeenOk(v, errors);
        } else {
          OnDeliverElsewhere(s, id);
        }
      case RouteData(i, n) =>
        OnRouteData(s, e, id);
        if i == id {
          ReadOk(v, n, errors);
        }
      case RouteEnd(i) =>
        OnRouteEnd(s, e, id);
        if i == id {
          ReplyOk(v, errors);
        }
      case ProxyClosing =>
        assert ViewOf(Step(s, e), id) == v;
      case ProxyClose =>
        OnProxyClose(s, id);
        ProxyClosedOk(v, errors);
      case HomeClosing =>
        HomeClosingOk(v, errors);
      case HomeClose =>
        OnHomeClose(s, id);
        HomeClosedOk(v, errors);
    }
  }

  lemma StepKeeps(s: System, e: Event, errors: iset<string>)
    requires Inv(s, errors) && Admits(errors, e)
    ensures Inv(Step(s, e), errors)
  {
    if Enabled(s, e) {
      forall id ensures InBounds(Step(s, e)) && Ok(ViewOf(Step(s, e), id), errors) {
        StepKeepsView(s, e, id, errors);
      }
      StepKeepsView(s, e, "", errors);
    }
  }

  lemma {:induction false} RunKeeps(events: seq<Event>, errors: iset<string>)
    requires AllAdmitted(errors, events)
    ensures Inv(Run(INIT, events), errors)
  {
    if events != [] {
      RunKeeps(events[..|events| - 1], errors);
      StepKeeps(Run(INIT, events[..|events| - 1]), Last(events), errors);
    }
  }
}
