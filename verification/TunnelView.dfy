/**
 What one request looks like from both ends of the tunnel, the invariant of that
 picture, and how each event changes it.
 */
module TunnelView {
  import opened Option
  import opened Base64
  import opened TunnelMessages
  import P = TunnelProxy
  import H = TunnelHome

  datatype View = View(
    homeOpen: bool,
    active: bool,
    job: Option<H.Job>,
    sent: seq<ToProxy>,        // the home's frames for this request
    seen: nat,                 // how many of them the proxy has been given
    asked: seq<ToHome>,        // the proxy's frames for this request
    heard: nat,                // how many of them the home has been given
    pending: Option<P.Pending>,
    promise: Option<seq<P.Outcome>>,
    armed: bool,
    pipe: Option<P.Pipe>,
    route: P.Route)

  const NO_REPLY: P.Route := P.Route([], 0, None)

  function Last<T>(xs: seq<T>): T
    requires xs != []
  {
    xs[|xs| - 1]
  }

  /** What a job has sent, against how far it has come. */
  ghost predicate JobOk(job: H.Job, sent: seq<ToProxy>, open: bool, cancelled: bool, errors: iset<string>) {
    && job.read <= |job.body|
    && (job.aborted && open ==> cancelled)
    && InGrammar(sent)
    && Payload(sent) <= job.body[..job.read]
    && match job.pc
       case Injecting | Fetching => sent == [] && job.body == []
       case Draining | Reading | Cancelling =>
         if open then Started(sent) && Payload(sent) == job.body[..job.read]
         else sent == [] || Started(sent)
       case Done =>
         sent != [] && Last(sent).StreamEnd? ==>
           && Payload(sent) == job.body[..job.read]
           && (Last(sent).error.None? ==> job.read == |job.body|)
           && (Last(sent).error.Some? ==>
                 Last(sent).error.value in errors || (Last(sent).error.value == P.CANCELLED && cancelled))
  }

  /** The stream handed to the route, against what the home sent. */
  ghost predicate PipeOk(pipe: P.Pipe, sent: seq<ToProxy>, seen: nat, errors: iset<string>)
    requires seen <= |sent|
  {
    && sent != [] && sent[0].StreamStart? && seen >= 1
    && pipe.taken <= |pipe.written|
    && pipe.written <= Payload(sent)
    && match pipe.flow
       case Open => Started(sent[..seen]) && pipe.written == Payload(sent[..seen])
       case Ended =>
         && seen == |sent| && Last(sent).StreamEnd?
         && pipe.written == Payload(sent)
         && P.EndsCleanly(Last(sent).error)
         && (Last(sent).error.Some? ==> Last(sent).error.value in errors)
       case Destroyed => true
  }

  ghost predicate RouteOk(route: P.Route, pipe: Option<P.Pipe>) {
    && route.totalBytes == |P.Flatten(route.chunks)|
    && (pipe.None? ==> route == NO_REPLY)
    && (pipe.Some? ==>
          && pipe.value.taken <= |pipe.value.written|
          && P.Flatten(route.chunks) == pipe.value.written[..pipe.value.taken]
          && (route.reply.Some? ==> pipe.value.flow.Ended? && route.reply.value == pipe.value.written))
  }

  ghost predicate PendingOk(v: View)
    requires v.seen <= |v.sent|
  {
    match v.pending
    case None => v.pipe.Some? ==> !v.pipe.value.flow.Open?
    case Some(PendingBuffered) =>
      v.promise == Some([]) && v.armed && v.seen == 0 && v.pipe.None?
    case Some(PendingStreaming) =>
      && v.seen >= 1 && v.sent[0].StreamStart?
      && v.promise == Some([P.ResolvedStreaming(v.sent[0].head)]) && !v.armed
      && v.pipe.Some? && v.pipe.value.flow.Open?
  }

  ghost predicate Ok(v: View, errors: iset<string>) {
    && v.seen <= |v.sent| && v.heard <= |v.asked| <= 2
    && (v.asked != [] ==> v.asked[0].HttpRequest? && v.promise.Some?)
    && (|v.asked| == 2 ==> v.asked[1].StreamCancel?)
    && (v.pending.Some? ==> v.promise.Some? && |v.asked| == 1)
    && (v.promise.None? ==> !v.armed && v.pipe.None?)
    && (v.promise.Some? ==> |v.promise.value| <= 1)
    && (v.job.Some? <==> v.heard >= 1)
    && (v.active ==> v.job.Some?)
    && (v.job.None? ==> v.sent == [])
    && (v.job.Some? ==> JobOk(v.job.value, v.sent, v.homeOpen, |v.asked| == 2, errors))
    && PendingOk(v)
    && (v.pipe.Some? ==> PipeOk(v.pipe.value, v.sent, v.seen, errors))
    && RouteOk(v.route, v.pipe)
  }

  // ---------------------------------------------------------------------------
  // The proxy's events
  // ---------------------------------------------------------------------------

  function Shut(pipe: Option<P.Pipe>, flow: P.Flow): Option<P.Pipe> {
    if pipe.Some? && pipe.value.flow.Open? then Some(pipe.value.(flow := flow)) else pipe
  }

  function Requested(v: View, connected: bool, frame: ToHome): View {
    if connected
    then v.(pending := Some(P.PendingBuffered), promise := Some([]), armed := true, asked := v.asked + [frame])
    else v.(promise := Some([P.Rejected(P.NOT_CONNECTED)]))
  }

  lemma RequestedOk(v: View, connected: bool, frame: ToHome, errors: iset<string>)
    requires Ok(v, errors) && v.promise.None? && frame.HttpRequest?
    ensures Ok(Requested(v, connected, frame), errors)
  {
  }

  function Cancelled(v: View, tunnelOpen: bool, frame: ToHome): View {
    if v.pending.None? then v
    else v.(pending := None, armed := false,
            pipe := if v.pending == Some(P.PendingStreaming) then Shut(v.pipe, P.Destroyed) else v.pipe,
            asked := if tunnelOpen then v.asked + [frame] else v.asked)
  }

  lemma CancelledOk(v: View, tunnelOpen: bool, frame: ToHome, errors: iset<string>)
    requires Ok(v, errors) && frame.StreamCancel?
    ensures Ok(Cancelled(v, tunnelOpen, frame), errors)
  {
  }

  function Expired(v: View): View {
    if v.pending.None? then v.(armed := false)
    else v.(armed := false, pending := None,
            promise := Some((if v.promise.Some? then v.promise.value else []) + [P.Rejected(P.TIMED_OUT)]))
  }

  lemma ExpiredOk(v: View, errors: iset<string>)
    requires Ok(v, errors) && v.armed
    ensures Ok(Expired(v), errors)
  {
  }

  function ProxyClosed(v: View): View {
    if v.pending.None? then v
    else v.(armed := false, pending := None,
            promise := if v.promise.Some? && v.pending == Some(P.PendingBuffered)
                       then Some(v.promise.value + [P.Rejected(P.DISCONNECTED)]) else v.promise,
            pipe := if v.pending == Some(P.PendingStreaming) then Shut(v.pipe, P.Destroyed) else v.pipe)
  }

  lemma ProxyClosedOk(v: View, errors: iset<string>)
    requires Ok(v, errors)
    ensures Ok(ProxyClosed(v), errors)
  {
  }

  function Read(v: View, n: nat): View
    requires v.pipe.Some? && v.pipe.value.taken + n <= |v.pipe.value.written|
  {
    var pipe := v.pipe.value;
    v.(route := P.OnData(v.route, pipe.written[pipe.taken..pipe.taken + n]),
       pipe := Some(pipe.(taken := pipe.taken + n)))
  }

  lemma TakeMore(b: Bytes, k: nat, n: nat)
    requires k + n <= |b|
    ensures b[..k + n] == b[..k] + b[k..k + n]
  {
  }

  lemma ReadRouteOk(route: P.Route, pipe: P.Pipe, n: nat)
    requires RouteOk(route, Some(pipe)) && pipe.taken + n <= |pipe.written| && !pipe.flow.Destroyed?
    ensures RouteOk(P.OnData(route, pipe.written[pipe.taken..pipe.taken + n]),
                    Some(pipe.(taken := pipe.taken + n)))
  {
    P.FlattenAppend(route.chunks, pipe.written[pipe.taken..pipe.taken + n]);
    TakeMore(pipe.written, pipe.taken, n);
  }

  lemma ReadOk(v: View, n: nat, errors: iset<string>)
    requires Ok(v, errors)
    requires v.pipe.Some? && !v.pipe.value.flow.Destroyed? && v.pipe.value.taken + n <= |v.pipe.value.written|
    ensures Ok(Read(v, n), errors)
  {
    hide JobOk, Started, Payload, P.Flatten;
    ReadRouteOk(v.route, v.pipe.value, n);
  }

  lemma ReplyOk(v: View, errors: iset<string>)
    requires Ok(v, errors)
    requires v.pipe.Some? && v.pipe.value.flow.Ended? && v.pipe.value.taken == |v.pipe.value.written|
    ensures Ok(v.(route := P.OnEnd(v.route)), errors)
  {
  }

  /** The proxy is given the next frame of the request. */
  function Seen(v: View): View
    requires v.seen < |v.sent|
  {
    var w := v.(seen := v.seen + 1);
    if v.pending.None? then w
    else
      var outcomes := if v.promise.Some? then v.promise.value else [];
      match v.sent[v.seen]
      case HttpResponse(_, head, body, base64) =>
        w.(armed := false, pending := None,
           pipe := if v.pending == Some(P.PendingStreaming) then Shut(v.pipe, P.Destroyed) else v.pipe,
           promise := Some(outcomes + [P.ResolvedBuffered(head, body, base64)]))
      case StreamStart(_, head) =>
        w.(armed := false, pending := Some(P.PendingStreaming), pipe := Some(P.Pipe([], 0, P.Open)),
           promise := Some(outcomes + [P.ResolvedStreaming(head)]))
      case StreamChunk(_, data) =>
        if v.pending == Some(P.PendingBuffered) || v.pipe.None? || !v.pipe.value.flow.Open? then w
        else w.(pipe := Some(v.pipe.value.(written := v.pipe.value.written + Decode(data))))
      case StreamEnd(_, error) =>
        w.(pending := None,
           pipe := if v.pending == Some(P.PendingBuffered) then v.pipe
                   else Shut(v.pipe, if P.EndsCleanly(error) then P.Ended else P.Destroyed))
  }

  lemma SeenWithoutEntryOk(v: View, errors: iset<string>)
    requires Ok(v, errors) && v.seen < |v.sent| && v.pending.None?
    ensures Ok(Seen(v), errors)
  {
  }

  lemma SeenWhileBufferedOk(v: View, errors: iset<string>)
    requires Ok(v, errors) && v.seen < |v.sent| && v.pending == Some(P.PendingBuffered)
    ensures Ok(Seen(v), errors)
  {
    GrammarPositions(v.sent, 0);
    assert v.promise == Some([]);
    assert forall o: P.Outcome :: [] + [o] == [o];
    assert Payload(v.sent[..1]) <= Payload(v.sent) by { PayloadPrefix(v.sent, 1); }
    assert v.sent[0].StreamStart? ==> Payload(v.sent[..1]) == [] by {
      assert v.sent[..1] == [] + [v.sent[0]];
      PayloadAppend([], v.sent[0]);
    }
  }

  lemma SentIsGrammatical(v: View, errors: iset<string>)
    requires Ok(v, errors)
    ensures InGrammar(v.sent)
  {
  }

  lemma SeenChunkPipeOk(pipe: P.Pipe, sent: seq<ToProxy>, k: nat, errors: iset<string>)
    requires k < |sent| && InGrammar(sent) && sent[k].StreamChunk?
    requires PipeOk(pipe, sent, k, errors) && pipe.flow.Open?
    ensures PipeOk(pipe.(written := pipe.written + Decode(sent[k].data)), sent, k + 1, errors)
  {
    GrammarPositions(sent, k);
    assert sent[..k + 1] == sent[..k] + [sent[k]];
    PayloadAppend(sent[..k], sent[k]);
    PayloadPrefix(sent, k + 1);
  }

  lemma SeenChunkOk(v: View, errors: iset<string>)
    requires Ok(v, errors) && v.seen < |v.sent| && v.pending == Some(P.PendingStreaming)
    requires v.sent[v.seen].StreamChunk?
    ensures Ok(Seen(v), errors)
  {
    hide JobOk, Payload, Started, P.Flatten;
    var k := v.seen;
    var pipe := v.pipe.value.(written := v.pipe.value.written + Decode(v.sent[k].data));
    assert v.sent[k].StreamChunk? && InGrammar(v.sent) by { SentIsGrammatical(v, errors); }
    SeenChunkPipeOk(v.pipe.value, v.sent, k, errors);
    assert pipe.written[..pipe.taken] == v.pipe.value.written[..pipe.taken];
    assert Seen(v) == v.(seen := k + 1, pipe := Some(pipe));
  }

  lemma SeenEndOk(v: View, errors: iset<string>)
    requires Ok(v, errors) && v.seen < |v.sent| && v.pending == Some(P.PendingStreaming)
    requires v.sent[v.seen].StreamEnd?
    ensures Ok(Seen(v), errors)
  {
    var k := v.seen;
    GrammarPositions(v.sent, k);
    assert Payload(v.sent) == Payload(v.sent[..k]) by {
      assert v.sent == v.sent[..k] + [v.sent[k]];
      PayloadAppend(v.sent[..k], v.sent[k]);
    }
    assert v.job.value.pc.Done?;
  }

  lemma SeenWhileStreamingOk(v: View, errors: iset<string>)
    requires Ok(v, errors) && v.seen < |v.sent| && v.pending == Some(P.PendingStreaming)
    ensures Ok(Seen(v), errors)
  {
    assert v.sent[v.seen].StreamChunk? || v.sent[v.seen].StreamEnd? by {
      GrammarPositions(v.sent, v.seen);
    }
    hide Ok, Seen;
    if v.sent[v.seen].StreamChunk? {
      SeenChunkOk(v, errors);
    } else {
      SeenEndOk(v, errors);
    }
  }

  lemma SeenOk(v: View, errors: iset<string>)
    requires Ok(v, errors) && v.seen < |v.sent|
    ensures Ok(Seen(v), errors)
  {
    hide Ok, Seen;
    match v.pending {
      case None => SeenWithoutEntryOk(v, errors);
      case Some(PendingBuffered) => SeenWhileBufferedOk(v, errors);
      case Some(PendingStreaming) => SeenWhileStreamingOk(v, errors);
    }
  }

  // ---------------------------------------------------------------------------
  // The home's events
  // ---------------------------------------------------------------------------

  /** The home is given the next frame of the request. */
  function Heard(v: View): View
    requires v.heard < |v.asked|
  {
    var w := v.(heard := v.heard + 1);
    match v.asked[v.heard]
    case HttpRequest(_, request) =>
      if H.IsStreamed(request)
      then w.(job := Some(H.Job(H.Fetching, false, [], 0)), active := true)
      else w.(job := Some(H.Job(H.Injecting, false, [], 0)))
    case StreamCancel(_) =>
      if v.active && v.job.Some? then w.(job := Some(v.job.value.(aborted := true)), active := false) else w
  }

  lemma HeardRequestOk(v: View, errors: iset<string>)
    requires Ok(v, errors) && v.heard < |v.asked| && v.asked[v.heard].HttpRequest?
    ensures Ok(Heard(v), errors)
  {
    assert v.heard == 0 && v.sent == [];
  }

  lemma HeardCancelOk(v: View, errors: iset<string>)
    requires Ok(v, errors) && v.heard < |v.asked| && v.asked[v.heard].StreamCancel?
    ensures Ok(Heard(v), errors)
  {
    assert |v.asked| == 2 && v.heard == 1;
  }

  lemma HeardOk(v: View, errors: iset<string>)
    requires Ok(v, errors) && v.heard < |v.asked|
    ensures Ok(Heard(v), errors)
  {
    hide Ok;
    if v.asked[v.heard].HttpRequest? {
      HeardRequestOk(v, errors);
    } else {
      HeardCancelOk(v, errors);
    }
  }

  function Emit(v: View, frames: seq<ToProxy>): View {
    if v.homeOpen then v.(sent := v.sent + frames) else v
  }

  function Finished(v: View): View
    requires v.job.Some?
  {
    v.(job := Some(v.job.value.(pc := H.Done)), active := false)
  }

  function HomeClosed(v: View): View {
    v.(homeOpen := false, active := false,
       job := if v.active && v.job.Some? then Some(v.job.value.(aborted := true)) else v.job)
  }

  lemma HomeClosingOk(v: View, errors: iset<string>)
    requires Ok(v, errors)
    ensures Ok(v.(homeOpen := false), errors)
  {
  }

  lemma HomeClosedOk(v: View, errors: iset<string>)
    requires Ok(v, errors)
    ensures Ok(HomeClosed(v), errors)
  {
  }

  lemma RespondedOk(v: View, frame: ToProxy, errors: iset<string>)
    requires Ok(v, errors) && v.job.Some? && v.job.value.pc == H.Injecting && frame.HttpResponse?
    ensures var w := Emit(v, [frame]);
            Ok(w.(job := Some(v.job.value.(pc := H.Done))), errors)
  {
  }

  /** Bytes already sent stay sent when more frames follow. */
  lemma EmittedOk(v: View, w: View, errors: iset<string>)
    requires Ok(v, errors) && v.sent <= w.sent && v.pipe == w.pipe && v.seen == w.seen
    requires v.pipe.Some? ==> !v.pipe.value.flow.Ended? || v.sent == w.sent
    ensures w.pipe.Some? ==> PipeOk(w.pipe.value, w.sent, w.seen, errors)
  {
    if v.pipe.Some? {
      PayloadPrefix(w.sent, |v.sent|);
      assert w.sent[..|v.sent|] == v.sent;
      assert w.sent[..v.seen] == v.sent[..v.seen];
    }
  }

  lemma FetchedOk(v: View, start: ToProxy, source: Option<Bytes>, end: ToProxy, errors: iset<string>)
    requires Ok(v, errors) && v.job.Some? && v.job.value.pc == H.Fetching
    requires start.StreamStart? && end.StreamEnd? && end.error.None?
    ensures source.None? ==> Ok(Finished(Emit(v, [start, end])), errors)
    ensures source.Some? ==>
      Ok(Emit(v, [start]).(job := Some(v.job.value.(pc := H.Draining, body := source.value, read := 0))), errors)
  {
    PayloadAppend([], start);
    assert [start, end][..1] == [start];
    assert [] + [start] == [start] && [start] + [end] == [start, end];
    PayloadAppend([start], end);
  }

  lemma DrainedOk(v: View, errors: iset<string>)
    requires Ok(v, errors) && v.job.Some? && v.job.value.pc == H.Draining
    ensures Ok(v.(job := Some(v.job.value.(pc := if v.active then H.Reading else H.Cancelling))), errors)
  {
  }

  lemma EmptySliceOk(v: View, errors: iset<string>)
    requires Ok(v, errors) && v.job.Some? && v.job.value.pc == H.Reading
    ensures Ok(v.(job := Some(v.job.value.(pc := H.Draining))), errors)
  {
  }

  lemma StartedAppend(sent: seq<ToProxy>, chunk: ToProxy)
    requires Started(sent) && chunk.StreamChunk?
    ensures Started(sent + [chunk])
  {
  }

  lemma ChunkJobOk(job: H.Job, sent: seq<ToProxy>, n: nat, chunk: ToProxy, cancelled: bool, errors: iset<string>)
    requires JobOk(job, sent, true, cancelled, errors) && job.pc == H.Reading
    requires job.read + n <= |job.body| && chunk.StreamChunk?
    requires Decode(chunk.data) == job.body[job.read..job.read + n]
    ensures JobOk(job.(pc := H.Draining, read := job.read + n), sent + [chunk], true, cancelled, errors)
  {
    PayloadAppend(sent, chunk);
    StartedAppend(sent, chunk);
    TakeMore(job.body, job.read, n);
    assert Payload(sent + [chunk]) == job.body[..job.read + n];
  }

  lemma EndJobOk(job: H.Job, sent: seq<ToProxy>, end: ToProxy, cancelled: bool, errors: iset<string>)
    requires JobOk(job, sent, true, cancelled, errors) && end.StreamEnd?
    requires job.pc == H.Reading || (job.pc == H.Fetching && end.error.Some?)
    requires end.error.None? ==> job.read == |job.body|
    requires end.error.Some? ==> end.error.value in errors || (end.error.value == P.CANCELLED && job.aborted)
    ensures JobOk(job.(pc := H.Done), sent + [end], true, cancelled, errors)
  {
    PayloadAppend(sent, end);
    assert (sent + [end])[..|sent|] == sent;
  }

  lemma SliceOk(v: View, n: nat, chunk: ToProxy, errors: iset<string>)
    requires Ok(v, errors) && v.job.Some? && v.job.value.pc == H.Reading
    requires v.job.value.read + n <= |v.job.value.body|
    requires chunk.StreamChunk?
    requires Decode(chunk.data) == v.job.value.body[v.job.value.read..v.job.value.read + n]
    ensures Ok(Emit(v, [chunk]).(job := Some(v.job.value.(pc := H.Draining, read := v.job.value.read + n))), errors)
  {
    var job := v.job.value;
    var w := Emit(v, [chunk]).(job := Some(job.(pc := H.Draining, read := job.read + n)));
    if v.homeOpen {
      ChunkJobOk(job, v.sent, n, chunk, |v.asked| == 2, errors);
      EmittedOk(v, w, errors);
    } else {
      TakeMore(job.body, job.read, n);
    }
  }

  lemma EndedOfflineOk(v: View, errors: iset<string>)
    requires Ok(v, errors) && v.job.Some? && !v.homeOpen
    requires v.job.value.pc == H.Reading || v.job.value.pc == H.Fetching
    ensures Ok(Finished(v), errors)
  {
    assert v.sent == [] || !Last(v.sent).StreamEnd?;
  }

  lemma NotEndedYet(v: View, errors: iset<string>)
    requires Ok(v, errors) && v.job.Some? && v.homeOpen
    requires v.job.value.pc == H.Reading || v.job.value.pc == H.Fetching
    ensures v.pipe.Some? ==> !v.pipe.value.flow.Ended?
  {
  }

  lemma EndedOk(v: View, end: ToProxy, errors: iset<string>)
    requires Ok(v, errors) && v.job.Some? && end.StreamEnd?
    requires v.job.value.pc == H.Reading || (v.job.value.pc == H.Fetching && end.error.Some?)
    requires end.error.None? ==> v.job.value.read == |v.job.value.body|
    requires end.error.Some? ==>
      end.error.value in errors || (end.error.value == P.CANCELLED && v.job.value.aborted)
    ensures Ok(Finished(Emit(v, [end])), errors)
  {
    hide PipeOk, RouteOk, InGrammar, Started, Payload;
    if v.homeOpen {
      EndJobOk(v.job.value, v.sent, end, |v.asked| == 2, errors);
      NotEndedYet(v, errors);
      EmittedOk(v, Finished(Emit(v, [end])), errors);
    } else {
      EndedOfflineOk(v, errors);
    }
  }

  lemma ReaderCancelledOk(v: View, errors: iset<string>)
    requires Ok(v, errors) && v.job.Some? && v.job.value.pc == H.Cancelling
    ensures Ok(Finished(v), errors)
  {
  }
}
