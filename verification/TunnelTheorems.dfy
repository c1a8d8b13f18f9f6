/** What every run of the tunnel protocol guarantees, and where the code stops guaranteeing it. */
module TunnelTheorems {
  import opened Option
  import opened Base64
  import opened TunnelMessages
  import opened TunnelView
  import opened TunnelProtocol
  import P = TunnelProxy
  import H = TunnelHome
  import StreamedPaths

  ghost const ANY_ERROR: iset<string> := iset m: string | true

  /** Some sequence of events leads from an idle connection to `s`. */
  ghost predicate Reachable(s: System) {
    exists events: seq<Event> :: s == Run(INIT, events)
  }

  lemma ReachableInv(s: System, id: Id)
    requires Reachable(s)
    ensures Inv(s, ANY_ERROR) && Ok(ViewOf(s, id), ANY_ERROR)
  {
    var events :| s == Run(INIT, events);
    RunKeeps(events, ANY_ERROR);
  }

  /** Per request the home sends nothing, one response, `end(error)`, or `start chunk* (end | end(error))?`. */
  lemma StreamGrammar(s: System, id: Id)
    requires Reachable(s)
    ensures InGrammar(Answers(s.home.outbox, id))
  {
    ReachableInv(s, id);
  }

  /** The bytes written to a stream are, in order, a prefix of those the home has read. */
  lemma BytesInOrder(s: System, id: Id)
    requires Reachable(s) && id in s.proxy.pipes
    ensures id in s.home.jobs && s.home.jobs[id].read <= |s.home.jobs[id].body|
    ensures s.proxy.pipes[id].written <= s.home.jobs[id].body[..s.home.jobs[id].read]
  {
    ReachableInv(s, id);
  }

  /** The reply is what the home has read, and all of upstream's body if the end frame had no error. */
  lemma ReplyIsWhatWasRead(s: System, id: Id)
    requires Reachable(s) && RouteOf(s, id).reply.Some?
    ensures var sent := Answers(s.home.outbox, id);
            && id in s.home.jobs && s.home.jobs[id].read <= |s.home.jobs[id].body|
            && sent != [] && Last(sent).StreamEnd?
            && RouteOf(s, id).reply.value == s.home.jobs[id].body[..s.home.jobs[id].read]
            && (Last(sent).error.None? ==> RouteOf(s, id).reply.value == s.home.jobs[id].body)
  {
    ReachableInv(s, id);
    var v := ViewOf(s, id);
    assert v.job.value.body[..|v.job.value.body|] == v.job.value.body;
  }

  /** Replies are complete: a reply that is sent carries upstream's whole body. */
  ghost predicate RepliesComplete(errors: iset<string>) {
    forall events, id | AllAdmitted(errors, events) && RouteOf(Run(INIT, events), id).reply.Some? ::
      ReplyComplete(Run(INIT, events), id)
  }

  ghost predicate ReplyComplete(s: System, id: Id) {
    id in s.home.jobs && RouteOf(s, id).reply == Some(s.home.jobs[id].body)
  }

  lemma ReplyCompleteIf(errors: iset<string>, events: seq<Event>, id: Id)
    requires "" !in errors && P.CANCELLED !in errors
    requires AllAdmitted(errors, events) && RouteOf(Run(INIT, events), id).reply.Some?
    ensures ReplyComplete(Run(INIT, events), id)
  {
    hide Run, Ok;
    RunKeeps(events, errors);
    var s := Run(INIT, events);
    assert Ok(ViewOf(s, id), errors);
    CompleteView(ViewOf(s, id), errors);
  }

  lemma CompleteView(v: View, errors: iset<string>)
    requires Ok(v, errors) && v.route.reply.Some? && "" !in errors && P.CANCELLED !in errors
    ensures v.job.Some? && v.route.reply.value == v.job.value.body
  {
    assert Last(v.sent).error.None?;
    assert v.job.value.body[..|v.job.value.body|] == v.job.value.body;
  }

  /**
   The proxy ends the stream normally when the error text is empty or `cancelled`.
   So replies are always complete exactly when no upstream error carries such a text.
   */
  lemma CompleteIffErrorsAreTold(errors: iset<string>)
    ensures RepliesComplete(errors) <==> "" !in errors && P.CANCELLED !in errors
  {
    if "" !in errors && P.CANCELLED !in errors {
      forall events, id | AllAdmitted(errors, events) && RouteOf(Run(INIT, events), id).reply.Some?
        ensures ReplyComplete(Run(INIT, events), id)
      {
        ReplyCompleteIf(errors, events, id);
      }
    } else {
      var text := if "" in errors then "" else P.CANCELLED;
      var request := TunnelMessages.Request("GET", H.CAMERAS + "a" + "/mjpeg", map[], None);
      MjpegIsStreamed(request, "a");
      var events := CutShortRun(request, text);
      CutShort(request, text);
      assert AllAdmitted(errors, events);
      assert !ReplyComplete(Run(INIT, events), "r");
    }
  }

  const OK: Head := Head(200, map[])

  /** Camera pictures are streamed, whatever the camera is called. */
  lemma MjpegIsStreamed(request: TunnelMessages.Request, camera: string)
    requires request.path == H.CAMERAS + camera + "/mjpeg" && "x-tunnel-target" !in request.headers
    requires camera != "" && '/' !in camera && '?' !in camera
    ensures H.IsStreamed(request)
  {
    assert StreamedPaths.IsCut(request.path, request.path);
    assert StreamedPaths.IsOfCamera(request.path, camera);
    StreamedPaths.StreamedIff(request);
  }

  /** A read fails before the only byte of the body has arrived. */
  function CutShortRun(request: TunnelMessages.Request, text: string): seq<Event> {
    [Event.Request("r", request), DeliverToHome, Fetched("r", OK, Some([7])), Drained("r"),
     Failure("r", H.Failed(text)), DeliverToProxy, DeliverToProxy, RouteEnd("r")]
  }

  lemma RunStep(events: seq<Event>, k: nat)
    requires k < |events|
    ensures Run(INIT, events[..k + 1]) == Step(Run(INIT, events[..k]), events[k])
  {
    assert events[..k + 1][..k] == events[..k];
  }

  function Waiting(request: TunnelMessages.Request): P.ProxyState {
    P.ProxyState(true, true, map["r" := P.PendingBuffered], {"r"}, map["r" := []], map[], [HttpRequest("r", request)])
  }

  function Home(active: bool, job: H.Job, outbox: seq<ToProxy>): H.HomeState {
    H.HomeState(true, true, if active then {"r"} else {}, map["r" := job], outbox)
  }

  /** The cut-short run while the home works on the request, after its first `k` events. */
  function Midway(request: TunnelMessages.Request, text: string, k: nat): System {
    System(Waiting(request), map[],
           if k == 2 then Home(true, H.Job(H.Fetching, false, [], 0), [])
           else if k == 3 then Home(true, H.Job(H.Draining, false, [7], 0), [StreamStart("r", OK)])
           else if k == 4 then Home(true, H.Job(H.Reading, false, [7], 0), [StreamStart("r", OK)])
           else Home(false, H.Job(H.Done, false, [7], 0), [StreamStart("r", OK), StreamEnd("r", Some(text))]),
           1, 0)
  }

  lemma MidwayStart(request: TunnelMessages.Request, text: string)
    requires H.IsStreamed(request)
    ensures Step(Step(INIT, Event.Request("r", request)), DeliverToHome) == Midway(request, text, 2)
  {
    var s1 := Step(INIT, Event.Request("r", request));
    assert s1.proxy == Waiting(request);
  }

  lemma MidwayStep(request: TunnelMessages.Request, text: string, k: nat)
    requires 2 <= k < 5
    ensures Step(Midway(request, text, k), CutShortRun(request, text)[k]) == Midway(request, text, k + 1)
  {
  }

  lemma {:induction false} MidwayRun(request: TunnelMessages.Request, text: string, k: nat)
    requires H.IsStreamed(request) && 2 <= k <= 5
    ensures Run(INIT, CutShortRun(request, text)[..k]) == Midway(request, text, k)
  {
    var es := CutShortRun(request, text);
    RunStep(es, k - 1);
    if k == 2 {
      RunStep(es, 0);
      assert es[..0] == [];
      MidwayStart(request, text);
    } else {
      MidwayRun(request, text, k - 1);
      MidwayStep(request, text, k - 1);
    }
  }

  lemma Replying(s: System, text: string)
    requires P.EndsCleanly(Some(text)) && s.routes == map[]
    requires s.proxy.pending == map["r" := P.PendingBuffered] && s.proxy.pipes == map[] && s.proxy.authenticated
    requires s.home.outbox == [StreamStart("r", OK), StreamEnd("r", Some(text))] && s.proxySeen == 0
    ensures var s' := Step(Step(Step(s, DeliverToProxy), DeliverToProxy), RouteEnd("r"));
            RouteOf(s', "r").reply == Some([]) && s'.home == s.home
  {
    var s1 := Step(s, DeliverToProxy);
    assert s1.proxy.pending["r"].PendingStreaming? && s1.proxy.pipes["r"] == P.Pipe([], 0, P.Open);
    var s2 := Step(s1, DeliverToProxy);
    assert s2.proxy.pipes["r"] == P.Pipe([], 0, P.Ended);
  }

  lemma RunThree(s: System, a: Event, b: Event, c: Event)
    ensures Run(s, [a, b, c]) == Step(Step(Step(s, a), b), c)
  {
    assert [a, b, c][..2] == [a, b] && [a, b][..1] == [a];
    assert Run(s, [a]) == Step(s, a);
    assert Run(s, [a, b]) == Step(Run(s, [a]), b);
  }

  lemma {:induction false} RunAppend(s: System, first: seq<Event>, then_: seq<Event>)
    ensures Run(s, first + then_) == Run(Run(s, first), then_)
  {
    if then_ == [] {
      assert first + then_ == first;
    } else {
      var init := then_[..|then_| - 1];
      RunAppend(s, first, init);
      assert (first + then_)[..|first + then_| - 1] == first + init;
    }
  }

  lemma CutShort(request: TunnelMessages.Request, text: string)
    requires H.IsStreamed(request) && P.EndsCleanly(Some(text))
    ensures var s := Run(INIT, CutShortRun(request, text));
            RouteOf(s, "r").reply == Some([]) && "r" in s.home.jobs && s.home.jobs["r"].body == [7]
  {
    var es, end := CutShortRun(request, text), [DeliverToProxy, DeliverToProxy, RouteEnd("r")];
    MidwayRun(request, text, 5);
    assert es == es[..5] + end;
    RunAppend(INIT, es[..5], end);
    RunThree(Midway(request, text, 5), DeliverToProxy, DeliverToProxy, RouteEnd("r"));
    Replying(Midway(request, text, 5), text);
  }

  // ---------------------------------------------------------------------------
  // Promises and timers
  // ---------------------------------------------------------------------------

  function OutcomesOf(s: System, id: Id): seq<P.Outcome> {
    P.Outcomes(s.proxy.promises, id)
  }

  /** No promise settles twice; a buffered entry waits with its timer armed, a streaming one was resolved. */
  lemma SettledAtMostOnce(s: System, id: Id)
    requires Reachable(s)
    ensures |OutcomesOf(s, id)| <= 1
    ensures id in s.proxy.pending && s.proxy.pending[id].PendingBuffered? ==>
      OutcomesOf(s, id) == [] && id in s.proxy.timers
    ensures id in s.proxy.pending && s.proxy.pending[id].PendingStreaming? ==>
      |OutcomesOf(s, id)| == 1 && OutcomesOf(s, id)[0].ResolvedStreaming? && id !in s.proxy.timers
  {
    ReachableInv(s, id);
  }

  /** An event that takes an entry away without telling its caller anything. */
  predicate Forgets(s: System, e: Event, id: Id) {
    && id in s.proxy.pending && id !in Step(s, e).proxy.pending
    && OutcomesOf(Step(s, e), id) == []
  }

  lemma ForgetsOnDelivery(s: System, id: Id)
    requires Inv(s, ANY_ERROR) && Enabled(s, DeliverToProxy)
    ensures Forgets(s, DeliverToProxy, id) <==>
      && id in s.proxy.pending && s.proxy.pending[id].PendingBuffered?
      && s.home.outbox[s.proxySeen].StreamEnd? && s.home.outbox[s.proxySeen].id == id
  {
    assert Ok(ViewOf(s, id), ANY_ERROR);
    if s.home.outbox[s.proxySeen].id == id && id in s.proxy.pending {
      PendingHavePromises(s, ANY_ERROR);
      NextAnswer(s.home.outbox, s.proxySeen, id);
      GrammarPositions(ViewOf(s, id).sent, ViewOf(s, id).seen);
    }
  }

  lemma ForgetsOtherwise(s: System, e: Event, id: Id)
    requires Inv(s, ANY_ERROR) && Enabled(s, e) && !e.DeliverToProxy?
    ensures Forgets(s, e, id) <==> id in s.proxy.pending && s.proxy.pending[id].PendingBuffered? && e == Cancel(id)
  {
    assert Ok(ViewOf(s, id), ANY_ERROR);
    if IsJobEvent(e) {
      JobState(s, e);
    }
  }

  /** The only such events are an `end` before any `start`, and a cancel of a buffered entry. */
  lemma ForgetsIff(s: System, e: Event, id: Id)
    requires Reachable(s)
    ensures Forgets(s, e, id) <==>
      && id in s.proxy.pending && s.proxy.pending[id].PendingBuffered?
      && (|| e == Cancel(id)
          || (e.DeliverToProxy? && Enabled(s, e)
              && s.home.outbox[s.proxySeen].StreamEnd? && s.home.outbox[s.proxySeen].id == id))
  {
    ReachableInv(s, id);
    if e.DeliverToProxy? && Enabled(s, e) {
      ForgetsOnDelivery(s, id);
    } else if Enabled(s, e) {
      ForgetsOtherwise(s, e, id);
    }
  }

  predicate Forgotten(s: System, id: Id) {
    id in s.proxy.promises && s.proxy.promises[id] == [] && id !in s.proxy.pending
  }

  lemma ForgottenStep(s: System, e: Event, id: Id)
    requires Forgotten(s, id)
    ensures Forgotten(Step(s, e), id)
  {
    if Enabled(s, e) && IsJobEvent(e) {
      JobState(s, e);
    } else {
      match e {
        case DeliverToProxy =>
        case _ =>
      }
    }
  }

  /** What is forgotten stays forgotten: the promise never settles, whatever happens next. */
  lemma {:induction false} ForgottenForever(s: System, more: seq<Event>, id: Id)
    requires Forgotten(s, id)
    ensures Forgotten(Run(s, more), id)
  {
    if more != [] {
      ForgottenForever(s, more[..|more| - 1], id);
      ForgottenStep(Run(s, more[..|more| - 1]), Last(more), id);
    }
  }

  function FailedFetch(request: TunnelMessages.Request, message: string): seq<Event> {
    [Event.Request("r", request), DeliverToHome, Failure("r", H.Failed(message)), DeliverToProxy]
  }

  lemma FailureForgets(s: System, request: TunnelMessages.Request, message: string)
    requires s == Midway(request, message, 2)
    ensures Forgotten(Step(Step(s, Failure("r", H.Failed(message))), DeliverToProxy), "r")
  {
    var s' := Step(s, Failure("r", H.Failed(message)));
    assert s'.home.outbox == [StreamEnd("r", Some(message))] && s'.proxy == Waiting(request);
  }

  /** A fetch that fails at the home leaves the remote caller waiting for ever. */
  lemma FailedFetchHangs(request: TunnelMessages.Request, message: string, more: seq<Event>)
    requires H.IsStreamed(request)
    ensures OutcomesOf(Run(Run(INIT, FailedFetch(request, message)), more), "r") == []
  {
    var es := FailedFetch(request, message);
    RunStep(es, 2);
    RunStep(es, 3);
    assert es[..2] == CutShortRun(request, message)[..2] && es[..4] == es;
    MidwayRun(request, message, 2);
    FailureForgets(Midway(request, message, 2), request, message);
    ForgottenForever(Run(INIT, es), more, "r");
  }

  /** A close empties the table and tells every caller: buffered ones are rejected, streams destroyed. */
  lemma CloseTellsEveryone(s: System, id: Id)
    requires Reachable(s)
    ensures var s' := Step(s, ProxyClose);
            && s'.proxy.pending == map[]
            && (id in s.proxy.pending && s.proxy.pending[id].PendingBuffered? ==>
                  OutcomesOf(s', id) == [P.Rejected(P.DISCONNECTED)])
            && (id in s.proxy.pending && s.proxy.pending[id].PendingStreaming? ==>
                  id in s'.proxy.pipes && s'.proxy.pipes[id].flow.Destroyed?)
            && (id !in s.proxy.pending ==> OutcomesOf(s', id) == OutcomesOf(s, id))
  {
    ReachableInv(s, id);
    PendingHavePromises(s, ANY_ERROR);
  }

  /** After the close no request waits any more: a new one is rejected at once. */
  lemma {:induction false} NothingWaitsAfterClose(s: System, more: seq<Event>)
    requires s.proxy.pending == map[] && !s.proxy.authenticated
    ensures Run(s, more).proxy.pending == map[] && !Run(s, more).proxy.authenticated
  {
    if more != [] {
      NothingWaitsAfterClose(s, more[..|more| - 1]);
      var t, e := Run(s, more[..|more| - 1]), Last(more);
      if Enabled(t, e) && IsJobEvent(e) {
        JobState(t, e);
      }
    }
  }

  /** A request whose stream was destroyed before the route had replied. */
  predicate Unanswered(s: System, id: Id) {
    && id in s.proxy.pipes && s.proxy.pipes[id].flow.Destroyed?
    && id in s.proxy.promises && id !in s.proxy.pending && RouteOf(s, id).reply.None?
  }

  lemma UnansweredStep(s: System, e: Event, id: Id)
    requires Unanswered(s, id)
    ensures Unanswered(Step(s, e), id)
  {
    if Enabled(s, e) && IsJobEvent(e) {
      JobState(s, e);
    } else {
      match e {
        case DeliverToProxy =>
        case _ =>
      }
    }
  }

  lemma {:induction false} UnansweredForever(s: System, more: seq<Event>, id: Id)
    requires Unanswered(s, id)
    ensures Unanswered(Run(s, more), id)
  {
    if more != [] {
      UnansweredForever(s, more[..|more| - 1], id);
      UnansweredStep(Run(s, more[..|more| - 1]), Last(more), id);
    }
  }

  /** The route replies when the stream ends, so once a stream is destroyed its request never gets a reply. */
  lemma DestroyedNeverReplies(s: System, more: seq<Event>, id: Id)
    requires Reachable(s) && id in s.proxy.pipes && s.proxy.pipes[id].flow.Destroyed?
    ensures RouteOf(Run(s, more), id).reply.None?
  {
    ReachableInv(s, id);
    UnansweredForever(s, more, id);
  }

  /** An event that destroys the stream of `id`. */
  predicate Destroys(s: System, e: Event, id: Id) {
    && id in s.proxy.pipes && s.proxy.pipes[id].flow.Open?
    && id in Step(s, e).proxy.pipes && Step(s, e).proxy.pipes[id].flow.Destroyed?
  }

  /** The next frame for the proxy ends the stream of `id` with an error the proxy takes for one. */
  predicate EndsBadlyNext(s: System, id: Id) {
    && Enabled(s, DeliverToProxy)
    && var frame := s.home.outbox[s.proxySeen];
       frame.StreamEnd? && frame.id == id && !P.EndsCleanly(frame.error)
  }

  lemma SeenDestroys(v: View)
    requires Ok(v, ANY_ERROR) && v.seen < |v.sent| && v.pipe.Some? && v.pipe.value.flow.Open?
    ensures Seen(v).pipe.Some?
    ensures Seen(v).pipe.value.flow.Destroyed? <==> v.sent[v.seen].StreamEnd? && !P.EndsCleanly(v.sent[v.seen].error)
  {
    GrammarPositions(v.sent, v.seen);
  }

  lemma DestroysOnDelivery(s: System, id: Id)
    requires Inv(s, ANY_ERROR) && Enabled(s, DeliverToProxy)
    requires id in s.proxy.pipes && s.proxy.pipes[id].flow.Open?
    ensures Destroys(s, DeliverToProxy, id) <==> EndsBadlyNext(s, id)
  {
    hide Step, Seen, Ok;
    var v := ViewOf(s, id);
    assert Ok(v, ANY_ERROR);
    if s.home.outbox[s.proxySeen].id == id {
      PendingHavePromises(s, ANY_ERROR);
      NextAnswer(s.home.outbox, s.proxySeen, id);
      OnDeliverToProxy(s, id);
      SeenDestroys(v);
      assert ViewOf(Step(s, DeliverToProxy), id).pipe == Seen(v).pipe;
    } else {
      OnDeliverElsewhere(s, id);
      assert ViewOf(Step(s, DeliverToProxy), id).pipe == v.pipe;
    }
  }

  lemma DestroysOtherwise(s: System, e: Event, id: Id)
    requires Inv(s, ANY_ERROR) && Enabled(s, e) && !e.DeliverToProxy?
    requires id in s.proxy.pipes && s.proxy.pipes[id].flow.Open?
    ensures Destroys(s, e, id) <==> e == Cancel(id) || e == ProxyClose
  {
    assert Ok(ViewOf(s, id), ANY_ERROR);
    if IsJobEvent(e) {
      JobState(s, e);
    }
  }

  /** A stream is destroyed by its cancellation, by the tunnel's close, and by an end with a told error; by nothing else. */
  lemma DestroysIff(s: System, e: Event, id: Id)
    requires Reachable(s) && id in s.proxy.pipes && s.proxy.pipes[id].flow.Open?
    ensures Destroys(s, e, id) <==> e == Cancel(id) || e == ProxyClose || (e.DeliverToProxy? && EndsBadlyNext(s, id))
  {
    ReachableInv(s, id);
    if e.DeliverToProxy? && Enabled(s, e) {
      DestroysOnDelivery(s, id);
    } else if Enabled(s, e) {
      DestroysOtherwise(s, e, id);
    }
  }

  /** A stream that has ended, on the other hand, is one step from its reply once its bytes are taken. */
  lemma EndedReplies(s: System, id: Id)
    requires Reachable(s) && id in s.proxy.pipes && s.proxy.pipes[id].flow.Ended? && RouteOf(s, id).reply.None?
    ensures s.proxy.pipes[id].taken <= |s.proxy.pipes[id].written|
    ensures var left := |s.proxy.pipes[id].written| - s.proxy.pipes[id].taken;
            RouteOf(Step(Step(s, RouteData(id, left)), RouteEnd(id)), id).reply == Some(s.proxy.pipes[id].written)
  {
    ReachableInv(s, id);
    var e := RouteData(id, |s.proxy.pipes[id].written| - s.proxy.pipes[id].taken);
    StepKeeps(s, e, ANY_ERROR);
    AllTaken(s, id);
    assert Ok(ViewOf(Step(s, e), id), ANY_ERROR);
    ReplyIsSent(Step(s, e), id);
  }

  lemma AllTaken(s: System, id: Id)
    requires id in s.proxy.pipes && s.proxy.pipes[id].flow.Ended? && RouteOf(s, id).reply.None?
    requires s.proxy.pipes[id].taken <= |s.proxy.pipes[id].written|
    ensures var pipe := s.proxy.pipes[id];
            var t := Step(s, RouteData(id, |pipe.written| - pipe.taken));
            && id in t.proxy.pipes && t.proxy.pipes[id] == pipe.(taken := |pipe.written|)
            && RouteOf(t, id).reply.None?
  {
  }

  lemma ReplyIsSent(s: System, id: Id)
    requires Enabled(s, RouteEnd(id)) && RouteOk(RouteOf(s, id), Some(s.proxy.pipes[id]))
    ensures RouteOf(Step(s, RouteEnd(id)), id).reply == Some(s.proxy.pipes[id].written)
  {
    var written := s.proxy.pipes[id].written;
    assert written[..|written|] == written;
  }

  lemma RunReaches(events: seq<Event>)
    ensures Reachable(Run(INIT, events))
  {
  }

  lemma DestroyingDelivery(request: TunnelMessages.Request, text: string)
    requires !P.EndsCleanly(Some(text))
    ensures var t := Step(Step(Midway(request, text, 5), DeliverToProxy), DeliverToProxy);
            "r" in t.proxy.pipes && t.proxy.pipes["r"].flow.Destroyed?
  {
    var t := Step(Midway(request, text, 5), DeliverToProxy);
    assert t.proxy.pending["r"].PendingStreaming? && t.proxy.pipes["r"] == P.Pipe([], 0, P.Open);
  }

  /** A read that fails with a told error: the remote request is never answered. */
  lemma FailedReadHangs(request: TunnelMessages.Request, text: string, more: seq<Event>)
    requires H.IsStreamed(request) && !P.EndsCleanly(Some(text))
    ensures var s := Run(INIT, CutShortRun(request, text)[..7]);
            && Reachable(s) && "r" in s.proxy.pipes && s.proxy.pipes["r"].flow.Destroyed?
            && RouteOf(Run(s, more), "r").reply.None?
  {
    hide Step, Run, Midway, RouteOf, Reachable;
    var es, before := CutShortRun(request, text), Midway(request, text, 5);
    MidwayRun(request, text, 5);
    RunStep(es, 5);
    RunStep(es, 6);
    RunReaches(es[..7]);
    DestroyingDelivery(request, text);
    assert Run(INIT, es[..7]) == Step(Step(before, DeliverToProxy), DeliverToProxy);
    DestroyedNeverReplies(Run(INIT, es[..7]), more, "r");
  }
}
