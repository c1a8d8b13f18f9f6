/** Where what a caller is told comes from: from the home's answer to that very request, unchanged. */
module TunnelReplies {
  import opened Option
  import opened TunnelMessages
  import opened TunnelProtocol
  import opened TunnelTheorems
  import P = TunnelProxy
  import H = TunnelHome

  ghost predicate WasFetched(events: seq<Event>, id: Id, head: Head) {
    exists source :: Fetched(id, head, source) in events
  }

  /** The home sent the frame because of an event with the same contents. */
  ghost predicate HasSource(events: seq<Event>, f: ToProxy) {
    && (f.HttpResponse? ==> Injected(f.id, f.head, f.body, f.base64) in events)
    && (f.StreamStart? ==> WasFetched(events, f.id, f.head))
  }

  lemma FramesHaveSource(s: System, e: Event)
    requires IsJobEvent(e) && Enabled(s, e)
    ensures forall f <- JobFrames(s, e) :: HasSource([e], f)
  {
    if e.Fetched? {
      assert e == Fetched(e.id, e.head, e.source) && e in [e];
    }
  }

  lemma OutboxGrows(s: System, e: Event)
    ensures s.home.outbox <= Step(s, e).home.outbox
    ensures forall f <- Step(s, e).home.outbox :: f in s.home.outbox || HasSource([e], f)
  {
    if IsJobEvent(e) && Enabled(s, e) {
      hide Step, Enabled, HasSource, JobFrames;
      JobOutbox(s, e);
      FramesHaveSource(s, e);
    }
  }

  lemma SourcesGrow(events: seq<Event>, e: Event, f: ToProxy)
    requires HasSource(events, f) || HasSource([e], f)
    ensures HasSource(events + [e], f)
  {
    if f.StreamStart? {
      var source :| Fetched(f.id, f.head, source) in events || Fetched(f.id, f.head, source) in [e];
      assert Fetched(f.id, f.head, source) in events + [e];
    }
  }

  lemma {:induction false} OutboxHasSource(events: seq<Event>)
    ensures forall f <- Run(INIT, events).home.outbox :: HasSource(events, f)
  {
    if events != [] {
      hide Step, HasSource;
      var init, e := events[..|events| - 1], events[|events| - 1];
      var s := Run(INIT, init);
      OutboxHasSource(init);
      OutboxGrows(s, e);
      assert events == init + [e];
      forall f | f in Step(s, e).home.outbox ensures HasSource(events, f) {
        SourcesGrow(init, e, f);
      }
    }
  }

  /** The frame that tells a caller so. */
  function Telling(id: Id, o: P.Outcome): Option<ToProxy> {
    match o
    case ResolvedBuffered(head, body, base64) => Some(HttpResponse(id, head, body, base64))
    case ResolvedStreaming(head) => Some(StreamStart(id, head))
    case Rejected(_) => None
  }

  ghost predicate IsTold(frames: seq<ToProxy>, id: Id, o: P.Outcome) {
    Telling(id, o).Some? ==> Telling(id, o).value in frames
  }

  /** On receiving a frame the proxy tells its own caller what is in it, and no other anything. */
  lemma ReceiveTells(p: P.ProxyState, frame: ToProxy, id: Id, o: P.Outcome)
    requires o in P.Outcomes(P.Receive(p, frame).promises, id)
    ensures o in P.Outcomes(p.promises, id) || Telling(id, o) == Some(frame)
  {
  }

  lemma StepTells(s: System, e: Event, id: Id, o: P.Outcome)
    requires o in OutcomesOf(Step(s, e), id)
    ensures || o in OutcomesOf(s, id)
            || o.Rejected?
            || (s.proxySeen < |s.home.outbox| && Telling(id, o) == Some(s.home.outbox[s.proxySeen]))
  {
    if e.DeliverToProxy? && Enabled(s, e) {
      ReceiveTells(s.proxy, s.home.outbox[s.proxySeen], id, o);
    }
  }

  lemma {:induction false} OutcomesAreTold(events: seq<Event>, id: Id)
    ensures forall o <- OutcomesOf(Run(INIT, events), id) :: IsTold(Run(INIT, events).home.outbox, id, o)
  {
    if events != [] {
      hide Step, OutcomesOf;
      var init, e := events[..|events| - 1], events[|events| - 1];
      var s := Run(INIT, init);
      OutcomesAreTold(init, id);
      OutboxGrows(s, e);
      forall o | o in OutcomesOf(Step(s, e), id) ensures IsTold(Step(s, e).home.outbox, id, o) {
        StepTells(s, e, id, o);
      }
    } else {
      assert OutcomesOf(INIT, id) == [];
    }
  }

  lemma {:induction false} AnswersHave(frames: seq<ToProxy>, f: ToProxy)
    requires f in frames
    ensures f in Answers(frames, f.id)
  {
    var init, last := frames[..|frames| - 1], frames[|frames| - 1];
    assert frames == init + [last];
    if f in init {
      AnswersHave(init, f);
    }
  }

  /**
   What a caller is told is what the home answered to its request, and the home has answered nothing else before
   it: status, headers, body and encoding are those the local server gave.
   */
  lemma ReplyIsTheAnswer(events: seq<Event>, id: Id, o: P.Outcome)
    requires o in OutcomesOf(Run(INIT, events), id) && !o.Rejected?
    ensures var sent := Answers(Run(INIT, events).home.outbox, id);
            && (o.ResolvedBuffered? ==>
                  && sent == [HttpResponse(id, o.head, o.body, o.base64)]
                  && Injected(id, o.head, o.body, o.base64) in events)
            && (o.ResolvedStreaming? ==>
                  sent != [] && sent[0] == StreamStart(id, o.head) && WasFetched(events, id, o.head))
  {
    hide Run, OutcomesOf;
    var s := Run(INIT, events);
    RunReaches(events);
    StreamGrammar(s, id);
    OutcomesAreTold(events, id);
    OutboxHasSource(events);
    var f, sent := Telling(id, o).value, Answers(s.home.outbox, id);
    AnswersHave(s.home.outbox, f);
    var k :| 0 <= k < |sent| && sent[k] == f;
    GrammarPositions(sent, k);
    assert HasSource(events, f);
  }

  // ---------------------------------------------------------------------------
  // Which requests are answered by a stream
  // ---------------------------------------------------------------------------

  /** The request was made, and its path is (or is not) one that is streamed. */
  ghost predicate WasAsked(events: seq<Event>, id: Id, streamed: bool) {
    exists request :: Event.Request(id, request) in events && H.IsStreamed(request) == streamed
  }

  ghost predicate IsRelay(events: seq<Event>, f: ToHome) {
    f.HttpRequest? ==> Event.Request(f.id, f.request) in events
  }

  ghost predicate JobWasAsked(events: seq<Event>, id: Id, pc: H.Pc) {
    !pc.Done? ==> WasAsked(events, id, !pc.Injecting?)
  }

  ghost predicate FrameWasAsked(events: seq<Event>, f: ToProxy) {
    && (f.HttpResponse? ==> WasAsked(events, f.id, false))
    && (f.StreamStart? ==> WasAsked(events, f.id, true))
  }

  ghost predicate AllAsked(events: seq<Event>, s: System) {
    && (forall f <- s.proxy.outbox :: IsRelay(events, f))
    && (forall id <- s.home.jobs :: JobWasAsked(events, id, s.home.jobs[id].pc))
    && (forall f <- s.home.outbox :: FrameWasAsked(events, f))
  }

  lemma AskedStays(events: seq<Event>, e: Event, id: Id, streamed: bool)
    requires WasAsked(events, id, streamed)
    ensures WasAsked(events + [e], id, streamed)
  {
    var request :| Event.Request(id, request) in events && H.IsStreamed(request) == streamed;
    assert Event.Request(id, request) in events + [e];
  }

  lemma AllAskedStays(events: seq<Event>, e: Event, s: System)
    requires AllAsked(events, s)
    ensures AllAsked(events + [e], s)
  {
    hide WasAsked;
    forall id: Id, streamed | WasAsked(events, id, streamed) ensures WasAsked(events + [e], id, streamed) {
      AskedStays(events, e, id, streamed);
    }
  }

  lemma RelaysAfter(s: System, e: Event)
    ensures forall f <- Step(s, e).proxy.outbox :: f in s.proxy.outbox || IsRelay([e], f)
  {
    assert e in [e];
  }

  lemma HeardAsked(events: seq<Event>, h: H.HomeState, frame: ToHome, id: Id)
    requires IsRelay(events, frame)
    requires id in h.jobs ==> JobWasAsked(events, id, h.jobs[id].pc)
    ensures id in H.Receive(h, frame).jobs ==> JobWasAsked(events, id, H.Receive(h, frame).jobs[id].pc)
  {
    hide H.IsStreamed;
  }

  lemma JobsAfter(events: seq<Event>, s: System, e: Event, id: Id)
    requires AllAsked(events, s) && id in Step(s, e).home.jobs
    ensures JobWasAsked(events, id, Step(s, e).home.jobs[id].pc)
  {
    hide WasAsked;
    if e.DeliverToHome? && Enabled(s, e) {
      HeardAsked(events, s.home, s.proxy.outbox[s.homeSeen], id);
    }
  }

  lemma FramesAfter(events: seq<Event>, s: System, e: Event)
    requires AllAsked(events, s)
    ensures forall f <- Step(s, e).home.outbox :: FrameWasAsked(events, f)
  {
    hide WasAsked;
    if IsJobEvent(e) && Enabled(s, e) {
      JobOutbox(s, e);
      assert e.id in s.home.jobs;
    }
  }

  lemma {:induction false} RunsAsked(events: seq<Event>)
    ensures AllAsked(events, Run(INIT, events))
  {
    if events != [] {
      hide Step, WasAsked;
      var init, e := events[..|events| - 1], events[|events| - 1];
      var s := Run(INIT, init);
      RunsAsked(init);
      assert events == init + [e];
      AllAskedStays(init, e, s);
      RelaysAfter(s, e);
      FramesAfter(events, s, e);
      forall id | id in Step(s, e).home.jobs ensures JobWasAsked(events, id, Step(s, e).home.jobs[id].pc) {
        JobsAfter(events, s, e, id);
      }
    }
  }

  /** A caller is handed a stream only for a request of a streaming path, and a buffered reply only for any other. */
  lemma StreamsAreForStreamedPaths(events: seq<Event>, id: Id, o: P.Outcome)
    requires o in OutcomesOf(Run(INIT, events), id) && !o.Rejected?
    ensures WasAsked(events, id, o.ResolvedStreaming?)
  {
    hide Run, OutcomesOf;
    OutcomesAreTold(events, id);
    RunsAsked(events);
    assert FrameWasAsked(events, Telling(id, o).value);
  }
}
