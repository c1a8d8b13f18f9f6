/**
 Speaking a reply while it is being written: sentences are synthesized
 concurrently, and a chain of promises sends their audio in the order of the text.

 A job's promise is named by the job's place in `jobs`. The markdown stripper is a
 parameter. The reply is fed first and flushed once.
 */
module SpeechPipeline {
  import opened Option
  import opened JsText
  import opened Speech

  const MAX_LEN: nat := 200

  datatype Config = Config(enabled: bool, clean: string -> string)

  datatype Synthesis = Waiting | Spoken(data: string) | Failed

  /**
   One piece being spoken, and the promise that waits for its synthesis and for `prev`,
   the promise that was the latest one when the piece was enqueued.
   */
  datatype Job = Job(text: string, number: nat, synthesis: Synthesis, prev: Option<nat>, settled: bool)

  /** What `enqueueTts` keeps between calls; no latest promise is one that has settled. */
  datatype Chain = Chain(ttsSeq: nat, lastTtsEmit: Option<nat>, ttsAll: seq<nat>)

  datatype Message = Audio(number: nat, data: string) | AudioEnd

  datatype Phase = Feeding | Flushed | Ended

  datatype State = State(
    buffer: string,
    jobs: seq<Job>,
    chain: Chain,
    sent: seq<Message>,
    phase: Phase,
    awaited: seq<nat>,      // the promises the flush waits for
    closed: bool,
    fed: string,
    handed: seq<string>)    // the pieces given to the synthesizer, before cleaning

  datatype Event =
    | Feed(delta: string)
    | Flush
    | Synthesized(number: nat, result: Synthesis)
    | Then(number: nat)     // what a promise waited for has settled, and its callback runs
    | Finish
    | Close

  const START: State := State("", [], Chain(0, None, []), [], Feeding, [], false, "", [])

  function Enqueue(c: Config, s: State, text: string): State {
    var t := s.(handed := s.handed + [text]);
    if c.clean(text) == "" then t
    else
      var p := |s.jobs|;
      t.(jobs := s.jobs + [Job(c.clean(text), s.chain.ttsSeq, Waiting, s.chain.lastTtsEmit, false)],
         chain := Chain(s.chain.ttsSeq + 1, Some(p), s.chain.ttsAll + [p]))
  }

  function EnqueueAll(c: Config, s: State, texts: seq<string>): State {
    if texts == [] then s
    else Enqueue(c, EnqueueAll(c, s, texts[..|texts| - 1]), texts[|texts| - 1])
  }

  predicate IsSettled(jobs: seq<Job>, p: nat) {
    p < |jobs| && jobs[p].settled
  }

  predicate Enabled(s: State, e: Event) {
    match e
    case Feed(_) => s.phase.Feeding?
    case Flush => s.phase.Feeding?
    case Synthesized(n, result) => n < |s.jobs| && s.jobs[n].synthesis.Waiting? && !result.Waiting?
    case Then(p) =>
      && p < |s.jobs| && !s.jobs[p].settled && !s.jobs[p].synthesis.Waiting?
      && (s.jobs[p].prev.Some? ==> IsSettled(s.jobs, s.jobs[p].prev.value))
    case Finish => s.phase.Flushed? && forall p <- s.awaited :: IsSettled(s.jobs, p)
    case Close => true
  }

  function Emit(s: State, m: Message): State {
    if s.closed then s else s.(sent := s.sent + [m])
  }

  function Step(c: Config, s: State, e: Event): State {
    if !Enabled(s, e) then s
    else match e
      case Feed(delta) =>
        if !c.enabled then s
        else
          var split := Extract(s.buffer + delta, MAX_LEN);
          EnqueueAll(c, s.(buffer := split.rest, fed := s.fed + delta), split.sentences)
      case Flush =>
        if !c.enabled then s
        else
          var t := if Trim(s.buffer) == "" then s else Enqueue(c, s.(buffer := ""), s.buffer);
          t.(phase := Flushed, awaited := t.chain.ttsAll)
      case Synthesized(n, result) =>
        s.(jobs := s.jobs[n := s.jobs[n].(synthesis := result)])
      case Then(p) =>
        var job := s.jobs[p];
        var t := if job.synthesis.Spoken? then Emit(s, Audio(job.number, job.synthesis.data)) else s;
        t.(jobs := s.jobs[p := job.(settled := true)])
      case Finish => Emit(s, AudioEnd).(phase := Ended)
      case Close => s.(closed := true)
  }

  function Run(c: Config, events: seq<Event>): State {
    if events == [] then START
    else Step(c, Run(c, events[..|events| - 1]), events[|events| - 1])
  }

  ghost predicate Reachable(c: Config, s: State) {
    exists events :: Run(c, events) == s
  }

  // ---------------------------------------------------------------------------
  // The pipeline object
  // ---------------------------------------------------------------------------

  lemma FlushIs(c: Config, s: State)
    requires s.phase.Feeding?
    ensures Step(c, s, Flush) ==
            if !c.enabled then s
            else
              var t := if Trim(s.buffer) == "" then s else Enqueue(c, s.(buffer := ""), s.buffer);
              t.(phase := Flushed, awaited := t.chain.ttsAll)
  {
  }

  lemma AlwaysEnds(s: string)
    ensures Ends(Whole(s).rest, MAX_LEN)
  {
  }

  class Pipeline {
    const config: Config
    var ttsBuffer: string
    var jobs: seq<Job>
    var ttsSeq: nat
    var lastTtsEmit: Option<nat>
    var ttsAll: seq<nat>
    var awaited: seq<nat>
    var closed: bool
    var sent: seq<Message>
    ghost var phase: Phase
    ghost var fed: string
    ghost var handed: seq<string>

    ghost function Now(): State
      reads this
    {
      State(ttsBuffer, jobs, Chain(ttsSeq, lastTtsEmit, ttsAll), sent, phase, awaited, closed, fed, handed)
    }

    constructor (config: Config)
      ensures this.config == config && Now() == START
    {
      this.config := config;
      ttsBuffer, jobs, closed, sent := "", [], false, [];
      ttsSeq, lastTtsEmit, ttsAll, awaited := 0, None, [], [];
      phase, fed, handed := Feeding, "", [];
    }

    method EnqueueTts(text: string)
      modifies this`jobs, this`handed, this`ttsSeq, this`lastTtsEmit, this`ttsAll
      ensures Now() == Enqueue(config, old(Now()), text)
    {
      var cleaned := config.clean(text);
      handed := handed + [text];
      if cleaned == "" {
        return;
      }
      var n := ttsSeq;
      ttsSeq := ttsSeq + 1;
      var prev := lastTtsEmit;
      var p := |jobs|;
      jobs := jobs + [Job(cleaned, n, Waiting, prev, false)];
      lastTtsEmit := Some(p);
      ttsAll := ttsAll + [p];
    }

    method EnqueueEach(sentences: seq<string>)
      modifies this`jobs, this`handed, this`ttsSeq, this`lastTtsEmit, this`ttsAll
      ensures Now() == EnqueueAll(config, old(Now()), sentences)
    {
      for i := 0 to |sentences|
        invariant Now() == EnqueueAll(config, old(Now()), sentences[..i])
      {
        assert sentences[..i + 1][..i] == sentences[..i];
        EnqueueTts(sentences[i]);
      }
      assert sentences[..|sentences|] == sentences;
    }

    method FeedTts(delta: string)
      requires phase.Feeding?
      modifies this
      ensures Now() == Step(config, old(Now()), Feed(delta))
    {
      if !config.enabled {
        return;
      }
      hide Extract, Whole, Ends, EnqueueAll;
      fed := fed + delta;
      AlwaysEnds(ttsBuffer + delta);
      var sentences, rest := ExtractSentences(ttsBuffer + delta, MAX_LEN);
      ttsBuffer := rest;
      EnqueueEach(sentences);
    }

    /** Up to the wait for everything that was enqueued. */
    method FlushTts()
      requires phase.Feeding?
      modifies this
      ensures Now() == Step(config, old(Now()), Flush)
    {
      hide Trim, Extract, Whole, Ends, EnqueueAll, Enqueue, Step;
      FlushIs(config, Now());
      if !config.enabled {
        return;
      }
      if Trim(ttsBuffer) != "" {
        var tail := ttsBuffer;
        ttsBuffer := "";
        EnqueueTts(tail);
      }
      awaited := ttsAll;
      phase := Flushed;
    }

    method SendMessage(m: Message)
      modifies this`sent
      ensures Now() == Emit(old(Now()), m)
    {
      if closed {
        return;
      }
      sent := sent + [m];
    }

    method OnSynthesized(n: nat, result: Synthesis)
      requires Enabled(Now(), Synthesized(n, result))
      modifies this`jobs
      ensures Now() == Step(config, old(Now()), Synthesized(n, result))
    {
      jobs := jobs[n := jobs[n].(synthesis := result)];
    }

    method OnClose()
      modifies this`closed
      ensures Now() == Step(config, old(Now()), Close)
    {
      closed := true;
    }

    /** The callback of a job's promise. */
    method OnThen(p: nat)
      requires Enabled(Now(), Then(p))
      modifies this`sent, this`jobs
      ensures Now() == Step(config, old(Now()), Then(p))
    {
      var job := jobs[p];
      if job.synthesis.Spoken? && !closed {
        SendMessage(Audio(job.number, job.synthesis.data));
      }
      jobs := jobs[p := job.(settled := true)];
    }

    /** Every promise the flush waits for has settled. */
    method OnAllDone()
      requires Enabled(Now(), Finish)
      modifies this`sent, this`phase
      ensures Now() == Step(config, old(Now()), Finish)
    {
      if !closed {
        SendMessage(AudioEnd);
      }
      phase := Ended;
    }
  }

  // ---------------------------------------------------------------------------
  // What holds in every reachable state
  // ---------------------------------------------------------------------------

  /** The audio of the jobs that succeeded, numbered by their place in the text. */
  function Recordings(jobs: seq<Job>): seq<Message> {
    if jobs == [] then []
    else
      var n := |jobs| - 1;
      Recordings(jobs[..n]) + if jobs[n].synthesis.Spoken? then [Audio(n, jobs[n].synthesis.data)] else []
  }

  function Texts(jobs: seq<Job>): seq<string> {
    seq(|jobs|, i requires 0 <= i < |jobs| => jobs[i].text)
  }

  function Cleaned(c: Config, handed: seq<string>): seq<string> {
    if handed == [] then []
    else
      var text := c.clean(handed[|handed| - 1]);
      Cleaned(c, handed[..|handed| - 1]) + if text == "" then [] else [text]
  }

  ghost predicate TextOk(c: Config, s: State) {
    && Ink(Flatten(s.handed)) + Ink(s.buffer) == Ink(s.fed)
    && Texts(s.jobs) == Cleaned(c, s.handed)
    && (s.phase.Feeding? ==> |s.buffer| <= MAX_LEN && Unfinished(s.buffer))
    && (s.phase.Feeding? ==> forall text <- s.handed :: Speakable(text))
    && (!s.phase.Feeding? ==> Ink(s.buffer) == "")
  }

  /** One more than the place of the last settled job. */
  function Turns(jobs: seq<Job>): (k: nat)
    ensures k <= |jobs| && (k > 0 ==> jobs[k - 1].settled) && forall i :: k <= i < |jobs| ==> !jobs[i].settled
  {
    if jobs == [] then 0
    else if jobs[|jobs| - 1].settled then |jobs|
    else Turns(jobs[..|jobs| - 1])
  }

  /** Every promise waits for the one before it, and all of them are collected. */
  ghost predicate Linked(jobs: seq<Job>, chain: Chain) {
    && (forall i :: 0 <= i < |jobs| ==> jobs[i].number == i && jobs[i].prev == if i == 0 then None else Some(i - 1))
    && chain.ttsSeq == |jobs|
    && chain.lastTtsEmit == (if jobs == [] then None else Some(|jobs| - 1))
    && |chain.ttsAll| == |jobs| && forall i :: 0 <= i < |jobs| ==> chain.ttsAll[i] == i
  }

  /** The jobs whose promises have settled are the first ones, and their syntheses are done. */
  ghost predicate SettledFirst(jobs: seq<Job>) {
    forall i :: 0 <= i < Turns(jobs) ==> jobs[i].settled && !jobs[i].synthesis.Waiting?
  }

  ghost predicate SentOk(s: State) {
    var due := Recordings(s.jobs[..Turns(s.jobs)]) + if s.phase.Ended? then [AudioEnd] else [];
    && Linked(s.jobs, s.chain) && SettledFirst(s.jobs)
    && (!s.phase.Feeding? ==> s.awaited == s.chain.ttsAll)
    && (s.phase.Ended? ==> Turns(s.jobs) == |s.jobs|)
    && (!s.closed ==> s.sent == due)
    && s.sent <= due
  }

  lemma EnqueueText(c: Config, s: State, text: string)
    requires Texts(s.jobs) == Cleaned(c, s.handed)
    ensures var t := Enqueue(c, s, text);
            && Texts(t.jobs) == Cleaned(c, t.handed)
            && Flatten(t.handed) == Flatten(s.handed) + text
            && t == s.(jobs := t.jobs, handed := t.handed, chain := t.chain)
            && s.jobs <= t.jobs && t.handed == s.handed + [text]
  {
    var t := Enqueue(c, s, text);
    assert t.handed[..|t.handed| - 1] == s.handed;
    assert t.jobs != s.jobs ==> Texts(t.jobs) == Texts(s.jobs) + [c.clean(text)];
  }

  lemma {:induction false} EnqueueAllText(c: Config, s: State, texts: seq<string>)
    requires Texts(s.jobs) == Cleaned(c, s.handed)
    ensures var t := EnqueueAll(c, s, texts);
            && Texts(t.jobs) == Cleaned(c, t.handed)
            && Flatten(t.handed) == Flatten(s.handed) + Flatten(texts)
            && t == s.(jobs := t.jobs, handed := t.handed, chain := t.chain)
            && s.jobs <= t.jobs && t.handed == s.handed + texts
  {
    hide Texts, Cleaned, Enqueue, Flatten;
    if texts == [] {
      assert s.handed + texts == s.handed;
      FlattenNothing();
      assert Flatten(s.handed) + "" == Flatten(s.handed);
    } else {
      var init, last := texts[..|texts| - 1], texts[|texts| - 1];
      var before := EnqueueAll(c, s, init);
      EnqueueAllText(c, s, init);
      EnqueueText(c, before, last);
      FlattenLast(texts);
      assert Flatten(s.handed) + Flatten(init) + last == Flatten(s.handed) + (Flatten(init) + last);
      assert s.handed + init + [last] == s.handed + texts;
    }
  }

  lemma FlattenNothing()
    ensures Flatten([]) == ""
  {
  }

  lemma FlattenLast(parts: seq<string>)
    requires parts != []
    ensures Flatten(parts) == Flatten(parts[..|parts| - 1]) + parts[|parts| - 1]
  {
  }

  lemma Regroup(handed: string, buffer: string, delta: string, sentences: string, rest: string)
    requires sentences + rest == buffer + delta
    ensures handed + sentences + rest == handed + buffer + delta
  {
    assert handed + sentences + rest == handed + (sentences + rest);
    assert handed + buffer + delta == handed + (buffer + delta);
  }

  /** What one feed does to the text, in equations on the characters that are spoken. */
  lemma FeedInk(handed: string, buffer: string, delta: string, fed: string, sentences: string, rest: string)
    requires Ink(handed) + Ink(buffer) == Ink(fed)
    requires Ink(sentences) + Ink(rest) == Ink(buffer + delta)
    ensures Ink(handed + sentences) + Ink(rest) == Ink(fed + delta)
  {
    hide Ink;
    InkJoin(handed, sentences);
    InkJoin(buffer, delta);
    InkJoin(fed, delta);
    Regroup(Ink(handed), Ink(buffer), Ink(delta), Ink(sentences), Ink(rest));
  }

  lemma FeedTextOk(c: Config, s: State, delta: string)
    requires c.enabled && TextOk(c, s) && s.phase.Feeding?
    ensures TextOk(c, Step(c, s, Feed(delta)))
  {
    hide Texts, Cleaned, Flatten, Ink, Speakable, Unfinished, Extract, EnqueueAll;
    var split := Extract(s.buffer + delta, MAX_LEN);
    ExtractSplits(s.buffer + delta, MAX_LEN);
    EnqueueAllText(c, s.(buffer := split.rest, fed := s.fed + delta), split.sentences);
    FeedInk(Flatten(s.handed), s.buffer, delta, s.fed, Flatten(split.sentences), split.rest);
    var t := Step(c, s, Feed(delta));
    assert t == EnqueueAll(c, s.(buffer := split.rest, fed := s.fed + delta), split.sentences);
    assert t.handed == s.handed + split.sentences;
  }

  lemma FlushTextOk(c: Config, s: State)
    requires c.enabled && TextOk(c, s) && s.phase.Feeding?
    ensures TextOk(c, Step(c, s, Flush))
  {
    hide Texts, Cleaned, Flatten, Ink, Speakable, Unfinished, Enqueue, Trim;
    var t := Step(c, s, Flush);
    NoInk("");
    if Trim(s.buffer) == "" {
      TrimKeepsInk(s.buffer);
      assert t == s.(phase := Flushed, awaited := s.chain.ttsAll);
    } else {
      EnqueueText(c, s.(buffer := ""), s.buffer);
      InkJoin(Flatten(s.handed), s.buffer);
      var enqueued := Enqueue(c, s.(buffer := ""), s.buffer);
      assert t == enqueued.(phase := Flushed, awaited := enqueued.chain.ttsAll);
      assert Ink(s.fed) + "" == Ink(s.fed);
    }
  }

  lemma {:induction false} TextHolds(c: Config, events: seq<Event>)
    ensures TextOk(c, Run(c, events))
  {
    hide Texts, Cleaned, Flatten, Ink, Speakable, Unfinished, Extract, EnqueueAll, Enqueue, Trim;
    if events == [] {
      NothingFed(c);
    } else {
      var s, e := Run(c, events[..|events| - 1]), events[|events| - 1];
      TextHolds(c, events[..|events| - 1]);
      if Enabled(s, e) && c.enabled && e.Feed? {
        FeedTextOk(c, s, e.delta);
      } else if Enabled(s, e) && c.enabled && e.Flush? {
        FlushTextOk(c, s);
      } else if Enabled(s, e) && e.Synthesized? {
        SameTexts(s.jobs, e.number, s.jobs[e.number].(synthesis := e.result));
      } else if Enabled(s, e) && e.Then? {
        SameTexts(s.jobs, e.number, s.jobs[e.number].(settled := true));
      }
    }
  }

  lemma NothingFed(c: Config)
    ensures TextOk(c, START)
  {
    assert Texts([]) == [];
  }

  lemma SameTexts(jobs: seq<Job>, n: nat, job: Job)
    requires n < |jobs| && job.text == jobs[n].text
    ensures Texts(jobs[n := job]) == Texts(jobs)
  {
  }

  lemma {:induction false} EnqueueAllHands(c: Config, s: State, texts: seq<string>)
    ensures var t := EnqueueAll(c, s, texts);
            s.jobs <= t.jobs && t == s.(jobs := t.jobs, handed := s.handed + texts, chain := t.chain)
  {
    if texts == [] {
      assert s.handed + texts == s.handed;
    } else {
      EnqueueAllHands(c, s, texts[..|texts| - 1]);
      assert s.handed + texts == s.handed + texts[..|texts| - 1] + [texts[|texts| - 1]];
    }
  }

  lemma TurnsAre(jobs: seq<Job>, k: nat)
    requires k <= |jobs|
    requires (forall i :: 0 <= i < k ==> jobs[i].settled) && forall i :: k <= i < |jobs| ==> !jobs[i].settled
    ensures Turns(jobs) == k
  {
    var turns := Turns(jobs);
    assert turns < |jobs| ==> !jobs[turns].settled;
    assert k < |jobs| ==> !jobs[k].settled;
  }

  lemma LinkedGrows(jobs: seq<Job>, chain: Chain, job: Job)
    requires Linked(jobs, chain)
    requires job.number == chain.ttsSeq && job.prev == chain.lastTtsEmit
    ensures Linked(jobs + [job], Chain(chain.ttsSeq + 1, Some(|jobs|), chain.ttsAll + [|jobs|]))
  {
  }

  lemma UnsettledLast(jobs: seq<Job>, job: Job)
    requires SettledFirst(jobs) && !job.settled
    ensures Turns(jobs + [job]) == Turns(jobs) && SettledFirst(jobs + [job])
    ensures (jobs + [job])[..Turns(jobs)] == jobs[..Turns(jobs)]
  {
    TurnsAre(jobs + [job], Turns(jobs));
  }

  lemma EnqueueSent(c: Config, s: State, text: string)
    requires SentOk(s) && s.phase.Feeding?
    ensures var t := Enqueue(c, s, text); SentOk(t) && t.phase.Feeding?
  {
    hide Recordings, Linked, SettledFirst, Turns;
    var job := Job(c.clean(text), s.chain.ttsSeq, Waiting, s.chain.lastTtsEmit, false);
    LinkedGrows(s.jobs, s.chain, job);
    UnsettledLast(s.jobs, job);
  }

  lemma {:induction false} EnqueueAllSent(c: Config, s: State, texts: seq<string>)
    requires SentOk(s) && s.phase.Feeding?
    ensures var t := EnqueueAll(c, s, texts); SentOk(t) && t.phase.Feeding?
  {
    hide SentOk, Enqueue;
    if texts != [] {
      EnqueueAllSent(c, s, texts[..|texts| - 1]);
      EnqueueSent(c, EnqueueAll(c, s, texts[..|texts| - 1]), texts[|texts| - 1]);
    }
  }

  lemma SynthesizedSent(c: Config, s: State, n: nat, result: Synthesis)
    requires SentOk(s) && Enabled(s, Synthesized(n, result))
    ensures SentOk(Step(c, s, Synthesized(n, result)))
  {
    hide Recordings;
    var t := Step(c, s, Synthesized(n, result));
    TurnsAre(t.jobs, Turns(s.jobs));
    assert t.jobs[..Turns(t.jobs)] == s.jobs[..Turns(s.jobs)];
  }

  /** Of all promises only one can run its callback: the first that has not settled. */
  lemma ThenIsNext(s: State, p: nat)
    requires SentOk(s) && Enabled(s, Then(p))
    ensures p == Turns(s.jobs)
  {
  }

  lemma RecordingsGrow(jobs: seq<Job>, more: seq<Job>, k: nat)
    requires k < |jobs| == |more| && jobs[..k] == more[..k] && jobs[k].synthesis == more[k].synthesis
    ensures Recordings(more[..k + 1]) ==
            Recordings(jobs[..k]) + if jobs[k].synthesis.Spoken? then [Audio(k, jobs[k].synthesis.data)] else []
  {
    assert more[..k + 1][..k] == jobs[..k];
  }

  lemma LinkedStays(jobs: seq<Job>, chain: Chain, p: nat, job: Job)
    requires Linked(jobs, chain) && p < |jobs| && job.number == jobs[p].number && job.prev == jobs[p].prev
    ensures Linked(jobs[p := job], chain)
  {
  }

  lemma SettledNext(jobs: seq<Job>)
    requires SettledFirst(jobs) && Turns(jobs) < |jobs| && !jobs[Turns(jobs)].synthesis.Waiting?
    ensures var k := Turns(jobs); var more := jobs[k := jobs[k].(settled := true)];
            SettledFirst(more) && Turns(more) == k + 1
  {
    var k := Turns(jobs);
    TurnsAre(jobs[k := jobs[k].(settled := true)], k + 1);
  }

  lemma ThenSent(c: Config, s: State, p: nat)
    requires SentOk(s) && Enabled(s, Then(p))
    ensures SentOk(Step(c, s, Then(p))) && Turns(Step(c, s, Then(p)).jobs) == Turns(s.jobs) + 1
  {
    ThenIsNext(s, p);
    assert s.jobs[p].number == p;
    hide Recordings, Linked, SettledFirst, Turns, Extract, EnqueueAll, Enqueue, Trim;
    var t := Step(c, s, Then(p));
    LinkedStays(s.jobs, s.chain, p, t.jobs[p]);
    SettledNext(s.jobs);
    RecordingsGrow(s.jobs, t.jobs, p);
  }

  /** All promises have been collected, so when those have settled every job has had its turn. */
  lemma FinishSent(c: Config, s: State)
    requires SentOk(s) && Enabled(s, Finish)
    ensures Turns(s.jobs) == |s.jobs| && SentOk(Step(c, s, Finish))
  {
    hide Recordings;
    forall i | 0 <= i < |s.jobs| ensures s.jobs[i].settled {
      assert s.awaited[i] in s.awaited;
    }
    TurnsAre(s.jobs, |s.jobs|);
  }

  lemma FlushSent(c: Config, s: State)
    requires SentOk(s) && s.phase.Feeding? && c.enabled
    ensures SentOk(Step(c, s, Flush))
  {
    hide Recordings, Trim, Enqueue, Linked, SettledFirst;
    EnqueueSent(c, s.(buffer := ""), s.buffer);
  }

  lemma FeedSent(c: Config, s: State, delta: string)
    requires SentOk(s) && s.phase.Feeding? && c.enabled
    ensures SentOk(Step(c, s, Feed(delta)))
  {
    hide Recordings, Extract, EnqueueAll, Linked, SettledFirst;
    var split := Extract(s.buffer + delta, MAX_LEN);
    EnqueueAllSent(c, s.(buffer := split.rest, fed := s.fed + delta), split.sentences);
  }

  lemma StepSentOk(c: Config, s: State, e: Event)
    requires SentOk(s)
    ensures SentOk(Step(c, s, e))
  {
    hide SentOk, Extract, Trim, EnqueueAll, Enqueue;
    if Enabled(s, e) {
      match e {
        case Feed(delta) =>
          if c.enabled {
            FeedSent(c, s, delta);
          }
        case Flush =>
          if c.enabled {
            FlushSent(c, s);
          }
        case Synthesized(n, result) => SynthesizedSent(c, s, n, result);
        case Then(p) => ThenSent(c, s, p);
        case Finish => FinishSent(c, s);
        case Close => CloseSent(c, s);
      }
    }
  }

  lemma CloseSent(c: Config, s: State)
    requires SentOk(s)
    ensures SentOk(Step(c, s, Close))
  {
  }

  lemma {:induction false} SentHolds(c: Config, events: seq<Event>)
    ensures SentOk(Run(c, events))
  {
    hide Step, SentOk;
    if events == [] {
      assert SentOk(START) by {
        NothingSent();
      }
    } else {
      SentHolds(c, events[..|events| - 1]);
      StepSentOk(c, Run(c, events[..|events| - 1]), events[|events| - 1]);
    }
  }

  lemma NothingSent()
    ensures SentOk(START)
  {
  }

  /**
   At any moment of any run, what has been handed on for speaking and what is still
   buffered are together what was fed, save for white space; the buffer is short and
   holds no finished sentence.
   */
  lemma NothingLost(c: Config, s: State)
    requires Reachable(c, s)
    ensures Ink(Flatten(s.handed)) + Ink(s.buffer) == Ink(s.fed)
    ensures s.phase.Feeding? ==> |s.buffer| <= MAX_LEN && Unfinished(s.buffer)
    ensures s.phase.Feeding? ==> forall text <- s.handed :: Speakable(text)
    ensures Texts(s.jobs) == Cleaned(c, s.handed)
  {
    hide Texts, Cleaned, Flatten, Ink, Speakable, Unfinished, Run;
    var events :| Run(c, events) == s;
    TextHolds(c, events);
  }

  /** However the reply was cut into pieces, after the flush the same text has been handed on. */
  lemma AnyChunking(c: Config, s: State, t: State)
    requires Reachable(c, s) && Reachable(c, t)
    requires !s.phase.Feeding? && !t.phase.Feeding? && s.fed == t.fed
    ensures Ink(Flatten(s.handed)) == Ink(s.fed) == Ink(Flatten(t.handed))
  {
    hide Texts, Cleaned, Flatten, Ink, Speakable, Unfinished, Run;
    var e, f :| Run(c, e) == s && Run(c, f) == t;
    TextHolds(c, e);
    TextHolds(c, f);
  }

  /** In the order of the text, with nothing after the end message. */
  ghost predicate InOrder(sent: seq<Message>) {
    && (forall i, j :: 0 <= i < j < |sent| && sent[j].Audio? ==> sent[i].Audio? && sent[i].number < sent[j].number)
    && (forall i :: 0 <= i < |sent| - 1 ==> sent[i].Audio?)
  }

  lemma {:induction false} RecordingsInOrder(jobs: seq<Job>)
    ensures InOrder(Recordings(jobs))
    ensures forall m <- Recordings(jobs) :: m.Audio? && m.number < |jobs|
    ensures forall n: nat, data :: Audio(n, data) in Recordings(jobs) <==> n < |jobs| && jobs[n].synthesis == Spoken(data)
  {
    if jobs == [] {
      assert Recordings(jobs) == [];
    } else {
      var n := |jobs| - 1;
      RecordingsInOrder(jobs[..n]);
      var before, all := Recordings(jobs[..n]), Recordings(jobs);
      forall i | 0 <= i < |before| ensures all[i].Audio? && all[i].number < n {
        assert before[i] in before;
      }
    }
  }

  /** In every run the settled promises are those of the first jobs, and only the next one can settle. */
  lemma SettledInOrder(c: Config, s: State, i: nat, j: nat)
    requires Reachable(c, s) && i < j < |s.jobs|
    ensures s.jobs[j].settled ==> s.jobs[i].settled
    ensures Enabled(s, Then(j)) ==> s.jobs[i].settled
  {
    hide Run, Recordings;
    var events :| Run(c, events) == s;
    SentHolds(c, events);
    if Enabled(s, Then(j)) {
      ThenIsNext(s, j);
    }
  }

  /** Audio goes out in strictly increasing order, whatever order the syntheses finish in. */
  lemma SentInOrder(c: Config, s: State)
    requires Reachable(c, s)
    ensures InOrder(s.sent)
  {
    hide Run, Linked, SettledFirst;
    var events :| Run(c, events) == s;
    SentHolds(c, events);
    var recorded := Recordings(s.jobs[..Turns(s.jobs)]);
    RecordingsInOrder(s.jobs[..Turns(s.jobs)]);
    var all := recorded + if s.phase.Ended? then [AudioEnd] else [];
    assert forall i :: 0 <= i < |s.sent| ==> s.sent[i] == all[i];
    assert forall i :: 0 <= i < |recorded| ==> all[i] == recorded[i] && recorded[i] in recorded;
  }

  /**
   While the client stays connected it gets each successful synthesis whose promise has
   settled, and no other; once the end message is out, that is every successful synthesis.
   */
  lemma EachSentOnce(c: Config, s: State, n: nat, data: string)
    requires Reachable(c, s) && !s.closed
    ensures Audio(n, data) in s.sent <==> IsSettled(s.jobs, n) && s.jobs[n].synthesis == Spoken(data)
    ensures AudioEnd in s.sent <==> s.phase.Ended?
    ensures s.phase.Ended? ==> (forall job <- s.jobs :: job.settled) && s.sent[|s.sent| - 1] == AudioEnd
  {
    hide Run;
    var events :| Run(c, events) == s;
    SentHolds(c, events);
    RecordingsInOrder(s.jobs[..Turns(s.jobs)]);
  }

  function RunFrom(c: Config, s: State, events: seq<Event>): State
    decreases |events|
  {
    hide Step;
    if events == [] then s else RunFrom(c, Step(c, s, events[0]), events[1..])
  }

  /** The callbacks from `p` up to `end`, and the end of the flush. */
  function DrainEvents(p: nat, end: nat): seq<Event>
    requires p <= end
    decreases end - p
  {
    if p == end then [Finish] else [Then(p)] + DrainEvents(p + 1, end)
  }

  lemma NextCanRun(s: State)
    requires SentOk(s) && Turns(s.jobs) < |s.jobs| && !s.jobs[Turns(s.jobs)].synthesis.Waiting?
    ensures Enabled(s, Then(Turns(s.jobs)))
  {
  }

  lemma AllSettled(c: Config, s: State)
    requires SentOk(s) && s.phase.Flushed? && Turns(s.jobs) == |s.jobs|
    ensures Enabled(s, Finish)
    ensures var t := Step(c, s, Finish); t.phase.Ended? && (!s.closed ==> t.sent == Recordings(s.jobs) + [AudioEnd])
  {
    hide Recordings;
    assert s.jobs[..|s.jobs|] == s.jobs;
  }

  /** The same but for what has settled. */
  ghost predicate SameSpeech(a: seq<Job>, b: seq<Job>) {
    |a| == |b| && forall i :: 0 <= i < |a| ==> a[i].(settled := true) == b[i].(settled := true)
  }

  lemma {:induction false} SameRecordings(a: seq<Job>, b: seq<Job>)
    requires SameSpeech(a, b)
    ensures Recordings(a) == Recordings(b)
  {
    if a != [] {
      SameRecordings(a[..|a| - 1], b[..|b| - 1]);
      assert a[|a| - 1].synthesis == a[|a| - 1].(settled := true).synthesis;
    }
  }

  lemma {:induction false} ThensDrain(c: Config, s: State)
    requires SentOk(s) && s.phase.Flushed?
    requires forall i :: 0 <= i < |s.jobs| ==> !s.jobs[i].synthesis.Waiting?
    ensures var t := RunFrom(c, s, DrainEvents(Turns(s.jobs), |s.jobs|));
            t.phase.Ended? && (!s.closed ==> t.sent == Recordings(s.jobs) + [AudioEnd])
    decreases |s.jobs| - Turns(s.jobs)
  {
    hide SentOk, Recordings, Turns;
    var k := Turns(s.jobs);
    if k == |s.jobs| {
      AllSettled(c, s);
      assert RunFrom(c, s, [Finish]) == Step(c, s, Finish);
    } else {
      NextCanRun(s);
      ThenSent(c, s, k);
      var t := Step(c, s, Then(k));
      var events := DrainEvents(k, |s.jobs|);
      assert events[0] == Then(k) && events[1..] == DrainEvents(k + 1, |s.jobs|);
      ThensDrain(c, t);
      SameRecordings(s.jobs, t.jobs);
    }
  }

  /** When all syntheses are done, the callbacks that are due bring every recording and the end message. */
  lemma EndComes(c: Config, s: State)
    requires Reachable(c, s) && s.phase.Flushed?
    requires forall i :: 0 <= i < |s.jobs| ==> !s.jobs[i].synthesis.Waiting?
    ensures var t := RunFrom(c, s, DrainEvents(Turns(s.jobs), |s.jobs|));
            t.phase.Ended? && (!s.closed ==> t.sent == Recordings(s.jobs) + [AudioEnd])
  {
    hide Run, SentOk;
    var events :| Run(c, events) == s;
    SentHolds(c, events);
    ThensDrain(c, s);
  }

  lemma DotMatches()
    ensures Exec("3.") == Some(Match(1, 2, 2)) && Exec("").None?
  {
    var s := "3.";
    assert MatchAt(s, 0).None?;
    assert SpacesEnd(s, 2) == 2;
    assert MarksEnd(s, 1) == 2;
    assert ExecFrom(s, 1) == Some(Match(1, 2, 2));
  }

  lemma DotTrimmed()
    ensures Trim("3.") == "3."
  {
    hide MatchAt, ExecFrom, MarksEnd, SpacesEnd;
    var s := "3.";
    assert !IsSpace(s[0]) && !IsSpace(s[1]);
    assert TrimStart(s) == s;
    assert TrimEnd(s) == s;
  }

  lemma DotEndsPiece()
    ensures Extract("3.", MAX_LEN) == Split(["3."], "")
  {
    hide Exec, Trim, TrimStart, LastBlank, Whole, Chop;
    DotMatches();
    DotTrimmed();
    WholeStep("3.");
    assert "3."[..2] == "3." && "3."[2..] == "";
    WholeStep("");
    ChopStep("", MAX_LEN);
    assert ["3."] + [] == ["3."];
    assert Whole("3.") == Split(["3."], "");
    assert Before(["3."], Split([], "")) == Split(["3."], "");
  }

  lemma DotInside()
    ensures Extract("3.14", MAX_LEN) == Split([], "3.14")
  {
    var s := "3.14";
    assert MatchAt(s, 0).None?;
    assert MarksEnd(s, 1) == 2;
    assert MatchAt(s, 1).None?;
    assert MatchAt(s, 2).None? && MatchAt(s, 3).None?;
    assert ExecFrom(s, 2).None?;
    WholeStep(s);
    ChopStep(s, MAX_LEN);
  }

  lemma FeedHands(c: Config, s: State, delta: string)
    requires c.enabled && s.phase.Feeding?
    ensures var t, split := Step(c, s, Feed(delta)), Extract(s.buffer + delta, MAX_LEN);
            && t.handed == s.handed + split.sentences && t.buffer == split.rest
            && t.fed == s.fed + delta && t.phase.Feeding?
  {
    hide Extract, EnqueueAll;
    var split := Extract(s.buffer + delta, MAX_LEN);
    EnqueueAllHands(c, s.(buffer := split.rest, fed := s.fed + delta), split.sentences);
  }

  /** Where a delta ends can decide what is spoken as one piece: a number is torn at its point. */
  lemma ChunkingShows(c: Config)
    requires c.enabled
    ensures Run(c, [Feed("3."), Feed("14")]).fed == Run(c, [Feed("3.14")]).fed
    ensures Run(c, [Feed("3."), Feed("14")]).handed != Run(c, [Feed("3.14")]).handed
  {
    hide Extract, EnqueueAll, Step, Run;
    DotEndsPiece();
    DotInside();
    var once, first := Run(c, [Feed("3.14")]), Run(c, [Feed("3.")]);
    RunOneMore(c, [], Feed("3.14"));
    RunOneMore(c, [], Feed("3."));
    RunOneMore(c, [Feed("3.")], Feed("14"));
    assert [] + [Feed("3.14")] == [Feed("3.14")] && [] + [Feed("3.")] == [Feed("3.")];
    assert [Feed("3.")] + [Feed("14")] == [Feed("3."), Feed("14")];
    FeedHands(c, START, "3.14");
    FeedHands(c, START, "3.");
    FeedHands(c, first, "14");
    assert "" + "3.14" == "3.14" && "" + "3." == "3." && "3." + "14" == "3.14";
    assert once.handed == [] && first.handed == ["3."];
  }

  lemma RunOneMore(c: Config, events: seq<Event>, e: Event)
    ensures Run(c, []) == START && Run(c, events + [e]) == Step(c, Run(c, events), e)
  {
    assert (events + [e])[..|events|] == events;
  }
}
