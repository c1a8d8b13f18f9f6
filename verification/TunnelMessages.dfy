/**
 The frames that cross the tunnel between the cloud proxy and the home server,
 restricted to HTTP relaying, and the grammar of the frames answering one request.
 */
module TunnelMessages {
  import opened Option
  import opened Base64

  type Id = string

  datatype Head = Head(status: int, headers: map<string, string>)

  datatype Request = Request(verb: string, path: string, headers: map<string, string>, body: Option<string>)

  /** Frames the proxy sends to the home. */
  datatype ToHome =
    | HttpRequest(id: Id, request: Request)
    | StreamCancel(id: Id)

  /** Frames the home sends to the proxy. */
  datatype ToProxy =
    | HttpResponse(id: Id, head: Head, body: string, base64: bool)
    | StreamStart(id: Id, head: Head)
    | StreamChunk(id: Id, data: string)
    | StreamEnd(id: Id, error: Option<string>)

  /** The frames of one request, in the order they were sent. */
  function Answers(frames: seq<ToProxy>, id: Id): seq<ToProxy> {
    if frames == [] then []
    else
      var last := frames[|frames| - 1];
      Answers(frames[..|frames| - 1], id) + if last.id == id then [last] else []
  }

  function Demands(frames: seq<ToHome>, id: Id): seq<ToHome> {
    if frames == [] then []
    else
      var last := frames[|frames| - 1];
      Demands(frames[..|frames| - 1], id) + if last.id == id then [last] else []
  }

  /** The bytes carried by the chunks of a frame sequence. */
  function Payload(frames: seq<ToProxy>): Bytes {
    if frames == [] then []
    else
      var last := frames[|frames| - 1];
      Payload(frames[..|frames| - 1]) + if last.StreamChunk? then Decode(last.data) else []
  }

  /** `start chunk*`. */
  predicate Started(frames: seq<ToProxy>) {
    && |frames| >= 1
    && frames[0].StreamStart?
    && forall k :: 1 <= k < |frames| ==> frames[k].StreamChunk?
  }

  /** Nothing, one response, `end(error)`, or `start chunk* (end | end(error))?`. */
  predicate InGrammar(frames: seq<ToProxy>) {
    || frames == []
    || (|frames| == 1 && frames[0].HttpResponse?)
    || (|frames| == 1 && frames[0].StreamEnd? && frames[0].error.Some?)
    || Started(frames)
    || (|frames| >= 2 && frames[|frames| - 1].StreamEnd? && Started(frames[..|frames| - 1]))
  }

  lemma AnswersAppend(frames: seq<ToProxy>, f: ToProxy, id: Id)
    ensures Answers(frames + [f], id) == Answers(frames, id) + if f.id == id then [f] else []
  {
    assert (frames + [f])[..|frames|] == frames;
  }

  lemma DemandsAppend(frames: seq<ToHome>, f: ToHome, id: Id)
    ensures Demands(frames + [f], id) == Demands(frames, id) + if f.id == id then [f] else []
  {
    assert (frames + [f])[..|frames|] == frames;
  }

  lemma AnswersTaken(frames: seq<ToProxy>, k: nat, id: Id)
    requires k < |frames|
    ensures Answers(frames[..k + 1], id) == Answers(frames[..k], id) + if frames[k].id == id then [frames[k]] else []
  {
    assert frames[..k + 1] == frames[..k] + [frames[k]];
    AnswersAppend(frames[..k], frames[k], id);
  }

  lemma DemandsTaken(frames: seq<ToHome>, k: nat, id: Id)
    requires k < |frames|
    ensures Demands(frames[..k + 1], id) == Demands(frames[..k], id) + if frames[k].id == id then [frames[k]] else []
  {
    assert frames[..k + 1] == frames[..k] + [frames[k]];
    DemandsAppend(frames[..k], frames[k], id);
  }

  lemma {:induction false} AnswersPrefix(frames: seq<ToProxy>, k: nat, id: Id)
    requires k <= |frames|
    ensures Answers(frames[..k], id) <= Answers(frames, id)
    decreases |frames| - k
  {
    if k == |frames| {
      assert frames[..k] == frames;
    } else {
      AnswersTaken(frames, k, id);
      AnswersPrefix(frames, k + 1, id);
    }
  }

  lemma {:induction false} DemandsPrefix(frames: seq<ToHome>, k: nat, id: Id)
    requires k <= |frames|
    ensures Demands(frames[..k], id) <= Demands(frames, id)
    decreases |frames| - k
  {
    if k == |frames| {
      assert frames[..k] == frames;
    } else {
      DemandsTaken(frames, k, id);
      DemandsPrefix(frames, k + 1, id);
    }
  }

  lemma PayloadAppend(frames: seq<ToProxy>, f: ToProxy)
    ensures Payload(frames + [f]) == Payload(frames) + if f.StreamChunk? then Decode(f.data) else []
  {
    assert (frames + [f])[..|frames|] == frames;
  }

  lemma {:induction false} PayloadPrefix(frames: seq<ToProxy>, k: nat)
    requires k <= |frames|
    ensures Payload(frames[..k]) <= Payload(frames)
    decreases |frames| - k
  {
    if k == |frames| {
      assert frames[..k] == frames;
    } else {
      assert frames[..k + 1] == frames[..k] + [frames[k]];
      PayloadAppend(frames[..k], frames[k]);
      PayloadPrefix(frames, k + 1);
    }
  }

  /** Where in a grammatical sequence each kind of frame may stand. */
  lemma GrammarPositions(frames: seq<ToProxy>, k: nat)
    requires InGrammar(frames) && k < |frames|
    ensures frames[k].HttpResponse? || frames[k].StreamStart? ==> k == 0
    ensures frames[k].StreamChunk? ==> k >= 1 && Started(frames[..k]) && Started(frames[..k + 1])
    ensures frames[k].StreamEnd? ==> k == |frames| - 1 && (k == 0 || Started(frames[..k]))
    ensures frames[k].StreamStart? ==> Started(frames[..1])
  {
  }
}
