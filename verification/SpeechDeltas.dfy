/**
 When the pieces that are spoken do not depend on how the reply was cut into deltas.
 */
module SpeechDeltas {
  import opened Option
  import opened JsText
  import opened Speech
  import opened SpeechPipeline
  import opened SpeechChunks

  /** The pieces of a text fed at once, and what is left of it. */
  function Fed(s: string): Split {
    Extract(s, MAX_LEN)
  }

  function Cut(s: string): Split {
    Chop(s, MAX_LEN)
  }

  lemma FedIs(s: string)
    ensures Fed(s) == Before(Whole(s).sentences, Cut(Whole(s).rest))
  {
  }

  lemma CutShort(s: string)
    requires |s| <= MAX_LEN
    ensures Cut(s) == Split([], s)
  {
  }

  lemma CutLong(s: string)
    requires |s| > MAX_LEN
    ensures var at := CutAt(s, MAX_LEN);
            && 0 < at <= MAX_LEN && |TrimStart(s[at..])| < |s|
            && Cut(s) == Push(Trim(s[..at]), Cut(TrimStart(s[at..])))
  {
    hide Trim, TrimStart, LastBlank, Chop;
    ChopStep(s, MAX_LEN);
  }

  lemma FedUnfinished(s: string)
    requires Exec(s).None?
    ensures Fed(s) == Cut(s)
  {
    hide Exec, Chop;
    ExecIsLeftmost(s);
    NothingMore(s);
    assert [] + Cut(s).sentences == Cut(s).sentences;
  }

  // ---------------------------------------------------------------------------
  // The sentences of two parts, with what is left
  // ---------------------------------------------------------------------------

  /** What is left to look at when the first part's sentences have been taken. */
  function Remaining(s: string, t: string): string {
    if s != "" && Whole(s).rest == "" then TrimStart(t) else Whole(s).rest + t
  }

  lemma LeadIsTrimmed(t: string)
    ensures t[Lead(t)..] == TrimStart(t)
  {
    assert t == t[..Lead(t)] + t[Lead(t)..];
    TrimStartSkips(t[..Lead(t)], t[Lead(t)..]);
    TrimStartStep(t[Lead(t)..]);
  }

  lemma {:induction false} WholeInTwo(s: string, t: string)
    requires t != "" && (IsSpace(t[0]) || !EndsSentence(s))
    ensures Whole(s + t) == Before(Whole(s).sentences, Whole(Remaining(s, t)))
    decreases |s|
  {
    hide Exec, Trim, Whole, Matches, EndsSentence, Lead, TrimStart;
    WholeStep(s);
    if Exec(s).None? {
      assert Remaining(s, t) == s + t;
      assert [] + Whole(s + t).sentences == Whole(s + t).sentences;
    } else {
      ExecIsLeftmost(s);
      var m := Exec(s).value;
      MatchFits(s, m);
      if m.end == |s| {
        MatchAtEnd(s, m);
      }
      FirstSentence(s, t);
      var piece, next := Trim(s[..m.end]), s[m.next..];
      if m.next < |s| {
        assert (s + t)[m.next..] == next + t;
        SuffixUnended(s, m.next);
        WholeInTwo(next, t);
        PushAhead(piece, Whole(next), Whole(Remaining(next, t)));
      } else {
        LeadIsTrimmed(t);
        assert (s + t)[|s| + Lead(t)..] == TrimStart(t);
        NothingIsWhole();
        assert next == "";
        PushAhead(piece, Split([], ""), Whole(TrimStart(t)));
        assert Before([], Whole(TrimStart(t))) == Whole(TrimStart(t)) by {
          assert [] + Whole(TrimStart(t)).sentences == Whole(TrimStart(t)).sentences;
        }
      }
    }
  }

  lemma NothingIsWhole()
    ensures Whole("") == Split([], "")
  {
    ExecIsLeftmost("");
  }

  lemma SuffixUnended(s: string, k: nat)
    requires k < |s|
    ensures EndsSentence(s[k..]) ==> EndsSentence(s)
  {
  }

  lemma PushAhead(piece: string, first: Split, then_: Split)
    ensures Push(piece, Before(first.sentences, then_)) == Before(Push(piece, first).sentences, then_)
  {
    assert [piece] + (first.sentences + then_.sentences) == [piece] + first.sentences + then_.sentences;
  }

  /** White space in front of a text with a finished sentence plays no part. */
  lemma WholeSkips(blanks: string, t: string)
    requires AllSpaces(blanks) && Exec(t).Some?
    ensures Whole(blanks + t) == Whole(t)
  {
    hide Exec, Trim, Whole, AllSpaces, Matches;
    var s, n := blanks + t, |blanks|;
    MatchAhead(blanks, t);
    WholeStep(t);
    WholeStep(s);
    var m := Exec(t).value;
    MatchFits(t, m);
    assert s[..m.end + n] == blanks + t[..m.end];
    TrimSkips(blanks, t[..m.end]);
    assert s[m.next + n..] == t[m.next..];
  }

  // ---------------------------------------------------------------------------
  // Cutting by force
  // ---------------------------------------------------------------------------

  lemma {:induction false} LastBlankInPart(s: string, t: string, upTo: nat)
    requires upTo < |s|
    ensures LastBlank(s + t, upTo) == LastBlank(s, upTo)
    decreases upTo
  {
    if s[upTo] != ' ' && upTo > 0 {
      LastBlankInPart(s, t, upTo - 1);
    }
  }

  /** A text that is too long is cut the same way when more of it comes. */
  lemma CutStays(s: string, t: string)
    requires |s| > MAX_LEN
    ensures var at := CutAt(s, MAX_LEN);
            && CutAt(s + t, MAX_LEN) == at && 0 < at < |s|
            && (s + t)[..at] == s[..at] && (s + t)[at..] == s[at..] + t
  {
    LastBlankInPart(s, t, MAX_LEN);
  }

  /** What is left to cut when the first part has been cut. */
  function LeftToCut(s: string, t: string): string {
    if |s| > MAX_LEN && Cut(s).rest == "" then TrimStart(t) else Cut(s).rest + t
  }

  lemma TrimStartOfTwo(x: string, t: string)
    ensures TrimStart(x + t) == if TrimStart(x) == "" then TrimStart(t) else TrimStart(x) + t
  {
    hide TrimStart;
    if TrimStart(x) == "" {
      TrimBlank(x);
      TrimStartSkips(x, t);
    } else {
      TrimStartJoin(x, t);
    }
  }

  lemma CutOnce(s: string, t: string)
    requires |s| > MAX_LEN
    ensures var at := CutAt(s, MAX_LEN);
            0 < at < |s| &&
            var next := TrimStart(s[at..]);
            && |next| < |s|
            && Cut(s) == Push(Trim(s[..at]), Cut(next))
            && Cut(s + t) == Push(Trim(s[..at]), Cut(if next == "" then TrimStart(t) else next + t))
  {
    hide Trim, TrimStart, LastBlank, Chop, CutAt;
    CutLong(s);
    CutLong(s + t);
    CutStays(s, t);
    TrimStartOfTwo(s[CutAt(s, MAX_LEN)..], t);
  }

  lemma PushTwice(piece: string, first: Split, last: seq<string>, both: Split)
    requires both.sentences == first.sentences + last
    ensures Push(piece, both).sentences == Push(piece, first).sentences + last
  {
    assert [piece] + (first.sentences + last) == [piece] + first.sentences + last;
  }

  lemma {:induction false} CutInTwo(s: string, t: string)
    ensures Cut(s + t).sentences == Cut(s).sentences + Cut(LeftToCut(s, t)).sentences
    decreases |s|
  {
    hide Trim, TrimStart, LastBlank, Chop, CutAt, Push;
    if |s| <= MAX_LEN {
      CutShort(s);
      assert [] + Cut(s + t).sentences == Cut(s + t).sentences;
    } else {
      CutOnce(s, t);
      var at := CutAt(s, MAX_LEN);
      var piece, next := Trim(s[..at]), TrimStart(s[at..]);
      CutShort("");
      PushRest(piece, Cut(next));
      if next == "" {
        assert [] + Cut(TrimStart(t)).sentences == Cut(TrimStart(t)).sentences;
        PushTwice(piece, Cut(next), Cut(TrimStart(t)).sentences, Cut(TrimStart(t)));
      } else {
        CutInTwo(next, t);
        if |next| <= MAX_LEN {
          CutShort(next);
        }
        assert LeftToCut(s, t) == LeftToCut(next, t);
        PushTwice(piece, Cut(next), Cut(LeftToCut(next, t)).sentences, Cut(next + t));
      }
    }
  }

  lemma PushRest(piece: string, split: Split)
    ensures Push(piece, split).rest == split.rest
  {
  }

  // ---------------------------------------------------------------------------
  // The first part does not end a sentence, or white space follows
  // ---------------------------------------------------------------------------

  /** The pieces of a text fed in two parts. */
  function FedTwice(s: string, t: string): seq<string> {
    Fed(s).sentences + Fed(Fed(s).rest + t).sentences
  }

  lemma FedTwiceIs(s: string, t: string)
    ensures var cut := Cut(Whole(s).rest);
            FedTwice(s, t) == Whole(s).sentences + (cut.sentences + Fed(cut.rest + t).sentences)
  {
    hide Whole, Chop;
    FedIs(s);
    var cut := Cut(Whole(s).rest);
    assert Whole(s).sentences + cut.sentences + Fed(cut.rest + t).sentences
        == Whole(s).sentences + (cut.sentences + Fed(cut.rest + t).sentences);
  }

  lemma FedOnceIs(s: string, t: string)
    requires t != "" && (IsSpace(t[0]) || !EndsSentence(s))
    ensures Fed(s + t).sentences == Whole(s).sentences + Fed(Remaining(s, t)).sentences
  {
    hide Whole, Chop, EndsSentence, Remaining;
    WholeInTwo(s, t);
    FedIs(s + t);
    FedIs(Remaining(s, t));
    var whole, left := Whole(s), Whole(Remaining(s, t));
    assert whole.sentences + left.sentences + Cut(left.rest).sentences
        == whole.sentences + (left.sentences + Cut(left.rest).sentences);
  }

  /** Leading white space does not move the forced cuts of the text. */
  predicate SameCuts(t: string) {
    Cut(t).sentences == Cut(TrimStart(t)).sentences
  }

  lemma BlanksOff(t: string)
    ensures AllSpaces(t[..|t| - |TrimStart(t)|]) && t == t[..|t| - |TrimStart(t)|] + TrimStart(t)
  {
  }

  lemma FedSkips(blanks: string, t: string)
    requires AllSpaces(blanks) && Exec(blanks + t).Some?
    ensures Exec(t).Some? && Fed(blanks + t) == Fed(t)
  {
    hide Exec, Whole, Chop, AllSpaces;
    MatchAhead(blanks, t);
    WholeSkips(blanks, t);
    FedIs(blanks + t);
    FedIs(t);
  }

  lemma SwallowedIff(t: string)
    ensures Fed(t).sentences == Fed(TrimStart(t)).sentences <==> Exec(t).Some? || SameCuts(t)
  {
    hide Exec, Whole, Chop, AllSpaces, TrimStart, Fed;
    var blanks := t[..|t| - |TrimStart(t)|];
    BlanksOff(t);
    if Exec(t).Some? {
      FedSkips(blanks, TrimStart(t));
    } else {
      MatchAhead(blanks, TrimStart(t));
      FedUnfinished(t);
      FedUnfinished(TrimStart(t));
    }
  }

  lemma TailUnfinished(s: string, t: string)
    requires Exec(s + t).None?
    ensures Exec(t).None?
  {
    hide Exec, Matches;
    ExecIsLeftmost(s + t);
    ExecIsLeftmost(t);
    PartOfUnfinished(s + t, |s|, |s + t|);
    assert (s + t)[|s|..|s + t|] == t;
  }

  lemma {:induction false} CutRestIsTail(s: string)
    ensures |Cut(s).rest| <= |s| && Cut(s).rest == s[|s| - |Cut(s).rest|..]
    decreases |s|
  {
    hide Trim, TrimStart, LastBlank, Chop, CutAt;
    if |s| <= MAX_LEN {
      CutShort(s);
    } else {
      CutLong(s);
      CutRestIsTail(TrimStart(s[CutAt(s, MAX_LEN)..]));
    }
  }

  lemma RestUnfinished(s: string, t: string)
    requires Exec(s + t).None?
    ensures Exec(Cut(s).rest + t).None?
  {
    hide Exec, Chop;
    CutRestIsTail(s);
    var rest := Cut(s).rest;
    var before := s[..|s| - |rest|];
    assert s + t == before + (rest + t);
    TailUnfinished(before, rest + t);
  }

  /** Nothing ends a sentence: the cuts go on where they left off. */
  lemma CutsGoOnIff(s: string, t: string)
    requires |s| > MAX_LEN && Exec(s + t).None?
    ensures Cut(s).sentences + Fed(Cut(s).rest + t).sentences == Fed(s + t).sentences <==>
            Cut(s).rest != "" || SameCuts(t)
  {
    hide Exec, Chop, Fed;
    RestUnfinished(s, t);
    FedUnfinished(s + t);
    FedUnfinished(Cut(s).rest + t);
    CutInTwo(s, t);
    SameTail(Cut(s).sentences, Cut(Cut(s).rest + t).sentences, Cut(LeftToCut(s, t)).sentences);
    assert Cut(s).rest == "" ==> Cut(s).rest + t == t;
  }

  lemma SameTail(a: seq<string>, b: seq<string>, c: seq<string>)
    ensures a + b == a + c <==> b == c
  {
    assert (a + b)[|a|..] == b && (a + c)[|a|..] == c;
  }

  lemma {:induction false} CutKeepsInk(s: string)
    ensures Ink(Flatten(Cut(s).sentences)) + Ink(Cut(s).rest) == Ink(s)
  {
    ChopKeepsInk(s, MAX_LEN);
  }

  /** Where the cuts take off white space only, they may as well not be made. */
  lemma BlankCuts(s: string)
    requires Cut(s).sentences == []
    ensures |Cut(s).rest| <= |s| && AllSpaces(s[..|s| - |Cut(s).rest|])
    ensures s == s[..|s| - |Cut(s).rest|] + Cut(s).rest
  {
    hide Chop, AllSpaces, Ink, Flatten;
    CutKeepsInk(s);
    CutRestIsTail(s);
    FlattenNothing();
    var rest := Cut(s).rest;
    var before := s[..|s| - |rest|];
    assert s == before + rest;
    NoInk("");
    assert Ink("") == "" by { NoSpacesInNothing(); }
    InkJoin(before, rest);
    assert Ink(before) + Ink(rest) == Ink(rest);
    assert |Ink(before)| == 0;
    NoInk(before);
  }

  lemma NoSpacesInNothing()
    ensures AllSpaces("")
  {
  }

  lemma TrimIsShort(s: string)
    ensures |Trim(s)| <= |TrimStart(s)|
  {
  }

  lemma TrimStartAgain(s: string)
    ensures TrimStart(TrimStart(s)) == TrimStart(s)
  {
    hide TrimStart;
    TrimStartStep(TrimStart(s));
  }

  lemma {:induction false} FirstCutIsShort(s: string)
    requires Cut(s).sentences != []
    ensures 0 < |Cut(s).sentences[0]| <= |TrimStart(s)|
    decreases |s|
  {
    hide Trim, TrimStart, LastBlank, Chop, CutAt;
    if |s| <= MAX_LEN {
      CutShort(s);
    } else {
      CutLong(s);
      var at := CutAt(s, MAX_LEN);
      assert s == s[..at] + s[at..];
      TrimStartOfTwo(s[..at], s[at..]);
      TrimIsShort(s[..at]);
      PushIs(Trim(s[..at]), Cut(TrimStart(s[at..])));
      if Trim(s[..at]) == "" {
        BlankTrim(s[..at]);
        FirstCutIsShort(TrimStart(s[at..]));
        TrimStartAgain(s[at..]);
      }
    }
  }

  lemma BlankTrim(s: string)
    ensures Trim(s) == "" <==> TrimStart(s) == ""
  {
    hide TrimStart, TrimEnd, IsSpace, Ink;
    TrimKeepsInk(s);
    TrimBlank(s);
    NoInk(s);
    NoInk(Trim(s));
    NoSpacesInNothing();
    NoInk("");
  }

  lemma EndsInside(s: string, t: string, w: Match)
    requires Matches(s + t, w) && w.end <= |s|
    ensures exists m :: Matches(s, m)
  {
    assert forall k :: 0 <= k < |s| ==> (s + t)[k] == s[k];
    if w.end < |s| {
      SpacesBetween(s + t, w, w.end);
      assert s[w.end..w.end + 1] == [s[w.end]];
      assert Matches(s, w.(next := w.end + 1));
    } else {
      assert s[w.end..w.end] == "";
      assert Matches(s, w.(next := w.end));
    }
  }

  lemma UnfinishedEndsLater(s: string, t: string, w: Match)
    requires Unfinished(s) && Matches(s + t, w)
    ensures |s| < w.end <= |s + t|
  {
    if w.end <= |s| {
      EndsInside(s, t, w);
      assert false;
    }
  }

  lemma LongFirstSentence(s: string, t: string)
    requires Unfinished(s) && Exec(s + t).Some? && TrimStart(s) != ""
    ensures Fed(s + t).sentences != [] && |Fed(s + t).sentences[0]| > |TrimStart(s)|
  {
    hide Exec, Trim, Whole, Matches, TrimStart, IsSpace, Chop, Unfinished;
    ExecIsLeftmost(s + t);
    WholeStep(s + t);
    FedIs(s + t);
    var w := Exec(s + t).value;
    UnfinishedEndsLater(s, t, w);
    LastIsInk(s + t, w);
    var y := t[..w.end - |s|];
    assert (s + t)[..w.end] == s + y;
    assert y[|y| - 1] == (s + t)[w.end - 1];
    TrimStartJoin(s, y);
    assert (TrimStart(s) + y)[|TrimStart(s) + y| - 1] == y[|y| - 1];
    TrimEndNothing(TrimStart(s) + y);
    TrimDef(s + y);
    PushIs(Trim((s + t)[..w.end]), Whole((s + t)[w.next..]));
  }

  lemma TrimDef(s: string)
    ensures Trim(s) == TrimEnd(TrimStart(s))
  {
  }

  /** A sentence ends after its beginning has been cut off: that shows, unless only white space was cut off. */
  lemma CutTooSoonIff(s: string, t: string)
    requires Exec(s).None? && Exec(s + t).Some?
    ensures Cut(s).sentences + Fed(Cut(s).rest + t).sentences == Fed(s + t).sentences <==> Cut(s).sentences == []
  {
    hide Exec, Chop, Fed, TrimStart, Matches;
    var cut := Cut(s);
    if cut.sentences == [] {
      BlankCuts(s);
      var blanks := s[..|s| - |cut.rest|];
      assert s + t == blanks + (cut.rest + t);
      FedSkips(blanks, cut.rest + t);
      assert [] + Fed(cut.rest + t).sentences == Fed(cut.rest + t).sentences;
    } else {
      ExecIsLeftmost(s);
      FirstCutIsShort(s);
      LongFirstSentence(s, t);
      assert (cut.sentences + Fed(cut.rest + t).sentences)[0] == cut.sentences[0];
    }
  }

  /** What decides, if the first part does not end a sentence or white space follows. */
  predicate GoesOn(s: string, t: string) {
    var left := Whole(s).rest;
    if |left| > MAX_LEN && Exec(left + t).Some? then Cut(left).sentences == []
    else s != "" && Cut(left).rest == "" && Exec(t).None? ==> SameCuts(t)
  }

  lemma GoesOnIff(s: string, t: string)
    requires t != "" && (IsSpace(t[0]) || !EndsSentence(s))
    ensures FedTwice(s, t) == Fed(s + t).sentences <==> GoesOn(s, t)
  {
    hide Whole, Chop, EndsSentence, Exec, Fed, TrimStart, SameCuts;
    var left := Whole(s).rest;
    var cut := Cut(left);
    FedTwiceIs(s, t);
    FedOnceIs(s, t);
    SameTail(Whole(s).sentences, cut.sentences + Fed(cut.rest + t).sentences, Fed(Remaining(s, t)).sentences);
    RestIsUnfinished(s);
    if |left| <= MAX_LEN {
      CutShort(left);
      assert [] + Fed(left + t).sentences == Fed(left + t).sentences;
      if s != "" && left == "" {
        assert left + t == t;
        SwallowedIff(t);
      }
    } else if Exec(left + t).Some? {
      CutTooSoonIff(left, t);
    } else {
      CutsGoOnIff(left, t);
      TailUnfinished(left, t);
    }
  }

  lemma RestIsUnfinished(s: string)
    ensures Exec(Whole(s).rest).None?
    ensures s == "" ==> Whole(s).rest == ""
  {
    hide Whole, Exec, Matches;
    WholeFinds(s);
    ExecIsLeftmost(Whole(s).rest);
    NothingIsWhole();
  }

  // ---------------------------------------------------------------------------
  // The first part ends a sentence, and no white space follows
  // ---------------------------------------------------------------------------

  /** The last sentence of a text that ends one, with what stands before it since the one before. */
  function LastOne(s: string): string
    requires EndsSentence(s)
    decreases |s|
  {
    EndMatch(s);
    ExecIsLeftmost(s);
    var m := Exec(s).value;
    if m.end == |s| then s
    else
      SuffixEndsSentence(s, m);
      LastOne(s[m.next..])
  }

  function Earlier(s: string): seq<string>
    requires EndsSentence(s)
    decreases |s|
  {
    EndMatch(s);
    ExecIsLeftmost(s);
    var m := Exec(s).value;
    if m.end == |s| then []
    else
      SuffixEndsSentence(s, m);
      Pieces(Trim(s[..m.end])) + Earlier(s[m.next..])
  }

  /** A text whose first sentence ends with it. */
  ghost predicate IsOneSentence(s: string) {
    Exec(s).Some? && Exec(s).value.end == |s| && Matches(s, Exec(s).value)
  }

  lemma OneSentenceIsWhole(s: string)
    requires IsOneSentence(s)
    ensures s != "" && !IsSpace(s[|s| - 1]) && Trim(s) != "" && Whole(s) == Split([Trim(s)], "")
  {
    hide Exec, Trim, Whole, Matches, IsSpace;
    var m := Exec(s).value;
    MatchFits(s, m);
    LastIsInk(s, m);
    WholeStep(s);
    NothingIsWhole();
    assert s[..m.end] == s && s[m.next..] == "";
    TrimGrows(s, [s[|s| - 1]]);
    PushIs(Trim(s), Split([], ""));
    assert [Trim(s)] + [] == [Trim(s)];
  }

  lemma {:induction false} LastSplit(s: string, t: string)
    requires EndsSentence(s) && t != "" && !IsSpace(t[0])
    ensures IsOneSentence(LastOne(s))
    ensures Whole(s) == Split(Earlier(s) + [Trim(LastOne(s))], "")
    ensures Whole(s + t) == Before(Earlier(s), Whole(LastOne(s) + t))
    decreases |s|
  {
    hide Exec, Trim, Whole, Matches, EndsSentence, Lead, IsSpace;
    EndMatch(s);
    ExecIsLeftmost(s);
    var m := Exec(s).value;
    if m.end == |s| {
      OneSentenceIsWhole(s);
      assert [] + [Trim(s)] == [Trim(s)];
      assert [] + Whole(s + t).sentences == Whole(s + t).sentences;
    } else {
      SuffixEndsSentence(s, m);
      MatchFits(s, m);
      var piece, next := Trim(s[..m.end]), s[m.next..];
      LastSplit(next, t);
      WholeStep(s);
      FirstSentence(s, t);
      assert (s + t)[m.next..] == next + t;
      PushIs(piece, Whole(next));
      PushIs(piece, Whole(next + t));
      Regrouped(Pieces(piece), Earlier(next), [Trim(LastOne(s))]);
      Regrouped(Pieces(piece), Earlier(next), Whole(LastOne(s) + t).sentences);
    }
  }

  lemma Regrouped(a: seq<string>, b: seq<string>, c: seq<string>)
    ensures a + (b + c) == a + b + c
  {
  }

  /** The text without the white space that a first cut would take off. */
  function Ahead(s: string, t: string): string {
    if |s + t| > MAX_LEN && CutAt(s + t, MAX_LEN) < |s| && TrimStart(s[..CutAt(s + t, MAX_LEN)]) == ""
    then TrimStart(s) else s
  }

  /** No sentence ends in both parts together, and their first forced cut falls between them. */
  predicate CutBetween(s: string, t: string) {
    && Exec(s + t).None?
    && |Ahead(s, t) + t| > MAX_LEN
    && CutAt(Ahead(s, t) + t, MAX_LEN) == |Ahead(s, t)|
  }

  lemma LongerTrim(x: string, y: string)
    requires x != "" && !IsSpace(x[|x| - 1]) && y != "" && !IsSpace(y[0])
    ensures 0 < |Trim(x)| < |Trim(x + y)|
  {
    hide TrimStart, TrimEnd, IsSpace;
    NotBlank(x);
    TrimStartJoin(x, y);
    TrimEndNothing(TrimStart(x));
    TrimDef(x);
    TrimDef(x + y);
    TrimEndKeeps(TrimStart(x), y);
  }

  lemma TrimEndKeeps(x: string, y: string)
    requires y != "" && !IsSpace(y[0])
    ensures |TrimEnd(x + y)| > |x|
  {
    var r := TrimEnd(x + y);
    forall k | |r| <= k < |x + y| ensures IsSpace((x + y)[k]) {
      assert (x + y)[k] == (x + y)[|r|..][k - |r|];
    }
    assert (x + y)[|x|] == y[0];
  }

  lemma ShorterTrim(x: string, at: nat)
    requires x != "" && !IsSpace(x[|x| - 1]) && at < |x| && Trim(x[..at]) != ""
    ensures |Trim(x[..at])| < |Trim(x)|
  {
    hide TrimStart, TrimEnd, Trim, IsSpace;
    BlankTrim(x[..at]);
    TrimIsShort(x[..at]);
    assert x == x[..at] + x[at..];
    TrimStartJoin(x[..at], x[at..]);
    NotBlank(x);
    TrimEndNothing(TrimStart(x));
    TrimDef(x);
  }

  /** Where the first cut takes off more than white space. */
  lemma DirectCutIff(x: string, t: string)
    requires x != "" && !IsSpace(x[|x| - 1]) && t != "" && !IsSpace(t[0]) && |x + t| > MAX_LEN
    requires var at := CutAt(x + t, MAX_LEN); at < |x| ==> Trim(x[..at]) != ""
    ensures Cut(x + t).sentences == [Trim(x)] + Cut(t).sentences <==> CutAt(x + t, MAX_LEN) == |x|
  {
    hide Trim, TrimStart, IsSpace, LastBlank, Chop, CutAt;
    CutLong(x + t);
    var at := CutAt(x + t, MAX_LEN);
    PushIs(Trim((x + t)[..at]), Cut(TrimStart((x + t)[at..])));
    LongerTrim(x, t);
    if at == |x| {
      assert (x + t)[..at] == x && (x + t)[at..] == t;
      TrimStartStep(t);
    } else if at > |x| {
      assert (x + t)[..at] == x + t[..at - |x|];
      LongerTrim(x, t[..at - |x|]);
      assert Cut(x + t).sentences[0] == Trim((x + t)[..at]);
    } else {
      assert (x + t)[..at] == x[..at];
      ShorterTrim(x, at);
      assert Cut(x + t).sentences[0] == Trim(x[..at]);
    }
  }

  /** The first cut takes off white space only. */
  lemma BlankFirstCut(x: string, t: string)
    requires x != "" && !IsSpace(x[|x| - 1]) && |x + t| > MAX_LEN
    requires var at := CutAt(x + t, MAX_LEN); at < |x| && TrimStart(x[..at]) == ""
    ensures Cut(x + t).sentences == Cut(TrimStart(x) + t).sentences
    ensures TrimStart(x) != "" && TrimStart(x)[|TrimStart(x)| - 1] == x[|x| - 1] && !IsSpace(TrimStart(x)[0])
    ensures Trim(TrimStart(x)) == Trim(x)
  {
    hide Trim, TrimStart, IsSpace, LastBlank, Chop, CutAt;
    var at := CutAt(x + t, MAX_LEN);
    CutLong(x + t);
    NotBlank(x);
    BlankTrim(x[..at]);
    assert (x + t)[..at] == x[..at] && (x + t)[at..] == x[at..] + t;
    assert x == x[..at] + x[at..];
    TrimStartOfTwo(x[..at], x[at..]);
    TrimStartOfTwo(x[at..], t);
    PushIs("", Cut(TrimStart(x) + t));
    assert [] + Cut(TrimStart(x) + t).sentences == Cut(TrimStart(x) + t).sentences;
    TrimStartAgain(x);
    TrimDef(x);
    TrimDef(TrimStart(x));
  }

  lemma InkFirst(x: string, at: nat)
    requires x != "" && !IsSpace(x[0]) && 0 < at <= |x|
    ensures Trim(x[..at]) != ""
  {
    hide TrimStart, IsSpace;
    BlankTrim(x[..at]);
    TrimStartStep(x[..at]);
  }

  lemma TornIff(x: string, t: string)
    requires IsOneSentence(x) && t != "" && !IsSpace(t[0])
    ensures [Trim(x)] + Fed(t).sentences == Fed(x + t).sentences <==> CutBetween(x, t)
  {
    hide Exec, Trim, TrimStart, IsSpace, Whole, Chop, CutAt, Fed, Matches;
    OneSentenceIsWhole(x);
    if Exec(x + t).Some? {
      TornApart(x, t);
    } else {
      FedUnfinished(x + t);
      TailUnfinished(x, t);
      FedUnfinished(t);
      TornCutIff(x, t);
    }
  }

  lemma TornApart(x: string, t: string)
    requires IsOneSentence(x) && t != "" && !IsSpace(t[0]) && Exec(x + t).Some?
    ensures [Trim(x)] + Fed(t).sentences != Fed(x + t).sentences
  {
    hide Exec, Trim, Whole, Chop, Matches, IsSpace;
    ExecIsLeftmost(x + t);
    var w := Exec(x + t).value;
    LongerPiece(x, t, Exec(x).value, w);
    WholeStep(x + t);
    FedIs(x + t);
    PushIs(Trim((x + t)[..w.end]), Whole((x + t)[w.next..]));
    assert Fed(x + t).sentences[0] == Trim((x + t)[..w.end]);
  }

  lemma TornCutIff(x: string, t: string)
    requires x != "" && !IsSpace(x[|x| - 1]) && Trim(x) != "" && t != "" && !IsSpace(t[0]) && Exec(x + t).None?
    ensures [Trim(x)] + Cut(t).sentences == Cut(x + t).sentences <==> CutBetween(x, t)
  {
    hide Exec, Trim, TrimStart, IsSpace, LastBlank, Chop, CutAt;
    if |x + t| <= MAX_LEN {
      CutShort(x + t);
    } else {
      CutLong(x + t);
      var at := CutAt(x + t, MAX_LEN);
      if at < |x| && TrimStart(x[..at]) == "" {
        BlankFirstCut(x, t);
        var v := TrimStart(x);
        if |v + t| <= MAX_LEN {
          CutShort(v + t);
        } else {
          CutLong(v + t);
          if CutAt(v + t, MAX_LEN) < |v| {
            InkFirst(v, CutAt(v + t, MAX_LEN));
          }
          DirectCutIff(v, t);
        }
      } else {
        if at < |x| {
          BlankTrim(x[..at]);
        }
        DirectCutIff(x, t);
      }
    }
  }

  lemma EndedIff(s: string, t: string)
    requires EndsSentence(s) && t != "" && !IsSpace(t[0])
    ensures FedTwice(s, t) == Fed(s + t).sentences <==> CutBetween(LastOne(s), t)
  {
    hide Exec, Trim, TrimStart, IsSpace, Whole, Chop, Fed, EndsSentence, LastOne, Earlier, CutBetween;
    LastSplit(s, t);
    var x := LastOne(s);
    CutShort("");
    FedTwiceIs(s, t);
    assert "" + t == t;
    assert [] + Fed(t).sentences == Fed(t).sentences;
    FedIs(s + t);
    FedIs(x + t);
    Regrouped(Earlier(s), Whole(x + t).sentences, Cut(Whole(x + t).rest).sentences);
    Regrouped(Earlier(s), [Trim(x)], Fed(t).sentences);
    SameTail(Earlier(s), [Trim(x)] + Fed(t).sentences, Fed(x + t).sentences);
    TornIff(x, t);
  }

  // ---------------------------------------------------------------------------
  // Any two deltas
  // ---------------------------------------------------------------------------

  /**
   Whether it makes no difference that `t` comes by itself: it does if a sentence ends
   with `s` and no white space follows, if a sentence has been cut by force before it
   ended, or if the white space in front of `t` moves its forced cuts.
   */
  predicate NoMatter(s: string, t: string) {
    t == "" || if EndsSentence(s) && !IsSpace(t[0]) then CutBetween(LastOne(s), t) else GoesOn(s, t)
  }

  lemma FedInTwoIff(s: string, t: string)
    ensures FedTwice(s, t) == Fed(s + t).sentences <==> NoMatter(s, t)
  {
    if t == "" {
      NothingFedAgain(s);
    } else if EndsSentence(s) && !IsSpace(t[0]) {
      EndedIff(s, t);
    } else {
      GoesOnIff(s, t);
    }
  }

  lemma NothingFedAgain(s: string)
    ensures FedTwice(s, "") == Fed(s + "").sentences
  {
    hide Exec, Whole, Chop, Matches;
    var rest := Fed(s).rest;
    ExtractSplits(s, MAX_LEN);
    ExecIsLeftmost(rest);
    FedUnfinished(rest);
    CutShort(rest);
    assert rest + "" == rest && s + "" == s;
    assert Fed(s).sentences + [] == Fed(s).sentences;
  }

  /** From any state, two deltas hand on the same pieces as the two fed at once under that condition, and no other. */
  lemma DeltasAgreeIff(c: Config, st: State, d: string, e: string)
    requires c.enabled && st.phase.Feeding?
    ensures Step(c, Step(c, st, Feed(d)), Feed(e)).handed == Step(c, st, Feed(d + e)).handed <==>
            NoMatter(st.buffer + d, e)
  {
    hide Whole, Extract, Step, EndsSentence, NoMatter;
    var s := st.buffer + d;
    assert st.buffer + (d + e) == s + e;
    FeedHands(c, st, d);
    FeedHands(c, Step(c, st, Feed(d)), e);
    FeedHands(c, st, d + e);
    FedInTwoIff(s, e);
    SamePrefix(st.handed, Fed(s).sentences, Fed(Fed(s).rest + e).sentences, Fed(s + e).sentences);
  }

  /** For a short text only one cause is left. */
  lemma ShortDeltasAgreeIff(s: string, t: string)
    requires |s + t| <= MAX_LEN
    ensures NoMatter(s, t) <==> t == "" || IsSpace(t[0]) || !EndsSentence(s)
  {
    hide Exec, Trim, IsSpace, Whole, Chop, CutAt, Matches, TrimStart;
    if t != "" && EndsSentence(s) && !IsSpace(t[0]) {
      LastIsPart(s);
      TrimStartFits(LastOne(s));
    } else if t != "" {
      ShortRest(s);
      CutShort(t);
      TrimStartFits(t);
      CutShort(TrimStart(t));
    }
  }

  lemma TrimStartFits(s: string)
    ensures |TrimStart(s)| <= |s|
  {
  }

  lemma {:induction false} LastIsPart(s: string)
    requires EndsSentence(s)
    ensures |LastOne(s)| <= |s|
    decreases |s|
  {
    hide Exec, Matches, EndsSentence;
    EndMatch(s);
    ExecIsLeftmost(s);
    var m := Exec(s).value;
    if m.end != |s| {
      SuffixEndsSentence(s, m);
      MatchFits(s, m);
      LastIsPart(s[m.next..]);
    }
  }

  lemma {:induction false} ShortRest(s: string)
    ensures |Whole(s).rest| <= |s|
    decreases |s|
  {
    hide Exec, Trim, Whole;
    WholeStep(s);
    if Exec(s).Some? {
      ShortRest(s[Exec(s).value.next..]);
    }
  }

  function As(n: nat): string {
    seq(n, _ => 'a')
  }

  lemma NoMark(s: string)
    requires forall k :: 0 <= k < |s| ==> s[k] == 'a'
    ensures Exec(s).None? && !EndsSentence(s)
  {
    hide Exec;
    ExecIsLeftmost(s);
  }

  lemma ManyAs(n: nat)
    requires n > MAX_LEN
    ensures Exec(As(n)).None? && Exec(As(n) + "b.").Some? && Cut(As(n)).sentences != [] && !EndsSentence(As(n))
  {
    hide Exec, Trim, Chop, LastBlank;
    var s := As(n);
    assert |s| == n && forall k :: 0 <= k < n ==> s[k] == 'a';
    hide As;
    NoMark(s);
    var longer := s + "b.";
    assert longer[n + 1] == '.' && |longer| == n + 2;
    EndMatch(longer);
    CutLong(s);
    InkFirst(s, CutAt(s, MAX_LEN));
  }

  /** A sentence that is cut by force before it ends: 201 letters, and then its last one and the dot. */
  lemma ForcedCutShows(c: Config)
    requires c.enabled
    ensures !EndsSentence(As(201))
    ensures Step(c, Step(c, START, Feed(As(201))), Feed("b.")).handed != Step(c, START, Feed(As(201) + "b.")).handed
  {
    hide Exec, Whole, Chop, Step, Matches;
    var s := As(201);
    ManyAs(201);
    ExecIsLeftmost(s);
    NothingMore(s);
    assert "" + s == s;
    DeltasAgreeIff(c, START, s, "b.");
  }
}
