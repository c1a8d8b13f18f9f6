/**
 Splitting a growing reply into sentences that can be spoken before the reply
 is complete.
 */
module Speech {
  import opened Option
  import opened JsText

  predicate IsMark(c: char) {
    c == '.' || c == '!' || c == '?'
  }

  predicate IsCloser(c: char) {
    c == '"' || c == '\'' || c == ')' || c == ']'
  }

  /** The characters that are spoken: all but white space. */
  function Ink(s: string): string {
    if s == "" then "" else (if IsSpace(s[0]) then "" else [s[0]]) + Ink(s[1..])
  }

  lemma {:induction false} InkJoin(a: string, b: string)
    ensures Ink(a + b) == Ink(a) + Ink(b)
  {
    if a == "" {
      assert a + b == b;
    } else {
      assert (a + b)[1..] == a[1..] + b;
      InkJoin(a[1..], b);
    }
  }

  lemma {:induction false} NoInk(s: string)
    ensures Ink(s) == "" <==> AllSpaces(s)
  {
    if s != "" {
      NoInk(s[1..]);
      assert s == [s[0]] + s[1..];
    }
  }

  lemma InkWithout(blanks: string, s: string)
    requires AllSpaces(blanks)
    ensures Ink(blanks + s) == Ink(s) == Ink(s + blanks)
  {
    hide Ink, AllSpaces;
    NoInk(blanks);
    InkJoin(blanks, s);
    InkJoin(s, blanks);
  }

  lemma TrimStartKeepsInk(s: string)
    ensures Ink(TrimStart(s)) == Ink(s)
  {
    hide Ink, AllSpaces;
    var t := TrimStart(s);
    var blanks := s[..|s| - |t|];
    assert s == blanks + t;
    InkWithout(blanks, t);
  }

  lemma TrimEndKeepsInk(s: string)
    ensures Ink(TrimEnd(s)) == Ink(s)
  {
    hide Ink, AllSpaces;
    var t := TrimEnd(s);
    var blanks := s[|t|..];
    assert s == t + blanks;
    InkWithout(blanks, t);
  }

  lemma TrimKeepsInk(s: string)
    ensures Ink(TrimStart(s)) == Ink(s) && Ink(Trim(s)) == Ink(s)
  {
    hide Ink, AllSpaces, TrimStart, TrimEnd;
    TrimStartKeepsInk(s);
    TrimEndKeepsInk(TrimStart(s));
  }

  // ---------------------------------------------------------------------------
  // The end of a sentence
  // ---------------------------------------------------------------------------

  /** A sentence mark may end at `end` and the next sentence start at `next`. */
  datatype Match = Match(start: nat, end: nat, next: nat)

  /**
   What the expression `([.!?]+["')\]]?)(\s+|$)` may match: marks, at most one closing
   character, then white space or the end of the text.
   */
  ghost predicate Matches(s: string, m: Match) {
    && m.start < m.end <= m.next <= |s|
    && (forall i :: m.start <= i < m.end - 1 ==> IsMark(s[i]))
    && (IsMark(s[m.end - 1]) || (m.start < m.end - 1 && IsCloser(s[m.end - 1])))
    && AllSpaces(s[m.end..m.next])
    && (m.end < m.next || m.end == |s|)
  }

  function MarksEnd(s: string, i: nat): (end: nat)
    requires i <= |s|
    ensures i <= end <= |s| && forall k :: i <= k < end ==> IsMark(s[k])
    ensures end == |s| || !IsMark(s[end])
    decreases |s| - i
  {
    if i < |s| && IsMark(s[i]) then MarksEnd(s, i + 1) else i
  }

  function SpacesEnd(s: string, i: nat): (end: nat)
    requires i <= |s|
    ensures i <= end <= |s| && AllSpaces(s[i..end])
    ensures end == |s| || !IsSpace(s[end])
    decreases |s| - i
  {
    if i < |s| && IsSpace(s[i]) then
      var end := SpacesEnd(s, i + 1);
      assert s[i..end] == [s[i]] + s[i + 1..end];
      end
    else i
  }

  function MatchAt(s: string, i: nat): (m: Option<Match>)
    requires i < |s|
  {
    var marks := MarksEnd(s, i);
    var end := if marks < |s| && IsCloser(s[marks]) then marks + 1 else marks;
    var next := SpacesEnd(s, end);
    if i < marks && (end < next || end == |s|) then Some(Match(i, end, next)) else None
  }

  /** Greedy matching without backtracking finds a match wherever there is one, and the longest. */
  lemma MatchAtFinds(s: string, i: nat)
    requires i < |s|
    ensures MatchAt(s, i).Some? ==> Matches(s, MatchAt(s, i).value) && MatchAt(s, i).value.start == i
    ensures forall m | Matches(s, m) && m.start == i ::
              && MatchAt(s, i).Some?
              && m.end == MatchAt(s, i).value.end
              && m.next <= MatchAt(s, i).value.next
  {
    forall m | Matches(s, m) && m.start == i
      ensures MatchAt(s, i).Some? && m.end == MatchAt(s, i).value.end && m.next <= MatchAt(s, i).value.next
    {
      var marks := MarksEnd(s, i);
      assert m.end - 1 <= marks;
      forall k | m.end <= k < m.next ensures IsSpace(s[k]) {
        assert s[k] == s[m.end..m.next][k - m.end];
      }
      assert m.end < m.next ==> IsSpace(s[m.end]);
      assert m.end == (if marks < |s| && IsCloser(s[marks]) then marks + 1 else marks);
    }
  }

  function ExecFrom(s: string, i: nat): (m: Option<Match>)
    requires i <= |s|
    decreases |s| - i
  {
    if i == |s| then None
    else if MatchAt(s, i).Some? then MatchAt(s, i)
    else ExecFrom(s, i + 1)
  }

  /** Running the expression on a text: the leftmost match, white space and all. */
  function Exec(s: string): Option<Match> {
    ExecFrom(s, 0)
  }

  lemma {:induction false} ExecFromIsLeftmost(s: string, i: nat)
    requires i <= |s|
    ensures var r := ExecFrom(s, i);
            && (r.Some? ==> Matches(s, r.value) && i <= r.value.start)
            && forall m | Matches(s, m) && i <= m.start ::
                 && r.Some?
                 && r.value.start <= m.start
                 && (r.value.start == m.start ==> m.end == r.value.end && m.next <= r.value.next)
    decreases |s| - i
  {
    if i < |s| {
      MatchAtFinds(s, i);
      if MatchAt(s, i).None? {
        ExecFromIsLeftmost(s, i + 1);
      }
    }
  }

  /** No sentence ends inside `s`, or at its end. */
  ghost predicate Unfinished(s: string) {
    forall m :: !Matches(s, m)
  }

  /** No sentence ends before the last one ends with `s`. */
  ghost predicate OneSentence(s: string) {
    forall m | Matches(s, m) :: m.end == |s|
  }

  lemma ExecIsLeftmost(s: string)
    ensures Exec(s).None? <==> Unfinished(s)
    ensures Exec(s).Some? ==> Matches(s, Exec(s).value)
    ensures forall m | Matches(s, m) :: Exec(s).Some? && Exec(s).value.start <= m.start
  {
    ExecFromIsLeftmost(s, 0);
  }

  /** At `i` stands a mark, alone or with a closing character after it, in front of white space or the end. */
  ghost predicate SentenceEndsAt(s: string, i: nat) {
    && i < |s| && s[i] in ".!?"
    && (|| i + 1 == |s|
        || IsSpace(s[i + 1])
        || (s[i + 1] in "\"')]" && (i + 2 == |s| || IsSpace(s[i + 2]))))
  }

  lemma EndMatches(s: string, i: nat)
    requires SentenceEndsAt(s, i)
    ensures exists m :: Matches(s, m)
  {
    var end := if i + 1 == |s| || IsSpace(s[i + 1]) then i + 1 else i + 2;
    var next := if end == |s| then end else end + 1;
    assert s[end..next] == if end == |s| then [] else [s[end]];
    assert Matches(s, Match(i, end, next));
  }

  lemma MatchEnds(s: string, m: Match)
    requires Matches(s, m)
    ensures exists i: nat :: SentenceEndsAt(s, i) && m.end == (if i + 1 < |s| && s[i + 1] in "\"')]" then i + 2 else i + 1)
  {
    var end := m.end;
    assert end < m.next ==> s[end..m.next][0] == s[end];
    assert end < |s| ==> IsSpace(s[end]) && !IsCloser(s[end]);
    if IsMark(s[end - 1]) {
      assert SentenceEndsAt(s, end - 1);
    } else {
      assert SentenceEndsAt(s, end - 2) && s[end - 1] in "\"')]";
    }
  }

  /** The expression finds something exactly if somewhere a sentence ends, and it finds the end of one. */
  lemma ExecSomeIff(s: string)
    ensures Exec(s).Some? <==> exists i: nat :: SentenceEndsAt(s, i)
    ensures Exec(s).Some? ==>
              exists i: nat :: SentenceEndsAt(s, i) && Exec(s).value.end ==
                               (if i + 1 < |s| && s[i + 1] in "\"')]" then i + 2 else i + 1)
  {
    hide SentenceEndsAt, Matches, Exec;
    ExecIsLeftmost(s);
    if Exec(s).Some? {
      MatchEnds(s, Exec(s).value);
    }
    forall i: nat | SentenceEndsAt(s, i) ensures Exec(s).Some? {
      EndMatches(s, i);
    }
  }

  lemma SliceOfSlice(s: string, i: nat, j: nat, from: nat, end: nat)
    requires from <= end <= j - i && j <= |s|
    ensures s[i..j][from..end] == s[from + i..end + i]
  {
    var a, b := s[i..j][from..end], s[from + i..end + i];
    assert |a| == |b|;
    forall k | 0 <= k < |a| ensures a[k] == b[k] {
      assert a[k] == s[i..j][from + k] == s[i + from + k];
    }
    assert a == b;
  }

  lemma MatchInPart(s: string, i: nat, j: nat, m: Match)
    requires i <= j <= |s| && Matches(s[i..j], m) && m.end < j - i
    ensures Matches(s, Match(m.start + i, m.end + i, m.next + i))
  {
    SliceOfSlice(s, i, j, m.end, m.next);
    assert forall k :: 0 <= k < j - i ==> s[i..j][k] == s[k + i];
  }

  lemma MatchInTail(s: string, i: nat, m: Match)
    requires i <= |s| && Matches(s[i..], m)
    ensures Matches(s, Match(m.start + i, m.end + i, m.next + i))
  {
    assert s[i..] == s[i..|s|];
    SliceOfSlice(s, i, |s|, m.end, m.next);
    assert forall k :: 0 <= k < |s| - i ==> s[i..][k] == s[k + i];
  }

  lemma NoSpaceInside(s: string, m: Match, k: nat)
    requires Matches(s, m) && m.start <= k < m.end
    ensures !IsSpace(s[k])
  {
  }

  lemma PartOfUnfinished(s: string, i: nat, j: nat)
    requires i <= j <= |s| && Unfinished(s)
    ensures OneSentence(s[i..j])
    ensures j == |s| ==> Unfinished(s[i..j])
  {
    forall m | Matches(s[i..j], m) ensures m.end == j - i && j < |s| {
      if m.end < j - i {
        MatchInPart(s, i, j, m);
        assert false;
      } else if j == |s| {
        assert s[i..j] == s[i..];
        MatchInTail(s, i, m);
        assert false;
      }
    }
  }

  /** A part of the text up to the end of its first sentence holds that sentence only. */
  lemma PartOfFirst(s: string, first: Match, i: nat, j: nat)
    requires Exec(s) == Some(first) && i <= j <= first.end <= |s|
    ensures OneSentence(s[i..j])
  {
    ExecIsLeftmost(s);
    forall m | Matches(s[i..j], m) ensures m.end == j - i {
      if m.end < j - i {
        MatchInPart(s, i, j, m);
        var whole := Match(m.start + i, m.end + i, m.next + i);
        assert IsSpace(s[whole.end]) by {
          assert s[whole.end] == s[whole.end..whole.next][0];
        }
        NoSpaceInside(s, first, whole.end);
        assert false;
      }
    }
  }

  // ---------------------------------------------------------------------------
  // Extracting sentences
  // ---------------------------------------------------------------------------

  datatype Split = Split(sentences: seq<string>, rest: string)

  function Push(s: string, split: Split): Split {
    if s == "" then split else Split([s] + split.sentences, split.rest)
  }

  function Before(sentences: seq<string>, split: Split): Split {
    Split(sentences + split.sentences, split.rest)
  }

  function Whole(s: string): Split
    decreases |s|
  {
    ExecIsLeftmost(s);
    if Exec(s).None? then Split([], s)
    else Push(Trim(s[..Exec(s).value.end]), Whole(s[Exec(s).value.next..]))
  }

  function LastBlank(s: string, upTo: nat): (k: int)
    ensures k < |s| && k <= upTo && (k >= 0 ==> s[k] == ' ')
    ensures forall i :: 0 <= i < |s| && k < i <= upTo ==> s[i] != ' '
    decreases upTo
  {
    if upTo < |s| && s[upTo] == ' ' then upTo
    else if upTo == 0 then -1
    else LastBlank(s, upTo - 1)
  }

  /** Where an overlong rest is cut: at its last blank, unless that leaves a very short piece. */
  function CutAt(s: string, maxLen: nat): nat {
    if LastBlank(s, maxLen) > 40 then LastBlank(s, maxLen) else maxLen
  }

  /** The cut is at a blank with more than 40 characters before it, and the last one; or there is none and it is at the end. */
  lemma CutsAtBlank(s: string, maxLen: nat)
    requires |s| > maxLen
    ensures var at := CutAt(s, maxLen);
            && at <= maxLen
            && (at < maxLen ==> at > 40 && s[at] == ' ')
            && forall i: nat | 40 < i <= maxLen && s[i] == ' ' :: i <= at
  {
  }

  lemma TrimBlank(s: string)
    ensures AllSpaces(s) <==> TrimStart(s) == ""
    ensures !AllSpaces(s) ==> !AllSpaces(TrimStart(s))
    ensures AllSpaces("")
  {
    hide TrimStart, IsSpace, Ink;
    var t := TrimStart(s);
    TrimStartKeepsInk(s);
    NoInk(s);
    NoInk(t);
    assert t != "" ==> t[0] in t;
  }

  /** What one round of cutting leaves. */
  function Shortened(s: string, maxLen: nat): string
    requires |s| > maxLen
  {
    TrimStart(s[CutAt(s, maxLen)..])
  }

  /** With a length of zero the cutting gets no further than a first character that is not white space. */
  ghost predicate Ends(s: string, maxLen: nat) {
    maxLen > 0 || AllSpaces(s)
  }

  lemma ShortenedEnds(s: string, maxLen: nat)
    requires |s| > maxLen && Ends(s, maxLen)
    ensures Ends(Shortened(s, maxLen), maxLen) && |Shortened(s, maxLen)| < |s|
  {
    hide TrimStart, LastBlank, IsSpace;
    assert s[0..] == s;
    TrimBlank(s);
  }

  function Chop(s: string, maxLen: nat): Split
    requires Ends(s, maxLen)
    decreases |s|
  {
    if |s| <= maxLen then Split([], s)
    else
      ShortenedEnds(s, maxLen);
      Push(Trim(s[..CutAt(s, maxLen)]), Chop(Shortened(s, maxLen), maxLen))
  }

  /** What is left after `n` rounds, or as soon as it is short enough. */
  function Rounds(s: string, maxLen: nat, n: nat): string {
    if n == 0 || |s| <= maxLen then s else Rounds(Shortened(s, maxLen), maxLen, n - 1)
  }

  lemma {:induction false} RoundsEnd(s: string, maxLen: nat) returns (n: nat)
    requires Ends(s, maxLen)
    ensures |Rounds(s, maxLen, n)| <= maxLen
    decreases |s|
  {
    if |s| <= maxLen {
      n := 0;
    } else {
      ShortenedEnds(s, maxLen);
      n := RoundsEnd(Shortened(s, maxLen), maxLen);
      n := n + 1;
    }
  }

  lemma GoesOn(s: string, maxLen: nat)
    requires maxLen == 0 && !AllSpaces(s)
    ensures |s| > maxLen && !AllSpaces(Shortened(s, maxLen))
  {
    hide TrimStart, LastBlank, IsSpace, AllSpaces;
    TrimBlank(s);
    TrimBlank("");
    assert s[0..] == s;
  }

  lemma {:induction false} RoundsGoOn(s: string, maxLen: nat, n: nat)
    requires maxLen == 0 && !AllSpaces(s)
    ensures |Rounds(s, maxLen, n)| > maxLen
    decreases n
  {
    hide AllSpaces, Shortened;
    GoesOn(s, maxLen);
    if n > 0 {
      RoundsGoOn(Shortened(s, maxLen), maxLen, n - 1);
    }
  }

  /** The cutting loop ends if and only if the length is positive or only white space is left. */
  lemma LoopEndsIff(s: string, maxLen: nat)
    ensures (exists n :: |Rounds(s, maxLen, n)| <= maxLen) <==> Ends(s, maxLen)
  {
    if Ends(s, maxLen) {
      var n := RoundsEnd(s, maxLen);
    } else {
      forall n ensures |Rounds(s, maxLen, n)| > maxLen {
        RoundsGoOn(s, maxLen, n);
      }
    }
  }

  function Extract(s: string, maxLen: nat): Split
    requires Ends(Whole(s).rest, maxLen)
  {
    var whole := Whole(s);
    var chopped := Chop(whole.rest, maxLen);
    Before(whole.sentences, chopped)
  }

  lemma PushBefore(sentences: seq<string>, s: string, split: Split)
    ensures Before(sentences, Push(s, split)) == Before(if s == "" then sentences else sentences + [s], split)
  {
    assert sentences + ([s] + split.sentences) == sentences + [s] + split.sentences;
  }

  lemma WholeStep(s: string)
    ensures Exec(s).None? ==> Whole(s) == Split([], s)
    ensures Exec(s).Some? ==>
      var m := Exec(s).value;
      && m.end <= m.next <= |s| && 0 < m.next
      && Whole(s) == Push(Trim(s[..m.end]), Whole(s[m.next..]))
  {
    hide Exec, Trim;
    ExecIsLeftmost(s);
  }

  lemma ChopStep(s: string, maxLen: nat)
    requires Ends(s, maxLen)
    ensures |s| <= maxLen ==> Chop(s, maxLen) == Split([], s)
    ensures |s| > maxLen ==>
      var at := CutAt(s, maxLen);
      var tail := TrimStart(s[at..]);
      && at <= maxLen && |tail| < |s| && Ends(tail, maxLen)
      && Chop(s, maxLen) == Push(Trim(s[..at]), Chop(tail, maxLen))
  {
    hide Trim, TrimStart, LastBlank;
    if |s| > maxLen {
      ShortenedEnds(s, maxLen);
    }
  }

  lemma ExtractIs(s: string, maxLen: nat, sentences: seq<string>, rest: string)
    requires Ends(rest, maxLen) && Whole(s) == Split(sentences, rest)
    ensures Extract(s, maxLen) == Before(sentences, Chop(rest, maxLen))
  {
  }

  method ExtractSentences(buffer: string, maxLen: nat) returns (sentences: seq<string>, rest: string)
    requires Ends(Whole(buffer).rest, maxLen)
    ensures Split(sentences, rest) == Extract(buffer, maxLen)
  {
    hide Exec, Trim, TrimStart, Whole, Chop, LastBlank, Extract;
    sentences, rest := [], buffer;
    while true
      invariant Whole(buffer) == Before(sentences, Whole(rest))
      decreases |rest|
    {
      WholeStep(rest);
      var m := Exec(rest);
      if m.None? {
        break;
      }
      var sentence := Trim(rest[..m.value.end]);
      PushBefore(sentences, sentence, Whole(rest[m.value.next..]));
      if sentence != "" {
        sentences := sentences + [sentence];
      }
      rest := rest[m.value.next..];
    }
    ExtractIs(buffer, maxLen, sentences, rest);
    while |rest| > maxLen
      invariant Ends(rest, maxLen)
      invariant Extract(buffer, maxLen) == Before(sentences, Chop(rest, maxLen))
      decreases |rest|
    {
      ChopStep(rest, maxLen);
      var cut := LastBlank(rest, maxLen);
      var at := if cut > 40 then cut else maxLen;
      var chunk := Trim(rest[..at]);
      PushBefore(sentences, chunk, Chop(TrimStart(rest[at..]), maxLen));
      if chunk != "" {
        sentences := sentences + [chunk];
      }
      rest := TrimStart(rest[at..]);
    }
    ChopStep(rest, maxLen);
  }

  /** What is handed on for speaking: trimmed, not empty, and never two sentences. */
  ghost predicate Speakable(s: string) {
    s != "" && !IsSpace(s[0]) && !IsSpace(s[|s| - 1]) && OneSentence(s)
  }

  /** The split keeps every character that is spoken, in order. */
  ghost predicate KeepsInk(s: string, split: Split) {
    Ink(Flatten(split.sentences)) + Ink(split.rest) == Ink(s)
  }

  lemma PushKeepsInk(s: string, head: string, middle: string, tail: string, split: Split)
    requires s == head + middle + tail && Ink(middle) == "" && KeepsInk(tail, split)
    ensures KeepsInk(s, Push(Trim(head), split))
  {
    hide Trim, Flatten, Ink;
    var piece, said, left := Trim(head), Ink(Flatten(split.sentences)), Ink(split.rest);
    TrimKeepsInk(head);
    InkJoin(head + middle, tail);
    InkJoin(head, middle);
    assert Ink(head) + "" == Ink(head);
    assert Ink(s) == Ink(piece) + (said + left);
    if piece == "" {
      NoInk("");
      assert "" + (said + left) == said + left;
    } else {
      FlattenFirst(piece, split.sentences);
      InkJoin(piece, Flatten(split.sentences));
      assert Ink(piece) + said + left == Ink(piece) + (said + left);
    }
  }

  lemma NothingSplit(s: string)
    ensures KeepsInk(s, Split([], s))
  {
    assert Flatten([]) == "";
  }

  lemma {:induction false} WholeKeepsInk(s: string)
    ensures KeepsInk(s, Whole(s))
    decreases |s|
  {
    hide Exec, Trim, Flatten, Ink, KeepsInk;
    ExecIsLeftmost(s);
    if Exec(s).Some? {
      var m := Exec(s).value;
      WholeKeepsInk(s[m.next..]);
      NoInk(s[m.end..m.next]);
      PushKeepsInk(s, s[..m.end], s[m.end..m.next], s[m.next..], Whole(s[m.next..]));
    }
    NothingSplit(s);
  }

  lemma ChopsOnce(s: string, maxLen: nat)
    requires Ends(s, maxLen) && |s| > maxLen
    ensures var at, tail := CutAt(s, maxLen), Shortened(s, maxLen);
            && at <= |s| && |tail| <= |s| - at && |tail| < |s| && tail == s[|s| - |tail|..]
            && AllSpaces(s[at..|s| - |tail|])
            && Ends(tail, maxLen) && Chop(s, maxLen) == Push(Trim(s[..at]), Chop(tail, maxLen))
  {
    hide Trim, LastBlank, IsSpace, AllSpaces, Ends;
    ShortenedEnds(s, maxLen);
    var at, tail := CutAt(s, maxLen), Shortened(s, maxLen);
    CutsAtBlank(s, maxLen);
    assert s[at..|s| - |tail|] == s[at..][..|s| - at - |tail|];
  }

  lemma {:induction false} ChopKeepsInk(s: string, maxLen: nat)
    requires Ends(s, maxLen)
    ensures KeepsInk(s, Chop(s, maxLen)) && |Chop(s, maxLen).rest| <= maxLen
    decreases |s|
  {
    hide Trim, TrimStart, Flatten, Ink, KeepsInk, CutAt, Shortened, AllSpaces, Ends;
    NothingSplit(s);
    if |s| > maxLen {
      ChopsOnce(s, maxLen);
      var at, tail := CutAt(s, maxLen), Shortened(s, maxLen);
      var gap := s[at..|s| - |tail|];
      ChopKeepsInk(tail, maxLen);
      NoInk(gap);
      PushKeepsInk(s, s[..at], gap, tail, Chop(tail, maxLen));
    }
  }

  lemma MatchFits(s: string, m: Match)
    requires Matches(s, m)
    ensures m.start < m.end <= m.next <= |s|
  {
  }

  lemma {:induction false} WholeFinds(s: string)
    ensures forall sentence <- Whole(s).sentences :: Speakable(sentence)
    ensures Unfinished(Whole(s).rest)
    decreases |s|
  {
    hide Exec, Trim, Matches;
    ExecIsLeftmost(s);
    if Exec(s).Some? {
      var m := Exec(s).value;
      MatchFits(s, m);
      WholeFinds(s[m.next..]);
      var i, j := TrimIsPart(s[..m.end]);
      assert s[..m.end][i..j] == s[i..j];
      PartOfFirst(s, m, i, j);
    }
  }

  lemma ChopPiece(s: string, at: nat)
    requires Unfinished(s) && at <= |s|
    ensures Trim(s[..at]) != "" ==> Speakable(Trim(s[..at]))
  {
    hide Trim, Unfinished, OneSentence;
    var i, j := TrimIsPart(s[..at]);
    assert s[..at][i..j] == s[i..j];
    PartOfUnfinished(s, i, j);
  }

  lemma ChopRest(s: string, at: nat)
    requires Unfinished(s) && at <= |s|
    ensures Unfinished(TrimStart(s[at..]))
  {
    hide TrimStart, Unfinished, OneSentence;
    var tail := TrimStart(s[at..]);
    assert tail == s[|s| - |tail|..|s|];
    PartOfUnfinished(s, |s| - |tail|, |s|);
  }

  lemma {:induction false} ChopFinds(s: string, maxLen: nat)
    requires Ends(s, maxLen) && Unfinished(s)
    ensures forall sentence <- Chop(s, maxLen).sentences :: Speakable(sentence)
    ensures Unfinished(Chop(s, maxLen).rest)
    decreases |s|
  {
    hide Trim, Matches, TrimStart, Chop, Speakable, Unfinished, LastBlank;
    ChopStep(s, maxLen);
    if |s| > maxLen {
      var at := CutAt(s, maxLen);
      ChopPiece(s, at);
      ChopRest(s, at);
      ChopFinds(TrimStart(s[at..]), maxLen);
    }
  }

  /**
   Extraction loses nothing that is spoken, hands on single sentences only, and leaves a
   short rest in which no sentence has ended yet.
   */
  lemma ExtractSplits(s: string, maxLen: nat)
    requires Ends(Whole(s).rest, maxLen)
    ensures KeepsInk(s, Extract(s, maxLen))
    ensures forall sentence <- Extract(s, maxLen).sentences :: Speakable(sentence)
    ensures Unfinished(Extract(s, maxLen).rest) && |Extract(s, maxLen).rest| <= maxLen
  {
    hide Whole, Chop, Flatten, Ink, Speakable, Unfinished;
    var whole := Whole(s);
    WholeKeepsInk(s);
    WholeFinds(s);
    ChopKeepsInk(whole.rest, maxLen);
    ChopFinds(whole.rest, maxLen);
    var chopped := Chop(whole.rest, maxLen);
    FlattenJoin(whole.sentences, chopped.sentences);
    InkJoin(Flatten(whole.sentences), Flatten(chopped.sentences));
  }
}
