/**
 When the sentences of a text do not depend on its coming in two parts.
 */
module SpeechChunks {
  import opened Option
  import opened JsText
  import opened Speech

  /** The text ends with a sentence mark, or with one and a closing character. */
  predicate EndsSentence(s: string) {
    s != "" && (IsMark(s[|s| - 1]) || (|s| > 1 && IsCloser(s[|s| - 1]) && IsMark(s[|s| - 2])))
  }

  lemma EndMatch(s: string)
    requires EndsSentence(s)
    ensures Exec(s).Some?
  {
    var m := Match(if IsMark(s[|s| - 1]) then |s| - 1 else |s| - 2, |s|, |s|);
    assert s[m.end..m.next] == "";
    assert Matches(s, m);
    ExecIsLeftmost(s);
  }

  lemma MatchAtEnd(s: string, m: Match)
    requires Matches(s, m) && m.end == |s|
    ensures EndsSentence(s)
  {
    assert |s| > 1 && m.start < |s| - 1 ==> IsMark(s[|s| - 2]);
  }

  lemma SpacesBetween(s: string, m: Match, k: nat)
    requires Matches(s, m) && m.end <= k < m.next
    ensures IsSpace(s[k])
  {
    assert s[k] == s[m.end..m.next][k - m.end];
  }

  // ---------------------------------------------------------------------------
  // The first sentence of a longer text
  // ---------------------------------------------------------------------------

  lemma ExecIs(s: string, m: Match)
    requires Matches(s, m) && (m.next == |s| || !IsSpace(s[m.next]))
    requires forall other | Matches(s, other) :: m.start <= other.start
    ensures Exec(s) == Some(m)
  {
    ExecFromIsLeftmost(s, 0);
    var r := Exec(s).value;
    assert m.start == r.start && m.end == r.end && m.next <= r.next;
    if m.next < r.next {
      SpacesBetween(s, r, m.next);
      assert false;
    }
  }

  lemma LongerMatch(s: string, m: Match)
    requires Matches(s, m)
    ensures m.next < |s| && IsSpace(s[m.next]) ==> Matches(s, m.(next := m.next + 1))
  {
    hide IsSpace, IsMark, IsCloser;
    if m.next < |s| {
      assert s[m.end..m.next + 1] == s[m.end..m.next] + [s[m.next]];
    }
  }

  lemma ExecTakesSpaces(s: string)
    requires Exec(s).Some?
    ensures var m := Exec(s).value; Matches(s, m) && (m.next == |s| || !IsSpace(s[m.next]))
  {
    ExecFromIsLeftmost(s, 0);
    var m := Exec(s).value;
    hide Matches, IsSpace, ExecFrom;
    LongerMatch(s, m);
    MatchFits(s, m);
  }

  /** What matches in a longer text, and starts before a match of the shorter one, matches in the shorter one. */
  lemma EarlierMatch(s: string, t: string, m: Match, longer: Match)
    requires Matches(s, m) && Matches(s + t, longer) && longer.start < m.start
    ensures exists other :: Matches(s, other) && other.start == longer.start
  {
    assert forall k :: 0 <= k < |s| ==> (s + t)[k] == s[k];
    if longer.end < |s| {
      SpacesBetween(s + t, longer, longer.end);
      var other := longer.(next := longer.end + 1);
      assert s[other.end..other.next] == [s[other.end]];
      assert Matches(s, other);
    } else {
      var other := m.(start := longer.start);
      assert Matches(s, other);
    }
  }

  function Lead(t: string): (k: nat)
    ensures k <= |t| && AllSpaces(t[..k]) && (k == |t| || !IsSpace(t[k]))
  {
    var k := SpacesEnd(t, 0);
    assert t[0..k] == t[..k];
    k
  }

  /** The first match of a text stays the first one when more text comes, if white space follows it. */
  lemma FirstStays(s: string, t: string)
    requires Exec(s).Some?
    requires Exec(s).value.end < |s| || (t != "" && IsSpace(t[0]))
    ensures var m := Exec(s).value;
            && Matches(s, m)
            && Exec(s + t) == Some(m.(next := if m.next < |s| then m.next else |s| + Lead(t)))
  {
    hide Exec;
    ExecTakesSpaces(s);
    ExecIsLeftmost(s);
    var m := Exec(s).value;
    var w := m.(next := if m.next < |s| then m.next else |s| + Lead(t));
    StaysMatch(s, t, m, w);
    forall other | Matches(s + t, other) ensures w.start <= other.start {
      if other.start < m.start {
        EarlierMatch(s, t, m, other);
        assert false;
      }
    }
    assert w.next < |s + t| ==> (s + t)[w.next] == if m.next < |s| then s[m.next] else t[Lead(t)];
    ExecIs(s + t, w);
  }

  lemma StaysMatch(s: string, t: string, m: Match, w: Match)
    requires Matches(s, m) && (m.end < |s| || (t != "" && IsSpace(t[0])))
    requires w == m.(next := if m.next < |s| then m.next else |s| + Lead(t))
    ensures Matches(s + t, w)
  {
    assert forall k :: 0 <= k < |s| ==> (s + t)[k] == s[k];
    if m.next < |s| {
      assert (s + t)[w.end..w.next] == s[m.end..m.next];
    } else {
      assert (s + t)[w.end..w.next] == s[m.end..m.next] + t[..Lead(t)];
    }
  }

  // ---------------------------------------------------------------------------
  // White space in front
  // ---------------------------------------------------------------------------

  lemma {:induction false} TrimStartSkips(blanks: string, s: string)
    requires AllSpaces(blanks)
    ensures TrimStart(blanks + s) == TrimStart(s)
  {
    if blanks == "" {
      assert blanks + s == s;
    } else {
      assert (blanks + s)[1..] == blanks[1..] + s;
      assert blanks[0] in blanks;
      TrimStartSkips(blanks[1..], s);
    }
  }

  lemma AfterBlanks(blanks: string, t: string, m: Match)
    requires AllSpaces(blanks) && Matches(blanks + t, m)
    ensures |blanks| <= m.start
  {
    hide IsSpace;
    NoSpaceInside(blanks + t, m, m.start);
    forall k | 0 <= k < |blanks| ensures IsSpace((blanks + t)[k]) {
      assert (blanks + t)[k] == blanks[k] && blanks[k] in blanks;
    }
  }

  lemma TailMatches(s: string, n: nat, m: Match)
    requires Matches(s, m) && n <= m.start
    ensures n <= |s| && Matches(s[n..], Match(m.start - n, m.end - n, m.next - n))
  {
    hide IsSpace, IsMark, IsCloser;
    var t := s[n..];
    assert t == s[n..|s|];
    SliceOfSlice(s, n, |s|, m.end - n, m.next - n);
    assert forall k :: 0 <= k < |t| ==> t[k] == s[k + n];
  }

  lemma ShiftedMatch(blanks: string, t: string, m: Match)
    requires AllSpaces(blanks) && Matches(blanks + t, m)
    ensures |blanks| <= m.start
    ensures Matches(t, Match(m.start - |blanks|, m.end - |blanks|, m.next - |blanks|))
  {
    hide Matches, AllSpaces;
    AfterBlanks(blanks, t, m);
    TailMatches(blanks + t, |blanks|, m);
    assert (blanks + t)[|blanks|..] == t;
  }

  lemma NoneBefore(blanks: string, t: string, other: Match)
    requires AllSpaces(blanks) && Matches(blanks + t, other)
    ensures Exec(t).Some? && |blanks| + Exec(t).value.start <= other.start
  {
    hide Exec, AllSpaces;
    ShiftedMatch(blanks, t, other);
    var shifted := Match(other.start - |blanks|, other.end - |blanks|, other.next - |blanks|);
    assert Matches(t, shifted);
    ExecIsLeftmost(t);
  }

  lemma MatchAhead(blanks: string, t: string)
    requires AllSpaces(blanks)
    ensures Exec(t).None? ==> Exec(blanks + t).None?
    ensures Exec(t).Some? ==>
      var m, n := Exec(t).value, |blanks|;
      Matches(t, m) && Exec(blanks + t) == Some(Match(m.start + n, m.end + n, m.next + n))
  {
    hide Exec, Matches, AllSpaces, IsSpace;
    var s, n := blanks + t, |blanks|;
    assert s[n..] == t;
    ExecIsLeftmost(s);
    forall other | Matches(s, other) ensures Exec(t).Some? && n + Exec(t).value.start <= other.start {
      NoneBefore(blanks, t, other);
    }
    if Exec(t).Some? {
      ExecTakesSpaces(t);
      var m := Exec(t).value;
      MatchInTail(s, n, m);
      MatchFits(t, m);
      assert m.next < |t| ==> s[m.next + n] == t[m.next];
      ExecIs(s, Match(m.start + n, m.end + n, m.next + n));
    }
  }

  /** White space in front of a text changes none of its pieces. */
  lemma BlanksAhead(blanks: string, t: string)
    requires AllSpaces(blanks)
    ensures Whole(blanks + t).sentences == Whole(t).sentences
  {
    hide Exec, Trim, Whole, AllSpaces;
    var s, n := blanks + t, |blanks|;
    MatchAhead(blanks, t);
    WholeStep(t);
    WholeStep(s);
    if Exec(t).Some? {
      var m := Exec(t).value;
      MatchFits(t, m);
      assert s[..m.end + n] == blanks + t[..m.end];
      TrimSkips(blanks, t[..m.end]);
      assert s[m.next + n..] == t[m.next..];
    }
  }

  lemma TrimSkips(blanks: string, s: string)
    requires AllSpaces(blanks)
    ensures Trim(blanks + s) == Trim(s)
  {
    TrimStartSkips(blanks, s);
  }

  // ---------------------------------------------------------------------------
  // Where the pieces agree
  // ---------------------------------------------------------------------------

  /** The pieces of a text that comes in two parts. */
  function InTwo(s: string, t: string): seq<string> {
    Whole(s).sentences + Whole(Whole(s).rest + t).sentences
  }

  lemma NothingMore(s: string)
    requires Unfinished(s)
    ensures Whole(s) == Split([], s)
  {
    ExecIsLeftmost(s);
  }

  function Pieces(s: string): seq<string> {
    if s == "" then [] else [s]
  }

  lemma PushIs(piece: string, split: Split)
    ensures Push(piece, split) == Split(Pieces(piece) + split.sentences, split.rest)
  {
    assert [] + split.sentences == split.sentences;
  }

  lemma FirstSentence(s: string, t: string)
    requires Exec(s).Some? && (Exec(s).value.end < |s| || (t != "" && IsSpace(t[0])))
    ensures var m := Exec(s).value;
            && m.end <= m.next <= |s| && 0 < m.next
            && Whole(s + t) == Push(Trim(s[..m.end]), Whole((s + t)[if m.next < |s| then m.next else |s| + Lead(t)..]))
  {
    hide Exec, Trim, Whole, Matches, Push;
    var m := Exec(s).value;
    FirstStays(s, t);
    MatchFits(s, m);
    WholeStep(s + t);
    assert (s + t)[..m.end] == s[..m.end];
  }

  /** What follows the first sentence of the longer text, white space aside. */
  lemma AfterFirst(s: string, t: string)
    requires Exec(s).Some? && (Exec(s).value.end < |s| || (t != "" && IsSpace(t[0])))
    ensures var m := Exec(s).value;
            && m.end <= m.next <= |s| && 0 < m.next
            && Whole(s + t).sentences == Pieces(Trim(s[..m.end])) + Whole(s[m.next..] + t).sentences
  {
    hide Exec, Trim, Whole, Matches, Lead, Push;
    var m := Exec(s).value;
    FirstSentence(s, t);
    if m.next < |s| {
      assert (s + t)[m.next..] == s[m.next..] + t;
      PushIs(Trim(s[..m.end]), Whole(s[m.next..] + t));
    } else {
      assert s[m.next..] + t == t[..Lead(t)] + t[Lead(t)..];
      assert (s + t)[|s| + Lead(t)..] == t[Lead(t)..];
      BlanksAhead(t[..Lead(t)], t[Lead(t)..]);
      PushIs(Trim(s[..m.end]), Whole(t[Lead(t)..]));
    }
  }

  /** The first sentence is the same, and the rest of the question is about what follows it. */
  lemma InTwoStep(s: string, t: string)
    requires Exec(s).Some? && (Exec(s).value.end < |s| || (t != "" && IsSpace(t[0])))
    ensures var m := Exec(s).value;
            && m.end <= m.next <= |s| && 0 < m.next
            && (InTwo(s, t) == Whole(s + t).sentences <==> InTwo(s[m.next..], t) == Whole(s[m.next..] + t).sentences)
  {
    hide Exec, Trim, Whole;
    var m := Exec(s).value;
    AfterFirst(s, t);
    WholeStep(s);
    var piece, left := Trim(s[..m.end]), Whole(s[m.next..]);
    PushIs(piece, left);
    SamePrefix(Pieces(piece), left.sentences, Whole(left.rest + t).sentences, Whole(s[m.next..] + t).sentences);
  }

  lemma SamePrefix(prefix: seq<string>, a: seq<string>, b: seq<string>, c: seq<string>)
    ensures prefix + a + b == prefix + c <==> a + b == c
  {
    assert prefix + a + b == prefix + (a + b);
    assert (prefix + (a + b))[|prefix|..] == a + b && (prefix + c)[|prefix|..] == c;
  }

  lemma {:induction false} Agree(s: string, t: string)
    requires t == "" || IsSpace(t[0]) || !EndsSentence(s)
    ensures InTwo(s, t) == Whole(s + t).sentences
    decreases |s|
  {
    hide Exec, Trim, Whole;
    ExecIsLeftmost(s);
    if t == "" {
      WholeFinds(s);
      NothingMore(Whole(s).rest);
      assert Whole(s).rest + t == Whole(s).rest && s + t == s;
      assert Whole(s).sentences + [] == Whole(s).sentences;
    } else if Exec(s).None? {
      NothingMore(s);
      assert [] + Whole(s + t).sentences == Whole(s + t).sentences;
    } else {
      var m := Exec(s).value;
      if m.end == |s| {
        MatchAtEnd(s, m);
      }
      InTwoStep(s, t);
      Agree(s[m.next..], t);
    }
  }

  // ---------------------------------------------------------------------------
  // Where they do not
  // ---------------------------------------------------------------------------

  lemma TrimStartStep(s: string)
    ensures s != "" ==> TrimStart(s) == if IsSpace(s[0]) then TrimStart(s[1..]) else s
  {
  }

  lemma {:induction false} TrimStartJoin(x: string, y: string)
    requires TrimStart(x) != ""
    ensures TrimStart(x + y) == TrimStart(x) + y
  {
    hide TrimStart, AllSpaces, IsSpace;
    TrimStartStep(x);
    TrimStartStep(x + y);
    assert (x + y)[0] == x[0];
    if IsSpace(x[0]) {
      TrimStartJoin(x[1..], y);
      assert (x + y)[1..] == x[1..] + y;
    }
  }

  lemma TrimEndNothing(s: string)
    requires s != "" && !IsSpace(s[|s| - 1])
    ensures TrimEnd(s) == s
  {
  }

  lemma NotBlank(s: string)
    requires s != "" && !IsSpace(s[|s| - 1])
    ensures TrimStart(s) != "" && TrimStart(s)[|TrimStart(s)| - 1] == s[|s| - 1]
  {
    TrimBlank(s);
    assert s[|s| - 1] in s;
  }

  /** A longer text whose both ends count is longer when it is trimmed. */
  lemma TrimGrows(x: string, y: string)
    requires x != "" && !IsSpace(x[|x| - 1]) && y != "" && !IsSpace(y[|y| - 1])
    ensures 0 < |Trim(x)| < |Trim(x + y)|
  {
    hide TrimStart, TrimEnd, IsSpace;
    NotBlank(x);
    TrimStartJoin(x, y);
    TrimEndNothing(TrimStart(x));
    TrimEndNothing(TrimStart(x) + y);
  }

  /** When the first sentence ends with the text, and more of it follows, it ends later in the longer text. */
  lemma EndsLater(s: string, t: string, m: Match, longer: Match)
    requires Exec(s) == Some(m) && m.end == |s| && t != "" && !IsSpace(t[0]) && Matches(s + t, longer)
    ensures longer.end > |s|
  {
    ExecIsLeftmost(s);
    if longer.end <= |s| {
      SpacesBetween(s + t, longer, longer.end);
      var other := longer.(next := longer.end + 1);
      assert forall k :: 0 <= k < |s| ==> (s + t)[k] == s[k];
      assert s[other.end..other.next] == [s[other.end]];
      assert Matches(s, other);
      NoSpaceInside(s, m, other.end);
      assert false;
    }
  }

  lemma LastIsInk(s: string, m: Match)
    requires Matches(s, m)
    ensures m.end <= |s| && !IsSpace(s[m.end - 1])
  {
    NoSpaceInside(s, m, m.end - 1);
  }

  /** Any piece the longer text begins with is longer than the shorter text's only one. */
  lemma LongerPiece(s: string, t: string, m: Match, w: Match)
    requires Exec(s) == Some(m) && m.end == |s| && t != "" && !IsSpace(t[0]) && Matches(s, m) && Matches(s + t, w)
    ensures w.end <= |s + t| && 0 < |Trim(s)| < |Trim((s + t)[..w.end])|
  {
    hide Trim, IsSpace, Matches, Exec;
    EndsLater(s, t, m, w);
    LastIsInk(s, m);
    LastIsInk(s + t, w);
    MatchFits(s, m);
    var y := t[..w.end - |s|];
    assert (s + t)[..w.end] == s + y;
    assert y[|y| - 1] == (s + t)[w.end - 1];
    TrimGrows(s, y);
  }

  lemma TearsAtEnd(s: string, t: string)
    requires t != "" && !IsSpace(t[0]) && Exec(s).Some? && Exec(s).value.end == |s|
    ensures InTwo(s, t) != Whole(s + t).sentences
  {
    hide Exec, Trim, Whole, Matches, IsSpace;
    ExecIsLeftmost(s);
    ExecIsLeftmost(s + t);
    WholeStep(s);
    WholeStep(s + t);
    var m := Exec(s).value;
    LastIsInk(s, m);
    assert s[..m.end] == s;
    if Exec(s + t).None? {
      TrimGrows(s, [s[|s| - 1]]);
    } else {
      var w := Exec(s + t).value;
      LongerPiece(s, t, m, w);
      assert Whole(s + t).sentences[0] == Trim((s + t)[..w.end]);
    }
  }

  lemma SuffixEndsSentence(s: string, m: Match)
    requires EndsSentence(s) && Matches(s, m) && m.end < |s|
    ensures m.next < |s| && EndsSentence(s[m.next..])
  {
    SpacesBetween(s, m, m.next - 1);
    assert IsMark(s[|s| - 1]) || IsCloser(s[|s| - 1]);
  }

  lemma {:induction false} Tear(s: string, t: string)
    requires t != "" && !IsSpace(t[0]) && EndsSentence(s)
    ensures InTwo(s, t) != Whole(s + t).sentences
    decreases |s|
  {
    hide Exec, Trim, Whole;
    EndMatch(s);
    ExecIsLeftmost(s);
    var m := Exec(s).value;
    if m.end == |s| {
      TearsAtEnd(s, t);
    } else {
      MatchFits(s, m);
      SuffixEndsSentence(s, m);
      InTwoStep(s, t);
      Tear(s[m.next..], t);
    }
  }

  /** Two parts of a text are spoken as the whole is, unless a sentence ends with the first and no white space follows. */
  lemma PartsAgreeIff(s: string, t: string)
    ensures InTwo(s, t) == Whole(s + t).sentences <==> t == "" || IsSpace(t[0]) || !EndsSentence(s)
  {
    if t == "" || IsSpace(t[0]) || !EndsSentence(s) {
      Agree(s, t);
    } else {
      Tear(s, t);
    }
  }
}
