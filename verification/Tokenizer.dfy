/**
 Reading a boot report: splitting its lines into arguments, taking out the options
 the caller supplies itself, and simplifying the EFI partition reference.
 */
module Tokenizer {
  import opened JsText
  import opened Sequences

  // ---------------------------------------------------------------------------
  // Tokens
  // ---------------------------------------------------------------------------

  /** The tokenizer in the middle of a line. */
  datatype Scan = Scan(out: seq<string>, cur: string, inQuote: bool)

  const START: Scan := Scan([], "", false)

  function Push(out: seq<string>, cur: string): seq<string> {
    if Trim(cur) == "" then out else out + [Trim(cur)]
  }

  function Next(sc: Scan, c: char): Scan {
    if c == '\'' then Scan(sc.out, sc.cur + [c], !sc.inQuote)
    else if !sc.inQuote && IsSpace(c) then Scan(Push(sc.out, sc.cur), "", false)
    else Scan(sc.out, sc.cur + [c], sc.inQuote)
  }

  function ScanFrom(sc: Scan, s: string): Scan {
    if s == "" then sc else Next(ScanFrom(sc, s[..|s| - 1]), s[|s| - 1])
  }

  function Tokens(s: string): seq<string> {
    var sc := ScanFrom(START, s);
    Push(sc.out, sc.cur)
  }

  method TokenizeMkisofsReportLine(s: string) returns (out: seq<string>)
    ensures out == Tokens(s)
  {
    hide Trim, IsSpace;
    out := [];
    var cur, inQuote := "", false;
    for i := 0 to |s|
      invariant Scan(out, cur, inQuote) == ScanFrom(START, s[..i])
    {
      assert s[..i + 1][..i] == s[..i];
      var c := s[i];
      if c == '\'' {
        inQuote := !inQuote;
        cur := cur + [c];
        continue;
      }
      if !inQuote && IsSpace(c) {
        if Trim(cur) != "" {
          out := out + [Trim(cur)];
        }
        cur := "";
        continue;
      }
      cur := cur + [c];
    }
    assert s[..|s|] == s;
    if Trim(cur) != "" {
      out := out + [Trim(cur)];
    }
  }

  /** Whether `s` leaves a quote open. */
  predicate Open(s: string) {
    s != "" && (if s[|s| - 1] == '\'' then !Open(s[..|s| - 1]) else Open(s[..|s| - 1]))
  }

  lemma OpenAppend(s: string, c: char)
    ensures Open(s + [c]) == if c == '\'' then !Open(s) else Open(s)
  {
    assert (s + [c])[..|s|] == s;
  }

  /** White space occurs inside quotes only. */
  ghost predicate Quoted(t: string) {
    forall i :: 0 <= i < |t| && IsSpace(t[i]) ==> Open(t[..i])
  }

  ghost predicate WellFormed(t: string) {
    t != "" && Quoted(t) && !Open(t)
  }

  /** A token at the end of a line may leave a quote open, but does not end in white space. */
  ghost predicate WellFormedLast(t: string) {
    t != "" && Quoted(t) && !IsSpace(t[|t| - 1])
  }

  ghost predicate Formed(tokens: seq<string>) {
    && (forall i :: 0 <= i < |tokens| - 1 ==> WellFormed(tokens[i]))
    && (tokens != [] ==> WellFormedLast(tokens[|tokens| - 1]))
  }

  lemma WellFormedIsLast(t: string)
    requires WellFormed(t)
    ensures WellFormedLast(t) && Trim(t) == t
  {
    var n := |t| - 1;
    OpenAppend(t[..n], t[n]);
    assert t[..n] + [t[n]] == t;
    SpaceIsNoQuote(t[n]);
    LastTrimmed(t);
  }

  lemma LastTrimmed(t: string)
    requires WellFormedLast(t)
    ensures Trim(t) == t
  {
    assert t[..0] == "";
    TrimNothing(t);
  }

  lemma QuotedAppend(t: string, c: char)
    requires Quoted(t) && (IsSpace(c) ==> Open(t))
    ensures Quoted(t + [c])
  {
    forall i | 0 <= i < |t + [c]| && IsSpace((t + [c])[i]) ensures Open((t + [c])[..i]) {
      assert (t + [c])[..i] == if i < |t| then t[..i] else t;
    }
  }

  lemma QuotedPrefix(t: string, k: nat)
    requires Quoted(t) && k <= |t|
    ensures Quoted(t[..k])
  {
    forall i | 0 <= i < k && IsSpace(t[..k][i]) ensures Open(t[..k][..i]) {
      assert t[..k][..i] == t[..i];
    }
  }

  /** A line without the white space that separates tokens. */
  function Visible(s: string): string {
    if s == "" then ""
    else
      var before, c := s[..|s| - 1], s[|s| - 1];
      Visible(before) + if IsSpace(c) && !Open(before) then "" else [c]
  }

  /** What the tokenizer knows in the middle of a line. */
  ghost predicate ScanOk(s: string, sc: Scan) {
    && sc.inQuote == Open(s) == Open(sc.cur)
    && Quoted(sc.cur)
    && (forall t <- sc.out :: WellFormed(t))
    && Flatten(sc.out) + sc.cur == Visible(s)
  }

  lemma PushOk(out: seq<string>, cur: string)
    requires Quoted(cur) && !Open(cur) && forall t <- out :: WellFormed(t)
    ensures forall t <- Push(out, cur) :: WellFormed(t)
    ensures Flatten(Push(out, cur)) == Flatten(out) + cur
  {
    hide Trim, Open, Quoted;
    if cur == "" {
      TrimNothing("");
      assert Flatten(out) + "" == Flatten(out);
    } else {
      WellFormedIsLast(cur);
    }
  }

  lemma NextOk(s: string, sc: Scan, c: char)
    requires ScanOk(s, sc)
    ensures ScanOk(s + [c], Next(sc, c))
  {
    hide Trim, Open, IsSpace, Push, Quoted;
    OpenAppend(s, c);
    OpenAppend(sc.cur, c);
    assert (s + [c])[..|s|] == s;
    if c != '\'' && !sc.inQuote && IsSpace(c) {
      PushOk(sc.out, sc.cur);
      NothingRead();
      assert Flatten(sc.out) + sc.cur + "" == Flatten(sc.out) + sc.cur;
    } else {
      SpaceIsNoQuote(c);
      QuotedAppend(sc.cur, c);
      assert Flatten(sc.out) + sc.cur + [c] == Flatten(sc.out) + (sc.cur + [c]);
    }
  }

  lemma SpaceIsNoQuote(c: char)
    ensures IsSpace(c) ==> c != '\''
  {
  }

  lemma NothingRead()
    ensures ScanOk("", START) && !Open("") && Quoted("")
  {
  }

  lemma {:induction false} ScanFromOk(s: string)
    ensures ScanOk(s, ScanFrom(START, s))
  {
    hide ScanOk, Next;
    if s == "" {
      NothingRead();
    } else {
      ScanFromOk(s[..|s| - 1]);
      NextOk(s[..|s| - 1], ScanFrom(START, s[..|s| - 1]), s[|s| - 1]);
      assert s[..|s| - 1] + [s[|s| - 1]] == s;
    }
  }

  lemma TrimOpen(cur: string)
    requires Quoted(cur) && Open(cur)
    ensures WellFormedLast(Trim(cur))
  {
    hide IsSpace, TrimEnd, TrimStart;
    assert cur[..0] == "";
    assert TrimStart(cur) == cur;
    var t := TrimEnd(cur);
    if t == "" {
      BlankIsClosed(cur);
      assert false;
    }
    QuotedPrefix(cur, |t|);
  }

  lemma {:induction false} BlankIsClosed(s: string)
    requires AllSpaces(s)
    ensures !Open(s)
  {
    if s != "" {
      BlankIsClosed(s[..|s| - 1]);
      SpaceIsNoQuote(s[|s| - 1]);
    }
  }

  /** Tokens are never empty, and hold white space only where it was quoted. */
  lemma TokensFormed(s: string)
    ensures Formed(Tokens(s))
    ensures !Open(s) ==> forall t <- Tokens(s) :: WellFormed(t)
  {
    hide Trim, Open, IsSpace, Quoted, ScanFrom;
    ScanFromOk(s);
    var sc := ScanFrom(START, s);
    if Open(s) {
      TrimOpen(sc.cur);
      assert Tokens(s) == sc.out + [Trim(sc.cur)];
    } else {
      PushOk(sc.out, sc.cur);
      assert forall t <- Tokens(s) :: WellFormed(t);
      forall t | WellFormed(t) ensures WellFormedLast(t) {
        WellFormedIsLast(t);
      }
    }
  }

  /** Of a line whose quotes are closed, the tokens lose nothing but the white space between them. */
  lemma TokensKeepText(s: string)
    requires !Open(s)
    ensures Flatten(Tokens(s)) == Visible(s)
  {
    hide Trim, Open, Quoted, ScanFrom, Flatten;
    ScanFromOk(s);
    PushOk(ScanFrom(START, s).out, ScanFrom(START, s).cur);
  }

  /** `tokens.join(' ')` */
  function Join(tokens: seq<string>): string {
    if tokens == [] then ""
    else if |tokens| == 1 then tokens[0]
    else Join(tokens[..|tokens| - 1]) + " " + tokens[|tokens| - 1]
  }

  lemma {:induction false} ScanInTwo(sc: Scan, a: string, b: string)
    ensures ScanFrom(sc, a + b) == ScanFrom(ScanFrom(sc, a), b)
  {
    hide Next;
    if b == "" {
      assert a + b == a;
    } else {
      ScanInTwo(sc, a, b[..|b| - 1]);
      assert (a + b)[..|a + b| - 1] == a + b[..|b| - 1];
    }
  }

  lemma {:induction false} ScanToken(out: seq<string>, t: string, k: nat)
    requires Quoted(t) && k <= |t|
    ensures ScanFrom(Scan(out, "", false), t[..k]) == Scan(out, t[..k], Open(t[..k]))
  {
    hide IsSpace, Push;
    if k > 0 {
      ScanToken(out, t, k - 1);
      assert t[..k][..k - 1] == t[..k - 1];
      assert t[..k - 1] + [t[k - 1]] == t[..k];
    }
  }

  lemma {:induction false} ScanJoined(tokens: seq<string>)
    requires tokens != [] && Formed(tokens)
    ensures var init, last := tokens[..|tokens| - 1], tokens[|tokens| - 1];
            ScanFrom(START, Join(tokens)) == Scan(init, last, Open(last))
  {
    hide Trim, Quoted, Open, ScanFrom;
    var init, last := tokens[..|tokens| - 1], tokens[|tokens| - 1];
    ScanToken(init, last, |last|);
    assert last[..|last|] == last;
    if |tokens| > 1 {
      var previous := init[|init| - 1];
      WellFormedIsLast(previous);
      ScanJoined(init);
      ScanInTwo(START, Join(init) + " ", last);
      ScanInTwo(START, Join(init), " ");
      ScanBlank(Scan(init[..|init| - 1], previous, Open(previous)));
      assert init[..|init| - 1] + [previous] == init;
    }
  }

  lemma ScanBlank(sc: Scan)
    requires !sc.inQuote
    ensures ScanFrom(sc, " ") == Scan(Push(sc.out, sc.cur), "", false)
  {
    assert " "[..0] == "";
  }

  /** Joining tokens with spaces and tokenizing gives the tokens back. */
  lemma JoinThenTokenize(tokens: seq<string>)
    requires Formed(tokens)
    ensures Tokens(Join(tokens)) == tokens
  {
    hide Quoted, Open, Trim;
    if tokens == [] {
      TrimNothing("");
      assert ScanFrom(START, "") == START;
    } else {
      ScanJoined(tokens);
      LastTrimmed(tokens[|tokens| - 1]);
    }
  }

  /** Tokenizing again changes nothing, for every line, balanced or not. */
  lemma TokenizeAgain(s: string)
    ensures Tokens(Join(Tokens(s))) == Tokens(s)
  {
    TokensFormed(s);
    JoinThenTokenize(Tokens(s));
  }

  // ---------------------------------------------------------------------------
  // Options that are taken out
  // ---------------------------------------------------------------------------

  datatype Filter = VolumeAndDate | Output

  const DATE_OPTION: string := "--modification-date"

  /** An option that goes together with the argument after it. */
  predicate TakesArgument(f: Filter, t: string) {
    match f
    case VolumeAndDate => t == "-V" || t == DATE_OPTION
    case Output => t == "-o"
  }

  predicate Dropped(f: Filter, t: string) {
    TakesArgument(f, t) || (f.VolumeAndDate? && DATE_OPTION + "=" <= t)
  }

  /** The token at `i` is the argument of the option before it. */
  predicate IsArgument(f: Filter, tokens: seq<string>, i: nat)
    requires i <= |tokens|
  {
    i > 0 && TakesArgument(f, tokens[i - 1]) && !IsArgument(f, tokens, i - 1)
  }

  /** The tokens before `n` that are neither an option to take out nor the argument of one. */
  function Kept(f: Filter, tokens: seq<string>, n: nat): seq<string>
    requires n <= |tokens|
  {
    if n == 0 then []
    else Kept(f, tokens, n - 1) +
         if Dropped(f, tokens[n - 1]) || IsArgument(f, tokens, n - 1) then [] else [tokens[n - 1]]
  }

  method FilterVolumeAndDate(tokens: seq<string>) returns (out: seq<string>)
    ensures out == Kept(VolumeAndDate, tokens, |tokens|)
  {
    out := [];
    var i := 0;
    while i < |tokens|
      invariant 0 <= i <= |tokens| + 1
      invariant i <= |tokens| ==> !IsArgument(VolumeAndDate, tokens, i)
      invariant out == Kept(VolumeAndDate, tokens, if i <= |tokens| then i else |tokens|)
    {
      var t := tokens[i];
      if t == "-V" {
        i := i + 2;
      } else if DATE_OPTION + "=" <= t {
        i := i + 1;
      } else if t == DATE_OPTION {
        i := i + 2;
      } else {
        out := out + [t];
        i := i + 1;
      }
    }
  }

  method StripOutputSpecifier(tokens: seq<string>) returns (out: seq<string>)
    ensures out == Kept(Output, tokens, |tokens|)
  {
    out := [];
    var i := 0;
    while i < |tokens|
      invariant 0 <= i <= |tokens| + 1
      invariant i <= |tokens| ==> !IsArgument(Output, tokens, i)
      invariant out == Kept(Output, tokens, if i <= |tokens| then i else |tokens|)
    {
      if tokens[i] == "-o" {
        i := i + 2;
      } else {
        out := out + [tokens[i]];
        i := i + 1;
      }
    }
  }

  predicate Stays(f: Filter, tokens: seq<string>, i: nat)
    requires i < |tokens|
  {
    !Dropped(f, tokens[i]) && !IsArgument(f, tokens, i)
  }

  function Places(f: Filter, tokens: seq<string>, n: nat): seq<nat>
    requires n <= |tokens|
  {
    if n == 0 then [] else Places(f, tokens, n - 1) + if Stays(f, tokens, n - 1) then [n - 1] else []
  }

  /** The places kept are in order, and are exactly those there is no reason to drop. */
  lemma {:induction false} PlacesInOrder(f: Filter, tokens: seq<string>, n: nat)
    requires n <= |tokens|
    ensures forall p <- Places(f, tokens, n) :: p < n && Stays(f, tokens, p)
    ensures forall p: nat | p < n && Stays(f, tokens, p) :: p in Places(f, tokens, n)
    ensures Increasing(Places(f, tokens, n))
  {
    hide Stays;
    if n > 0 {
      var before := Places(f, tokens, n - 1);
      PlacesInOrder(f, tokens, n - 1);
      forall i | 0 <= i < |before| ensures before[i] < n - 1 {
        assert before[i] in before;
      }
    }
  }

  /** A filter's output is what its input holds at those places. */
  lemma {:induction false} KeptAtPlaces(f: Filter, tokens: seq<string>, n: nat)
    requires n <= |tokens|
    ensures var kept, places := Kept(f, tokens, n), Places(f, tokens, n);
            |kept| == |places| && forall i :: 0 <= i < |kept| ==> places[i] < n && kept[i] == tokens[places[i]]
  {
    if n > 0 {
      KeptAtPlaces(f, tokens, n - 1);
    }
  }

  /** None of the options is left. */
  lemma {:induction false} KeptIsClean(f: Filter, tokens: seq<string>, n: nat)
    requires n <= |tokens|
    ensures forall t <- Kept(f, tokens, n) :: !Dropped(f, t) && t in tokens
  {
    if n > 0 {
      KeptIsClean(f, tokens, n - 1);
    }
  }

  /** Without such options the tokens stay as they are; so filtering twice is filtering once. */
  lemma {:induction false} CleanIsKept(f: Filter, tokens: seq<string>, n: nat)
    requires n <= |tokens| && forall t <- tokens :: !Dropped(f, t)
    ensures Kept(f, tokens, n) == tokens[..n]
  {
    if n > 0 {
      CleanIsKept(f, tokens, n - 1);
      assert n < 2 || tokens[n - 2] in tokens;
    }
  }

  lemma FilterTwice(f: Filter, tokens: seq<string>)
    ensures var once := Kept(f, tokens, |tokens|); Kept(f, once, |once|) == once
  {
    var once := Kept(f, tokens, |tokens|);
    KeptIsClean(f, tokens, |tokens|);
    CleanIsKept(f, once, |once|);
    assert once[..|once|] == once;
  }

  /** The options a filter takes out together with what follows them. */
  function OptionsOf(f: Filter): set<string> {
    if f.VolumeAndDate? then {"-V", "--modification-date"} else {"-o"}
  }

  /** The `k` tokens before place `i`, and no more, are such options. */
  ghost predicate OptionsBefore(f: Filter, tokens: seq<string>, i: nat, k: nat) {
    && k <= i <= |tokens|
    && (forall j :: i - k <= j < i ==> tokens[j] in OptionsOf(f))
    && (k < i ==> tokens[i - k - 1] !in OptionsOf(f))
  }

  /** A token is an argument if and only if an odd number of options stands in front of it: of each two one is an argument. */
  lemma {:induction false} ArgumentIff(f: Filter, tokens: seq<string>, i: nat, k: nat)
    requires OptionsBefore(f, tokens, i, k)
    ensures IsArgument(f, tokens, i) <==> k % 2 == 1
  {
    if k > 0 {
      assert tokens[i - 1] in OptionsOf(f);
      ArgumentIff(f, tokens, i - 1, k - 1);
    }
  }

  /** What stays is what is no option itself and no argument of one. */
  lemma StaysIff(f: Filter, tokens: seq<string>, i: nat, k: nat)
    requires i < |tokens| && OptionsBefore(f, tokens, i, k)
    ensures Stays(f, tokens, i) <==>
              && tokens[i] !in OptionsOf(f) && k % 2 == 0
              && (f.VolumeAndDate? ==> !("--modification-date=" <= tokens[i]))
  {
    ArgumentIff(f, tokens, i, k);
    assert DATE_OPTION + "=" == "--modification-date=";
  }

  // ---------------------------------------------------------------------------
  // The EFI partition
  // ---------------------------------------------------------------------------

  const STOCK_PARTITION: string := "appended_partition_2_start"

  const RELATIVE_PARTITION: string := "--interval:appended_partition_2:::"

  predicate Includes(s: string, part: string) {
    exists i: nat | i <= |s| :: At(s, part, i)
  }

  predicate At(s: string, part: string, i: nat) {
    i + |part| <= |s| && s[i..i + |part|] == part
  }

  /** The token at `i` is the argument of `-e` and names a sector range of the stock image. */
  predicate IsStockEfi(tokens: seq<string>, i: nat)
    requires i < |tokens|
  {
    i > 0 && tokens[i - 1] == "-e" && Includes(tokens[i], STOCK_PARTITION)
  }

  function Simplified(tokens: seq<string>): seq<string> {
    seq(|tokens|, i requires 0 <= i < |tokens| => if IsStockEfi(tokens, i) then RELATIVE_PARTITION else tokens[i])
  }

  lemma OptionIsNotStock()
    ensures !Includes("-e", STOCK_PARTITION)
  {
  }

  method SimplifyAppendedPartitionEfi(tokens: seq<string>) returns (out: seq<string>)
    ensures out == Simplified(tokens)
  {
    out := [];
    var i := 0;
    OptionIsNotStock();
    while i < |tokens|
      invariant 0 <= i == |out| <= |tokens|
      invariant out == Simplified(tokens)[..i]
      invariant i < |tokens| ==> !IsStockEfi(tokens, i)
    {
      var t := tokens[i];
      if t == "-e" && i + 1 < |tokens| && Includes(tokens[i + 1], STOCK_PARTITION) {
        out := out + ["-e", RELATIVE_PARTITION];
        i := i + 2;
      } else {
        out := out + [t];
        i := i + 1;
      }
    }
  }

  lemma Literals()
    ensures |RELATIVE_PARTITION| == 34 && RELATIVE_PARTITION[..10] == "--interval"
    ensures |STOCK_PARTITION| == 26 && STOCK_PARTITION[..2] == "ap"
  {
  }

  lemma RelativeIsNotStock()
    ensures !Includes(RELATIVE_PARTITION, STOCK_PARTITION)
  {
    hide RELATIVE_PARTITION, STOCK_PARTITION;
    Literals();
    var s, part := RELATIVE_PARTITION, STOCK_PARTITION;
    forall i: nat | i <= |s| ensures !At(s, part, i) {
      if i <= 8 {
        assert s[i..i + 26][0] == "--interval"[i] && s[i..i + 26][1] == "--interval"[i + 1];
        assert part[0] == "ap"[0] && part[1] == "ap"[1];
      }
    }
  }

  /** The simplified arguments hold no stock reference after `-e`, and simplifying again changes nothing. */
  lemma SimplifyTwice(tokens: seq<string>)
    ensures forall i :: 0 <= i < |tokens| ==> !IsStockEfi(Simplified(tokens), i)
    ensures Simplified(Simplified(tokens)) == Simplified(tokens)
  {
    RelativeIsNotStock();
    var out := Simplified(tokens);
    forall i | 0 <= i < |out| ensures !IsStockEfi(out, i) {
      if i > 0 && out[i - 1] == "-e" && !IsStockEfi(tokens, i) {
        assert tokens[i - 1] == "-e";
      }
    }
  }

  /**
   Exactly the arguments of `-e` that contain the stock image's reference are replaced, by the reference to the
   appended partition.
   */
  lemma SimplifiedMeans(tokens: seq<string>, i: nat)
    requires i < |tokens|
    ensures |Simplified(tokens)| == |tokens|
    ensures forall before: string, after: string |
              i > 0 && tokens[i - 1] == "-e" && tokens[i] == before + "appended_partition_2_start" + after ::
              Simplified(tokens)[i] == "--interval:appended_partition_2:::"
    ensures Simplified(tokens)[i] != tokens[i] ==>
              i > 0 && tokens[i - 1] == "-e" &&
              exists before: string, after: string :: tokens[i] == before + "appended_partition_2_start" + after
  {
    var t := tokens[i];
    forall before: string, after: string | t == before + STOCK_PARTITION + after ensures Includes(t, STOCK_PARTITION) {
      assert At(t, STOCK_PARTITION, |before|);
    }
    if Includes(t, STOCK_PARTITION) {
      var k: nat :| k <= |t| && At(t, STOCK_PARTITION, k);
      assert t == t[..k] + STOCK_PARTITION + t[k + |STOCK_PARTITION|..];
    }
  }
}
