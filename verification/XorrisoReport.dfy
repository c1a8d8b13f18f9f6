/**
 The arguments read from a boot report: tokens without the options the caller
 supplies, and then unquoted, since no shell will do it.
 */
module XorrisoReport {
  import opened JsText
  import opened Tokenizer

  /** How the report writes a quote inside quotes. */
  const ESCAPED_QUOTE: string := "'\"'\"'"
  const INTERVAL: string := "--interval:"

  function ReplaceEscapes(s: string): string {
    if s == "" then ""
    else if ESCAPED_QUOTE <= s then "'" + ReplaceEscapes(s[|ESCAPED_QUOTE|..])
    else [s[0]] + ReplaceEscapes(s[1..])
  }

  function DropNuls(s: string): string {
    if s == "" then "" else (if s[0] == '\0' then "" else [s[0]]) + DropNuls(s[1..])
  }

  function Unescape(s: string): string {
    DropNuls(ReplaceEscapes(s))
  }

  predicate InQuotes(s: string) {
    |s| >= 2 && s[0] == s[|s| - 1] && (s[0] == '\'' || s[0] == '"')
  }

  /** Drops the outer quotes, and only those. */
  function Unquote(s: string): string {
    if InQuotes(s) then s[1..|s| - 1] else s
  }

  /** The last single quote before `n`, or -1. */
  function LastQuote(s: string, n: nat): (k: int)
    requires n <= |s|
    ensures -1 <= k < n && (k >= 0 ==> s[k] == '\'') && forall i :: k < i < n ==> s[i] != '\''
  {
    if n == 0 then -1 else if s[n - 1] == '\'' then n - 1 else LastQuote(s, n - 1)
  }

  /** An absolute path in single quotes, after a colon, at the end of an interval. */
  predicate QuotedPathAt(s: string, k: nat) {
    && 0 < k && k + 3 < |s|
    && s[k - 1] == ':' && s[k] == '\'' && s[k + 1] == '/' && s[|s| - 1] == '\''
    && forall i :: k < i < |s| - 1 ==> s[i] != '\''
  }

  function UnquotePath(s: string): string {
    if s == "" then s
    else
      var k := LastQuote(s, |s| - 1);
      if INTERVAL <= s && k >= 0 && QuotedPathAt(s, k) then s[..k] + s[k + 1..|s| - 1] else s
  }

  function Normalize(raw: string): string {
    UnquotePath(Unquote(Unescape(raw)))
  }

  function NormalizeAll(tokens: seq<string>): seq<string> {
    seq(|tokens|, i requires 0 <= i < |tokens| => Normalize(tokens[i]))
  }

  /** The tokens of a line that both filters keep. */
  function Filtered(line: string): seq<string> {
    var some := Kept(VolumeAndDate, Tokens(line), |Tokens(line)|);
    Kept(Output, some, |some|)
  }

  method ParseRecipe(joined: string) returns (arguments: seq<string>)
    ensures arguments == NormalizeAll(Filtered(joined))
  {
    var tokens := TokenizeMkisofsReportLine(joined);
    var some := FilterVolumeAndDate(tokens);
    var kept := StripOutputSpecifier(some);
    arguments := NormalizeAll(kept);
  }

  // ---------------------------------------------------------------------------
  // What the unquoting does
  // ---------------------------------------------------------------------------

  /** The path in an interval is found if there is one: the expression can match at one place only. */
  lemma PathIsFound(s: string, k: nat)
    requires QuotedPathAt(s, k)
    ensures LastQuote(s, |s| - 1) == k
    ensures INTERVAL <= s ==> UnquotePath(s) == s[..k] + s[k + 1..|s| - 1]
  {
    assert s[k] == '\'';
  }

  /** A volume, date or output option. */
  predicate IsOption(t: string) {
    Dropped(VolumeAndDate, t) || Dropped(Output, t)
  }

  /** None of the filters' options is among the tokens they keep. */
  lemma FilteredIsClean(line: string)
    ensures forall t <- Filtered(line) :: !IsOption(t) && t in Tokens(line)
    ensures forall t <- Filtered(line) :: t !in {"-V", "-o", "--modification-date"} && !("--modification-date=" <= t)
  {
    assert DATE_OPTION + "=" == "--modification-date=";
    var all := Tokens(line);
    var some := Kept(VolumeAndDate, all, |all|);
    KeptIsClean(VolumeAndDate, all, |all|);
    KeptIsClean(Output, some, |some|);
  }

  lemma IntervalIsNoOption(s: string)
    requires INTERVAL <= s
    ensures !IsOption(s)
  {
    assert s[2] == INTERVAL[2] == 'i';
    assert DATE_OPTION[2] == 'm' && (DATE_OPTION + "=")[2] == 'm';
    assert |s| > 2;
  }

  lemma PathKeepsOption(s: string)
    ensures IsOption(UnquotePath(s)) <==> IsOption(s)
  {
    if UnquotePath(s) != s {
      var k := LastQuote(s, |s| - 1);
      assert k >= |INTERVAL| by {
        forall i | 0 <= i < |INTERVAL| ensures s[i] != '\'' {
          assert s[i] == INTERVAL[i];
        }
      }
      assert INTERVAL <= UnquotePath(s);
      IntervalIsNoOption(s);
      IntervalIsNoOption(UnquotePath(s));
    }
  }

  /** Written plainly: no escaped quote and no NUL, so that only the outer quotes can go. */
  predicate Plain(t: string) {
    Unescape(t) == t
  }

  /** An option in quotes. */
  predicate QuotedOption(t: string) {
    InQuotes(t) && IsOption(t[1..|t| - 1])
  }

  /** A token that is no option becomes one if and only if it was one in quotes, once escapes are resolved. */
  lemma BecomesOptionIff(t: string)
    ensures IsOption(Normalize(t)) <==> IsOption(Unquote(Unescape(t)))
    ensures Plain(t) && !IsOption(t) ==> (IsOption(Normalize(t)) <==> QuotedOption(t))
  {
    PathKeepsOption(Unquote(Unescape(t)));
  }

  /** The arguments hold none of the options if and only if no token the filters keep is an option once it is unquoted. */
  lemma CleanIff(line: string)
    ensures (forall a <- NormalizeAll(Filtered(line)) :: !IsOption(a)) <==>
            (forall t <- Filtered(line) :: !IsOption(Unquote(Unescape(t))))
  {
    var kept := Filtered(line);
    var arguments := NormalizeAll(kept);
    forall i | 0 <= i < |kept| ensures IsOption(arguments[i]) <==> IsOption(Unquote(Unescape(kept[i]))) {
      BecomesOptionIff(kept[i]);
    }
    if forall a <- arguments :: !IsOption(a) {
      forall t | t in kept ensures !IsOption(Unquote(Unescape(t))) {
        var i :| 0 <= i < |kept| && kept[i] == t;
        assert arguments[i] in arguments;
      }
    }
  }

  /** For a report without escapes: if and only if no kept token is an option in quotes. */
  lemma PlainCleanIff(line: string)
    requires forall t <- Filtered(line) :: Plain(t)
    ensures (forall a <- NormalizeAll(Filtered(line)) :: !IsOption(a)) <==>
            (forall t <- Filtered(line) :: !QuotedOption(t))
  {
    CleanIff(line);
    FilteredIsClean(line);
    forall t | t in Filtered(line) ensures IsOption(Unquote(Unescape(t))) <==> QuotedOption(t) {
      BecomesOptionIff(t);
    }
  }

  // ---------------------------------------------------------------------------
  // A quoted option
  // ---------------------------------------------------------------------------

  /** Without a double quote or a NUL there is nothing to resolve. */
  lemma {:induction false} NothingEscaped(s: string)
    requires forall c <- s :: c != '"' && c != '\0'
    ensures ReplaceEscapes(s) == s && DropNuls(s) == s
  {
    if s != "" {
      assert ESCAPED_QUOTE[1] == '"' && (|s| > 1 ==> s[1] in s);
      assert s[0] in s && forall c <- s[1..] :: c in s;
      NothingEscaped(s[1..]);
      EscapeStep(s);
      NulStep(s);
    }
  }

  lemma QuotedVolumeFormed()
    ensures WellFormed("'-V'") && !IsOption("'-V'")
  {
    var t := "'-V'";
    assert |t| == 4 && !IsSpace(t[0]) && !IsSpace(t[1]) && !IsSpace(t[2]) && !IsSpace(t[3]);
    assert Quoted(t);
    OpenAppend("", '\'');
    OpenAppend("'", '-');
    OpenAppend("'-", 'V');
    OpenAppend("'-V", '\'');
    assert "'-V" + ['\''] == t && "'-" + ['V'] == "'-V" && "'" + ['-'] == "'-" && "" + ['\''] == "'";
  }

  lemma QuotedVolumeNormal()
    ensures Normalize("'-V'") == "-V"
  {
    hide ReplaceEscapes, DropNuls, UnquotePath;
    var t := "'-V'";
    NothingEscaped(t);
    assert t[1..|t| - 1] == "-V";
    NoInterval("-V");
  }

  lemma NoInterval(s: string)
    requires |s| < |INTERVAL|
    ensures UnquotePath(s) == s
  {
  }

  lemma EscapeStep(s: string)
    requires s != "" && !(ESCAPED_QUOTE <= s)
    ensures ReplaceEscapes(s) == [s[0]] + ReplaceEscapes(s[1..]) && ReplaceEscapes("") == ""
  {
  }

  lemma NulStep(s: string)
    requires s != "" && s[0] != '\0'
    ensures DropNuls(s) == [s[0]] + DropNuls(s[1..]) && DropNuls("") == ""
  {
  }

  lemma OneToken(t: string)
    requires WellFormed(t)
    ensures Tokens(t) == [t]
  {
    hide Tokens, WellFormed, WellFormedLast;
    WellFormedIsLast(t);
    assert Join([t]) == t;
    JoinThenTokenize([t]);
  }

  lemma OneTokenKept(t: string)
    requires WellFormed(t) && !IsOption(t)
    ensures Filtered(t) == [t]
  {
    hide Tokens, Kept, Dropped;
    OneToken(t);
    CleanIsKept(VolumeAndDate, [t], 1);
    CleanIsKept(Output, [t], 1);
    assert [t][..1] == [t];
  }

  /** A volume option in quotes passes the filters, and comes out as the option they were to take out. */
  lemma QuotedOptionPasses()
    ensures NormalizeAll(Filtered("'-V'")) == ["-V"]
  {
    hide Normalize, Filtered, WellFormed;
    QuotedVolumeFormed();
    QuotedVolumeNormal();
    OneTokenKept("'-V'");
  }

  // ---------------------------------------------------------------------------
  // Quoting undone
  // ---------------------------------------------------------------------------

  /** How the report writes a text between single quotes. */
  function Escaped(t: string): string {
    if t == "" then "" else (if t[0] == '\'' then ESCAPED_QUOTE else [t[0]]) + Escaped(t[1..])
  }

  lemma EscapeReplaced(rest: string)
    ensures ReplaceEscapes(ESCAPED_QUOTE + rest) == "'" + ReplaceEscapes(rest)
  {
    assert (ESCAPED_QUOTE + rest)[|ESCAPED_QUOTE|..] == rest;
  }

  lemma CharacterKept(c: char, rest: string)
    requires c != '\''
    ensures ReplaceEscapes([c] + rest) == [c] + ReplaceEscapes(rest)
  {
    assert ESCAPED_QUOTE[0] == '\'' && ([c] + rest)[1..] == rest;
  }

  lemma QuoteKept(rest: string)
    requires !("\"'\"'" <= rest)
    ensures ReplaceEscapes("'" + rest) == "'" + ReplaceEscapes(rest)
  {
    assert ESCAPED_QUOTE[1..] == "\"'\"'" && ("'" + rest)[1..] == rest;
  }

  lemma {:induction false} EscapesUndone(t: string)
    ensures ReplaceEscapes(Escaped(t) + "'") == t + "'"
  {
    if t == "" {
      assert Escaped(t) + "'" == "'" + "";
      QuoteKept("");
    } else {
      var rest := Escaped(t[1..]) + "'";
      EscapesUndone(t[1..]);
      if t[0] == '\'' {
        assert Escaped(t) + "'" == ESCAPED_QUOTE + rest;
        EscapeReplaced(rest);
      } else {
        assert Escaped(t) + "'" == [t[0]] + rest;
        CharacterKept(t[0], rest);
      }
    }
  }

  lemma {:induction false} NoNuls(s: string)
    requires '\0' !in s
    ensures DropNuls(s) == s
  {
    if s != "" {
      NoNuls(s[1..]);
    }
  }

  lemma OuterQuotesGo(t: string, quote: char)
    requires quote == '\'' || quote == '"'
    ensures Unquote([quote] + t + [quote]) == t
  {
    assert ([quote] + t + [quote])[1..|t| + 1] == t;
  }

  /** A text that begins with both quotes has one of its own taken for part of an escape, with the same outcome. */
  lemma {:induction false} WrappedUndone(t: string)
    ensures ReplaceEscapes("'" + (Escaped(t) + "'")) == "'" + (t + "'")
  {
    hide ReplaceEscapes;
    EscapesUndone(t);
    var rest := Escaped(t) + "'";
    if "\"'" <= t {
      var u := t[2..];
      var inner := "'" + (Escaped(u) + "'");
      WrappedUndone(u);
      assert t == "\"" + ("'" + u) && t[1..][1..] == u;
      assert Escaped(t) == "\"" + (ESCAPED_QUOTE + Escaped(u));
      assert "'" + rest == ESCAPED_QUOTE + ("\"" + inner);
      EscapeReplaced("\"" + inner);
      CharacterKept('"', inner);
    } else {
      NoEscapeAhead(t);
      QuoteKept(rest);
    }
  }

  lemma NoEscapeAhead(t: string)
    requires !("\"'" <= t)
    ensures !("\"'\"'" <= Escaped(t) + "'")
  {
    var rest, part := Escaped(t) + "'", "\"'\"'";
    assert part[0] == '"' && part[1] == '\'';
    if |t| > 1 && t[0] == '"' {
      assert Escaped(t[1..])[0] == t[1];
      assert rest[1] == t[1];
    } else if t == "\"" {
      assert |Escaped(t)| == 1;
    }
  }

  /** Any text, written between single quotes as the report does it, comes out as it was. */
  lemma QuotingUndone(t: string)
    requires '\0' !in t
    ensures Unquote(Unescape("'" + Escaped(t) + "'")) == t
  {
    hide ReplaceEscapes, DropNuls, Unquote;
    WrappedUndone(t);
    assert "'" + Escaped(t) + "'" == "'" + (Escaped(t) + "'");
    assert "'" + (t + "'") == "'" + t + "'";
    NoNuls("'" + t + "'");
    OuterQuotesGo(t, '\'');
  }
}
