/** Shell quoting (shQuote and shJoin in internal/engineagent/delivery.go) against a
    tokeniser for the quoting rules of the POSIX Shell Command Language. */
module Shell {
  import opened Common

  // ----- The printer ------------------------------------------------------

  /** Each embedded single quote closes the string, is escaped, and reopens it. */
  function Escape(s: string): string {
    if s == "" then ""
    else (if s[0] == '\'' then "'\\''" else [s[0]]) + Escape(s[1..])
  }

  function ShQuote(s: string): string { "'" + Escape(s) + "'" }

  lemma {:induction false} EscapePlain(a: string)
    requires '\'' !in a
    ensures Escape(a) == a
  {
    if a != "" {
      EscapePlain(a[1..]);
    }
  }

  lemma {:induction false} EscapeConcat(a: string, b: string)
    ensures Escape(a + b) == Escape(a) + Escape(b)
  {
    if a == "" {
      assert a + b == b;
    } else {
      EscapeConcat(a[1..], b);
      assert (a + b)[1..] == a[1..] + b && (a + b)[0] == a[0];
      Associates(if a[0] == '\'' then "'\\''" else [a[0]], Escape(a[1..]), Escape(b));
    }
  }

  /** What the quoting looks like: a word without single quotes stands between two of
      them; a single quote is written close, backslash, quote, reopen. */
  lemma QuotedForm(a: string, b: string)
    requires '\'' !in a
    ensures ShQuote(a) == "'" + a + "'"
    ensures ShQuote(a + "'" + b) == "'" + a + "'\\'" + ShQuote(b)
  {
    EscapePlain(a);
    EscapeConcat(a, "'" + b);
    assert a + ("'" + b) == a + "'" + b;
    assert ("'" + b)[1..] == b;
    assert Escape("'" + b) == "'\\''" + Escape(b);
    assert "'\\''" == "'\\'" + "'";
    Regroup(a, "'\\'", "'", Escape(b));
  }

  lemma Regroup(a: string, x: string, y: string, e: string)
    ensures "'" + (a + ((x + y) + e)) + "'" == "'" + a + x + (y + e + "'")
  {
  }

  function ShJoin(argv: seq<string>): string {
    if argv == [] then ""
    else if |argv| == 1 then ShQuote(argv[0])
    else ShQuote(argv[0]) + " " + ShJoin(argv[1..])
  }

  function Separated(words: seq<string>): string {
    if words == [] then ""
    else if |words| == 1 then words[0]
    else words[0] + " " + Separated(words[1..])
  }

  method JoinWords(argv: seq<string>) returns (line: string)
    ensures line == ShJoin(argv)
  {
    var out: seq<string> := [];
    for i := 0 to |argv|
      invariant |out| == i
      invariant forall j :: 0 <= j < i ==> out[j] == ShQuote(argv[j])
    {
      out := out + [ShQuote(argv[i])];
    }
    line := Separated(out);
    JoinIsSeparated(argv, out);
  }

  lemma {:induction false} JoinIsSeparated(argv: seq<string>, out: seq<string>)
    requires |out| == |argv| && forall j :: 0 <= j < |argv| ==> out[j] == ShQuote(argv[j])
    ensures Separated(out) == ShJoin(argv)
  {
    if |argv| > 1 {
      JoinIsSeparated(argv[1..], out[1..]);
    }
  }

  // ----- The tokeniser ----------------------------------------------------

  /** Where the tokeniser stands: between words, in a word, after a backslash, or
      inside single quotes. */
  datatype Mode = Between | InWord | AfterBackslash(midWord: bool) | Quoted

  datatype Scan = Scan(mode: Mode, word: string, words: seq<string>)

  datatype Lexed = Words(words: seq<string>) | Unterminated | NotPlain

  predicate Blank(c: char) { c == ' ' || c == '\t' }

  /** Characters that mean something to the shell when not quoted: operators,
      newline, expansions, patterns, comments, and double quotes, none of which a
      line of plain words contains. */
  predicate Special(c: char) { c in "|&;<>()\n$`\"*?[#~=%{}!" }

  /** One character under sections 2.2.1 (backslash), 2.2.2 (single quotes) and 2.3
      (token recognition); None when the line is not made of plain words. */
  function Feed(s: Scan, c: char): Option<Scan> {
    match s.mode
    case Quoted => Some(if c == '\'' then s.(mode := InWord) else s.(word := s.word + [c]))
    case AfterBackslash(midWord) =>
      Some(if c == '\n' then s.(mode := if midWord then InWord else Between)
           else s.(mode := InWord, word := s.word + [c]))
    case Between =>
      if Blank(c) then Some(s)
      else if c == '\'' then Some(s.(mode := Quoted))
      else if c == '\\' then Some(s.(mode := AfterBackslash(false)))
      else if Special(c) then None
      else Some(s.(mode := InWord, word := [c]))
    case InWord =>
      if Blank(c) then Some(Scan(Between, "", s.words + [s.word]))
      else if c == '\'' then Some(s.(mode := Quoted))
      else if c == '\\' then Some(s.(mode := AfterBackslash(true)))
      else if Special(c) then None
      else Some(s.(word := s.word + [c]))
  }

  function FeedAll(s: Scan, line: string): Option<Scan>
    decreases |line|
  {
    if line == "" then Some(s)
    else
      var t := Feed(s, line[0]);
      if t.None? then None else FeedAll(t.value, line[1..])
  }

  /** The end of the input ends the last word. */
  function Finish(s: Option<Scan>): Lexed {
    if s.None? then NotPlain
    else
      match s.value.mode
      case Between => Words(s.value.words)
      case InWord => Words(s.value.words + [s.value.word])
      case AfterBackslash(_) => Unterminated
      case Quoted => Unterminated
  }

  function Tokenise(line: string): Lexed { Finish(FeedAll(Scan(Between, "", []), line)) }

  lemma FeedOne(s: Scan, c: char)
    ensures FeedAll(s, [c]) == Feed(s, c)
  {
    assert |[c][1..]| == 0;
  }

  lemma FeedTwo(s: Scan, c: char, d: char)
    requires Feed(s, c).Some?
    ensures FeedAll(s, [c, d]) == Feed(Feed(s, c).value, d)
  {
    assert [c, d][1..] == [d];
    FeedOne(Feed(s, c).value, d);
  }

  const START := Scan(Between, "", [])

  /** Unquoted, a special character is refused, and quotes and escapes must be
      closed. */
  lemma TokeniserTable(c: char)
    ensures c in "|&;<>()\n$`\"*?[#~=%{}!" ==> Tokenise([c]) == NotPlain
    ensures Tokenise(['\'']) == Unterminated && Tokenise(['\\']) == Unterminated
  {
    FeedOne(START, c);
    FeedOne(START, '\'');
    FeedOne(START, '\\');
  }

  /** A backslash makes any character plain, except a newline, which it removes. */
  lemma BackslashTable(c: char)
    ensures Tokenise(['\\', c]) == if c == '\n' then Words([]) else Words([[c]])
  {
    FeedTwo(START, '\\', c);
    assert "" + [c] == [c];
  }

  /** A blank ends a word, and blanks before one do not count. */
  lemma BlankTable(c: char)
    requires c == ' ' || c == '\t'
    ensures Tokenise(['x', c]) == Words(["x"]) && Tokenise([c, 'x']) == Words(["x"])
  {
    FeedTwo(START, 'x', c);
    FeedTwo(START, c, 'x');
  }

  // ----- Round trip -------------------------------------------------------

  lemma {:induction false} FeedConcat(s: Scan, a: string, b: string)
    ensures FeedAll(s, a + b) == if FeedAll(s, a).None? then None else FeedAll(FeedAll(s, a).value, b)
    decreases |a|
  {
    if a == "" {
      assert a + b == b;
    } else {
      var t := Feed(s, a[0]);
      assert (a + b)[1..] == a[1..] + b;
      if t.Some? {
        FeedConcat(t.value, a[1..], b);
      }
    }
  }

  /** Close, escaped quote, reopen: one quote added, still inside quotes. */
  lemma FeedQuote(s: Scan)
    requires s.mode == Quoted
    ensures FeedAll(s, "'\\''") == Some(s.(word := s.word + ['\'']))
  {
    var s1 := s.(mode := InWord);
    var s2 := s.(mode := AfterBackslash(true));
    var s3 := s.(mode := InWord, word := s.word + ['\'']);
    var s4 := s3.(mode := Quoted);
    var q := "'\\''";
    assert q[1..] == "\\''" && q[1..][1..] == "''" && q[1..][1..][1..] == "'" && q[1..][1..][1..][1..] == "";
    assert Feed(s, q[0]) == Some(s1) && Feed(s1, '\\') == Some(s2) && Feed(s2, '\'') == Some(s3) && Feed(s3, '\'') == Some(s4);
    assert FeedAll(s3, "'") == Some(s4);
    assert FeedAll(s2, "''") == Some(s4);
    assert FeedAll(s1, "\\''") == Some(s4);
  }

  /** Inside single quotes an escaped string reads back as itself. */
  lemma {:induction false} FeedEscape(s: Scan, w: string)
    requires s.mode == Quoted
    ensures FeedAll(s, Escape(w)) == Some(s.(word := s.word + w))
    decreases |w|
  {
    if w == "" {
      assert s.word + w == s.word;
    } else {
      var piece := if w[0] == '\'' then "'\\''" else [w[0]];
      FeedConcat(s, piece, Escape(w[1..]));
      if w[0] == '\'' {
        FeedQuote(s);
      } else {
        assert piece[1..] == "";
      }
      var t := s.(word := s.word + [w[0]]);
      assert FeedAll(s, piece) == Some(t);
      FeedEscape(t, w[1..]);
      assert t.word + w[1..] == s.word + w;
    }
  }

  /** A quoted word is read as exactly that word, the empty one included. */
  lemma FeedQuoted(words: seq<string>, w: string)
    ensures FeedAll(Scan(Between, "", words), ShQuote(w)) == Some(Scan(InWord, w, words))
  {
    var s := Scan(Between, "", words);
    var open := Scan(Quoted, "", words);
    assert ShQuote(w) == "'" + (Escape(w) + "'");
    FeedConcat(s, "'", Escape(w) + "'");
    assert "'"[1..] == "";
    assert FeedAll(s, "'") == Some(open);
    FeedConcat(open, Escape(w), "'");
    FeedEscape(open, w);
    var full := Scan(Quoted, w, words);
    assert open.word + w == w;
    assert Feed(full, '\'') == Some(Scan(InWord, w, words));
    assert FeedAll(full, "'") == Some(Scan(InWord, w, words));
  }

  /** A quoted word and a blank are read as one complete word. */
  lemma FeedSeparated(words: seq<string>, w: string, rest: string)
    ensures FeedAll(Scan(Between, "", words), ShQuote(w) + " " + rest) == FeedAll(Scan(Between, "", words + [w]), rest)
  {
    var tail := " " + rest;
    FeedQuoted(words, w);
    FeedConcat(Scan(Between, "", words), ShQuote(w), tail);
    assert ShQuote(w) + " " + rest == ShQuote(w) + tail;
    assert tail[0] == ' ' && tail[1..] == rest;
  }

  lemma {:induction false} FeedJoined(words: seq<string>, argv: seq<string>)
    ensures Finish(FeedAll(Scan(Between, "", words), ShJoin(argv))) == Words(words + argv)
    decreases |argv|
  {
    if argv == [] {
      assert words + argv == words;
    } else if |argv| == 1 {
      FeedQuoted(words, argv[0]);
      assert words + argv == words + [argv[0]];
    } else {
      FeedSeparated(words, argv[0], ShJoin(argv[1..]));
      FeedJoined(words + [argv[0]], argv[1..]);
      assert words + [argv[0]] + argv[1..] == words + argv;
    }
  }

  /** The shell reads back exactly the argument vector, whatever it holds. */
  lemma RoundTrip(argv: seq<string>)
    ensures Tokenise(ShJoin(argv)) == Words(argv)
  {
    FeedJoined([], argv);
    assert [] + argv == argv;
  }

  /** So different argument vectors never print alike. */
  lemma JoinInjective(argv: seq<string>, other: seq<string>)
    requires ShJoin(argv) == ShJoin(other)
    ensures argv == other
  {
    RoundTrip(argv);
    RoundTrip(other);
  }
}
