/** The token-counting response writer (internal/router/tokencounter.go): an
    incremental scanner for server-sent events, and a capped body buffer. */
module SseCounter {

  type byte = x: int | 0 <= x < 256
  type bytes = seq<byte>

  const LF: byte := 10
  const CR: byte := 13
  const SPACE: byte := 32
  const LF_LF: bytes := [LF, LF]
  const CRLF_CRLF: bytes := [CR, LF, CR, LF]
  /** The five bytes of "data:". */
  const DATA: bytes := [100, 97, 116, 97, 58]

  // ----- Finding a terminator ---------------------------------------------

  predicate At(buf: bytes, pat: bytes, i: int) {
    0 <= i && i + |pat| <= |buf| && buf[i..i + |pat|] == pat
  }

  /** bytes.Index: the first position at or after `from` where pat occurs. */
  function IndexFrom(buf: bytes, pat: bytes, from: nat): (r: int)
    requires from <= |buf|
    ensures r == -1 || (from <= r && At(buf, pat, r))
    ensures forall k :: from <= k < (if r == -1 then |buf| else r) ==> !At(buf, pat, k)
    decreases |buf| - from
  {
    if At(buf, pat, from) then from
    else if from == |buf| then -1
    else IndexFrom(buf, pat, from + 1)
  }

  function FindEventTerminator(buf: bytes): int {
    var i := IndexFrom(buf, LF_LF, 0);
    if i >= 0 then
      var j := IndexFrom(buf, CRLF_CRLF, 0);
      if j >= 0 && j < i then j else i
    else IndexFrom(buf, CRLF_CRLF, 0)
  }

  function EventTerminatorLen(buf: bytes, at: nat): nat {
    if at < |buf| && buf[at] == CR then 4 else 2
  }

  predicate TerminatorAt(buf: bytes, i: int) {
    At(buf, LF_LF, i) || At(buf, CRLF_CRLF, i)
  }

  /** The search returns the leftmost terminator of either kind, or -1 when
      there is none. */
  lemma FindIsLeftmost(buf: bytes)
    ensures var r := FindEventTerminator(buf);
            if r < 0 then r == -1 && forall k :: !TerminatorAt(buf, k)
            else TerminatorAt(buf, r) && forall k :: k < r ==> !TerminatorAt(buf, k)
  {
  }

  /** The length read off the first byte of the terminator is the length of the
      terminator that is there, so the scan never runs past the buffer. */
  lemma TerminatorLenExact(buf: bytes, i: int)
    requires TerminatorAt(buf, i)
    ensures var n := EventTerminatorLen(buf[i..], 0);
            i + n <= |buf| && buf[i..i + n] == if n == 4 then CRLF_CRLF else LF_LF
  {
    if At(buf, LF_LF, i) {
      assert buf[i] == buf[i..i + 2][0] == LF;
    } else {
      assert buf[i] == buf[i..i + 4][0] == CR;
    }
  }

  /** The two terminators, in bytes: two line feeds, or two CRLF pairs. */
  lemma TerminatorBytes(buf: bytes, i: int)
    ensures TerminatorAt(buf, i)
       <==> || (0 <= i && i + 2 <= |buf| && buf[i..i + 2] == [10, 10])
            || (0 <= i && i + 4 <= |buf| && buf[i..i + 4] == [13, 10, 13, 10])
  {
  }

  // ----- The batch form ---------------------------------------------------

  datatype Item = Item(event: bytes, term: bytes)
  datatype Parsed = Parsed(items: seq<Item>, rest: bytes)

  /** The whole-stream parse: split at the leftmost terminator, repeatedly. */
  function Parse(buf: bytes): Parsed
    decreases |buf|
  {
    var i := FindEventTerminator(buf);
    if i < 0 then Parsed([], buf)
    else
      FindIsLeftmost(buf);
      TerminatorLenExact(buf, i);
      var n := EventTerminatorLen(buf[i..], 0);
      var r := Parse(buf[i + n..]);
      Parsed([Item(buf[..i], buf[i..i + n])] + r.items, r.rest)
  }

  function Rebuild(items: seq<Item>, rest: bytes): bytes {
    if items == [] then rest else items[0].event + items[0].term + Rebuild(items[1..], rest)
  }

  /** An event followed by its terminator, with no terminator starting
      earlier. */
  ghost predicate ItemOk(it: Item) {
    && (it.term == LF_LF || it.term == CRLF_CRLF)
    && forall k :: k < |it.event| ==> !TerminatorAt(it.event + it.term, k)
  }

  /** A decomposition described without running any scanner. */
  ghost predicate WellFormed(p: Parsed) {
    && (forall k :: !TerminatorAt(p.rest, k))
    && forall m :: 0 <= m < |p.items| ==> ItemOk(p.items[m])
  }

  /** More bytes never move the leftmost terminator: no CRLFCRLF can straddle
      the end of an LFLF that is already complete. */
  lemma TerminatorStable(a: bytes, b: bytes)
    requires FindEventTerminator(a) >= 0
    ensures FindEventTerminator(a + b) == FindEventTerminator(a)
  {
    var i := FindEventTerminator(a);
    FindIsLeftmost(a);
    FindIsLeftmost(a + b);
    TerminatorSurvives(a, b, i);
    forall k | 0 <= k < i
      ensures !TerminatorAt(a + b, k)
    {
      NoEarlierTerminator(a, b, i, k);
    }
  }

  lemma TerminatorSurvives(a: bytes, b: bytes, i: int)
    requires TerminatorAt(a, i)
    ensures TerminatorAt(a + b, i)
  {
    if At(a, LF_LF, i) {
      assert (a + b)[i..i + 2] == a[i..i + 2];
    } else {
      assert (a + b)[i..i + 4] == a[i..i + 4];
    }
  }

  lemma NoEarlierTerminator(a: bytes, b: bytes, i: int, k: int)
    requires TerminatorAt(a, i) && 0 <= k < i && !TerminatorAt(a, k)
    ensures !TerminatorAt(a + b, k)
  {
    var c := a + b;
    assert c[k..k + 2] == a[k..k + 2];
    if k + 4 <= |a| {
      assert c[k..k + 4] == a[k..k + 4];
    } else {
      assert a[i..i + 2][1] == a[i + 1] == c[k + 2] == LF;
      assert k + 4 <= |c| ==> c[k..k + 4][2] == LF;
    }
  }

  lemma HeadItemOk(event: bytes, term: bytes, tail: bytes)
    requires term == LF_LF || term == CRLF_CRLF
    requires forall k :: k < |event| ==> !TerminatorAt(event + term + tail, k)
    ensures ItemOk(Item(event, term))
  {
    forall k | k < |event|
      ensures !TerminatorAt(event + term, k)
    {
      if TerminatorAt(event + term, k) {
        TerminatorSurvives(event + term, tail, k);
        assert false;
      }
    }
  }

  /** Where the scan cuts: before the leftmost terminator, and after as many bytes of
      it as its first byte announces. */
  lemma CutAt(buf: bytes) returns (event: bytes, term: bytes, tail: bytes)
    requires FindEventTerminator(buf) >= 0
    ensures FindEventTerminator(buf) <= |buf| && buf == event + term + tail && |event| == FindEventTerminator(buf)
    ensures |term| == EventTerminatorLen(buf[|event|..], 0) && (term == LF_LF || term == CRLF_CRLF)
    ensures forall k :: k < |event| ==> !TerminatorAt(buf, k)
    ensures Parse(buf) == Parsed([Item(event, term)] + Parse(tail).items, Parse(tail).rest)
  {
    FindIsLeftmost(buf);
    var i := FindEventTerminator(buf);
    TerminatorLenExact(buf, i);
    var n := EventTerminatorLen(buf[i..], 0);
    event, term, tail := buf[..i], buf[i..i + n], buf[i + n..];
  }

  /** The first item the scan takes off a buffer, and what is left of it. */
  lemma FirstItem(buf: bytes) returns (it: Item, tail: bytes)
    requires FindEventTerminator(buf) >= 0
    ensures ItemOk(it) && buf == it.event + it.term + tail
    ensures Parse(buf) == Parsed([it] + Parse(tail).items, Parse(tail).rest)
  {
    var event, term, rest := CutAt(buf);
    HeadItemOk(event, term, rest);
    it, tail := Item(event, term), rest;
  }

  /** Nothing is lost or invented: events, terminators and residual rebuild the
      stream, and the decomposition is well formed. */
  lemma {:induction false} ParseRebuilds(buf: bytes)
    ensures Rebuild(Parse(buf).items, Parse(buf).rest) == buf
    ensures WellFormed(Parse(buf))
    decreases |buf|
  {
    FindIsLeftmost(buf);
    if FindEventTerminator(buf) >= 0 {
      var it, tail := FirstItem(buf);
      ParseRebuilds(tail);
      var items := Parse(buf).items;
      assert items[0] == it && items[1..] == Parse(tail).items;
      forall m | 0 <= m < |items|
        ensures ItemOk(items[m])
      {
        if m > 0 {
          assert items[m] == Parse(tail).items[m - 1];
        }
      }
    }
  }

  lemma FoundAtEvent(p: Parsed)
    requires WellFormed(p) && p.items != []
    ensures FindEventTerminator(Rebuild(p.items, p.rest)) == |p.items[0].event|
  {
    var e, t := p.items[0].event, p.items[0].term;
    assert ItemOk(p.items[0]);
    var head := e + t;
    assert head[|e|..|e| + |t|] == t;
    assert TerminatorAt(head, |e|);
    FindIsLeftmost(head);
    TerminatorStable(head, Rebuild(p.items[1..], p.rest));
  }

  lemma ParseStep(it: Item, tail: bytes)
    requires it.term == LF_LF || it.term == CRLF_CRLF
    requires FindEventTerminator(it.event + it.term + tail) == |it.event|
    ensures Parse(it.event + it.term + tail) == Parsed([it] + Parse(tail).items, Parse(tail).rest)
  {
    var i, buf := |it.event|, it.event + it.term + tail;
    assert buf[i..] == it.term + tail;
    assert buf[..i] == it.event && buf[i..i + |it.term|] == it.term && buf[i + |it.term|..] == tail;
  }

  /** The scan takes the first item of a well-formed decomposition off its stream. */
  lemma ParseFirst(p: Parsed)
    requires WellFormed(p) && p.items != []
    ensures var tail := Rebuild(p.items[1..], p.rest);
            Parse(Rebuild(p.items, p.rest)) == Parsed([p.items[0]] + Parse(tail).items, Parse(tail).rest)
  {
    FoundAtEvent(p);
    assert ItemOk(p.items[0]);
    ParseStep(p.items[0], Rebuild(p.items[1..], p.rest));
  }

  lemma TailWellFormed(p: Parsed)
    requires WellFormed(p) && p.items != []
    ensures WellFormed(Parsed(p.items[1..], p.rest))
  {
  }

  /** The parse is the only well-formed decomposition of its stream. */
  lemma {:induction false} ParseUnique(p: Parsed)
    requires WellFormed(p)
    ensures Parse(Rebuild(p.items, p.rest)) == p
    decreases |p.items|
  {
    if p.items == [] {
      FindIsLeftmost(p.rest);
    } else {
      ParseFirst(p);
      TailWellFormed(p);
      ParseUnique(Parsed(p.items[1..], p.rest));
      assert p.items == [p.items[0]] + p.items[1..];
    }
  }

  lemma {:induction false} RebuildConcat(xs: seq<Item>, ys: seq<Item>, rest: bytes)
    ensures Rebuild(xs + ys, rest) == Rebuild(xs, Rebuild(ys, rest))
  {
    if xs == [] {
      assert xs + ys == ys;
    } else {
      assert (xs + ys)[1..] == xs[1..] + ys;
      RebuildConcat(xs[1..], ys, rest);
    }
  }

  lemma {:induction false} RebuildAppend(xs: seq<Item>, rest: bytes, more: bytes)
    ensures Rebuild(xs, rest) + more == Rebuild(xs, rest + more)
  {
    if xs != [] {
      RebuildAppend(xs[1..], rest, more);
      var head := xs[0].event + xs[0].term;
      assert (head + Rebuild(xs[1..], rest)) + more == head + (Rebuild(xs[1..], rest) + more);
    }
  }

  /** Parsing can stop anywhere and resume from the residual. */
  lemma ParseResumes(a: bytes, b: bytes)
    ensures var p := Parse(a);
            var q := Parse(p.rest + b);
            Parse(a + b) == Parsed(p.items + q.items, q.rest)
  {
    var p := Parse(a);
    var q := Parse(p.rest + b);
    ParseRebuilds(a);
    ParseRebuilds(p.rest + b);
    RebuildConcat(p.items, q.items, q.rest);
    RebuildAppend(p.items, p.rest, b);
    ParseUnique(Parsed(p.items + q.items, q.rest));
  }

  // ----- One event --------------------------------------------------------

  /** bytes.Split(event, "\n"): never empty, and no piece contains a LF. */
  function SplitLines(event: bytes): (r: seq<bytes>)
    ensures |r| >= 1
    ensures forall i :: 0 <= i < |r| ==> LF !in r[i]
    decreases |event|
  {
    if event == [] then [[]]
    else
      var r := SplitLines(event[1..]);
      if event[0] == LF then [[]] + r else [[event[0]] + r[0]] + r[1..]
  }

  function JoinLines(lines: seq<bytes>): bytes {
    if lines == [] then [] else if |lines| == 1 then lines[0] else lines[0] + [LF] + JoinLines(lines[1..])
  }

  /** Splitting an event into lines loses nothing. */
  lemma {:induction false} SplitJoins(event: bytes)
    ensures JoinLines(SplitLines(event)) == event
    decreases |event|
  {
    if event != [] {
      SplitJoins(event[1..]);
      var r := SplitLines(event[1..]);
      if event[0] == LF {
        assert SplitLines(event)[1..] == r;
      } else {
        assert SplitLines(event)[1..] == r[1..];
        assert event == [event[0]] + event[1..];
      }
    }
  }

  function TrimCR(line: bytes): bytes {
    if line != [] && line[|line| - 1] == CR then TrimCR(line[..|line| - 1]) else line
  }

  /** The payload of a data line, or nothing for any other line. */
  function Payload(line: bytes): seq<bytes> {
    var l := TrimCR(line);
    if DATA <= l then
      var p := l[|DATA|..];
      [if p != [] && p[0] == SPACE then p[1..] else p]
    else []
  }

  function DataLines(lines: seq<bytes>): seq<bytes> {
    if lines == [] then [] else DataLines(lines[..|lines| - 1]) + Payload(lines[|lines| - 1])
  }

  // What the extraction computes, in bytes.

  lemma {:induction false} TrailingReturns(line: bytes, crs: nat)
    requires line != [] && line[|line| - 1] != 13
    ensures TrimCR(line + seq(crs, i => 13)) == line
    decreases crs
  {
    if crs == 0 {
      assert line + seq(crs, i => 13) == line;
    } else {
      var longer := line + seq(crs, i => 13);
      assert longer[..|longer| - 1] == line + seq(crs - 1, i => 13) && longer[|longer| - 1] == 13;
      TrailingReturns(line, crs - 1);
    }
  }

  /** A data line carries what follows "data:", less one space and trailing CRs; a
      second space stays. */
  lemma DataLine(x: bytes, space: bool, crs: nat)
    requires x == [] || x[|x| - 1] != 13
    requires !space ==> x == [] || x[0] != 32
    ensures Payload([100, 97, 116, 97, 58] + (if space then [32] else []) + x + seq(crs, i => 13)) == [x]
  {
    var tail: bytes := (if space then [32] else []) + x;
    var line := [100, 97, 116, 97, 58] + tail;
    assert [100, 97, 116, 97, 58] + (if space then [32] else []) + x == line;
    assert line[|line| - 1] == if tail != [] then tail[|tail| - 1] else 58;
    TrailingReturns(line, crs);
    assert line[..5] == [100, 97, 116, 97, 58] && line[5..] == tail;
    assert space ==> tail[1..] == x;
  }

  /** Any line whose first five bytes are not "data:" carries nothing. */
  lemma OtherLine(line: bytes)
    requires |line| < 5 || line[..5] != [100, 97, 116, 97, 58]
    ensures Payload(line) == []
    decreases |line|
  {
    if line != [] && line[|line| - 1] == 13 {
      assert |line| > 5 ==> line[..|line| - 1][..5] == line[..5];
      OtherLine(line[..|line| - 1]);
    }
  }

  datatype Counts = Counts(prompt: int, completion: int)
  const ZERO := Counts(0, 0)

  /** JSON decoding, taken as any function from a payload to the two counts. */
  type Usage = bytes -> Counts

  /** What one event reports: nothing when it has no data line. */
  function Reported(usage: Usage, event: bytes): Counts {
    var d := DataLines(SplitLines(event));
    if d == [] then ZERO else usage(JoinLines(d))
  }

  // Whole events, in bytes.

  /** A line as it is sent: a data line, or one that is not. */
  datatype Line = Data(x: bytes, space: bool, crs: nat) | NoData(bytes: bytes)

  predicate Proper(l: Line) {
    match l
    case Data(x, space, crs) => 10 !in x && (x == [] || x[|x| - 1] != 13) && (!space ==> x == [] || x[0] != 32)
    case NoData(b) => 10 !in b && (|b| < 5 || b[..5] != [100, 97, 116, 97, 58])
  }

  function Sent(l: Line): bytes {
    match l
    case Data(x, space, crs) => [100, 97, 116, 97, 58] + (if space then [32] else []) + x + seq(crs, i => 13)
    case NoData(b) => b
  }

  function SentAll(ls: seq<Line>): seq<bytes> {
    seq(|ls|, i requires 0 <= i < |ls| => Sent(ls[i]))
  }

  /** The payloads, in order. */
  function DataOf(ls: seq<Line>): seq<bytes> {
    if ls == [] then []
    else DataOf(ls[..|ls| - 1]) + if ls[|ls| - 1].Data? then [ls[|ls| - 1].x] else []
  }

  /** One after the other, with a line feed in between. */
  function Text(ls: seq<bytes>): bytes {
    if ls == [] then [] else if |ls| == 1 then ls[0] else ls[0] + [10] + Text(ls[1..])
  }

  lemma {:induction false} SplitAtFeed(a: bytes, b: bytes)
    requires 10 !in a
    ensures SplitLines(a) == [a]
    ensures SplitLines(a + [10] + b) == [a] + SplitLines(b)
    decreases |a|
  {
    if a == [] {
      assert ([] + [10] + b)[1..] == b;
    } else {
      SplitAtFeed(a[1..], b);
      assert (a + [10] + b)[1..] == a[1..] + [10] + b;
      assert [a[0]] + a[1..] == a;
    }
  }

  lemma {:induction false} SplitText(ls: seq<bytes>)
    requires ls != [] && forall i :: 0 <= i < |ls| ==> 10 !in ls[i]
    ensures SplitLines(Text(ls)) == ls
    decreases |ls|
  {
    if |ls| == 1 {
      SplitAtFeed(ls[0], []);
    } else {
      SplitText(ls[1..]);
      SplitAtFeed(ls[0], Text(ls[1..]));
    }
  }

  lemma {:induction false} JoinIsText(ls: seq<bytes>)
    ensures JoinLines(ls) == Text(ls)
    decreases |ls|
  {
    if |ls| > 1 {
      JoinIsText(ls[1..]);
    }
  }

  lemma SentHasNoFeed(l: Line)
    requires Proper(l)
    ensures 10 !in Sent(l)
  {
  }

  lemma {:induction false} DataLinesAre(ls: seq<Line>)
    requires forall i :: 0 <= i < |ls| ==> Proper(ls[i])
    ensures DataLines(SentAll(ls)) == DataOf(ls)
    decreases |ls|
  {
    if ls != [] {
      var n := |ls| - 1;
      DataLinesAre(ls[..n]);
      assert SentAll(ls)[..n] == SentAll(ls[..n]) && SentAll(ls)[n] == Sent(ls[n]);
      assert Proper(ls[n]);
      match ls[n]
      case Data(x, space, crs) => DataLine(x, space, crs);
      case NoData(b) => OtherLine(b);
    }
  }

  /** What an event reports: its data lines' payloads, joined by line feeds in order,
      are decoded; the other lines do not count; and an event without data lines
      reports nothing. */
  lemma EventReports(usage: Usage, ls: seq<Line>)
    requires ls != [] && forall i :: 0 <= i < |ls| ==> Proper(ls[i])
    ensures Reported(usage, Text(SentAll(ls))) == if DataOf(ls) == [] then Counts(0, 0) else usage(Text(DataOf(ls)))
  {
    forall i | 0 <= i < |ls|
      ensures 10 !in SentAll(ls)[i]
    {
      SentHasNoFeed(ls[i]);
    }
    SplitText(SentAll(ls));
    DataLinesAre(ls);
    JoinIsText(DataOf(ls));
  }

  /** The usual event: one data line. */
  lemma OneDataLineReports(usage: Usage, x: bytes, crs: nat)
    requires 10 !in x && (x == [] || x[|x| - 1] != 13)
    ensures Reported(usage, [100, 97, 116, 97, 58, 32] + x + seq(crs, i => 13)) == usage(x)
  {
    var l := Data(x, true, crs);
    EventReports(usage, [l]);
    assert SentAll([l]) == [Sent(l)];
    assert [l][..0] == [];
    assert DataOf([l]) == [x];
    assert Sent(l) == [100, 97, 116, 97, 58, 32] + x + seq(crs, i => 13);
  }

  function Observe(c: Counts, r: Counts): Counts {
    Counts(if r.prompt > 0 then r.prompt else c.prompt, if r.completion > 0 then r.completion else c.completion)
  }

  function CountAll(usage: Usage, items: seq<Item>, c: Counts): Counts {
    if items == [] then c else CountAll(usage, items[1..], Observe(c, Reported(usage, items[0].event)))
  }

  lemma {:induction false} CountConcat(usage: Usage, xs: seq<Item>, ys: seq<Item>, c: Counts)
    ensures CountAll(usage, xs + ys, c) == CountAll(usage, ys, CountAll(usage, xs, c))
    decreases |xs|
  {
    if xs == [] {
      assert xs + ys == ys;
    } else {
      assert (xs + ys)[1..] == xs[1..] + ys;
      CountConcat(usage, xs[1..], ys, Observe(c, Reported(usage, xs[0].event)));
    }
  }

  /** One turn of the scan: the rest parses to the same residual, and counts the same
      once the event cut off has been observed. */
  lemma ScanStep(usage: Usage, buf: bytes, c: Counts)
    requires FindEventTerminator(buf) >= 0
    ensures FindEventTerminator(buf) <= |buf|
    ensures FindEventTerminator(buf) + EventTerminatorLen(buf[FindEventTerminator(buf)..], 0) <= |buf|
    ensures var i := FindEventTerminator(buf);
            var tail := buf[i..][EventTerminatorLen(buf[i..], 0)..];
            && |tail| < |buf| && Parse(buf).rest == Parse(tail).rest
            && CountAll(usage, Parse(buf).items, c) == CountAll(usage, Parse(tail).items, Observe(c, Reported(usage, buf[..i])))
  {
    var event, term, tail := CutAt(buf);
    var i := |event|;
    assert buf[i..] == term + tail && buf[i..][|term|..] == tail && buf[..i] == event;
    assert Parse(buf).items[1..] == Parse(tail).items;
  }

  /** r is the last positive value of f over the events, or init if none is. */
  ghost predicate LastPositive(items: seq<Item>, f: bytes -> int, init: int, r: int) {
    || (r == init && forall j :: 0 <= j < |items| ==> f(items[j].event) <= 0)
    || exists k :: 0 <= k < |items| && f(items[k].event) == r > 0 && forall j :: k < j < |items| ==> f(items[j].event) <= 0
  }

  lemma LastPositiveCons(items: seq<Item>, f: bytes -> int, init: int, r: int)
    requires items != []
    requires LastPositive(items[1..], f, if f(items[0].event) > 0 then f(items[0].event) else init, r)
    ensures LastPositive(items, f, init, r)
  {
    var tail := items[1..];
    if k :| 0 <= k < |tail| && f(tail[k].event) == r > 0 && forall j :: k < j < |tail| ==> f(tail[j].event) <= 0 {
      assert f(items[k + 1].event) == r;
      forall j | k + 1 < j < |items| ensures f(items[j].event) <= 0 {
        assert items[j] == tail[j - 1];
      }
    } else {
      forall j | 0 < j < |items| ensures f(items[j].event) <= 0 {
        assert items[j] == tail[j - 1];
      }
    }
  }

  /** Each count is the last positive one reported, kept independently of the
      other. */
  lemma {:induction false} CountsAreLastPositive(usage: Usage, items: seq<Item>, c: Counts)
    ensures var r := CountAll(usage, items, c);
            && LastPositive(items, e => Reported(usage, e).prompt, c.prompt, r.prompt)
            && LastPositive(items, e => Reported(usage, e).completion, c.completion, r.completion)
    decreases |items|
  {
    if items != [] {
      var c' := Observe(c, Reported(usage, items[0].event));
      CountsAreLastPositive(usage, items[1..], c');
      var r := CountAll(usage, items, c);
      LastPositiveCons(items, e => Reported(usage, e).prompt, c.prompt, r.prompt);
      LastPositiveCons(items, e => Reported(usage, e).completion, c.completion, r.completion);
    }
  }

  // ----- The writer -------------------------------------------------------

  const FLAT_MAX_BODY_BYTES: nat := 8 * 1024 * 1024

  datatype ContentKind = Streaming | Json | Other

  /** The parser state of a writer: a capped body, a scan in progress, or no
      buffering at all. */
  datatype View = Body(body: bytes) | Scan(buf: bytes, counts: Counts) | Ignored

  function Opened(code: int, kind: ContentKind): View {
    if code >= 400 || kind == Other then Ignored
    else if kind == Streaming then Scan([], ZERO) else Body([])
  }

  /** What a response is opened as: errors and other content types are not looked at,
      streams are scanned, JSON is buffered, both from empty. */
  lemma OpenedTable(code: int, kind: ContentKind)
    ensures Opened(code, kind) == Ignored <==> code >= 400 || kind == Other
    ensures code < 400 && kind == Streaming ==> Opened(code, kind) == Scan([], Counts(0, 0))
    ensures code < 400 && kind == Json ==> Opened(code, kind) == Body([])
  {
  }

  /** One Write of which the client accepted `data`. */
  function AfterWrite(usage: Usage, cap: nat, v: View, data: bytes): View {
    if data == [] then v
    else match v
      case Ignored => v
      case Body(b) => if |b| + |data| <= cap then Body(b + data) else v
      case Scan(buf, c) => var p := Parse(buf + data); Scan(p.rest, CountAll(usage, p.items, c))
  }

  class TokenCountingWriter {
    const usage: Usage
    var bodyBuf: bytes
    var sseBuf: bytes
    var buffering: bool
    var streaming: bool
    var tokens: int
    var promptTokens: int

    ghost function Current(): View
      reads this
    {
      if !buffering then Ignored else if streaming then Scan(sseBuf, Counts(promptTokens, tokens)) else Body(bodyBuf)
    }

    constructor (usage: Usage, code: int, kind: ContentKind)
      ensures this.usage == usage && Current() == Opened(code, kind)
    {
      this.usage := usage;
      bodyBuf, sseBuf, tokens, promptTokens := [], [], 0, 0;
      buffering := code < 400 && kind != Other;
      streaming := kind == Streaming;
    }

    /** PromptTokens and CompletionTokens: a buffered body is decoded when asked. */
    method Totals() returns (c: Counts)
      ensures Current().Body? ==> c == usage(Current().body)
      ensures Current().Scan? ==> c == Current().counts
    {
      if buffering && !streaming {
        return usage(bodyBuf);
      }
      return Counts(promptTokens, tokens);
    }

    /** Write, told how many bytes n of p the client took. */
    method Write(p: bytes, n: int)
      requires n <= |p|
      modifies this
      ensures Current() == AfterWrite(usage, FLAT_MAX_BODY_BYTES, old(Current()), if n <= 0 then [] else p[..n])
    {
      if n <= 0 {
        return;
      }
      if buffering && !streaming {
        if |bodyBuf| + n <= FLAT_MAX_BODY_BYTES {
          bodyBuf := bodyBuf + p[..n];
        }
      } else if buffering {
        sseBuf := sseBuf + p[..n];
        ParseSSEBuffer();
      }
    }

    /** The scan loop: it terminates, and it does what the batch parse does. */
    method ParseSSEBuffer()
      requires buffering && streaming
      modifies this`sseBuf, this`tokens, this`promptTokens
      ensures sseBuf == Parse(old(sseBuf)).rest
      ensures Counts(promptTokens, tokens) == CountAll(usage, Parse(old(sseBuf)).items, old(Counts(promptTokens, tokens)))
    {
      var idx := FindEventTerminator(sseBuf);
      while idx >= 0
        invariant idx == FindEventTerminator(sseBuf)
        invariant Parse(sseBuf).rest == Parse(old(sseBuf)).rest
        invariant CountAll(usage, Parse(sseBuf).items, Counts(promptTokens, tokens))
               == CountAll(usage, Parse(old(sseBuf)).items, old(Counts(promptTokens, tokens)))
        decreases |sseBuf|
      {
        ScanStep(usage, sseBuf, Counts(promptTokens, tokens));
        var event := sseBuf[..idx];
        var after := sseBuf[idx..];
        sseBuf := after[EventTerminatorLen(after, 0)..];
        ExtractFromEvent(event);
        idx := FindEventTerminator(sseBuf);
      }
    }

    method ExtractFromEvent(event: bytes)
      modifies this`tokens, this`promptTokens
      ensures Counts(promptTokens, tokens) == Observe(old(Counts(promptTokens, tokens)), Reported(usage, event))
    {
      var lines := SplitLines(event);
      var dataLines: seq<bytes> := [];
      for i := 0 to |lines|
        invariant dataLines == DataLines(lines[..i])
      {
        assert lines[..i + 1][..i] == lines[..i];
        var line := TrimCR(lines[i]);
        if DATA <= line {
          var payload := line[|DATA|..];
          if |payload| > 0 && payload[0] == SPACE {
            payload := payload[1..];
          }
          dataLines := dataLines + [payload];
        }
      }
      assert lines[..|lines|] == lines;
      if |dataLines| == 0 {
        return;
      }
      var u := usage(JoinLines(dataLines));
      if u.completion > 0 {
        tokens := u.completion;
      }
      if u.prompt > 0 {
        promptTokens := u.prompt;
      }
    }
  }

  // ----- Chunk independence -----------------------------------------------

  function Fold<V>(f: (V, bytes) -> V, v: V, chunks: seq<bytes>): V
    decreases |chunks|
  {
    if chunks == [] then v else Fold(f, f(v, chunks[0]), chunks[1..])
  }

  function WriteAll(usage: Usage, cap: nat, v: View, chunks: seq<bytes>): View {
    Fold((w: View, data: bytes) => AfterWrite(usage, cap, w, data), v, chunks)
  }

  function Concat(chunks: seq<bytes>): bytes {
    if chunks == [] then [] else chunks[0] + Concat(chunks[1..])
  }

  /** What one parse of the whole stream yields. */
  function Batch(usage: Usage, stream: bytes): View {
    Scan(Parse(stream).rest, CountAll(usage, Parse(stream).items, ZERO))
  }

  lemma WriteExtendsBatch(usage: Usage, cap: nat, stream: bytes, data: bytes)
    ensures AfterWrite(usage, cap, Batch(usage, stream), data) == Batch(usage, stream + data)
  {
    if data == [] {
      assert stream + data == stream;
    } else {
      var p := Parse(stream);
      ParseResumes(stream, data);
      CountConcat(usage, p.items, Parse(p.rest + data).items, ZERO);
    }
  }

  /** A fold that extends a batch result one chunk at a time reaches the batch
      result of the concatenation. */
  lemma {:induction false} FoldReachesBatch<V>(f: (V, bytes) -> V, batch: bytes -> V, stream: bytes, chunks: seq<bytes>)
    requires forall s, d :: f(batch(s), d) == batch(s + d)
    ensures Fold(f, batch(stream), chunks) == batch(stream + Concat(chunks))
    decreases |chunks|
  {
    if chunks == [] {
      assert stream + Concat(chunks) == stream;
    } else {
      FoldReachesBatch(f, batch, stream + chunks[0], chunks[1..]);
      assert stream + Concat(chunks) == stream + chunks[0] + Concat(chunks[1..]);
    }
  }

  lemma WritesReachBatch(usage: Usage, cap: nat, chunks: seq<bytes>)
    ensures WriteAll(usage, cap, Batch(usage, []), chunks) == Batch(usage, Concat(chunks))
  {
    var f := (w: View, data: bytes) => AfterWrite(usage, cap, w, data);
    var batch := (s: bytes) => Batch(usage, s);
    forall s: bytes, d: bytes
      ensures f(batch(s), d) == batch(s + d)
    {
      WriteExtendsBatch(usage, cap, s, d);
    }
    FoldReachesBatch(f, batch, [], chunks);
    assert [] + Concat(chunks) == Concat(chunks);
  }

  /** However a streamed response is cut into writes, the residual buffer and
      both counts are those of a single write of the whole response, which are
      those of the batch parse. */
  lemma ChunkIndependence(usage: Usage, cap: nat, chunks: seq<bytes>)
    ensures WriteAll(usage, cap, Opened(200, Streaming), chunks) == Batch(usage, Concat(chunks))
    ensures WriteAll(usage, cap, Opened(200, Streaming), [Concat(chunks)]) == Batch(usage, Concat(chunks))
  {
    FindIsLeftmost([]);
    assert Batch(usage, []) == Opened(200, Streaming);
    WritesReachBatch(usage, cap, chunks);
    WritesReachBatch(usage, cap, [Concat(chunks)]);
    assert Concat([Concat(chunks)]) == Concat(chunks);
  }

  /** The events taken off so far, and the residual, after one more chunk. */
  function Scanned(p: Parsed, data: bytes): Parsed {
    var q := Parse(p.rest + data);
    Parsed(p.items + q.items, q.rest)
  }

  /** And so are the events themselves, with their terminators and in order: scanning
      chunk by chunk takes off exactly the events of the whole stream. */
  lemma EventsChunkIndependent(chunks: seq<bytes>)
    ensures Fold((p: Parsed, data: bytes) => Scanned(p, data), Parsed([], []), chunks) == Parse(Concat(chunks))
  {
    var f := (p: Parsed, data: bytes) => Scanned(p, data);
    var batch := (s: bytes) => Parse(s);
    forall s: bytes, d: bytes
      ensures f(batch(s), d) == batch(s + d)
    {
      ParseResumes(s, d);
    }
    FindIsLeftmost([]);
    assert batch([]) == Parsed([], []);
    FoldReachesBatch(f, batch, [], chunks);
    assert [] + Concat(chunks) == Concat(chunks);
  }

  // ----- The capped body --------------------------------------------------

  predicate Oversized(cap: nat, chunks: seq<bytes>) {
    forall i :: 0 <= i < |chunks| ==> chunks[i] == [] || |chunks[i]| > cap
  }

  lemma {:induction false} BodyFits(usage: Usage, cap: nat, b: bytes, chunks: seq<bytes>)
    requires |b| + |Concat(chunks)| <= cap
    ensures WriteAll(usage, cap, Body(b), chunks) == Body(b + Concat(chunks))
    decreases |chunks|
  {
    if chunks == [] {
      assert b + Concat(chunks) == b;
    } else {
      assert b + Concat(chunks) == b + chunks[0] + Concat(chunks[1..]);
      assert chunks[0] == [] ==> b + chunks[0] == b;
      BodyFits(usage, cap, b + chunks[0], chunks[1..]);
    }
  }

  lemma {:induction false} BodyEmptyIffOversized(usage: Usage, cap: nat, b: bytes, chunks: seq<bytes>)
    ensures WriteAll(usage, cap, Body(b), chunks).Body?
    ensures WriteAll(usage, cap, Body(b), chunks).body == [] <==> b == [] && Oversized(cap, chunks)
    decreases |chunks|
  {
    if chunks != [] {
      var v := AfterWrite(usage, cap, Body(b), chunks[0]);
      BodyEmptyIffOversized(usage, cap, v.body, chunks[1..]);
      assert Oversized(cap, chunks) <==> (chunks[0] == [] || |chunks[0]| > cap) && Oversized(cap, chunks[1..]) by {
        assert forall i :: 0 < i < |chunks| ==> chunks[i] == chunks[1..][i - 1];
      }
    }
  }

  /** The body buffer is not chunk independent above the cap: a chunk that does
      not fit is skipped while a later smaller one is still appended. Chunked
      and single writes agree exactly when the body fits, or when every chunk
      is by itself over the cap. */
  lemma BodyChunkIndependentIff(usage: Usage, cap: nat, chunks: seq<bytes>)
    ensures var whole := Concat(chunks);
            WriteAll(usage, cap, Body([]), chunks) == WriteAll(usage, cap, Body([]), [whole])
            <==> |whole| <= cap || Oversized(cap, chunks)
  {
    var whole := Concat(chunks);
    assert Concat([whole]) == whole;
    if |whole| <= cap {
      BodyFits(usage, cap, [], chunks);
      BodyFits(usage, cap, [], [whole]);
    } else {
      BodyEmptyIffOversized(usage, cap, [], chunks);
      BodyEmptyIffOversized(usage, cap, [], [whole]);
    }
  }

  /** Whatever the cap, a chunk that does not fit after an earlier one leaves a gap
      that the next one that fits closes up. */
  lemma BodyWithHole(usage: Usage, cap: nat, x: bytes, y: bytes, z: bytes)
    requires x != [] && y != [] && z != [] && |x| + |y| > cap >= |x| + |z|
    ensures WriteAll(usage, cap, Body([]), [x, y, z]) == Body(x + z)
    ensures Concat([x, y, z]) == x + y + z && x + z != x + y + z
  {
    var c: seq<bytes> := [x, y, z];
    assert c[1..] == [y, z] && c[1..][1..] == [z];
    var none: bytes := [];
    assert none + x == x;
    assert WriteAll(usage, cap, Body([]), c) == WriteAll(usage, cap, Body(x), c[1..]);
    assert WriteAll(usage, cap, Body(x), c[1..]) == WriteAll(usage, cap, Body(x), c[1..][1..]);
    assert WriteAll(usage, cap, Body(x), c[1..][1..]) == WriteAll(usage, cap, Body(x + z), c[1..][1..][1..]);
    assert Concat(c[1..][1..]) == z + none == z && Concat(c[1..]) == y + z;
    assert Concat(c) == x + (y + z) == x + y + z;
    assert |x + z| < |x + y + z|;
  }

  /** At the cap the writer uses, a body of 8 MiB is kept whole, and of one byte, a
      chunk of 8 MiB and one byte, the two bytes are. */
  lemma BodyWithHoleAtCap(usage: Usage, a: byte, y: bytes, b: byte)
    requires |y| == 8_388_608
    ensures WriteAll(usage, FLAT_MAX_BODY_BYTES, Body([]), [[a], y, [b]]) == Body([a, b])
    ensures AfterWrite(usage, FLAT_MAX_BODY_BYTES, Body([]), y) == Body(y)
  {
    assert [] + y == y;
    BodyWithHole(usage, FLAT_MAX_BODY_BYTES, [a], y, [b]);
    assert [a] + [b] == [a, b];
  }
}
