/** The incremental reader of the QoS log (rust/src/qos.rs). */
module QosLog {
  import opened Common

  /** Octet values; nothing here depends on their range. */
  type Bytes = seq<int>

  const NEWLINE := 10
  /** `[DATA]` */
  const TAG: Bytes := [91, 68, 65, 84, 65, 93]
  const GUARD := 64

  /** The text begins with `[DATA]`. */
  predicate TagAtStart(s: Bytes)
    requires |s| >= 6
  {
    s[0] == 91 && s[1] == 68 && s[2] == 65 && s[3] == 84 && s[4] == 65 && s[5] == 93
  }

  predicate HasTag(line: Bytes) {
    |line| >= 6 && (TagAtStart(line) || HasTag(line[1..]))
  }

  /** The tagged lines of a text, and what follows its last newline. */
  datatype Parsed = Parsed(lines: seq<Bytes>, partial: Bytes)

  function Tagged(line: Bytes): seq<Bytes> {
    if HasTag(line) then [line] else []
  }

  /** One more octet. */
  function Push(p: Parsed, c: int): Parsed {
    if c == NEWLINE then Parsed(p.lines + Tagged(p.partial + [c]), []) else Parsed(p.lines, p.partial + [c])
  }

  function Feed(p: Parsed, s: Bytes): Parsed {
    if s == [] then p else Push(Feed(p, s[..|s| - 1]), s[|s| - 1])
  }

  /** What a text contains, octet by octet. */
  function Parse(s: Bytes): Parsed {
    Feed(Parsed([], []), s)
  }

  predicate OneLine(s: Bytes) {
    forall i :: 0 <= i < |s| ==> s[i] != NEWLINE
  }

  lemma {:induction false} FeedSplit(p: Parsed, a: Bytes, b: Bytes)
    ensures Feed(p, a + b) == Feed(Feed(p, a), b)
  {
    if b == [] {
      assert a + b == a;
    } else {
      assert (a + b)[..|a + b| - 1] == a + b[..|b| - 1];
      FeedSplit(p, a, b[..|b| - 1]);
    }
  }

  /** Lines already found change nothing about the rest. */
  lemma {:induction false} FeedFrame(found: seq<Bytes>, p: Parsed, s: Bytes)
    ensures Feed(Parsed(found + p.lines, p.partial), s) == Parsed(found + Feed(p, s).lines, Feed(p, s).partial)
  {
    if s != [] {
      FeedFrame(found, p, s[..|s| - 1]);
      var q := Feed(p, s[..|s| - 1]);
      var t := Tagged(q.partial + [s[|s| - 1]]);
      assert found + q.lines + t == found + (q.lines + t);
    }
  }

  lemma {:induction false} FeedOneLine(p: Parsed, s: Bytes)
    requires OneLine(s)
    ensures Feed(p, s) == Parsed(p.lines, p.partial + s)
  {
    if s == [] {
      assert p.partial + s == p.partial;
    } else {
      FeedOneLine(p, s[..|s| - 1]);
      assert p.partial + s[..|s| - 1] + [s[|s| - 1]] == p.partial + s;
    }
  }

  lemma {:induction false} PartialIsOneLine(p: Parsed, s: Bytes)
    requires OneLine(p.partial)
    ensures OneLine(Feed(p, s).partial)
  {
    if s != [] {
      PartialIsOneLine(p, s[..|s| - 1]);
    }
  }

  /** Reading on after `p` with the bytes `b`, as `push_complete_lines` does it. */
  function Continue(p: Parsed, b: Bytes): Parsed {
    var q := Parse(p.partial + b);
    Parsed(p.lines + q.lines, q.partial)
  }

  lemma ParseFrom(part: Bytes, b: Bytes)
    requires OneLine(part)
    ensures Parse(part + b) == Feed(Parsed([], part), b)
  {
    FeedSplit(Parsed([], []), part, b);
    FeedOneLine(Parsed([], []), part);
    assert [] + part == part;
  }

  lemma ContinueIsFeed(p: Parsed, b: Bytes)
    requires OneLine(p.partial)
    ensures Continue(p, b) == Feed(p, b)
  {
    var q: Parsed := Parsed([], p.partial);
    ParseFrom(p.partial, b);
    FeedFrame(p.lines, q, b);
    assert p.lines + q.lines == p.lines;
  }

  /** Reading on after `a` needs only the lines and the partial line of `a`. */
  lemma ParseAppend(a: Bytes, b: Bytes)
    ensures Parse(a + b) == Continue(Parse(a), b)
  {
    FeedSplit(Parsed([], []), a, b);
    PartialIsOneLine(Parsed([], []), a);
    ContinueIsFeed(Parse(a), b);
  }

  /** A line with its newline. */
  predicate WholeLine(line: Bytes) {
    line != [] && line[|line| - 1] == NEWLINE && OneLine(line[..|line| - 1])
  }

  lemma FeedSnoc(p: Parsed, s: Bytes, c: int)
    ensures Feed(p, s + [c]) == Push(Feed(p, s), c)
  {
    assert (s + [c])[..|s|] == s;
  }

  lemma FeedInit(p: Parsed, init: Bytes)
    requires p.partial == [] && OneLine(init)
    ensures Feed(p, init + [NEWLINE]) == Parsed(p.lines + Tagged(init + [NEWLINE]), [])
  {
    FeedSnoc(p, init, NEWLINE);
    FeedOneLine(p, init);
    assert [] + init == init;
  }

  lemma FeedLine(p: Parsed, line: Bytes)
    requires p.partial == [] && WholeLine(line)
    ensures Feed(p, line) == Parsed(p.lines + Tagged(line), [])
  {
    FeedInit(p, line[..|line| - 1]);
    assert line[..|line| - 1] + [NEWLINE] == line;
  }

  /** One whole line read after text that ended in a newline. */
  lemma ParseLine(a: Bytes, line: Bytes)
    requires Parse(a).partial == [] && WholeLine(line)
    ensures Parse(a + line) == Parsed(Parse(a).lines + Tagged(line), [])
  {
    FeedSplit(Parsed([], []), a, line);
    FeedLine(Parse(a), line);
  }

  /** Text without a newline read after text that ended in one. */
  lemma ParseRest(a: Bytes, rest: Bytes)
    requires Parse(a).partial == [] && OneLine(rest)
    ensures Parse(a + rest) == Parsed(Parse(a).lines, rest)
  {
    FeedSplit(Parsed([], []), a, rest);
    FeedOneLine(Parse(a), rest);
    assert [] + rest == rest;
  }

  /** Length of the first line with its newline, or 0 when no line is complete. */
  function FirstLine(s: Bytes): (k: nat)
    ensures k <= |s|
  {
    if s == [] then 0
    else if s[0] == NEWLINE then 1
    else
      var k := FirstLine(s[1..]);
      if k == 0 then 0 else k + 1
  }

  lemma {:induction false} FirstLineShape(s: Bytes)
    ensures FirstLine(s) == 0 ==> OneLine(s)
    ensures FirstLine(s) > 0 ==> WholeLine(s[..FirstLine(s)])
  {
    if s != [] && s[0] != NEWLINE {
      FirstLineShape(s[1..]);
      var k := FirstLine(s);
      if k > 0 {
        LineInFront(s[0], s[1..][..k - 1]);
        assert [s[0]] + s[1..][..k - 1] == s[..k];
      } else {
        assert s == [s[0]] + s[1..];
      }
    }
  }

  lemma LineInFront(c: int, line: Bytes)
    requires c != NEWLINE && WholeLine(line)
    ensures WholeLine([c] + line)
  {
    assert ([c] + line)[..|line|] == [c] + line[..|line| - 1];
  }

  function Min(a: nat, b: nat): nat {
    if a < b then a else b
  }

  /** The first 64 octets. */
  function Head(s: Bytes): Bytes {
    if |s| <= GUARD then s else Head(s[..|s| - 1])
  }

  /** The last 64 octets. */
  function Tail(s: Bytes): Bytes {
    if |s| <= GUARD then s else Tail(s[1..])
  }

  lemma {:induction false} HeadIsSlice(s: Bytes)
    ensures Head(s) == s[..Min(GUARD, |s|)]
  {
    if |s| > GUARD {
      HeadIsSlice(s[..|s| - 1]);
      assert s[..|s| - 1][..GUARD] == s[..GUARD];
    }
  }

  lemma {:induction false} TailIsSlice(s: Bytes)
    ensures Tail(s) == s[|s| - Min(GUARD, |s|)..]
  {
    if |s| > GUARD {
      TailIsSlice(s[1..]);
      assert s[1..][|s| - 1 - GUARD..] == s[|s| - GUARD..];
    }
  }

  function HeadGrown(guard: Bytes, bytes: Bytes): Bytes {
    guard + bytes[..Min(|bytes|, if |guard| < GUARD then GUARD - |guard| else 0)]
  }

  function TailGrown(guard: Bytes, bytes: Bytes): Bytes {
    if |bytes| >= GUARD then bytes[|bytes| - GUARD..]
    else if |guard| + |bytes| > GUARD then guard[|guard| + |bytes| - GUARD..] + bytes
    else guard + bytes
  }

  lemma HeadGrows(a: Bytes, b: Bytes)
    ensures HeadGrown(Head(a), b) == Head(a + b)
  {
    HeadIsSlice(a);
    HeadIsSlice(a + b);
    if |a| >= GUARD {
      assert (a + b)[..GUARD] == a[..GUARD];
      assert a[..GUARD] + b[..0] == a[..GUARD];
    } else {
      var n := Min(|b|, GUARD - |a|);
      assert (a + b)[..|a| + n] == a + b[..n];
    }
  }

  lemma SliceOfSlice(a: Bytes, i: nat, j: nat)
    requires i + j <= |a|
    ensures a[i..][j..] == a[i + j..]
  {}

  lemma LongTailSlice(a: Bytes, b: Bytes, guard: Bytes)
    requires 0 < |b| < GUARD < |a| + |b| && guard == a[|a| - Min(GUARD, |a|)..]
    ensures TailGrown(guard, b) == (a + b)[|a| + |b| - GUARD..]
  {
    var m, k := Min(GUARD, |a|), |a| + |b| - GUARD;
    SliceOfSlice(a, |a| - m, m + |b| - GUARD);
    SliceOfJoined(a, b, k);
  }

  lemma LongTail(a: Bytes, b: Bytes)
    requires 0 < |b| < GUARD < |a| + |b|
    ensures TailGrown(Tail(a), b) == Tail(a + b)
  {
    TailIsSlice(a);
    TailIsSlice(a + b);
    LongTailSlice(a, b, Tail(a));
  }

  lemma SliceOfJoined(a: Bytes, b: Bytes, k: nat)
    requires k <= |a|
    ensures (a + b)[k..] == a[k..] + b
  {}

  lemma TailGrows(a: Bytes, b: Bytes)
    ensures TailGrown(Tail(a), b) == Tail(a + b)
  {
    if |b| >= GUARD {
      TailIsSlice(a + b);
      assert (a + b)[|a| + |b| - GUARD..] == b[|b| - GUARD..];
    } else if b == [] {
      TailIsSlice(a);
      assert a + b == a && Tail(a) + b == Tail(a);
    } else if |a| + |b| > GUARD {
      LongTail(a, b);
    }
  }

  lemma GuardsGrow(a: Bytes, b: Bytes)
    ensures HeadGrown(Head(a), b) == Head(a + b)
    ensures TailGrown(Tail(a), b) == Tail(a + b)
  {
    HeadGrows(a, b);
    TailGrows(a, b);
  }

  /** A file's identity, content and last modification. */
  datatype File = File(dev: nat, ino: nat, mtime: nat, content: Bytes)

  datatype Stamp = Stamp(dev: nat, ino: nat, len: nat, mtime: nat)

  function StampOf(f: File): Stamp {
    Stamp(f.dev, f.ino, |f.content|, f.mtime)
  }

  function Stamped(f: Option<File>): Option<Stamp> {
    if f.Some? then Some(StampOf(f.value)) else None
  }

  /** The value of one `LogCache`. */
  datatype Log = Log(path: string, stamp: Option<Stamp>, offset: nat, head: Bytes, tail: Bytes,
                     partial: Bytes, lines: seq<Bytes>)

  const NO_LOG := Log("", None, 0, [], [], [], [])

  /** What a fresh `load` of the file gives. */
  function Loaded(path: string, f: Option<File>): Log {
    if f.None? then NO_LOG.(path := path)
    else
      var c := f.value.content;
      Log(path, Some(StampOf(f.value)), |c|, Head(c), Tail(c), Parse(c).partial, Parse(c).lines)
  }

  predicate SamePlace(log: Log, f: File) {
    log.stamp.Some? ==> log.stamp.value.dev == f.dev && log.stamp.value.ino == f.ino
  }

  /** Both guards still stand where they were read. */
  predicate GuardsHold(log: Log, content: Bytes) {
    && |log.head| <= |content| && content[..|log.head|] == log.head
    && var from := if log.offset < |log.tail| then 0 else log.offset - |log.tail|;
       from + |log.tail| <= |content| && content[from..from + |log.tail|] == log.tail
  }

  /** When `append` goes on from the cached state. */
  predicate Accepts(log: Log, f: File) {
    log.path != "" && SamePlace(log, f) && log.offset <= |f.content| && GuardsHold(log, f.content)
  }

  function Extended(log: Log, f: File): Log
    requires log.offset <= |f.content|
  {
    var bytes := f.content[log.offset..];
    var p := Continue(Parsed(log.lines, log.partial), bytes);
    if |f.content| == log.offset then log.(stamp := Some(StampOf(f)))
    else log.(stamp := Some(StampOf(f)), offset := |f.content|, head := HeadGrown(log.head, bytes),
              tail := TailGrown(log.tail, bytes), partial := p.partial, lines := p.lines)
  }

  /** Going on from a prefix of the file gives what a fresh load gives. */
  lemma ExtendingIsLoading(path: string, c: File, f: File)
    requires c.content <= f.content
    ensures Extended(Loaded(path, Some(c)), f) == Loaded(path, Some(f))
  {
    var bytes := f.content[|c.content|..];
    assert f.content == c.content + bytes;
    if |c.content| == |f.content| {
      assert c.content == f.content;
    }
    GuardsGrow(c.content, bytes);
    ParseAppend(c.content, bytes);
  }

  // ---- Going on from octets that were overwritten ----

  /** The octets `c` as read, and the line left open at their end completed from
      the file, hold the same tagged lines as the file does up to there. */
  predicate SameReading(c: Bytes, f: Bytes) {
    && |c| <= |f|
    && var k := FirstLine(f[|c|..]);
       Parse(c + f[|c|..][..k]) == Parse(f[..|c|] + f[|c|..][..k])
  }

  lemma ParseOneLine(x: Bytes, b: Bytes)
    requires OneLine(b)
    ensures Parse(x + b) == Parsed(Parse(x).lines, Parse(x).partial + b)
  {
    FeedSplit(Parsed([], []), x, b);
    FeedOneLine(Parse(x), b);
  }

  lemma CancelLeft(p: Bytes, q: Bytes, b: Bytes)
    requires p + b == q + b
    ensures p == q
  {
    assert p == (p + b)[..|p|] && q == (q + b)[..|q|];
  }

  lemma CancelRight(p: seq<Bytes>, q: seq<Bytes>, b: seq<Bytes>)
    requires p + b == q + b
    ensures p == q
  {
    assert p == (p + b)[..|p|] && q == (q + b)[..|q|];
  }

  lemma WholeLineEmpties(x: Bytes, line: Bytes)
    requires WholeLine(line)
    ensures Parse(x + line).partial == []
  {
    FeedSplit(Parsed([], []), x, line);
  }

  /** Text after a newline adds its own lines. */
  lemma ParseAfterBreak(x: Bytes, t: Bytes)
    requires Parse(x).partial == []
    ensures Parse(x + t) == Parsed(Parse(x).lines + Parse(t).lines, Parse(t).partial)
  {
    FeedSplit(Parsed([], []), x, t);
    FeedFrame(Parse(x).lines, Parsed([], []), t);
    assert Parse(x).lines + [] == Parse(x).lines;
  }

  lemma SameWithoutBreak(c: Bytes, a: Bytes, b: Bytes)
    requires OneLine(b)
    ensures Parse(c + b) == Parse(a + b) <==> Parse(c) == Parse(a)
  {
    ParseOneLine(c, b);
    ParseOneLine(a, b);
    if Parse(c + b) == Parse(a + b) {
      CancelLeft(Parse(c).partial, Parse(a).partial, b);
    }
  }

  lemma SameWithBreak(c: Bytes, a: Bytes, line: Bytes, t: Bytes)
    requires WholeLine(line)
    ensures Parse(c + (line + t)) == Parse(a + (line + t)) <==> Parse(c + line) == Parse(a + line)
  {
    WholeLineEmpties(c, line);
    WholeLineEmpties(a, line);
    ParseAfterBreak(c + line, t);
    ParseAfterBreak(a + line, t);
    assert c + (line + t) == c + line + t && a + (line + t) == a + line + t;
    if Parse(c + line + t) == Parse(a + line + t) {
      CancelRight(Parse(c + line).lines, Parse(a + line).lines, Parse(t).lines);
    }
  }

  lemma SameUnbroken(c: Bytes, a: Bytes, b: Bytes)
    requires OneLine(b)
    ensures Parse(c + b) == Parse(a + b) <==> Parse(c + b[..0]) == Parse(a + b[..0])
  {
    SameWithoutBreak(c, a, b);
    assert c + b[..0] == c && a + b[..0] == a;
  }

  lemma SameBroken(c: Bytes, a: Bytes, b: Bytes, k: nat)
    requires k <= |b| && WholeLine(b[..k])
    ensures Parse(c + b) == Parse(a + b) <==> Parse(c + b[..k]) == Parse(a + b[..k])
  {
    SameWithBreak(c, a, b[..k], b[k..]);
    assert b == b[..k] + b[k..];
  }

  /** Only the octets up to the first newline of `b` matter. */
  lemma SameUpToBreak(c: Bytes, a: Bytes, b: Bytes)
    ensures Parse(c + b) == Parse(a + b) <==> Parse(c + b[..FirstLine(b)]) == Parse(a + b[..FirstLine(b)])
  {
    FirstLineShape(b);
    if FirstLine(b) == 0 {
      SameUnbroken(c, a, b);
    } else {
      SameBroken(c, a, b, FirstLine(b));
    }
  }

  /** Reading on after `c` gives what the file gives exactly under `SameReading`. */
  lemma ReadingOnExactly(c: Bytes, f: Bytes)
    requires |c| <= |f|
    ensures Continue(Parse(c), f[|c|..]) == Parse(f) <==> SameReading(c, f)
  {
    ParseAppend(c, f[|c|..]);
    SameUpToBreak(c, f[..|c|], f[|c|..]);
    assert f == f[..|c|] + f[|c|..];
  }

  /** Standing guards: the overwritten octets begin and end as those read did. */
  lemma StandingGuards(path: string, c: File, content: Bytes)
    requires |c.content| <= |content| && GuardsHold(Loaded(path, Some(c)), content)
    ensures Head(content[..|c.content|]) == Head(c.content) && Tail(content[..|c.content|]) == Tail(c.content)
  {
    var n := |c.content|;
    var a := content[..n];
    HeadIsSlice(c.content);
    TailIsSlice(c.content);
    HeadIsSlice(a);
    TailIsSlice(a);
    var m := Min(GUARD, n);
    assert a[..m] == content[..m];
    assert a[n - m..] == content[n - m..n];
  }

  lemma ContinueWithNothing(c: Bytes)
    ensures Continue(Parse(c), []) == Parse(c)
  {
    ParseAppend(c, []);
    assert c + [] == c;
  }

  /** Going on from any content whose guards stand gives what a fresh load gives
      exactly under `SameReading`. */
  lemma ExtendingExactly(path: string, c: File, f: File)
    requires |c.content| <= |f.content| && GuardsHold(Loaded(path, Some(c)), f.content)
    ensures Extended(Loaded(path, Some(c)), f) == Loaded(path, Some(f)) <==> SameReading(c.content, f.content)
  {
    var n := |c.content|;
    var a, b := f.content[..n], f.content[n..];
    assert f.content == a + b;
    StandingGuards(path, c, f.content);
    GuardsGrow(a, b);
    ReadingOnExactly(c.content, f.content);
    if b == [] {
      ContinueWithNothing(c.content);
      assert a == f.content;
    }
  }

  // ---- The condition on the overwritten octets alone ----

  lemma {:induction false} FirstLineOfNone(b: Bytes)
    requires OneLine(b)
    ensures FirstLine(b) == 0
  {
    if b != [] {
      FirstLineOfNone(b[1..]);
    }
  }

  /** Nothing with a newline was appended: the overwritten octets must parse alike. */
  lemma SameReadingUnbroken(c: Bytes, f: Bytes)
    requires |c| <= |f| && OneLine(f[|c|..])
    ensures SameReading(c, f) <==> Parse(c) == Parse(f[..|c|])
  {
    FirstLineOfNone(f[|c|..]);
    assert c + f[|c|..][..0] == c && f[..|c|] + f[|c|..][..0] == f[..|c|];
  }

  /** Equal open lines: only the tagged lines below the offset matter. */
  lemma SameReadingSameOpenLine(c: Bytes, f: Bytes)
    requires |c| <= |f| && Parse(c).partial == Parse(f[..|c|]).partial
    ensures SameReading(c, f) <==> Parse(c).lines == Parse(f[..|c|]).lines
  {
    var h := f[|c|..][..FirstLine(f[|c|..])];
    ParseAppend(c, h);
    ParseAppend(f[..|c|], h);
    if SameReading(c, f) {
      CancelRight(Parse(c).lines, Parse(f[..|c|]).lines, Parse(Parse(c).partial + h).lines);
    }
  }

  /** Behind a newline it is forgotten what stood before. */
  lemma {:induction false} BreakForgets(p: Parsed, q: Parsed, t: Bytes)
    requires NEWLINE in t
    ensures Feed(p, t).partial == Feed(q, t).partial
  {
    var init := t[..|t| - 1];
    if t[|t| - 1] != NEWLINE {
      BreakForgets(p, q, init);
    }
  }

  /** In particular when the tail guard holds a newline. */
  lemma SameReadingBehindBreak(path: string, c: File, f: Bytes)
    requires |c.content| <= |f| && GuardsHold(Loaded(path, Some(c)), f) && NEWLINE in Tail(c.content)
    ensures SameReading(c.content, f) <==> Parse(c.content).lines == Parse(f[..|c.content|]).lines
  {
    var a := f[..|c.content|];
    StandingGuards(path, c, f);
    var t := Tail(a);
    TailIsSlice(a);
    TailIsSlice(c.content);
    var n := |a| - |t|;
    assert a == a[..n] + t && c.content == c.content[..n] + t;
    FeedSplit(Parsed([], []), a[..n], t);
    FeedSplit(Parsed([], []), c.content[..n], t);
    BreakForgets(Parse(a[..n]), Parse(c.content[..n]), t);
    SameReadingSameOpenLine(c.content, f);
  }

  /** What was read from a file stands in every extension of it. */
  lemma PrefixKeepsGuards(path: string, c: File, f: File)
    requires c.content <= f.content
    ensures GuardsHold(Loaded(path, Some(c)), f.content)
  {
    var n := |c.content|;
    HeadIsSlice(c.content);
    TailIsSlice(c.content);
    assert f.content[..n] == c.content;
    assert f.content[..Min(GUARD, n)] == c.content[..Min(GUARD, n)];
    assert f.content[n - Min(GUARD, n)..n] == c.content[n - Min(GUARD, n)..];
  }

  /** What `read_until` returns next. */
  function NextLine(rest: Bytes): Bytes {
    if FirstLine(rest) > 0 then rest[..FirstLine(rest)] else rest
  }

  lemma NextLineProgresses(rest: Bytes)
    requires rest != []
    ensures 0 < |NextLine(rest)| <= |rest| && rest[..|NextLine(rest)|] == NextLine(rest)
  {}

  /** The text read so far, after one more line. */
  lemma ReadOn(before: Bytes, rest: Bytes)
    requires Parse(before).partial == [] && rest != []
    ensures Parse(before + NextLine(rest)) == if FirstLine(rest) > 0
      then Parsed(Parse(before).lines + Tagged(NextLine(rest)), []) else Parsed(Parse(before).lines, rest)
    ensures FirstLine(rest) == 0 ==> NextLine(rest) == rest
  {
    FirstLineShape(rest);
    if FirstLine(rest) > 0 {
      ParseLine(before, NextLine(rest));
    } else {
      ParseRest(before, rest);
    }
  }

  lemma NextPrefix(s: Bytes, at: nat)
    requires at < |s|
    ensures 0 < |NextLine(s[at..])| <= |s| - at
    ensures s[..at + |NextLine(s[at..])|] == s[..at] + NextLine(s[at..])
  {
    NextLineProgresses(s[at..]);
  }

  /** The loop of `load`: one line at a time, each fed to both guards. */
  method ReadLines(content: Bytes) returns (head: Bytes, tail: Bytes, lines: seq<Bytes>, partial: Bytes)
    ensures head == Head(content) && tail == Tail(content)
    ensures Parsed(lines, partial) == Parse(content)
  {
    head, tail, lines, partial := [], [], [], [];
    var at := 0;
    ghost var done: Bytes := [];
    while at < |content|
      invariant 0 <= at <= |content| && done == content[..at]
      invariant head == Head(done) && tail == Tail(done)
      invariant Parsed(lines, partial) == Parse(done)
      invariant at < |content| ==> partial == []
    {
      var rest := content[at..];
      var line := NextLine(rest);
      NextPrefix(content, at);
      GuardsGrow(done, line);
      ReadOn(done, rest);
      head := HeadGrown(head, line);
      tail := TailGrown(tail, line);
      if FirstLine(rest) > 0 {
        lines, partial := lines + Tagged(line), [];
      } else {
        partial := line;
      }
      at := at + |line|;
      done := done + line;
    }
    assert done == content;
  }

  /** Just past the last newline, or 0. */
  method LastBreak(text: Bytes) returns (complete: nat)
    ensures complete <= |text| && (complete > 0 ==> text[complete - 1] == NEWLINE)
    ensures forall i :: complete <= i < |text| ==> text[i] != NEWLINE
  {
    complete := |text|;
    while complete > 0 && text[complete - 1] != NEWLINE
      invariant 0 <= complete <= |text|
      invariant forall i :: complete <= i < |text| ==> text[i] != NEWLINE
    {
      complete := complete - 1;
    }
  }

  /** Splits text that ends in a newline into its lines. */
  method SplitLines(text: Bytes) returns (lines: seq<Bytes>)
    requires text != [] ==> text[|text| - 1] == NEWLINE
    ensures Parse(text) == Parsed(lines, [])
  {
    var at := 0;
    lines := [];
    assert text[..0] == [];
    while at < |text|
      invariant 0 <= at <= |text|
      invariant Parse(text[..at]) == Parsed(lines, [])
    {
      var left := text[at..];
      FirstLineShape(left);
      assert left[|left| - 1] == NEWLINE;
      var line := left[..FirstLine(left)];
      assert text[..at + |line|] == text[..at] + line;
      ParseLine(text[..at], line);
      lines := lines + Tagged(line);
      at := at + |line|;
    }
    assert text[..at] == text;
  }

  /** Everything up to the last newline is split into lines, the rest is left. */
  method SplitComplete(text: Bytes) returns (lines: seq<Bytes>, rest: Bytes)
    ensures Parsed(lines, rest) == Parse(text)
  {
    var complete := LastBreak(text);
    lines := SplitLines(text[..complete]);
    rest := text[complete..];
    assert text == text[..complete] + rest;
    ParseRest(text[..complete], rest);
  }

  class LogCache {
    var path: string
    var stamp: Option<Stamp>
    var offset: nat
    var head: Bytes
    var tail: Bytes
    var partial: Bytes
    var lines: seq<Bytes>

    ghost function Value(): Log
      reads this
    {
      Log(path, stamp, offset, head, tail, partial, lines)
    }

    constructor Empty()
      ensures Value() == NO_LOG
    {
      path, stamp, offset, head, tail, partial, lines := "", None, 0, [], [], [], [];
    }

    constructor Load(path: string, file: Option<File>)
      ensures Value() == Loaded(path, file)
    {
      this.path := path;
      stamp, offset, head, tail, partial, lines := None, 0, [], [], [], [];
      new;
      if file.Some? {
        head, tail, lines, partial := ReadLines(file.value.content);
        stamp := Some(StampOf(file.value));
        offset := |file.value.content|;
      }
    }

    /** `push_complete_lines` */
    method PushCompleteLines(bytes: Bytes)
      modifies this
      ensures var p := Continue(Parsed(old(lines), old(partial)), bytes);
        Value() == old(Value()).(partial := p.partial, lines := p.lines)
    {
      var combined := partial + bytes;
      var found, rest := SplitComplete(combined);
      lines := lines + found;
      partial := rest;
    }

    /** The comparison of both guards, in `append`. */
    method GuardsStand(content: Bytes) returns (ok: bool)
      requires offset <= |content|
      ensures ok == GuardsHold(Value(), content)
    {
      if head != [] {
        if |content| < |head| || content[..|head|] != head {
          return false;
        }
      }
      if tail != [] {
        var from := if offset < |tail| then 0 else offset - |tail|;
        if |content| < from + |tail| || content[from..from + |tail|] != tail {
          return false;
        }
      }
      return true;
    }

    method Append(f: File) returns (ok: bool)
      modifies this
      ensures ok == Accepts(old(Value()), f)
      ensures Value() == if ok then Extended(old(Value()), f) else old(Value())
    {
      if path == "" || (stamp.Some? && (stamp.value.dev != f.dev || stamp.value.ino != f.ino))
         || |f.content| < offset {
        return false;
      }
      ok := GuardsStand(f.content);
      if !ok {
        return;
      }
      var bytes := f.content[offset..];
      if |f.content| == offset {
        stamp := Some(StampOf(f));
        return true;
      }
      PushCompleteLines(bytes);
      head := HeadGrown(head, bytes);
      tail := TailGrown(tail, bytes);
      offset := offset + |bytes|;
      stamp := Some(StampOf(f));
      return true;
    }
  }
}
