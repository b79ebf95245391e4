/** Which lines of a log are kept, said of the octets of the file alone. */
module QosLines {
  import opened Common
  import opened QosLog
  import opened QosCache

  // ---- Lines with `[DATA]` ----

  predicate TagAt(line: Bytes, i: int) {
    0 <= i && i + 6 <= |line| && line[i..i + 6] == [91, 68, 65, 84, 65, 93]
  }

  /** `[DATA]` stands somewhere in the line. */
  ghost predicate HoldsTag(line: Bytes) {
    exists i :: TagAt(line, i)
  }

  lemma TagHere(line: Bytes)
    requires |line| >= 6
    ensures TagAtStart(line) <==> TagAt(line, 0)
  {
    var t := line[0..6];
    assert t[0] == line[0] && t[1] == line[1] && t[2] == line[2] && t[3] == line[3] && t[4] == line[4] && t[5] == line[5];
  }

  lemma TagLater(line: Bytes, i: int)
    requires line != []
    ensures i >= 1 ==> (TagAt(line, i) <==> TagAt(line[1..], i - 1))
  {
    if i >= 1 && i + 6 <= |line| {
      assert line[1..][i - 1..i + 5] == line[i..i + 6];
    }
  }

  lemma {:induction false} HasTagExactly(line: Bytes)
    ensures HasTag(line) <==> HoldsTag(line)
  {
    if |line| >= 6 {
      TagHere(line);
      HasTagExactly(line[1..]);
      if HoldsTag(line) {
        var i :| TagAt(line, i);
        TagLater(line, i);
      }
      if HoldsTag(line[1..]) {
        var i :| TagAt(line[1..], i);
        TagLater(line, i + 1);
      }
    }
  }

  // ---- A text as its lines ----

  function Joined(pieces: seq<Bytes>): Bytes {
    if pieces == [] then [] else Joined(pieces[..|pieces| - 1]) + pieces[|pieces| - 1]
  }

  /** The pieces with `[DATA]` in them, in order. */
  ghost function Kept(pieces: seq<Bytes>): seq<Bytes> {
    if pieces == [] then []
    else Kept(pieces[..|pieces| - 1]) + if HoldsTag(pieces[|pieces| - 1]) then [pieces[|pieces| - 1]] else []
  }

  /** A newline at the end and nowhere else. */
  predicate EndsOnce(piece: Bytes) {
    piece != [] && piece[|piece| - 1] == 10 && forall k :: 0 <= k < |piece| - 1 ==> piece[k] != 10
  }

  /** The text is these lines and, behind the last newline, `rest`. */
  ghost predicate Splits(text: Bytes, pieces: seq<Bytes>, rest: Bytes) {
    && text == Joined(pieces) + rest
    && (forall k :: 0 <= k < |pieces| ==> EndsOnce(pieces[k]))
    && 10 !in rest
  }

  lemma OneMorePiece(text: Bytes, pieces: seq<Bytes>, rest: Bytes)
    requires Splits(text, pieces, rest)
    ensures Splits(text + [10], pieces + [rest + [10]], [])
    ensures Kept(pieces + [rest + [10]]) == Kept(pieces) + if HoldsTag(rest + [10]) then [rest + [10]] else []
  {
    var more := pieces + [rest + [10]];
    assert more[..|pieces|] == pieces;
    assert Joined(more) + [] == text + [10];
    assert EndsOnce(rest + [10]);
  }

  /** The parse of a text keeps exactly its lines with `[DATA]` in them, in order,
      and what stands behind the last newline. */
  lemma {:induction false} ParseKeepsTaggedLines(text: Bytes) returns (pieces: seq<Bytes>)
    ensures Splits(text, pieces, Parse(text).partial) && Parse(text).lines == Kept(pieces)
  {
    if text == [] {
      pieces := [];
    } else {
      var init, c := text[..|text| - 1], text[|text| - 1];
      assert text == init + [c];
      pieces := ParseKeepsTaggedLines(init);
      var p := Parse(init);
      assert Parse(text) == Push(p, c);
      if c == 10 {
        HasTagExactly(p.partial + [10]);
        OneMorePiece(init, pieces, p.partial);
        pieces := pieces + [p.partial + [10]];
      } else {
        assert Joined(pieces) + (p.partial + [c]) == init + [c];
      }
    }
  }

  /** A text splits into lines in one way only. */
  lemma {:induction false} SplitsOnce(text: Bytes, a: seq<Bytes>, x: Bytes, b: seq<Bytes>, y: Bytes)
    requires Splits(text, a, x) && Splits(text, b, y)
    ensures a == b && x == y
    decreases |a|
  {
    SameRest(text, a, x, b, y);
    assert Joined(a) == text[..|text| - |x|] && Joined(b) == text[..|text| - |x|];
    if a == [] || b == [] {
      JoinedEmpty(a);
      JoinedEmpty(b);
    } else {
      SameLast(a, b);
      SplitsOnce(Joined(a[..|a| - 1]), a[..|a| - 1], [], b[..|b| - 1], []);
      assert a == a[..|a| - 1] + [a[|a| - 1]] && b == b[..|b| - 1] + [b[|b| - 1]];
    }
  }

  lemma JoinedEmpty(a: seq<Bytes>)
    requires forall k :: 0 <= k < |a| ==> EndsOnce(a[k])
    ensures Joined(a) == [] <==> a == []
  {
    if a != [] {
      assert EndsOnce(a[|a| - 1]);
    }
  }

  lemma JoinedEnds(a: seq<Bytes>)
    requires a != [] && forall k :: 0 <= k < |a| ==> EndsOnce(a[k])
    ensures Joined(a) != [] && Joined(a)[|Joined(a)| - 1] == 10
  {
    assert EndsOnce(a[|a| - 1]);
  }

  /** The octet before `rest`, if any, is a newline. */
  lemma BeforeRest(text: Bytes, a: seq<Bytes>, x: Bytes)
    requires Splits(text, a, x)
    ensures |x| <= |text| && (|x| < |text| ==> text[|text| - |x| - 1] == 10)
  {
    if a != [] {
      JoinedEnds(a);
    }
  }

  lemma SuffixAt(text: Bytes, y: Bytes)
    requires |y| <= |text| && y == text[|text| - |y|..]
    ensures forall k :: |text| - |y| <= k < |text| ==> text[k] in y
  {
    forall k | |text| - |y| <= k < |text|
      ensures text[k] in y
    {
      assert text[k] == y[k - (|text| - |y|)];
    }
  }

  lemma SameRest(text: Bytes, a: seq<Bytes>, x: Bytes, b: seq<Bytes>, y: Bytes)
    requires Splits(text, a, x) && Splits(text, b, y)
    ensures x == y
  {
    BeforeRest(text, a, x);
    BeforeRest(text, b, y);
    assert x == text[|text| - |x|..] && y == text[|text| - |y|..];
    SuffixAt(text, x);
    SuffixAt(text, y);
  }

  lemma InitSplits(c: seq<Bytes>, u: Bytes)
    requires EndsOnce(u) && forall k :: 0 <= k < |c| ==> EndsOnce(c[k])
    ensures Splits(Joined(c) + u[..|u| - 1], c, u[..|u| - 1])
    ensures (Joined(c) + u)[..|Joined(c) + u| - 1] == Joined(c) + u[..|u| - 1]
    ensures u == u[..|u| - 1] + [10]
  {}

  lemma CancelEnd(c: Bytes, d: Bytes, u: Bytes)
    requires c + u == d + u
    ensures c == d
  {
    assert c == (c + u)[..|c|] && d == (d + u)[..|d|];
  }

  lemma SameEnd(c: seq<Bytes>, u: Bytes, d: seq<Bytes>, v: Bytes)
    requires EndsOnce(u) && EndsOnce(v) && Joined(c) + u == Joined(d) + v
    requires forall k :: 0 <= k < |c| ==> EndsOnce(c[k])
    requires forall k :: 0 <= k < |d| ==> EndsOnce(d[k])
    ensures u == v && Joined(c) == Joined(d)
  {
    InitSplits(c, u);
    InitSplits(d, v);
    SameRest(Joined(c) + u[..|u| - 1], c, u[..|u| - 1], d, v[..|v| - 1]);
    CancelEnd(Joined(c), Joined(d), u);
  }

  /** Equal texts that end in newlines have equal last lines. */
  lemma SameLast(a: seq<Bytes>, b: seq<Bytes>)
    requires a != [] && b != [] && Joined(a) == Joined(b)
    requires forall k :: 0 <= k < |a| ==> EndsOnce(a[k])
    requires forall k :: 0 <= k < |b| ==> EndsOnce(b[k])
    ensures a[|a| - 1] == b[|b| - 1] && Joined(a[..|a| - 1]) == Joined(b[..|b| - 1])
  {
    SameEnd(a[..|a| - 1], a[|a| - 1], b[..|b| - 1], b[|b| - 1]);
  }

  /** A fresh load keeps exactly the lines of the file with `[DATA]` in them, what
      stands behind its last newline, and its first and last 64 octets. */
  lemma LoadKeepsTaggedLines(path: string, f: File, pieces: seq<Bytes>, rest: Bytes)
    requires Splits(f.content, pieces, rest)
    ensures var log, n := Loaded(path, Some(f)), |f.content|;
      && log.lines == Kept(pieces) && log.partial == rest && log.offset == n
      && log.head == f.content[..if n < 64 then n else 64]
      && log.tail == f.content[if n < 64 then 0 else n - 64..]
  {
    var same := ParseKeepsTaggedLines(f.content);
    SplitsOnce(f.content, pieces, rest, same, Parse(f.content).partial);
    HeadIsSlice(f.content);
    TailIsSlice(f.content);
  }

  /** So does every refresh that is not deceived, whatever happened to the files before. */
  lemma RefreshKeepsTaggedLines(w: World, pieces: seq<Bytes>, rest: Bytes)
    requires Inv(w) && !Deceived(w) && w.disk.current.Some? && Splits(w.disk.current.value.content, pieces, rest)
    ensures var log := Refreshed(w.cache, PATHS, w.disk).current; log.lines == Kept(pieces) && log.partial == rest
  {
    RefreshIsReload(w);
    LoadKeepsTaggedLines(PATHS.current, w.disk.current.value, pieces, rest);
  }
}
