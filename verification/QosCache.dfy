/** The two-file QoS cache and its runs (rust/src/qos.rs, `qos_clear` in
    rust/src/control.rs). */
module QosCache {
  import opened Common
  import opened QosLog

  datatype Pair = Pair(current: Log, rotated: Log, initialized: bool)

  const EMPTY := Pair(NO_LOG, NO_LOG, false)

  /** The files the two paths name during one refresh. */
  datatype Disk = Disk(current: Option<File>, rotated: Option<File>)

  datatype Paths = Paths(current: string, rotated: string)

  function Reloaded(paths: Paths, disk: Disk): Pair {
    Pair(Loaded(paths.current, disk.current), Loaded(paths.rotated, disk.rotated), true)
  }

  predicate Replaced(log: Log, f: Option<File>) {
    match (log.stamp, f)
    case (Some(previous), Some(next)) =>
      previous.dev != next.dev || previous.ino != next.ino || |next.content| < log.offset
    case (None, None) => false
    case _ => true
  }

  function Refreshed(c: Pair, paths: Paths, disk: Disk): Pair {
    if !c.initialized || c.rotated.path != paths.rotated || c.current.path != paths.current
       || c.rotated.stamp != Stamped(disk.rotated) || Replaced(c.current, disk.current)
    then Reloaded(paths, disk)
    else if disk.current.None? then c
    else if Accepts(c.current, disk.current.value) then c.(current := Extended(c.current, disk.current.value))
    else Reloaded(paths, disk)
  }

  class Cache {
    var current: LogCache
    var rotated: LogCache
    var initialized: bool

    ghost function Value(): Pair
      reads this, current, rotated
    {
      Pair(current.Value(), rotated.Value(), initialized)
    }

    ghost predicate Valid()
      reads this
    {
      current != rotated
    }

    constructor ()
      ensures Valid() && Value() == EMPTY && fresh(current) && fresh(rotated)
    {
      current := new LogCache.Empty();
      rotated := new LogCache.Empty();
      initialized := false;
    }

    method Reload(paths: Paths, disk: Disk)
      modifies this
      ensures Valid() && Value() == Reloaded(paths, disk) && fresh(current) && fresh(rotated)
    {
      rotated := new LogCache.Load(paths.rotated, disk.rotated);
      current := new LogCache.Load(paths.current, disk.current);
      initialized := true;
    }

    method Refresh(paths: Paths, disk: Disk)
      requires Valid()
      modifies this, current
      ensures Valid()
      ensures Value() == Refreshed(old(Value()), paths, disk)
    {
      if !initialized || rotated.path != paths.rotated || current.path != paths.current {
        Reload(paths, disk);
        return;
      }
      var rotatedChanged := rotated.stamp != Stamped(disk.rotated);
      var replaced := match (current.stamp, disk.current)
        case (Some(previous), Some(next)) =>
          previous.dev != next.dev || previous.ino != next.ino || |next.content| < current.offset
        case (None, None) => false
        case _ => true;
      if rotatedChanged || replaced {
        Reload(paths, disk);
        return;
      }
      if disk.current.Some? {
        var ok := current.Append(disk.current.value);
        if !ok {
          Reload(paths, disk);
        }
      }
    }

    method Invalidate()
      modifies this
      ensures Valid() && Value() == EMPTY && fresh(current) && fresh(rotated)
    {
      current := new LogCache.Empty();
      rotated := new LogCache.Empty();
      initialized := false;
    }
  }

  // ---- Whole runs ----

  /** What has happened to the current log since the last refresh. */
  datatype Since = Kept | Cut | Moved

  /** `written[t]` is the content left by the write at time `t`; `read` are the
      files as the cache last read them. */
  datatype World = World(disk: Disk, cache: Pair, written: seq<Bytes>, read: Disk, since: Since)

  datatype Step =
    | Create(dev: nat, ino: nat)             // the logger starts a current log
    | Append(bytes: Bytes)                   // the logger writes a chunk of any size
    | Rotate(dev: nat, ino: nat)             // current becomes rotated, a new current starts
    | TruncateCurrent(len: nat)
    | TruncateRotated(len: nat)
    | Invalidate
    | Refresh

  /** A truncated log that has grown past the read offset again, with both
      guards in place: nothing the cache looks at can tell. */
  predicate Disguised(w: World) {
    && w.since.Cut? && w.cache.initialized && w.disk.current.Some?
    && w.cache.rotated.stamp == Stamped(w.disk.rotated) && Accepts(w.cache.current, w.disk.current.value)
  }

  /** A disguised log whose overwritten octets do not read as the cached ones did. */
  predicate Deceived(w: World) {
    && Disguised(w)
    && (w.read.current.Some? ==> !SameReading(w.read.current.value.content, w.disk.current.value.content))
  }

  predicate Allowed(w: World, s: Step) {
    match s
    case Create(_, _) => w.disk.current.None?
    case Append(_) => w.disk.current.Some?
    case Rotate(dev, ino) => w.disk.current.Some? && !(w.disk.current.value.dev == dev && w.disk.current.value.ino == ino)
    case TruncateCurrent(len) => w.disk.current.Some? && len <= |w.disk.current.value.content|
    case TruncateRotated(len) => w.disk.rotated.Some? && len <= |w.disk.rotated.value.content|
    case Invalidate => true
    case Refresh => true
  }

  const PATHS := Paths("/data/logfs/key.log", "/data/logfs/key.log.0")

  /** A write leaves `content` and a modification time of its own. */
  function Wrote(w: World, f: File, content: Bytes): File {
    f.(content := content, mtime := |w.written|)
  }

  function Next(w: World, s: Step): World
    requires Allowed(w, s)
  {
    match s
    case Create(dev, ino) =>
      w.(disk := w.disk.(current := Some(File(dev, ino, |w.written|, []))), written := w.written + [[]])
    case Append(bytes) =>
      var f := w.disk.current.value;
      w.(disk := w.disk.(current := Some(Wrote(w, f, f.content + bytes))), written := w.written + [f.content + bytes])
    case Rotate(dev, ino) =>
      w.(disk := Disk(Some(File(dev, ino, |w.written|, [])), w.disk.current), written := w.written + [[]],
         since := Moved)
    case TruncateCurrent(len) =>
      var f := w.disk.current.value;
      w.(disk := w.disk.(current := Some(Wrote(w, f, f.content[..len]))), written := w.written + [f.content[..len]],
         since := if w.since.Moved? || len >= w.cache.current.offset then w.since else Cut)
    case TruncateRotated(len) =>
      var f := w.disk.rotated.value;
      w.(disk := w.disk.(rotated := Some(Wrote(w, f, f.content[..len]))), written := w.written + [f.content[..len]])
    case Invalidate => w.(cache := EMPTY)
    case Refresh => w.(cache := Refreshed(w.cache, PATHS, w.disk), read := w.disk, since := Kept)
  }

  /** A modification time names one write. */
  predicate Recorded(w: World, f: Option<File>) {
    f.Some? ==> f.value.mtime < |w.written| && w.written[f.value.mtime] == f.value.content
  }

  predicate Apart(f: Option<File>, g: Option<File>) {
    f.Some? && g.Some? ==> f.value.mtime != g.value.mtime
  }

  /** The log read earlier is still the beginning of the current one. */
  predicate Continues(read: Option<File>, now: Option<File>) {
    read.Some? ==>
      && now.Some? && read.value.dev == now.value.dev && read.value.ino == now.value.ino
      && read.value.content <= now.value.content
  }

  predicate Inv(w: World) {
    && Recorded(w, w.disk.current) && Recorded(w, w.disk.rotated)
    && Recorded(w, w.read.current) && Recorded(w, w.read.rotated)
    && Apart(w.disk.current, w.disk.rotated)
    && (w.cache.initialized ==>
          && w.cache == Reloaded(PATHS, w.read)
          && Apart(w.disk.current, w.read.rotated)
          && (w.since.Kept? ==> Continues(w.read.current, w.disk.current))
          && (w.since.Cut? ==> w.read.current.Some?)
          && (w.since.Moved? ==> w.disk.rotated.Some? && Apart(w.disk.rotated, w.read.rotated)))
  }

  lemma SameStampSameFile(w: World, f: Option<File>, g: Option<File>)
    requires Recorded(w, f) && Recorded(w, g) && Stamped(f) == Stamped(g)
    ensures f == g
  {}

  lemma UndisguisedIsReload(w: World)
    requires Inv(w) && !Disguised(w)
    ensures Refreshed(w.cache, PATHS, w.disk) == Reloaded(PATHS, w.disk)
  {
    if w.cache.initialized && w.cache.rotated.stamp == Stamped(w.disk.rotated) {
      assert w.cache.rotated.stamp == Stamped(w.read.rotated);
      SameStampSameFile(w, w.read.rotated, w.disk.rotated);
      if w.since.Kept? && w.disk.current.Some? && w.read.current.Some? {
        ExtendingIsLoading(PATHS.current, w.read.current.value, w.disk.current.value);
      }
    }
  }

  lemma DisguisedIsExtended(w: World)
    requires Inv(w) && Disguised(w)
    ensures w.read.current.Some? && |w.read.current.value.content| <= |w.disk.current.value.content|
    ensures GuardsHold(Loaded(PATHS.current, w.read.current), w.disk.current.value.content)
    ensures Refreshed(w.cache, PATHS, w.disk)
         == Reloaded(PATHS, w.disk).(current := Extended(Loaded(PATHS.current, w.read.current), w.disk.current.value))
  {
    assert w.cache.rotated.stamp == Stamped(w.read.rotated);
    SameStampSameFile(w, w.read.rotated, w.disk.rotated);
  }

  /** A refresh leaves the cache as a fresh load of both files would, exactly when
      the log is not disguised or what was overwritten reads alike. */
  lemma RefreshIsReload(w: World)
    requires Inv(w)
    ensures Refreshed(w.cache, PATHS, w.disk) == Reloaded(PATHS, w.disk) <==> !Deceived(w)
  {
    if Disguised(w) {
      DisguisedIsExtended(w);
      ExtendingExactly(PATHS.current, w.read.current.value, w.disk.current.value);
    } else {
      UndisguisedIsReload(w);
    }
  }

  lemma WriteKeepsInv(w: World, s: Step)
    requires Inv(w) && Allowed(w, s) && (s.Create? || s.Append? || s.TruncateCurrent?)
    ensures Inv(Next(w, s))
  {}

  lemma RotateKeepsInv(w: World, s: Step)
    requires Inv(w) && Allowed(w, s) && (s.Rotate? || s.TruncateRotated?)
    ensures Inv(Next(w, s))
  {}

  lemma StepKeepsInv(w: World, s: Step)
    requires Inv(w) && Allowed(w, s) && (s.Refresh? ==> !Deceived(w))
    ensures Inv(Next(w, s))
  {
    match s
    case Create(_, _) => WriteKeepsInv(w, s);
    case Append(_) => WriteKeepsInv(w, s);
    case TruncateCurrent(_) => WriteKeepsInv(w, s);
    case Rotate(_, _) => RotateKeepsInv(w, s);
    case TruncateRotated(_) => RotateKeepsInv(w, s);
    case Invalidate =>
    case Refresh => RefreshIsReload(w);
  }

  predicate Legal(w: World, steps: seq<Step>)
    decreases |steps|
  {
    steps == [] || (Allowed(w, steps[0]) && Legal(Next(w, steps[0]), steps[1..]))
  }

  function Run(w: World, steps: seq<Step>): World
    requires Legal(w, steps)
    decreases |steps|
  {
    if steps == [] then w else Run(Next(w, steps[0]), steps[1..])
  }

  /** No refresh of the run meets a deceiving log. */
  predicate Undeceived(w: World, steps: seq<Step>)
    requires Legal(w, steps)
    decreases |steps|
  {
    steps == [] || (&& (steps[0].Refresh? ==> !Deceived(w))
                    && Undeceived(Next(w, steps[0]), steps[1..]))
  }

  /** Every refresh of the run leaves what a fresh load of both files would. */
  predicate AlwaysAgrees(w: World, steps: seq<Step>)
    requires Legal(w, steps)
    decreases |steps|
  {
    steps == [] || (&& (steps[0].Refresh? ==> Next(w, Refresh).cache == Reloaded(PATHS, w.disk))
                    && AlwaysAgrees(Next(w, steps[0]), steps[1..]))
  }

  lemma {:induction false} RunAgreesExactly(w: World, steps: seq<Step>)
    requires Inv(w) && Legal(w, steps)
    ensures AlwaysAgrees(w, steps) <==> Undeceived(w, steps)
    ensures Undeceived(w, steps) ==> Inv(Run(w, steps))
    decreases |steps|
  {
    if steps != [] {
      if steps[0].Refresh? {
        RefreshIsReload(w);
      }
      if steps[0].Refresh? ==> !Deceived(w) {
        StepKeepsInv(w, steps[0]);
        RunAgreesExactly(Next(w, steps[0]), steps[1..]);
      }
    }
  }

  const START := World(Disk(None, None), EMPTY, [], Disk(None, None), Kept)

  /** In every run, all refreshes agree with re-reading both files exactly when
      none of them meets a deceiving log. */
  lemma RefreshAgrees(steps: seq<Step>)
    requires Legal(START, steps)
    ensures AlwaysAgrees(START, steps) <==> Undeceived(START, steps)
  {
    RunAgreesExactly(START, steps);
  }

  /** A newline in the tail guard, or nothing but an unfinished line appended:
      the overwritten octets alone decide. */
  lemma DeceivedByLines(w: World)
    requires Inv(w) && Disguised(w)
    ensures w.read.current.Some? && |w.read.current.value.content| <= |w.disk.current.value.content|
    ensures var c, f := w.read.current.value.content, w.disk.current.value.content;
      && (NEWLINE in w.cache.current.tail ==> (Deceived(w) <==> Parse(c).lines != Parse(f[..|c|]).lines))
      && (OneLine(f[|c|..]) ==> (Deceived(w) <==> Parse(c) != Parse(f[..|c|])))
  {
    DisguisedIsExtended(w);
    var c, f := w.read.current.value, w.disk.current.value.content;
    assert w.cache.current.tail == Tail(c.content);
    if NEWLINE in Tail(c.content) {
      SameReadingBehindBreak(PATHS.current, c, f);
    }
    if OneLine(f[|c.content|..]) {
      SameReadingUnbroken(c.content, f);
    }
  }

  /** `qos_clear`: both logs that exist are cut to nothing, then the cache is dropped. */
  function Cleared(w: World): World {
    var v := CurrentCut(w);
    var u := if v.disk.rotated.Some? then Next(v, TruncateRotated(0)) else v;
    Next(u, Invalidate)
  }

  function CurrentCut(w: World): World {
    if w.disk.current.Some? then Next(w, TruncateCurrent(0)) else w
  }

  /** The two log files, as `qos_clear` changes them. */
  class LogFiles {
    var disk: Disk
    var written: seq<Bytes>

    constructor (disk: Disk, written: seq<Bytes>)
      ensures this.disk == disk && this.written == written
    {
      this.disk, this.written := disk, written;
    }

    method CutCurrent()
      modifies this
      ensures disk == old(disk).(current := if old(disk).current.None? then None
                else Some(old(disk).current.value.(content := [], mtime := |old(written)|)))
      ensures written == old(written) + if old(disk).current.Some? then [[]] else []
    {
      if disk.current.Some? {
        disk := disk.(current := Some(disk.current.value.(content := [], mtime := |written|)));
        written := written + [[]];
      }
    }

    method CutRotated()
      modifies this
      ensures disk == old(disk).(rotated := if old(disk).rotated.None? then None
                else Some(old(disk).rotated.value.(content := [], mtime := |old(written)|)))
      ensures written == old(written) + if old(disk).rotated.Some? then [[]] else []
    {
      if disk.rotated.Some? {
        disk := disk.(rotated := Some(disk.rotated.value.(content := [], mtime := |written|)));
        written := written + [[]];
      }
    }

    /** `qos_clear`; the two flags say which of the files cannot be cut. When one
        cannot, the cache is left alone. */
    method Clear(cache: Cache, ghost w: World, failCurrent: bool, failRotated: bool) returns (ok: bool)
      requires w.disk == disk && w.written == written && cache.Valid() && w.cache == cache.Value()
      modifies this, cache
      ensures ok == (!failCurrent && !failRotated) && cache.Valid()
      ensures var v := if ok then Cleared(w) else if failCurrent then w else CurrentCut(w);
        disk == v.disk && written == v.written && cache.Value() == v.cache
    {
      if failCurrent {
        return false;
      }
      CutCurrent();
      if failRotated {
        return false;
      }
      CutRotated();
      cache.Invalidate();
      return true;
    }
  }

  lemma ClearedKeepsInv(w: World)
    requires Inv(w)
    ensures Inv(Cleared(w))
  {
    var v := CurrentCut(w);
    if w.disk.current.Some? {
      StepKeepsInv(w, TruncateCurrent(0));
    }
    if v.disk.rotated.Some? {
      StepKeepsInv(v, TruncateRotated(0));
    }
  }

  predicate EmptyFile(f: Option<File>) {
    f.Some? ==> f.value.content == []
  }

  lemma EmptyFileLoads(path: string, f: Option<File>)
    requires EmptyFile(f)
    ensures Loaded(path, f).lines == [] && Loaded(path, f).partial == []
  {
    assert Parse([]) == Parsed([], []);
  }

  lemma ClearedShape(w: World)
    ensures var v := Cleared(w); EmptyFile(v.disk.current) && EmptyFile(v.disk.rotated) && v.cache == EMPTY
  {}

  /** After a clear the next refresh is never deceived and finds nothing, however
      the logs were cut, refilled or rotated before. */
  lemma ClearedMeansEmpty(w: World)
    requires Inv(w)
    ensures var v := Cleared(w);
      && Inv(v) && !Disguised(v)
      && var c := Next(v, Refresh).cache;
         && c == Reloaded(PATHS, v.disk)
         && c.current.lines == [] && c.current.partial == [] && c.rotated.lines == []
  {
    ClearedKeepsInv(w);
    ClearedShape(w);
    EmptyFileLoads(PATHS.current, Cleared(w).disk.current);
    EmptyFileLoads(PATHS.rotated, Cleared(w).disk.rotated);
  }

  /** A log of 64, 7 and 64 bytes whose middle is rewritten in place. */
  function Sandwich(middle: Bytes): Bytes {
    Edge() + middle + Edge()
  }

  function Edge(): Bytes {
    seq(GUARD, _ => 120)
  }

  /** A rewrite that keeps both guards passes for an append, and the cache keeps a
      line that the file no longer has. */
  lemma DisguiseDeceives(c: File, f: File)
    requires c.content == Sandwich(TAG + [NEWLINE]) && f.content == Sandwich(TAG + [32])
    requires c.dev == f.dev && c.ino == f.ino
    ensures Accepts(Loaded(PATHS.current, Some(c)), f)
    ensures Extended(Loaded(PATHS.current, Some(c)), f).lines != Loaded(PATHS.current, Some(f)).lines
  {
    SandwichGuards(TAG + [NEWLINE]);
    SandwichGuards(TAG + [32]);
    TaggedSandwich();
    PlainSandwich();
  }

  function Rewritten(): seq<Step> {
    [Create(1, 1), Append(Sandwich(TAG + [NEWLINE])), Refresh, TruncateCurrent(0), Append(Sandwich(TAG + [32]))]
  }

  /** The world after the first refresh, and after the rewrite. */
  function FirstRead(): World {
    var tagged := Sandwich(TAG + [NEWLINE]);
    var disk := Disk(Some(File(1, 1, 1, tagged)), None);
    World(disk, Reloaded(PATHS, disk), [[], tagged], disk, Kept)
  }

  function Refilled(): World {
    var plain := Sandwich(TAG + [32]);
    FirstRead().(disk := Disk(Some(File(1, 1, 3, plain)), None), written := FirstRead().written + [[]] + [plain],
                 since := Cut)
  }

  lemma UpToFirstRead()
    ensures Next(Next(Next(START, Rewritten()[0]), Rewritten()[1]), Refresh) == FirstRead()
  {
    var tagged := Sandwich(TAG + [NEWLINE]);
    assert [] + tagged == tagged;
    assert [[]] + [tagged] == [[], tagged];
  }

  lemma UpToRefilled()
    ensures Allowed(FirstRead(), TruncateCurrent(0))
    ensures Next(Next(FirstRead(), TruncateCurrent(0)), Rewritten()[4]) == Refilled()
  {
    var v := Next(FirstRead(), TruncateCurrent(0));
    assert FirstRead().cache.current.offset == 135;
    assert v.disk.current.value.content == [];
    assert [] + Sandwich(TAG + [32]) == Sandwich(TAG + [32]);
  }

  lemma RunsFirst(w: World, s: Step, rest: seq<Step>)
    requires Allowed(w, s) && Legal(Next(w, s), rest)
    ensures Legal(w, [s] + rest) && Run(w, [s] + rest) == Run(Next(w, s), rest)
  {
    assert ([s] + rest)[1..] == rest;
  }

  /** `w` reaches `v` in these steps, with every refresh on the way undeceived. */
  predicate Reaches(w: World, steps: seq<Step>, v: World) {
    Legal(w, steps) && Undeceived(w, steps) && Run(w, steps) == v
  }

  lemma ReachesFirst(w: World, s: Step, rest: seq<Step>, v: World)
    requires Allowed(w, s) && (s.Refresh? ==> !Deceived(w)) && Reaches(Next(w, s), rest, v)
    ensures Reaches(w, [s] + rest, v)
  {
    RunsFirst(w, s, rest);
    assert ([s] + rest)[1..] == rest;
  }

  lemma FirstSteps(rest: seq<Step>, v: World)
    requires Reaches(FirstRead(), rest, v)
    ensures Reaches(START, [Rewritten()[0]] + ([Rewritten()[1]] + ([Refresh] + rest)), v)
  {
    UpToFirstRead();
    var s := Rewritten();
    var w1 := Next(START, s[0]);
    ReachesFirst(Next(w1, s[1]), Refresh, rest, v);
    ReachesFirst(w1, s[1], [Refresh] + rest, v);
    ReachesFirst(START, s[0], [s[1]] + ([Refresh] + rest), v);
  }

  lemma LastSteps()
    ensures Reaches(FirstRead(), [Rewritten()[3]] + ([Rewritten()[4]] + []), Refilled())
  {
    UpToRefilled();
    var s := Rewritten();
    var w4 := Next(FirstRead(), s[3]);
    ReachesFirst(w4, s[4], [], Refilled());
    ReachesFirst(FirstRead(), s[3], [s[4]] + [], Refilled());
  }

  lemma RewrittenRuns()
    ensures Reaches(START, Rewritten(), Refilled())
  {
    var s := Rewritten();
    LastSteps();
    FirstSteps([s[3]] + ([s[4]] + []), Refilled());
    assert s == [s[0]] + ([s[1]] + ([Refresh] + ([s[3]] + ([s[4]] + []))));
  }

  /** A world whose current log was cut back and refilled unnoticed. */
  lemma UnnoticedDisagrees(w: World, c: File, f: File)
    requires w.disk == Disk(Some(f), None) && w.cache == Reloaded(PATHS, Disk(Some(c), None)) && w.since.Cut?
    requires Accepts(Loaded(PATHS.current, Some(c)), f)
    requires Extended(Loaded(PATHS.current, Some(c)), f).lines != Loaded(PATHS.current, Some(f)).lines
    ensures Disguised(w) && Refreshed(w.cache, PATHS, w.disk) != Reloaded(PATHS, w.disk)
  {}

  /** This run reaches a deceiving log, and the next refresh does not agree with
      the files. */
  lemma DisguisedRunDisagrees()
    ensures Legal(START, Rewritten())
    ensures var w := Run(START, Rewritten());
      Inv(w) && Deceived(w) && Refreshed(w.cache, PATHS, w.disk) != Reloaded(PATHS, w.disk)
  {
    RewrittenRuns();
    RunAgreesExactly(START, Rewritten());
    RefreshIsReload(Refilled());
    var c, f := FirstRead().disk.current.value, Refilled().disk.current.value;
    DisguiseDeceives(c, f);
    UnnoticedDisagrees(Refilled(), c, f);
  }

  lemma TaggedSandwich()
    ensures Parse(Sandwich(TAG + [NEWLINE])).lines != []
  {
    var line := Edge() + TAG + [NEWLINE];
    assert Sandwich(TAG + [NEWLINE]) == line + Edge();
    assert line == [] + line && line[..|line| - 1] == Edge() + TAG;
    ParseLine([], line);
    ParseRest(line, Edge());
    TagBetween(Edge(), [NEWLINE]);
  }

  lemma TagBetween(front: Bytes, back: Bytes)
    ensures HasTag(front + TAG + back)
  {
    var line := front + TAG + back;
    assert line[|front|..] == TAG + back;
    TagInFront(back);
    TagWithin(line, |front|);
  }

  lemma TagInFront(back: Bytes)
    ensures TagAtStart(TAG + back)
  {}

  lemma PlainSandwich()
    ensures Parse(Sandwich(TAG + [32])).lines == []
  {
    var s := Sandwich(TAG + [32]);
    assert s == [] + s;
    ParseRest([], s);
  }

  lemma SandwichGuards(middle: Bytes)
    requires |middle| == 7
    ensures var s := Sandwich(middle);
      Head(s) == Edge() && Tail(s) == Edge() && s[..GUARD] == Edge() && s[GUARD + 7..] == Edge()
  {
    HeadIsSlice(Sandwich(middle));
    TailIsSlice(Sandwich(middle));
  }

  lemma {:induction false} TagWithin(line: Bytes, i: nat)
    requires i + 6 <= |line| && TagAtStart(line[i..])
    ensures HasTag(line)
  {
    if i > 0 {
      assert line[1..][i - 1..] == line[i..];
      TagWithin(line[1..], i - 1);
    }
  }
}
