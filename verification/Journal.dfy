/** The bounded activity journal (rust/src/activity.rs). */
module Journal {
  import opened Common

  datatype Level = Off | Basic | Standard | Detailed

  function Order(l: Level): nat {
    match l case Off => 0 case Basic => 1 case Standard => 2 case Detailed => 3
  }

  function LevelName(l: Level): string {
    match l case Off => "off" case Basic => "basic" case Standard => "standard" case Detailed => "detailed"
  }

  /** Events of higher rank are recorded only at more detailed levels. */
  function Rank(category: string, action: string, result: string): Level {
    if category == "recovery" && action == "probe" then Detailed
    else if result == "failed" then Basic
    else if category == "recovery" && action in ["redial", "reboot", "online"] then Basic
    else Standard
  }

  datatype Entry = Entry(id: U64, timestamp: U64, deviceTime: string, category: string, action: string,
                         result: string, reason: string, task: string)

  datatype Stored = Stored(nextId: U64, entries: seq<Entry>, level: Level)

  const DEFAULT := Stored(0, [], Standard)
  const MAX_ENTRIES := 300
  const MAX_FILE := 262144
  const MAX_U64: U64 := 0xFFFF_FFFF_FFFF_FFFF

  // ---- Sizes ----

  function CharBytes(c: char): nat {
    var n := c as int;
    if n < 0x80 then 1 else if n < 0x800 then 2 else if n < 0x1_0000 then 3 else 4
  }

  function Utf8Len(s: string): nat {
    if s == [] then 0 else CharBytes(s[0]) + Utf8Len(s[1..])
  }

  function JsonCharLen(c: char): nat {
    var n := c as int;
    if n in {34, 92, 8, 9, 10, 12, 13} then 2 else if n < 32 then 6 else CharBytes(c)
  }

  function JsonTextLen(s: string): nat {
    if s == [] then 0 else JsonCharLen(s[0]) + JsonTextLen(s[1..])
  }

  /** 97 characters of keys and punctuation around the values. */
  function JsonEntryLen(e: Entry): nat {
    97 + Digits(e.id) + Digits(e.timestamp) + JsonTextLen(e.deviceTime) + JsonTextLen(e.category)
    + JsonTextLen(e.action) + JsonTextLen(e.result) + JsonTextLen(e.reason) + JsonTextLen(e.task)
  }

  function JsonEntriesLen(entries: seq<Entry>): nat {
    if entries == [] then 0
    else JsonEntryLen(entries[0]) + (if |entries| > 1 then 1 else 0) + JsonEntriesLen(entries[1..])
  }

  function JsonLen(s: Stored): nat {
    36 + Digits(s.nextId) + JsonEntriesLen(s.entries) + |LevelName(s.level)|
  }

  // ---- The file ----

  datatype Disk = Absent | Unreadable | Holds(stored: Stored)

  predicate Short(text: string) {
    Utf8Len(text) <= 80
  }

  predicate EntryLoads(e: Entry, nextId: U64) {
    e.id < nextId && Short(e.task) && Short(e.action) && Short(e.reason)
  }

  /** What `load` accepts. */
  predicate Loadable(s: Stored) {
    && JsonLen(s) <= MAX_FILE && |s.entries| <= MAX_ENTRIES
    && forall i :: 0 <= i < |s.entries| ==> EntryLoads(s.entries[i], s.nextId)
  }

  function Loaded(disk: Disk): Stored {
    if disk.Holds? && Loadable(disk.stored) then disk.stored else DEFAULT
  }

  /** A saved state comes back exactly when the load filter accepts it. */
  lemma SaveReloads(s: Stored)
    ensures Loaded(Holds(s)) == s <==> Loadable(s)
  {
    assert Loadable(DEFAULT);
  }

  // ---- The journal ----

  datatype State = State(stored: Stored, storageOk: bool, dirty: bool, disk: Disk)

  datatype Event = Event(category: string, action: string, result: string, reason: string, task: string,
                         at: U64, deviceTime: string)

  predicate Repeats(s: Stored, v: Event) {
    && v.result == "failed" && s.entries != []
    && var e := s.entries[|s.entries| - 1];
       && e.category == v.category && e.action == v.action && e.result == v.result && e.reason == v.reason
       && e.task == v.task && (if v.at < e.timestamp then 0 else v.at - e.timestamp) < 300
  }

  predicate Records(s: Stored, v: Event) {
    Order(s.level) >= Order(Rank(v.category, v.action, v.result)) && !Repeats(s, v)
  }

  function Taken(task: string): string {
    if |task| <= 80 then task else task[..80]
  }

  function NewId(s: Stored): U64 {
    if s.nextId == 0 then 1 else s.nextId
  }

  function NewEntry(s: Stored, v: Event): Entry {
    Entry(NewId(s), v.at, v.deviceTime, v.category, v.action, v.result, v.reason, Taken(v.task))
  }

  function Appended(s: Stored, v: Event): Stored {
    var all := s.entries + [NewEntry(s, v)];
    s.(nextId := if NewId(s) == MAX_U64 then MAX_U64 else NewId(s) + 1,
       entries := if |all| > MAX_ENTRIES then all[1..] else all)
  }

  function Flushed(j: State, saved: bool): State {
    if !j.dirty then j
    else j.(storageOk := saved, dirty := !saved, disk := if saved then Holds(j.stored) else j.disk)
  }

  function Pushed(j: State, v: Event, saved: bool): State {
    if !Records(j.stored, v) then j
    else
      var k := j.(stored := Appended(j.stored, v), dirty := true);
      if k.stored.level == Detailed then Flushed(k, saved) else k
  }

  /** The common form of `set_level` and `clear`. */
  function Saved(j: State, next: Stored, saved: bool): State {
    if saved then State(next, true, false, Holds(next)) else j
  }

  class ActivityJournal {
    var stored: Stored
    var storageOk: bool
    var dirty: bool
    var disk: Disk

    ghost function Value(): State
      reads this
    {
      State(stored, storageOk, dirty, disk)
    }

    constructor Load(file: Disk)
      ensures Value() == State(Loaded(file), true, false, file)
    {
      stored := if file.Holds? && Loadable(file.stored) then file.stored else DEFAULT;
      storageOk, dirty, disk := true, false, file;
    }

    method SetLevel(level: Level, saved: bool) returns (ok: bool)
      modifies this
      ensures Value() == Saved(old(Value()), old(stored).(level := level), saved) && ok == saved
    {
      var next := stored.(level := level);
      if !saved {
        return false;
      }
      disk := Holds(next);
      stored := next;
      dirty := false;
      storageOk := true;
      return true;
    }

    method Flush(saved: bool)
      modifies this
      ensures Value() == Flushed(old(Value()), saved)
      ensures stored == old(stored) && (old(dirty) ==> storageOk == saved && dirty == !saved)
      ensures disk == if old(dirty) && saved then Holds(stored) else old(disk)
    {
      if dirty {
        if saved {
          disk := Holds(stored);
        }
        storageOk := saved;
        dirty := !storageOk;
      }
    }

    method Push(v: Event, saved: bool)
      modifies this
      ensures Value() == Pushed(old(Value()), v, saved)
      ensures stored == if Records(old(stored), v) then Appended(old(stored), v) else old(stored)
      ensures Records(old(stored), v) ==> dirty == !(saved && stored.level == Detailed)
    {
      if Order(stored.level) < Order(Rank(v.category, v.action, v.result)) {
        return;
      }
      if Repeats(stored, v) {
        return;
      }
      var id := NewId(stored);
      var entries := stored.entries + [NewEntry(stored, v)];
      if |entries| > MAX_ENTRIES {
        entries := entries[1..];
      }
      stored := stored.(nextId := if id == MAX_U64 then MAX_U64 else id + 1, entries := entries);
      dirty := true;
      if stored.level == Detailed {
        Flush(saved);
      }
    }

    method Clear(saved: bool) returns (ok: bool)
      modifies this
      ensures Value() == Saved(old(Value()), old(stored).(entries := []), saved) && ok == saved
    {
      var next := Stored(stored.nextId, [], stored.level);
      if !saved {
        return false;
      }
      disk := Holds(next);
      stored := next;
      dirty := false;
      storageOk := true;
      return true;
    }
  }

  // ---- Runs ----

  /** `written` is the state of the last successful write. */
  datatype World = World(j: State, written: Stored)

  datatype Step =
    | Push(event: Event, saved: bool)
    | Flush(saved: bool)
    | SetLevel(level: Level, saved: bool)
    | Clear(saved: bool)
    | Restart

  /** What keeps the file readable: short texts in bytes, a file within its
      limit, and ids left to give. */
  predicate Sizes(s: Stored, v: Event) {
    && Short(v.action) && Short(v.reason) && Short(Taken(v.task))
    && NewId(s) < MAX_U64 && JsonLen(Appended(s, v)) <= MAX_FILE
  }

  predicate Allowed(w: World, s: Step) {
    match s
    case Push(v, _) => Records(w.j.stored, v) ==> Sizes(w.j.stored, v)
    case SetLevel(level, saved) => saved ==> JsonLen(w.j.stored.(level := level)) <= MAX_FILE
    case _ => true
  }

  function After(j: State, s: Step): State {
    match s
    case Push(v, saved) => Pushed(j, v, saved)
    case Flush(saved) => Flushed(j, saved)
    case SetLevel(level, saved) => Saved(j, j.stored.(level := level), saved)
    case Clear(saved) => Saved(j, j.stored.(entries := []), saved)
    case Restart => State(Loaded(j.disk), true, false, j.disk)
  }

  /** Whether the step wrote the file. */
  predicate Wrote(j: State, s: Step) {
    match s
    case Push(v, saved) => saved && Records(j.stored, v) && j.stored.level == Detailed
    case Flush(saved) => saved && j.dirty
    case SetLevel(_, saved) => saved
    case Clear(saved) => saved
    case Restart => false
  }

  function Next(w: World, s: Step): World {
    var j := After(w.j, s);
    World(j, if Wrote(w.j, s) then j.stored else w.written)
  }

  predicate Increasing(entries: seq<Entry>) {
    forall i, k :: 0 <= i < k < |entries| ==> entries[i].id < entries[k].id
  }

  predicate Inv(w: World) {
    && Loadable(w.j.stored) && Increasing(w.j.stored.entries)
    && Increasing(w.written.entries)
    && Loaded(w.j.disk) == w.written
    && (!w.j.dirty ==> w.written == w.j.stored)
  }

  lemma AppendLoads(s: Stored, v: Event)
    requires Loadable(s) && Sizes(s, v)
    ensures Loadable(Appended(s, v))
  {
    var t := Appended(s, v);
    var all := s.entries + [NewEntry(s, v)];
    forall i | 0 <= i < |t.entries|
      ensures EntryLoads(t.entries[i], t.nextId)
    {
      var k := if |all| > MAX_ENTRIES then i + 1 else i;
      assert t.entries[i] == all[k];
      assert k < |s.entries| ==> EntryLoads(s.entries[k], s.nextId);
    }
  }

  lemma AppendKeeps(s: Stored, v: Event)
    requires Loadable(s) && Increasing(s.entries) && Sizes(s, v)
    ensures Loadable(Appended(s, v)) && Increasing(Appended(s, v).entries)
  {
    AppendLoads(s, v);
    var all := s.entries + [NewEntry(s, v)];
    forall i | 0 <= i < |s.entries|
      ensures s.entries[i].id < NewId(s)
    {
      assert EntryLoads(s.entries[i], s.nextId);
    }
    assert Increasing(all);
  }

  lemma AppendFits(s: Stored, v: Event)
    requires Loadable(Appended(s, v))
    ensures Sizes(s, v)
  {
    var t := Appended(s, v);
    var e := t.entries[|t.entries| - 1];
    assert e == NewEntry(s, v);
    assert EntryLoads(e, t.nextId);
  }

  /** A file with one more event comes back exactly when that event keeps the sizes. */
  lemma AppendReloads(s: Stored, v: Event)
    requires Loadable(s)
    ensures Loaded(Holds(Appended(s, v))) == Appended(s, v) <==> Sizes(s, v)
  {
    assert Appended(s, v).nextId >= 1;
    if Sizes(s, v) {
      AppendLoads(s, v);
    } else if Loadable(Appended(s, v)) {
      AppendFits(s, v);
    }
  }

  /** One event beyond the sizes makes the whole file unreadable. */
  lemma AppendSpoils(s: Stored, v: Event)
    requires !Sizes(s, v)
    ensures !Loadable(Appended(s, v)) && Appended(s, v) != DEFAULT
  {
    assert Appended(s, v).nextId >= 1;
    if Loadable(Appended(s, v)) {
      AppendFits(s, v);
    }
  }

  lemma ClearedLoads(s: Stored)
    ensures Loadable(s.(entries := []))
  {
    U64Digits(s.nextId);
    assert |LevelName(s.level)| <= 8;
  }

  lemma StepKeepsInv(w: World, s: Step)
    requires Inv(w) && Allowed(w, s)
    ensures Inv(Next(w, s))
  {
    match s
    case Push(v, saved) =>
      if Records(w.j.stored, v) {
        AppendKeeps(w.j.stored, v);
      }
    case Flush(_) =>
    case SetLevel(level, _) =>
    case Clear(_) => ClearedLoads(w.j.stored);
    case Restart =>
      LoadedLoads(w.j.disk);
  }

  lemma LoadedLoads(disk: Disk)
    ensures Loadable(Loaded(disk))
  {
    SaveReloads(DEFAULT);
  }

  predicate Legal(w: World, steps: seq<Step>)
    decreases |steps|
  {
    steps == [] || (Allowed(w, steps[0]) && Legal(Next(w, steps[0]), steps[1..]))
  }

  function Run(w: World, steps: seq<Step>): World
    decreases |steps|
  {
    if steps == [] then w else Run(Next(w, steps[0]), steps[1..])
  }

  lemma {:induction false} RunKeepsInv(w: World, steps: seq<Step>)
    requires Inv(w) && Legal(w, steps)
    ensures Inv(Run(w, steps))
    decreases |steps|
  {
    if steps != [] {
      StepKeepsInv(w, steps[0]);
      RunKeepsInv(Next(w, steps[0]), steps[1..]);
    }
  }

  const START := World(State(DEFAULT, true, false, Absent), DEFAULT)

  /** In every run: a restart brings back the last state written, which is the
      state in memory unless the journal says it is dirty; ids increase and stay
      below the next one; and there are at most 300 entries. */
  lemma RestartRestoresLastWrite(steps: seq<Step>)
    requires Legal(START, steps)
    ensures var w := Run(START, steps); var s := w.j.stored;
      && Next(w, Restart).j.stored == w.written
      && (!w.j.dirty ==> Next(w, Restart).j.stored == s)
      && |s.entries| <= MAX_ENTRIES && Increasing(s.entries)
      && forall i :: 0 <= i < |s.entries| ==> s.entries[i].id < s.nextId
  {
    SaveReloads(DEFAULT);
    RunKeepsInv(START, steps);
    var s := Run(START, steps).j.stored;
    assert forall i :: 0 <= i < |s.entries| ==> EntryLoads(s.entries[i], s.nextId);
  }

  lemma {:induction false} WideText(s: string)
    requires forall i :: 0 <= i < |s| ==> CharBytes(s[i]) == 3
    ensures Utf8Len(s) == 3 * |s|
  {
    if s != [] {
      WideText(s[1..]);
    }
  }

  /** A crash right after a write would restore the state in memory. */
  predicate Survives(j: State) {
    Loaded(Flushed(j, true).disk) == j.stored
  }

  /** A recorded event survives the next write exactly when it keeps the sizes. */
  lemma PushSurvives(j: State, v: Event, saved: bool)
    requires Loadable(j.stored) && Records(j.stored, v)
    ensures Survives(Pushed(j, v, saved)) <==> Sizes(j.stored, v)
  {
    if Sizes(j.stored, v) {
      AppendLoads(j.stored, v);
    } else {
      AppendSpoils(j.stored, v);
    }
  }

  lemma InvSurvives(w: World)
    requires Inv(w)
    ensures Survives(w.j)
  {}

  lemma LevelSpoils(j: State, level: Level)
    requires JsonLen(j.stored.(level := level)) > MAX_FILE
    ensures !Survives(Saved(j, j.stored.(level := level), true))
  {
    var next := j.stored.(level := level);
    assert !Loadable(next);
    assert JsonLen(DEFAULT) <= MAX_FILE;
  }

  lemma StepSurvives(w: World, s: Step)
    requires Inv(w)
    ensures Survives(Next(w, s).j) <==> Allowed(w, s)
  {
    if Allowed(w, s) {
      StepKeepsInv(w, s);
      InvSurvives(Next(w, s));
    } else if s.Push? {
      PushSurvives(w.j, s.event, s.saved);
    } else {
      LevelSpoils(w.j, s.level);
    }
  }

  /** At every moment of the run a crash right after a write would lose nothing. */
  predicate AlwaysSurvives(w: World, steps: seq<Step>)
    decreases |steps|
  {
    Survives(w.j) && (steps == [] || AlwaysSurvives(Next(w, steps[0]), steps[1..]))
  }

  lemma {:induction false} RunSurvives(w: World, steps: seq<Step>)
    requires Inv(w)
    ensures Legal(w, steps) <==> AlwaysSurvives(w, steps)
    decreases |steps|
  {
    InvSurvives(w);
    if steps != [] {
      StepSurvives(w, steps[0]);
      if Allowed(w, steps[0]) {
        StepKeepsInv(w, steps[0]);
        RunSurvives(Next(w, steps[0]), steps[1..]);
      }
    }
  }

  /** A run never reaches a state that its own file would not bring back, exactly
      when every event recorded on the way kept the sizes (and so did every
      change of level). */
  lemma RunsSurviveWithinSizes(steps: seq<Step>)
    ensures AlwaysSurvives(START, steps) <==> Legal(START, steps)
  {
    LoadedLoads(Absent);
    RunSurvives(START, steps);
  }

  /** `push` cuts the task to 80 characters, `load` counts bytes: an event whose
      cut task is longer than 80 bytes loses the whole journal, at any level. */
  lemma LongTaskLosesJournal(j: State, v: Event, saved: bool)
    requires Records(j.stored, v) && !Short(Taken(v.task))
    ensures var k := Flushed(Pushed(j, v, saved), true);
      !k.dirty && k.storageOk && Loaded(k.disk) == DEFAULT != k.stored
  {
    AppendSpoils(j.stored, v);
  }

  /** For instance 27 characters of a three-byte script, at once when detailed. */
  lemma WideTaskLosesJournal(j: State, v: Event)
    requires Records(j.stored, v) && j.stored.level == Detailed
    requires |v.task| >= 27 && forall i :: 0 <= i < |v.task| ==> CharBytes(v.task[i]) == 3
    ensures var k := Pushed(j, v, true); !k.dirty && k.storageOk && Loaded(k.disk) == DEFAULT != k.stored
  {
    WideText(Taken(v.task));
    LongTaskLosesJournal(j, v, true);
  }

  // ---- Which events are recorded ----

  /** A level records failures and what recovery did, a higher one everything but
      its probes, the highest everything. */
  predicate Wanted(level: Level, category: string, action: string, result: string) {
    match level
    case Off => false
    case Basic =>
      && !(category == "recovery" && action == "probe")
      && (result == "failed"
          || (category == "recovery" && (action == "redial" || action == "reboot" || action == "online")))
    case Standard => !(category == "recovery" && action == "probe")
    case Detailed => true
  }

  /** An event is recorded exactly when the level wants it and it is not the failure
      recorded last, once more within 300 seconds. */
  lemma RecordsExactly(s: Stored, v: Event)
    ensures Records(s, v) <==>
      && Wanted(s.level, v.category, v.action, v.result)
      && !(&& v.result == "failed" && s.entries != []
           && var e := s.entries[|s.entries| - 1];
              && e.category == v.category && e.action == v.action && e.result == "failed"
              && e.reason == v.reason && e.task == v.task && v.at - e.timestamp < 300)
  {}

  /** A recorded event comes last, with the next id and its task cut to 80
      characters; before it stand all earlier entries, or their 299 newest. */
  lemma RecordedEntry(s: Stored, v: Event)
    requires |s.entries| <= 300 && s.nextId < MAX_U64
    ensures var t := Appended(s, v); var n := |t.entries|;
      && n == (if |s.entries| < 300 then |s.entries| + 1 else 300)
      && t.entries[..n - 1] == s.entries[|s.entries| - (n - 1)..]
      && t.entries[n - 1] == Entry(if s.nextId == 0 then 1 else s.nextId, v.at, v.deviceTime, v.category, v.action,
                                   v.result, v.reason, if |v.task| < 80 then v.task else v.task[..80])
      && t.nextId == t.entries[n - 1].id + 1 && t.level == s.level
  {
    var t := Appended(s, v);
    assert |v.task| == 80 ==> v.task[..80] == v.task;
    assert t.entries[..|t.entries| - 1] == s.entries[|s.entries| - (|t.entries| - 1)..];
  }

  /** Two neighbours that report the same failure of a task that was not cut are
      300 seconds apart. */
  predicate Apart(e: Entry, f: Entry) {
    var same :=
      && e.result == "failed" && f.result == "failed" && e.category == f.category && e.action == f.action
      && e.reason == f.reason && e.task == f.task && |f.task| < 80;
    same ==> f.timestamp - e.timestamp >= 300
  }

  predicate AllApart(entries: seq<Entry>) {
    forall i :: 0 <= i < |entries| - 1 ==> Apart(entries[i], entries[i + 1])
  }

  lemma AppendStaysApart(s: Stored, v: Event)
    requires AllApart(s.entries) && Records(s, v)
    ensures AllApart(Appended(s, v).entries)
  {
    RecordsExactly(s, v);
    var all := s.entries + [NewEntry(s, v)];
    forall i | 0 <= i < |all| - 1
      ensures Apart(all[i], all[i + 1])
    {
      if i < |s.entries| - 1 {
        assert Apart(s.entries[i], s.entries[i + 1]);
      }
    }
    assert AllApart(all);
  }

  /** In memory and in whatever a restart would bring back. */
  predicate BothApart(j: State) {
    AllApart(j.stored.entries) && AllApart(Loaded(j.disk).entries)
  }

  lemma StepStaysApart(w: World, s: Step)
    requires BothApart(w.j)
    ensures BothApart(Next(w, s).j)
  {
    if s.Push? && Records(w.j.stored, s.event) {
      AppendStaysApart(w.j.stored, s.event);
    }
  }

  lemma {:induction false} RunStaysApart(w: World, steps: seq<Step>)
    requires BothApart(w.j)
    ensures BothApart(Run(w, steps).j)
    decreases |steps|
  {
    if steps != [] {
      StepStaysApart(w, steps[0]);
      RunStaysApart(Next(w, steps[0]), steps[1..]);
    }
  }

  /** In every run neighbouring entries of one failure are 300 seconds apart. */
  lemma RepeatsAreSpaced(steps: seq<Step>)
    ensures AllApart(Run(START, steps).j.stored.entries)
  {
    RunStaysApart(START, steps);
  }
}
