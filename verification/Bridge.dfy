/** Admission of remote sessions (`BridgeState` and `BridgeManager` in
    rust/src/cloud.rs). Times are seconds of the elapsed clock. */
module Bridge {
  const MEMORY := 43200
  const MAX_ACTIVE := 4
  const MAX_SEEN := 128

  datatype State = State(active: set<string>, seen: map<string, nat>, sessions: set<string>)

  function Purged(seen: map<string, nat>, now: nat): map<string, nat> {
    map id | id in seen && seen[id] > now :: seen[id]
  }

  datatype Answer = Rejected | Ignored | Accepted

  /** `valid` is the verdict of the request checks, `refused` that of the
      service asked for. */
  function Decision(s: State, id: string, valid: bool, refused: bool, now: nat): Answer {
    if !valid then Rejected
    else if id in Purged(s.seen, now) then Ignored
    else if |s.active| >= MAX_ACTIVE || |Purged(s.seen, now)| >= MAX_SEEN || refused then Rejected
    else Accepted
  }

  function Received(s: State, id: string, valid: bool, refused: bool, now: nat): State {
    if !valid then s
    else
      var t := s.(seen := Purged(s.seen, now));
      if Decision(s, id, valid, refused, now).Accepted?
      then t.(active := t.active + {id}, seen := t.seen[id := now + MEMORY]) else t
  }

  /** Whether closing an unknown id is remembered. */
  predicate Blocks(s: State, id: string, now: nat) {
    id !in s.sessions && id !in Purged(s.seen, now) && |Purged(s.seen, now)| < MAX_SEEN
  }

  function Closed(s: State, id: string, wellFormed: bool, now: nat): State {
    if !wellFormed || id in s.sessions then s
    else
      var seen := Purged(s.seen, now);
      s.(seen := if Blocks(s, id, now) then seen[id := now + MEMORY] else seen)
  }

  class Manager {
    var active: set<string>
    var seen: map<string, nat>
    var sessions: set<string>

    ghost function Value(): State
      reads this
    {
      State(active, seen, sessions)
    }

    constructor ()
      ensures Value() == State({}, map[], {})
    {
      active, seen, sessions := {}, map[], {};
    }

    method AlreadySeen(id: string, now: nat) returns (yes: bool)
      modifies this`seen
      ensures seen == Purged(old(seen), now) && yes == (id in seen)
    {
      seen := map k | k in seen && seen[k] > now :: seen[k];
      yes := id in seen;
    }

    method Remember(id: string, now: nat)
      modifies this`seen
      ensures seen == old(seen)[id := now + MEMORY]
    {
      seen := seen[id := now + MEMORY];
    }

    method Receive(id: string, valid: bool, refused: bool, now: nat) returns (answer: Answer)
      modifies this
      ensures Value() == Received(old(Value()), id, valid, refused, now)
      ensures answer == Decision(old(Value()), id, valid, refused, now)
      ensures answer == Accepted ==>
        active == old(active) + {id} && id in seen && seen[id] == now + 43200 && sessions == old(sessions)
      ensures answer != Accepted ==> active == old(active) && sessions == old(sessions)
    {
      if !valid {
        return Rejected;
      }
      var known := AlreadySeen(id, now);
      if known {
        return Ignored;
      }
      if |active| >= MAX_ACTIVE || |seen| >= MAX_SEEN || refused {
        return Rejected;
      }
      active := active + {id};
      Remember(id, now);
      return Accepted;
    }

    method Close(id: string, wellFormed: bool, now: nat)
      modifies this
      ensures Value() == Closed(old(Value()), id, wellFormed, now)
    {
      if !wellFormed || id in sessions {
        return;
      }
      var known := AlreadySeen(id, now);
      if !known && |seen| < MAX_SEEN {
        Remember(id, now);
      }
    }

    method Register(id: string)
      modifies this
      ensures Value() == old(Value()).(sessions := old(sessions) + {id})
    {
      sessions := sessions + {id};
    }

    method Release(id: string)
      modifies this
      ensures Value() == old(Value()).(active := old(active) - {id})
    {
      active := active - {id};
    }

    method Unregister(id: string)
      modifies this
      ensures Value() == old(Value()).(sessions := old(sessions) - {id})
    {
      sessions := sessions - {id};
    }
  }

  // ---- Runs ----

  /** A running session: its id and when it was accepted. */
  datatype Session = Session(id: string, since: nat)

  /** An accepted open, or a close that was remembered. */
  datatype Note = Note(id: string, at: nat, admitted: bool)

  datatype World = World(s: State, now: nat, running: map<nat, Session>, notes: seq<Note>)

  datatype Step =
    | Pass(seconds: nat)
    | Open(number: nat, id: string, valid: bool, refused: bool)
    | Close(id: string, wellFormed: bool)
    | Register(id: string)
    | Release(number: nat)
    | Unregister(id: string)

  /** Sessions are numbered anew, and only running ones are released. */
  predicate Allowed(w: World, s: Step) {
    match s
    case Open(n, _, _, _) => n !in w.running
    case Release(n) => n in w.running
    case _ => true
  }

  /** No session is still running `life` seconds after it was accepted. */
  predicate Timely(w: World, s: Step, life: nat) {
    s.Pass? ==> forall n :: n in w.running ==> w.now + s.seconds < w.running[n].since + life
  }

  function Next(w: World, s: Step): World {
    if !Allowed(w, s) then w else
    match s
    case Pass(d) => w.(now := w.now + d)
    case Open(n, id, valid, refused) =>
      var v := w.(s := Received(w.s, id, valid, refused, w.now));
      if Decision(w.s, id, valid, refused, w.now).Accepted?
      then v.(running := w.running[n := Session(id, w.now)], notes := w.notes + [Note(id, w.now, true)]) else v
    case Close(id, wellFormed) =>
      var v := w.(s := Closed(w.s, id, wellFormed, w.now));
      if wellFormed && Blocks(w.s, id, w.now) then v.(notes := w.notes + [Note(id, w.now, false)]) else v
    case Register(id) => w.(s := w.s.(sessions := w.s.sessions + {id}))
    case Release(n) =>
      w.(s := w.s.(active := w.s.active - {w.running[n].id}), running := w.running - {n})
    case Unregister(id) => w.(s := w.s.(sessions := w.s.sessions - {id}))
  }

  /** An accepted open is at least twelve hours after anything noted for its id. */
  predicate Apart(notes: seq<Note>) {
    forall i, j :: 0 <= i < j < |notes| && notes[j].admitted && notes[i].id == notes[j].id ==>
      notes[j].at >= notes[i].at + MEMORY
  }

  predicate Remembered(w: World) {
    forall i :: 0 <= i < |w.notes| ==>
      && w.notes[i].at <= w.now
      && (w.now < w.notes[i].at + MEMORY ==>
            w.notes[i].id in w.s.seen && w.s.seen[w.notes[i].id] >= w.notes[i].at + MEMORY)
  }

  function RunningIds(running: map<nat, Session>): set<string> {
    set n | n in running :: running[n].id
  }

  predicate OneEach(running: map<nat, Session>) {
    forall n, m :: n in running && m in running && running[n].id == running[m].id ==> n == m
  }

  /** The active ids are exactly those of the running sessions, each of one. */
  predicate Counted(w: World) {
    w.s.active == RunningIds(w.running) && OneEach(w.running)
  }

  predicate Noted(notes: seq<Note>, x: Session) {
    Note(x.id, x.since, true) in notes
  }

  predicate AllNoted(w: World) {
    forall n :: n in w.running ==> w.now < w.running[n].since + MEMORY && Noted(w.notes, w.running[n])
  }

  predicate Inv(w: World) {
    |w.s.active| <= MAX_ACTIVE && |w.s.seen| <= MAX_SEEN && Apart(w.notes) && Remembered(w)
  }

  /** What holds besides while no session outlives the memory of its id. */
  predicate Tracked(w: World) {
    Counted(w) && AllNoted(w)
  }

  lemma {:induction false} PurgedShrinks(seen: map<string, nat>, now: nat)
    ensures |Purged(seen, now)| <= |seen|
  {
    var p := Purged(seen, now);
    SubsetSmaller(p.Keys, seen.Keys);
    assert |p| == |p.Keys| && |seen| == |seen.Keys|;
  }

  lemma {:induction false} SubsetSmaller(a: set<string>, b: set<string>)
    requires a <= b
    ensures |a| <= |b|
  {
    if a != {} {
      var x :| x in a;
      SubsetSmaller(a - {x}, b - {x});
    }
  }

  /** Dropping what expired forgets nothing that still counts. */
  lemma PurgeKeepsInv(w: World)
    requires Inv(w)
    ensures Inv(w.(s := w.s.(seen := Purged(w.s.seen, w.now))))
  {
    PurgedShrinks(w.s.seen, w.now);
  }

  lemma ApartGrows(notes: seq<Note>, e: Note)
    requires Apart(notes)
    requires forall i :: 0 <= i < |notes| && notes[i].id == e.id ==> e.at >= notes[i].at + MEMORY
    ensures Apart(notes + [e])
  {
    var more := notes + [e];
    forall i, j | 0 <= i < j < |more| && more[j].admitted && more[i].id == more[j].id
      ensures more[j].at >= more[i].at + MEMORY
    {
      assert more[i] == notes[i];
      assert j < |notes| ==> more[j] == notes[j];
    }
  }

  /** The world with a note taken for an id that was not remembered. */
  function WithNote(w: World, id: string, admitted: bool): World {
    w.(s := w.s.(seen := w.s.seen[id := w.now + MEMORY]), notes := w.notes + [Note(id, w.now, admitted)])
  }

  lemma NoteKeeps(w: World, id: string, admitted: bool)
    requires Apart(w.notes) && Remembered(w) && id !in w.s.seen
    ensures Apart(WithNote(w, id, admitted).notes) && Remembered(WithNote(w, id, admitted))
    ensures |WithNote(w, id, admitted).s.seen| == |w.s.seen| + 1
  {
    var v := WithNote(w, id, admitted);
    ApartGrows(w.notes, Note(id, w.now, admitted));
    assert v.s.seen.Keys == w.s.seen.Keys + {id};
    forall i | 0 <= i < |v.notes|
      ensures v.notes[i].at <= v.now
      ensures v.now < v.notes[i].at + MEMORY ==> v.notes[i].id in v.s.seen && v.s.seen[v.notes[i].id] >= v.notes[i].at + MEMORY
    {
      assert i < |w.notes| ==> v.notes[i] == w.notes[i];
    }
  }

  /** A newly accepted id belongs to no running session. */
  lemma AcceptedIsNew(w: World, id: string)
    requires Remembered(w) && AllNoted(w) && id !in w.s.seen
    ensures id !in RunningIds(w.running)
  {
    forall n | n in w.running
      ensures w.running[n].id != id
    {
      assert Noted(w.notes, w.running[n]);
      var i :| 0 <= i < |w.notes| && w.notes[i] == Note(w.running[n].id, w.running[n].since, true);
    }
  }

  lemma {:induction false} IdsCount(running: map<nat, Session>)
    requires OneEach(running)
    ensures |RunningIds(running)| == |running|
    decreases |running|
  {
    if |running| > 0 {
      var n :| n in running;
      var rest := running - {n};
      IdsCount(rest);
      WithoutOne(running, n);
      assert running.Keys == rest.Keys + {n};
    } else {
      assert running.Keys == {};
    }
  }

  lemma WithoutOne(running: map<nat, Session>, n: nat)
    requires OneEach(running) && n in running
    ensures RunningIds(running - {n}) == RunningIds(running) - {running[n].id} && OneEach(running - {n})
  {
    forall id | id in RunningIds(running) - {running[n].id}
      ensures id in RunningIds(running - {n})
    {
      var m :| m in running && running[m].id == id;
      assert m in running - {n};
    }
  }

  lemma WithOneMore(running: map<nat, Session>, n: nat, x: Session)
    requires OneEach(running) && n !in running && x.id !in RunningIds(running)
    ensures RunningIds(running[n := x]) == RunningIds(running) + {x.id} && OneEach(running[n := x])
  {
    var more := running[n := x];
    forall m | m in running
      ensures running[m].id in RunningIds(more) && running[m].id != x.id
    {
      assert more[m] == running[m];
    }
    assert more[n].id == x.id;
  }

  function Admitted(w: World, n: nat, id: string): World {
    var v := WithNote(w, id, true);
    v.(s := v.s.(active := w.s.active + {id}), running := w.running[n := Session(id, w.now)])
  }

  lemma AdmittedIsNoted(w: World, n: nat, id: string)
    requires AllNoted(w)
    ensures AllNoted(Admitted(w, n, id))
  {
    var v := Admitted(w, n, id);
    forall m | m in v.running
      ensures Noted(v.notes, v.running[m])
    {
      if m == n {
        assert v.notes[|w.notes|] == Note(id, w.now, true);
      } else {
        assert Noted(w.notes, w.running[m]);
      }
    }
  }

  lemma AcceptKeepsInv(w: World, n: nat, id: string)
    requires Inv(w) && id !in w.s.seen && |w.s.seen| < MAX_SEEN && |w.s.active| < MAX_ACTIVE
    ensures Inv(Admitted(w, n, id))
  {
    NoteKeeps(w, id, true);
  }

  lemma AcceptIsTracked(w: World, n: nat, id: string)
    requires Inv(w) && Tracked(w) && id !in w.s.seen && n !in w.running
    ensures Tracked(Admitted(w, n, id))
  {
    AcceptedIsNew(w, id);
    WithOneMore(w.running, n, Session(id, w.now));
    AdmittedIsNoted(w, n, id);
  }

  function Forgotten(w: World): World {
    w.(s := w.s.(seen := Purged(w.s.seen, w.now)))
  }

  lemma OpenValue(w: World, s: Step)
    requires Allowed(w, s) && s.Open?
    ensures Next(w, s) == if !s.valid then w
                          else if Decision(w.s, s.id, s.valid, s.refused, w.now).Accepted?
                          then Admitted(Forgotten(w), s.number, s.id) else Forgotten(w)
  {}

  lemma OpenKeepsInv(w: World, s: Step)
    requires Inv(w) && Allowed(w, s) && s.Open?
    ensures Inv(Next(w, s))
    ensures Tracked(w) ==> Tracked(Next(w, s))
  {
    OpenValue(w, s);
    PurgeKeepsInv(w);
    if Decision(w.s, s.id, s.valid, s.refused, w.now).Accepted? {
      AcceptKeepsInv(Forgotten(w), s.number, s.id);
      if Tracked(w) {
        AcceptIsTracked(Forgotten(w), s.number, s.id);
      }
    }
  }

  lemma CloseKeepsInv(w: World, s: Step)
    requires Inv(w) && s.Close?
    ensures Inv(Next(w, s))
    ensures Tracked(w) ==> Tracked(Next(w, s))
  {
    if s.wellFormed && s.id !in w.s.sessions {
      PurgeKeepsInv(w);
      if Blocks(w.s, s.id, w.now) {
        NoteKeeps(Forgotten(w), s.id, false);
      }
    }
  }

  lemma ReleaseKeepsInv(w: World, n: nat)
    requires Inv(w) && n in w.running
    ensures Inv(Next(w, Release(n)))
    ensures Tracked(w) ==> Tracked(Next(w, Release(n)))
  {
    SubsetSmaller(w.s.active - {w.running[n].id}, w.s.active);
    if Tracked(w) {
      WithoutOne(w.running, n);
    }
  }

  lemma StepKeepsInv(w: World, s: Step)
    requires Inv(w)
    ensures Inv(Next(w, s))
    ensures Tracked(w) && Timely(w, s, MEMORY) ==> Tracked(Next(w, s))
  {
    if Allowed(w, s) {
      match s
      case Open(_, _, _, _) => OpenKeepsInv(w, s);
      case Close(_, _) => CloseKeepsInv(w, s);
      case Release(n) => ReleaseKeepsInv(w, n);
      case _ =>
    }
  }

  function Run(w: World, steps: seq<Step>): World
    decreases |steps|
  {
    if steps == [] then w else Run(Next(w, steps[0]), steps[1..])
  }

  predicate AllTimely(w: World, steps: seq<Step>, life: nat)
    decreases |steps|
  {
    steps == [] || (Timely(w, steps[0], life) && AllTimely(Next(w, steps[0]), steps[1..], life))
  }

  lemma {:induction false} RunKeepsInv(w: World, steps: seq<Step>)
    requires Inv(w)
    ensures Inv(Run(w, steps))
    ensures Tracked(w) && AllTimely(w, steps, MEMORY) ==> Tracked(Run(w, steps))
    decreases |steps|
  {
    if steps != [] {
      StepKeepsInv(w, steps[0]);
      RunKeepsInv(Next(w, steps[0]), steps[1..]);
    }
  }

  const START := World(State({}, map[], {}), 0, map[], [])

  /** In every run at most four ids are active and 128 remembered, and an open is
      accepted only twelve hours after the same id was last accepted or blocked
      by a close. */
  lemma AdmissionIsBounded(steps: seq<Step>)
    ensures var w := Run(START, steps);
      |w.s.active| <= MAX_ACTIVE && |w.s.seen| <= MAX_SEEN && Apart(w.notes)
  {
    RunKeepsInv(START, steps);
  }

  /** At most four sessions run, as long as none outlives the memory of its id. */
  lemma RunningIsBounded(steps: seq<Step>)
    requires AllTimely(START, steps, MEMORY)
    ensures var w := Run(START, steps); w.s.active == RunningIds(w.running) && |w.running| <= MAX_ACTIVE
  {
    RunKeepsInv(START, steps);
    IdsCount(Run(START, steps).running);
  }

  /** When the first of two sessions of one id ends, the second is running and not active. */
  lemma ReleaseUncovers(w: World, n: nat, m: nat)
    requires n in w.running && m in w.running && n != m && w.running[n].id == w.running[m].id
    ensures var v := Next(w, Release(n)); m in v.running && v.running[m].id !in v.s.active
  {}

  // ---- A lifetime just beyond the memory ----

  lemma {:induction false} TimelyLonger(w: World, steps: seq<Step>, life: nat, longer: nat)
    requires AllTimely(w, steps, life) && life <= longer
    ensures AllTimely(w, steps, longer)
    decreases |steps|
  {
    if steps != [] {
      TimelyLonger(Next(w, steps[0]), steps[1..], life, longer);
    }
  }

  lemma {:induction false} RunJoins(w: World, a: seq<Step>, b: seq<Step>, life: nat)
    ensures Run(w, a + b) == Run(Run(w, a), b)
    ensures AllTimely(w, a, life) && AllTimely(Run(w, a), b, life) ==> AllTimely(w, a + b, life)
    decreases |a|
  {
    if a == [] {
      assert a + b == b;
    } else {
      assert (a + b)[1..] == a[1..] + b;
      RunJoins(Next(w, a[0]), a[1..], b, life);
    }
  }

  /** The world after the id "a" was opened twice and its first session ended. */
  const UNCOUNTED := World(State({}, map["a" := 2 * MEMORY], {}), MEMORY, map[2 := Session("a", MEMORY)],
                           [Note("a", 0, true), Note("a", MEMORY, true)])

  const TWICE := [Open(1, "a", true, false), Pass(MEMORY), Open(2, "a", true, false), Release(1)]

  lemma OpenOnce()
    ensures Next(START, Open(1, "a", true, false))
         == World(State({"a"}, map["a" := MEMORY], {}), 0, map[1 := Session("a", 0)], [Note("a", 0, true)])
  {
    var v := Next(START, Open(1, "a", true, false));
    assert v.running == map[1 := Session("a", 0)];
    assert v.s.seen == map["a" := MEMORY];
    assert v.s.active == {"a"};
  }

  lemma OpenAgain(w: World)
    requires w == World(State({"a"}, map["a" := MEMORY], {}), MEMORY, map[1 := Session("a", 0)], [Note("a", 0, true)])
    ensures Next(w, Open(2, "a", true, false))
         == World(State({"a"}, map["a" := 2 * MEMORY], {}), MEMORY,
                  map[1 := Session("a", 0), 2 := Session("a", MEMORY)], [Note("a", 0, true), Note("a", MEMORY, true)])
  {
    assert Purged(w.s.seen, MEMORY) == map[];
    var v := Next(w, Open(2, "a", true, false));
    assert v.s.seen == map["a" := 2 * MEMORY];
    assert v.s.active == {"a"};
  }

  lemma EndFirst(w: World)
    requires w == World(State({"a"}, map["a" := 2 * MEMORY], {}), MEMORY,
                        map[1 := Session("a", 0), 2 := Session("a", MEMORY)],
                        [Note("a", 0, true), Note("a", MEMORY, true)])
    ensures Next(w, Release(1)) == UNCOUNTED
  {
    var v := Next(w, Release(1));
    assert v.running == map[2 := Session("a", MEMORY)];
    assert v.s.active == {};
  }

  lemma OpenedTwice(life: nat)
    requires life > MEMORY
    ensures Run(START, TWICE) == UNCOUNTED && AllTimely(START, TWICE, life)
  {
    var w1 := Next(START, TWICE[0]);
    OpenOnce();
    var w2 := Next(w1, TWICE[1]);
    OpenAgain(w2);
    var w3 := Next(w2, TWICE[2]);
    EndFirst(w3);
    assert TWICE[1..][1..][1..] == [TWICE[3]] && TWICE[1..][1..] == [TWICE[2], TWICE[3]];
    assert Run(w3, [TWICE[3]]) == UNCOUNTED;
    assert Run(w2, TWICE[1..][1..]) == UNCOUNTED;
    assert AllTimely(w2, TWICE[1..][1..], life);
  }

  /** Opens, one after the other and in no time, of ids that are not remembered. */
  function OpenAll(first: nat, ids: seq<string>): seq<Step>
    decreases |ids|
  {
    if ids == [] then [] else [Open(first, ids[0], true, false)] + OpenAll(first + 1, ids[1..])
  }

  predicate Unknown(w: World, ids: seq<string>) {
    && (forall i :: 0 <= i < |ids| ==> ids[i] !in w.s.seen && ids[i] !in w.s.active)
    && (forall i, j :: 0 <= i < j < |ids| ==> ids[i] != ids[j])
  }

  lemma OneMore(w: World, n: nat, id: string)
    requires id !in w.s.seen && id !in w.s.active && n !in w.running
    requires |w.s.active| < MAX_ACTIVE && |w.s.seen| < MAX_SEEN
    ensures var v := Next(w, Open(n, id, true, false));
      && v.running == w.running[n := Session(id, w.now)] && |v.running| == |w.running| + 1
      && |v.s.active| == |w.s.active| + 1 && v.s.active == w.s.active + {id}
      && |v.s.seen| <= |w.s.seen| + 1 && v.s.seen.Keys <= w.s.seen.Keys + {id}
  {
    var s := Open(n, id, true, false);
    PurgedShrinks(w.s.seen, w.now);
    OpenValue(w, s);
    SeenGrows(w.s.seen, id, w.now);
    RunningGrows(w.running, n, Session(id, w.now));
  }

  lemma SeenGrows(seen: map<string, nat>, id: string, now: nat)
    requires id !in seen
    ensures var t := Purged(seen, now)[id := now + MEMORY]; |t| <= |seen| + 1 && t.Keys <= seen.Keys + {id}
  {
    var p := Purged(seen, now);
    PurgedShrinks(seen, now);
    assert p[id := now + MEMORY].Keys == p.Keys + {id};
  }

  lemma RunningGrows(running: map<nat, Session>, n: nat, x: Session)
    requires n !in running
    ensures |running[n := x]| == |running| + 1
  {
    assert running[n := x].Keys == running.Keys + {n};
  }

  lemma {:induction false} AllAreOpened(w: World, first: nat, ids: seq<string>, life: nat)
    requires Unknown(w, ids) && |w.s.active| + |ids| <= MAX_ACTIVE && |w.s.seen| + |ids| <= MAX_SEEN
    requires forall n :: n in w.running ==> n < first
    ensures |Run(w, OpenAll(first, ids)).running| == |w.running| + |ids|
    ensures AllTimely(w, OpenAll(first, ids), life)
    decreases |ids|
  {
    if ids != [] {
      OneMore(w, first, ids[0]);
      var v := Next(w, Open(first, ids[0], true, false));
      assert OpenAll(first, ids)[1..] == OpenAll(first + 1, ids[1..]);
      AllAreOpened(v, first + 1, ids[1..], life);
    }
  }

  /** Every run whose sessions all end within `life` seconds has at most four at a time. */
  ghost predicate FourSuffice(life: nat) {
    forall steps ::
      AllTimely(START, steps, life) ==> |Run(START, steps).running| <= MAX_ACTIVE
  }

  /** A run from the start with five sessions, none older than the memory of its id. */
  lemma FiveSessions(life: nat) returns (steps: seq<Step>)
    requires life > MEMORY
    ensures AllTimely(START, steps, life) && |Run(START, steps).running| == MAX_ACTIVE + 1
  {
    var ids := ["b", "c", "d", "e"];
    OpenedTwice(life);
    AllAreOpened(UNCOUNTED, 3, ids, life);
    steps := TWICE + OpenAll(3, ids);
    RunJoins(START, TWICE, OpenAll(3, ids), life);
  }

  /** Four is the bound on running sessions exactly for lifetimes that end no
      later than the memory of the id. */
  lemma FourSufficeExactly(life: nat)
    ensures FourSuffice(life) <==> life <= MEMORY
  {
    if life <= MEMORY {
      forall steps | AllTimely(START, steps, life)
        ensures |Run(START, steps).running| <= MAX_ACTIVE
      {
        TimelyLonger(START, steps, life, MEMORY);
        RunningIsBounded(steps);
      }
    } else {
      var steps := FiveSessions(life);
    }
  }

  // ---- What a request and a close are answered ----

  /** The ids remembered at this time. */
  function Unexpired(seen: map<string, nat>, now: nat): set<string> {
    set id | id in seen && seen[id] > now
  }

  lemma UnexpiredCount(seen: map<string, nat>, now: nat)
    ensures Purged(seen, now).Keys == Unexpired(seen, now) && |Purged(seen, now)| == |Unexpired(seen, now)|
  {
    assert Purged(seen, now).Keys == Unexpired(seen, now);
  }

  /** An open is accepted exactly when it is valid and its service available, its id
      is not remembered, fewer than 4 ids are active and fewer than 128 remembered;
      a valid one is ignored exactly when its id is remembered. */
  lemma AnsweredExactly(s: State, id: string, valid: bool, refused: bool, now: nat)
    ensures Decision(s, id, valid, refused, now).Accepted? <==>
      valid && !refused && id !in Unexpired(s.seen, now) && |s.active| < 4 && |Unexpired(s.seen, now)| < 128
    ensures Decision(s, id, valid, refused, now).Ignored? <==> valid && id in Unexpired(s.seen, now)
  {
    UnexpiredCount(s.seen, now);
  }

  lemma RememberedStep(w: World, id: string, until: nat, s: Step)
    requires id in w.s.seen && w.s.seen[id] == until && Next(w, s).now < until
    ensures id in Next(w, s).s.seen && Next(w, s).s.seen[id] == until
  {}

  lemma ClockRises(w: World, s: Step)
    ensures w.now <= Next(w, s).now
  {}

  lemma {:induction false} RunClockRises(w: World, steps: seq<Step>)
    ensures w.now <= Run(w, steps).now
    decreases |steps|
  {
    if steps != [] {
      ClockRises(w, steps[0]);
      RunClockRises(Next(w, steps[0]), steps[1..]);
    }
  }

  lemma {:induction false} RememberedRun(w: World, id: string, until: nat, steps: seq<Step>)
    requires id in w.s.seen && w.s.seen[id] == until && Run(w, steps).now < until
    ensures id in Run(w, steps).s.seen && Run(w, steps).s.seen[id] == until
    decreases |steps|
  {
    if steps != [] {
      RunClockRises(Next(w, steps[0]), steps[1..]);
      RememberedStep(w, id, until, steps[0]);
      RememberedRun(Next(w, steps[0]), id, until, steps[1..]);
    }
  }

  /** After a close of an id that neither runs nor is remembered, with room for it,
      every valid open of that id is ignored for twelve hours, whatever happens. */
  lemma ClosedStaysBlocked(w: World, id: string, steps: seq<Step>, refused: bool)
    requires id !in w.s.sessions && id !in Unexpired(w.s.seen, w.now) && |Unexpired(w.s.seen, w.now)| < 128
    requires Run(Next(w, Close(id, true)), steps).now < w.now + 43200
    ensures var v := Run(Next(w, Close(id, true)), steps); Decision(v.s, id, true, refused, v.now) == Ignored
  {
    UnexpiredCount(w.s.seen, w.now);
    RememberedRun(Next(w, Close(id, true)), id, w.now + 43200, steps);
  }
}
