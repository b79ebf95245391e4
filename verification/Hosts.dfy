/** Compare-and-swap on the hosts file (rust/src/hosts.rs).

    Any number of writers and an external editor interleave. A writer reads the
    file and compares its revision, takes the lock, secures the one-time backup,
    prepares its replacement, checks the file again and renames. Each of these
    is one step; everybody else may move in between. */
module Hosts {
  import opened Common

  type Bytes = seq<Byte>

  /** The SHA-256 of a content, taken to determine the content. */
  datatype Revision = Revision(content: Bytes)

  datatype Attrs = Attrs(mode: nat, uid: nat, gid: nat)

  datatype File = File(bytes: Bytes, dev: nat, ino: nat, attrs: Attrs)

  datatype Backup = Backup(bytes: Bytes, attrs: Attrs)

  datatype Request = Save(content: Bytes, expected: Revision) | Restore(expected: Revision)

  /** Where a writer stands; `current` is the file as it first read it. */
  datatype Stage =
    | Checked(current: File)
    | Locked(current: File)
    | Publishing(current: File)
    | Prepared(current: File, next: Backup)
    | Rechecked(current: File, next: Backup, edits: seq<Option<File>>)
    | Renamed

  datatype Writer = Writer(request: Request, stage: Stage)

  /** A replacement of the hosts file: the file as first read, and the edits made
      between the second check and the rename. */
  datatype Replacement = Replacement(before: Option<File>, after: File, request: Request, read: File,
                                     edits: seq<Option<File>>)

  datatype World = World(
    target: Option<File>,
    backup: Option<Backup>,
    lock: Option<nat>,
    writers: map<nat, Writer>,
    log: seq<Replacement>)

  datatype Step =
    | Edit(target: Option<File>)             // the external editor
    | Arrive(id: nat, request: Request)
    | TakeLock(id: nat)
    | Secure(id: nat, valid: bool)           // ensure_backup up to the link, or reading the backup;
                                             // `valid`: an existing backup passes its checks
    | Settle(id: nat, synced: bool)          // the directory sync after the link
    | Recheck(id: nat)
    | Rename(id: nat, dev: nat, ino: nat)
    | Leave(id: nat)                         // an error, a crash, or the end

  predicate Enabled(w: World, s: Step) {
    match s
    case Edit(_) => true
    case Arrive(id, _) => id !in w.writers
    case TakeLock(id) => id in w.writers && w.writers[id].stage.Checked?
    case Secure(id, _) => id in w.writers && w.writers[id].stage.Locked?
    case Settle(id, _) => id in w.writers && w.writers[id].stage.Publishing?
    case Recheck(id) => id in w.writers && w.writers[id].stage.Prepared?
    case Rename(id, _, _) => id in w.writers && w.writers[id].stage.Rechecked?
    case Leave(id) => id in w.writers
  }

  function Gone(w: World, id: nat): World {
    w.(writers := w.writers - {id}, lock := if w.lock == Some(id) then None else w.lock)
  }

  function Moved(w: World, id: nat, stage: Stage): World
    requires id in w.writers
  {
    w.(writers := w.writers[id := w.writers[id].(stage := stage)])
  }

  function BackupOf(f: File): Backup {
    Backup(f.bytes, f.attrs)
  }

  /** What a writer will put in place once its backup is secured. */
  function Desired(w: World, id: nat, current: File): Backup
    requires id in w.writers && w.backup.Some?
  {
    match w.writers[id].request
    case Save(content, _) => Backup(content, current.attrs)
    case Restore(_) => w.backup.value
  }

  predicate Unchanged(latest: File, current: File, expected: Revision) {
    && Revision(latest.bytes) == expected
    && latest.ino == current.ino && latest.dev == current.dev && latest.attrs == current.attrs
  }

  /** An edit falls into the window between a second check and its rename. */
  function Spoiled(w: Writer, target: Option<File>): Writer {
    if w.stage.Rechecked? then w.(stage := w.stage.(edits := w.stage.edits + [target])) else w
  }

  function Next(w: World, s: Step): World
    requires Enabled(w, s)
  {
    match s
    case Edit(target) => w.(target := target, writers := map id | id in w.writers :: Spoiled(w.writers[id], target))
    case Arrive(id, request) =>
      if w.target.Some? && Revision(w.target.value.bytes) == request.expected
      then w.(writers := w.writers[id := Writer(request, Checked(w.target.value))]) else w
    case TakeLock(id) =>
      if w.lock.Some? then Gone(w, id)
      else Moved(w, id, Locked(w.writers[id].stage.current)).(lock := Some(id))
    case Secure(id, valid) =>
      var current := w.writers[id].stage.current;
      if w.backup.Some? && !valid then Gone(w, id)
      else if w.backup.Some? then Moved(w, id, Prepared(current, Desired(w, id, current)))
      else if w.writers[id].request.Restore? then Gone(w, id)
      else Moved(w, id, Publishing(current)).(backup := Some(BackupOf(current)))
    case Settle(id, synced) =>
      var current := w.writers[id].stage.current;
      if !synced then Gone(w, id).(backup := None)
      else if w.backup.None? then Gone(w, id)
      else Moved(w, id, Prepared(current, Desired(w, id, current)))
    case Recheck(id) =>
      var st := w.writers[id].stage;
      if w.target.Some? && Unchanged(w.target.value, st.current, w.writers[id].request.expected)
      then Moved(w, id, Rechecked(st.current, st.next, [])) else Gone(w, id)
    case Rename(id, dev, ino) =>
      var st := w.writers[id].stage;
      var after := File(st.next.bytes, dev, ino, st.next.attrs);
      Moved(w, id, Renamed).(target := Some(after),
        log := w.log + [Replacement(w.target, after, w.writers[id].request, st.current, st.edits)])
    case Leave(id) => Gone(w, id)
  }

  predicate Inside(st: Stage) {
    !st.Checked?
  }

  /** What holds in every reachable world. */
  predicate Inv(w: World) {
    // only the lock holder is past the lock
    && (forall id :: id in w.writers && Inside(w.writers[id].stage) ==> w.lock == Some(id))
    && (forall id :: id in w.writers ==> StageInv(w, w.writers[id]))
    && (forall i :: 0 <= i < |w.log| ==> (NoLostUpdate(w.log[i]) <==> Harmless(w.log[i])))
  }

  predicate StageInv(w: World, x: Writer) {
    match x.stage
    case Checked(current) => Revision(current.bytes) == x.request.expected
    case Locked(current) => Revision(current.bytes) == x.request.expected
    case Publishing(current) =>
      Revision(current.bytes) == x.request.expected && w.backup == Some(BackupOf(current)) && x.request.Save?
    case Prepared(current, next) => PreparedInv(w, x.request, current, next)
    case Rechecked(current, next, edits) =>
      && PreparedInv(w, x.request, current, next)
      && (edits == [] ==> w.target.Some? && Unchanged(w.target.value, current, x.request.expected))
      && (edits != [] ==> w.target == edits[|edits| - 1])
    case Renamed => true
  }

  predicate PreparedInv(w: World, request: Request, current: File, next: Backup) {
    && w.backup.Some?
    && Revision(current.bytes) == request.expected
    && (request.Save? ==> next == Backup(request.content, current.attrs))
    && (request.Restore? ==> next == w.backup.value)
  }

  /** The content overwritten is exactly the one the client named, and a save
      keeps the file's owner and mode. */
  predicate NoLostUpdate(r: Replacement) {
    && r.before.Some? && Revision(r.before.value.bytes) == r.request.expected
    && (r.request.Save? ==> r.after.bytes == r.request.content && r.after.attrs == r.before.value.attrs)
  }

  /** The window saw no edit, or its last edit left the named revision and, for a
      save, the attributes first read. */
  predicate Harmless(r: Replacement) {
    r.edits == [] ||
    var last := r.edits[|r.edits| - 1];
    && last.Some? && Revision(last.value.bytes) == r.request.expected
    && (r.request.Save? ==> last.value.attrs == r.read.attrs)
  }

  /** A backup that is nobody's to take back. */
  predicate Settled(w: World) {
    w.backup.Some? && forall id :: id in w.writers ==> !w.writers[id].stage.Publishing?
  }

  lemma EditKeepsInv(w: World, target: Option<File>)
    requires Inv(w)
    ensures Inv(Next(w, Edit(target)))
  {
    var v := Next(w, Edit(target));
    forall id | id in v.writers
      ensures StageInv(v, v.writers[id])
    {
      assert StageInv(w, w.writers[id]);
    }
  }

  /** A step of the lock holder that changes only its own stage. */
  lemma MoveKeepsInv(w: World, id: nat, v: World)
    requires Inv(w) && id in w.writers && w.lock == Some(id)
    requires v.writers.Keys == w.writers.Keys && v.lock == w.lock
    requires forall k :: k in w.writers && k != id ==> v.writers[k] == w.writers[k]
    requires StageInv(v, v.writers[id])
    requires v.log == w.log
    ensures Inv(v)
  {
    forall k | k in v.writers
      ensures StageInv(v, v.writers[k])
    {
      if k != id {
        assert StageInv(w, w.writers[k]) && w.writers[k].stage.Checked?;
      }
    }
  }

  lemma GoneKeepsInv(w: World, id: nat, backup: Option<Backup>)
    requires Inv(w) && id in w.writers
    requires backup == w.backup || w.lock == Some(id)
    ensures Inv(Gone(w, id).(backup := backup))
  {
    var v := Gone(w, id).(backup := backup);
    forall k | k in v.writers
      ensures StageInv(v, v.writers[k])
    {
      assert StageInv(w, w.writers[k]);
    }
  }

  lemma RenameKeepsInv(w: World, id: nat, dev: nat, ino: nat)
    requires Inv(w) && Enabled(w, Rename(id, dev, ino))
    ensures Inv(Next(w, Rename(id, dev, ino)))
  {
    var v := Next(w, Rename(id, dev, ino));
    assert StageInv(w, w.writers[id]);
    forall k | k in v.writers
      ensures StageInv(v, v.writers[k])
    {
      if k != id {
        assert StageInv(w, w.writers[k]) && w.writers[k].stage.Checked?;
      }
    }
  }

  lemma StepKeepsInv(w: World, s: Step)
    requires Inv(w) && Enabled(w, s)
    ensures Inv(Next(w, s))
  {
    match s
    case Edit(target) => EditKeepsInv(w, target);
    case Arrive(id, request) => ArriveKeepsInv(w, id, request);
    case TakeLock(id) => TakeLockKeepsInv(w, id);
    case Rename(id, dev, ino) => RenameKeepsInv(w, id, dev, ino);
    case Leave(id) => GoneKeepsInv(w, id, w.backup);
    case _ => LockedStepKeepsInv(w, s);
  }

  lemma ArriveKeepsInv(w: World, id: nat, request: Request)
    requires Inv(w) && Enabled(w, Arrive(id, request))
    ensures Inv(Next(w, Arrive(id, request)))
  {
    var v := Next(w, Arrive(id, request));
    forall k | k in v.writers
      ensures StageInv(v, v.writers[k])
    {
      if k != id {
        assert StageInv(w, w.writers[k]);
      }
    }
  }

  lemma TakeLockKeepsInv(w: World, id: nat)
    requires Inv(w) && Enabled(w, TakeLock(id))
    ensures Inv(Next(w, TakeLock(id)))
  {
    var v := Next(w, TakeLock(id));
    if w.lock.Some? {
      GoneKeepsInv(w, id, w.backup);
    } else {
      forall k | k in v.writers
        ensures StageInv(v, v.writers[k])
      {
        assert StageInv(w, w.writers[k]);
      }
    }
  }

  lemma LockedStepKeepsInv(w: World, s: Step)
    requires Inv(w) && Enabled(w, s) && (s.Secure? || s.Settle? || s.Recheck?)
    ensures Inv(Next(w, s))
  {
    assert StageInv(w, w.writers[s.id]);
    assert w.lock == Some(s.id);
    var v := Next(w, s);
    if s.id in v.writers {
      MoveKeepsInv(w, s.id, v);
    } else if s.Settle? && !s.synced {
      GoneKeepsInv(w, s.id, None);
    } else {
      GoneKeepsInv(w, s.id, w.backup);
    }
  }

  /** Once a backup is settled no step changes it, and it stays settled. */
  lemma SettledStays(w: World, s: Step)
    requires Inv(w) && Enabled(w, s) && Settled(w)
    ensures Next(w, s).backup == w.backup && Settled(Next(w, s))
  {}

  /** A writer that got past `ensure_backup`, or read the backup, leaves it settled. */
  lemma PreparedMeansSettled(w: World, id: nat)
    requires Inv(w) && id in w.writers && w.writers[id].stage.Prepared?
    ensures Settled(w)
  {
    assert StageInv(w, w.writers[id]);
  }

  /** Every restore puts the backup in place. */
  lemma RestoreWritesBackup(w: World, id: nat, dev: nat, ino: nat)
    requires Inv(w) && Enabled(w, Rename(id, dev, ino)) && w.writers[id].request.Restore?
    ensures var after := Next(w, Rename(id, dev, ino)).target.value;
      w.backup == Some(BackupOf(after)) && Settled(w)
  {
    assert StageInv(w, w.writers[id]);
  }

  /** Every restore so far wrote the backup that stands now. */
  predicate RestoresAgree(w: World) {
    forall i :: 0 <= i < |w.log| && w.log[i].request.Restore? ==>
      w.backup == Some(BackupOf(w.log[i].after)) && Settled(w)
  }

  lemma RestoresStayAgreed(w: World, s: Step)
    requires Inv(w) && Enabled(w, s) && RestoresAgree(w)
    ensures RestoresAgree(Next(w, s))
  {
    var v := Next(w, s);
    if s.Rename? && w.writers[s.id].request.Restore? {
      RestoreWritesBackup(w, s.id, s.dev, s.ino);
    }
    forall i | 0 <= i < |v.log| && v.log[i].request.Restore?
      ensures v.backup == Some(BackupOf(v.log[i].after)) && Settled(v)
    {
      assert i < |w.log| ==> v.log[i] == w.log[i];
      SettledStays(w, s);
    }
  }

  /** A replacement loses nothing exactly when the file it finds still has the
      named revision and, for a save, the attributes first read. */
  lemma RenameLosesNothingExactly(w: World, id: nat, dev: nat, ino: nat)
    requires Inv(w) && Enabled(w, Rename(id, dev, ino))
    ensures var r := Next(w, Rename(id, dev, ino)).log[|w.log|];
      NoLostUpdate(r) <==>
        && w.target.Some? && Revision(w.target.value.bytes) == w.writers[id].request.expected
        && (w.writers[id].request.Save? ==> w.target.value.attrs == w.writers[id].stage.current.attrs)
  {
    assert StageInv(w, w.writers[id]);
  }

  /** So an edit after the second check is overwritten unless it changed neither. */
  lemma LateEditIsLost(w: World, id: nat, f: File, dev: nat, ino: nat)
    requires Inv(w) && id in w.writers && w.writers[id].stage.Rechecked?
    ensures var v := Next(Next(w, Edit(Some(f))), Rename(id, dev, ino)); var x := w.writers[id];
      && |v.log| == |w.log| + 1 && v.log[|w.log|].edits != [] && v.log[|w.log|].before == Some(f)
      && (NoLostUpdate(v.log[|w.log|]) <==>
            Revision(f.bytes) == x.request.expected && (x.request.Save? ==> f.attrs == x.stage.current.attrs))
  {
    EditKeepsInv(w, Some(f));
    RenameLosesNothingExactly(Next(w, Edit(Some(f))), id, dev, ino);
  }

  /** The files and the lock, changed in place by one writer's steps. */
  class Store {
    var target: Option<File>
    var backup: Option<Backup>
    var lock: Option<nat>
    var writers: map<nat, Writer>
    var log: seq<Replacement>

    ghost function Value(): World
      reads this
    {
      World(target, backup, lock, writers, log)
    }

    constructor (target: Option<File>)
      ensures Value() == World(target, None, None, map[], [])
    {
      this.target, backup, lock, writers, log := target, None, None, map[], [];
    }

    method Drop(id: nat)
      requires id in writers
      modifies this
      ensures Value() == Gone(old(Value()), id)
    {
      writers := writers - {id};
      if lock == Some(id) {
        lock := None;
      }
    }

    method ReadAndCompare(id: nat, request: Request) returns (ok: bool)
      requires id !in writers
      modifies this
      ensures Value() == Next(old(Value()), Arrive(id, request))
      ensures ok <==> id in writers
    {
      if target.None? || Revision(target.value.bytes) != request.expected {
        return false;
      }
      writers := writers[id := Writer(request, Checked(target.value))];
      return true;
    }

    method TryLock(id: nat) returns (ok: bool)
      requires id in writers && writers[id].stage.Checked?
      modifies this
      ensures Value() == Next(old(Value()), TakeLock(id))
      ensures ok == old(lock.None?)
    {
      if lock.Some? {
        Drop(id);
        return false;
      }
      lock := Some(id);
      writers := writers[id := writers[id].(stage := Locked(writers[id].stage.current))];
      return true;
    }

    /** `ensure_backup` with the outcome of its directory sync, or reading the
        backup for a restore; `valid` is the verdict on an existing backup. */
    method SecureBackup(id: nat, valid: bool, synced: bool) returns (ok: bool)
      requires id in writers && writers[id].stage.Locked?
      modifies this
      ensures var v := Next(old(Value()), Secure(id, valid));
        Value() == if Enabled(v, Settle(id, synced)) then Next(v, Settle(id, synced)) else v
      ensures ok <==> id in writers
    {
      var current := writers[id].stage.current;
      var save := writers[id].request.Save?;
      if (backup.Some? && !valid) || (backup.None? && !save) {
        Drop(id);
        return false;
      }
      if backup.None? {
        backup := Some(Backup(current.bytes, current.attrs));
        if !synced {
          backup := None;
          Drop(id);
          return false;
        }
      }
      var next := if save then Backup(writers[id].request.content, current.attrs) else backup.value;
      writers := writers[id := writers[id].(stage := Prepared(current, next))];
      return true;
    }

    method CheckAgain(id: nat) returns (ok: bool)
      requires id in writers && writers[id].stage.Prepared?
      modifies this
      ensures Value() == Next(old(Value()), Recheck(id))
      ensures ok <==> id in writers
    {
      var st := writers[id].stage;
      if target.None? || Revision(target.value.bytes) != writers[id].request.expected
         || target.value.ino != st.current.ino || target.value.dev != st.current.dev
         || target.value.attrs != st.current.attrs {
        Drop(id);
        return false;
      }
      writers := writers[id := writers[id].(stage := Rechecked(st.current, st.next, []))];
      return true;
    }

    method Replace(id: nat, dev: nat, ino: nat)
      requires id in writers && writers[id].stage.Rechecked?
      modifies this
      ensures Value() == Next(old(Value()), Rename(id, dev, ino))
    {
      var st := writers[id].stage;
      var after := File(st.next.bytes, dev, ino, st.next.attrs);
      log := log + [Replacement(target, after, writers[id].request, st.current, st.edits)];
      target := Some(after);
      writers := writers[id := writers[id].(stage := Renamed)];
    }
  }

  lemma AddedAndDropped(writers: map<nat, Writer>, id: nat, x: Writer)
    requires id !in writers
    ensures writers[id := x] - {id} == writers
  {}

  /** When the backup can be relied on. */
  predicate BackupReady(backup: Option<Backup>, request: Request, valid: bool, synced: bool) {
    if backup.Some? then valid else request.Save? && synced
  }

  /** The first half of `action`, up to the secured backup, when nobody else moves. */
  method Prepare(s: Store, id: nat, request: Request, valid: bool, synced: bool) returns (ok: bool)
    requires id !in s.writers && s.lock != Some(id)
    modifies s
    ensures ok <==>
      && old(s.target).Some? && Revision(old(s.target).value.bytes) == request.expected && old(s.lock).None?
      && BackupReady(old(s.backup), request, valid, synced)
    ensures s.target == old(s.target) && s.log == old(s.log)
    ensures s.backup == if ok && old(s.backup).None? then Some(BackupOf(old(s.target).value)) else old(s.backup)
    ensures !ok ==> s.lock == old(s.lock) && s.writers == old(s.writers)
    ensures ok ==> s.lock == Some(id) && s.backup.Some? && s.writers == old(s.writers)[id := Writer(request,
      Prepared(s.target.value, if request.Save? then Backup(request.content, s.target.value.attrs) else s.backup.value))]
  {
    ok := s.ReadAndCompare(id, request);
    if !ok {
      return;
    }
    AddedAndDropped(old(s.writers), id, s.writers[id]);
    ok := s.TryLock(id);
    if !ok {
      return;
    }
    AddedAndDropped(old(s.writers), id, s.writers[id]);
    ok := s.SecureBackup(id, valid, synced);
  }

  /** What one `action` leaves when nobody else moves: it succeeds exactly when
      the revision is current, the lock is free, and the backup is there and
      valid or, for a save, can be made; then the file holds what was asked for,
      and otherwise it is untouched. */
  method Act(s: Store, id: nat, request: Request, valid: bool, synced: bool, dev: nat, ino: nat) returns (ok: bool)
    requires id !in s.writers && s.lock != Some(id)
    modifies s
    ensures ok <==>
      && old(s.target).Some? && Revision(old(s.target).value.bytes) == request.expected && old(s.lock).None?
      && BackupReady(old(s.backup), request, valid, synced)
    ensures s.backup == if ok && old(s.backup).None? then Some(BackupOf(old(s.target).value)) else old(s.backup)
    ensures ok ==>
      && s.target.Some? && s.target.value.dev == dev && s.target.value.ino == ino
      && BackupOf(s.target.value) == (if request.Save? then Backup(request.content, old(s.target).value.attrs)
                                      else s.backup.value)
      && s.log == old(s.log) + [Replacement(old(s.target), s.target.value, request, old(s.target).value, [])]
    ensures !ok ==> s.target == old(s.target) && s.log == old(s.log)
    ensures s.lock == old(s.lock) && s.writers == old(s.writers)
  {
    ok := Prepare(s, id, request, valid, synced);
    if ok {
      var _ := s.CheckAgain(id);
      s.Replace(id, dev, ino);
      AddedAndDropped(old(s.writers), id, s.writers[id]);
      s.Drop(id);
    }
  }

  // ---- Interleavings ----

  predicate Legal(w: World, steps: seq<Step>)
    decreases |steps|
  {
    steps == [] || (Enabled(w, steps[0]) && Legal(Next(w, steps[0]), steps[1..]))
  }

  function Run(w: World, steps: seq<Step>): World
    requires Legal(w, steps)
    decreases |steps|
  {
    if steps == [] then w else Run(Next(w, steps[0]), steps[1..])
  }

  lemma {:induction false} RunKeepsInv(w: World, steps: seq<Step>)
    requires Inv(w) && Legal(w, steps)
    ensures Inv(Run(w, steps))
    decreases |steps|
  {
    if steps != [] {
      StepKeepsInv(w, steps[0]);
      RunKeepsInv(Next(w, steps[0]), steps[1..]);
    }
  }

  /** In every run a replacement overwrote exactly the content the client named,
      with a save keeping owner and mode, exactly when its window saw no edit or
      the last one left that revision and, for a save, the attributes first read. */
  lemma ReplacementsLoseNothingExactly(target: Option<File>, steps: seq<Step>, i: nat)
    requires Legal(World(target, None, None, map[], []), steps)
    requires i < |Run(World(target, None, None, map[], []), steps).log|
    ensures var r := Run(World(target, None, None, map[], []), steps).log[i]; NoLostUpdate(r) <==> Harmless(r)
  {
    RunKeepsInv(World(target, None, None, map[], []), steps);
  }

  /** In particular every replacement without such an edit overwrote exactly the
      content the client had named. */
  lemma CleanReplacementsLoseNothing(target: Option<File>, steps: seq<Step>, i: nat)
    requires Legal(World(target, None, None, map[], []), steps)
    requires var log := Run(World(target, None, None, map[], []), steps).log; i < |log| && log[i].edits == []
    ensures NoLostUpdate(Run(World(target, None, None, map[], []), steps).log[i])
  {
    RunKeepsInv(World(target, None, None, map[], []), steps);
  }

  lemma {:induction false} RunKeepsRestores(w: World, steps: seq<Step>)
    requires Inv(w) && RestoresAgree(w) && Legal(w, steps)
    ensures RestoresAgree(Run(w, steps))
    decreases |steps|
  {
    if steps != [] {
      StepKeepsInv(w, steps[0]);
      RestoresStayAgreed(w, steps[0]);
      RunKeepsRestores(Next(w, steps[0]), steps[1..]);
    }
  }

  /** In every run, all restores ever made wrote one and the same content: the
      backup that is still there. */
  lemma RestoresWriteTheBackup(target: Option<File>, steps: seq<Step>, i: nat)
    requires Legal(World(target, None, None, map[], []), steps)
    requires var log := Run(World(target, None, None, map[], []), steps).log; i < |log| && log[i].request.Restore?
    ensures var w := Run(World(target, None, None, map[], []), steps);
      w.backup == Some(BackupOf(w.log[i].after)) && Settled(w)
  {
    RunKeepsRestores(World(target, None, None, map[], []), steps);
  }

  /** From the moment a backup is settled, it is the backup for ever. */
  lemma {:induction false} BackupIsWrittenOnce(w: World, steps: seq<Step>)
    requires Inv(w) && Settled(w) && Legal(w, steps)
    ensures Run(w, steps).backup == w.backup && Settled(Run(w, steps))
    decreases |steps|
  {
    if steps != [] {
      SettledStays(w, steps[0]);
      StepKeepsInv(w, steps[0]);
      BackupIsWrittenOnce(Next(w, steps[0]), steps[1..]);
    }
  }
}
