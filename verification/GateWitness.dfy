/** A plan may still run after a manual action, if that action took so long that
    the plan was issued while it held the gate. */
module GateWitness {
  import opened Common
  import opened NetworkRecovery
  import opened RecoveryRuns
  import opened NetworkGate
  import opened GateOrder
  import R = RestartWitness

  const SET := "apn.enable"

  function Start(): Sys {
    Sys(R.Fresh(), Free, {}, [])
  }

  predicate Reaches(y: Sys, acts: seq<Act>, v: Sys) {
    Interleaving(y, acts) && DoAll(y, acts) == v
  }

  lemma {:induction false} ReachesFurther(y: Sys, acts: seq<Act>, u: Sys, a: Act)
    requires Reaches(y, acts, u) && Enabled(u, a)
    ensures Reaches(y, acts + [a], Do(u, a))
    decreases |acts|
  {
    if acts == [] {
      assert acts + [a] == [a] && [a][1..] == [];
    } else {
      assert (acts + [a])[1..] == acts[1..] + [a];
      ReachesFurther(Do(y, acts[0]), acts[1..], u, a);
    }
  }

  lemma Extend(y: Sys, acts0: seq<Act>, u: Sys, a: Act) returns (acts: seq<Act>)
    requires Reaches(y, acts0, u) && Enabled(u, a)
    ensures Reaches(y, acts, Do(u, a))
  {
    ReachesFurther(y, acts0, u, a);
    acts := acts0 + [a];
  }

  /** Nothing stands in the way of a redial but the number of failures. */
  predicate Calm(w: World) {
    && Ready(w) && Synced(w) && w.node.mem.storageOk && !ClockBehind(StoredOf(w), w.wall)
    && StoredOf(w).config == R.ENABLED && !StoredOf(w).paused && StoredOf(w).redials == 0
    && w.node.mem.startupUntil <= w.wall && StoredOf(w).nextAllowed <= w.wall && StoredOf(w).actionTimes == []
  }

  lemma FailureCounts(w: World)
    requires Calm(w) && w.node.mem.failures < 2
    ensures var v := Next(w, R.OFFLINE);
      && PlanOf(w, R.OFFLINE).None? && Calm(v) && v == w.(node := v.node)
      && v.node.mem.failures == w.node.mem.failures + 1 && v.node.mem.generation == w.node.mem.generation
  {}

  lemma ThirdFailurePlans(w: World)
    requires Calm(w) && w.node.mem.failures == 2
    ensures var v, plan := Next(w, R.OFFLINE), PlanOf(w, R.OFFLINE);
      plan == Some(Plan(w.node.mem.generation, false)) && Allows(v.node.mem, plan.value) && v.elapsed == w.elapsed
  {}

  /** A manual action has announced itself at time 0 and is still at work at 120. */
  function Announced(): World {
    Next(Next(Next(R.Fresh(), SetConfig(R.ENABLED, true)), Intent(SET, true)), Pass(120, R.START + 120))
  }

  lemma AnnouncedIsCalm()
    ensures Calm(Announced()) && Announced().node.mem.failures == 0 && Announced().elapsed == 120
    ensures IntentOk(Next(R.Fresh(), SetConfig(R.ENABLED, true)).node, SET, true)
  {
    R.EnabledIsValid();
    DefaultIsValid();
    assert Ready(R.Fresh());
  }

  function AtWork(): Sys {
    Sys(Announced(), Manual(SET, true, 0, 0), {}, [IntentRecorded(SET, true)])
  }

  lemma AnnounceIt() returns (acts: seq<Act>)
    ensures Reaches(Start(), acts, AtWork())
  {
    AnnouncedIsCalm();
    var w1 := Next(R.Fresh(), SetConfig(R.ENABLED, true));
    var w2 := Next(w1, Intent(SET, true));
    acts := Extend(Start(), [], Start(), Recovery(SetConfig(R.ENABLED, true)));
    acts := Extend(Start(), acts, Sys(w1, Free, {}, []), TakeManual(SET));
    acts := Extend(Start(), acts, Sys(w1, Manual(SET, false, 0, 0), {}, []), Record(true));
    EnabledKeepsTime();
    acts := Extend(Start(), acts, Sys(w2, Manual(SET, true, 0, 0), {}, [IntentRecorded(SET, true)]),
                   Recovery(Pass(120, R.START + 120)));
  }

  lemma EnabledKeepsTime()
    ensures var w := Next(R.Fresh(), SetConfig(R.ENABLED, true)); w.elapsed == 0 && w.wall == R.START
    ensures Next(Next(R.Fresh(), SetConfig(R.ENABLED, true)), Intent(SET, true)).wall == R.START
  {}

  /** Three offline verdicts put a plan in flight. */
  lemma PlanIt(y: Sys, acts0: seq<Act>, u: Sys) returns (acts: seq<Act>, v: Sys)
    requires Reaches(y, acts0, u) && Calm(u.w) && u.w.node.mem.failures == 0
    ensures Reaches(y, acts, v)
    ensures var plan := Plan(u.w.node.mem.generation, false);
      && v == u.(w := v.w, flights := u.flights + {Flight(plan, |u.log|)},
                 log := u.log + [PlanIssued(plan, u.w.elapsed, Working(u.gate))])
      && Allows(v.w.node.mem, plan) && v.w.elapsed == u.w.elapsed
  {
    var a := Recovery(R.OFFLINE);
    FailureCounts(u.w);
    acts := Extend(y, acts0, u, a);
    var u1 := u.(w := Next(u.w, R.OFFLINE));
    FailureCounts(u1.w);
    acts := Extend(y, acts, u1, a);
    var u2 := u.(w := Next(u1.w, R.OFFLINE));
    ThirdFailurePlans(u2.w);
    acts := Extend(y, acts, u2, a);
    v := Do(u2, a);
  }

  lemma RunBoth(y: Sys, acts0: seq<Act>, u: Sys, f: Flight) returns (acts: seq<Act>, v: Sys)
    requires Reaches(y, acts0, u)
    requires u.gate == Manual(SET, true, 0, 0) && f in u.flights && Allows(u.w.node.mem, f.plan)
    ensures Reaches(y, acts, v)
    ensures v.log == u.log + [ManualRan(SET, 0, u.w.elapsed)] + [AutomaticRan(f)]
  {
    acts := Extend(y, acts0, u, RunManual);
    v := Do(u, RunManual);
    acts := Extend(y, acts, v, TakeAutomatic(f));
    v := v.(gate := Automatic(f, false));
    acts := Extend(y, acts, v, Check);
    v := v.(gate := Automatic(f, true));
    acts := Extend(y, acts, v, RunAutomatic);
    v := Do(v, RunAutomatic);
  }

  /** An automatic action runs directly after a manual one, although its plan is
      older than the end of that run: the manual action took 120 seconds, the plan
      was issued meanwhile, and nothing cancels a plan when an action ends. */
  lemma SlowManualActionDoesNotCancel() returns (acts: seq<Act>)
    ensures InitialSys(Start()) && Interleaving(Start(), acts)
    ensures var log := DoAll(Start(), acts).log;
      && |log| == 4 && log[0].IntentRecorded? && log[1].PlanIssued? && log[1].at == 120 && log[1].held
      && log[2] == ManualRan(SET, 0, 120) && log[3].AutomaticRan? && log[3].flight.issued == 1
  {
    acts := AnnounceIt();
    AnnouncedIsCalm();
    var v;
    acts, v := PlanIt(Start(), acts, AtWork());
    acts, v := RunBoth(Start(), acts, v, Flight(Plan(AtWork().w.node.mem.generation, false), 1));
  }

  /** Position `i` of the log of this interleaving is an execution. */
  predicate Executes(y: Sys, acts: seq<Act>, i: nat) {
    InitialSys(y) && Interleaving(y, acts) && i < |DoAll(y, acts).log| && DoAll(y, acts).log[i].AutomaticRan?
  }

  /** Manual actions shorter than `limit` seconds are never overtaken. */
  ghost predicate BriefSuffices(limit: nat) {
    forall y: Sys, acts: seq<Act>, i: nat | Executes(y, acts, i) && Brief(DoAll(y, acts).log, limit) ::
      !Overtaken(DoAll(y, acts).log, i)
  }

  lemma BriefWeakens(log: seq<Event>, limit: nat)
    requires Brief(log, limit) && limit <= 120
    ensures Brief(log, 120)
  {}

  lemma WitnessLog(log: seq<Event>, limit: nat)
    requires |log| == 4 && log[0].IntentRecorded? && log[1].PlanIssued? && limit > 120
    requires log[2] == ManualRan(SET, 0, 120) && log[3].AutomaticRan? && log[3].flight.issued == 1
    ensures Overtaken(log, 3) && Brief(log, limit)
  {
    assert log[2].ManualRan?;
  }

  /** 120 seconds is exactly what an action may take without an older plan
      running after it. */
  lemma BriefSufficesExactly(limit: nat)
    ensures BriefSuffices(limit) <==> limit <= 120
  {
    if limit <= 120 {
      forall y: Sys, acts: seq<Act>, i: nat | Executes(y, acts, i) && Brief(DoAll(y, acts).log, limit)
        ensures !Overtaken(DoAll(y, acts).log, i)
      {
        BriefWeakens(DoAll(y, acts).log, limit);
        BriefActionsCancel(y, acts, i);
      }
    } else {
      var acts := SlowManualActionDoesNotCancel();
      WitnessLog(DoAll(Start(), acts).log, limit);
      assert Executes(Start(), acts, 3);
    }
  }
}
