/** The gate that serialises manual network actions with automatic recovery
    (`execute` and `execute_recovery` in rust/src/control.rs).

    A manual action takes the gate, records its intent and then runs. An
    automatic action takes the gate, checks that its plan is still allowed and
    then runs. Everything else about recovery may happen between those steps. */
module NetworkGate {
  import opened Common
  import opened NetworkRecovery
  import opened RecoveryRuns

  predicate StartsWith(s: string, prefix: string) {
    prefix <= s
  }

  predicate NetworkAction(action: string) {
    || action in {"cellular.connect", "cellular.disconnect", "cellular.set", "network.set_mode", "sim.set_slot",
                  "device.reboot", "device.poweroff"}
    || StartsWith(action, "band.") || StartsWith(action, "cell.")
    || action in {"apn.set_mode", "apn.add", "apn.modify", "apn.delete", "apn.enable"}
  }

  /** Which actions take the gate. */
  lemma NetworkActionsExactly(action: string)
    ensures NetworkAction(action) <==>
      || "band." <= action || "cell." <= action
      || action in {"cellular.connect", "cellular.disconnect", "cellular.set", "network.set_mode", "sim.set_slot",
                    "device.reboot", "device.poweroff",
                    "apn.set_mode", "apn.add", "apn.modify", "apn.delete", "apn.enable"}
  {}

  /** A plan on its way to execution, and where the log recorded its issue. */
  datatype Flight = Flight(plan: Plan, issued: nat)

  datatype Gate =
    | Free
    | Manual(action: string, recorded: bool, at: nat, intent: nat)
    | Automatic(flight: Flight, checked: bool)

  /** What is observed of a run: plans as they are issued, and whether a recorded
      manual action held the gate at that moment; recorded intents; manual
      actions as they end, or are given up after their intent was recorded. */
  datatype Event =
    | PlanIssued(plan: Plan, at: nat, held: bool)
    | IntentRecorded(action: string, ok: bool)
    | ManualRan(action: string, intentAt: nat, at: nat)
    | Abandoned(action: string)
    | AutomaticRan(flight: Flight)
    | PauseLifted

  datatype Sys = Sys(w: World, gate: Gate, flights: set<Flight>, log: seq<Event>)

  datatype Act =
    | Recovery(step: Step)
    | TakeManual(action: string)
    | Record(saved: bool)
    | RunManual
    | TakeAutomatic(flight: Flight)
    | Check
    | RunAutomatic
    | Release

  /** A manual action whose intent is recorded is at work. */
  predicate Working(gate: Gate) {
    gate.Manual? && gate.recorded
  }

  predicate Enabled(y: Sys, a: Act) {
    match a
    case Recovery(step) => Allowed(y.w, step) && !step.Intent?
    case TakeManual(action) => y.gate.Free? && NetworkAction(action)
    case Record(_) => y.gate.Manual? && !y.gate.recorded
    case RunManual => Working(y.gate)
    case TakeAutomatic(flight) => y.gate.Free? && flight in y.flights
    case Check => y.gate.Automatic? && !y.gate.checked
    case RunAutomatic => y.gate.Automatic? && y.gate.checked
    case Release => !y.gate.Free?
  }

  /** The plan, if any, that a recovery step issues. */
  function PlanOf(w: World, step: Step): Option<Plan> {
    if Ready(w) && step.Observe?
    then Observed(w.node, step.online, w.changing, w.clockGen, w.wall, step.savedProbe, step.saved).1 else None
  }

  function AfterRecovery(y: Sys, step: Step): Sys {
    var w := Next(y.w, step);
    var plan := PlanOf(y.w, step);
    if step.Restart? then Sys(w, Free, {}, y.log)
    else if plan.Some? then
      y.(w := w, flights := y.flights + {Flight(plan.value, |y.log|)},
         log := y.log + [PlanIssued(plan.value, y.w.elapsed, Working(y.gate))])
    else if step.Resume? && step.saved then y.(w := w, log := y.log + [PauseLifted])
    else y.(w := w)
  }

  function Do(y: Sys, a: Act): Sys
    requires Enabled(y, a)
  {
    match a
    case Recovery(step) => AfterRecovery(y, step)
    case TakeManual(action) => y.(gate := Manual(action, false, 0, 0))
    case Record(saved) =>
      y.(w := Next(y.w, Intent(y.gate.action, saved)),
         gate := y.gate.(recorded := true, at := y.w.elapsed, intent := |y.log|),
         log := y.log + [IntentRecorded(y.gate.action, IntentOk(y.w.node, y.gate.action, saved))])
    case RunManual => y.(gate := Free, log := y.log + [ManualRan(y.gate.action, y.gate.at, y.w.elapsed)])
    case TakeAutomatic(flight) => y.(gate := Automatic(flight, false))
    case Check => if Allows(y.w.node.mem, y.gate.flight.plan) then y.(gate := y.gate.(checked := true)) else y.(gate := Free)
    case RunAutomatic => y.(gate := Free, log := y.log + [AutomaticRan(y.gate.flight)])
    case Release =>
      if Working(y.gate) then y.(gate := Free, log := y.log + [Abandoned(y.gate.action)]) else y.(gate := Free)
  }

  /** The shared gate and controller, changed by the parts of `execute` and
      `execute_recovery` between which others may run. `around` is the world but
      for the controller itself. */
  class Executor {
    const recovery: NetworkRecovery.Recovery
    var around: World
    var gate: Gate
    var flights: set<Flight>
    var log: seq<Event>

    ghost function Value(): Sys
      reads this, recovery
    {
      Sys(around.(node := recovery.Value()), gate, flights, log)
    }

    constructor (recovery: NetworkRecovery.Recovery, around: World)
      ensures this.recovery == recovery
      ensures Value() == Sys(around.(node := recovery.Value()), Free, {}, [])
    {
      this.recovery, this.around, gate, flights, log := recovery, around, Free, {}, [];
    }

    method Lock(action: string)
      requires Enabled(Value(), TakeManual(action))
      modifies this
      ensures Value() == Do(old(Value()), TakeManual(action)) && around == old(around)
    {
      gate := Manual(action, false, 0, 0);
    }

    method RecordIntent(saved: bool) returns (ok: bool)
      requires Enabled(Value(), Record(saved)) && Ready(Value().w)
      modifies this, recovery
      ensures Value() == Do(old(Value()), Record(saved)) && around == old(around)
      ensures ok == IntentOk(old(recovery.Value()), old(gate.action), saved)
    {
      ok := recovery.RecordIntent(gate.action, around.wall, saved);
      gate := Manual(gate.action, true, around.elapsed, |log|);
      log := log + [IntentRecorded(gate.action, ok)];
    }

    method Finish()
      requires Enabled(Value(), RunManual)
      modifies this
      ensures Value() == Do(old(Value()), RunManual) && around == old(around)
    {
      log := log + [ManualRan(gate.action, gate.at, around.elapsed)];
      gate := Free;
    }

    /** The whole of `execute` when nobody else moves. */
    method Execute(action: string, saved: bool)
      requires gate.Free? && NetworkAction(action) && Ready(Value().w)
      modifies this, recovery
      ensures recovery.Value() == Intended(old(recovery.Value()), action, around.wall, saved)
      ensures gate.Free? && around == old(around) && flights == old(flights)
      ensures log == old(log) + [IntentRecorded(action, IntentOk(old(recovery.Value()), action, saved)),
                                 ManualRan(action, around.elapsed, around.elapsed)]
    {
      Lock(action);
      var ok := RecordIntent(saved);
      Finish();
    }

    /** Lock, check and act on a plan, or give the gate back. */
    method ExecuteRecovery(flight: Flight) returns (ran: bool)
      requires Enabled(Value(), TakeAutomatic(flight))
      modifies this
      ensures ran == Allows(old(recovery.Value().mem), flight.plan)
      ensures var locked := Do(old(Value()), TakeAutomatic(flight));
        Value() == if ran then Do(Do(locked, Check), RunAutomatic) else Do(locked, Check)
    {
      ran := recovery.Permits(flight.plan);
      if ran {
        log := log + [AutomaticRan(flight)];
      }
      gate := Free;
    }
  }

  // ---- What is promised of the log ----

  predicate NoIntent(log: seq<Event>, lo: nat, hi: nat)
    requires hi <= |log|
  {
    forall i :: lo <= i < hi ==> !log[i].IntentRecorded?
  }

  /** Whether the last saved intent that touched the pause left it set. */
  function Paused(log: seq<Event>): bool {
    if log == [] then false
    else
      var e, before := log[|log| - 1], Paused(log[..|log| - 1]);
      if e.PauseLifted? then false
      else if e.IntentRecorded? && e.ok then PausedAfter(before, e.action)
      else before
  }

  /** An automatic action at position `i` of the log is justified. */
  predicate Justified(log: seq<Event>, i: nat)
    requires i < |log| && log[i].AutomaticRan?
  {
    var f := log[i].flight;
    && f.issued < i && log[f.issued].PlanIssued? && log[f.issued].plan == f.plan
    && NoIntent(log, f.issued, i)
    && !Paused(log[..i])
    && (forall j :: f.issued < j < i && log[j].ManualRan? ==> log[j].intentAt + 120 <= log[f.issued].at)
  }

  predicate AllJustified(log: seq<Event>) {
    log == [] || (AllJustified(log[..|log| - 1])
                  && (log[|log| - 1].AutomaticRan? ==> Justified(log, |log| - 1)))
  }

  // ---- The invariant ----

  /** A flight whose generation is current has seen no manual intent. */
  predicate Fresh(log: seq<Event>, generation: nat, f: Flight) {
    && f.issued < |log| && log[f.issued].PlanIssued? && log[f.issued].plan == f.plan
    && f.plan.generation <= generation
    && (f.plan.generation == generation ==> NoIntent(log, f.issued, |log|))
  }

  predicate AllFresh(log: seq<Event>, generation: nat, flights: set<Flight>) {
    forall f :: f in flights ==> Fresh(log, generation, f)
  }

  /** While a recorded manual action holds the gate, plans come 120 seconds later at the earliest. */
  predicate Held120(log: seq<Event>, at: nat, intent: nat) {
    && intent < |log| && log[intent].IntentRecorded?
    && (forall i :: intent < i < |log| && log[i].PlanIssued? ==> at + 120 <= log[i].at)
  }

  predicate AutomaticInv(log: seq<Event>, generation: nat, paused: bool, f: Flight, checked: bool) {
    && Fresh(log, generation, f)
    && (checked ==> NoIntent(log, f.issued, |log|) && !paused)
  }

  predicate GateInv(gate: Gate, log: seq<Event>, w: World) {
    match gate
    case Free => true
    case Manual(_, recorded, at, intent) =>
      recorded ==> Held120(log, at, intent) && at <= w.elapsed && Blocked(w, at)
    case Automatic(f, checked) => AutomaticInv(log, w.node.mem.generation, StoredOf(w).paused, f, checked)
  }

  /** Recovery cannot plan anything until 120 seconds after `at`. */
  predicate Blocked(w: World, at: nat) {
    Synced(w) && StoredOf(w).config.enabled && w.node.mem.storageOk ==>
      w.wall - StoredOf(w).nextAllowed <= w.elapsed - at - 120
  }

  /** A manual run that follows the issue of a plan was either announced after
      it, or at least 120 seconds before it. */
  predicate LateRuns(log: seq<Event>) {
    forall i, j :: 0 <= i < j < |log| && log[i].PlanIssued? && log[j].ManualRan? ==>
      log[j].intentAt + 120 <= log[i].at || !NoIntent(log, i, j)
  }

  predicate LogInv(y: Sys) {
    && Paused(y.log) == StoredOf(y.w).paused
    && AllFresh(y.log, y.w.node.mem.generation, y.flights)
    && GateInv(y.gate, y.log, y.w)
    && LateRuns(y.log)
    && AllJustified(y.log)
  }

  predicate SysInv(y: Sys) {
    Inv(y.w) && LogInv(y)
  }

  predicate InitialSys(y: Sys) {
    Initial(y.w) && y.gate.Free? && y.flights == {} && y.log == []
  }

  // ---- Preservation ----

  lemma PausedAppend(log: seq<Event>, e: Event)
    ensures Paused(log + [e]) ==
      if e.PauseLifted? then false
      else if e.IntentRecorded? && e.ok then PausedAfter(Paused(log), e.action)
      else Paused(log)
  {
    assert (log + [e])[..|log|] == log;
  }

  lemma JustifiedAppend(log: seq<Event>, e: Event)
    requires AllJustified(log)
    requires e.AutomaticRan? ==> Justified(log + [e], |log|)
    ensures AllJustified(log + [e])
  {
    assert (log + [e])[..|log|] == log;
  }

  lemma ObservedEffect(n: Node, online: bool, changing: bool, gen: nat, now: Wall, savedProbe: bool, saved: bool)
    requires n.mem.stored.config.cooldown <= 3600
    ensures var (m, plan) := Observed(n, online, changing, gen, now, savedProbe, saved);
      && m.mem.generation >= n.mem.generation && m.mem.stored.paused == n.mem.stored.paused
      && (plan.Some? ==>
            && plan.value.generation == m.mem.generation
            && !changing && n.mem.clockGeneration == gen
            && n.mem.stored.config.enabled && n.mem.storageOk && n.mem.stored.nextAllowed <= now)
  {}

  lemma ObserveAdvances(w: World, online: bool, savedProbe: bool, saved: bool)
    requires Ready(w)
    ensures var v := OnObserve(w, online, savedProbe, saved);
      v.elapsed == w.elapsed && v.node.mem.generation >= w.node.mem.generation && StoredOf(v).paused == StoredOf(w).paused
  {
    ObservedEffect(w.node, online, w.changing, w.clockGen, w.wall, savedProbe, saved);
  }

  /** What a recovery step other than an intent does to the parts the gate reads. */
  lemma RecoveryEffect(w: World, step: Step)
    requires Ready(w) && !step.Intent? && !step.Restart?
    ensures Next(w, step).node.mem.generation >= w.node.mem.generation
    ensures StoredOf(Next(w, step)).paused == (if step.Resume? && step.saved then false else StoredOf(w).paused)
    ensures Next(w, step).elapsed >= w.elapsed
  {
    if step.Observe? {
      ObserveAdvances(w, step.online, step.savedProbe, step.saved);
    }
  }

  /** What stands when a plan is issued. */
  lemma PlanEffect(w: World, step: Step)
    requires Ready(w) && PlanOf(w, step).Some?
    ensures PlanOf(w, step).value.generation == Next(w, step).node.mem.generation
    ensures Synced(w) && StoredOf(w).config.enabled && w.node.mem.storageOk && StoredOf(w).nextAllowed <= w.wall
  {
    ObservedEffect(w.node, step.online, w.changing, w.clockGen, w.wall, step.savedProbe, step.saved);
  }

  lemma BlockedByProbe(w: World, at: nat, saved: bool)
    requires Ready(w) && at <= w.elapsed && Blocked(w, at)
    ensures Blocked(w.(node := Probed(w.node, w.changing, w.clockGen, w.wall, saved).0), at)
  {}

  /** What `observe` does to the parts that block it. */
  lemma ObservedBlock(n: Node, online: bool, now: Wall, saved: bool)
    requires InBounds(n.mem.stored)
    ensures var (m, plan) := if online then (SeenOnline(n, saved), None) else SeenOffline(n, now, saved);
      && m.mem.clockGeneration == n.mem.clockGeneration && m.mem.stored.config == n.mem.stored.config
      && (m.mem.stored.nextAllowed == n.mem.stored.nextAllowed || m.mem.stored.nextAllowed >= now + 180)
  {}

  lemma BlockedByObserve(w: World, at: nat, online: bool, savedProbe: bool, saved: bool)
    requires Ready(w) && at <= w.elapsed && Blocked(w, at)
    ensures Blocked(OnObserve(w, online, savedProbe, saved), at)
  {
    CheckedAt(w.node, online, w.changing, w.clockGen, w.wall, savedProbe, saved);
    var (p, ok) := Probed(w.node, w.changing, w.clockGen, w.wall, savedProbe);
    if ok {
      ReadyToProbe(w.node, w.changing, w.clockGen, w.wall, savedProbe);
      ObservedBlock(p.(mem := p.mem.(lastCheck := w.wall)), online, w.wall, saved);
    } else {
      BlockedByProbe(w, at, savedProbe);
    }
  }

  lemma StaysBlocked(w: World, at: nat, step: Step)
    requires Ready(w) && at <= w.elapsed && Blocked(w, at)
    requires Allowed(w, step) && !step.Intent? && !step.Restart? && w.node.mem.clockGeneration <= w.clockGen
    ensures Blocked(Next(w, step), at)
  {
    match step
    case Observe(online, savedProbe, saved) => BlockedByObserve(w, at, online, savedProbe, saved);
    case MayProbe(saved) => BlockedByProbe(w, at, saved);
    case _ =>
  }

  lemma IntentEffect(n: Node, action: string, now: Wall, saved: bool)
    ensures var m := Intended(n, action, now, saved);
      && m.mem.generation == n.mem.generation + 1
      && m.mem.stored.paused == (if IntentOk(n, action, saved) then PausedAfter(n.mem.stored.paused, action)
                                 else n.mem.stored.paused)
      && (m.mem.stored.config.enabled && m.mem.storageOk ==> m.mem.stored.nextAllowed >= now + 120)
  {}

  lemma LateRunsAppend(log: seq<Event>, e: Event)
    requires LateRuns(log)
    requires e.ManualRan? ==> forall i :: 0 <= i < |log| && log[i].PlanIssued? ==>
      e.intentAt + 120 <= log[i].at || !NoIntent(log, i, |log|)
    ensures LateRuns(log + [e])
  {
    var l := log + [e];
    forall i, j | 0 <= i < j < |l| && l[i].PlanIssued? && l[j].ManualRan?
      ensures l[j].intentAt + 120 <= l[i].at || !NoIntent(l, i, j)
    {
      assert l[i] == log[i];
      if !NoIntent(log, i, j) {
        var k :| i <= k < j && log[k].IntentRecorded?;
        assert l[k].IntentRecorded?;
      }
    }
  }

  /** An event other than an intent leaves every flight as fresh as it was. */
  lemma FreshAppend(log: seq<Event>, e: Event, g: nat, g': nat, f: Flight)
    requires Fresh(log, g, f) && !e.IntentRecorded? && g <= g'
    ensures Fresh(log + [e], g', f)
  {
    var l := log + [e];
    assert forall i :: 0 <= i < |log| ==> l[i] == log[i];
  }

  lemma AllFreshAppend(log: seq<Event>, e: Event, g: nat, g': nat, flights: set<Flight>)
    requires AllFresh(log, g, flights) && !e.IntentRecorded? && g <= g'
    ensures AllFresh(log + [e], g', flights)
  {
    forall f | f in flights
      ensures Fresh(log + [e], g', f)
    {
      FreshAppend(log, e, g, g', f);
    }
  }

  /** A recorded intent makes every flight stale. */
  lemma AllStale(log: seq<Event>, e: Event, g: nat, flights: set<Flight>)
    requires AllFresh(log, g, flights)
    ensures AllFresh(log + [e], g + 1, flights)
  {
    forall f | f in flights
      ensures Fresh(log + [e], g + 1, f)
    {
      assert Fresh(log, g, f);
      assert (log + [e])[f.issued] == log[f.issued];
    }
  }

  /** What the gate needs to know of a recovery step. */
  predicate Advances(gate: Gate, v: World, w: World) {
    && w.node.mem.generation >= v.node.mem.generation && w.elapsed >= v.elapsed
    && (gate.Manual? && gate.recorded ==> Blocked(w, gate.at))
  }

  lemma AdvancesByRecovery(gate: Gate, w: World, step: Step)
    requires Ready(w) && Allowed(w, step) && !step.Restart? && !step.Intent?
    requires w.node.mem.clockGeneration <= w.clockGen
    requires gate.Manual? && gate.recorded ==> gate.at <= w.elapsed && Blocked(w, gate.at)
    ensures Advances(gate, w, Next(w, step))
  {
    RecoveryEffect(w, step);
    if gate.Manual? && gate.recorded {
      StaysBlocked(w, gate.at, step);
    }
  }

  lemma QuietLog(y: Sys, w: World)
    requires LogInv(y) && Advances(y.gate, y.w, w) && StoredOf(w).paused == StoredOf(y.w).paused
    ensures LogInv(y.(w := w))
  {}

  lemma Held120Append(log: seq<Event>, e: Event, at: nat, intent: nat)
    requires Held120(log, at, intent) && (e.PlanIssued? ==> at + 120 <= e.at)
    ensures Held120(log + [e], at, intent)
  {}

  lemma GateAppend(gate: Gate, log: seq<Event>, e: Event, v: World, w: World)
    requires GateInv(gate, log, v) && Advances(gate, v, w) && !e.IntentRecorded?
    requires StoredOf(w).paused ==> StoredOf(v).paused
    requires gate.Manual? && gate.recorded && e.PlanIssued? ==> gate.at + 120 <= e.at
    ensures GateInv(gate, log + [e], w)
  {
    if gate.Automatic? {
      FreshAppend(log, e, v.node.mem.generation, w.node.mem.generation, gate.flight);
    } else if gate.Manual? && gate.recorded {
      Held120Append(log, e, gate.at, gate.intent);
    }
  }

  /** An event other than an intent, logged without touching the flights. */
  lemma LogAppend(y: Sys, e: Event, w: World)
    requires LogInv(y) && Advances(y.gate, y.w, w) && !e.IntentRecorded? && !e.ManualRan? && !e.AutomaticRan?
    requires StoredOf(w).paused == (!e.PauseLifted? && StoredOf(y.w).paused)
    requires y.gate.Manual? && y.gate.recorded && e.PlanIssued? ==> y.gate.at + 120 <= e.at
    ensures LogInv(y.(w := w, log := y.log + [e]))
  {
    PausedAppend(y.log, e);
    JustifiedAppend(y.log, e);
    LateRunsAppend(y.log, e);
    AllFreshAppend(y.log, e, y.w.node.mem.generation, w.node.mem.generation, y.flights);
    GateAppend(y.gate, y.log, e, y.w, w);
  }

  lemma NewFlight(log: seq<Event>, g: nat, e: Event, flights: set<Flight>)
    requires e.PlanIssued? && e.plan.generation == g && AllFresh(log + [e], g, flights)
    ensures AllFresh(log + [e], g, flights + {Flight(e.plan, |log|)})
  {}

  lemma IssueLog(y: Sys, w: World, e: Event)
    requires LogInv(y) && Advances(y.gate, y.w, w) && StoredOf(w).paused == StoredOf(y.w).paused
    requires e.PlanIssued? && e.plan.generation == w.node.mem.generation
    requires Working(y.gate) ==> y.gate.at + 120 <= e.at
    ensures LogInv(y.(w := w, flights := y.flights + {Flight(e.plan, |y.log|)}, log := y.log + [e]))
  {
    LogAppend(y, e, w);
    NewFlight(y.log, e.plan.generation, e, y.flights);
  }

  lemma RecoveryAct(y: Sys, step: Step)
    requires LogInv(y) && Ready(y.w) && Allowed(y.w, step) && !step.Restart? && !step.Intent?
    requires y.w.node.mem.clockGeneration <= y.w.clockGen
    ensures LogInv(AfterRecovery(y, step))
  {
    var w := Next(y.w, step);
    AdvancesByRecovery(y.gate, y.w, step);
    RecoveryEffect(y.w, step);
    if PlanOf(y.w, step).Some? {
      PlanEffect(y.w, step);
      IssueLog(y, w, PlanIssued(PlanOf(y.w, step).value, y.w.elapsed, Working(y.gate)));
    } else if step.Resume? && step.saved {
      LogAppend(y, PauseLifted, w);
    } else {
      QuietLog(y, w);
    }
  }

  lemma RestartRecovery(y: Sys)
    requires LogInv(y) && Saved(y.w.node) && Ready(y.w)
    ensures LogInv(AfterRecovery(y, Restart))
  {
    SavedReloads(y.w.node, y.w.wall, 0);
  }

  lemma RecordedGate(log: seq<Event>, e: Event, action: string, w: World)
    requires e.IntentRecorded? && Blocked(w, w.elapsed)
    ensures GateInv(Manual(action, true, w.elapsed, |log|), log + [e], w)
  {}

  lemma RecordBlocks(w: World, action: string, saved: bool)
    requires Ready(w)
    ensures Blocked(Next(w, Intent(action, saved)), w.elapsed)
  {
    IntentEffect(w.node, action, w.wall, saved);
  }

  /** A recorded intent makes every flight stale and starts the wait. */
  lemma IntentLog(y: Sys, w: World, action: string, ok: bool)
    requires LogInv(y) && Blocked(w, w.elapsed)
    requires w.node.mem.generation == y.w.node.mem.generation + 1
    requires StoredOf(w).paused == if ok then PausedAfter(StoredOf(y.w).paused, action) else StoredOf(y.w).paused
    ensures LogInv(Sys(w, Manual(action, true, w.elapsed, |y.log|), y.flights, y.log + [IntentRecorded(action, ok)]))
  {
    var e := IntentRecorded(action, ok);
    RecordedGate(y.log, e, action, w);
    PausedAppend(y.log, e);
    JustifiedAppend(y.log, e);
    LateRunsAppend(y.log, e);
    AllStale(y.log, e, y.w.node.mem.generation, y.flights);
  }

  lemma RecordAct(y: Sys, saved: bool)
    requires LogInv(y) && Ready(y.w) && Enabled(y, Record(saved))
    ensures LogInv(Do(y, Record(saved)))
  {
    var action := y.gate.action;
    IntentEffect(y.w.node, action, y.w.wall, saved);
    RecordBlocks(y.w, action, saved);
    IntentLog(y, Next(y.w, Intent(action, saved)), action, IntentOk(y.w.node, action, saved));
  }

  /** Plans older than the recorded intent were cancelled by it, later ones came 120 seconds after. */
  lemma ManualRunIsLate(log: seq<Event>, at: nat, intent: nat, i: nat)
    requires Held120(log, at, intent) && i < |log| && log[i].PlanIssued?
    ensures at + 120 <= log[i].at || !NoIntent(log, i, |log|)
  {}

  lemma RunManualAct(y: Sys)
    requires LogInv(y) && Enabled(y, RunManual)
    ensures LogInv(Do(y, RunManual))
  {
    var e := ManualRan(y.gate.action, y.gate.at, y.w.elapsed);
    PausedAppend(y.log, e);
    JustifiedAppend(y.log, e);
    forall i | 0 <= i < |y.log| && y.log[i].PlanIssued?
      ensures e.intentAt + 120 <= y.log[i].at || !NoIntent(y.log, i, |y.log|)
    {
      ManualRunIsLate(y.log, y.gate.at, y.gate.intent, i);
    }
    LateRunsAppend(y.log, e);
    AllFreshAppend(y.log, e, y.w.node.mem.generation, y.w.node.mem.generation, y.flights);
  }

  /** The heart of the matter: the action about to run is justified. */
  lemma RunningIsJustified(log: seq<Event>, f: Flight)
    requires f.issued < |log| && log[f.issued].PlanIssued? && log[f.issued].plan == f.plan
    requires NoIntent(log, f.issued, |log|) && !Paused(log) && LateRuns(log)
    ensures Justified(log + [AutomaticRan(f)], |log|)
  {
    var l := log + [AutomaticRan(f)];
    assert l[..|log|] == log;
    assert l[f.issued] == log[f.issued];
    forall j | f.issued < j < |log| && l[j].ManualRan?
      ensures l[j].intentAt + 120 <= l[f.issued].at
    {
      assert NoIntent(log, f.issued, j);
      assert log[j].ManualRan?;
    }
  }

  lemma RunAutomaticAct(y: Sys)
    requires LogInv(y) && Enabled(y, RunAutomatic)
    ensures LogInv(Do(y, RunAutomatic))
  {
    var e := AutomaticRan(y.gate.flight);
    RunningIsJustified(y.log, y.gate.flight);
    PausedAppend(y.log, e);
    JustifiedAppend(y.log, e);
    LateRunsAppend(y.log, e);
    AllFreshAppend(y.log, e, y.w.node.mem.generation, y.w.node.mem.generation, y.flights);
  }

  /** Taking, checking and releasing the gate. */
  lemma GateAct(y: Sys, a: Act)
    requires LogInv(y) && Enabled(y, a)
    requires a.TakeManual? || a.TakeAutomatic? || a.Check? || (a.Release? && !Working(y.gate))
    ensures LogInv(Do(y, a)) && Do(y, a).w == y.w
  {}

  lemma AbandonAct(y: Sys)
    requires LogInv(y) && Working(y.gate)
    ensures LogInv(Do(y, Release))
  {
    LogAppend(y, Abandoned(y.gate.action), y.w);
  }

  lemma RecoveryWorld(y: Sys, step: Step)
    ensures AfterRecovery(y, step).w == Next(y.w, step)
  {}

  lemma ActWorld(y: Sys, a: Act)
    requires Enabled(y, a) && Inv(y.w)
    ensures Inv(Do(y, a).w)
  {
    match a
    case Recovery(step) =>
      StepKeepsInv(y.w, step);
      RecoveryWorld(y, step);
    case Record(saved) => StepKeepsInv(y.w, Intent(y.gate.action, saved));
    case _ =>
  }

  lemma ActLog(y: Sys, a: Act)
    requires LogInv(y) && Enabled(y, a) && Saved(y.w.node) && Ready(y.w)
    requires y.w.node.mem.clockGeneration <= y.w.clockGen
    ensures LogInv(Do(y, a))
  {
    match a
    case Recovery(step) =>
      if step.Restart? {
        RestartRecovery(y);
      } else {
        RecoveryAct(y, step);
      }
    case Record(saved) => RecordAct(y, saved);
    case RunManual => RunManualAct(y);
    case RunAutomatic => RunAutomaticAct(y);
    case Release =>
      if Working(y.gate) {
        AbandonAct(y);
      } else {
        GateAct(y, a);
      }
    case _ => GateAct(y, a);
  }

  lemma ActKeepsInv(y: Sys, a: Act)
    requires SysInv(y) && Enabled(y, a)
    ensures SysInv(Do(y, a))
  {
    ActWorld(y, a);
    ActLog(y, a);
  }

  // ---- Interleavings ----

  predicate Interleaving(y: Sys, acts: seq<Act>)
    decreases |acts|
  {
    acts == [] || (Enabled(y, acts[0]) && Interleaving(Do(y, acts[0]), acts[1..]))
  }

  function DoAll(y: Sys, acts: seq<Act>): Sys
    requires Interleaving(y, acts)
    decreases |acts|
  {
    if acts == [] then y else DoAll(Do(y, acts[0]), acts[1..])
  }

  lemma {:induction false} InterleavingKeepsInv(y: Sys, acts: seq<Act>)
    requires SysInv(y) && Interleaving(y, acts)
    ensures SysInv(DoAll(y, acts))
    decreases |acts|
  {
    if acts != [] {
      ActKeepsInv(y, acts[0]);
      InterleavingKeepsInv(Do(y, acts[0]), acts[1..]);
    }
  }

  lemma {:induction false} JustifiedAt(log: seq<Event>, i: nat)
    requires AllJustified(log) && i < |log| && log[i].AutomaticRan?
    ensures Justified(log, i)
  {
    var n := |log| - 1;
    if i < n {
      JustifiedAt(log[..n], i);
      assert log[..n][..i] == log[..i];
      var f := log[i].flight;
      assert forall j :: 0 <= j < n ==> log[..n][j] == log[j];
    }
  }

  /** In every interleaving, an automatic action runs only while its plan is
      uncancelled: no manual intent since the plan was issued, saved or not; no
      saved pause in force, restarts included; and any manual action that still
      ran after the issue had announced itself at least 120 seconds before. */
  lemma AutomaticActionsAreJustified(y: Sys, acts: seq<Act>, i: nat)
    requires InitialSys(y) && Interleaving(y, acts)
    requires i < |DoAll(y, acts).log| && DoAll(y, acts).log[i].AutomaticRan?
    ensures Justified(DoAll(y, acts).log, i)
  {
    InitialInv(y.w);
    InterleavingKeepsInv(y, acts);
    JustifiedAt(DoAll(y, acts).log, i);
  }
}
