/** Why a restart must wait until an announced clock change is absorbed, and what
    follows exactly when it does not. */
module RestartWitness {
  import opened NetworkRecovery
  import opened RecoveryRuns

  const OFFLINE := Observe(false, true, true)

  function Repeated(f: World -> World, w: World, n: nat): World {
    if n == 0 then w else f(Repeated(f, w, n - 1))
  }

  /** What one step carries on, many do. */
  lemma {:induction false} CarriedOn(f: World -> World, p: (World, nat) -> bool, w: World, n: nat)
    requires p(w, 0) && forall v, k: nat | p(v, k) && k < n :: p(f(v), k + 1)
    ensures p(Repeated(f, w, n), n)
  {
    if n > 0 {
      CarriedOn(f, p, w, n - 1);
    }
  }

  /** An offline verdict; every write succeeds. */
  function Offline(): World -> World {
    (w: World) => Next(w, OFFLINE)
  }

  /** `n` offline verdicts in a row. */
  function Watched(w: World, n: nat): World {
    Repeated(Offline(), w, n)
  }

  /** Nothing keeps recovery from probing but the clock. */
  predicate Calm(w: World) {
    && Ready(w) && Synced(w) && w.node.mem.storageOk
    && StoredOf(w).config.enabled && !StoredOf(w).paused && w.node.mem.startupUntil <= w.wall
  }

  function Threshold(w: World): nat {
    StoredOf(w).config.failureThreshold
  }

  /** The controller of `v` differs from that of `w` in counters and status only. */
  predicate Alike(w: World, v: World) {
    v == w.(node := v.node) && StoredOf(v) == StoredOf(w) && Calm(v)
  }

  lemma OneFailure(w: World, v: World)
    requires Alike(w, v) && !ClockBehind(StoredOf(w), w.wall) && v.node.mem.failures + 1 < Threshold(w)
    ensures Alike(w, Next(v, OFFLINE)) && Next(v, OFFLINE).node.mem.failures == v.node.mem.failures + 1
  {}

  /** One plan more, issued now. */
  predicate PlansNow(w: World, v: World) {
    && |v.history| == |w.history| + 1 && v.history[..|w.history|] == w.history
    && v.history[|w.history|].at == w.elapsed == v.elapsed
  }

  /** What the verdict that reaches the threshold makes of `w`. */
  predicate Outcome(w: World, v: World)
    requires Ready(w)
  {
    if Refusal(StoredOf(w), w.wall).Some? then v.history == w.history
    else
      && PlansNow(w, v) && v.changing == w.changing
      && StoredOf(v) == Booked(StoredOf(w), w.wall, StoredOf(w).redials >= StoredOf(w).config.maxRedials)
  }

  lemma LastFailure(w: World, v: World)
    requires Alike(w, v) && !ClockBehind(StoredOf(w), w.wall) && v.node.mem.failures + 1 == Threshold(w)
    ensures Outcome(w, Next(v, OFFLINE))
  {}

  lemma BlockedStep(w: World, v: World)
    requires Alike(w, v) && ClockBehind(StoredOf(w), w.wall)
    ensures Alike(w, Next(v, OFFLINE))
  {}

  lemma FailuresCount(w: World, n: nat)
    requires Calm(w) && w.node.mem.failures == 0 && !ClockBehind(StoredOf(w), w.wall) && n < Threshold(w)
    ensures Alike(w, Watched(w, n)) && Watched(w, n).node.mem.failures == n
  {
    var p := (v: World, k: nat) => Alike(w, v) && v.node.mem.failures == k;
    forall v, k: nat | p(v, k) && k < n
      ensures p(Offline()(v), k + 1)
    {
      OneFailure(w, v);
    }
    CarriedOn(Offline(), p, w, n);
  }

  lemma FailuresPlan(w: World)
    requires Calm(w) && w.node.mem.failures == 0 && !ClockBehind(StoredOf(w), w.wall)
    ensures Outcome(w, Watched(w, Threshold(w)))
  {
    var n := Threshold(w) - 1;
    FailuresCount(w, n);
    LastFailure(w, Watched(w, n));
    OnceMore(w, n);
  }

  lemma OnceMore(w: World, n: nat)
    ensures Watched(w, n + 1) == Next(Watched(w, n), OFFLINE)
  {}

  lemma NothingWhileBehind(w: World, n: nat)
    requires Calm(w) && ClockBehind(StoredOf(w), w.wall)
    ensures Alike(w, Watched(w, n))
  {
    var p := (v: World, k: nat) => Alike(w, v);
    forall v, k: nat | p(v, k) && k < n
      ensures p(Offline()(v), k + 1)
    {
      BlockedStep(w, v);
    }
    CarriedOn(Offline(), p, w, n);
  }

  /** A calm controller that sees nothing but failures plans exactly when the clock
      is not behind its records and no budget refuses. */
  lemma FailuresPlanExactly(w: World)
    requires Calm(w) && w.node.mem.failures == 0
    ensures var v := Watched(w, Threshold(w)); var s := StoredOf(w);
      if !ClockBehind(s, w.wall) && Refusal(s, w.wall).None? then PlansNow(w, v) else v.history == w.history
  {
    if ClockBehind(StoredOf(w), w.wall) {
      NothingWhileBehind(w, Threshold(w));
    } else {
      FailuresPlan(w);
    }
  }

  // ---- A restart before the change is absorbed ----

  function Changed(w: World, clock: Wall): World {
    Next(Next(Next(w, BeginChange), SetClock(clock)), EndChange)
  }

  lemma ChangedValue(w: World, clock: Wall)
    requires Ready(w) && !w.changing
    ensures Changed(w, clock) == w.(clockGen := w.clockGen + 1, changes := w.changes + 1, wall := clock)
  {
    assert Ready(Next(w, BeginChange));
  }

  /** The clock is set, and the daemon restarts before noticing. */
  function Forgotten(w: World, clock: Wall): World {
    Next(Changed(w, clock), Restart)
  }

  lemma ForgottenValue(w: World, clock: Wall)
    requires Inv(w) && !w.changing
    ensures var r := Forgotten(w, clock);
      && r == w.(wall := clock, clockGen := 0, changes := w.changes + 1,
                 node := w.node.(mem := Loaded(w.node.disk, clock, 0)))
      && StoredOf(r) == StoredOf(w) && r.node.mem.storageOk && Ready(r) && Synced(r)
  {
    ChangedValue(w, clock);
    SavedReloads(w.node, clock, 0);
  }

  /** ... and some time passes on the new clock. */
  function Restarted(w: World, clock: Wall, wait: nat): World
    requires clock + wait < 0x8000_0000_0000_0000
  {
    Next(Forgotten(w, clock), Pass(wait, clock + wait))
  }

  /** In any reachable world: when the clock is set to `clock` and the daemon
      restarts before the change is absorbed, then after any wait of 120 seconds
      or more failures make it plan, however recent the last plan, exactly when
      the new clock is not behind the recorded times and makes them look old
      enough. Every step but that restart is allowed. */
  lemma UnabsorbedRestartPlansExactly(w: World, clock: Wall, wait: nat)
    requires Inv(w) && !w.changing && StoredOf(w).config.enabled && !StoredOf(w).paused
    requires wait >= 120 && clock + wait < 0x8000_0000_0000_0000
    ensures !Allowed(Changed(w, clock), Restart)
    ensures var v := Watched(Restarted(w, clock, wait), Threshold(w)); var s := StoredOf(w);
      if !ClockBehind(s, clock + wait) && Refusal(s, clock + wait).None?
      then |v.history| == |w.history| + 1 && v.history[..|w.history|] == w.history
           && v.history[|w.history|].at == w.elapsed + wait && v.elapsed == w.elapsed + wait
      else v.history == w.history
  {
    ChangedValue(w, clock);
    ForgottenValue(w, clock);
    FailuresPlanExactly(Restarted(w, clock, wait));
  }

  // ---- When the spacing survives such a restart ----

  /** What happens while the connection is down and nobody intervenes. */
  predicate UnattendedStep(s: Step) {
    s.Pass? || s.Hold? || s.MayProbe? || (s.Observe? && !s.online)
  }

  predicate Unattended(steps: seq<Step>) {
    forall i :: 0 <= i < |steps| ==> UnattendedStep(steps[i])
  }

  /** Between `r` and `v` only time passed and counters moved. */
  predicate Quiet(r: World, v: World) {
    && Ready(r) && Synced(r)
    && v == r.(elapsed := v.elapsed, wall := v.wall, node := v.node)
    && StoredOf(v) == StoredOf(r) && v.node.mem.clockGeneration == r.node.mem.clockGeneration
    && v.node.mem.startupUntil == r.node.mem.startupUntil
    && r.elapsed <= v.elapsed && v.wall - r.wall <= v.elapsed - r.elapsed
  }

  /** The clock of `v` lets the records of `r` plan. */
  predicate ClockAllows(s: Stored, startupUntil: nat, now: Wall) {
    startupUntil <= now && !ClockBehind(s, now) && Refusal(s, now).None?
  }

  lemma ProbedQuietly(n: Node, gen: nat, now: Wall, saved: bool)
    requires n.mem.stored.config.cooldown <= 3600 && n.mem.clockGeneration == gen
    ensures var (p, ok) := Probed(n, false, gen, now, saved);
      && p == WithStatus(n, p.mem.status)
      && (ok ==> n.mem.startupUntil <= now && !ClockBehind(n.mem.stored, now))
  {}

  lemma OfflineQuietly(n: Node, now: Wall, saved: bool)
    requires n.mem.stored.config.cooldown <= 3600
    ensures var (m, plan) := SeenOffline(n, now, saved);
      && (plan.None? ==> m.mem.stored == n.mem.stored && m.mem.clockGeneration == n.mem.clockGeneration
                         && m.mem.startupUntil == n.mem.startupUntil)
      && (plan.Some? ==> Refusal(n.mem.stored, now).None?)
  {}

  lemma ObservedQuietly(n: Node, gen: nat, now: Wall, savedProbe: bool, saved: bool)
    requires n.mem.stored.config.cooldown <= 3600 && n.mem.clockGeneration == gen
    ensures var (m, plan) := Observed(n, false, false, gen, now, savedProbe, saved);
      && (plan.None? ==> m.mem.stored == n.mem.stored && m.mem.clockGeneration == gen
                         && m.mem.startupUntil == n.mem.startupUntil)
      && (plan.Some? ==> ClockAllows(n.mem.stored, n.mem.startupUntil, now))
  {
    CheckedAt(n, false, false, gen, now, savedProbe, saved);
    ProbedQuietly(n, gen, now, savedProbe);
    var (p, ok) := Probed(n, false, gen, now, savedProbe);
    OfflineQuietly(p.(mem := p.mem.(lastCheck := now)), now, saved);
  }

  lemma ObserveStaysQuiet(r: World, v: World, savedProbe: bool, saved: bool)
    requires Quiet(r, v) && !ClockAllows(StoredOf(r), r.node.mem.startupUntil, v.wall)
    ensures Quiet(r, OnObserve(v, false, savedProbe, saved))
  {
    ObservedQuietly(v.node, v.clockGen, v.wall, savedProbe, saved);
  }

  lemma StepStaysQuiet(r: World, v: World, s: Step)
    requires Quiet(r, v) && Allowed(v, s) && UnattendedStep(s)
    requires !ClockAllows(StoredOf(r), r.node.mem.startupUntil, v.wall)
    ensures Quiet(r, Next(v, s))
  {
    match s
    case Observe(_, savedProbe, saved) => ObserveStaysQuiet(r, v, savedProbe, saved);
    case MayProbe(saved) => ProbedQuietly(v.node, v.clockGen, v.wall, saved);
    case _ =>
  }

  lemma TimeRises(w: World, s: Step)
    ensures w.elapsed <= Next(w, s).elapsed
  {}

  lemma {:induction false} RunTimeRises(w: World, steps: seq<Step>)
    ensures w.elapsed <= Run(w, steps).elapsed
    decreases |steps|
  {
    if steps != [] {
      TimeRises(w, steps[0]);
      RunTimeRises(Next(w, steps[0]), steps[1..]);
    }
  }

  /** No reading of the clock in the window lets these records plan. */
  ghost predicate ClocksRefuse(s: Stored, from: int, to: int) {
    forall now: Wall | from <= now < to :: ClockBehind(s, now) || Refusal(s, now).Some?
  }

  lemma {:induction false} RunStaysQuiet(r: World, v: World, steps: seq<Step>, room: nat)
    requires Quiet(r, v) && Legal(v, steps) && Unattended(steps)
    requires Run(v, steps).elapsed < r.elapsed + room
    requires ClocksRefuse(StoredOf(r), r.node.mem.startupUntil, r.wall + room)
    ensures Quiet(r, Run(v, steps))
    decreases |steps|
  {
    if steps != [] {
      RunTimeRises(v, steps);
      StepStaysQuiet(r, v, steps[0]);
      RunStaysQuiet(r, Next(v, steps[0]), steps[1..], room);
    }
  }

  /** However long it is watched within the next `room` seconds, nothing is planned. */
  ghost predicate PlansNothing(r: World, room: nat) {
    forall steps | Unattended(steps) && Legal(r, steps) && Run(r, steps).elapsed < r.elapsed + room ::
      Run(r, steps).history == r.history
  }

  function Offlines(n: nat): seq<Step> {
    if n == 0 then [] else [OFFLINE] + Offlines(n - 1)
  }

  lemma {:induction false} RepeatedInside(f: World -> World, w: World, n: nat)
    ensures Repeated(f, f(w), n) == f(Repeated(f, w, n))
  {
    if n > 0 {
      RepeatedInside(f, w, n - 1);
    }
  }

  lemma OfflineFirst(w: World, rest: seq<Step>)
    requires Legal(Offline()(w), rest) && Unattended(rest)
    ensures var steps := [OFFLINE] + rest;
      Unattended(steps) && Legal(w, steps) && Run(w, steps) == Run(Offline()(w), rest)
  {
    assert ([OFFLINE] + rest)[1..] == rest;
  }

  /** What holds of no steps, and of one more in front, holds of `n` of them. */
  lemma {:induction false} LinedUp(f: World -> World, q: (World, nat, World) -> bool, w: World, n: nat)
    requires forall v :: q(v, 0, v)
    requires forall v, k: nat, u | q(f(v), k, u) :: q(v, k + 1, u)
    ensures q(w, n, Repeated(f, w, n))
    decreases n
  {
    if n > 0 {
      LinedUp(f, q, f(w), n - 1);
      RepeatedInside(f, w, n - 1);
    }
  }

  /** `n` offline verdicts as a run. */
  predicate Watches(w: World, n: nat, u: World) {
    Legal(w, Offlines(n)) && Unattended(Offlines(n)) && Run(w, Offlines(n)) == u
  }

  lemma NoneWatched(w: World)
    ensures Watches(w, 0, w)
  {}

  lemma OneMoreWatched(w: World, n: nat, u: World)
    requires Watches(Offline()(w), n, u)
    ensures Watches(w, n + 1, u)
  {
    OfflineFirst(w, Offlines(n));
    assert Offlines(n + 1) == [OFFLINE] + Offlines(n);
  }

  lemma OfflinesWatch(w: World, n: nat)
    ensures Watches(w, n, Watched(w, n))
  {
    forall v
      ensures Watches(v, 0, v)
    {
      NoneWatched(v);
    }
    forall v, k: nat, u | Watches(Offline()(v), k, u)
      ensures Watches(v, k + 1, u)
    {
      OneMoreWatched(v, k, u);
    }
    LinedUp(Offline(), Watches, w, n);
  }

  lemma WaitAndWatch(r: World, pass: Step, n: nat)
    requires pass.Pass? && Allowed(r, pass)
    ensures var steps := [pass] + Offlines(n);
      Unattended(steps) && Legal(r, steps) && Run(r, steps) == Watched(Next(r, pass), n)
  {
    OfflinesWatch(Next(r, pass), n);
    assert ([pass] + Offlines(n))[1..] == Offlines(n);
  }

  lemma AClockPlans(w: World, clock: Wall, now: Wall) returns (steps: seq<Step>)
    requires Inv(w) && !w.changing && StoredOf(w).config.enabled && !StoredOf(w).paused
    requires clock + 120 <= now && !ClockBehind(StoredOf(w), now) && Refusal(StoredOf(w), now).None?
    ensures var r := Forgotten(w, clock);
      && Unattended(steps) && Legal(r, steps)
      && Run(r, steps).elapsed == w.elapsed + (now - clock) && Run(r, steps).history != w.history
  {
    var pass := Pass(now - clock, now);
    ForgottenValue(w, clock);
    WaitAndWatch(Forgotten(w, clock), pass, Threshold(w));
    UnabsorbedRestartPlansExactly(w, clock, now - clock);
    steps := [pass] + Offlines(Threshold(w));
  }

  /** After such a restart nothing is planned within `room` seconds, whatever
      passes and is observed while the connection is down, exactly when every
      reading of the new clock from the end of the start-up wait to the end of
      those seconds is behind the records or refused by the budgets. */
  lemma RestartPlansNothingExactly(w: World, clock: Wall, room: nat)
    requires Inv(w) && !w.changing && StoredOf(w).config.enabled && !StoredOf(w).paused
    ensures PlansNothing(Forgotten(w, clock), room) <==> ClocksRefuse(StoredOf(w), clock + 120, clock + room)
  {
    var r := Forgotten(w, clock);
    ForgottenValue(w, clock);
    if ClocksRefuse(StoredOf(w), clock + 120, clock + room) {
      forall steps | Unattended(steps) && Legal(r, steps) && Run(r, steps).elapsed < r.elapsed + room
        ensures Run(r, steps).history == r.history
      {
        RunStaysQuiet(r, r, steps, room);
      }
    } else {
      var now: Wall :| clock + 120 <= now < clock + room && !ClockBehind(StoredOf(w), now) && Refusal(StoredOf(w), now).None?;
      var steps := AClockPlans(w, clock, now);
    }
  }

  function Last(w: World): nat
    requires w.history != []
  {
    w.history[|w.history| - 1].at
  }

  /** The seconds of the 180 after the last plan that are still to come. */
  function Room(w: World): nat
    requires w.history != []
  {
    if Last(w) + 180 > w.elapsed then Last(w) + 180 - w.elapsed else 0
  }

  /** The spacing of 180 seconds survives such a restart exactly then. */
  lemma SpacingSurvivesExactly(w: World, clock: Wall)
    requires Inv(w) && !w.changing && StoredOf(w).config.enabled && !StoredOf(w).paused && w.history != []
    ensures ClocksRefuse(StoredOf(w), clock + 120, clock + Room(w)) <==>
      forall steps | Unattended(steps) && Legal(Forgotten(w, clock), steps)
                     && Run(Forgotten(w, clock), steps).elapsed < Last(w) + 180 ::
        Run(Forgotten(w, clock), steps).history == w.history
  {
    ForgottenValue(w, clock);
    RestartPlansNothingExactly(w, clock, Room(w));
    forall steps
      ensures Run(Forgotten(w, clock), steps).elapsed >= w.elapsed
    {
      RunTimeRises(Forgotten(w, clock), steps);
    }
  }

  // ---- A concrete run ----

  const START: Wall := 1_800_000_000
  const ENABLED := DEFAULT_CONFIG.(enabled := true)

  function Fresh(): World {
    World(0, START, false, 0, 0, Node(Loaded(Absent, START, 0), Absent), [], [], 0)
  }

  lemma EnabledIsValid()
    ensures ENABLED.Valid()
  {
    DefaultIsValid();
  }

  function Prepared(): World {
    Next(Next(Fresh(), SetConfig(ENABLED, true)), Pass(120, START + 120))
  }

  lemma PreparedIsCalm()
    ensures var a := Prepared();
      && Calm(a) && a.node.mem.failures == 0 && !a.changing && a.wall == START + 120 && a.elapsed == 120
      && StoredOf(a) == DEFAULT_STORED.(config := ENABLED, nextAllowed := START + 120) && a.history == []
  {
    EnabledIsValid();
    DefaultIsValid();
    assert Ready(Fresh());
  }

  /** The world right after the first plan of the run. */
  function Planned(): World {
    Watched(Prepared(), Threshold(Prepared()))
  }

  lemma PlannedValue()
    ensures var w := Planned();
      && |w.history| == 1 && w.history[0].at == 120 && w.elapsed == 120 && !w.changing
      && StoredOf(w) == Booked(DEFAULT_STORED.(config := ENABLED, nextAllowed := START + 120), START + 120, false)
  {
    PreparedIsCalm();
    FailuresPlan(Prepared());
  }

  lemma ConfigKeepsInv(w: World)
    requires Inv(w)
    ensures Inv(Next(w, SetConfig(ENABLED, true))) && Next(w, SetConfig(ENABLED, true)).wall == w.wall
  {
    StepKeepsInv(w, SetConfig(ENABLED, true));
  }

  lemma PassKeepsInv(w: World)
    requires Inv(w) && w.wall == START
    ensures Inv(Next(w, Pass(120, START + 120)))
  {
    StepKeepsInv(w, Pass(120, START + 120));
  }

  lemma PreparedInv()
    ensures Inv(Prepared())
  {
    InitialInv(Fresh());
    ConfigKeepsInv(Fresh());
    PassKeepsInv(Next(Fresh(), SetConfig(ENABLED, true)));
  }

  lemma PlannedInv()
    ensures Inv(Planned())
  {
    PreparedInv();
    var p := (v: World, k: nat) => Inv(v);
    forall v, k: nat | p(v, k)
      ensures p(Offline()(v), k + 1)
    {
      StepKeepsInv(v, OFFLINE);
    }
    CarriedOn(Offline(), p, Prepared(), Threshold(Prepared()));
  }

  const FORWARD: Wall := START + 100_000

  /** Nothing on record forbids a plan at that clock. */
  lemma ForwardAllows(s: Stored)
    requires s == Booked(DEFAULT_STORED.(config := ENABLED, nextAllowed := START + 120), START + 120, false)
    ensures s.config == ENABLED && !s.paused
    ensures !ClockBehind(s, FORWARD + 120) && Refusal(s, FORWARD + 120).None?
  {
    assert s.actionTimes == [START + 120];
  }

  /** A plan is issued, the clock is set forward, and the daemon restarts before
      the change was absorbed: a second plan follows after only 120 seconds. */
  lemma UnabsorbedRestartBreaksSpacing()
    ensures var w := Planned(); var v := Watched(Restarted(w, FORWARD, 120), Threshold(w));
      && Inv(w) && !Allowed(Changed(w, FORWARD), Restart)
      && |w.history| == 1 && |v.history| == 2 && v.history[0] == w.history[0]
      && v.history[1].at - v.history[0].at == 120
  {
    PlannedInv();
    PlannedValue();
    ForwardAllows(StoredOf(Planned()));
    SecondPlan(Planned());
  }

  lemma SecondPlan(w: World)
    requires Inv(w) && !w.changing && |w.history| == 1 && w.history[0].at == w.elapsed
    requires StoredOf(w).config.enabled && !StoredOf(w).paused
    requires !ClockBehind(StoredOf(w), FORWARD + 120) && Refusal(StoredOf(w), FORWARD + 120).None?
    ensures var v := Watched(Restarted(w, FORWARD, 120), Threshold(w));
      && !Allowed(Changed(w, FORWARD), Restart)
      && |v.history| == 2 && v.history[0] == w.history[0] && v.history[1].at - v.history[0].at == 120
  {
    UnabsorbedRestartPlansExactly(w, FORWARD, 120);
    var v := Watched(Restarted(w, FORWARD, 120), Threshold(w));
    assert v.history[0] == v.history[..1][0];
  }
}
