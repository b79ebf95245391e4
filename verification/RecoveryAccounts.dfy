/** What an onlooker counts beside a run of the recovery controller: verdicts in a
    row, and the time since somebody acted. The counts are taken from the steps,
    never from the controller's own counters. */
module RecoveryAccounts {
  import opened Common
  import opened NetworkRecovery
  import opened RecoveryRuns
  import opened NetworkGate

  datatype Account = Account(
    w: World,
    bad: nat,    // probed offline verdicts in a row
    good: nat,   // probed online verdicts in a row
    act: nat)    // elapsed time of the last start, intent, absorbed clock change, saved resume or configuration

  /** The probe of this observation was permitted, so its verdict counts. */
  predicate Counts(w: World, s: Step) {
    Ready(w) && s.Observe? && Probed(w.node, w.changing, w.clockGen, w.wall, s.savedProbe).1
  }

  /** This step absorbs an announced clock change. */
  predicate Absorbs(w: World, s: Step) {
    && !w.changing && w.node.mem.clockGeneration != w.clockGen
    && ((s.MayProbe? && s.saved) || (s.Observe? && s.savedProbe))
  }

  /** Somebody or something acts, and every count of failures starts anew. */
  predicate Acts(w: World, s: Step) {
    || s.Restart? || s.Intent? || Absorbs(w, s)
    || (s.Resume? && s.saved) || (s.SetConfig? && s.saved && s.config.Valid())
  }

  predicate Plans(w: World, s: Step) {
    |Next(w, s).history| > |w.history|
  }

  function Keep(x: Account, s: Step): Account {
    Account(
      Next(x.w, s),
      if Acts(x.w, s) || s.Hold? || Plans(x.w, s) || (Counts(x.w, s) && s.online) then 0
      else if Counts(x.w, s) then x.bad + 1 else x.bad,
      if s.Restart? || s.Hold? || Absorbs(x.w, s) || (Counts(x.w, s) && !s.online) then 0
      else if Counts(x.w, s) then x.good + 1 else x.good,
      if Acts(x.w, s) then x.w.elapsed else x.act)
  }

  function KeepAll(x: Account, steps: seq<Step>): Account
    decreases |steps|
  {
    if steps == [] then x else KeepAll(Keep(x, steps[0]), steps[1..])
  }

  /** The account opened at the start of a run. */
  function Opened(w: World): Account {
    Account(w, 0, 0, w.elapsed)
  }

  // ---- When a plan is possible ----

  /** The recorded times of the last hour. */
  function LastHour(times: seq<U64>, now: int): set<nat> {
    set i: nat | i < |times| && now - times[i] < 3600
  }

  /** The budgets allow a plan at this reading of the clock. */
  predicate BudgetsAllow(s: Stored, now: int) {
    && s.nextAllowed <= now
    && |LastHour(s.actionTimes, now)| < 5
    && (s.redials < s.config.maxRedials
        || (s.config.rebootAfterFailures && (s.lastReboot == 0 || now - s.lastReboot >= 21600)))
  }

  function Moved(a: set<nat>): set<nat> {
    set i | i in a :: i + 1
  }

  lemma {:induction false} MovedCount(a: set<nat>)
    ensures |Moved(a)| == |a|
    decreases a
  {
    if a == {} {
      assert Moved(a) == {};
    } else {
      var x :| x in a;
      MovedCount(a - {x});
      MovedWithout(a, x);
    }
  }

  lemma MovedWithout(a: set<nat>, x: nat)
    requires x in a
    ensures Moved(a) == Moved(a - {x}) + {x + 1} && x + 1 !in Moved(a - {x})
  {
    forall y | y in Moved(a)
      ensures y in Moved(a - {x}) + {x + 1}
    {
      var i :| i in a && y == i + 1;
      assert i != x ==> i in a - {x};
    }
  }

  lemma ShiftedHour(times: seq<U64>, now: int)
    requires times != []
    ensures LastHour(times, now) == Moved(LastHour(times[1..], now)) + if now - times[0] < 3600 then {0} else {}
  {
    var rest := LastHour(times[1..], now);
    forall i: nat | i in LastHour(times, now) && i > 0
      ensures i in Moved(rest)
    {
      assert i - 1 in rest;
    }
  }

  lemma {:induction false} RecentCounts(times: seq<U64>, now: Wall)
    ensures |Recent(times, now)| == |LastHour(times, now)|
  {
    if times == [] {
      assert LastHour(times, now) == {};
    } else {
      ShiftedHour(times, now);
      MovedCount(LastHour(times[1..], now));
      assert 0 !in Moved(LastHour(times[1..], now));
      RecentCounts(times[1..], now);
    }
  }

  lemma BudgetsAllowExactly(s: Stored, now: Wall)
    ensures Refusal(s, now).None? <==> BudgetsAllow(s, now)
  {
    RecentCounts(s.actionTimes, now);
  }

  // ---- The account agrees with the controller ----

  /** The failure counter of the source is 32 bits wide and saturates. */
  function Cap(n: nat): nat {
    if n > 0xFFFF_FFFF then 0xFFFF_FFFF else n
  }

  predicate Agrees(m: Memory, bad: nat, good: nat) {
    (m.storageOk ==> m.failures == Cap(bad)) && m.successes == good
  }

  /** Recovery still waits out its start. */
  predicate Starting(w: World, at: nat) {
    Synced(w) && StoredOf(w).config.enabled && w.node.mem.storageOk ==>
      w.wall - w.node.mem.startupUntil <= w.elapsed - at - 120
  }

  predicate AccountInv(x: Account) {
    && Ready(x.w) && x.w.node.mem.clockGeneration <= x.w.clockGen && x.act <= x.w.elapsed
    && Agrees(x.w.node.mem, x.bad, x.good)
    && (Blocked(x.w, x.act) || Starting(x.w, x.act))
  }

  // ---- Counting ----

  lemma ProbeAgrees(n: Node, changing: bool, gen: nat, now: Wall, saved: bool, bad: nat, good: nat)
    requires n.mem.stored.config.cooldown <= 3600 && Agrees(n.mem, bad, good)
    ensures var (p, ok) := Probed(n, changing, gen, now, saved);
      var absorbs := !changing && n.mem.clockGeneration != gen && saved;
      && Agrees(p.mem, if absorbs then 0 else bad, if absorbs then 0 else good)
      && (ok ==> !absorbs && p.mem.storageOk)
  {}

  lemma OfflineAgrees(n: Node, now: Wall, saved: bool, bad: nat, good: nat)
    requires n.mem.stored.config.cooldown <= 3600 && n.mem.storageOk && Agrees(n.mem, bad, good)
    requires n.mem.stored.config.failureThreshold <= 10
    ensures var (m, plan) := SeenOffline(n, now, saved);
      && Agrees(m.mem, if plan.Some? then 0 else bad + 1, 0)
      && (plan.Some? <==> bad + 1 >= n.mem.stored.config.failureThreshold && Refusal(n.mem.stored, now).None? && saved)
      && (plan.Some? ==> (plan.value.reboot <==> n.mem.stored.redials >= n.mem.stored.config.maxRedials))
  {}

  lemma OnlineAgrees(n: Node, saved: bool, bad: nat, good: nat)
    requires Agrees(n.mem, bad, good)
    ensures var m := SeenOnline(n, saved);
      && Agrees(m.mem, 0, good + 1)
      && m.mem.stored == (if good + 1 >= 2 && saved then n.mem.stored.(redials := 0) else n.mem.stored)
  {}

  /** What one observation does to the counts, and when it plans. */
  lemma ObserveAgrees(n: Node, online: bool, changing: bool, gen: nat, now: Wall, savedProbe: bool, saved: bool,
                      bad: nat, good: nat)
    requires InBounds(n.mem.stored) && Agrees(n.mem, bad, good)
    ensures var (m, plan) := Observed(n, online, changing, gen, now, savedProbe, saved);
      var ok := Probed(n, changing, gen, now, savedProbe).1;
      var absorbs := !changing && n.mem.clockGeneration != gen && savedProbe;
      && Agrees(m.mem, if absorbs || plan.Some? || (ok && online) then 0 else if ok then bad + 1 else bad,
                       if absorbs || (ok && !online) then 0 else if ok then good + 1 else good)
      && (plan.Some? <==> ok && !online && bad + 1 >= n.mem.stored.config.failureThreshold
                          && Refusal(n.mem.stored, now).None? && saved)
      && (plan.Some? ==> (plan.value.reboot <==> n.mem.stored.redials >= n.mem.stored.config.maxRedials))
  {
    CheckedAt(n, online, changing, gen, now, savedProbe, saved);
    ProbeAgrees(n, changing, gen, now, savedProbe, bad, good);
    var (p, ok) := Probed(n, changing, gen, now, savedProbe);
    if ok {
      ReadyToProbe(n, changing, gen, now, savedProbe);
      var m := p.(mem := p.mem.(lastCheck := now));
      if online {
        OnlineAgrees(m, saved, bad, good);
      } else {
        OfflineAgrees(m, now, saved, bad, good);
      }
    }
  }

  lemma ConcludedPlans(w: World, node: Node, plan: Option<Plan>)
    requires Ready(w)
    ensures Concluded(w, node, plan).node == node
    ensures |Concluded(w, node, plan).history| > |w.history| <==> plan.Some?
    ensures plan.Some? ==> Concluded(w, node, plan).history[|w.history|].reboot == plan.value.reboot
  {}

  lemma ObservePlans(x: Account, s: Step)
    requires AccountInv(x) && s.Observe?
    ensures Agrees(Keep(x, s).w.node.mem, Keep(x, s).bad, Keep(x, s).good)
    ensures Plans(x.w, s) <==>
      && Counts(x.w, s) && !s.online && x.bad + 1 >= StoredOf(x.w).config.failureThreshold
      && Refusal(StoredOf(x.w), x.w.wall).None? && s.saved
    ensures Plans(x.w, s) ==> (Next(x.w, s).history[|x.w.history|].reboot <==>
                                 StoredOf(x.w).redials >= StoredOf(x.w).config.maxRedials)
  {
    var w := x.w;
    ObserveAgrees(w.node, s.online, w.changing, w.clockGen, w.wall, s.savedProbe, s.saved, x.bad, x.good);
    var (m, plan) := Observed(w.node, s.online, w.changing, w.clockGen, w.wall, s.savedProbe, s.saved);
    ConcludedPlans(w, m, plan);
  }

  lemma OthersPlanNothing(w: World, s: Step)
    requires !s.Observe?
    ensures !Plans(w, s) && !Counts(w, s)
  {}

  lemma IntentAgrees(n: Node, action: string, now: Wall, saved: bool, bad: nat, good: nat)
    requires Agrees(n.mem, bad, good)
    ensures Agrees(Intended(n, action, now, saved).mem, 0, good)
  {}

  lemma OthersAgree(x: Account, s: Step)
    requires AccountInv(x) && !s.Observe?
    ensures Agrees(Keep(x, s).w.node.mem, Keep(x, s).bad, Keep(x, s).good)
  {
    OthersPlanNothing(x.w, s);
    match s
    case MayProbe(saved) => ProbeAgrees(x.w.node, x.w.changing, x.w.clockGen, x.w.wall, saved, x.bad, x.good);
    case Intent(action, saved) => IntentAgrees(x.w.node, action, x.w.wall, saved, x.bad, x.good);
    case _ =>
  }

  // ---- Waiting ----

  lemma ActBlocks(w: World, s: Step)
    requires Ready(w) && Allowed(w, s) && Acts(w, s)
    ensures Blocked(Next(w, s), w.elapsed) || Starting(Next(w, s), w.elapsed)
  {
    match s
    case Intent(action, saved) => RecordBlocks(w, action, saved);
    case Observe(online, savedProbe, saved) =>
      CheckedAt(w.node, online, w.changing, w.clockGen, w.wall, savedProbe, saved);
    case _ =>
  }

  lemma ProbeKeepsStart(n: Node, changing: bool, gen: nat, now: Wall, saved: bool)
    requires n.mem.stored.config.cooldown <= 3600
    requires !(!changing && n.mem.clockGeneration != gen && saved)
    ensures var p := Probed(n, changing, gen, now, saved).0;
      && p.mem.startupUntil == n.mem.startupUntil && p.mem.clockGeneration == n.mem.clockGeneration
      && p.mem.stored.config == n.mem.stored.config && (p.mem.storageOk ==> n.mem.storageOk)
  {}

  lemma ObserveKeepsStart(n: Node, online: bool, changing: bool, gen: nat, now: Wall, savedProbe: bool, saved: bool)
    requires n.mem.stored.config.cooldown <= 3600
    requires !(!changing && n.mem.clockGeneration != gen && savedProbe)
    ensures var m := Observed(n, online, changing, gen, now, savedProbe, saved).0;
      && m.mem.startupUntil == n.mem.startupUntil && m.mem.clockGeneration == n.mem.clockGeneration
      && m.mem.stored.config == n.mem.stored.config && (m.mem.storageOk ==> n.mem.storageOk)
  {
    CheckedAt(n, online, changing, gen, now, savedProbe, saved);
    ProbeKeepsStart(n, changing, gen, now, savedProbe);
    if Probed(n, changing, gen, now, savedProbe).1 {
      ReadyToProbe(n, changing, gen, now, savedProbe);
    }
  }

  lemma StaysStarting(w: World, at: nat, s: Step)
    requires Ready(w) && at <= w.elapsed && Starting(w, at) && w.node.mem.clockGeneration <= w.clockGen
    requires Allowed(w, s) && !Acts(w, s)
    ensures Starting(Next(w, s), at)
  {
    match s
    case Observe(online, savedProbe, saved) =>
      ObserveKeepsStart(w.node, online, w.changing, w.clockGen, w.wall, savedProbe, saved);
    case MayProbe(saved) => ProbeKeepsStart(w.node, w.changing, w.clockGen, w.wall, saved);
    case _ =>
  }

  lemma WaitKept(x: Account, s: Step)
    requires AccountInv(x) && Allowed(x.w, s)
    ensures Blocked(Next(x.w, s), Keep(x, s).act) || Starting(Next(x.w, s), Keep(x, s).act)
    ensures Keep(x, s).act <= Next(x.w, s).elapsed
  {
    if Acts(x.w, s) {
      ActBlocks(x.w, s);
    } else if Blocked(x.w, x.act) {
      StaysBlocked(x.w, x.act, s);
    } else {
      StaysStarting(x.w, x.act, s);
    }
  }

  lemma KeepsAccount(x: Account, s: Step)
    requires AccountInv(x) && Inv(x.w) && Allowed(x.w, s)
    ensures AccountInv(Keep(x, s)) && Inv(Keep(x, s).w)
  {
    StepKeepsInv(x.w, s);
    WaitKept(x, s);
    if s.Observe? {
      ObservePlans(x, s);
    } else {
      OthersAgree(x, s);
    }
  }

  lemma {:induction false} RunKeepsAccount(x: Account, steps: seq<Step>)
    requires AccountInv(x) && Inv(x.w) && Legal(x.w, steps)
    ensures AccountInv(KeepAll(x, steps)) && Inv(KeepAll(x, steps).w) && KeepAll(x, steps).w == Run(x.w, steps)
    decreases |steps|
  {
    if steps != [] {
      KeepsAccount(x, steps[0]);
      RunKeepsAccount(Keep(x, steps[0]), steps[1..]);
    }
  }

  lemma OpenedAgrees(w: World)
    requires Initial(w)
    ensures AccountInv(Opened(w)) && Inv(w)
  {
    InitialInv(w);
  }

  // ---- What every run shows ----

  /** After any run the next step issues a plan exactly when it is an offline
      verdict of a permitted probe, the configured number of such verdicts is
      reached with no online verdict, hold, intent, saved resume or configuration,
      absorbed clock change, restart or plan between them, the budgets allow it,
      and it could be saved. It is a reboot exactly when the redials are used up. */
  lemma PlansExactlyAfterFailures(w: World, steps: seq<Step>, s: Step)
    requires Initial(w) && Legal(w, steps)
    ensures var x := KeepAll(Opened(w), steps); var v := Run(w, steps);
      && x.w == v
      && (Plans(v, s) <==>
            && Counts(v, s) && !s.online && s.saved
            && x.bad + 1 >= StoredOf(v).config.failureThreshold && BudgetsAllow(StoredOf(v), v.wall))
      && (Plans(v, s) ==> (Next(v, s).history[|v.history|].reboot <==>
                             StoredOf(v).redials >= StoredOf(v).config.maxRedials))
  {
    OpenedAgrees(w);
    RunKeepsAccount(Opened(w), steps);
    var x := KeepAll(Opened(w), steps);
    BudgetsAllowExactly(StoredOf(x.w), x.w.wall);
    if s.Observe? {
      ObservePlans(x, s);
    } else {
      OthersPlanNothing(x.w, s);
    }
  }

  /** When a probe is permitted: no clock change pending, recovery enabled, not
      paused and able to save, the clock plausible and not behind any record, and
      the start waited out. */
  lemma PermittedExactly(w: World, s: Step)
    requires Ready(w) && s.Observe?
    ensures Counts(w, s) <==>
      var m := w.node.mem; var t := m.stored;
      && !w.changing && m.clockGeneration == w.clockGen
      && t.config.enabled && !t.paused && m.storageOk
      && w.wall >= 1704067200 && t.lastReboot <= w.wall
      && (forall i :: 0 <= i < |t.actionTimes| ==> t.actionTimes[i] <= w.wall)
      && m.startupUntil <= w.wall
  {}

  /** In every run 120 elapsed seconds or more lie between a plan and the last
      start, intent, saved resume or configuration, or absorbed clock change. */
  lemma PlansWaitAfterActs(w: World, steps: seq<Step>, s: Step)
    requires Initial(w) && Legal(w, steps) && Plans(Run(w, steps), s)
    ensures Run(w, steps).elapsed >= KeepAll(Opened(w), steps).act + 120
  {
    OpenedAgrees(w);
    RunKeepsAccount(Opened(w), steps);
    PlansExactlyAfterFailures(w, steps, s);
    PermittedExactly(Run(w, steps), s);
  }

  /** In every run an observation gives the redials back exactly when it is the
      second online verdict in a row, or a later one, and could be saved; it takes
      one exactly when it plans a redial. */
  lemma RedialsComeBackExactly(w: World, steps: seq<Step>, s: Step)
    requires Initial(w) && Legal(w, steps) && s.Observe?
    ensures var x := KeepAll(Opened(w), steps); var v := Run(w, steps); var after := StoredOf(Next(v, s)).redials;
      after == if Counts(v, s) && s.online && s.saved && x.good + 1 >= 2 then 0
               else if Plans(v, s) && !Next(v, s).history[|v.history|].reboot then StoredOf(v).redials + 1
               else StoredOf(v).redials
  {
    OpenedAgrees(w);
    RunKeepsAccount(Opened(w), steps);
    var x := KeepAll(Opened(w), steps);
    ObservedRedials(x, s);
  }

  lemma OfflineRedials(n: Node, now: Wall, saved: bool)
    requires n.mem.stored.config.cooldown <= 3600
    ensures var (m, plan) := SeenOffline(n, now, saved);
      m.mem.stored.redials == n.mem.stored.redials + if plan.Some? && !plan.value.reboot then 1 else 0
  {}

  lemma ObservedRedials(x: Account, s: Step)
    requires AccountInv(x) && s.Observe?
    ensures StoredOf(Next(x.w, s)).redials ==
      if Counts(x.w, s) && s.online && s.saved && x.good + 1 >= 2 then 0
      else if Plans(x.w, s) && !Next(x.w, s).history[|x.w.history|].reboot then StoredOf(x.w).redials + 1
      else StoredOf(x.w).redials
  {
    var w := x.w;
    CheckedAt(w.node, s.online, w.changing, w.clockGen, w.wall, s.savedProbe, s.saved);
    var (m, plan) := Observed(w.node, s.online, w.changing, w.clockGen, w.wall, s.savedProbe, s.saved);
    ConcludedPlans(w, m, plan);
    ProbeKeepsRedials(w.node, w.changing, w.clockGen, w.wall, s.savedProbe);
    if Counts(w, s) {
      ReadyToProbe(w.node, w.changing, w.clockGen, w.wall, s.savedProbe);
      var n := w.node.(mem := w.node.mem.(lastCheck := w.wall));
      if s.online {
        OnlineAgrees(n, s.saved, x.bad, x.good);
      } else {
        OfflineRedials(n, w.wall, s.saved);
      }
    }
  }
}
