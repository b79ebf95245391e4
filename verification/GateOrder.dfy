/** Exactly when a manual action runs between a plan's issue and its execution. */
module GateOrder {
  import opened NetworkRecovery
  import opened RecoveryRuns
  import opened NetworkGate

  /** Manual actions that ended after position `lo` of the log. */
  function Runs(log: seq<Event>, lo: nat): nat {
    if |log| <= lo + 1 then 0
    else Runs(log[..|log| - 1], lo) + if log[|log| - 1].ManualRan? then 1 else 0
  }

  /** Manual actions that were given up after it. */
  function Drops(log: seq<Event>, lo: nat): nat {
    if |log| <= lo + 1 then 0
    else Drops(log[..|log| - 1], lo) + if log[|log| - 1].Abandoned? then 1 else 0
  }

  function One(b: bool): nat {
    if b then 1 else 0
  }

  predicate Ends(e: Event) {
    e.ManualRan? || e.Abandoned?
  }

  // ---- The invariant ----

  predicate Issued(log: seq<Event>, f: Flight) {
    f.issued < |log| && log[f.issued].PlanIssued?
  }

  /** As long as a plan is not cancelled, the one action that held the gate when
      it was issued is at work, has ended, or was given up; there is no other. */
  predicate Balanced(log: seq<Event>, working: bool, f: Flight) {
    && Issued(log, f)
    && (NoIntent(log, f.issued, |log|) ==>
          Runs(log, f.issued) + Drops(log, f.issued) + One(working) == One(log[f.issued].held))
  }

  predicate AllBalanced(log: seq<Event>, working: bool, flights: set<Flight>) {
    forall f :: f in flights ==> Balanced(log, working, f)
  }

  /** When the plan at position `i` is executed, that action is no longer at work. */
  predicate Closed(log: seq<Event>, i: nat)
    requires i < |log| && log[i].AutomaticRan?
  {
    var f := log[i].flight;
    && f.issued < i && log[f.issued].PlanIssued?
    && Runs(log[..i], f.issued) + Drops(log[..i], f.issued) == One(log[f.issued].held)
  }

  predicate AllClosed(log: seq<Event>) {
    log == [] || (AllClosed(log[..|log| - 1]) && (log[|log| - 1].AutomaticRan? ==> Closed(log, |log| - 1)))
  }

  predicate Timed(e: Event) {
    e.PlanIssued? || e.ManualRan?
  }

  /** Plans and ends of actions are logged in the order of time. */
  predicate Dated(log: seq<Event>, elapsed: nat) {
    && (forall i :: 0 <= i < |log| && Timed(log[i]) ==> log[i].at <= elapsed)
    && (forall i, j :: 0 <= i < j < |log| && Timed(log[i]) && Timed(log[j]) ==> log[i].at <= log[j].at)
  }

  predicate Book(y: Sys) {
    && Dated(y.log, y.w.elapsed)
    && AllBalanced(y.log, Working(y.gate), y.flights)
    && AllClosed(y.log)
    && (y.gate.Automatic? ==> y.gate.flight in y.flights)
  }

  // ---- Preservation ----

  lemma CountsAppend(log: seq<Event>, e: Event, lo: nat)
    requires lo < |log|
    ensures Runs(log + [e], lo) == Runs(log, lo) + One(e.ManualRan?)
    ensures Drops(log + [e], lo) == Drops(log, lo) + One(e.Abandoned?)
  {
    assert (log + [e])[..|log|] == log;
  }

  lemma BalancedAppend(log: seq<Event>, e: Event, before: bool, after: bool, f: Flight)
    requires Balanced(log, before, f)
    requires e.IntentRecorded? || One(Ends(e)) + One(after) == One(before)
    ensures Balanced(log + [e], after, f)
  {
    var l := log + [e];
    CountsAppend(log, e, f.issued);
    assert l[f.issued] == log[f.issued];
    if NoIntent(l, f.issued, |l|) {
      assert !l[|log|].IntentRecorded?;
      assert forall i :: f.issued <= i < |log| ==> l[i] == log[i];
    }
  }

  lemma AllBalancedAppend(log: seq<Event>, e: Event, before: bool, after: bool, flights: set<Flight>)
    requires AllBalanced(log, before, flights)
    requires e.IntentRecorded? || One(Ends(e)) + One(after) == One(before)
    ensures AllBalanced(log + [e], after, flights)
  {
    forall f | f in flights
      ensures Balanced(log + [e], after, f)
    {
      BalancedAppend(log, e, before, after, f);
    }
  }

  lemma ClosedAppend(log: seq<Event>, e: Event)
    requires AllClosed(log) && (e.AutomaticRan? ==> Closed(log + [e], |log|))
    ensures AllClosed(log + [e])
  {
    assert (log + [e])[..|log|] == log;
  }

  lemma DatedAppend(log: seq<Event>, e: Event, now: nat, elapsed: nat)
    requires Dated(log, now) && now <= elapsed && (Timed(e) ==> e.at == now)
    ensures Dated(log + [e], elapsed)
  {}

  /** One more event other than an execution. */
  lemma BookAppend(y: Sys, e: Event, v: Sys)
    requires Book(y) && !e.AutomaticRan? && v.log == y.log + [e]
    requires v.flights == y.flights && (v.gate.Automatic? ==> v.gate == y.gate)
    requires y.w.elapsed <= v.w.elapsed && (Timed(e) ==> e.at == y.w.elapsed)
    requires e.IntentRecorded? || One(Ends(e)) + One(Working(v.gate)) == One(Working(y.gate))
    ensures Book(v)
  {
    DatedAppend(y.log, e, y.w.elapsed, v.w.elapsed);
    AllBalancedAppend(y.log, e, Working(y.gate), Working(v.gate), y.flights);
    ClosedAppend(y.log, e);
  }

  lemma IssueBook(y: Sys, e: Event, v: Sys)
    requires Book(y) && e.PlanIssued? && e.at == y.w.elapsed && e.held == Working(y.gate)
    requires v == y.(w := v.w, flights := y.flights + {Flight(e.plan, |y.log|)}, log := y.log + [e])
    requires y.w.elapsed <= v.w.elapsed
    ensures Book(v)
  {
    var u := v.(flights := y.flights);
    BookAppend(y, e, u);
    var f := Flight(e.plan, |y.log|);
    assert Balanced(v.log, Working(v.gate), f);
  }

  lemma RecoveryBook(y: Sys, step: Step)
    requires Book(y) && Ready(y.w) && !step.Intent? && !step.Restart?
    ensures Book(AfterRecovery(y, step))
  {
    RecoveryEffect(y.w, step);
    var v := AfterRecovery(y, step);
    if PlanOf(y.w, step).Some? {
      IssueBook(y, PlanIssued(PlanOf(y.w, step).value, y.w.elapsed, Working(y.gate)), v);
    } else if step.Resume? && step.saved {
      BookAppend(y, PauseLifted, v);
    }
  }

  lemma RunAutomaticBook(y: Sys)
    requires Book(y) && LogInv(y) && Enabled(y, RunAutomatic)
    ensures Book(Do(y, RunAutomatic))
  {
    var f := y.gate.flight;
    var e := AutomaticRan(f);
    assert Balanced(y.log, false, f);
    assert (y.log + [e])[..|y.log|] == y.log;
    assert (y.log + [e])[f.issued] == y.log[f.issued];
    ClosedAppend(y.log, e);
    DatedAppend(y.log, e, y.w.elapsed, y.w.elapsed);
    AllBalancedAppend(y.log, e, false, false, y.flights);
  }

  lemma ReleaseBook(y: Sys)
    requires Book(y) && Enabled(y, Release)
    ensures Book(Do(y, Release))
  {
    if Working(y.gate) {
      BookAppend(y, Abandoned(y.gate.action), Do(y, Release));
    }
  }

  lemma ActKeepsBook(y: Sys, a: Act)
    requires Book(y) && SysInv(y) && Enabled(y, a)
    ensures Book(Do(y, a))
  {
    match a
    case Recovery(step) =>
      if !step.Restart? {
        RecoveryBook(y, step);
      }
    case Record(saved) =>
      BookAppend(y, IntentRecorded(y.gate.action, IntentOk(y.w.node, y.gate.action, saved)), Do(y, a));
    case RunManual => BookAppend(y, ManualRan(y.gate.action, y.gate.at, y.w.elapsed), Do(y, a));
    case RunAutomatic => RunAutomaticBook(y);
    case Release => ReleaseBook(y);
    case _ =>
  }

  lemma {:induction false} InterleavingKeepsBook(y: Sys, acts: seq<Act>)
    requires Book(y) && SysInv(y) && Interleaving(y, acts)
    ensures Book(DoAll(y, acts))
    decreases |acts|
  {
    if acts != [] {
      ActKeepsInv(y, acts[0]);
      ActKeepsBook(y, acts[0]);
      InterleavingKeepsBook(Do(y, acts[0]), acts[1..]);
    }
  }

  // ---- What it means for one execution ----

  /** Some manual action ended between the issue and the execution at position `i`. */
  ghost predicate Overtaken(log: seq<Event>, i: nat)
    requires i < |log| && log[i].AutomaticRan?
  {
    exists j :: log[i].flight.issued < j < i && log[j].ManualRan?
  }

  ghost predicate GivenUp(log: seq<Event>, i: nat)
    requires i < |log| && log[i].AutomaticRan?
  {
    exists j :: log[i].flight.issued < j < i && log[j].Abandoned?
  }

  lemma {:induction false} RunsCount(log: seq<Event>, lo: nat)
    ensures Runs(log, lo) > 0 <==> exists j :: lo < j < |log| && log[j].ManualRan?
  {
    if |log| > lo + 1 {
      var init := log[..|log| - 1];
      RunsCount(init, lo);
      assert forall j :: 0 <= j < |init| ==> init[j] == log[j];
    }
  }

  lemma {:induction false} DropsCount(log: seq<Event>, lo: nat)
    ensures Drops(log, lo) > 0 <==> exists j :: lo < j < |log| && log[j].Abandoned?
  {
    if |log| > lo + 1 {
      var init := log[..|log| - 1];
      DropsCount(init, lo);
      assert forall j :: 0 <= j < |init| ==> init[j] == log[j];
    }
  }

  lemma {:induction false} ClosedAt(log: seq<Event>, i: nat)
    requires AllClosed(log) && i < |log| && log[i].AutomaticRan?
    ensures Closed(log, i)
  {
    var n := |log| - 1;
    if i < n {
      ClosedAt(log[..n], i);
      assert log[..n][..i] == log[..i];
    }
  }

  lemma ClosedMeans(log: seq<Event>, i: nat)
    requires i < |log| && log[i].AutomaticRan? && Closed(log, i)
    ensures var f := log[i].flight; Overtaken(log, i) <==> log[f.issued].held && !GivenUp(log, i)
  {
    var f := log[i].flight;
    RunsCount(log[..i], f.issued);
    DropsCount(log[..i], f.issued);
    assert forall j :: 0 <= j < i ==> log[..i][j] == log[j];
  }

  /** In every interleaving: a manual action ends between the issue of a plan and
      its execution exactly when a manual action with a recorded intent held the
      gate as the plan was issued, and was not given up. */
  lemma OvertakenExactly(y: Sys, acts: seq<Act>, i: nat)
    requires InitialSys(y) && Interleaving(y, acts)
    requires i < |DoAll(y, acts).log| && DoAll(y, acts).log[i].AutomaticRan?
    ensures var log := DoAll(y, acts).log; var f := log[i].flight;
      && f.issued < i && log[f.issued].PlanIssued? && log[f.issued].plan == f.plan
      && (Overtaken(log, i) <==> log[f.issued].held && !GivenUp(log, i))
  {
    InitialInv(y.w);
    InterleavingKeepsBook(y, acts);
    AutomaticActionsAreJustified(y, acts, i);
    ClosedAt(DoAll(y, acts).log, i);
    ClosedMeans(DoAll(y, acts).log, i);
  }

  /** Every manual action ended less than `limit` seconds after its intent was recorded. */
  predicate Brief(log: seq<Event>, limit: nat) {
    forall j :: 0 <= j < |log| && log[j].ManualRan? ==> log[j].at < log[j].intentAt + limit
  }

  /** Manual actions shorter than 120 seconds are never overtaken by an older plan. */
  lemma BriefActionsCancel(y: Sys, acts: seq<Act>, i: nat)
    requires InitialSys(y) && Interleaving(y, acts) && Brief(DoAll(y, acts).log, 120)
    requires i < |DoAll(y, acts).log| && DoAll(y, acts).log[i].AutomaticRan?
    ensures !Overtaken(DoAll(y, acts).log, i)
  {
    InitialInv(y.w);
    InterleavingKeepsBook(y, acts);
    AutomaticActionsAreJustified(y, acts, i);
  }
}
