/** Which actions pause automatic recovery, and for how long. */
module GatePause {
  import opened NetworkRecovery
  import opened RecoveryRuns
  import opened NetworkGate

  /** Cutting the connection or the power pauses recovery if that could be saved,
      connecting lifts the pause likewise, and nothing else touches it. */
  lemma IntentsPauseExactly(n: Node, action: string, now: Wall, saved: bool)
    ensures Intended(n, action, now, saved).mem.stored.paused ==
      if action == "cellular.disconnect" || action == "device.poweroff" then n.mem.stored.paused || saved
      else if action == "cellular.connect" then n.mem.stored.paused && !saved
      else n.mem.stored.paused
  {}

  lemma ProbeKeepsPause(n: Node, changing: bool, gen: nat, now: Wall, saved: bool)
    requires n.mem.stored.config.cooldown <= 3600
    ensures Probed(n, changing, gen, now, saved).0.mem.stored.paused == n.mem.stored.paused
  {}

  /** The pause changes in no other way, restarts included. */
  lemma StepsPauseExactly(w: World, s: Step)
    requires Inv(w) && Allowed(w, s)
    ensures StoredOf(Next(w, s)).paused ==
      if s.Intent? && (s.action == "cellular.disconnect" || s.action == "device.poweroff")
      then StoredOf(w).paused || s.saved
      else if (s.Intent? && s.action == "cellular.connect") || s.Resume? then StoredOf(w).paused && !s.saved
      else StoredOf(w).paused
  {
    match s
    case Intent(action, saved) => IntentsPauseExactly(w.node, action, w.wall, saved);
    case Observe(online, savedProbe, saved) => ObserveAdvances(w, online, savedProbe, saved);
    case MayProbe(saved) => ProbeKeepsPause(w.node, w.changing, w.clockGen, w.wall, saved);
    case Restart => SavedReloads(w.node, w.wall, 0);
    case _ =>
  }

  predicate CutOff(e: Event) {
    e == IntentRecorded("cellular.disconnect", true) || e == IntentRecorded("device.poweroff", true)
  }

  predicate BackOn(e: Event) {
    e == IntentRecorded("cellular.connect", true) || e == PauseLifted
  }

  /** A recorded cut leaves the pause set until it is lifted. */
  lemma {:induction false} PausedSince(log: seq<Event>, i: nat)
    requires i < |log| && CutOff(log[i])
    requires forall k :: i < k < |log| ==> !BackOn(log[k])
    ensures Paused(log)
    decreases |log|
  {
    var init := log[..|log| - 1];
    if i < |init| {
      PausedSince(init, i);
      assert !BackOn(log[|init|]);
    }
  }

  /** In every interleaving: after a saved "cellular.disconnect" or
      "device.poweroff" no automatic action runs before a saved
      "cellular.connect" or a saved resume, restarts included. */
  lemma NothingRunsWhileCutOff(y: Sys, acts: seq<Act>, i: nat, j: nat)
    requires InitialSys(y) && Interleaving(y, acts)
    requires var log := DoAll(y, acts).log; i < j < |log| && CutOff(log[i]) && log[j].AutomaticRan?
    ensures var log := DoAll(y, acts).log; exists k :: i < k < j && BackOn(log[k])
  {
    AutomaticActionsAreJustified(y, acts, j);
    var log := DoAll(y, acts).log;
    if forall k :: i < k < j ==> !BackOn(log[k]) {
      var before := log[..j];
      assert before[i] == log[i];
      assert forall k :: i < k < |before| ==> before[k] == log[k];
      PausedSince(before, i);
    }
  }
}
