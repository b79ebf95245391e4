/** Whole runs of the recovery controller, measured in elapsed time.

    A run interleaves the controller's operations with time passing, announced
    clock changes, failed writes and restarts. Outside an announced change the
    wall clock may lag or step back but never gains on elapsed time; a restart
    happens only when no announced change is waiting to be absorbed. */
module RecoveryRuns {
  import opened Common
  import opened NetworkRecovery

  /** One issued plan, with what the properties below need to know about it. */
  datatype Issue = Issue(
    at: nat,          // elapsed seconds
    reboot: bool,
    cooldown: nat,    // configured when it was issued
    maxRedials: nat,  // configured when it was issued
    changes: nat,     // clock changes announced before it
    resetAt: nat)     // number of plans before the last counter reset

  datatype World = World(
    elapsed: nat,
    wall: Wall,
    changing: bool,
    clockGen: nat,
    changes: nat,
    node: Node,
    history: seq<Issue>,
    marks: seq<nat>,  // which plan each recorded action time stands for
    resetAt: nat)

  datatype Step =
    | Pass(seconds: nat, wall: Wall)
    | BeginChange
    | SetClock(wall: Wall)
    | EndChange
    | Restart
    | SetConfig(config: Config, saved: bool)
    | Resume(saved: bool)
    | Intent(action: string, saved: bool)
    | Hold
    | MayProbe(saved: bool)
    | Observe(online: bool, savedProbe: bool, saved: bool)

  predicate Synced(w: World) {
    !w.changing && w.node.mem.clockGeneration == w.clockGen
  }

  predicate Allowed(w: World, s: Step) {
    match s
    case Pass(d, wall) => wall - w.wall <= d
    case BeginChange => !w.changing
    case SetClock(_) => w.changing
    case EndChange => w.changing
    case Restart => Synced(w)
    case _ => true
  }

  /** The marks that survive `Recent`, in step with the times they belong to. */
  function RecentMarks(times: seq<U64>, marks: seq<nat>, now: Wall): (r: seq<nat>)
    requires |times| == |marks|
    ensures |r| == |Recent(times, now)|
  {
    if times == [] then []
    else (if Minus(now, times[0]) < 3600 then [marks[0]] else []) + RecentMarks(times[1..], marks[1..], now)
  }

  function StoredOf(w: World): Stored {
    w.node.mem.stored
  }

  predicate Ready(w: World) {
    InBounds(StoredOf(w)) && |w.marks| == |StoredOf(w).actionTimes|
  }

  /** The world after a plan was issued, as a value of its parts. */
  function Issued(w: World, node: Node, reboot: bool): World
    requires Ready(w)
  {
    var c := StoredOf(w).config;
    w.(node := node,
       history := w.history + [Issue(w.elapsed, reboot, c.cooldown, c.maxRedials, w.changes, w.resetAt)],
       marks := RecentMarks(StoredOf(w).actionTimes, w.marks, w.wall) + [|w.history|])
  }

  /** What an answer of `observe` makes of the world. */
  function Concluded(w: World, node: Node, plan: Option<Plan>): World
    requires Ready(w)
  {
    if plan.None? then
      w.(node := node, resetAt := if node.mem.stored.redials < StoredOf(w).redials then |w.history| else w.resetAt)
    else
      Issued(w, node, plan.value.reboot)
  }

  function OnObserve(w: World, online: bool, savedProbe: bool, saved: bool): World
    requires Ready(w)
  {
    var (node, plan) := Observed(w.node, online, w.changing, w.clockGen, w.wall, savedProbe, saved);
    Concluded(w, node, plan)
  }

  function OnRestart(w: World): World {
    w.(clockGen := 0, node := w.node.(mem := Loaded(w.node.disk, w.wall, 0)))
  }

  /** One step. Every reachable world is `Ready` (see `RunKeepsInv`). */
  function Next(w: World, s: Step): World {
    if !Ready(w) then w else
    match s
    case Pass(d, wall) => w.(elapsed := w.elapsed + d, wall := wall)
    case BeginChange => w.(changing := true, changes := w.changes + 1)
    case SetClock(wall) => w.(wall := wall)
    case EndChange => w.(changing := false, clockGen := w.clockGen + 1)
    case Restart => OnRestart(w)
    case SetConfig(config, saved) =>
      var u := Updated(w.node, config, w.wall, saved);
      if u.Invalid? then w else w.(node := u.node)
    case Resume(saved) =>
      w.(node := Resumed(w.node, w.wall, saved), resetAt := if saved then |w.history| else w.resetAt)
    case Intent(action, saved) => w.(node := Intended(w.node, action, w.wall, saved))
    case Hold => w.(node := Held(w.node))
    case MayProbe(saved) => w.(node := Probed(w.node, w.changing, w.clockGen, w.wall, saved).0)
    case Observe(online, savedProbe, saved) => OnObserve(w, online, savedProbe, saved)
  }

  // ---- What is promised of the history of issued plans ----

  function Redials(h: seq<Issue>, lo: nat, hi: nat): nat
    requires lo <= hi <= |h|
  {
    if lo == hi then 0 else Redials(h, lo, hi - 1) + (if h[hi - 1].reboot then 0 else 1)
  }

  /** How a plan must stand to all earlier ones. */
  predicate Follows(h: seq<Issue>, e: Issue) {
    && (forall i :: 0 <= i < |h| ==>
          && e.at - h[i].at >= 180
          && (h[i].changes == e.changes ==> e.at - h[i].at >= h[i].cooldown)
          && (h[i].reboot && e.reboot ==> e.at - h[i].at >= 21600))
    && (forall i :: 0 <= i <= |h| - 5 ==> e.at - h[i].at >= 3600)
    && (e.reboot ==> e.resetAt <= |h| && Redials(h, e.resetAt, |h|) >= e.maxRedials >= 1)
  }

  predicate Good(h: seq<Issue>) {
    h == [] || (Good(h[..|h| - 1]) && Follows(h[..|h| - 1], h[|h| - 1]))
  }

  // ---- The invariant ----

  /** Memory agrees with the file, and the file will be accepted when reloaded. */
  predicate Saved(n: Node) {
    InBounds(n.mem.stored) && ((n.disk == Absent && n.mem.stored == DEFAULT_STORED) || n.disk == Holds(n.mem.stored))
  }

  /** The marks name different plans, and every plan of the last hour. */
  predicate Ledger(marks: seq<nat>, h: seq<Issue>, elapsed: nat) {
    && (forall i :: 0 <= i < |marks| ==> marks[i] < |h|)
    && Increasing(marks)
    && (forall k :: 0 <= k < |h| ==> k in marks || elapsed - h[k].at >= 3600)
  }

  // Recorded times never make a plan look older than it is.

  predicate TimesTied(times: seq<U64>, marks: seq<nat>, h: seq<Issue>, wall: Wall, elapsed: nat) {
    |times| == |marks| && forall i :: 0 <= i < |marks| && marks[i] < |h| ==> wall - times[i] <= elapsed - h[marks[i]].at
  }

  predicate NextTied(next: U64, h: seq<Issue>, wall: Wall, elapsed: nat, changes: nat) {
    forall k :: 0 <= k < |h| ==>
      && wall - next <= elapsed - h[k].at - 180
      && (h[k].changes == changes ==> wall - next <= elapsed - h[k].at - h[k].cooldown)
  }

  predicate RebootTied(last: U64, h: seq<Issue>, wall: Wall, elapsed: nat) {
    forall k :: 0 <= k < |h| && h[k].reboot ==> wall - last <= elapsed - h[k].at
  }

  predicate Tied(w: World) {
    && TimesTied(StoredOf(w).actionTimes, w.marks, w.history, w.wall, w.elapsed)
    && NextTied(StoredOf(w).nextAllowed, w.history, w.wall, w.elapsed, w.changes)
    && RebootTied(StoredOf(w).lastReboot, w.history, w.wall, w.elapsed)
  }

  /** No plan lies ahead, and none was issued while a clock change was open. */
  predicate Dated(h: seq<Issue>, elapsed: nat, changes: nat, synced: bool) {
    forall k :: 0 <= k < |h| ==>
      && h[k].at <= elapsed && h[k].changes <= changes
      && (h[k].changes == changes ==> synced)
  }

  predicate RebootsRecorded(h: seq<Issue>, last: U64) {
    last == 0 ==> forall k :: 0 <= k < |h| ==> !h[k].reboot
  }

  predicate RedialsCounted(redials: nat, h: seq<Issue>, resetAt: nat) {
    resetAt <= |h| && redials == Redials(h, resetAt, |h|)
  }

  predicate Inv(w: World) {
    && Saved(w.node)
    && w.node.mem.clockGeneration <= w.clockGen
    && |w.marks| == |StoredOf(w).actionTimes|
    && Ledger(w.marks, w.history, w.elapsed)
    && RedialsCounted(StoredOf(w).redials, w.history, w.resetAt)
    && Dated(w.history, w.elapsed, w.changes, Synced(w))
    && RebootsRecorded(w.history, StoredOf(w).lastReboot)
    && (Synced(w) ==> Tied(w))
    && Good(w.history)
  }

  predicate Initial(w: World) {
    && w.node == Node(Loaded(Absent, w.wall, w.clockGen), Absent)
    && !w.changing && w.history == [] && w.marks == [] && w.resetAt == 0
  }

  // ---- Preservation ----

  lemma InitialInv(w: World)
    requires Initial(w)
    ensures Inv(w)
  {
    DefaultIsValid();
  }

  /** Operations that leave the budgets alone and at most postpone the next plan. */
  lemma QuietStep(w: World, node: Node)
    requires Inv(w)
    requires node.mem.clockGeneration == w.node.mem.clockGeneration
    requires Saved(node)
    requires var s, t := StoredOf(w), node.mem.stored;
      && t.actionTimes == s.actionTimes && t.lastReboot == s.lastReboot
      && t.nextAllowed >= s.nextAllowed && t.redials == s.redials
    ensures Inv(w.(node := node))
  {}

  lemma ResetStep(w: World, node: Node)
    requires Inv(w)
    requires node.mem.clockGeneration == w.node.mem.clockGeneration
    requires Saved(node)
    requires var s, t := StoredOf(w), node.mem.stored;
      && t.actionTimes == s.actionTimes && t.lastReboot == s.lastReboot
      && t.nextAllowed >= s.nextAllowed && t.redials == 0
    ensures Inv(w.(node := node, resetAt := |w.history|))
  {}

  /** After an absorbed change every budget starts anew. */
  lemma RefilledTied(w: World, s: Stored)
    requires Ledger(w.marks, w.history, w.elapsed) && Dated(w.history, w.elapsed, w.changes, false)
    requires |s.actionTimes| == |w.marks| && 180 <= s.config.cooldown <= 3600
    requires RebootsRecorded(w.history, s.lastReboot)
    ensures var t := Refilled(s, w.wall);
      && TimesTied(t.actionTimes, w.marks, w.history, w.wall, w.elapsed)
      && NextTied(t.nextAllowed, w.history, w.wall, w.elapsed, w.changes)
      && RebootTied(t.lastReboot, w.history, w.wall, w.elapsed)
  {}

  lemma AbsorbStep(w: World, saved: bool)
    requires Inv(w) && !w.changing
    ensures Inv(w.(node := Absorbed(w.node, w.clockGen, w.wall, saved)))
  {
    if w.node.mem.clockGeneration != w.clockGen {
      RefilledTied(w, StoredOf(w));
    }
  }

  lemma ProbedIsAbsorbed(n: Node, changing: bool, gen: nat, now: Wall, saved: bool)
    requires n.mem.stored.config.cooldown <= 3600
    ensures var p := Probed(n, changing, gen, now, saved).0; var a := if changing then n else Absorbed(n, gen, now, saved);
      p == WithStatus(a, p.mem.status)
  {}

  lemma StatusStep(w: World, status: Status)
    requires Inv(w)
    ensures Inv(w.(node := WithStatus(w.node, status)))
  {}

  lemma ProbeStep(w: World, saved: bool)
    requires Inv(w)
    ensures Inv(w.(node := Probed(w.node, w.changing, w.clockGen, w.wall, saved).0))
  {
    var p := Probed(w.node, w.changing, w.clockGen, w.wall, saved).0;
    ProbedIsAbsorbed(w.node, w.changing, w.clockGen, w.wall, saved);
    if w.changing {
      StatusStep(w, p.mem.status);
    } else {
      AbsorbStep(w, saved);
      StatusStep(w.(node := Absorbed(w.node, w.clockGen, w.wall, saved)), p.mem.status);
    }
  }

  /** After an absorbed change the start-up wait is running, so probing is refused. */
  lemma ReadyToProbe(n: Node, changing: bool, gen: nat, now: Wall, saved: bool)
    requires n.mem.stored.config.cooldown <= 3600 && Probed(n, changing, gen, now, saved).1
    ensures Probed(n, changing, gen, now, saved).0 == n
    ensures !changing && n.mem.clockGeneration == gen && !ClockBehind(n.mem.stored, now)
    ensures n.mem.stored.config.enabled && n.mem.storageOk
  {}

  /** Every kept time and mark come from one recorded position. */
  lemma {:induction false} RecentSource(times: seq<U64>, marks: seq<nat>, now: Wall, k: nat) returns (i: nat)
    requires |times| == |marks| && k < |Recent(times, now)|
    ensures i < |times|
    ensures Recent(times, now)[k] == times[i] && RecentMarks(times, marks, now)[k] == marks[i]
  {
    var d := if Minus(now, times[0]) < 3600 then 1 else 0;
    if k < d {
      i := 0;
    } else {
      i := RecentSource(times[1..], marks[1..], now, k - d);
      i := i + 1;
    }
  }

  predicate Increasing(m: seq<nat>) {
    forall i, j :: 0 <= i < j < |m| ==> m[i] < m[j]
  }

  lemma {:induction false} RecentOrdered(times: seq<U64>, marks: seq<nat>, now: Wall)
    requires |times| == |marks| && Increasing(marks)
    ensures Increasing(RecentMarks(times, marks, now))
  {
    if times != [] {
      RecentOrdered(times[1..], marks[1..], now);
      var m := RecentMarks(times[1..], marks[1..], now);
      forall k | 0 <= k < |m|
        ensures marks[0] < m[k]
      {
        var i := RecentSource(times[1..], marks[1..], now, k);
        assert m[k] == marks[i + 1];
      }
      assert Increasing([marks[0]] + m);
    }
  }

  /** `Recent` drops a time only when it is an hour old. */
  lemma {:induction false} RecentKeeps(times: seq<U64>, marks: seq<nat>, now: Wall, i: nat)
    requires |times| == |marks| && i < |times| && Minus(now, times[i]) < 3600
    ensures marks[i] in RecentMarks(times, marks, now)
  {
    if i > 0 {
      RecentKeeps(times[1..], marks[1..], now, i - 1);
    }
  }

  /** Five different plans cannot share fewer than five marks. */
  lemma FiveMarks(marks: seq<nat>, lo: nat)
    requires forall k :: lo <= k < lo + 5 ==> k in marks
    ensures |marks| >= 5
  {
    var plans := {lo, lo + 1, lo + 2, lo + 3, lo + 4};
    assert |plans| == 5;
    SubsetSize(plans, marks);
  }

  lemma {:induction false} SubsetSize(s: set<nat>, marks: seq<nat>)
    requires forall x :: x in s ==> x in marks
    ensures |s| <= |marks|
  {
    if marks == [] {
      assert forall x :: x !in s;
    } else {
      SubsetSize(s - {marks[0]}, marks[1..]);
    }
  }

  /** The marks kept while a plan is issued still cover the last hour. */
  lemma LedgerAfterRecent(w: World)
    requires Inv(w) && Synced(w)
    ensures var s := StoredOf(w); var r, m := Recent(s.actionTimes, w.wall), RecentMarks(s.actionTimes, w.marks, w.wall);
      && (forall i :: 0 <= i < |m| ==> m[i] < |w.history| && w.wall - r[i] <= w.elapsed - w.history[m[i]].at)
      && Increasing(m)
      && (forall k :: 0 <= k < |w.history| ==> k in m || w.elapsed - w.history[k].at >= 3600)
  {
    var s := StoredOf(w);
    RecentOrdered(s.actionTimes, w.marks, w.wall);
    var m := RecentMarks(s.actionTimes, w.marks, w.wall);
    forall i | 0 <= i < |m|
      ensures m[i] < |w.history|
      ensures w.wall - Recent(s.actionTimes, w.wall)[i] <= w.elapsed - w.history[m[i]].at
    {
      var k := RecentSource(s.actionTimes, w.marks, w.wall, i);
    }
    forall k | 0 <= k < |w.history|
      ensures k in m || w.elapsed - w.history[k].at >= 3600
    {
      if k in w.marks {
        var i :| 0 <= i < |w.marks| && w.marks[i] == k;
        if Minus(w.wall, s.actionTimes[i]) < 3600 {
          RecentKeeps(s.actionTimes, w.marks, w.wall, i);
        }
      }
    }
  }

  lemma {:induction false} GoodPair(h: seq<Issue>, i: int, j: int)
    requires Good(h) && 0 <= i < j < |h|
    ensures Follows(h[..j], h[j])
    ensures h[..j][i] == h[i] && h[j].at - h[i].at >= 180
  {
    if j < |h| - 1 {
      GoodPair(h[..|h| - 1], i, j);
      assert h[..|h| - 1][..j] == h[..j];
    }
  }

  lemma BudgetHolds(w: World, i: int)
    requires Inv(w) && Synced(w)
    requires |Recent(StoredOf(w).actionTimes, w.wall)| < 5
    requires 0 <= i && i + 5 <= |w.history|
    ensures w.elapsed - w.history[i].at >= 3600
  {
    LedgerAfterRecent(w);
    var m := RecentMarks(StoredOf(w).actionTimes, w.marks, w.wall);
    if w.elapsed - w.history[i].at < 3600 {
      forall k | i <= k < i + 5
        ensures k in m
      {
        if i < k {
          GoodPair(w.history, i, k);
        }
      }
      FiveMarks(m, i);
      assert false;
    }
  }

  lemma {:induction false} RedialsAppend(h: seq<Issue>, e: Issue, lo: nat, hi: nat)
    requires lo <= hi <= |h|
    ensures Redials(h + [e], lo, hi) == Redials(h, lo, hi)
  {
    if lo < hi {
      RedialsAppend(h, e, lo, hi - 1);
    }
  }

  lemma HistoryGrows(w: World, issue: Issue)
    requires Inv(w) && Synced(w)
    requires Refusal(StoredOf(w), w.wall).None? && !ClockBehind(StoredOf(w), w.wall)
    requires var c := StoredOf(w).config;
      issue == Issue(w.elapsed, StoredOf(w).redials >= c.maxRedials, c.cooldown, c.maxRedials, w.changes, w.resetAt)
    ensures Good(w.history + [issue])
  {
    var h := w.history;
    forall i | 0 <= i <= |h| - 5
      ensures issue.at - h[i].at >= 3600
    {
      BudgetHolds(w, i);
    }
    assert Follows(h, issue);
    assert (h + [issue])[..|h|] == h;
  }

  /** The marks kept while a plan is issued, with the new one. */
  function IssuedMarks(w: World): seq<nat>
    requires Ready(w)
  {
    RecentMarks(StoredOf(w).actionTimes, w.marks, w.wall) + [|w.history|]
  }

  lemma IssuedLedger(w: World, e: Issue)
    requires Inv(w) && Synced(w) && e.at == w.elapsed
    ensures Ledger(IssuedMarks(w), w.history + [e], w.elapsed)
  {
    LedgerAfterRecent(w);
    var m := RecentMarks(StoredOf(w).actionTimes, w.marks, w.wall);
    LedgerGrows(m, w.history, e);
  }

  lemma LedgerGrows(m: seq<nat>, h: seq<Issue>, e: Issue)
    requires Ledger(m, h, e.at)
    ensures Ledger(m + [|h|], h + [e], e.at)
  {
    forall k | 0 <= k < |h| + 1
      ensures k in m + [|h|] || e.at - (h + [e])[k].at >= 3600
    {
      if k == |h| {
        assert (m + [|h|])[|m|] == k;
      } else {
        assert (h + [e])[k] == h[k];
        assert k in m ==> k in m + [|h|];
      }
    }
  }

  lemma TimesGrow(t: seq<U64>, m: seq<nat>, h: seq<Issue>, e: Issue, wall: Wall)
    requires TimesTied(t, m, h, wall, e.at) && Ledger(m, h, e.at)
    ensures TimesTied(t + [wall], m + [|h|], h + [e], wall, e.at)
  {}

  lemma NextGrows(next: U64, h: seq<Issue>, e: Issue, wall: Wall)
    requires NextTied(next, h, wall, e.at, e.changes) && next <= wall && 180 <= e.cooldown <= 3600
    ensures NextTied(wall + e.cooldown, h + [e], wall, e.at, e.changes)
  {}

  lemma RebootGrows(last: U64, h: seq<Issue>, e: Issue, wall: Wall)
    requires RebootTied(last, h, wall, e.at) && last <= wall
    requires RebootsRecorded(h, last)
    requires forall k :: 0 <= k < |h| ==> h[k].at <= e.at
    ensures RebootTied(if e.reboot then wall else last, h + [e], wall, e.at)
    ensures RebootsRecorded(h + [e], if e.reboot then wall else last)
  {}

  lemma RedialsGrow(redials: nat, h: seq<Issue>, e: Issue, resetAt: nat)
    requires RedialsCounted(redials, h, resetAt)
    ensures RedialsCounted(if e.reboot then redials else redials + 1, h + [e], resetAt)
  {
    RedialsAppend(h, e, resetAt, |h|);
    assert (h + [e])[|h|] == e;
  }

  lemma DatedGrows(h: seq<Issue>, e: Issue)
    requires Dated(h, e.at, e.changes, true)
    ensures Dated(h + [e], e.at, e.changes, true)
  {}

  lemma IssuedTimes(w: World, e: Issue)
    requires Inv(w) && Synced(w) && e.at == w.elapsed
    ensures TimesTied(Recent(StoredOf(w).actionTimes, w.wall) + [w.wall], IssuedMarks(w), w.history + [e], w.wall, w.elapsed)
  {
    LedgerAfterRecent(w);
    var s := StoredOf(w);
    TimesGrow(Recent(s.actionTimes, w.wall), RecentMarks(s.actionTimes, w.marks, w.wall), w.history, e, w.wall);
  }

  lemma IssuedNext(w: World, e: Issue)
    requires Inv(w) && Synced(w) && e.at == w.elapsed && e.changes == w.changes
    requires e.cooldown == StoredOf(w).config.cooldown && StoredOf(w).nextAllowed <= w.wall
    ensures NextTied(w.wall + e.cooldown, w.history + [e], w.wall, w.elapsed, w.changes)
    ensures Dated(w.history + [e], w.elapsed, w.changes, true)
  {
    NextGrows(StoredOf(w).nextAllowed, w.history, e, w.wall);
    DatedGrows(w.history, e);
  }

  lemma IssuedCounts(w: World, e: Issue)
    requires Inv(w) && Synced(w) && e.at == w.elapsed && StoredOf(w).lastReboot <= w.wall
    ensures var s := Booked(StoredOf(w), w.wall, e.reboot); var h := w.history + [e];
      && RebootTied(s.lastReboot, h, w.wall, w.elapsed) && RebootsRecorded(h, s.lastReboot)
      && RedialsCounted(s.redials, h, w.resetAt)
  {
    var s := StoredOf(w);
    RebootGrows(s.lastReboot, w.history, e, w.wall);
    RedialsGrow(s.redials, w.history, e, w.resetAt);
  }

  /** The new plan in the books. */
  lemma IssuedInv(w: World, node: Node, reboot: bool)
    requires Inv(w) && Synced(w)
    requires StoredOf(w).nextAllowed <= w.wall && StoredOf(w).lastReboot <= w.wall
    requires Good(Issued(w, node, reboot).history)
    requires Saved(node) && node.mem.clockGeneration == w.node.mem.clockGeneration
    requires node.mem.stored == Booked(StoredOf(w), w.wall, reboot)
    ensures Inv(Issued(w, node, reboot))
  {
    var v := Issued(w, node, reboot);
    var e := v.history[|w.history|];
    IssuedLedger(w, e);
    IssuedTimes(w, e);
    IssuedNext(w, e);
    IssuedCounts(w, e);
  }

  /** What `observe` has established when it issues a plan. */
  lemma PlanShape(n: Node, now: Wall, saved: bool)
    requires InBounds(n.mem.stored) && SeenOffline(n, now, saved).1.Some?
    ensures var (m, plan) := SeenOffline(n, now, saved); var s := n.mem.stored;
      && m.mem.stored == Booked(s, now, plan.value.reboot)
      && Saved(m) && m.mem.clockGeneration == n.mem.clockGeneration
      && plan.value.reboot == (s.redials >= s.config.maxRedials)
      && Refusal(s, now).None? && s.nextAllowed <= now
  {}

  lemma IssueStep(w: World, saved: bool)
    requires Inv(w) && Synced(w) && !ClockBehind(StoredOf(w), w.wall)
    requires SeenOffline(w.node, w.wall, saved).1.Some?
    ensures var (node, plan) := SeenOffline(w.node, w.wall, saved); Inv(Issued(w, node, plan.value.reboot))
  {
    var (node, plan) := SeenOffline(w.node, w.wall, saved);
    PlanShape(w.node, w.wall, saved);
    IssueBooked(w, node, plan.value.reboot);
  }

  lemma IssueBooked(w: World, node: Node, reboot: bool)
    requires Inv(w) && Synced(w) && !ClockBehind(StoredOf(w), w.wall)
    requires node.mem.stored == Booked(StoredOf(w), w.wall, reboot)
    requires Saved(node) && node.mem.clockGeneration == w.node.mem.clockGeneration
    requires reboot == (StoredOf(w).redials >= StoredOf(w).config.maxRedials)
    requires Refusal(StoredOf(w), w.wall).None? && StoredOf(w).nextAllowed <= w.wall
    ensures Inv(Issued(w, node, reboot))
  {
    var v := Issued(w, node, reboot);
    HistoryGrows(w, v.history[|w.history|]);
    IssuedInv(w, node, reboot);
  }

  lemma OnlineStep(w: World, saved: bool)
    requires Inv(w)
    ensures var n := SeenOnline(w.node, saved);
      Inv(w.(node := n, resetAt := if n.mem.stored.redials < StoredOf(w).redials then |w.history| else w.resetAt))
  {
    var n := SeenOnline(w.node, saved);
    if n.mem.stored.redials < StoredOf(w).redials {
      ResetStep(w, n);
    } else {
      QuietStep(w, n);
    }
  }

  lemma OfflineStep(w: World, saved: bool)
    requires Inv(w) && Synced(w) && !ClockBehind(StoredOf(w), w.wall)
    ensures var (n, plan) := SeenOffline(w.node, w.wall, saved); Inv(Concluded(w, n, plan))
  {
    var (n, plan) := SeenOffline(w.node, w.wall, saved);
    if plan.Some? {
      IssueStep(w, saved);
    } else {
      QuietStep(w, n);
    }
  }

  lemma CheckedStep(w: World, online: bool, saved: bool)
    requires Inv(w) && Synced(w) && !ClockBehind(StoredOf(w), w.wall)
    ensures var (n, plan) := if online then (SeenOnline(w.node, saved), None) else SeenOffline(w.node, w.wall, saved);
      Inv(Concluded(w, n, plan))
  {
    if online {
      OnlineStep(w, saved);
    } else {
      OfflineStep(w, saved);
    }
  }

  lemma CheckedAt(n: Node, online: bool, changing: bool, gen: nat, now: Wall, savedProbe: bool, saved: bool)
    requires n.mem.stored.config.cooldown <= 3600
    ensures var (p, ok) := Probed(n, changing, gen, now, savedProbe);
      Observed(n, online, changing, gen, now, savedProbe, saved)
      == if !ok then (p, None)
         else if online then (SeenOnline(p.(mem := p.mem.(lastCheck := now)), saved), None)
         else SeenOffline(p.(mem := p.mem.(lastCheck := now)), now, saved)
  {}

  lemma ConcludedFrame(w: World, v: World, n: Node, plan: Option<Plan>)
    requires Ready(w) && Ready(v) && v == w.(node := v.node) && StoredOf(v) == StoredOf(w)
    ensures Concluded(v, n, plan) == Concluded(w, n, plan)
  {}

  lemma ObserveStep(w: World, online: bool, savedProbe: bool, saved: bool)
    requires Inv(w)
    ensures Inv(OnObserve(w, online, savedProbe, saved))
  {
    CheckedAt(w.node, online, w.changing, w.clockGen, w.wall, savedProbe, saved);
    var (n, plan) := Observed(w.node, online, w.changing, w.clockGen, w.wall, savedProbe, saved);
    if Probed(w.node, w.changing, w.clockGen, w.wall, savedProbe).1 {
      ReadyToProbe(w.node, w.changing, w.clockGen, w.wall, savedProbe);
      var m := w.node.(mem := w.node.mem.(lastCheck := w.wall));
      QuietStep(w, m);
      CheckedStep(w.(node := m), online, saved);
      ConcludedFrame(w, w.(node := m), n, plan);
    } else {
      RefusedStep(w, savedProbe);
    }
  }

  lemma RefusedStep(w: World, saved: bool)
    requires Inv(w)
    ensures Inv(Concluded(w, Probed(w.node, w.changing, w.clockGen, w.wall, saved).0, None))
  {
    ProbeStep(w, saved);
    ProbeKeepsRedials(w.node, w.changing, w.clockGen, w.wall, saved);
  }

  lemma ProbeKeepsRedials(n: Node, changing: bool, gen: nat, now: Wall, saved: bool)
    requires n.mem.stored.config.cooldown <= 3600
    ensures Probed(n, changing, gen, now, saved).0.mem.stored.redials == n.mem.stored.redials
  {}

  lemma ClockStep(w: World, s: Step)
    requires Inv(w) && Allowed(w, s)
    requires s.Pass? || s.BeginChange? || s.SetClock? || s.EndChange?
    ensures Inv(Next(w, s))
  {}

  lemma SavedReloads(n: Node, now: Wall, gen: nat)
    requires Saved(n)
    ensures var m := Loaded(n.disk, now, gen); m.stored == n.mem.stored && m.storageOk && m.clockGeneration == gen
    ensures n.disk.Holds? ==> LoadFilter(n.disk.stored)
  {
    InBoundsFits(n.mem.stored);
  }

  lemma ReloadStep(w: World, mem: Memory)
    requires Inv(w) && Synced(w) && mem.stored == StoredOf(w) && mem.clockGeneration == 0
    ensures Inv(w.(clockGen := 0, node := w.node.(mem := mem)))
  {}

  lemma RestartStep(w: World)
    requires Inv(w) && Synced(w)
    ensures Inv(OnRestart(w))
  {
    SavedReloads(w.node, w.wall, 0);
    ReloadStep(w, Loaded(w.node.disk, w.wall, 0));
  }

  lemma ConfigStep(w: World, config: Config, saved: bool)
    requires Inv(w) && !Updated(w.node, config, w.wall, saved).Invalid?
    ensures Inv(w.(node := Updated(w.node, config, w.wall, saved).node))
  {
    QuietStep(w, Updated(w.node, config, w.wall, saved).node);
  }

  lemma ResumeStep(w: World, saved: bool)
    requires Inv(w)
    ensures Inv(w.(node := Resumed(w.node, w.wall, saved), resetAt := if saved then |w.history| else w.resetAt))
  {
    if saved {
      ResetStep(w, Resumed(w.node, w.wall, saved));
    } else {
      QuietStep(w, Resumed(w.node, w.wall, saved));
    }
  }

  lemma IntentStep(w: World, action: string, saved: bool)
    requires Inv(w)
    ensures Inv(w.(node := Intended(w.node, action, w.wall, saved)))
  {
    QuietStep(w, Intended(w.node, action, w.wall, saved));
  }

  lemma StepKeepsInv(w: World, s: Step)
    requires Inv(w) && Allowed(w, s)
    ensures Inv(Next(w, s))
  {
    match s
    case SetConfig(config, saved) =>
      if !Updated(w.node, config, w.wall, saved).Invalid? {
        ConfigStep(w, config, saved);
      }
    case Resume(saved) => ResumeStep(w, saved);
    case Intent(action, saved) => IntentStep(w, action, saved);
    case Hold => QuietStep(w, Held(w.node));
    case MayProbe(saved) => ProbeStep(w, saved);
    case Observe(online, savedProbe, saved) => ObserveStep(w, online, savedProbe, saved);
    case Restart => RestartStep(w);
    case _ => ClockStep(w, s);
  }

  // ---- Runs ----

  predicate Legal(w: World, steps: seq<Step>)
    decreases |steps|
  {
    steps == [] || (Allowed(w, steps[0]) && Legal(Next(w, steps[0]), steps[1..]))
  }

  function Run(w: World, steps: seq<Step>): World
    decreases |steps|
  {
    if steps == [] then w else Run(Next(w, steps[0]), steps[1..])
  }

  lemma {:induction false} RunKeepsInv(w: World, steps: seq<Step>)
    requires Inv(w) && Legal(w, steps)
    ensures Inv(Run(w, steps))
    decreases |steps|
  {
    if steps != [] {
      StepKeepsInv(w, steps[0]);
      RunKeepsInv(Next(w, steps[0]), steps[1..]);
    }
  }

  /** Reloading after any run restores exactly the state in memory. */
  lemma SavedStatesReload(w: World, steps: seq<Step>, now: Wall, gen: nat)
    requires Initial(w) && Legal(w, steps)
    ensures var n := Run(w, steps).node;
      && Loaded(n.disk, now, gen).stored == n.mem.stored
      && Loaded(n.disk, now, gen).storageOk
      && (n.disk.Holds? ==> LoadFilter(n.disk.stored))
  {
    InitialInv(w);
    RunKeepsInv(w, steps);
    SavedReloads(Run(w, steps).node, now, gen);
  }

  function Between(h: seq<Issue>, from: int, to: int): set<nat> {
    set i: nat | i < |h| && from <= h[i].at < to
  }

  lemma {:induction false} WindowOfFive(h: seq<Issue>, from: int, lo: nat)
    requires Good(h) && lo <= |h|
    requires forall i :: 0 <= i < lo ==> h[i].at < from
    ensures |Between(h, from, from + 3600)| <= 5
    decreases |h| - lo
  {
    var s := Between(h, from, from + 3600);
    if lo < |h| && h[lo].at < from {
      WindowOfFive(h, from, lo + 1);
    } else {
      forall i | i in s
        ensures i in [lo, lo + 1, lo + 2, lo + 3, lo + 4]
      {
        if i >= lo + 5 {
          GoodPair(h, lo, i);
        }
      }
      SubsetSize(s, [lo, lo + 1, lo + 2, lo + 3, lo + 4]);
    }
  }

  /** No window of 3600 elapsed seconds holds more than five plans. */
  lemma AtMostFivePlansAnHour(w: World, steps: seq<Step>, from: int)
    requires Initial(w) && Legal(w, steps)
    ensures |Between(Run(w, steps).history, from, from + 3600)| <= 5
  {
    InitialInv(w);
    RunKeepsInv(w, steps);
    WindowOfFive(Run(w, steps).history, from, 0);
  }

  /** Any two plans, any two reboots, and what a reboot presupposes. */
  lemma PlansAreSpaced(w: World, steps: seq<Step>, i: nat, j: nat)
    requires Initial(w) && Legal(w, steps) && i < j < |Run(w, steps).history|
    ensures var h := Run(w, steps).history;
      && h[j].at - h[i].at >= 180
      && (h[i].changes == h[j].changes ==> h[j].at - h[i].at >= h[i].cooldown)
      && (h[i].reboot && h[j].reboot ==> h[j].at - h[i].at >= 21600)
  {
    InitialInv(w);
    RunKeepsInv(w, steps);
    GoodPair(Run(w, steps).history, i, j);
  }

  lemma {:induction false} GoodReboot(h: seq<Issue>, j: nat)
    requires Good(h) && j < |h| && h[j].reboot
    ensures h[j].resetAt <= j && Redials(h[..j], h[j].resetAt, j) >= h[j].maxRedials >= 1
  {
    if j < |h| - 1 {
      GoodReboot(h[..|h| - 1], j);
      assert h[..|h| - 1][..j] == h[..j];
    }
  }

  /** A reboot is planned only after the configured number of redials. */
  lemma RebootsAreEarned(w: World, steps: seq<Step>, j: nat)
    requires Initial(w) && Legal(w, steps) && j < |Run(w, steps).history| && Run(w, steps).history[j].reboot
    ensures var h := Run(w, steps).history;
      h[j].resetAt <= j && Redials(h[..j], h[j].resetAt, j) >= h[j].maxRedials >= 1
  {
    InitialInv(w);
    RunKeepsInv(w, steps);
    GoodReboot(Run(w, steps).history, j);
  }
}
