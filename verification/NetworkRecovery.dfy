/** The persistent network-recovery controller (rust/src/network_recovery.rs).

    `Memory` is the value of one `Recovery` object, `Disk` the content of
    network-recovery.json, and `Node` the pair. The result of each write
    (`saved`) is chosen by the environment; so are the clock readings. */
module NetworkRecovery {
  import opened Common

  /** A positive wall-clock reading in seconds, far from the u64 limit. */
  type Wall = n: int | 1 <= n < 0x8000_0000_0000_0000 witness 1

  /** A probe URL: its text (one character per byte) and the verdict of the URL
      library on it (https, default port, no credentials, query or fragment,
      public host). */
  datatype ProbeUrl = ProbeUrl(raw: string, publicHttps: bool)

  predicate Printable(c: char) {
    33 <= c as int && c as int != 127
  }

  predicate ValidProbeUrl(url: ProbeUrl) {
    |url.raw| <= 200 && (forall i :: 0 <= i < |url.raw| ==> Printable(url.raw[i])) && url.publicHttps
  }

  function LowerChar(c: char): char {
    if 'A' <= c <= 'Z' then (c as int + 32) as char else c
  }

  function Lower(s: string): string {
    seq(|s|, i requires 0 <= i < |s| => LowerChar(s[i]))
  }

  /** The same letter, or its capital. */
  predicate SameLetter(c: char, d: char) {
    || c == d
    || ('A' <= c <= 'Z' && d as int - c as int == 32) || ('A' <= d <= 'Z' && c as int - d as int == 32)
  }

  lemma SameLetterExactly(c: char, d: char)
    ensures LowerChar(c) == LowerChar(d) <==> SameLetter(c, d)
  {}

  /** Texts count as equal exactly when they differ in the case of ASCII letters only. */
  lemma LowerExactly(s: string, t: string)
    ensures Lower(s) == Lower(t) <==> |s| == |t| && forall i :: 0 <= i < |s| ==> SameLetter(s[i], t[i])
  {
    forall i | 0 <= i < |s| && i < |t|
      ensures LowerChar(s[i]) == LowerChar(t[i]) <==> SameLetter(s[i], t[i])
    {
      SameLetterExactly(s[i], t[i]);
    }
    if Lower(s) == Lower(t) {
      assert |s| == |Lower(s)| == |Lower(t)| == |t|;
      forall i | 0 <= i < |s|
        ensures SameLetter(s[i], t[i])
      {
        assert Lower(s)[i] == Lower(t)[i];
      }
    }
  }

  /** Every URL is acceptable and, ignoring case, new. */
  predicate ValidUrls(urls: seq<ProbeUrl>, seen: set<string>) {
    urls == [] || (&& ValidProbeUrl(urls[0]) && Lower(urls[0].raw) !in seen
                   && ValidUrls(urls[1..], seen + {Lower(urls[0].raw)}))
  }

  datatype Config = Config(
    enabled: bool,
    interval: U64,
    failureThreshold: nat,
    cooldown: U64,
    maxRedials: nat,
    rebootAfterFailures: bool,
    probeUrls: seq<ProbeUrl>)
  {
    predicate Valid() {
      && interval in [30, 60, 120]
      && 3 <= failureThreshold <= 10
      && 180 <= cooldown <= 3600
      && 1 <= maxRedials <= 5
      && 1 <= |probeUrls| <= 4
      && ValidUrls(probeUrls, {})
    }
  }

  lemma {:induction false} UrlsExactly(urls: seq<ProbeUrl>, seen: set<string>)
    ensures ValidUrls(urls, seen) <==>
      && (forall i :: 0 <= i < |urls| ==> ValidProbeUrl(urls[i]) && Lower(urls[i].raw) !in seen)
      && (forall i, j :: 0 <= i < j < |urls| ==> Lower(urls[i].raw) != Lower(urls[j].raw))
  {
    if urls != [] {
      var more := seen + {Lower(urls[0].raw)};
      UrlsExactly(urls[1..], more);
      if ValidUrls(urls, seen) {
        forall i | 0 <= i < |urls|
          ensures ValidProbeUrl(urls[i]) && Lower(urls[i].raw) !in seen
          ensures i > 0 ==> Lower(urls[i].raw) != Lower(urls[0].raw)
        {
          assert i > 0 ==> urls[i] == urls[1..][i - 1];
        }
        forall i, j | 0 <= i < j < |urls|
          ensures Lower(urls[i].raw) != Lower(urls[j].raw)
        {
          assert i > 0 ==> urls[i] == urls[1..][i - 1];
          assert urls[j] == urls[1..][j - 1];
        }
      }
    }
  }

  /** Which configurations are accepted: the addresses are acceptable one by one and
      differ, ignoring case, two by two. */
  lemma ValidExactly(c: Config)
    ensures c.Valid() <==>
      && (c.interval == 30 || c.interval == 60 || c.interval == 120)
      && 3 <= c.failureThreshold <= 10 && 180 <= c.cooldown <= 3600 && 1 <= c.maxRedials <= 5
      && 1 <= |c.probeUrls| <= 4
      && (forall i :: 0 <= i < |c.probeUrls| ==> ValidProbeUrl(c.probeUrls[i]))
      && (forall i, j :: 0 <= i < j < |c.probeUrls| ==> Lower(c.probeUrls[i].raw) != Lower(c.probeUrls[j].raw))
  {
    UrlsExactly(c.probeUrls, {});
  }

  const BAIDU := "https://www.baidu.com/"
  const QQ := "https://www.qq.com/"
  const CLOUDFLARE := "https://cp.cloudflare.com/generate_204"

  const DEFAULT_CONFIG := Config(false, 60, 3, 300, 3, false,
    [ProbeUrl(BAIDU, true), ProbeUrl(QQ, true), ProbeUrl(CLOUDFLARE, true)])

  lemma DefaultTexts()
    ensures |BAIDU| == 22 && |QQ| == 19 && |CLOUDFLARE| == 38
    ensures forall i :: 0 <= i < |BAIDU| ==> Printable(BAIDU[i])
    ensures forall i :: 0 <= i < |QQ| ==> Printable(QQ[i])
    ensures forall i :: 0 <= i < |CLOUDFLARE| ==> Printable(CLOUDFLARE[i])
  {}

  lemma ThreeUrls(config: Config, a: string, b: string, c: string)
    requires config == DEFAULT_CONFIG.(probeUrls := [ProbeUrl(a, true), ProbeUrl(b, true), ProbeUrl(c, true)])
    requires |a| == 22 && |b| == 19 && |c| == 38
    requires forall i :: 0 <= i < |a| ==> Printable(a[i])
    requires forall i :: 0 <= i < |b| ==> Printable(b[i])
    requires forall i :: 0 <= i < |c| ==> Printable(c[i])
    ensures config.Valid()
  {
    assert |Lower(a)| == 22 && |Lower(b)| == 19 && |Lower(c)| == 38;
    var u := config.probeUrls;
    assert u[1..] == [u[1], u[2]] && u[1..][1..] == [u[2]] && u[1..][1..][1..] == [];
    assert {} + {Lower(a)} + {Lower(b)} == {Lower(a), Lower(b)};
    assert ValidUrls(u[1..][1..], {} + {Lower(a)} + {Lower(b)});
    assert ValidUrls(u[1..], {} + {Lower(a)});
  }

  lemma DefaultIsValid()
    ensures DEFAULT_CONFIG.Valid()
  {
    DefaultTexts();
    ThreeUrls(DEFAULT_CONFIG, BAIDU, QQ, CLOUDFLARE);
  }

  datatype Stored = Stored(
    config: Config,
    paused: bool,
    redials: nat,
    nextAllowed: U64,
    lastReboot: U64,
    actionTimes: seq<U64>)

  const DEFAULT_STORED := Stored(DEFAULT_CONFIG, false, 0, 0, 0, [])

  // ---- Size of the saved JSON document ----

  function EscapedLen(s: string): nat {
    if s == [] then 0
    else (if s[0] == '"' || s[0] == '\\' then 2 else if s[0] < ' ' then 6 else 1) + EscapedLen(s[1..])
  }

  function UrlsLen(urls: seq<ProbeUrl>): nat {
    if urls == [] then 0 else 3 + EscapedLen(urls[0].raw) + UrlsLen(urls[1..])
  }

  function TimesLen(times: seq<U64>): nat {
    if times == [] then 0 else 1 + Digits(times[0]) + TimesLen(times[1..])
  }

  function BoolLen(b: bool): nat {
    if b then 4 else 5
  }

  /** Length of the compact JSON form: 210 characters of keys and punctuation,
      the values, and at most one separator per list element. */
  function JsonLen(s: Stored): nat {
    210 + BoolLen(s.config.enabled) + Digits(s.config.interval) + Digits(s.config.failureThreshold)
    + Digits(s.config.cooldown) + Digits(s.config.maxRedials) + BoolLen(s.config.rebootAfterFailures)
    + UrlsLen(s.config.probeUrls) + BoolLen(s.paused) + Digits(s.redials)
    + Digits(s.nextAllowed) + Digits(s.lastReboot) + TimesLen(s.actionTimes)
  }

  lemma {:induction false} EscapedLenBound(s: string)
    requires forall i :: 0 <= i < |s| ==> Printable(s[i])
    ensures EscapedLen(s) <= 2 * |s|
  {
    if s != [] {
      EscapedLenBound(s[1..]);
    }
  }

  lemma {:induction false} UrlsLenBound(urls: seq<ProbeUrl>, seen: set<string>)
    requires ValidUrls(urls, seen)
    ensures UrlsLen(urls) <= 403 * |urls|
  {
    if urls != [] {
      EscapedLenBound(urls[0].raw);
      UrlsLenBound(urls[1..], seen + {Lower(urls[0].raw)});
    }
  }

  lemma {:induction false} TimesLenBound(times: seq<U64>)
    ensures TimesLen(times) <= 21 * |times|
  {
    if times != [] {
      U64Digits(times[0]);
      TimesLenBound(times[1..]);
    }
  }

  /** What `load` accepts: the size limit of `read` and the three filters. */
  predicate LoadFilter(s: Stored) {
    JsonLen(s) <= 4096 && InBounds(s)
  }

  predicate InBounds(s: Stored) {
    s.config.Valid() && s.redials <= 5 && |s.actionTimes| <= 5
  }

  /** The size limit never rejects a state that is within bounds. */
  lemma InBoundsFits(s: Stored)
    requires InBounds(s)
    ensures LoadFilter(s)
  {
    UrlsLenBound(s.config.probeUrls, {});
    TimesLenBound(s.actionTimes);
    U64Digits(s.nextAllowed);
    U64Digits(s.lastReboot);
    DigitsAtMost(s.config.interval, 3);
    DigitsAtMost(s.config.failureThreshold, 2);
    DigitsAtMost(s.config.cooldown, 4);
  }

  // ---- The controller's state and operations ----

  datatype Status = Disabled | StorageFailed | Waiting | ClockUnavailable | WaitingCellular | Online
    | Offline | Cooldown | LimitReached | Rebooting | Redialing

  datatype Memory = Memory(
    stored: Stored,
    generation: nat,
    failures: nat,
    successes: nat,
    status: Status,
    lastCheck: nat,
    storageOk: bool,
    startupUntil: nat,
    clockGeneration: nat)

  datatype Disk = Absent | Unreadable | Holds(stored: Stored)

  datatype Node = Node(mem: Memory, disk: Disk)

  datatype Plan = Plan(generation: nat, reboot: bool)

  function Loaded(disk: Disk, now: Wall, clockGeneration: nat): Memory {
    var readable := disk.Holds? && LoadFilter(disk.stored);
    Memory(if readable then disk.stored else DEFAULT_STORED, 0, 0, 0, Disabled, 0,
           readable || disk.Absent?, now + 120, clockGeneration)
  }

  function Stores(n: Node, next: Stored, saved: bool): Node {
    if saved then Node(n.mem.(stored := next, storageOk := true), Holds(next))
    else n.(mem := n.mem.(storageOk := false, status := StorageFailed))
  }

  function Max(a: U64, b: U64): U64 {
    if a < b then b else a
  }

  /** The common tail of an accepted change: a new generation cancels every plan. */
  function Restarted(n: Node): Node {
    n.(mem := n.mem.(generation := n.mem.generation + 1, failures := 0, status := Waiting))
  }

  datatype Update = Invalid | Failed(node: Node) | Done(node: Node)

  function Updated(n: Node, config: Config, now: Wall, saved: bool): Update {
    if !config.Valid() then Invalid
    else
      var next := n.mem.stored.(config := config, nextAllowed := Max(n.mem.stored.nextAllowed, now + 120));
      var m := Stores(n, next, saved);
      if saved then Done(Restarted(m)) else Failed(m)
  }

  function Resumed(n: Node, now: Wall, saved: bool): Node {
    var next := n.mem.stored.(paused := false, redials := 0,
                              nextAllowed := Max(n.mem.stored.nextAllowed, now + 120));
    var m := Stores(n, next, saved);
    if saved then Restarted(m) else m
  }

  predicate Pauses(action: string) {
    action == "cellular.disconnect" || action == "device.poweroff"
  }

  predicate Unpauses(action: string) {
    action == "cellular.connect"
  }

  function PausedAfter(paused: bool, action: string): bool {
    if Pauses(action) then true else if Unpauses(action) then false else paused
  }

  /** Whether recording this intent writes the file at all. */
  predicate IntentWrites(s: Stored, action: string) {
    PausedAfter(s.paused, action) != s.paused || s.config.enabled
  }

  /** `manual_intent` followed by what `execute` does when it fails: the
      generation advances either way. */
  function Intended(n: Node, action: string, now: Wall, saved: bool): Node {
    var s := n.mem.stored;
    var next := s.(paused := PausedAfter(s.paused, action), nextAllowed := Max(s.nextAllowed, now + 120));
    if !IntentWrites(s, action) then Restarted(n)
    else
      var m := Stores(n, next, saved);
      if saved then Restarted(m) else m.(mem := m.mem.(generation := m.mem.generation + 1))
  }

  predicate IntentOk(n: Node, action: string, saved: bool) {
    saved || !IntentWrites(n.mem.stored, action)
  }

  /** What an announced clock change does to the budgets when it is absorbed. */
  function Refilled(s: Stored, now: Wall): Stored
    requires s.config.cooldown <= 3600
  {
    s.(actionTimes := seq(|s.actionTimes|, _ => now),
       lastReboot := if s.lastReboot != 0 then now else 0,
       nextAllowed := now + s.config.cooldown)
  }

  predicate ClockBehind(s: Stored, now: Wall) {
    now < 1_704_067_200 || (exists i :: 0 <= i < |s.actionTimes| && now < s.actionTimes[i]) || now < s.lastReboot
  }

  /** The first half of `may_probe`: absorb a clock change, if one was announced. */
  function Absorbed(n: Node, clockGeneration: nat, now: Wall, saved: bool): Node
    requires n.mem.stored.config.cooldown <= 3600
  {
    if n.mem.clockGeneration == clockGeneration then n
    else
      var m := Stores(n, Refilled(n.mem.stored, now), saved);
      if saved then
        m.(mem := m.mem.(clockGeneration := clockGeneration, generation := m.mem.generation + 1,
                         startupUntil := now + 120, failures := 0, successes := 0))
      else m
  }

  function Probed(n: Node, changing: bool, clockGeneration: nat, now: Wall, saved: bool): (r: (Node, bool))
    requires n.mem.stored.config.cooldown <= 3600
  {
    if changing then (n.(mem := n.mem.(status := ClockUnavailable)), false)
    else
      var a := Absorbed(n, clockGeneration, now, saved);
      if a.mem.clockGeneration != clockGeneration then (a, false)
      else if !a.mem.stored.config.enabled || a.mem.stored.paused || !a.mem.storageOk then (a, false)
      else if ClockBehind(a.mem.stored, now) then (a.(mem := a.mem.(status := ClockUnavailable)), false)
      else if now < a.mem.startupUntil then (a.(mem := a.mem.(status := Waiting)), false)
      else (a, true)
  }

  function Held(n: Node): Node {
    n.(mem := n.mem.(failures := 0, successes := 0, status := WaitingCellular))
  }

  /** Saturating subtraction. */
  function Minus(a: U64, b: U64): U64 {
    if a < b then 0 else a - b
  }

  /** `retain(|at| now - at < 3600)`. */
  function Recent(times: seq<U64>, now: Wall): (r: seq<U64>)
    ensures |r| <= |times|
  {
    if times == [] then []
    else (if Minus(now, times[0]) < 3600 then [times[0]] else []) + Recent(times[1..], now)
  }

  function WithStatus(n: Node, status: Status): Node {
    n.(mem := n.mem.(status := status))
  }

  /** The online half of `observe`. */
  function SeenOnline(n: Node, saved: bool): Node {
    var m := n.(mem := n.mem.(failures := 0, successes := n.mem.successes + 1, status := Online));
    if m.mem.successes >= 2 && m.mem.stored.redials > 0
    then Stores(m, m.mem.stored.(redials := 0), saved) else m
  }

  function Booked(s: Stored, now: Wall, reboot: bool): Stored
    requires s.config.cooldown <= 3600
  {
    var next := s.(actionTimes := Recent(s.actionTimes, now) + [now], nextAllowed := now + s.config.cooldown);
    if reboot then next.(lastReboot := now) else next.(redials := s.redials + 1)
  }

  /** Why an offline verdict that reached the failure threshold yields no plan. */
  function Refusal(s: Stored, now: Wall): Option<Status> {
    if now < s.nextAllowed then Some(Cooldown)
    else if |Recent(s.actionTimes, now)| >= 5 then Some(LimitReached)
    else if s.redials >= s.config.maxRedials
            && (!s.config.rebootAfterFailures || (s.lastReboot != 0 && Minus(now, s.lastReboot) < 21600))
    then Some(LimitReached)
    else None
  }

  const U32_MAX := 0xFFFF_FFFF

  /** The offline half of `observe`. */
  function SeenOffline(n: Node, now: Wall, saved: bool): (Node, Option<Plan>)
    requires n.mem.stored.config.cooldown <= 3600
  {
    var failures := if n.mem.failures >= U32_MAX then n.mem.failures else n.mem.failures + 1;
    var m := n.(mem := n.mem.(successes := 0, failures := failures, status := Offline));
    var s := m.mem.stored;
    if failures < s.config.failureThreshold then (m, None)
    else if Refusal(s, now).Some? then (WithStatus(m, Refusal(s, now).value), None)
    else
      var reboot := s.redials >= s.config.maxRedials;
      var b := Stores(m, Booked(s, now, reboot), saved);
      if !saved then (b, None)
      else (b.(mem := b.mem.(failures := 0, status := if reboot then Rebooting else Redialing)),
            Some(Plan(b.mem.generation, reboot)))
  }

  function Observed(n: Node, online: bool, changing: bool, clockGeneration: nat, now: Wall,
                    savedProbe: bool, saved: bool): (Node, Option<Plan>)
    requires n.mem.stored.config.cooldown <= 3600
  {
    var (p, ok) := Probed(n, changing, clockGeneration, now, savedProbe);
    if !ok then (p, None)
    else
      var m := p.(mem := p.mem.(lastCheck := now));
      if online then (SeenOnline(m, saved), None) else SeenOffline(m, now, saved)
  }

  /** What absorbing an announced clock change does: every recorded time becomes the
      present, the cooldown starts anew, and so does the start-up wait. */
  lemma AbsorbedExactly(n: Node, gen: nat, now: Wall, saved: bool)
    requires n.mem.stored.config.cooldown <= 3600 && n.mem.clockGeneration != gen
    ensures var s, t, m := n.mem.stored, Absorbed(n, gen, now, saved).mem.stored, Absorbed(n, gen, now, saved).mem;
      if saved then
        && |t.actionTimes| == |s.actionTimes| && (forall i :: 0 <= i < |t.actionTimes| ==> t.actionTimes[i] == now)
        && t.lastReboot == (if s.lastReboot == 0 then 0 else now) && t.nextAllowed == now + s.config.cooldown
        && t.config == s.config && t.paused == s.paused && t.redials == s.redials
        && m.clockGeneration == gen && m.generation == n.mem.generation + 1 && m.startupUntil == now + 120
        && m.failures == 0 && m.successes == 0 && m.storageOk && Absorbed(n, gen, now, saved).disk == Holds(t)
      else t == s && !m.storageOk && m.clockGeneration == n.mem.clockGeneration && m.generation == n.mem.generation
  {}

  predicate Allows(m: Memory, plan: Plan) {
    m.storageOk && m.stored.config.enabled && !m.stored.paused && m.generation == plan.generation
  }

  /** The budget is on disk, readable at the next start, before the plan exists. */
  lemma PlansAreBookedFirst(n: Node, online: bool, changing: bool, gen: nat, now: Wall, savedProbe: bool, saved: bool)
    requires InBounds(n.mem.stored)
    ensures var (m, plan) := Observed(n, online, changing, gen, now, savedProbe, saved);
      plan.Some? ==>
        && m.disk == Holds(m.mem.stored) && LoadFilter(m.mem.stored)
        && |m.mem.stored.actionTimes| >= 1 && m.mem.stored.actionTimes[|m.mem.stored.actionTimes| - 1] == now
        && m.mem.stored.nextAllowed == now + n.mem.stored.config.cooldown
        && (if plan.value.reboot then m.mem.stored.lastReboot == now
            else m.mem.stored.redials == n.mem.stored.redials + 1)
        && Allows(m.mem, plan.value)
  {
    var (m, plan) := Observed(n, online, changing, gen, now, savedProbe, saved);
    if plan.Some? {
      InBoundsFits(m.mem.stored);
    }
  }

  /** The object itself, with its file. */
  class Recovery {
    var stored: Stored
    var generation: nat
    var failures: nat
    var successes: nat
    var status: Status
    var lastCheck: nat
    var storageOk: bool
    var startupUntil: nat
    var clockGeneration: nat
    var file: Disk

    ghost function Value(): Node
      reads this
    {
      Node(Memory(stored, generation, failures, successes, status, lastCheck, storageOk, startupUntil,
                  clockGeneration), file)
    }

    ghost predicate Valid()
      reads this
    {
      InBounds(stored)
    }

    constructor Load(disk: Disk, now: Wall, gen: nat)
      ensures Value() == Node(Loaded(disk, now, gen), disk)
      ensures stored == if disk.Holds? && LoadFilter(disk.stored) then disk.stored else DEFAULT_STORED
      ensures storageOk <==> disk.Absent? || (disk.Holds? && LoadFilter(disk.stored))
      ensures startupUntil == now + 120 && generation == 0 && failures == 0 && successes == 0
      ensures Valid()
    {
      stored := DEFAULT_STORED;
      if disk.Holds? && LoadFilter(disk.stored) {
        stored := disk.stored;
        storageOk := true;
      } else {
        storageOk := disk.Absent?;
      }
      generation, failures, successes, status, lastCheck := 0, 0, 0, Disabled, 0;
      startupUntil, clockGeneration, file := now + 120, gen, disk;
      DefaultIsValid();
    }

    method Store(next: Stored, saved: bool) returns (ok: bool)
      modifies this
      ensures Value() == Stores(old(Value()), next, saved) && ok == saved
    {
      if !saved {
        storageOk := false;
        status := StorageFailed;
        return false;
      }
      file := Holds(next);
      stored := next;
      storageOk := true;
      return true;
    }

    method SetConfig(config: Config, now: Wall, saved: bool) returns (ok: bool)
      requires Valid()
      modifies this
      ensures Valid()
      ensures match Updated(old(Value()), config, now, saved)
        case Invalid => !ok && Value() == old(Value())
        case Failed(n) => !ok && Value() == n
        case Done(n) => ok && Value() == n
      ensures ok ==>
        && config.Valid() && saved && storageOk && file == Holds(stored)
        && stored == old(stored).(config := config, nextAllowed := stored.nextAllowed)
        && stored.nextAllowed == (if old(stored.nextAllowed) < now + 120 then now + 120 else old(stored.nextAllowed))
        && generation == old(generation) + 1 && failures == 0
      ensures !ok ==> stored == old(stored) && file == old(file) && generation == old(generation)
      ensures !ok && config.Valid() ==> !storageOk
    {
      if !config.Valid() {
        return false;
      }
      var next := stored.(config := config);
      next := next.(nextAllowed := Max(next.nextAllowed, now + 120));
      ok := Store(next, saved);
      if ok {
        generation := generation + 1;
        failures := 0;
        status := Waiting;
      }
    }

    method Resume(now: Wall, saved: bool) returns (ok: bool)
      requires Valid()
      modifies this
      ensures Valid()
      ensures Value() == Resumed(old(Value()), now, saved) && ok == saved
      ensures ok ==>
        && storageOk && file == Holds(stored) && !stored.paused && stored.redials == 0
        && stored == old(stored).(paused := false, redials := 0, nextAllowed := stored.nextAllowed)
        && stored.nextAllowed == (if old(stored.nextAllowed) < now + 120 then now + 120 else old(stored.nextAllowed))
        && generation == old(generation) + 1 && failures == 0
      ensures !ok ==> stored == old(stored) && file == old(file) && !storageOk && generation == old(generation)
    {
      var next := stored.(paused := false, redials := 0);
      next := next.(nextAllowed := Max(next.nextAllowed, now + 120));
      ok := Store(next, saved);
      if ok {
        generation := generation + 1;
        failures := 0;
        status := Waiting;
      }
    }

    /** `manual_intent`, and the extra generation step of its caller on failure. */
    method RecordIntent(action: string, now: Wall, saved: bool) returns (ok: bool)
      requires Valid()
      modifies this
      ensures Valid()
      ensures Value() == Intended(old(Value()), action, now, saved)
      ensures ok == IntentOk(old(Value()), action, saved)
      ensures stored.paused ==
        if action == "cellular.disconnect" || action == "device.poweroff" then old(stored.paused) || saved
        else if action == "cellular.connect" then old(stored.paused) && !saved
        else old(stored.paused)
      ensures generation == old(generation) + 1 && (ok ==> failures == 0)
    {
      var next := stored;
      if action == "cellular.disconnect" || action == "device.poweroff" {
        next := next.(paused := true);
      } else if action == "cellular.connect" {
        next := next.(paused := false);
      }
      next := next.(nextAllowed := Max(next.nextAllowed, now + 120));
      ok := true;
      if next.paused != stored.paused || stored.config.enabled {
        ok := Store(next, saved);
      }
      generation := generation + 1;
      if ok {
        failures := 0;
        status := Waiting;
      }
    }

    method MayProbe(changing: bool, gen: nat, now: Wall, saved: bool) returns (ok: bool)
      requires Valid()
      modifies this
      ensures Valid()
      ensures (Value(), ok) == Probed(old(Value()), changing, gen, now, saved)
    {
      if changing {
        status := ClockUnavailable;
        return false;
      }
      if clockGeneration != gen {
        var next := stored.(actionTimes := seq(|stored.actionTimes|, _ => now));
        if next.lastReboot != 0 {
          next := next.(lastReboot := now);
        }
        next := next.(nextAllowed := now + next.config.cooldown);
        var stored? := Store(next, saved);
        if !stored? {
          return false;
        }
        clockGeneration := gen;
        generation := generation + 1;
        startupUntil := now + 120;
        failures := 0;
        successes := 0;
      }
      if !stored.config.enabled || stored.paused || !storageOk {
        return false;
      }
      if ClockBehind(stored, now) {
        status := ClockUnavailable;
        return false;
      }
      if now < startupUntil {
        status := Waiting;
        return false;
      }
      return true;
    }

    method Hold()
      modifies this
      ensures Value() == Held(old(Value()))
      ensures failures == 0 && successes == 0 && stored == old(stored) && generation == old(generation)
    {
      failures := 0;
      successes := 0;
      status := WaitingCellular;
    }

    method ObserveOffline(now: Wall, saved: bool) returns (plan: Option<Plan>)
      requires Valid()
      modifies this
      ensures Valid()
      ensures (Value(), plan) == SeenOffline(old(Value()), now, saved)
    {
      successes := 0;
      failures := if failures >= U32_MAX then failures else failures + 1;
      status := Offline;
      if failures < stored.config.failureThreshold {
        return None;
      }
      if now < stored.nextAllowed {
        status := Cooldown;
        return None;
      }
      var next := stored.(actionTimes := Recent(stored.actionTimes, now));
      if |next.actionTimes| >= 5 {
        status := LimitReached;
        return None;
      }
      var reboot := next.redials >= next.config.maxRedials;
      if reboot && (!next.config.rebootAfterFailures
                    || (next.lastReboot != 0 && Minus(now, next.lastReboot) < 21600)) {
        status := LimitReached;
        return None;
      }
      next := next.(actionTimes := next.actionTimes + [now], nextAllowed := now + next.config.cooldown);
      if reboot {
        next := next.(lastReboot := now);
      } else {
        next := next.(redials := next.redials + 1);
      }
      assert next == Booked(stored, now, reboot);
      var ok := Store(next, saved);
      if !ok {
        return None;
      }
      failures := 0;
      status := if reboot then Rebooting else Redialing;
      return Some(Plan(generation, reboot));
    }

    method Observe(online: bool, changing: bool, gen: nat, now: Wall, savedProbe: bool, saved: bool)
      returns (plan: Option<Plan>)
      requires Valid()
      modifies this
      ensures Valid()
      ensures (Value(), plan) == Observed(old(Value()), online, changing, gen, now, savedProbe, saved)
      ensures online ==> plan == None
      ensures online && Probed(old(Value()), changing, gen, now, savedProbe).1 ==>
        failures == 0 && successes == old(successes) + 1
    {
      var ok := MayProbe(changing, gen, now, savedProbe);
      if !ok {
        return None;
      }
      lastCheck := now;
      if !online {
        plan := ObserveOffline(now, saved);
        return;
      }
      failures := 0;
      successes := successes + 1;
      status := Online;
      if successes >= 2 && stored.redials > 0 {
        var _ := Store(stored.(redials := 0), saved);
      }
      return None;
    }

    method Permits(plan: Plan) returns (yes: bool)
      ensures yes == Allows(Value().mem, plan)
      ensures yes <==> storageOk && stored.config.enabled && !stored.paused && generation == plan.generation
    {
      yes := storageOk && stored.config.enabled && !stored.paused && generation == plan.generation;
    }
  }
}
