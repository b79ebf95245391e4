/** The NAT as an environment, and what a detection's verdicts mean for it. */
module NatTruth {
  import opened Common
  import opened NatDetection

  /** How mappings are shared, and whom a filter admits. */
  datatype Rule = Open | PerAddress | PerEndpoint

  /** What a NAT allocates one external address for. */
  datatype Key = ForSocket(socket: nat) | ForAddress(socket: nat, ip: Ip) | ForEndpoint(socket: nat, target: Endpoint)

  /** The path: a carrier NAT (or none), its filter, and the device's own
      firewall behind it. */
  datatype Path = Path(translates: bool, mapping: Rule, filter: Rule, firewall: Rule,
                       local: Ip, allocate: Key -> Endpoint, ports: nat -> nat)

  ghost predicate WellFormed(p: Path) {
    && (forall k, l :: p.allocate(k) == p.allocate(l) ==> k == l)
    && (forall k :: p.allocate(k).ip != p.local)
  }

  function KeyOf(rule: Rule, socket: nat, target: Endpoint): Key {
    match rule
    case Open => ForSocket(socket)
    case PerAddress => ForAddress(socket, target.ip)
    case PerEndpoint => ForEndpoint(socket, target)
  }

  function Mapped(p: Path, socket: nat, target: Endpoint): Endpoint {
    if p.translates then p.allocate(KeyOf(p.mapping, socket, target)) else Endpoint(p.local, p.ports(socket))
  }

  ghost predicate Admits(rule: Rule, contacted: set<Endpoint>, source: Endpoint) {
    match rule
    case Open => true
    case PerAddress => exists e :: e in contacted && e.ip == source.ip
    case PerEndpoint => source in contacted
  }

  function Targets(log: seq<Exchange>, socket: nat): set<Endpoint> {
    set i | 0 <= i < |log| && log[i].socket == socket :: log[i].target
  }

  /** What may come back to an exchange, given the socket's contacts so far.
      Replies may come from anywhere the filters admit; any may be missing. */
  ghost predicate Possible(p: Path, contacted: set<Endpoint>, x: Exchange) {
    && (x.seen.wire.Some? ==>
          Admits(p.filter, contacted, x.seen.wire.value.source)
          && x.seen.wire.value.mapped == Mapped(p, x.socket, x.target))
    && (x.seen.socket.Some? ==>
          x.seen.wire == x.seen.socket && Admits(p.firewall, contacted, x.seen.socket.value.source))
  }

  ghost predicate Honest(p: Path, log: seq<Exchange>) {
    forall i :: 0 <= i < |log| ==> Possible(p, Targets(log[..i + 1], log[i].socket), log[i])
  }

  function Opened(probes: seq<Probe>): seq<Exchange> {
    seq(|probes|, i requires 0 <= i < |probes| =>
      Exchange(probes[i].socket, probes[i].server, Seen(Some(probes[i].reply), Some(probes[i].reply))))
  }

  predicate OwnSockets(probes: seq<Probe>) {
    forall i, j :: 0 <= i < j < |probes| ==> probes[i].socket != probes[j].socket
  }

  /** Taking out the main probe leaves every probe a socket of its own. */
  lemma SocketsStayApart(probes: seq<Probe>, m: nat)
    requires OwnSockets(probes) && m < |probes|
    ensures OwnSockets([probes[m]] + SwapRemoved(probes, m))
  {
    var others := SwapRemoved(probes, m);
    var last := |probes| - 1;
    forall i, j | 0 <= i < j < |others| + 1
      ensures ([probes[m]] + others)[i].socket != ([probes[m]] + others)[j].socket
    {
      var a, b := if i == 0 then m else if i - 1 == m then last else i - 1, if j - 1 == m then last else j - 1;
      assert ([probes[m]] + others)[i] == probes[a] && ([probes[m]] + others)[j] == probes[b];
      assert a < b || b < a;
    }
  }

  // ---- The truth ----

  function TrueMapping(p: Path): Rule {
    if p.translates then p.mapping else Open
  }

  function Stricter(a: Rule, b: Rule): Rule {
    if a == PerEndpoint || b == PerEndpoint then PerEndpoint
    else if a == PerAddress || b == PerAddress then PerAddress
    else Open
  }

  function AsBehaviour(r: Rule): Behaviour {
    match r
    case Open => EndpointIndependent
    case PerAddress => AddressDependent
    case PerEndpoint => AddressAndPortDependent
  }

  predicate MappingTrue(p: Path, b: Behaviour) {
    match b
    case Unknown => true
    case Dependent => TrueMapping(p) != Open
    case _ => b == AsBehaviour(TrueMapping(p))
  }

  /** Not more open than `r`. */
  predicate Cautious(b: Behaviour, r: Rule) {
    Openness(b) <= Openness(AsBehaviour(r))
  }

  // ---- Filtering ----

  /** Every exchange goes to the one server its socket belongs to. */
  predicate Homely(log: seq<Exchange>) {
    forall i, j :: 0 <= i < |log| && 0 <= j < |log| && log[i].socket == log[j].socket ==> log[i].target == log[j].target
  }

  lemma HomelyTargets(log: seq<Exchange>, i: nat)
    requires Homely(log) && i < |log|
    ensures Targets(log[..i + 1], log[i].socket) == {log[i].target}
  {
    var t := log[..i + 1];
    assert t[i] == log[i];
    assert forall j :: 0 <= j < |t| ==> t[j] == log[j];
  }

  /** A reply from a changed address or port betrays the filter. */
  lemma WhatSilenceCannotHide(p: Path, log: seq<Exchange>, i: nat, wire: bool)
    requires Homely(log) && Honest(p, log) && i < |log| && log[i].seen.View(wire).Some?
    ensures var rule := if wire then p.filter else Stricter(p.filter, p.firewall);
      var source := log[i].seen.View(wire).value.source;
      && (source.ip != log[i].target.ip ==> rule == Open)
      && (source != log[i].target ==> rule != PerEndpoint)
  {
    HomelyTargets(log, i);
  }

  lemma {:induction false} OtherTestsOwn(others: seq<Probe>, from: nat, answers: Answers, k: nat) returns (i: nat)
    requires from <= |others| && k < |OtherTests(others, from, answers)|
    ensures from <= i < |others|
    ensures var t := OtherTests(others, from, answers)[k]; t.socket == others[i].socket && t.server == others[i].server
    decreases |others| - from
  {
    if others[from].Alternate().None? {
      i := OtherTestsOwn(others, from + 1, answers, k);
    } else if k == 0 {
      i := from;
    } else {
      i := OtherTestsOwn(others, from + 1, answers, k - 1);
    }
  }

  lemma {:induction false} MadeIsPrefix(both: Seen, done: seq<PortTest>, todo: seq<PortTest>, captured: bool)
    ensures Made(both, done, todo, captured) <= done + todo
    decreases |todo|
  {
    if todo != [] && Needed(both, done, captured) {
      MadeIsPrefix(both, done + [todo[0]], todo[1..], captured);
      assert done + [todo[0]] + todo[1..] == done + todo;
    }
  }

  /** Each port test belongs to a probe. */
  lemma TestOwn(main: Probe, others: seq<Probe>, answers: Answers, k: nat) returns (q: Probe)
    requires k < |AllTests(main, others, answers)|
    ensures q == main || q in others
    ensures var t := AllTests(main, others, answers)[k]; t.socket == q.socket && t.server == q.server
  {
    q := main;
    if k >= 1 {
      var i := OtherTestsOwn(others, 0, answers, k - 1);
      q := others[i];
    }
  }

  lemma MadeAt(main: Probe, others: seq<Probe>, captured: bool, answers: Answers, k: nat)
    requires k < |TestsMade(main, others, captured, answers)|
    ensures k < |AllTests(main, others, answers)|
    ensures TestsMade(main, others, captured, answers)[k] == AllTests(main, others, answers)[k]
  {
    var all := AllTests(main, others, answers);
    MadeIsPrefix(answers(Both), [], all, captured);
    assert [] + all == all;
  }

  lemma LogAt(main: Probe, others: seq<Probe>, captured: bool, answers: Answers, k: nat)
    requires 1 <= k < |FilterLog(main, others, captured, answers)|
    ensures var made := TestsMade(main, others, captured, answers);
      && k - 1 < |made|
      && FilterLog(main, others, captured, answers)[k]
           == Exchange(made[k - 1].socket, made[k - 1].server, made[k - 1].seen)
  {}

  /** Each exchange of the filtering phase belongs to a probe. */
  lemma FilterLogOwn(main: Probe, others: seq<Probe>, captured: bool, answers: Answers, k: nat) returns (q: Probe)
    requires k < |FilterLog(main, others, captured, answers)|
    ensures q == main || q in others
    ensures var x := FilterLog(main, others, captured, answers)[k]; x.socket == q.socket && x.target == q.server
  {
    q := main;
    if k >= 1 {
      LogAt(main, others, captured, answers, k);
      MadeAt(main, others, captured, answers, k - 1);
      q := TestOwn(main, others, answers, k - 1);
    }
  }

  function Before(main: Probe, others: seq<Probe>, captured: bool, answers: Answers): seq<Exchange> {
    Opened([main] + others) + FilterLog(main, others, captured, answers)
  }

  lemma BeforeOwn(main: Probe, others: seq<Probe>, captured: bool, answers: Answers, k: nat) returns (i: nat)
    requires k < |Before(main, others, captured, answers)|
    ensures i < |others| + 1
    ensures var x, q := Before(main, others, captured, answers)[k], ([main] + others)[i];
      x.socket == q.socket && x.target == q.server
  {
    var probes := [main] + others;
    if k < |probes| {
      i := k;
    } else {
      var q := FilterLogOwn(main, others, captured, answers, k - |probes|);
      if q == main {
        i := 0;
      } else {
        var j :| 0 <= j < |others| && others[j] == q;
        i := j + 1;
      }
    }
  }

  lemma BeforeIsHomely(main: Probe, others: seq<Probe>, captured: bool, answers: Answers)
    requires OwnSockets([main] + others)
    ensures Homely(Before(main, others, captured, answers))
  {
    var log := Before(main, others, captured, answers);
    forall i, j | 0 <= i < |log| && 0 <= j < |log| && log[i].socket == log[j].socket
      ensures log[i].target == log[j].target
    {
      var a := BeforeOwn(main, others, captured, answers, i);
      var b := BeforeOwn(main, others, captured, answers, j);
    }
  }

  lemma HonestPrefix(p: Path, log: seq<Exchange>, more: seq<Exchange>)
    requires Honest(p, log + more)
    ensures Honest(p, log)
  {
    forall i | 0 <= i < |log|
      ensures Possible(p, Targets(log[..i + 1], log[i].socket), log[i])
    {
      assert (log + more)[..i + 1] == log[..i + 1];
      assert (log + more)[i] == log[i];
    }
  }

  /** A verdict from the tests really made is never more open than the filter. */
  lemma VerdictIsCautious(p: Path, main: Probe, others: seq<Probe>, captured: bool, answers: Answers, wire: bool)
    requires OwnSockets([main] + others)
    requires Honest(p, Before(main, others, captured, answers))
    ensures Cautious(Verdict(answers(Both), TestsMade(main, others, captured, answers), main.server, wire),
                     if wire then p.filter else Stricter(p.filter, p.firewall))
  {
    var log := Before(main, others, captured, answers);
    var tests := TestsMade(main, others, captured, answers);
    var n := |others| + 1;
    BeforeIsHomely(main, others, captured, answers);
    assert log[n] == Exchange(main.socket, main.server, answers(Both));
    if answers(Both).View(wire).Some? {
      WhatSilenceCannotHide(p, log, n, wire);
    } else if Voted(tests, wire, true) {
      var i :| 0 <= i < |tests| && PortVerdict(tests[i].seen.View(wire), tests[i].server) == Some(true);
      assert log[n + 1 + i] == Exchange(tests[i].socket, tests[i].server, tests[i].seen);
      WhatSilenceCannotHide(p, log, n + 1 + i, wire);
    }
  }

  // ---- Mapping ----

  lemma KeysDiffer(p: Path, socket: nat, s: Endpoint, t: Endpoint)
    requires WellFormed(p)
    ensures s.ip != t.ip ==> (Mapped(p, socket, s) == Mapped(p, socket, t) <==> TrueMapping(p) == Open)
    ensures s.ip == t.ip && s.port != t.port ==>
      (Mapped(p, socket, s) == Mapped(p, socket, t) <==> TrueMapping(p) != PerEndpoint)
  {}

  lemma {:induction false} ElsewhereIsElsewhere(others: seq<Probe>, ip: Ip)
    ensures Elsewhere(others, ip).Some? ==> Elsewhere(others, ip).value.server.ip != ip
  {
    if others != [] {
      ElsewhereIsElsewhere(others[1..], ip);
    }
  }

  /** Every reply in an honest log reports the address allocated for its target. */
  lemma RepliesReportMapping(p: Path, log: seq<Exchange>, i: nat)
    requires Honest(p, log) && i < |log| && log[i].seen.socket.Some?
    ensures log[i].seen.socket.value.mapped == Mapped(p, log[i].socket, log[i].target)
  {
    assert Possible(p, Targets(log[..i + 1], log[i].socket), log[i]);
  }

  /** The reply to `x`, if any, reports the address allocated for its target. */
  predicate Reports(p: Path, x: Exchange) {
    x.seen.socket.Some? ==> x.seen.socket.value.mapped == Mapped(p, x.socket, x.target)
  }

  lemma AlternateIsTrue(p: Path, main: Probe, answers: Answers)
    requires WellFormed(p) && main.reply.mapped == Mapped(p, main.socket, main.server) && main.Alternate().Some?
    requires var log := AlternateLog(main, main.Alternate().value, answers);
      forall i :: 0 <= i < |log| ==> Reports(p, log[i])
    ensures MappingTrue(p, AlternateMapping(main, answers))
  {
    var other := main.Alternate().value;
    var altIp := Endpoint(other.ip, main.server.port);
    KeysDiffer(p, main.socket, main.server, altIp);
    KeysDiffer(p, main.socket, altIp, other);
    var log := AlternateLog(main, other, answers);
    assert Reports(p, log[0]);
    if |log| == 2 {
      assert Reports(p, log[1]);
    }
  }

  lemma FallbackIsTrue(p: Path, main: Probe, target: Endpoint, answers: Answers)
    requires WellFormed(p) && main.reply.mapped == Mapped(p, main.socket, main.server)
    requires target.ip != main.server.ip && Reports(p, Exchange(main.socket, target, answers(Fallback)))
    ensures MappingTrue(p, FallbackMapping(main, answers))
  {
    KeysDiffer(p, main.socket, main.server, target);
  }

  lemma MappingIsTrue(p: Path, before: seq<Exchange>, natted: bool, main: Probe, others: seq<Probe>, answers: Answers)
    requires WellFormed(p) && main.reply.mapped == Mapped(p, main.socket, main.server)
    requires !natted ==> !p.translates
    requires Honest(p, before + Mapping(natted, main, others, answers).1)
    ensures MappingTrue(p, Mapping(natted, main, others, answers).0)
  {
    var asked := Mapping(natted, main, others, answers).1;
    forall k | 0 <= k < |asked|
      ensures Reports(p, asked[k])
    {
      if asked[k].seen.socket.Some? {
        assert (before + asked)[|before| + k] == asked[k];
        RepliesReportMapping(p, before + asked, |before| + k);
      }
    }
    if natted {
      var other := main.Alternate();
      var first := if other.Some? then AlternateLog(main, other.value, answers) else [];
      assert forall i :: 0 <= i < |first| ==> first[i] == asked[i];
      if other.Some? {
        AlternateIsTrue(p, main, answers);
      }
      if |asked| > |first| {
        var e := Elsewhere(others, main.server.ip);
        ElsewhereIsElsewhere(others, main.server.ip);
        assert asked[|first|] == Exchange(main.socket, e.value.server, answers(Fallback));
        FallbackIsTrue(p, main, e.value.server, answers);
      }
    }
  }

  /** Whatever is lost and however servers misbehave, the definite mapping
      verdicts are true and no filtering verdict is more open than the truth. */
  lemma DetectionIsSound(p: Path, main: Probe, others: seq<Probe>, local: Option<Ip>, captured: bool, answers: Answers)
    requires WellFormed(p) && OwnSockets([main] + others)
    requires local.Some? ==> local.value == p.local
    requires Honest(p, Opened([main] + others) + Detection(main, others, local, captured, answers).1)
    ensures var r := Detection(main, others, local, captured, answers).0;
      && MappingTrue(p, r.mapping)
      && Cautious(r.device, Stricter(p.filter, p.firewall))
      && (r.carrier.Some? ==> Cautious(r.carrier.value, p.filter))
      && (r.carrier.Some? && r.carrier.value != Unknown && r.device != Unknown ==>
            Openness(r.carrier.value) >= Openness(r.device))
  {
    var (r, log) := Detection(main, others, local, captured, answers);
    var start := Opened([main] + others);
    var whole := start + log;
    assert whole[0].seen.socket == Some(main.reply);
    RepliesReportMapping(p, whole, 0);
    var (_, asked) := Mapping(r.natted, main, others, answers);
    if main.Alternate().Some? {
      var before := Before(main, others, captured, answers);
      assert whole == before + asked;
      HonestPrefix(p, before, asked);
      MappingIsTrue(p, before, r.natted, main, others, answers);
      FilteringIsSound(p, main, others, captured, answers);
    } else {
      assert log == asked;
      MappingIsTrue(p, start, r.natted, main, others, answers);
    }
  }

  /** What a reported class says of the verdicts, and what a class that promises
      something says of the path; `truth` is the filter it speaks of. */
  predicate ClassSound(p: Path, natted: bool, mapping: Behaviour, filter: Behaviour, truth: Rule,
                       kind: string, level: Option<nat>) {
    // the promises
    && (kind == "open" || kind == "full_cone" ==> truth == Open)
    && (kind == "restricted_cone" ==> truth != PerEndpoint)
    && (kind == "full_cone" || kind == "restricted_cone" || kind == "port_restricted_cone" ==> TrueMapping(p) == Open)
    && (kind == "symmetric" ==> TrueMapping(p) != Open)
    // the names
    && (kind == "symmetric" <==>
          natted && (mapping == AddressDependent || mapping == AddressAndPortDependent || mapping == Dependent))
    && (kind == "unknown" <==>
          natted && (mapping == Unknown || (mapping == EndpointIndependent && filter == Unknown)))
    && (kind == "full_cone" <==> natted && mapping == EndpointIndependent && filter == EndpointIndependent)
    && (kind == "restricted_cone" <==> natted && mapping == EndpointIndependent && filter == AddressDependent)
    && (kind == "port_restricted_cone" <==>
          natted && mapping == EndpointIndependent && filter == AddressAndPortDependent)
    && (kind == "no_nat" <==> !natted && filter == Unknown)
    && (kind == "open" <==> !natted && filter == EndpointIndependent)
    && (kind == "firewalled" <==> !natted && (filter == AddressDependent || filter == AddressAndPortDependent))
    // the levels
    && level == (if kind == "full_cone" then Some(1) else if kind == "restricted_cone" then Some(2)
                 else if kind == "port_restricted_cone" then Some(3) else if kind == "symmetric" then Some(4) else None)
  }

  lemma ClassifyIsSound(p: Path, natted: bool, mapping: Behaviour, filter: Behaviour, truth: Rule)
    requires filter != Dependent && MappingTrue(p, mapping) && Cautious(filter, truth)
    ensures var (kind, level) := Classify(natted, mapping, filter); ClassSound(p, natted, mapping, filter, truth, kind, level)
  {}

  lemma FilterVerdictsAreKnownNames(main: Probe, others: seq<Probe>, captured: bool, answers: Answers)
    ensures var (device, carrier) := FilterVerdicts(main, others, captured, answers);
      device != Dependent && carrier.Some? == captured && (captured ==> carrier.value != Dependent)
  {}

  /** Under any loss and any behaviour of the servers, for the class seen at the
      carrier and for the one seen at the device. */
  lemma ClassesAreSound(p: Path, main: Probe, others: seq<Probe>, local: Option<Ip>, captured: bool, answers: Answers)
    requires WellFormed(p) && OwnSockets([main] + others)
    requires local.Some? ==> local.value == p.local
    requires Honest(p, Opened([main] + others) + Detection(main, others, local, captured, answers).1)
    ensures var r := Detection(main, others, local, captured, answers).0;
      var seen := if captured then p.filter else Stricter(p.filter, p.firewall);
      && (r.natted <==> local.None? || p.translates)
      && r.carrier.Some? == captured
      && ClassSound(p, r.natted, r.mapping, if captured then r.carrier.value else r.device, seen, r.kind, r.level)
      && ClassSound(p, r.natted, r.mapping, r.device, Stricter(p.filter, p.firewall), r.deviceKind, r.deviceLevel)
  {
    DetectionIsSound(p, main, others, local, captured, answers);
    FilterVerdictsAreKnownNames(main, others, captured, answers);
    var (r, log) := Detection(main, others, local, captured, answers);
    NattedExactly(p, main, others, local, log);
    ClassifyIsSound(p, r.natted, r.mapping, r.device, Stricter(p.filter, p.firewall));
    if captured {
      ClassifyIsSound(p, r.natted, r.mapping, r.carrier.value, p.filter);
    }
  }

  lemma NattedExactly(p: Path, main: Probe, others: seq<Probe>, local: Option<Ip>, log: seq<Exchange>)
    requires WellFormed(p) && Honest(p, Opened([main] + others) + log) && (local.Some? ==> local.value == p.local)
    ensures local != Some(main.reply.mapped.ip) <==> local.None? || p.translates
  {
    var whole := Opened([main] + others) + log;
    assert whole[0].seen.socket == Some(main.reply);
    RepliesReportMapping(p, whole, 0);
  }

  lemma FilteringIsSound(p: Path, main: Probe, others: seq<Probe>, captured: bool, answers: Answers)
    requires OwnSockets([main] + others)
    requires Honest(p, Before(main, others, captured, answers))
    ensures var (device, carrier) := FilterVerdicts(main, others, captured, answers);
      && Cautious(device, Stricter(p.filter, p.firewall))
      && (carrier.Some? ==> Cautious(carrier.value, p.filter))
      && (carrier.Some? && carrier.value != Unknown && device != Unknown ==> Openness(carrier.value) >= Openness(device))
  {
    var both, all := answers(Both), AllTests(main, others, answers);
    var tests := TestsMade(main, others, captured, answers);
    assert [] + all == all;
    VerdictIsCautious(p, main, others, captured, answers, false);
    EarlyStopIsExact(both, [], all, main.server, captured, false);
    if captured {
      VerdictIsCautious(p, main, others, captured, answers, true);
      EarlyStopIsExact(both, [], all, main.server, captured, true);
      MadeTestsAgree(p, main, others, captured, answers);
      var d, c := Verdict(both, tests, main.server, false), Verdict(both, tests, main.server, true);
      if d != Unknown && c != Unknown {
        CarrierNotStricter(both, tests, main.server);
      }
    }
  }

  lemma MadeTestsAgree(p: Path, main: Probe, others: seq<Probe>, captured: bool, answers: Answers)
    requires Honest(p, Before(main, others, captured, answers))
    ensures answers(Both).socket.Some? ==> answers(Both).wire == answers(Both).socket
    ensures var tests := TestsMade(main, others, captured, answers);
      forall i :: 0 <= i < |tests| ==> tests[i].seen.socket.Some? ==> tests[i].seen.wire == tests[i].seen.socket
  {
    var log := Before(main, others, captured, answers);
    var tests := TestsMade(main, others, captured, answers);
    var n := |others| + 1;
    assert log[n].seen == answers(Both);
    forall i | 0 <= i < |tests| && tests[i].seen.socket.Some?
      ensures tests[i].seen.wire == tests[i].seen.socket
    {
      assert log[n + 1 + i].seen == tests[i].seen;
    }
  }

  // ---- Exactness ----

  /** A reply that is not lost: it arrives exactly where the filters admit it. */
  ghost predicate Delivered(p: Path, contacted: set<Endpoint>, seen: Seen, reply: Reply) {
    && seen.wire == (if Admits(p.filter, contacted, reply.source) then Some(reply) else None)
    && seen.socket == (if Admits(p.filter, contacted, reply.source) && Admits(p.firewall, contacted, reply.source)
                       then Some(reply) else None)
  }

  /** The main server has an alternate address, obeys CHANGE-REQUEST, and nothing
      between it and the device is lost. The other servers may do as they please. */
  ghost predicate Obedient(p: Path, main: Probe, answers: Answers) {
    && main.Alternate().Some?
    && var other := main.Alternate().value;
       var altIp := Endpoint(other.ip, main.server.port);
       var home := {main.server};
       var here := Mapped(p, main.socket, main.server);
       && main.reply.mapped == here
       && Delivered(p, home, answers(Both), Reply(here, Some(other), other))
       && Delivered(p, home, answers(MainPort), Reply(here, Some(other), Endpoint(main.server.ip, other.port)))
       && answers(Second).socket == Some(Reply(Mapped(p, main.socket, altIp), Some(other), altIp))
       && answers(Third).socket == Some(Reply(Mapped(p, main.socket, other), Some(other), other))
  }

  function TrueClass(p: Path, filter: Rule): (string, Option<nat>) {
    if !p.translates then (if filter == Open then "open" else "firewalled", None)
    else if p.mapping != Open then ("symmetric", Some(4))
    else match filter
      case Open => ("full_cone", Some(1))
      case PerAddress => ("restricted_cone", Some(2))
      case PerEndpoint => ("port_restricted_cone", Some(3))
  }

  lemma ExactVerdict(p: Path, main: Probe, others: seq<Probe>, captured: bool, answers: Answers, wire: bool)
    requires OwnSockets([main] + others) && Obedient(p, main, answers)
    requires Honest(p, Before(main, others, captured, answers)) && (wire ==> captured)
    ensures Verdict(answers(Both), AllTests(main, others, answers), main.server, wire)
         == AsBehaviour(if wire then p.filter else Stricter(p.filter, p.firewall))
  {
    var all := AllTests(main, others, answers);
    assert [] + all == all;
    VerdictIsCautious(p, main, others, captured, answers, wire);
    EarlyStopIsExact(answers(Both), [], all, main.server, captured, wire);
    assert all[0] == PortTest(main.socket, main.server, answers(MainPort));
    var verdict := PortVerdict(all[0].seen.View(wire), all[0].server);
    assert verdict == Some(true) ==> Voted(all, wire, true);
    assert verdict == Some(false) ==> Voted(all, wire, false);
  }

  /** Without loss and with an obedient main server, the reported class is the
      NAT's class, seen at the carrier when captured and at the device otherwise. */
  lemma DetectionIsExact(p: Path, main: Probe, others: seq<Probe>, captured: bool, answers: Answers)
    requires WellFormed(p) && OwnSockets([main] + others) && Obedient(p, main, answers)
    requires Honest(p, Before(main, others, captured, answers))
    ensures var r := Detection(main, others, Some(p.local), captured, answers).0;
      && r.natted == p.translates
      && r.mapping == AsBehaviour(TrueMapping(p))
      && (r.kind, r.level) == TrueClass(p, if captured then p.filter else Stricter(p.filter, p.firewall))
      && (r.deviceKind, r.deviceLevel) == TrueClass(p, Stricter(p.filter, p.firewall))
  {
    ExactVerdict(p, main, others, captured, answers, false);
    if captured {
      ExactVerdict(p, main, others, captured, answers, true);
    }
    ExactMapping(p, main, others, answers);
  }

  lemma ExactMapping(p: Path, main: Probe, others: seq<Probe>, answers: Answers)
    requires WellFormed(p) && Obedient(p, main, answers)
    ensures (Some(p.local) != Some(main.reply.mapped.ip)) == p.translates
    ensures Mapping(p.translates, main, others, answers).0 == AsBehaviour(TrueMapping(p))
  {
    var other := main.Alternate().value;
    var altIp := Endpoint(other.ip, main.server.port);
    KeysDiffer(p, main.socket, main.server, altIp);
    KeysDiffer(p, main.socket, altIp, other);
  }

  /** The order matters: after the mapping tests have contacted the alternate
      address, the strictest filter lets the very answer through that would
      otherwise prove the NAT open. */
  lemma MappingFirstWouldMislead(p: Path, main: Probe)
    requires p.filter == PerEndpoint && main.Alternate().Some?
    requires main.reply.mapped == Mapped(p, main.socket, main.server)
    ensures var other := main.Alternate().value;
      var reply := Reply(main.reply.mapped, Some(other), other);
      var seen := Seen(None, Some(reply));
      && Honest(p, [Exchange(main.socket, other, Seen(None, None)), Exchange(main.socket, main.server, seen)])
      && Verdict(seen, [], main.server, true) == EndpointIndependent
      && !Cautious(EndpointIndependent, p.filter)
  {
    var other := main.Alternate().value;
    var seen := Seen(None, Some(Reply(main.reply.mapped, Some(other), other)));
    var log := [Exchange(main.socket, other, Seen(None, None)), Exchange(main.socket, main.server, seen)];
    assert log[..2] == log;
    assert log[0].target in Targets(log[..2], main.socket);
  }
}
