/** NAT behaviour discovery (rust/src/nat.rs, sections 4.3 and 4.4 of RFC 5780).

    `Answers` is what the network returned to each request of one detection; it
    is arbitrary, so packets may be lost and servers may stay silent or ignore
    CHANGE-REQUEST. What a NAT can let through is stated in NatTruth. */
module NatDetection {
  import opened Common

  datatype Ip = Ip(a: Byte, b: Byte, c: Byte, d: Byte)
  datatype Endpoint = Endpoint(ip: Ip, port: nat)

  datatype Behaviour = EndpointIndependent | AddressDependent | AddressAndPortDependent | Dependent | Unknown

  function Classify(natted: bool, mapping: Behaviour, filtering: Behaviour): (string, Option<nat>) {
    if !natted then
      match filtering
      case EndpointIndependent => ("open", None)
      case Unknown => ("no_nat", None)
      case _ => ("firewalled", None)
    else
      match (mapping, filtering)
      case (AddressDependent, _) => ("symmetric", Some(4))
      case (AddressAndPortDependent, _) => ("symmetric", Some(4))
      case (Dependent, _) => ("symmetric", Some(4))
      case (EndpointIndependent, EndpointIndependent) => ("full_cone", Some(1))
      case (EndpointIndependent, AddressDependent) => ("restricted_cone", Some(2))
      case (EndpointIndependent, AddressAndPortDependent) => ("port_restricted_cone", Some(3))
      case _ => ("unknown", None)
  }

  predicate CarrierRange(ip: Ip) {
    || ip.a == 10 || (ip.a == 172 && 16 <= ip.b < 32) || (ip.a == 192 && ip.b == 168)
    || (ip.a == 100 && 64 <= ip.b < 128)
  }

  predicate Public(ip: Ip) {
    !(|| CarrierRange(ip) || ip.a == 127 || (ip.a == 169 && ip.b == 254) || ip == Ip(0, 0, 0, 0)
      || ip == Ip(255, 255, 255, 255) || 224 <= ip.a < 240
      || (ip.a == 192 && ip.b == 0 && ip.c == 2) || (ip.a == 198 && ip.b == 51 && ip.c == 100)
      || (ip.a == 203 && ip.b == 0 && ip.c == 113))
  }

  datatype Reply = Reply(mapped: Endpoint, other: Option<Endpoint>, source: Endpoint)

  /** What one request got back: past the device firewall, and on the wire. */
  datatype Seen = Seen(socket: Option<Reply>, wire: Option<Reply>) {
    function View(onWire: bool): Option<Reply> {
      if onWire then wire else socket
    }
  }

  /** A server that answered on a socket that has talked to nobody else. */
  datatype Probe = Probe(socket: nat, server: Endpoint, reply: Reply) {
    function Alternate(): Option<Endpoint> {
      if reply.other.Some? && Public(reply.other.value.ip) && reply.other.value.ip != server.ip
         && reply.other.value.port != server.port
      then reply.other else None
    }
  }

  /** The address as a number. */
  function Value(ip: Ip): int {
    ((ip.a as int * 256 + ip.b as int) * 256 + ip.c as int) * 256 + ip.d as int
  }

  /** The address lies in a block of 2^(32-length) addresses. */
  predicate InBlock(ip: Ip, a: nat, b: nat, c: nat, size: nat) {
    var first := ((a * 256 + b) * 256 + c) * 256;
    first <= Value(ip) < first + size
  }

  /** Public means outside the private, shared, loopback, link-local, multicast
      and documentation blocks, and neither all zeros nor all ones. */
  lemma PublicExactly(ip: Ip)
    ensures Public(ip) <==>
      && !InBlock(ip, 10, 0, 0, 0x100_0000) && !InBlock(ip, 172, 16, 0, 0x10_0000)
      && !InBlock(ip, 192, 168, 0, 0x1_0000) && !InBlock(ip, 100, 64, 0, 0x40_0000)
      && !InBlock(ip, 127, 0, 0, 0x100_0000) && !InBlock(ip, 169, 254, 0, 0x1_0000)
      && !InBlock(ip, 224, 0, 0, 0x1000_0000)
      && !InBlock(ip, 192, 0, 2, 0x100) && !InBlock(ip, 198, 51, 100, 0x100) && !InBlock(ip, 203, 0, 113, 0x100)
      && Value(ip) != 0 && Value(ip) != 0xFFFF_FFFF
  {}

  /** A server serves for RFC 5780 tests exactly when it names a public second
      address that differs from its own in both parts. */
  lemma AlternateExactly(probe: Probe, e: Endpoint)
    ensures probe.Alternate() == Some(e) <==>
      probe.reply.other == Some(e) && Public(e.ip) && e.ip != probe.server.ip && e.port != probe.server.port
  {}

  /** One port-only filtering test. */
  datatype PortTest = PortTest(socket: nat, server: Endpoint, seen: Seen)

  function PortVerdict(reply: Option<Reply>, server: Endpoint): Option<bool> {
    if reply.None? then Some(false)
    else if reply.value.source.ip == server.ip && reply.value.source.port != server.port then Some(true)
    else None
  }

  predicate Voted(tests: seq<PortTest>, wire: bool, verdict: bool) {
    exists i :: 0 <= i < |tests| && PortVerdict(tests[i].seen.View(wire), tests[i].server) == Some(verdict)
  }

  /** The filtering verdict of one view: a changed address beats everything, one
      changed port beats silence, and a server that ignored the request counts
      for nothing. */
  function Verdict(both: Seen, tests: seq<PortTest>, server: Endpoint, wire: bool): Behaviour {
    if both.View(wire).Some? then
      if both.View(wire).value.source.ip != server.ip then EndpointIndependent else Unknown
    else if Voted(tests, wire, true) then AddressDependent
    else if Voted(tests, wire, false) then AddressAndPortDependent
    else Unknown
  }

  /** The reply, if any, came from the server's own address. */
  predicate FromServer(t: PortTest, wire: bool, otherPort: bool) {
    && t.seen.View(wire).Some? && t.seen.View(wire).value.source.ip == t.server.ip
    && (t.seen.View(wire).value.source.port != t.server.port) == otherPort
  }

  /** What the verdict says of the replies: open when the changed address answered,
      unknown when the server answered from its own; else address-dependent when
      some test was answered from the changed port, strict when none was but some
      went unanswered, and unknown when every answer ignored the request. */
  lemma VerdictExactly(both: Seen, tests: seq<PortTest>, server: Endpoint, wire: bool)
    ensures var v, b := Verdict(both, tests, server, wire), both.View(wire);
      && (v == EndpointIndependent <==> b.Some? && b.value.source.ip != server.ip)
      && (v == AddressDependent <==> b.None? && exists i :: 0 <= i < |tests| && FromServer(tests[i], wire, true))
      && (v == AddressAndPortDependent <==>
            && b.None? && (forall i :: 0 <= i < |tests| ==> !FromServer(tests[i], wire, true))
            && exists i :: 0 <= i < |tests| && tests[i].seen.View(wire).None?)
      && v != Dependent
  {
    forall i | 0 <= i < |tests|
      ensures PortVerdict(tests[i].seen.View(wire), tests[i].server) == Some(true) <==> FromServer(tests[i], wire, true)
      ensures PortVerdict(tests[i].seen.View(wire), tests[i].server) == Some(false) <==> tests[i].seen.View(wire).None?
    {
      assert FromServer(tests[i], wire, true) ==> tests[i].seen.View(wire).Some?;
    }
    if i :| 0 <= i < |tests| && FromServer(tests[i], wire, true) {
      assert PortVerdict(tests[i].seen.View(wire), tests[i].server) == Some(true);
    }
    if i :| 0 <= i < |tests| && tests[i].seen.View(wire).None? {
      assert PortVerdict(tests[i].seen.View(wire), tests[i].server) == Some(false);
    }
  }

  method Evaluate(both: Seen, tests: seq<PortTest>, server: Endpoint, wire: bool) returns (b: Behaviour)
    ensures b == Verdict(both, tests, server, wire)
  {
    match both.View(wire) {
      case Some(reply) => return if reply.source.ip != server.ip then EndpointIndependent else Unknown;
      case None =>
    }
    var verdict: Option<bool> := None;
    for i := 0 to |tests|
      invariant verdict == if Voted(tests[..i], wire, true) then Some(true)
                           else if Voted(tests[..i], wire, false) then Some(false) else None
    {
      var one := PortVerdict(tests[i].seen.View(wire), tests[i].server);
      VotedExtend(tests, i, wire, true);
      VotedExtend(tests, i, wire, false);
      if one.Some? {
        verdict := Some((verdict.Some? && verdict.value) || one.value);
      }
    }
    assert tests[..|tests|] == tests;
    b := match verdict case Some(true) => AddressDependent case Some(false) => AddressAndPortDependent case None => Unknown;
  }

  lemma VotedExtend(tests: seq<PortTest>, i: nat, wire: bool, verdict: bool)
    requires i < |tests|
    ensures Voted(tests[..i + 1], wire, verdict) <==>
      Voted(tests[..i], wire, verdict) || PortVerdict(tests[i].seen.View(wire), tests[i].server) == Some(verdict)
  {
    var t := tests[..i + 1];
    assert t[i] == tests[i];
    if Voted(tests[..i], wire, verdict) {
      var k :| 0 <= k < i && PortVerdict(tests[..i][k].seen.View(wire), tests[..i][k].server) == Some(verdict);
      assert t[k] == tests[..i][k];
    }
    if Voted(t, wire, verdict) {
      var k :| 0 <= k < |t| && PortVerdict(t[k].seen.View(wire), t[k].server) == Some(verdict);
      if k < i {
        assert t[k] == tests[..i][k];
      }
    }
  }

  predicate Undecided(both: Seen, tests: seq<PortTest>, wire: bool) {
    both.View(wire).None? && !Voted(tests, wire, true)
  }

  predicate Needed(both: Seen, tests: seq<PortTest>, captured: bool) {
    Undecided(both, tests, false) || (captured && Undecided(both, tests, true))
  }

  /** The tests that are really made: one at a time, while a view lacks a verdict. */
  function Made(both: Seen, done: seq<PortTest>, todo: seq<PortTest>, captured: bool): seq<PortTest>
    decreases |todo|
  {
    if todo == [] || !Needed(both, done, captured) then done
    else Made(both, done + [todo[0]], todo[1..], captured)
  }

  lemma VotedPrefix(done: seq<PortTest>, more: seq<PortTest>, wire: bool, verdict: bool)
    requires Voted(done, wire, verdict)
    ensures Voted(done + more, wire, verdict)
  {
    var i :| 0 <= i < |done| && PortVerdict(done[i].seen.View(wire), done[i].server) == Some(verdict);
    assert (done + more)[i] == done[i];
  }

  /** Once a view is decided, no further test can change its verdict. */
  lemma DecidedForGood(both: Seen, done: seq<PortTest>, more: seq<PortTest>, server: Endpoint, wire: bool)
    requires !Undecided(both, done, wire)
    ensures Verdict(both, done + more, server, wire) == Verdict(both, done, server, wire)
  {
    if both.View(wire).None? {
      VotedPrefix(done, more, wire, true);
    }
  }

  /** Stopping early gives the verdicts of testing every remaining probe,
      whatever those would have answered. */
  lemma {:induction false} EarlyStopIsExact(both: Seen, done: seq<PortTest>, todo: seq<PortTest>,
                                           server: Endpoint, captured: bool, wire: bool)
    requires wire ==> captured
    ensures Verdict(both, Made(both, done, todo, captured), server, wire) == Verdict(both, done + todo, server, wire)
    decreases |todo|
  {
    if todo == [] {
      assert done + todo == done;
    } else if !Needed(both, done, captured) {
      DecidedForGood(both, done, todo, server, wire);
    } else {
      EarlyStopIsExact(both, done + [todo[0]], todo[1..], server, captured, wire);
      assert done + [todo[0]] + todo[1..] == done + todo;
    }
  }

  function Openness(b: Behaviour): int {
    match b
    case EndpointIndependent => 2
    case AddressDependent => 1
    case _ => 0
  }

  /** A reply on the socket was also on the wire, so the carrier never looks
      stricter than the device. */
  lemma CarrierNotStricter(both: Seen, tests: seq<PortTest>, server: Endpoint)
    requires both.socket.Some? ==> both.wire == both.socket
    requires forall i :: 0 <= i < |tests| ==> tests[i].seen.socket.Some? ==> tests[i].seen.wire == tests[i].seen.socket
    requires Verdict(both, tests, server, true) != Unknown && Verdict(both, tests, server, false) != Unknown
    ensures Openness(Verdict(both, tests, server, true)) >= Openness(Verdict(both, tests, server, false))
  {
    if both.View(false).None? && Voted(tests, false, true) {
      var i :| 0 <= i < |tests| && PortVerdict(tests[i].seen.View(false), tests[i].server) == Some(true);
      assert PortVerdict(tests[i].seen.View(true), tests[i].server) == Some(true);
    }
  }

  // ---- One detection ----

  datatype Ask = Both | MainPort | OtherPort(i: nat) | Second | Third | Fallback

  type Answers = Ask -> Seen

  /** A request as it was sent, with what came back. */
  datatype Exchange = Exchange(socket: nat, target: Endpoint, seen: Seen)

  /** The port-only tests available: the main server, then the others that
      have an alternate address. */
  function OtherTests(others: seq<Probe>, from: nat, answers: Answers): seq<PortTest>
    requires from <= |others|
    decreases |others| - from
  {
    if from == |others| then []
    else if others[from].Alternate().None? then OtherTests(others, from + 1, answers)
    else [PortTest(others[from].socket, others[from].server, answers(OtherPort(from)))]
         + OtherTests(others, from + 1, answers)
  }

  function AllTests(main: Probe, others: seq<Probe>, answers: Answers): seq<PortTest> {
    [PortTest(main.socket, main.server, answers(MainPort))] + OtherTests(others, 0, answers)
  }

  function TestsMade(main: Probe, others: seq<Probe>, captured: bool, answers: Answers): seq<PortTest> {
    Made(answers(Both), [], AllTests(main, others, answers), captured)
  }

  function Sent(tests: seq<PortTest>): seq<Exchange> {
    seq(|tests|, i requires 0 <= i < |tests| => Exchange(tests[i].socket, tests[i].server, tests[i].seen))
  }

  function FilterLog(main: Probe, others: seq<Probe>, captured: bool, answers: Answers): seq<Exchange> {
    [Exchange(main.socket, main.server, answers(Both))] + Sent(TestsMade(main, others, captured, answers))
  }

  lemma MadeStep(both: Seen, done: seq<PortTest>, t: PortTest, rest: seq<PortTest>, captured: bool)
    requires Needed(both, done, captured)
    ensures Made(both, done, [t] + rest, captured) == Made(both, done + [t], rest, captured)
  {
    assert ([t] + rest)[1..] == rest;
  }

  method Filtering(main: Probe, others: seq<Probe>, captured: bool, answers: Answers)
    returns (device: Behaviour, carrier: Option<Behaviour>, log: seq<Exchange>)
    ensures device == Verdict(answers(Both), AllTests(main, others, answers), main.server, false)
    ensures carrier == if captured then Some(Verdict(answers(Both), AllTests(main, others, answers), main.server, true))
                       else None
    ensures log == FilterLog(main, others, captured, answers)
  {
    var both := answers(Both);
    var tests: seq<PortTest> := [];
    ghost var all := AllTests(main, others, answers);
    var first := PortTest(main.socket, main.server, answers(MainPort));
    if Needed(both, tests, captured) {
      MadeStep(both, tests, first, OtherTests(others, 0, answers), captured);
      tests := tests + [first];
    }
    ghost var rest := if tests == [] then all else OtherTests(others, 0, answers);
    var i := 0;
    while i < |others| && Needed(both, tests, captured)
      invariant 0 <= i <= |others|
      invariant Needed(both, tests, captured) ==> rest == OtherTests(others, i, answers)
      invariant Made(both, [], all, captured) == Made(both, tests, rest, captured)
      decreases |others| - i
    {
      if others[i].Alternate().Some? {
        var t := PortTest(others[i].socket, others[i].server, answers(OtherPort(i)));
        MadeStep(both, tests, t, OtherTests(others, i + 1, answers), captured);
        tests := tests + [t];
      }
      rest := OtherTests(others, i + 1, answers);
      i := i + 1;
    }
    assert tests == Made(both, [], all, captured);
    assert [] + all == all;
    EarlyStopIsExact(both, [], all, main.server, captured, false);
    device := Evaluate(both, tests, main.server, false);
    carrier := None;
    if captured {
      EarlyStopIsExact(both, [], all, main.server, captured, true);
      var c := Evaluate(both, tests, main.server, true);
      carrier := Some(c);
    }
    log := [Exchange(main.socket, main.server, both)] + Sent(tests);
  }

  /** The first server at another address, for the fallback mapping test. */
  function Elsewhere(others: seq<Probe>, ip: Ip): Option<Probe> {
    if others == [] then None
    else if others[0].server.ip != ip then Some(others[0])
    else Elsewhere(others[1..], ip)
  }

  /** The RFC 5780 mapping tests through the alternate address. */
  function AlternateMapping(main: Probe, answers: Answers): Behaviour {
    var second := answers(Second).socket;
    if second.None? then Unknown
    else if second.value.mapped == main.reply.mapped then EndpointIndependent
    else
      var third := answers(Third).socket;
      if third.None? then Dependent
      else if third.value.mapped == second.value.mapped then AddressDependent
      else AddressAndPortDependent
  }

  function AlternateLog(main: Probe, other: Endpoint, answers: Answers): seq<Exchange> {
    var second := Exchange(main.socket, Endpoint(other.ip, main.server.port), answers(Second));
    if second.seen.socket.None? || second.seen.socket.value.mapped == main.reply.mapped then [second]
    else [second, Exchange(main.socket, other, answers(Third))]
  }

  function FallbackMapping(main: Probe, answers: Answers): Behaviour {
    var reply := answers(Fallback).socket;
    if reply.None? then Unknown
    else if reply.value.mapped == main.reply.mapped then EndpointIndependent
    else Dependent
  }

  function Mapping(natted: bool, main: Probe, others: seq<Probe>, answers: Answers): (Behaviour, seq<Exchange>) {
    if !natted then (EndpointIndependent, [])
    else
      var other := main.Alternate();
      var first := if other.Some? then AlternateMapping(main, answers) else Unknown;
      var log := if other.Some? then AlternateLog(main, other.value, answers) else [];
      var elsewhere := Elsewhere(others, main.server.ip);
      if first == Unknown && elsewhere.Some?
      then (FallbackMapping(main, answers),
            log + [Exchange(main.socket, elsewhere.value.server, answers(Fallback))])
      else (first, log)
  }

  datatype Report = Report(natted: bool, mapping: Behaviour, device: Behaviour, carrier: Option<Behaviour>,
                           kind: string, level: Option<nat>, deviceKind: string, deviceLevel: Option<nat>)

  function Filter(r: Report): Behaviour {
    if r.carrier.Some? then r.carrier.value else r.device
  }

  function FilterVerdicts(main: Probe, others: seq<Probe>, captured: bool, answers: Answers)
    : (Behaviour, Option<Behaviour>)
  {
    if main.Alternate().None? then (Unknown, if captured then Some(Unknown) else None)
    else
      var all := AllTests(main, others, answers);
      (Verdict(answers(Both), all, main.server, false),
       if captured then Some(Verdict(answers(Both), all, main.server, true)) else None)
  }

  /** What a detection reports, and every request it sends after opening its probes. */
  function Detection(main: Probe, others: seq<Probe>, local: Option<Ip>, captured: bool, answers: Answers)
    : (Report, seq<Exchange>)
  {
    var natted := local != Some(main.reply.mapped.ip);
    var (device, carrier) := FilterVerdicts(main, others, captured, answers);
    var filterLog := if main.Alternate().Some? then FilterLog(main, others, captured, answers) else [];
    var (mapping, mappingLog) := Mapping(natted, main, others, answers);
    var (kind, level) := Classify(natted, mapping, if carrier.Some? then carrier.value else device);
    var (deviceKind, deviceLevel) := Classify(natted, mapping, device);
    (Report(natted, mapping, device, carrier, kind, level, deviceKind, deviceLevel), filterLog + mappingLog)
  }

  /** The probe that leads, and the rest in the order `swap_remove` leaves them. */
  function MainIndex(probes: seq<Probe>): nat
    ensures probes != [] ==> MainIndex(probes) < |probes|
  {
    if exists i :: 0 <= i < |probes| && probes[i].Alternate().Some? then FirstAlternate(probes) else 0
  }

  function FirstAlternate(probes: seq<Probe>): (i: nat)
    requires exists i :: 0 <= i < |probes| && probes[i].Alternate().Some?
    ensures i < |probes| && probes[i].Alternate().Some?
    ensures forall k :: 0 <= k < i ==> probes[k].Alternate().None?
  {
    if probes[0].Alternate().Some? then 0
    else
      assert exists i :: 0 <= i < |probes[1..]| && probes[1..][i].Alternate().Some? by {
        var i :| 0 <= i < |probes| && probes[i].Alternate().Some?;
        assert probes[1..][i - 1] == probes[i];
      }
      FirstAlternate(probes[1..]) + 1
  }

  /** The main probe is the first that serves for RFC 5780 tests, or else the first. */
  lemma MainExactly(probes: seq<Probe>, k: nat)
    requires probes != [] && k < |probes|
    ensures probes[k].Alternate().Some? ==>
      MainIndex(probes) <= k && probes[MainIndex(probes)].Alternate().Some?
    ensures k < MainIndex(probes) ==> probes[k].Alternate().None?
  {}

  lemma {:induction false} ElsewhereFinds(others: seq<Probe>, ip: Ip, k: nat)
    requires k < |others| && others[k].server.ip != ip
    ensures Elsewhere(others, ip).Some?
  {
    if k > 0 {
      ElsewhereFinds(others[1..], ip, k - 1);
    }
  }

  /** Without an answer from the alternate address, an answer from any server at
      another address still decides whether the mapping depends on the target. */
  lemma FallbackDecides(main: Probe, others: seq<Probe>, answers: Answers, k: nat)
    requires k < |others| && others[k].server.ip != main.server.ip && answers(Fallback).socket.Some?
    requires main.Alternate().None? || answers(Second).socket.None?
    ensures Mapping(true, main, others, answers).0 ==
      if answers(Fallback).socket.value.mapped == main.reply.mapped then EndpointIndependent else Dependent
  {
    ElsewhereFinds(others, main.server.ip, k);
  }

  function SwapRemoved(probes: seq<Probe>, index: nat): seq<Probe>
    requires index < |probes|
  {
    probes[index := probes[|probes| - 1]][..|probes| - 1]
  }

  method Detect(probes: seq<Probe>, local: Option<Ip>, captured: bool, answers: Answers)
    returns (report: Report, log: seq<Exchange>)
    requires probes != []
    ensures var m := MainIndex(probes);
      (report, log) == Detection(probes[m], SwapRemoved(probes, m), local, captured, answers)
  {
    var index := MainIndex(probes);
    var main := probes[index];
    var others := SwapRemoved(probes, index);
    var other := main.Alternate();
    var mapped := main.reply.mapped;
    var natted := local != Some(mapped.ip);
    var device, carrier := Unknown, if captured then Some(Unknown) else None;
    log := [];
    if other.Some? {
      device, carrier, log := Filtering(main, others, captured, answers);
    }
    var mapping := if natted then Unknown else EndpointIndependent;
    var asked: seq<Exchange> := [];
    if natted && other.Some? {
      var second := answers(Second);
      asked := [Exchange(main.socket, Endpoint(other.value.ip, main.server.port), second)];
      if second.socket.Some? {
        if second.socket.value.mapped == mapped {
          mapping := EndpointIndependent;
        } else {
          var third := answers(Third);
          asked := [asked[0], Exchange(main.socket, other.value, third)];
          mapping := if third.socket.None? then Dependent
                     else if third.socket.value.mapped == second.socket.value.mapped then AddressDependent
                     else AddressAndPortDependent;
        }
      }
    }
    var elsewhere := Elsewhere(others, main.server.ip);
    if mapping == Unknown && elsewhere.Some? {
      var reply := answers(Fallback);
      asked := asked + [Exchange(main.socket, elsewhere.value.server, reply)];
      if reply.socket.Some? {
        mapping := if reply.socket.value.mapped == mapped then EndpointIndependent else Dependent;
      }
    }
    assert (mapping, asked) == Mapping(natted, main, others, answers);
    log := log + asked;
    var filtering := if carrier.Some? then carrier.value else device;
    var (kind, level) := Classify(natted, mapping, filtering);
    var (deviceKind, deviceLevel) := Classify(natted, mapping, device);
    report := Report(natted, mapping, device, carrier, kind, level, deviceKind, deviceLevel);
  }
}
