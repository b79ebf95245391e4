/** LAN and DHCP validation (rust/src/lan.rs). Addresses are 32-bit numbers, and
    the bit operations are defined bit by bit. */
module Lan {
  import opened Common

  function Pow2(k: nat): (p: nat)
    ensures p >= 1
  {
    if k == 0 then 1 else 2 * Pow2(k - 1)
  }

  const WORD := 0x1_0000_0000

  type Ipv4 = n: int | 0 <= n < WORD

  function And(x: nat, y: nat): (r: nat)
    ensures r <= x && r <= y
  {
    if x == 0 || y == 0 then 0
    else (if x % 2 == 1 && y % 2 == 1 then 1 else 0) + 2 * And(x / 2, y / 2)
  }

  function Or(x: nat, y: nat): nat
    decreases x + y
  {
    if x == 0 && y == 0 then 0
    else (if x % 2 == 1 || y % 2 == 1 then 1 else 0) + 2 * Or(x / 2, y / 2)
  }

  function Not(x: Ipv4): Ipv4 {
    WORD - 1 - x
  }

  /** `wrapping_add(1)` */
  function Successor(x: Ipv4): Ipv4 {
    if x == WORD - 1 then 0 else x + 1
  }

  // ---- Netmasks ----

  /** `u32::leading_ones` */
  function LeadingOnes(m: Ipv4): nat
    decreases m
  {
    if m < WORD / 2 then 0 else 1 + LeadingOnes(2 * m - WORD)
  }

  predicate MaskAccepted(m: Ipv4) {
    1 <= LeadingOnes(m) <= 30 && And(Not(m), Successor(Not(m))) == 0
  }

  /** The netmask of a prefix length: `k` ones, then zeros. */
  function Prefix(k: nat): Ipv4
    requires k <= 32
  {
    Pow2Bound(32 - k);
    WORD - Pow2(32 - k)
  }

  lemma Pow2Word()
    ensures Pow2(32) == WORD && Pow2(31) == WORD / 2
  {
    assert Pow2(8) == 256;
    assert Pow2(16) == 65536;
    assert Pow2(24) == 16777216;
  }

  lemma Pow2Bound(k: nat)
    requires k <= 32
    ensures Pow2(k) <= WORD && (k < 32 ==> Pow2(k) <= WORD / 2)
  {
    Pow2Word();
    Pow2Rises(k, 32);
    if k < 32 {
      Pow2Rises(k, 31);
    }
  }

  lemma {:induction false} Pow2Rises(j: nat, k: nat)
    requires j <= k
    ensures Pow2(j) <= Pow2(k)
  {
    if j < k {
      Pow2Rises(j, k - 1);
    }
  }

  lemma {:induction false} AndSelf(x: nat)
    ensures And(x, x) == x
  {
    if x > 0 {
      AndSelf(x / 2);
    }
  }

  /** No bit in common with the successor: a run of ones. */
  lemma {:induction false} RunOfOnes(h: nat) returns (j: nat)
    requires And(h, h + 1) == 0
    ensures h + 1 == Pow2(j)
  {
    j := 0;
    if h % 2 == 1 {
      assert (h + 1) / 2 == h / 2 + 1;
      j := RunOfOnes(h / 2);
      j := j + 1;
    } else if h > 0 {
      assert (h + 1) / 2 == h / 2;
      AndSelf(h / 2);
    }
  }

  lemma {:induction false} OnesAreARun(j: nat)
    ensures And(Pow2(j) - 1, Pow2(j)) == 0
  {
    if j > 0 {
      OnesAreARun(j - 1);
      var h := Pow2(j) - 1;
      assert h / 2 == Pow2(j - 1) - 1 && (h + 1) / 2 == Pow2(j - 1);
    }
  }

  lemma {:induction false} PrefixLeads(k: nat)
    requires k <= 32
    ensures LeadingOnes(Prefix(k)) == k
  {
    Pow2Word();
    Pow2Bound(32 - k);
    if k > 0 {
      PrefixLeads(k - 1);
      assert Pow2(32 - (k - 1)) == 2 * Pow2(32 - k);
    }
  }

  lemma ExponentFits(j: nat)
    requires Pow2(j) <= WORD
    ensures j <= 32
  {
    Pow2Word();
    if j > 32 {
      Pow2Rises(33, j);
    }
  }

  lemma AcceptedIsPrefix(m: Ipv4)
    requires MaskAccepted(m)
    ensures 1 <= LeadingOnes(m) <= 30 && m == Prefix(LeadingOnes(m))
  {
    assert LeadingOnes(0) == 0;
    var j := RunOfOnes(Not(m));
    ExponentFits(j);
    PrefixLeads(32 - j);
  }

  lemma PrefixIsAccepted(k: nat)
    requires 1 <= k <= 30
    ensures MaskAccepted(Prefix(k))
  {
    PrefixLeads(k);
    Pow2Bound(32 - k);
    OnesAreARun(32 - k);
  }

  /** `m` is the netmask of some prefix length from 1 to 30. */
  ghost predicate PrefixMask(m: Ipv4) {
    exists k: nat :: 1 <= k <= 30 && m == Prefix(k)
  }

  /** The accepted netmasks are exactly the prefixes /1 to /30. */
  lemma MasksArePrefixes(m: Ipv4)
    ensures MaskAccepted(m) <==> PrefixMask(m)
  {
    if MaskAccepted(m) {
      AcceptedIsPrefix(m);
    }
    if PrefixMask(m) {
      var k: nat :| 1 <= k <= 30 && m == Prefix(k);
      PrefixIsAccepted(k);
    }
  }

  // ---- Masking as arithmetic ----

  lemma {:induction false} AndOnes(x: nat, n: nat)
    requires x < Pow2(n)
    ensures And(x, Pow2(n) - 1) == x
  {
    if x > 0 {
      assert (Pow2(n) - 1) / 2 == Pow2(n - 1) - 1;
      AndOnes(x / 2, n - 1);
    }
  }

  /** The low `j` bits. */
  function Low(x: nat, j: nat): (r: nat)
    ensures r <= x
  {
    if j == 0 then 0 else 2 * Low(x / 2, j - 1) + x % 2
  }

  lemma LowHalves(x: nat, j: nat)
    requires j > 0
    ensures x - Low(x, j) == 2 * (x / 2 - Low(x / 2, j - 1))
  {}

  lemma {:induction false} LowCleared(x: nat, j: nat)
    ensures Low(x - Low(x, j), j) == 0
  {
    if j > 0 {
      LowCleared(x / 2, j - 1);
      assert x - Low(x, j) == 2 * (x / 2 - Low(x / 2, j - 1));
    }
  }

  lemma AndEven(x: nat, h: nat)
    ensures And(x, 2 * h) == 2 * And(x / 2, h)
  {
    assert 2 * h / 2 == h;
  }

  /** Masking with a run of ones above bit `j` clears the bits below it. */
  lemma {:induction false} AndMask(x: nat, n: nat, j: nat, m: nat)
    requires j <= n && x < Pow2(n) && m == Pow2(n) - Pow2(j)
    ensures And(x, m) == x - Low(x, j)
  {
    if j == 0 {
      AndOnes(x, n);
    } else {
      AndMask(x / 2, n - 1, j - 1, m / 2);
      AndEven(x, m / 2);
      LowHalves(x, j);
    }
  }

  lemma {:induction false} OrZero(x: nat)
    ensures Or(x, 0) == x
  {
    if x > 0 {
      OrZero(x / 2);
    }
  }

  lemma {:induction false} OrHost(x: nat, j: nat, h: nat)
    requires Low(x, j) == 0 && h == Pow2(j) - 1
    ensures Or(x, h) == x + h
  {
    if j == 0 {
      OrZero(x);
    } else {
      assert h / 2 == Pow2(j - 1) - 1;
      OrHost(x / 2, j - 1, h / 2);
    }
  }

  /** The numbers that differ only in the low bits are an interval. */
  lemma {:induction false} SameBlock(g: nat, x: nat, j: nat)
    ensures var low := g - Low(g, j); x - Low(x, j) == low <==> low <= x <= low + Pow2(j) - 1
  {
    if j > 0 {
      SameBlock(g / 2, x / 2, j - 1);
      LowHalves(g, j);
      LowHalves(x, j);
    }
  }

  // ---- Updates ----

  /** A text field and what parsing it as an address gives. */
  datatype Address = Address(text: string, parsed: Option<Ipv4>)

  /** The settings in force; a missing text reads as the empty string. */
  datatype Settings = Settings(supported: bool, addressWritable: bool, ip: Address, netmask: Address,
                               dhcpEnabled: Option<bool>, dhcpStart: Address, dhcpEnd: Address, lease: Option<nat>)

  datatype Update = Update(ip: Option<Address>, netmask: Option<Address>, dhcpEnabled: Option<bool>,
                           dhcpStart: Option<Address>, dhcpEnd: Option<Address>, lease: Option<nat>)

  datatype Error = Unavailable | AddressReadonly | InvalidIp | InvalidNetmask | InvalidRange | InvalidLease

  datatype Dhcp = Dhcp(start: Address, end: Address, lease: nat)

  datatype Outcome = Refused(error: Error) | Accepted(ip: Address, netmask: Address, dhcp: Option<Dhcp>)

  function Given<T>(a: Option<T>, b: T): T {
    if a.Some? then a.value else b
  }

  function First<T>(a: Option<T>, b: Option<T>): Option<T> {
    if a.Some? then a else b
  }

  function Network(gateway: Ipv4, m: Ipv4): Ipv4 {
    And(gateway, m)
  }

  function Broadcast(gateway: Ipv4, m: Ipv4): nat {
    Or(Network(gateway, m), Not(m))
  }

  predicate BadGateway(gateway: Ipv4, m: Ipv4) {
    var first := gateway / 0x100_0000;
    first == 0 || first == 127 || first >= 224 || gateway == Network(gateway, m) || gateway == Broadcast(gateway, m)
  }

  predicate BadRange(gateway: Ipv4, m: Ipv4, a: Ipv4, b: Ipv4) {
    var network, broadcast := Network(gateway, m), Broadcast(gateway, m);
    a > b || And(a, m) != network || And(b, m) != network || a <= network || b >= broadcast || a <= gateway <= b
  }

  function Params(u: Update, c: Settings): Outcome {
    if !c.supported then Refused(Unavailable)
    else
      var ip, netmask := Given(u.ip, c.ip), Given(u.netmask, c.netmask);
      if !c.addressWritable && (ip.text != c.ip.text || netmask.text != c.netmask.text) then Refused(AddressReadonly)
      else if ip.parsed.None? then Refused(InvalidIp)
      else if netmask.parsed.None? || !MaskAccepted(netmask.parsed.value) then Refused(InvalidNetmask)
      else if BadGateway(ip.parsed.value, netmask.parsed.value) then Refused(InvalidIp)
      else
        var enabled := First(u.dhcpEnabled, c.dhcpEnabled);
        if enabled.None? then Refused(Unavailable)
        else if !enabled.value then Accepted(ip, netmask, None)
        else
          var start, end := Given(u.dhcpStart, c.dhcpStart), Given(u.dhcpEnd, c.dhcpEnd);
          if start.parsed.None? || end.parsed.None?
             || BadRange(ip.parsed.value, netmask.parsed.value, start.parsed.value, end.parsed.value)
          then Refused(InvalidRange)
          else
            var lease := First(u.lease, c.lease);
            if lease.None? || !(3600 <= lease.value <= 2592000) || lease.value % 3600 != 0 then Refused(InvalidLease)
            else Accepted(ip, netmask, Some(Dhcp(start, end, lease.value)))
  }

  /** An address a client may be given. */
  predicate Leasable(gateway: Ipv4, m: Ipv4, x: Ipv4) {
    And(x, m) == Network(gateway, m) && x != Network(gateway, m) && x != Broadcast(gateway, m) && x != gateway
  }

  lemma MaskedBits(x: Ipv4, m: Ipv4, j: nat)
    requires j <= 32 && m == WORD - Pow2(j)
    ensures And(x, m) == x - Low(x, j)
  {
    Pow2Word();
    AndMask(x, 32, j, m);
  }

  lemma MaskedBroadcast(x: Ipv4, m: Ipv4, j: nat)
    requires j <= 32 && m == WORD - Pow2(j)
    ensures Broadcast(x, m) == x - Low(x, j) + Pow2(j) - 1
  {
    MaskedBits(x, m, j);
    LowCleared(x, j);
    OrHost(Network(x, m), j, Not(m));
  }

  /** Under an accepted mask a subnet is an interval of addresses. */
  lemma SubnetIsInterval(gateway: Ipv4, m: Ipv4, x: Ipv4)
    requires MaskAccepted(m)
    ensures And(x, m) == Network(gateway, m) <==> Network(gateway, m) <= x <= Broadcast(gateway, m)
  {
    AcceptedIsPrefix(m);
    var j := 32 - LeadingOnes(m);
    MaskedBits(gateway, m, j);
    MaskedBits(x, m, j);
    MaskedBroadcast(gateway, m, j);
    SameBlock(gateway, x, j);
  }

  ghost predicate Pool(gateway: Ipv4, m: Ipv4, a: Ipv4, b: Ipv4) {
    a <= b && forall x: Ipv4 :: a <= x <= b ==> Leasable(gateway, m, x)
  }

  /** A pool passes the range check exactly when it is not empty and every address
      in it is a leasable one of the gateway's subnet. */
  lemma PoolIsLeasable(gateway: Ipv4, m: Ipv4, a: Ipv4, b: Ipv4)
    requires MaskAccepted(m)
    ensures !BadRange(gateway, m, a, b) <==> Pool(gateway, m, a, b)
  {
    SubnetIsInterval(gateway, m, a);
    SubnetIsInterval(gateway, m, b);
    if !BadRange(gateway, m, a, b) {
      forall x: Ipv4 | a <= x <= b
        ensures Leasable(gateway, m, x)
      {
        SubnetIsInterval(gateway, m, x);
      }
    }
    if Pool(gateway, m, a, b) {
      assert Leasable(gateway, m, a) && Leasable(gateway, m, b);
      assert a <= gateway <= b ==> Leasable(gateway, m, gateway);
    }
  }

  /** Whatever is accepted is a prefix network whose gateway is a host of it, and
      a pool in which every address can be leased. */
  lemma AcceptedUpdatesAreSafe(u: Update, c: Settings)
    ensures var r := Params(u, c);
      r.Accepted? ==>
        && r.ip.parsed.Some? && r.netmask.parsed.Some?
        && var gateway, m := r.ip.parsed.value, r.netmask.parsed.value;
           && PrefixMask(m)
           && gateway != Network(gateway, m) && gateway != Broadcast(gateway, m)
           && (r.dhcp.Some? ==>
                 && r.dhcp.value.start.parsed.Some? && r.dhcp.value.end.parsed.Some?
                 && Pool(gateway, m, r.dhcp.value.start.parsed.value, r.dhcp.value.end.parsed.value))
           && (!c.addressWritable ==> r.ip.text == c.ip.text && r.netmask.text == c.netmask.text)
  {
    var r := Params(u, c);
    if r.Accepted? {
      MasksArePrefixes(r.netmask.parsed.value);
      if r.dhcp.Some? {
        PoolIsLeasable(r.ip.parsed.value, r.netmask.parsed.value, r.dhcp.value.start.parsed.value,
                       r.dhcp.value.end.parsed.value);
      }
    }
  }

  /** The text field stays what it is. */
  predicate Unchanged(u: Option<Address>, c: Address) {
    u.None? || u.value.text == c.text
  }

  /** A network a gateway may have: not in 0/8 or 127/8, below the multicast range,
      and the address is a host of it. */
  ghost predicate GoodGateway(g: Ipv4, m: Ipv4) {
    && g >= 0x100_0000 && !(0x7F00_0000 <= g < 0x8000_0000) && g < 0xE000_0000
    && g != Network(g, m) && g != Broadcast(g, m)
  }

  /** A lease of 1 to 720 whole hours. */
  ghost predicate GoodLease(seconds: nat) {
    exists h: nat :: 1 <= h <= 720 && seconds == 3600 * h
  }

  lemma LeaseExactly(seconds: nat)
    ensures 3600 <= seconds <= 2592000 && seconds % 3600 == 0 <==> GoodLease(seconds)
  {
    if 3600 <= seconds <= 2592000 && seconds % 3600 == 0 {
      assert seconds == 3600 * (seconds / 3600);
    }
  }

  lemma GatewayExactly(g: Ipv4, m: Ipv4)
    ensures !BadGateway(g, m) <==> GoodGateway(g, m)
  {}

  ghost predicate GoodPool(g: Ipv4, m: Ipv4, start: Address, end: Address) {
    start.parsed.Some? && end.parsed.Some? && Pool(g, m, start.parsed.value, end.parsed.value)
  }

  /** When an update is accepted. */
  ghost predicate Acceptable(u: Update, c: Settings) {
    var ip, netmask := Given(u.ip, c.ip), Given(u.netmask, c.netmask);
    && c.supported && (c.addressWritable || (Unchanged(u.ip, c.ip) && Unchanged(u.netmask, c.netmask)))
    && ip.parsed.Some? && netmask.parsed.Some? && PrefixMask(netmask.parsed.value)
    && GoodGateway(ip.parsed.value, netmask.parsed.value)
    && var enabled := First(u.dhcpEnabled, c.dhcpEnabled);
       && enabled.Some?
       && (enabled.value ==>
             && GoodPool(ip.parsed.value, netmask.parsed.value, Given(u.dhcpStart, c.dhcpStart), Given(u.dhcpEnd, c.dhcpEnd))
             && First(u.lease, c.lease).Some? && GoodLease(First(u.lease, c.lease).value))
  }

  /** An update is accepted exactly when all its parts are good, and then it carries
      the merged values, with DHCP exactly when it is enabled. */
  lemma AcceptedExactly(u: Update, c: Settings)
    ensures Params(u, c).Accepted? <==> Acceptable(u, c)
    ensures Params(u, c).Accepted? ==>
      && Params(u, c).ip == Given(u.ip, c.ip) && Params(u, c).netmask == Given(u.netmask, c.netmask)
      && Params(u, c).dhcp == (if First(u.dhcpEnabled, c.dhcpEnabled) == Some(true)
           then Some(Dhcp(Given(u.dhcpStart, c.dhcpStart), Given(u.dhcpEnd, c.dhcpEnd), First(u.lease, c.lease).value))
           else None)
  {
    var ip, netmask := Given(u.ip, c.ip), Given(u.netmask, c.netmask);
    if ip.parsed.Some? && netmask.parsed.Some? {
      var g, m := ip.parsed.value, netmask.parsed.value;
      MasksArePrefixes(m);
      GatewayExactly(g, m);
      var start, end := Given(u.dhcpStart, c.dhcpStart), Given(u.dhcpEnd, c.dhcpEnd);
      if MaskAccepted(m) && start.parsed.Some? && end.parsed.Some? {
        PoolIsLeasable(g, m, start.parsed.value, end.parsed.value);
      }
    }
    if First(u.lease, c.lease).Some? {
      LeaseExactly(First(u.lease, c.lease).value);
    }
  }
}
