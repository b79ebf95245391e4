/** The 16-bit frame check sequence of RFC 1662 as rust/src/neighbor.rs checks
    it: one bit at a time, from the low end, with the polynomial 0x8408. */
module Fcs16 {
  type Octet = bv8

  const GOOD: bv16 := 0xf0b8

  function Shift(c: bv16): bv16 {
    (c >> 1) ^ (if c & 1 != 0 then 0x8408 else 0)
  }

  function Shift8(c: bv16): bv16 {
    Shift(Shift(Shift(Shift(Shift(Shift(Shift(Shift(c))))))))
  }

  function Step(c: bv16, b: Octet): bv16 {
    Shift8(c ^ (b as bv16))
  }

  function Fcs(c: bv16, data: seq<Octet>): bv16 {
    if data == [] then c else Step(Fcs(c, data[..|data| - 1]), data[|data| - 1])
  }

  predicate Valid(data: seq<Octet>) {
    Fcs(0xffff, data) == GOOD
  }

  function Low(c: bv16): Octet {
    (c & 0xff) as bv8
  }

  function High(c: bv16): Octet {
    ((c >> 8) & 0xff) as bv8
  }

  /** The two octets a sender appends: the complement, low octet first. */
  function Trailer(data: seq<Octet>): seq<Octet> {
    var c := !Fcs(0xffff, data);
    [Low(c), High(c)]
  }

  method CheckFcs(data: seq<Octet>) returns (ok: bool)
    ensures ok == Valid(data)
  {
    var crc: bv16 := 0xffff;
    for i := 0 to |data|
      invariant crc == Fcs(0xffff, data[..i])
    {
      assert data[..i + 1][..i] == data[..i];
      var start := crc ^ (data[i] as bv16);
      crc := start;
      for k := 0 to 8
        invariant crc == Shifts(start, k)
      {
        crc := (crc >> 1) ^ (if crc & 1 != 0 then 0x8408 else 0);
      }
      EightShifts(start);
    }
    assert data[..|data|] == data;
    ok := crc == 0xf0b8;
  }

  function Shifts(c: bv16, k: nat): bv16 {
    if k == 0 then c else Shift(Shifts(c, k - 1))
  }

  lemma EightShifts(c: bv16)
    ensures Shifts(c, 8) == Shift8(c)
  {
    assert Shifts(c, 1) == Shift(Shifts(c, 0));
    assert Shifts(c, 2) == Shift(Shift(c));
    assert Shifts(c, 4) == Shift(Shift(Shifts(c, 2)));
    assert Shifts(c, 6) == Shift(Shift(Shifts(c, 4)));
  }

  /** Adding the complement of the low octet leaves ones below. */
  lemma FirstOctetOfTrailer(c: bv16)
    ensures (c ^ (Low(!c) as bv16)) & 0xff == 0xff && (c ^ (Low(!c) as bv16)) >> 8 == c >> 8
  {}

  lemma ShiftOutOnes(c: bv16)
    requires c & 0xff == 0xff
    ensures Shift8(c) == (c >> 8) ^ 0x0f78
  {}

  lemma SecondOctetOfTrailer(c: bv16)
    ensures (c >> 8) ^ 0x0f78 ^ (High(!c) as bv16) == 0x0f87
  {}

  lemma ResidueStep(c: bv16)
    ensures Step(Step(c, Low(!c)), High(!c)) == GOOD
  {
    FirstOctetOfTrailer(c);
    ShiftOutOnes(c ^ (Low(!c) as bv16));
    SecondOctetOfTrailer(c);
  }

  /** Every frame with its trailer passes the check. */
  lemma TrailedFrameIsValid(data: seq<Octet>)
    ensures Valid(data + Trailer(data))
  {
    var c := Fcs(0xffff, data);
    var t := Trailer(data);
    var whole := data + t;
    assert whole[..|whole| - 1] == data + [t[0]];
    assert (data + [t[0]])[..|data|] == data;
    assert Fcs(0xffff, data + [t[0]]) == Step(c, t[0]);
    ResidueStep(c);
  }

  lemma ShiftInjective(c: bv16, d: bv16)
    requires Shift(c) == Shift(d)
    ensures c == d
  {}

  lemma {:induction false} ShiftsInjective(c: bv16, d: bv16, k: nat)
    requires Shifts(c, k) == Shifts(d, k)
    ensures c == d
  {
    if k > 0 {
      ShiftInjective(Shifts(c, k - 1), Shifts(d, k - 1));
      ShiftsInjective(c, d, k - 1);
    }
  }

  lemma Shift8Injective(c: bv16, d: bv16)
    requires Shift8(c) == Shift8(d)
    ensures c == d
  {
    EightShifts(c);
    EightShifts(d);
    ShiftsInjective(c, d, 8);
  }

  lemma XorCancels(c: bv16, d: bv16, b: Octet, e: Octet)
    ensures c ^ (b as bv16) == d ^ (b as bv16) ==> c == d
    ensures c ^ (b as bv16) == c ^ (e as bv16) ==> b == e
  {}

  lemma StepInjective(c: bv16, d: bv16, b: Octet)
    requires Step(c, b) == Step(d, b)
    ensures c == d
  {
    Shift8Injective(c ^ (b as bv16), d ^ (b as bv16));
    XorCancels(c, d, b, b);
  }

  lemma StepSeparates(c: bv16, b: Octet, e: Octet)
    requires Step(c, b) == Step(c, e)
    ensures b == e
  {
    Shift8Injective(c ^ (b as bv16), c ^ (e as bv16));
    XorCancels(c, c, b, e);
  }

  lemma {:induction false} FcsSplit(c: bv16, a: seq<Octet>, b: seq<Octet>)
    ensures Fcs(c, a + b) == Fcs(Fcs(c, a), b)
  {
    if b == [] {
      assert a + b == a;
    } else {
      assert (a + b)[..|a + b| - 1] == a + b[..|b| - 1];
      FcsSplit(c, a, b[..|b| - 1]);
    }
  }

  lemma {:induction false} FcsRemembers(c: bv16, d: bv16, data: seq<Octet>)
    requires Fcs(c, data) == Fcs(d, data)
    ensures c == d
  {
    if data != [] {
      var init, b := data[..|data| - 1], data[|data| - 1];
      StepInjective(Fcs(c, init), Fcs(d, init), b);
      FcsRemembers(c, d, init);
    }
  }

  /** A frame of which a single octet was altered on the way is never accepted. */
  lemma AlteredOctetIsCaught(data: seq<Octet>, i: nat, b: Octet)
    requires i < |data| && data[i] != b && Valid(data)
    ensures !Valid(data[i := b])
  {
    var head, tail := data[..i], data[i + 1..];
    var c := Fcs(0xffff, head);
    assert data == head + [data[i]] + tail && data[i := b] == head + [b] + tail;
    assert (head + [data[i]])[..i] == head && (head + [b])[..i] == head;
    FcsSplit(0xffff, head + [data[i]], tail);
    FcsSplit(0xffff, head + [b], tail);
    if Valid(data[i := b]) {
      FcsRemembers(Step(c, data[i]), Step(c, b), tail);
      StepSeparates(c, data[i], b);
    }
  }

  lemma ResidueOnlyFromTrailer(c: bv16, lo: Octet, hi: Octet)
    requires Step(Step(c, lo), hi) == GOOD
    ensures lo == Low(!c) && hi == High(!c)
  {}

  /** The check accepts exactly the frames that end in their own trailer. */
  lemma ValidMeansTrailed(frame: seq<Octet>)
    requires |frame| >= 2
    ensures var data := frame[..|frame| - 2]; Valid(frame) <==> frame == data + Trailer(data)
  {
    var n := |frame|;
    var data := frame[..n - 2];
    var c := Fcs(0xffff, data);
    assert frame[..n - 1][..n - 2] == data;
    assert Fcs(0xffff, frame) == Step(Step(c, frame[n - 2]), frame[n - 1]);
    if Valid(frame) {
      ResidueOnlyFromTrailer(c, frame[n - 2], frame[n - 1]);
      assert frame == data + [frame[n - 2], frame[n - 1]];
    } else if frame == data + Trailer(data) {
      TrailedFrameIsValid(data);
    }
  }
}
