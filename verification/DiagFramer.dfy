/** The streaming deframer of DIAG captures (`Parser::feed` and `end_file` in
    rust/src/neighbor.rs): octet stuffing and frame check of section 4.2 and
    Appendix C.2 of RFC 1662. What `process` does with a payload is left to
    its consumer; here each payload is recorded in `delivered`. */
module DiagFramer {
  import opened Common
  import opened Fcs16

  const FLAG: Octet := 0x7e
  const ESCAPE: Octet := 0x7d
  const FRAME_MAX := 65536

  datatype Delivery = Delivery(payload: seq<Octet>, number: nat, capture: nat, at: int)

  datatype State = State(
    frame: seq<Octet>,
    escaped: bool,
    dropping: bool,
    frames: nat,
    malformed: nat,
    malformedAt: int,
    number: nat,
    now: int,
    capture: Option<nat>,
    delivered: seq<Delivery>)

  predicate Idle(s: State) {
    s.frame == [] && !s.escaped && !s.dropping
  }

  function ToIdle(s: State): State {
    s.(frame := [], escaped := false, dropping := false)
  }

  function Spoiled(s: State): State {
    s.(malformed := s.malformed + 1, malformedAt := s.now)
  }

  predicate Damaged(s: State) {
    s.dropping || s.escaped || (s.frame != [] && (|s.frame| < 3 || !Valid(s.frame)))
  }

  function Delivered(s: State, payload: seq<Octet>, capture: nat): State {
    s.(frames := s.frames + 1, number := s.number + 1,
       delivered := s.delivered + [Delivery(payload, s.number + 1, capture, s.now)])
  }

  function OnFlag(s: State, capture: nat): State {
    ToIdle(if Damaged(s) then Spoiled(s)
           else if s.frame != [] then Delivered(s, s.frame[..|s.frame| - 2], capture)
           else s)
  }

  /** An octet after unstuffing. */
  function Pushed(s: State, b: Octet): State {
    if |s.frame| == FRAME_MAX then s.(dropping := true) else s.(frame := s.frame + [b])
  }

  function OnOctet(s: State, raw: Octet, capture: nat): State {
    if raw == FLAG then OnFlag(s, capture)
    else if s.dropping then s
    else if s.escaped then Pushed(s.(escaped := false), raw ^ 0x20)
    else if raw == ESCAPE then s.(escaped := true)
    else Pushed(s, raw)
  }

  function OnOctets(s: State, input: seq<Octet>, capture: nat): State {
    if input == [] then s else OnOctet(OnOctets(s, input[..|input| - 1], capture), input[|input| - 1], capture)
  }

  function Ended(s: State, capture: nat): State {
    if s.capture != Some(capture) then s
    else ToIdle(if Idle(s) then s else Spoiled(s)).(capture := None)
  }

  /** What `feed` does before the first octet. */
  function Switched(s: State, capture: nat, now: int): State {
    (if s.capture.Some? && s.capture.value != capture then Ended(s, s.capture.value) else s)
      .(capture := Some(capture), now := now)
  }

  function Fed(s: State, input: seq<Octet>, capture: nat, now: int): State {
    OnOctets(Switched(s, capture, now), input, capture)
  }

  class Framer {
    var frame: seq<Octet>
    var escaped: bool
    var dropping: bool
    var frames: nat
    var malformed: nat
    var malformedAt: int
    var number: nat
    var now: int
    var capture: Option<nat>
    var delivered: seq<Delivery>

    ghost function Value(): State
      reads this
    {
      State(frame, escaped, dropping, frames, malformed, malformedAt, number, now, capture, delivered)
    }

    constructor ()
      ensures Value() == State([], false, false, 0, 0, 0, 0, 0, None, [])
    {
      frame, escaped, dropping, frames, malformed := [], false, false, 0, 0;
      malformedAt, number, now, capture, delivered := 0, 0, 0, None, [];
    }

    method EndFile(which: nat)
      modifies this
      ensures Value() == Ended(old(Value()), which)
      ensures old(capture) == Some(which) ==>
        && frame == [] && !escaped && !dropping && capture == None
        && malformed == old(malformed) + if old(frame) == [] && !old(escaped) && !old(dropping) then 0 else 1
      ensures frames == old(frames) && delivered == old(delivered)
      ensures old(capture) != Some(which) ==> Value() == old(Value())
    {
      if capture != Some(which) {
        return;
      }
      if frame != [] || escaped || dropping {
        malformed := malformed + 1;
        malformedAt := now;
      }
      frame, escaped, dropping := [], false, false;
      capture := None;
    }

    method Accept(raw: Octet, which: nat)
      modifies this
      ensures Value() == OnOctet(old(Value()), raw, which)
    {
      if raw == FLAG {
        var ok := true;
        if frame != [] && |frame| >= 3 {
          ok := CheckFcs(frame);
        }
        if dropping || escaped || (frame != [] && (|frame| < 3 || !ok)) {
          malformed := malformed + 1;
          malformedAt := now;
        } else if frame != [] {
          frames := frames + 1;
          number := number + 1;
          delivered := delivered + [Delivery(frame[..|frame| - 2], number, which, now)];
        }
        frame, escaped, dropping := [], false, false;
        return;
      }
      if dropping {
        return;
      }
      var byte := raw;
      if escaped {
        escaped := false;
        byte := raw ^ 0x20;
      } else if raw == ESCAPE {
        escaped := true;
        return;
      }
      if |frame| == FRAME_MAX {
        dropping := true;
      } else {
        frame := frame + [byte];
      }
    }

    method Feed(input: seq<Octet>, which: nat, at: int)
      modifies this
      ensures Value() == Fed(old(Value()), input, which, at)
    {
      if capture.Some? && capture.value != which {
        EndFile(capture.value);
      }
      capture := Some(which);
      now := at;
      ghost var start := Value();
      for i := 0 to |input|
        invariant Value() == OnOctets(start, input[..i], which)
      {
        Accept(input[i], which);
        assert input[..i + 1][..i] == input[..i];
      }
      assert input[..|input|] == input;
    }
  }

  // ---- Chunking and resynchronisation ----

  lemma {:induction false} OctetsSplit(s: State, a: seq<Octet>, b: seq<Octet>, capture: nat)
    ensures OnOctets(s, a + b, capture) == OnOctets(OnOctets(s, a, capture), b, capture)
  {
    if b == [] {
      assert a + b == a;
    } else {
      assert (a + b)[..|a + b| - 1] == a + b[..|b| - 1];
      OctetsSplit(s, a, b[..|b| - 1], capture);
    }
  }

  lemma {:induction false} OctetsKeep(s: State, input: seq<Octet>, capture: nat)
    ensures OnOctets(s, input, capture).capture == s.capture && OnOctets(s, input, capture).now == s.now
  {
    if input != [] {
      OctetsKeep(s, input[..|input| - 1], capture);
    }
  }

  function FedChunks(s: State, chunks: seq<seq<Octet>>, capture: nat, now: int): State {
    if chunks == [] then s
    else Fed(FedChunks(s, chunks[..|chunks| - 1], capture, now), chunks[|chunks| - 1], capture, now)
  }

  function Joined(chunks: seq<seq<Octet>>): seq<Octet> {
    if chunks == [] then [] else Joined(chunks[..|chunks| - 1]) + chunks[|chunks| - 1]
  }

  /** However a stream is cut into reads, the parser ends in the same state. */
  lemma {:induction false} ChunkingIsIrrelevant(s: State, chunks: seq<seq<Octet>>, capture: nat, now: int)
    requires chunks != []
    ensures FedChunks(s, chunks, capture, now) == Fed(s, Joined(chunks), capture, now)
  {
    var init, last := chunks[..|chunks| - 1], chunks[|chunks| - 1];
    if init == [] {
      assert Joined(chunks) == last;
    } else {
      ChunkingIsIrrelevant(s, init, capture, now);
      var start := Switched(s, capture, now);
      OctetsKeep(start, Joined(init), capture);
      OctetsSplit(start, Joined(init), last, capture);
    }
  }

  /** One flag returns the framer to idle from any state. */
  lemma FlagResynchronises(s: State, input: seq<Octet>, capture: nat)
    ensures Idle(OnOctets(s, input + [FLAG], capture))
  {
    assert (input + [FLAG])[..|input|] == input;
  }

  // ---- Encoding ----

  /** Octet stuffing; a sender may escape more than it has to, but not 0x5e,
      whose escaped form would be a flag. */
  predicate Escapable(extra: set<Octet>) {
    0x5e !in extra
  }

  function StuffOctet(b: Octet, extra: set<Octet>): seq<Octet> {
    if b == FLAG || b == ESCAPE || b in extra then [ESCAPE, b ^ 0x20] else [b]
  }

  function Stuff(data: seq<Octet>, extra: set<Octet>): seq<Octet> {
    if data == [] then [] else Stuff(data[..|data| - 1], extra) + StuffOctet(data[|data| - 1], extra)
  }

  function Encode(payload: seq<Octet>, extra: set<Octet>): seq<Octet> {
    Stuff(payload + Trailer(payload), extra) + [FLAG]
  }

  lemma XorTwice(b: Octet)
    ensures b ^ 0x20 ^ 0x20 == b
    ensures b != 0x5e ==> b ^ 0x20 != FLAG
  {}

  lemma OctetArrives(s: State, b: Octet, extra: set<Octet>, capture: nat)
    requires !s.escaped && !s.dropping && Escapable(extra)
    ensures OnOctets(s, StuffOctet(b, extra), capture) == Pushed(s, b)
  {
    var w := StuffOctet(b, extra);
    if |w| == 2 {
      XorTwice(b);
      assert w[..1] == [ESCAPE] && w[..1][..0] == [];
      assert OnOctets(s, [], capture) == s;
      assert OnOctets(s, w[..1], capture) == s.(escaped := true);
    } else {
      assert w[..0] == [];
    }
  }

  lemma DroppingIgnores(s: State, b: Octet, extra: set<Octet>, capture: nat)
    requires !s.escaped && s.dropping && Escapable(extra)
    ensures OnOctets(s, StuffOctet(b, extra), capture) == s
  {
    var w := StuffOctet(b, extra);
    XorTwice(b);
    if |w| == 2 {
      assert w[..1] == [ESCAPE] && w[..1][..0] == [];
      assert OnOctets(s, w[..1], capture) == s;
    } else {
      assert w[..0] == [];
    }
  }

  /** The framer after collecting `data`, up to the limit. */
  function Collected(s: State, data: seq<Octet>): State {
    if |data| <= FRAME_MAX then s.(frame := data) else s.(frame := data[..FRAME_MAX], dropping := true)
  }

  lemma CollectsOneMore(s: State, init: seq<Octet>, b: Octet)
    requires Idle(s)
    ensures var m := Collected(s, init);
      Collected(s, init + [b]) == if m.dropping then m else Pushed(m, b)
  {
    assert |init| > FRAME_MAX ==> (init + [b])[..FRAME_MAX] == init[..FRAME_MAX];
    assert |init| == FRAME_MAX ==> (init + [b])[..FRAME_MAX] == init;
  }

  /** Feeding stuffed data to an idle framer collects the data. */
  lemma {:induction false} DataArrives(s: State, data: seq<Octet>, extra: set<Octet>, capture: nat)
    requires Idle(s) && Escapable(extra)
    ensures OnOctets(s, Stuff(data, extra), capture) == Collected(s, data)
  {
    if data != [] {
      var init, b := data[..|data| - 1], data[|data| - 1];
      DataArrives(s, init, extra, capture);
      OctetsSplit(s, Stuff(init, extra), StuffOctet(b, extra), capture);
      var m := Collected(s, init);
      CollectsOneMore(s, init, b);
      assert init + [b] == data;
      if m.dropping {
        DroppingIgnores(m, b, extra, capture);
      } else {
        OctetArrives(m, b, extra, capture);
      }
    }
  }

  predicate Fits(payload: seq<Octet>) {
    1 <= |payload| <= FRAME_MAX - 2
  }

  /** An encoded frame fed to an idle framer delivers exactly its payload, once,
      if the payload has 1 to 65534 octets; otherwise it counts as malformed. */
  lemma FrameIsDelivered(s: State, payload: seq<Octet>, extra: set<Octet>, capture: nat)
    requires Idle(s) && Escapable(extra)
    ensures OnOctets(s, Encode(payload, extra), capture)
         == if Fits(payload) then Delivered(s, payload, capture) else Spoiled(s)
  {
    var data := payload + Trailer(payload);
    var wire := Stuff(data, extra);
    assert (wire + [FLAG])[..|wire|] == wire;
    DataArrives(s, data, extra, capture);
    TrailedFrameIsValid(payload);
    assert data[..|data| - 2] == payload;
    if Fits(payload) {
      assert OnOctets(s, wire, capture) == s.(frame := data);
    }
  }

  function EncodeAll(payloads: seq<seq<Octet>>, extra: set<Octet>): seq<Octet> {
    if payloads == [] then []
    else EncodeAll(payloads[..|payloads| - 1], extra) + Encode(payloads[|payloads| - 1], extra)
  }

  /** The state after all of `payloads` arrived intact. */
  function DeliveredAll(s: State, payloads: seq<seq<Octet>>, capture: nat): State {
    if payloads == [] then s
    else
      var before := DeliveredAll(s, payloads[..|payloads| - 1], capture);
      var p := payloads[|payloads| - 1];
      if Fits(p) then Delivered(before, p, capture) else Spoiled(before)
  }

  lemma {:induction false} FramesAreDelivered(s: State, payloads: seq<seq<Octet>>, extra: set<Octet>, capture: nat)
    requires Idle(s) && Escapable(extra)
    ensures OnOctets(s, EncodeAll(payloads, extra), capture) == DeliveredAll(s, payloads, capture)
    ensures Idle(DeliveredAll(s, payloads, capture))
  {
    if payloads != [] {
      var init, p := payloads[..|payloads| - 1], payloads[|payloads| - 1];
      FramesAreDelivered(s, init, extra, capture);
      OctetsSplit(s, EncodeAll(init, extra), Encode(p, extra), capture);
      FrameIsDelivered(DeliveredAll(s, init, capture), p, extra, capture);
    }
  }

  lemma {:induction false} GarbageIsSilent(s: State, garbage: seq<Octet>, capture: nat)
    requires FLAG !in garbage
    ensures var t := OnOctets(s, garbage, capture);
      t.frames == s.frames && t.malformed == s.malformed && t.delivered == s.delivered && t.number == s.number
  {
    if garbage != [] {
      GarbageIsSilent(s, garbage[..|garbage| - 1], capture);
    }
  }

  /** Flag-free garbage in the middle of a stream damages at most what stands
      between its two flags: from an idle framer, the frames before it and the
      frames after it are all delivered, and in between at most one frame or
      one malformed count is added. */
  lemma GarbageIsContained(s: State, before: seq<seq<Octet>>, garbage: seq<Octet>, after: seq<seq<Octet>>,
                           extra: set<Octet>, capture: nat)
    requires Idle(s) && Escapable(extra) && FLAG !in garbage
    ensures var stream := EncodeAll(before, extra) + (garbage + [FLAG]) + EncodeAll(after, extra);
      var first := DeliveredAll(s, before, capture);
      var mid := OnOctets(first, garbage + [FLAG], capture);
      && OnOctets(s, stream, capture) == DeliveredAll(mid, after, capture)
      && first.delivered <= mid.delivered
      && mid.frames - first.frames == |mid.delivered| - |first.delivered|
      && (mid.frames - first.frames) + (mid.malformed - first.malformed) <= 1
  {
    var a, g, z := EncodeAll(before, extra), garbage + [FLAG], EncodeAll(after, extra);
    OctetsSplit(s, a + g, z, capture);
    OctetsSplit(s, a, g, capture);
    FramesAreDelivered(s, before, extra, capture);
    var first := DeliveredAll(s, before, capture);
    FlagResynchronises(first, garbage, capture);
    FramesAreDelivered(OnOctets(first, g, capture), after, extra, capture);
    GarbageIsSilent(first, garbage, capture);
    assert g[..|garbage|] == garbage;
  }

  // ---- Every frame, good or bad ----

  lemma FlagOnCollected(s: State, data: seq<Octet>, capture: nat)
    requires Idle(s)
    ensures OnFlag(Collected(s, data), capture) ==
      if data == [] then s
      else if 3 <= |data| <= FRAME_MAX && Valid(data) then Delivered(s, data[..|data| - 2], capture)
      else Spoiled(s)
  {}

  /** What stands between two flags is delivered exactly when it has 3 to 65536
      octets and ends in its own check sequence; two flags in a row are nothing;
      anything else is counted as malformed, once. */
  lemma FrameExactly(s: State, data: seq<Octet>, extra: set<Octet>, capture: nat)
    requires s.frame == [] && !s.escaped && !s.dropping && Escapable(extra)
    ensures var t := OnOctets(s, Stuff(data, extra) + [0x7e], capture); var n := |data|;
      && t.frame == [] && !t.escaped && !t.dropping
      && (if n == 0 then t == s
          else if 3 <= n <= 65536 && data == data[..n - 2] + Trailer(data[..n - 2]) then
            && t.delivered == s.delivered + [Delivery(data[..n - 2], s.number + 1, capture, s.now)]
            && t.frames == s.frames + 1 && t.number == s.number + 1 && t.malformed == s.malformed
          else
            && t.delivered == s.delivered && t.frames == s.frames && t.number == s.number
            && t.malformed == s.malformed + 1)
  {
    var wire := Stuff(data, extra);
    assert (wire + [FLAG])[..|wire|] == wire;
    DataArrives(s, data, extra, capture);
    FlagOnCollected(s, data, capture);
    if |data| >= 3 {
      ValidMeansTrailed(data);
    }
  }

  /** An escape right before the flag aborts the frame. */
  lemma AbortedFrameIsDropped(s: State, data: seq<Octet>, extra: set<Octet>, capture: nat)
    requires s.frame == [] && !s.escaped && !s.dropping && Escapable(extra)
    ensures var t := OnOctets(s, Stuff(data, extra) + [0x7d] + [0x7e], capture);
      && t.frame == [] && !t.escaped && !t.dropping
      && t.delivered == s.delivered && t.frames == s.frames && t.malformed == s.malformed + 1
  {
    var wire := Stuff(data, extra);
    assert (wire + [ESCAPE])[..|wire|] == wire;
    assert (wire + [ESCAPE] + [FLAG])[..|wire| + 1] == wire + [ESCAPE];
    DataArrives(s, data, extra, capture);
  }

  // ---- From one capture to the next ----

  /** The payloads that a frame can carry. */
  function Fitting(payloads: seq<seq<Octet>>): seq<seq<Octet>> {
    if payloads == [] then []
    else
      var p := payloads[|payloads| - 1];
      Fitting(payloads[..|payloads| - 1]) + if 1 <= |p| <= 65534 then [p] else []
  }

  /** Deliveries of these payloads, numbered on from `number`. */
  function Numbered(payloads: seq<seq<Octet>>, number: nat, capture: nat, at: int): seq<Delivery> {
    seq(|payloads|, i requires 0 <= i < |payloads| => Delivery(payloads[i], number + i + 1, capture, at))
  }

  lemma {:induction false} DeliveredAllFields(s: State, payloads: seq<seq<Octet>>, capture: nat)
    ensures var t := DeliveredAll(s, payloads, capture); var fit := Fitting(payloads);
      && t.delivered == s.delivered + Numbered(fit, s.number, capture, s.now)
      && t.frames == s.frames + |fit| && t.number == s.number + |fit|
      && |fit| <= |payloads| && t.malformed == s.malformed + |payloads| - |fit|
      && t.now == s.now && t.capture == s.capture
  {
    if payloads == [] {
      assert s.delivered + [] == s.delivered;
    } else {
      var init, p := payloads[..|payloads| - 1], payloads[|payloads| - 1];
      DeliveredAllFields(s, init, capture);
      var fit := Fitting(init);
      if Fits(p) {
        var d := Delivery(p, s.number + |fit| + 1, capture, s.now);
        assert Numbered(fit + [p], s.number, capture, s.now) == Numbered(fit, s.number, capture, s.now) + [d];
        assert s.delivered + Numbered(fit, s.number, capture, s.now) + [d]
            == s.delivered + (Numbered(fit, s.number, capture, s.now) + [d]);
      }
    }
  }

  lemma OctetsKeepCapture(s: State, input: seq<Octet>, capture: nat, now: int)
    requires s.capture == Some(capture) && s.now == now
    ensures OnOctets(s, input, capture).capture == Some(capture) && OnOctets(s, input, capture).now == now
  {
    OctetsKeep(s, input, capture);
  }

  /** A read from another capture starts clean: what stood unfinished is counted as
      malformed once, and every frame of the new capture that fits is delivered. */
  lemma CaptureStartsClean(s: State, payloads: seq<seq<Octet>>, extra: set<Octet>, capture: nat, now: int)
    requires Escapable(extra) && s.capture != Some(capture)
    requires s.capture.None? ==> s.frame == [] && !s.escaped && !s.dropping
    ensures var t := Fed(s, EncodeAll(payloads, extra), capture, now); var fit := Fitting(payloads);
      && t.delivered == s.delivered + Numbered(fit, s.number, capture, now)
      && t.frames == s.frames + |fit|
      && t.malformed == s.malformed + (|payloads| - |fit|)
                        + (if s.frame == [] && !s.escaped && !s.dropping then 0 else 1)
      && t.frame == [] && !t.escaped && !t.dropping && t.capture == Some(capture) && t.now == now
  {
    var start := Switched(s, capture, now);
    FramesAreDelivered(start, payloads, extra, capture);
    DeliveredAllFields(start, payloads, capture);
  }
}
