/** When an automatic detection starts (`Watcher` in rust/src/nat.rs). */
module NatWatcher {
  import opened Common

  const SETTLE := 30
  const RETRIES := [60, 300, 900]

  /** The cached result: the addresses it belongs to, and whether it failed. */
  datatype Cached = Cached(wan: seq<string>, failed: bool)

  datatype State = State(seen: seq<string>, since: nat, attempts: nat, retryAt: Option<nat>)

  predicate Fits(s: State, addresses: seq<string>) {
    addresses == [] || addresses == s.seen
  }

  function Noticed(s: State, addresses: seq<string>, now: nat): State {
    if Fits(s, addresses) then s else State(addresses, now, 0, None)
  }

  predicate Due(s: State, addresses: seq<string>, cached: Option<Cached>, busy: bool, now: nat) {
    && addresses != [] && addresses == s.seen
    && now >= s.since + SETTLE
    && !(cached.Some? && !cached.value.failed && cached.value.wan == s.seen)
    && s.attempts <= |RETRIES| && !busy
    && (s.retryAt.Some? ==> now >= s.retryAt.value)
  }

  function Finished(s: State, failed: bool, now: nat): State {
    s.(attempts := s.attempts + 1,
       retryAt := if s.attempts < |RETRIES| && failed then Some(now + RETRIES[s.attempts]) else None)
  }

  class Watcher {
    var seen: seq<string>
    var since: nat
    var attempts: nat
    var retryAt: Option<nat>

    ghost function Value(): State
      reads this
    {
      State(seen, since, attempts, retryAt)
    }

    constructor (now: nat)
      ensures Value() == State([], now, 0, None)
    {
      seen, since, attempts, retryAt := [], now, 0, None;
    }

    method Check(addresses: seq<string>, cached: Option<Cached>, busy: bool, now: nat) returns (due: bool)
      modifies this
      ensures Value() == Noticed(old(Value()), addresses, now)
      ensures due == Due(old(Value()), addresses, cached, busy, now)
      ensures due <==>
        && addresses != [] && addresses == old(seen) && now - old(since) >= 30 && old(attempts) <= 3 && !busy
        && (old(retryAt).None? || now >= old(retryAt).value)
        && !(cached.Some? && !cached.value.failed && cached.value.wan == addresses)
      ensures addresses != [] && addresses != old(seen) ==>
        seen == addresses && since == now && attempts == 0 && retryAt == None
      ensures addresses == [] || addresses == old(seen) ==> Value() == old(Value())
    {
      if addresses == [] {
        return false;
      }
      if addresses != seen {
        seen := addresses;
        since := now;
        attempts := 0;
        retryAt := None;
        return false;
      }
      if now - since < SETTLE {
        return false;
      }
      if cached.Some? && !cached.value.failed && cached.value.wan == seen {
        return false;
      }
      if attempts > |RETRIES| || busy {
        return false;
      }
      return retryAt.None? || now >= retryAt.value;
    }

    method Record(failed: bool, now: nat)
      modifies this
      ensures Value() == Finished(old(Value()), failed, now)
      ensures attempts == old(attempts) + 1 && seen == old(seen) && since == old(since)
      ensures retryAt == if !failed || old(attempts) >= 3 then None
        else Some(now + if old(attempts) == 0 then 60 else if old(attempts) == 1 then 300 else 900)
    {
      attempts := attempts + 1;
      if attempts - 1 < |RETRIES| && failed {
        retryAt := Some(now + RETRIES[attempts - 1]);
      } else {
        retryAt := None;
      }
    }
  }

  // ---- Whole runs ----

  /** One automatic detection. */
  datatype Detection = Detection(start: nat, end: nat, failed: bool)

  /** The detections made while the addresses stayed the same. */
  datatype Period = Period(since: nat, runs: seq<Detection>)

  datatype World = World(s: State, now: nat, current: Period, past: seq<Period>)

  /** A tick; `ran` says how the detection ended, or that another one was
      already running (`None`), should one be due. */
  datatype Tick = Tick(at: nat, addresses: seq<string>, cached: Option<Cached>, busy: bool, ran: Option<Detection>)

  predicate Timely(w: World, t: Tick) {
    w.now <= t.at && (t.ran.Some? ==> t.ran.value.start == t.at <= t.ran.value.end)
  }

  function Ticked(w: World, t: Tick): World {
    if !Fits(w.s, t.addresses) then
      World(Noticed(w.s, t.addresses, t.at), t.at, Period(t.at, []), w.past + [w.current])
    else if Due(w.s, t.addresses, t.cached, t.busy, t.at) && t.ran.Some? then
      var d := t.ran.value;
      w.(s := Finished(w.s, d.failed, d.end), now := d.end, current := w.current.(runs := w.current.runs + [d]))
    else w.(now := t.at)
  }

  /** At most four detections, none before the addresses settled, and after
      each failure the prescribed wait. */
  predicate Paced(p: Period) {
    && |p.runs| <= 4
    && (forall i :: 0 <= i < |p.runs| ==> p.runs[i].start >= p.since + SETTLE)
    && (forall i :: 0 <= i < |p.runs| - 1 ==>
          && p.runs[i].end <= p.runs[i + 1].start
          && (p.runs[i].failed && i < 3 ==> p.runs[i + 1].start >= p.runs[i].end + RETRIES[i]))
  }

  predicate Inv(w: World) {
    && (forall i :: 0 <= i < |w.past| ==> Paced(w.past[i]))
    && Paced(w.current)
    && w.s.attempts == |w.current.runs| && w.s.since == w.current.since
    && (w.current.runs != [] ==>
          var n := |w.current.runs|;
          var last := w.current.runs[n - 1];
          last.start <= last.end <= w.now && (last.failed && n <= 3 ==> w.s.retryAt == Some(last.end + RETRIES[n - 1])))
  }

  lemma PacedGrows(p: Period, d: Detection)
    requires Paced(p) && |p.runs| <= 3 && d.start >= p.since + SETTLE
    requires p.runs != [] ==>
      var last := p.runs[|p.runs| - 1];
      last.end <= d.start && (last.failed ==> d.start >= last.end + RETRIES[|p.runs| - 1])
    ensures Paced(p.(runs := p.runs + [d]))
  {
    var r := p.runs + [d];
    forall i | 0 <= i < |r| - 1
      ensures r[i].end <= r[i + 1].start && (r[i].failed && i < 3 ==> r[i + 1].start >= r[i].end + RETRIES[i])
    {
      if i < |p.runs| - 1 {
        assert r[i] == p.runs[i] && r[i + 1] == p.runs[i + 1];
      }
    }
  }

  lemma TickKeepsInv(w: World, t: Tick)
    requires Inv(w) && Timely(w, t)
    ensures Inv(Ticked(w, t))
  {
    if Fits(w.s, t.addresses) && Due(w.s, t.addresses, t.cached, t.busy, t.at) && t.ran.Some? {
      PacedGrows(w.current, t.ran.value);
    }
  }

  predicate AllTimely(w: World, ticks: seq<Tick>)
    decreases |ticks|
  {
    ticks == [] || (Timely(w, ticks[0]) && AllTimely(Ticked(w, ticks[0]), ticks[1..]))
  }

  function AllTicked(w: World, ticks: seq<Tick>): World
    decreases |ticks|
  {
    if ticks == [] then w else AllTicked(Ticked(w, ticks[0]), ticks[1..])
  }

  lemma {:induction false} RunKeepsInv(w: World, ticks: seq<Tick>)
    requires Inv(w) && AllTimely(w, ticks)
    ensures Inv(AllTicked(w, ticks))
    decreases |ticks|
  {
    if ticks != [] {
      TickKeepsInv(w, ticks[0]);
      RunKeepsInv(Ticked(w, ticks[0]), ticks[1..]);
    }
  }

  /** In every run of ticks, every period of unchanged addresses is paced. */
  lemma EveryPeriodIsPaced(start: nat, ticks: seq<Tick>)
    requires AllTimely(World(State([], start, 0, None), start, Period(start, []), []), ticks)
    ensures var w := AllTicked(World(State([], start, 0, None), start, Period(start, []), []), ticks);
      Paced(w.current) && forall i :: 0 <= i < |w.past| ==> Paced(w.past[i])
  {
    RunKeepsInv(World(State([], start, 0, None), start, Period(start, []), []), ticks);
  }

  /** Nothing hinders a detection but time: the addresses are unchanged, no result
      for them is known, and no other detection runs. */
  predicate Unhindered(w: World, t: Tick) {
    t.addresses != [] && t.addresses == w.s.seen && !t.busy && t.cached.None? && t.ran.Some? && Timely(w, t)
  }

  /** In every run, once the addresses stood for 30 seconds an unhindered tick
      detects; after a failure it does again, three times, after 60, 300 and 900
      seconds and no earlier. */
  lemma DetectionsComeExactly(start: nat, ticks: seq<Tick>, t: Tick)
    requires AllTimely(World(State([], start, 0, None), start, Period(start, []), []), ticks)
    requires Unhindered(AllTicked(World(State([], start, 0, None), start, Period(start, []), []), ticks), t)
    ensures var w := AllTicked(World(State([], start, 0, None), start, Period(start, []), []), ticks);
      var runs, n := w.current.runs, |w.current.runs|;
      && (n == 0 ==> (Ticked(w, t).current.runs == [t.ran.value] <==> t.at - w.current.since >= 30))
      && (1 <= n <= 3 && runs[n - 1].failed ==>
            (Ticked(w, t).current.runs == runs + [t.ran.value] <==>
               t.at - runs[n - 1].end >= if n == 1 then 60 else if n == 2 then 300 else 900))
      && (n >= 4 ==> Ticked(w, t).current.runs == runs)
  {
    RunKeepsInv(World(State([], start, 0, None), start, Period(start, []), []), ticks);
    RunKeepsFirst(World(State([], start, 0, None), start, Period(start, []), []), ticks);
  }

  /** Before the first detection of a period no retry is pending. */
  predicate First(w: World) {
    w.current.runs == [] ==> w.s.retryAt == None
  }

  lemma {:induction false} RunKeepsFirst(w: World, ticks: seq<Tick>)
    requires First(w) && AllTimely(w, ticks)
    ensures First(AllTicked(w, ticks))
    decreases |ticks|
  {
    if ticks != [] {
      RunKeepsFirst(Ticked(w, ticks[0]), ticks[1..]);
    }
  }
}
