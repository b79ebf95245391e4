/** From decoded records to neighbour cells (`Parser::push_direct`,
    `push_sample` and `result` in rust/src/neighbor.rs). */
module NeighborCells {
  import opened Common

  const RECORDS := 4096
  const ANCHOR_FRAMES := 256
  const ANCHOR_MS := 5000
  const CELL_SIGNALS := 64
  const TTL_MS := 60000
  const MAX_CELLS := 128
  const COMPARISONS := 512

  datatype Rat = Nr | Lte

  datatype Direct = Direct(number: nat, capture: nat, at: int, pci: nat, arfcn: nat, band: Option<nat>)

  datatype Sample = Sample(number: nat, capture: nat, at: int, rat: Rat, pci: nat, arfcn: Option<nat>,
                           band: Option<nat>, rsrp: Option<real>, requireAnchor: bool, captureUnique: bool)

  predicate Recent(now: int, at: int) {
    now >= at && now - at <= TTL_MS
  }

  // ---- The two rings ----

  function LastOf<T>(s: seq<T>): seq<T> {
    if |s| <= RECORDS then s else s[|s| - RECORDS..]
  }

  class Rings {
    var directs: seq<Direct>
    var samples: seq<Sample>
    var discarded: nat
    var discardedAt: int
    var now: int
    ghost var allDirects: seq<Direct>
    ghost var allSamples: seq<Sample>

    /** Each ring holds the newest records of all that were pushed. */
    ghost predicate Valid()
      reads this
    {
      directs == LastOf(allDirects) && samples == LastOf(allSamples)
    }

    constructor ()
      ensures Valid() && allDirects == [] && allSamples == [] && discarded == 0
    {
      directs, samples, discarded, discardedAt, now := [], [], 0, 0, 0;
      allDirects, allSamples := [], [];
    }

    method PushDirect(d: Direct)
      requires Valid()
      modifies this
      ensures Valid() && allDirects == old(allDirects) + [d] && allSamples == old(allSamples)
      ensures |directs| == (if |allDirects| < 4096 then |allDirects| else 4096) && directs[|directs| - 1] == d && now == old(now)
      ensures discarded - old(discarded) ==
        if |old(directs)| == 4096 && now - old(directs)[0].at <= 60000 then 1 else 0
    {
      if |directs| == RECORDS {
        if now - directs[0].at <= TTL_MS {
          discarded := discarded + 1;
          discardedAt := now;
        }
        directs := directs[1..];
      }
      directs := directs + [d];
      allDirects := allDirects + [d];
    }

    method PushSample(s: Sample)
      requires Valid()
      modifies this
      ensures Valid() && allSamples == old(allSamples) + [s] && allDirects == old(allDirects)
      ensures |samples| == (if |allSamples| < 4096 then |allSamples| else 4096) && samples[|samples| - 1] == s && now == old(now)
      ensures discarded - old(discarded) ==
        if |old(samples)| == 4096 && now - old(samples)[0].at <= 60000 then 1 else 0
    {
      if |samples| == RECORDS {
        if now - samples[0].at <= TTL_MS {
          discarded := discarded + 1;
          discardedAt := now;
        }
        samples := samples[1..];
      }
      samples := samples + [s];
      allSamples := allSamples + [s];
    }
  }

  // ---- The frequency of a sample ----

  function Gap(a: nat, b: nat): nat {
    if a < b then b - a else a - b
  }

  predicate SameCell(d: Direct, s: Sample) {
    d.pci == s.pci && d.capture == s.capture
  }

  predicate Near(d: Direct, s: Sample) {
    Gap(d.number, s.number) <= ANCHOR_FRAMES && -ANCHOR_MS <= d.at - s.at <= ANCHOR_MS
  }

  /** The frequencies of the anchors considered, in order. */
  function Anchors(directs: seq<Direct>, s: Sample, nearOnly: bool): seq<nat> {
    if directs == [] then []
    else
      var d := directs[|directs| - 1];
      Anchors(directs[..|directs| - 1], s, nearOnly)
      + (if SameCell(d, s) && (nearOnly ==> Near(d, s)) then [d.arfcn] else [])
  }

  predicate AllEqual(a: seq<nat>) {
    forall i :: 0 <= i < |a| ==> a[i] == a[0]
  }

  /** Too many anchors, or anchors that disagree. */
  predicate Ambiguous(a: seq<nat>) {
    |a| > COMPARISONS || !AllEqual(a)
  }

  /** The two searches of one sample: anchors close by, and failing any at all,
      for the records that allow it, anchors anywhere in the capture. */
  function Considered(directs: seq<Direct>, s: Sample): seq<nat> {
    var near := Anchors(directs, s, true);
    if near == [] && s.captureUnique then Anchors(directs, s, false) else near
  }

  predicate NeedsAnchor(s: Sample) {
    s.rat == Nr && s.arfcn.None?
  }

  function Frequency(directs: seq<Direct>, s: Sample): Option<nat> {
    if !NeedsAnchor(s) then s.arfcn
    else
      var a := Considered(directs, s);
      if a == [] || Ambiguous(a) then None else Some(a[0])
  }

  predicate Skipped(directs: seq<Direct>, s: Sample) {
    NeedsAnchor(s) && s.requireAnchor && Frequency(directs, s).None?
  }

  /** The loop over the anchors: it gives up at the 513th, and remembers the last. */
  method Scan(directs: seq<Direct>, s: Sample, nearOnly: bool) returns (found: Option<nat>, ambiguous: bool)
    ensures ambiguous == Ambiguous(Anchors(directs, s, nearOnly))
    ensures found.None? <==> Anchors(directs, s, nearOnly) == []
    ensures found.Some? && !ambiguous ==> found.value == Anchors(directs, s, nearOnly)[0]
  {
    found, ambiguous := None, false;
    var comparisons := 0;
    var i := 0;
    while i < |directs|
      invariant 0 <= i <= |directs|
      invariant var a := Anchors(directs[..i], s, nearOnly);
        && comparisons == |a| <= COMPARISONS
        && ambiguous == !AllEqual(a)
        && found == if a == [] then None else Some(a[|a| - 1])
    {
      assert directs[..i + 1][..i] == directs[..i];
      var d := directs[i];
      ghost var a := Anchors(directs[..i], s, nearOnly);
      assert a + [] == a;
      if SameCell(d, s) && (nearOnly ==> Near(d, s)) {
        AllEqualGrows(a, d.arfcn);
        comparisons := comparisons + 1;
        if comparisons > COMPARISONS {
          ambiguous := true;
          MoreAnchors(directs, i + 1, s, nearOnly);
          break;
        }
        if found.Some? && found != Some(d.arfcn) {
          ambiguous := true;
        }
        found := Some(d.arfcn);
      }
      i := i + 1;
    }
    assert i == |directs| ==> directs[..i] == directs;
  }

  lemma AllEqualGrows(a: seq<nat>, x: nat)
    ensures AllEqual(a + [x]) <==> AllEqual(a) && (a != [] ==> a[|a| - 1] == x)
  {
    var b := a + [x];
    if AllEqual(b) && a != [] {
      assert b[|a|] == b[0] && b[|a| - 1] == b[0];
      assert forall i :: 0 <= i < |a| ==> a[i] == b[i];
    }
  }

  lemma {:induction false} MoreAnchors(directs: seq<Direct>, i: nat, s: Sample, nearOnly: bool)
    requires i <= |directs|
    ensures |Anchors(directs[..i], s, nearOnly)| <= |Anchors(directs, s, nearOnly)|
  {
    if i == |directs| {
      assert directs[..i] == directs;
    } else {
      MoreAnchors(directs[..|directs| - 1], i, s, nearOnly);
      assert directs[..|directs| - 1][..i] == directs[..i];
    }
  }

  /** `result` for one sample: its frequency, whether the search was ambiguous,
      and whether the sample is left out. */
  method Resolve(directs: seq<Direct>, s: Sample) returns (arfcn: Option<nat>, ambiguous: bool, skip: bool)
    ensures arfcn == Frequency(directs, s)
    ensures NeedsAnchor(s) ==> forall f :: arfcn == Some(f) <==>
      var a := Considered(directs, s); 1 <= |a| <= COMPARISONS && forall i :: 0 <= i < |a| ==> a[i] == f
    ensures ambiguous == (NeedsAnchor(s) && Ambiguous(Considered(directs, s)))
    ensures skip == Skipped(directs, s)
  {
    arfcn, ambiguous, skip := s.arfcn, false, false;
    if s.rat == Nr && arfcn.None? {
      var found;
      found, ambiguous := Scan(directs, s, true);
      if found.None? && !ambiguous && s.captureUnique {
        found, ambiguous := Scan(directs, s, false);
      }
      arfcn := if ambiguous then None else found;
      if s.requireAnchor && (found.None? || ambiguous) {
        skip := true;
      }
    }
  }

  // ---- Groups ----

  datatype Key = Key(rat: Rat, pci: nat, arfcn: Option<nat>)

  datatype Group = Group(values: seq<real>, samples: nat, hits: nat, band: Option<nat>, conflict: bool)

  const NO_GROUP := Group([], 0, 0, None, false)

  function WithBand(g: Group, band: Option<nat>): Group {
    if band.None? then g
    else g.(band := band, conflict := g.conflict || (g.band.Some? && g.band != band))
  }

  function WithSignal(g: Group, rsrp: Option<real>): Group {
    if rsrp.None? then g
    else g.(values := (if |g.values| == CELL_SIGNALS then g.values[1..] else g.values) + [rsrp.value])
  }

  function Sampled(g: Group, s: Sample): Group {
    WithBand(WithSignal(g.(samples := g.samples + 1), s.rsrp), s.band)
  }

  function Hit(g: Group, d: Direct): Group {
    WithBand(g.(hits := g.hits + 1), d.band)
  }

  type Groups = map<Key, Group>

  predicate Full(groups: Groups, k: Key) {
    k !in groups && |groups| == MAX_CELLS
  }

  function Entry(groups: Groups, k: Key): Group {
    if k in groups then groups[k] else NO_GROUP
  }

  /** What the two loops accumulate: the groups, whether one had no room, and
      how many records each of the ways out took. */
  datatype Tally = Tally(groups: Groups, overflow: bool, ambiguous: nat, recent: nat, unanchored: nat, turnedAway: nat)

  function KeyOf(directs: seq<Direct>, s: Sample): Key {
    Key(s.rat, s.pci, Frequency(directs, s))
  }

  function AddSample(t: Tally, directs: seq<Direct>, s: Sample, now: int): Tally {
    if !Recent(now, s.at) then t
    else
      var u := t.(recent := t.recent + 1,
                  ambiguous := t.ambiguous + if NeedsAnchor(s) && Ambiguous(Considered(directs, s)) then 1 else 0);
      var k := KeyOf(directs, s);
      if Skipped(directs, s) then u.(unanchored := u.unanchored + 1)
      else if Full(u.groups, k) then u.(overflow := true, turnedAway := u.turnedAway + 1)
      else
        u.(groups := u.groups[k := Sampled(Entry(u.groups, k), s)])
  }

  function AddDirect(t: Tally, d: Direct, now: int): Tally {
    if !Recent(now, d.at) then t
    else
      var u := t.(recent := t.recent + 1);
      var k := Key(Nr, d.pci, Some(d.arfcn));
      if Full(u.groups, k) then u.(overflow := true, turnedAway := u.turnedAway + 1)
      else
        u.(groups := u.groups[k := Hit(Entry(u.groups, k), d)])
  }

  function TallySamples(samples: seq<Sample>, directs: seq<Direct>, now: int): Tally {
    if samples == [] then Tally(map[], false, 0, 0, 0, 0)
    else AddSample(TallySamples(samples[..|samples| - 1], directs, now), directs, samples[|samples| - 1], now)
  }

  function TallyDirects(t: Tally, directs: seq<Direct>, now: int): Tally {
    if directs == [] then t.(recent := 0, turnedAway := 0)
    else AddDirect(TallyDirects(t, directs[..|directs| - 1], now), directs[|directs| - 1], now)
  }

  predicate Bounded(groups: Groups) {
    |groups| <= MAX_CELLS && forall k :: k in groups ==> |groups[k].values| <= CELL_SIGNALS
  }

  // ---- Sums over groups ----

  function SamplesOf(g: Group): nat {
    g.samples
  }

  function HitsOf(g: Group): nat {
    g.hits
  }

  ghost function Sum(groups: Groups, weight: Group -> nat): nat
    decreases |groups|
  {
    if groups == map[] then 0
    else
      var k :| k in groups;
      weight(groups[k]) + Sum(groups - {k}, weight)
  }

  lemma {:induction false} SumRemove(groups: Groups, k: Key, weight: Group -> nat)
    requires k in groups
    ensures Sum(groups, weight) == weight(groups[k]) + Sum(groups - {k}, weight)
    decreases |groups|
  {
    var l :| l in groups && Sum(groups, weight) == weight(groups[l]) + Sum(groups - {l}, weight);
    if l != k {
      SumRemove(groups - {l}, k, weight);
      SumRemove(groups - {k}, l, weight);
      assert groups - {l} - {k} == groups - {k} - {l};
    }
  }

  lemma SumUpdate(groups: Groups, k: Key, g: Group, weight: Group -> nat)
    requires weight(NO_GROUP) == 0
    ensures Sum(groups[k := g], weight) == Sum(groups, weight) - weight(Entry(groups, k)) + weight(g)
  {
    SumRemove(groups[k := g], k, weight);
    assert groups[k := g] - {k} == groups - {k};
    if k in groups {
      SumRemove(groups, k, weight);
    } else {
      assert groups - {k} == groups;
    }
  }

  function RecentSamples(samples: seq<Sample>, now: int): nat {
    if samples == [] then 0
    else RecentSamples(samples[..|samples| - 1], now) + if Recent(now, samples[|samples| - 1].at) then 1 else 0
  }

  function RecentDirects(directs: seq<Direct>, now: int): nat {
    if directs == [] then 0
    else RecentDirects(directs[..|directs| - 1], now) + if Recent(now, directs[|directs| - 1].at) then 1 else 0
  }

  /** Replacing the entry of `k` by one with more samples and hits. */
  lemma PlaceCounts(groups: Groups, k: Key, h: Group)
    requires Bounded(groups) && !Full(groups, k) && |h.values| <= CELL_SIGNALS
    ensures Bounded(groups[k := h])
    ensures Sum(groups[k := h], SamplesOf) == Sum(groups, SamplesOf) - Entry(groups, k).samples + h.samples
    ensures Sum(groups[k := h], HitsOf) == Sum(groups, HitsOf) - Entry(groups, k).hits + h.hits
  {
    SumUpdate(groups, k, h, SamplesOf);
    SumUpdate(groups, k, h, HitsOf);
  }

  lemma SampledKeeps(g: Group, s: Sample)
    requires |g.values| <= CELL_SIGNALS
    ensures var h := Sampled(g, s); |h.values| <= CELL_SIGNALS && h.samples == g.samples + 1 && h.hits == g.hits
  {}

  lemma HitKeeps(g: Group, d: Direct)
    ensures var h := Hit(g, d); h.values == g.values && h.samples == g.samples && h.hits == g.hits + 1
  {}

  lemma AddSampleCounts(t: Tally, directs: seq<Direct>, s: Sample, now: int)
    requires Bounded(t.groups)
    ensures var u := AddSample(t, directs, s, now);
      && Bounded(u.groups)
      && Sum(u.groups, SamplesOf) - Sum(t.groups, SamplesOf)
           == (u.recent - t.recent) - (u.unanchored - t.unanchored) - (u.turnedAway - t.turnedAway)
      && Sum(u.groups, HitsOf) == Sum(t.groups, HitsOf)
  {
    var k := KeyOf(directs, s);
    var g := Entry(t.groups, k);
    if Recent(now, s.at) && !Skipped(directs, s) && !Full(t.groups, k) {
      SampledKeeps(g, s);
      PlaceCounts(t.groups, k, Sampled(g, s));
    }
  }

  lemma AddDirectCounts(t: Tally, d: Direct, now: int)
    requires Bounded(t.groups)
    ensures var u := AddDirect(t, d, now);
      && Bounded(u.groups)
      && Sum(u.groups, HitsOf) - Sum(t.groups, HitsOf) == (u.recent - t.recent) - (u.turnedAway - t.turnedAway)
      && Sum(u.groups, SamplesOf) == Sum(t.groups, SamplesOf)
  {
    var k := Key(Nr, d.pci, Some(d.arfcn));
    var g := Entry(t.groups, k);
    if Recent(now, d.at) && !Full(t.groups, k) {
      HitKeeps(g, d);
      PlaceCounts(t.groups, k, Hit(g, d));
    }
  }

  /** Every recent sample is counted in exactly one group, or was left out for
      want of an anchor, or was turned away because all groups were taken. */
  lemma {:induction false} SamplesAreConserved(samples: seq<Sample>, directs: seq<Direct>, now: int)
    ensures var t := TallySamples(samples, directs, now);
      && Bounded(t.groups) && t.recent == RecentSamples(samples, now)
      && Sum(t.groups, SamplesOf) == t.recent - t.unanchored - t.turnedAway
      && Sum(t.groups, HitsOf) == 0
  {
    if samples != [] {
      var init := samples[..|samples| - 1];
      SamplesAreConserved(init, directs, now);
      AddSampleCounts(TallySamples(init, directs, now), directs, samples[|samples| - 1], now);
    }
  }

  lemma {:induction false} DirectsAreConserved(t: Tally, directs: seq<Direct>, now: int)
    requires Bounded(t.groups) && Sum(t.groups, HitsOf) == 0
    ensures var u := TallyDirects(t, directs, now);
      && Bounded(u.groups) && u.recent == RecentDirects(directs, now)
      && Sum(u.groups, HitsOf) == u.recent - u.turnedAway
      && Sum(u.groups, SamplesOf) == Sum(t.groups, SamplesOf)
  {
    if directs != [] {
      var init := directs[..|directs| - 1];
      DirectsAreConserved(t, init, now);
      AddDirectCounts(TallyDirects(t, init, now), directs[|directs| - 1], now);
    }
  }

  /** The loop of `result` over the samples. */
  method TabulateSamples(samples: seq<Sample>, directs: seq<Direct>, now: int)
    returns (groups: Groups, overflow: bool, ambiguous: nat)
    ensures var t := TallySamples(samples, directs, now);
      groups == t.groups && overflow == t.overflow && ambiguous == t.ambiguous
  {
    groups, overflow, ambiguous := map[], false, 0;
    for i := 0 to |samples|
      invariant var t := TallySamples(samples[..i], directs, now);
        groups == t.groups && overflow == t.overflow && ambiguous == t.ambiguous
    {
      assert samples[..i + 1][..i] == samples[..i];
      var s := samples[i];
      if Recent(now, s.at) {
        var arfcn, unclear, skip := Resolve(directs, s);
        if unclear {
          ambiguous := ambiguous + 1;
        }
        var k := Key(s.rat, s.pci, arfcn);
        if skip {
        } else if k !in groups && |groups| == MAX_CELLS {
          overflow := true;
        } else {
          var g := Entry(groups, k);
          groups := groups[k := WithBand(WithSignal(g.(samples := g.samples + 1), s.rsrp), s.band)];
        }
      }
    }
    assert samples[..|samples|] == samples;
  }

  /** The loop of `result` over the anchors. */
  method TabulateDirects(ghost t: Tally, groups0: Groups, overflow0: bool, directs: seq<Direct>, now: int)
    returns (groups: Groups, overflow: bool)
    requires groups0 == t.groups && overflow0 == t.overflow
    ensures var u := TallyDirects(t, directs, now); groups == u.groups && overflow == u.overflow
  {
    groups, overflow := groups0, overflow0;
    for i := 0 to |directs|
      invariant var u := TallyDirects(t, directs[..i], now); groups == u.groups && overflow == u.overflow
    {
      assert directs[..i + 1][..i] == directs[..i];
      var d := directs[i];
      if Recent(now, d.at) {
        var k := Key(Nr, d.pci, Some(d.arfcn));
        if k !in groups && |groups| == MAX_CELLS {
          overflow := true;
        } else {
          var g := Entry(groups, k);
          groups := groups[k := WithBand(g.(hits := g.hits + 1), d.band)];
        }
      }
    }
    assert directs[..|directs|] == directs;
  }

  lemma {:induction false} DirectsKeepAmbiguity(t: Tally, directs: seq<Direct>, now: int)
    ensures TallyDirects(t, directs, now).ambiguous == t.ambiguous
  {
    if directs != [] {
      DirectsKeepAmbiguity(t, directs[..|directs| - 1], now);
    }
  }

  /** The two accumulating loops of `result`. */
  method Tabulate(samples: seq<Sample>, directs: seq<Direct>, now: int)
    returns (groups: Groups, overflow: bool, ambiguous: nat)
    ensures var t := TallyDirects(TallySamples(samples, directs, now), directs, now);
      groups == t.groups && overflow == t.overflow && ambiguous == t.ambiguous
  {
    groups, overflow, ambiguous := TabulateSamples(samples, directs, now);
    ghost var t := TallySamples(samples, directs, now);
    groups, overflow := TabulateDirects(t, groups, overflow, directs, now);
    DirectsKeepAmbiguity(t, directs, now);
  }
}
