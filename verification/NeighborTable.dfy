/** What the reported cells say of the records they were made from. */
module NeighborTable {
  import opened Common
  import opened NeighborCells
  import opened NeighborOrder

  // ---- The frequency of a sample, counted over positions ----

  /** The positions of the anchors of the sample's cell; with `close`, only those
      within 256 frames and 5 seconds. */
  function AnchorPlaces(directs: seq<Direct>, s: Sample, close: bool): set<nat> {
    set i: nat | i < |directs| && directs[i].pci == s.pci && directs[i].capture == s.capture
                 && (close ==> && -256 <= directs[i].number - s.number <= 256
                               && -5000 <= directs[i].at - s.at <= 5000)
  }

  lemma {:induction false} AnchorsAreThere(directs: seq<Direct>, s: Sample, close: bool)
    ensures |Anchors(directs, s, close)| == |AnchorPlaces(directs, s, close)|
    ensures forall f :: f in Anchors(directs, s, close) <==>
      exists i :: i in AnchorPlaces(directs, s, close) && directs[i].arfcn == f
  {
    if directs != [] {
      var n := |directs| - 1;
      var init := directs[..n];
      AnchorsAreThere(init, s, close);
      PlacesGrow(directs, s, close);
      var a, b := AnchorPlaces(init, s, close), AnchorPlaces(directs, s, close);
      forall f
        ensures f in Anchors(directs, s, close) <==> exists i :: i in b && directs[i].arfcn == f
      {
        if i :| i in b && directs[i].arfcn == f {
          assert i in a ==> init[i].arfcn == f;
        }
        if i :| i in a && init[i].arfcn == f {
          assert i in b && directs[i].arfcn == f;
        }
        if n in b {
          assert f == directs[n].arfcn ==> n in b && directs[n].arfcn == f;
        }
      }
    }
  }

  lemma PlacesGrow(directs: seq<Direct>, s: Sample, close: bool)
    requires directs != []
    ensures var n := |directs| - 1; var a := AnchorPlaces(directs[..n], s, close);
      && n !in a
      && AnchorPlaces(directs, s, close) ==
           a + if SameCell(directs[n], s) && (close ==> Near(directs[n], s)) then {n} else {}
  {}

  /** A new-radio sample without a frequency of its own gets one exactly when 1 to
      512 anchors are considered and all of them name it: those close by, or, when
      there is none and the record allows it, all of its capture. */
  lemma FrequencyExactly(directs: seq<Direct>, s: Sample, f: nat)
    requires s.rat == Nr && s.arfcn == None
    ensures var near := AnchorPlaces(directs, s, true);
      var considered := if near == {} && s.captureUnique then AnchorPlaces(directs, s, false) else near;
      Frequency(directs, s) == Some(f) <==>
        1 <= |considered| <= 512 && forall i :: i in considered ==> directs[i].arfcn == f
  {
    var near := AnchorPlaces(directs, s, true);
    AnchorsAreThere(directs, s, true);
    AnchorsAreThere(directs, s, false);
    assert |near| == 0 <==> near == {};
    AgreeExactly(directs, s, near != {} || !s.captureUnique, f);
  }

  lemma AgreeExactly(directs: seq<Direct>, s: Sample, close: bool, f: nat)
    requires s.rat == Nr && s.arfcn == None
    requires Considered(directs, s) == Anchors(directs, s, close)
    requires |Anchors(directs, s, close)| == |AnchorPlaces(directs, s, close)|
    requires forall g :: g in Anchors(directs, s, close) <==>
      exists i :: i in AnchorPlaces(directs, s, close) && directs[i].arfcn == g
    ensures var considered := AnchorPlaces(directs, s, close);
      Frequency(directs, s) == Some(f) <==>
        1 <= |considered| <= 512 && forall i :: i in considered ==> directs[i].arfcn == f
  {
    var a, places := Anchors(directs, s, close), AnchorPlaces(directs, s, close);
    if a != [] && AllEqual(a) && a[0] == f {
      forall i | i in places
        ensures directs[i].arfcn == f
      {
        assert directs[i].arfcn in a;
      }
    }
    if forall i :: i in places ==> directs[i].arfcn == f {
      forall k | 0 <= k < |a|
        ensures a[k] == f
      {
        assert a[k] in a;
      }
    }
  }

  // ---- The records of one cell ----

  /** The recent samples of a cell, but those left out for want of an anchor. */
  function SamplesFor(samples: seq<Sample>, directs: seq<Direct>, now: int, k: Key): seq<Sample> {
    if samples == [] then []
    else
      var s := samples[|samples| - 1];
      var left := s.rat == Nr && s.arfcn == None && s.requireAnchor && Frequency(directs, s) == None;
      SamplesFor(samples[..|samples| - 1], directs, now, k)
      + if s.at <= now <= s.at + 60000 && !left && k == Key(s.rat, s.pci, Frequency(directs, s)) then [s] else []
  }

  /** The recent anchors of a cell. */
  function DirectsFor(directs: seq<Direct>, now: int, k: Key): seq<Direct> {
    if directs == [] then []
    else
      var d := directs[|directs| - 1];
      DirectsFor(directs[..|directs| - 1], now, k)
      + if d.at <= now <= d.at + 60000 && k == Key(Nr, d.pci, Some(d.arfcn)) then [d] else []
  }

  function Signals(samples: seq<Sample>): seq<real> {
    if samples == [] then []
    else
      var s := samples[|samples| - 1];
      Signals(samples[..|samples| - 1]) + if s.rsrp.Some? then [s.rsrp.value] else []
  }

  function SampleBands(samples: seq<Sample>): seq<nat> {
    if samples == [] then []
    else
      var s := samples[|samples| - 1];
      SampleBands(samples[..|samples| - 1]) + if s.band.Some? then [s.band.value] else []
  }

  function DirectBands(directs: seq<Direct>): seq<nat> {
    if directs == [] then []
    else
      var d := directs[|directs| - 1];
      DirectBands(directs[..|directs| - 1]) + if d.band.Some? then [d.band.value] else []
  }

  function Last64(v: seq<real>): seq<real> {
    if |v| <= 64 then v else v[|v| - 64..]
  }

  /** The band and the conflict flag stand for all bands named so far. */
  predicate BandsAre(g: Group, bands: seq<nat>) {
    && g.band == (if bands == [] then None else Some(bands[|bands| - 1]))
    && (g.conflict <==> !AllEqual(bands))
  }

  /** A group counts these samples and anchors, and nothing else. */
  predicate Says(g: Group, samples: seq<Sample>, directs: seq<Direct>) {
    && g.samples == |samples| && g.hits == |directs|
    && g.values == Last64(Signals(samples))
    && BandsAre(g, SampleBands(samples) + DirectBands(directs))
  }

  lemma OneMoreBand(g: Group, bands: seq<nat>, band: Option<nat>)
    requires BandsAre(g, bands)
    ensures BandsAre(WithBand(g, band), bands + if band.Some? then [band.value] else [])
  {
    if band.Some? {
      AllEqualGrows(bands, band.value);
    } else {
      assert bands + [] == bands;
    }
  }

  lemma OneMoreSignal(values: seq<real>, x: real)
    ensures Last64(values + [x]) ==
      (if |Last64(values)| == 64 then Last64(values)[1..] else Last64(values)) + [x]
  {
    var v := values + [x];
    if |values| >= 64 {
      assert v[|v| - 64..] == values[|values| - 63..] + [x];
      assert Last64(values)[1..] == values[|values| - 63..];
    }
  }

  lemma OneMoreSample(g: Group, samples: seq<Sample>, s: Sample)
    requires Says(g, samples, [])
    ensures Says(Sampled(g, s), samples + [s], [])
  {
    var more := samples + [s];
    assert more[..|samples|] == samples;
    var h := WithSignal(g.(samples := g.samples + 1), s.rsrp);
    if s.rsrp.Some? {
      OneMoreSignal(Signals(samples), s.rsrp.value);
    }
    assert SampleBands(samples) + DirectBands([]) == SampleBands(samples);
    assert SampleBands(more) + DirectBands([]) == SampleBands(more);
    OneMoreBand(h, SampleBands(samples), s.band);
  }

  lemma OneMoreDirect(g: Group, samples: seq<Sample>, directs: seq<Direct>, d: Direct)
    requires Says(g, samples, directs)
    ensures Says(Hit(g, d), samples, directs + [d])
  {
    var more := directs + [d];
    assert more[..|directs|] == directs;
    var bands := SampleBands(samples) + DirectBands(directs);
    OneMoreBand(g.(hits := g.hits + 1), bands, d.band);
    assert bands + (if d.band.Some? then [d.band.value] else []) == SampleBands(samples) + DirectBands(more);
  }

  lemma NothingSaid()
    ensures Says(NO_GROUP, [], [])
  {}

  /** A group is there as soon as it has a record, unless the table was full. */
  predicate Entered(groups: Groups, k: Key, samples: seq<Sample>, directs: seq<Direct>) {
    && |groups| <= 128
    && (k in groups ==> Says(groups[k], samples, directs) && (samples != [] || directs != []))
    && (k !in groups ==> (samples == [] && directs == []) || |groups| == 128)
  }

  lemma PlaceSize(groups: Groups, k: Key, g: Group)
    ensures |groups[k := g]| == if k in groups then |groups| else |groups| + 1
  {
    assert groups[k := g].Keys == groups.Keys + {k};
  }

  /** A record of another cell was placed. */
  lemma OtherPlaced(groups: Groups, j: Key, g: Group, k: Key, samples: seq<Sample>, directs: seq<Direct>)
    requires Entered(groups, k, samples, directs) && !Full(groups, j) && j != k
    ensures Entered(groups[j := g], k, samples, directs)
  {
    PlaceSize(groups, j, g);
  }

  /** A record of this cell was placed. */
  lemma OwnPlaced(groups: Groups, k: Key, g: Group, samples: seq<Sample>, directs: seq<Direct>)
    requires |groups| <= 128 && !Full(groups, k) && Says(g, samples, directs) && (samples != [] || directs != [])
    ensures Entered(groups[k := g], k, samples, directs)
  {
    PlaceSize(groups, k, g);
  }

  /** What the group of `k` says before a record of it is placed. */
  lemma SaidBefore(groups: Groups, k: Key, samples: seq<Sample>, directs: seq<Direct>)
    requires Entered(groups, k, samples, directs) && !Full(groups, k)
    ensures Says(Entry(groups, k), samples, directs)
  {
    NothingSaid();
  }

  /** Whether the sample is one of the cell's. */
  predicate IsFor(s: Sample, directs: seq<Direct>, now: int, k: Key) {
    var left := s.rat == Nr && s.arfcn == None && s.requireAnchor && Frequency(directs, s) == None;
    s.at <= now <= s.at + 60000 && !left && k == Key(s.rat, s.pci, Frequency(directs, s))
  }

  lemma AddedSample(t: Tally, directs: seq<Direct>, now: int, s: Sample)
    ensures var j := KeyOf(directs, s); var u := AddSample(t, directs, s, now);
      u.groups == if IsFor(s, directs, now, j) && !Full(t.groups, j)
                  then t.groups[j := Sampled(Entry(t.groups, j), s)] else t.groups
  {}

  lemma EnteredSample(t: Tally, directs: seq<Direct>, now: int, k: Key, mine: seq<Sample>, s: Sample)
    requires Entered(t.groups, k, mine, [])
    ensures Entered(AddSample(t, directs, s, now).groups, k, if IsFor(s, directs, now, k) then mine + [s] else mine, [])
  {
    AddedSample(t, directs, now, s);
    var j := KeyOf(directs, s);
    if IsFor(s, directs, now, j) && !Full(t.groups, j) {
      var g := Sampled(Entry(t.groups, j), s);
      if j == k {
        SaidBefore(t.groups, k, mine, []);
        OneMoreSample(Entry(t.groups, k), mine, s);
        OwnPlaced(t.groups, k, g, mine + [s], []);
      } else {
        OtherPlaced(t.groups, j, g, k, mine, []);
      }
    }
  }

  lemma AddedDirect(t: Tally, d: Direct, now: int)
    ensures var j := Key(Nr, d.pci, Some(d.arfcn)); var u := AddDirect(t, d, now);
      u.groups == if d.at <= now <= d.at + 60000 && !Full(t.groups, j)
                  then t.groups[j := Hit(Entry(t.groups, j), d)] else t.groups
  {}

  lemma EnteredDirect(t: Tally, now: int, k: Key, samples: seq<Sample>, mine: seq<Direct>, d: Direct)
    requires Entered(t.groups, k, samples, mine)
    ensures Entered(AddDirect(t, d, now).groups, k, samples,
                    if d.at <= now <= d.at + 60000 && k == Key(Nr, d.pci, Some(d.arfcn)) then mine + [d] else mine)
  {
    AddedDirect(t, d, now);
    var j := Key(Nr, d.pci, Some(d.arfcn));
    if d.at <= now <= d.at + 60000 && !Full(t.groups, j) {
      var g := Hit(Entry(t.groups, j), d);
      if j == k {
        SaidBefore(t.groups, k, samples, mine);
        OneMoreDirect(Entry(t.groups, k), samples, mine, d);
        OwnPlaced(t.groups, k, g, samples, mine + [d]);
      } else {
        OtherPlaced(t.groups, j, g, k, samples, mine);
      }
    }
  }

  lemma {:induction false} SamplesEntered(samples: seq<Sample>, directs: seq<Direct>, now: int, k: Key)
    ensures Entered(TallySamples(samples, directs, now).groups, k, SamplesFor(samples, directs, now, k), [])
  {
    if samples != [] {
      var init := samples[..|samples| - 1];
      SamplesEntered(init, directs, now, k);
      var mine := SamplesFor(init, directs, now, k);
      EnteredSample(TallySamples(init, directs, now), directs, now, k, mine, samples[|samples| - 1]);
      assert mine + [] == mine;
    }
  }

  lemma {:induction false} DirectsEntered(t: Tally, samples: seq<Sample>, directs: seq<Direct>, now: int, k: Key)
    requires Entered(t.groups, k, samples, [])
    ensures Entered(TallyDirects(t, directs, now).groups, k, samples, DirectsFor(directs, now, k))
  {
    if directs != [] {
      var init := directs[..|directs| - 1];
      DirectsEntered(t, samples, init, now, k);
      var mine := DirectsFor(init, now, k);
      EnteredDirect(TallyDirects(t, init, now), now, k, samples, mine, directs[|directs| - 1]);
      assert mine + [] == mine;
    }
  }

  /** What `result` reports of a cell: the numbers of its recent samples and anchors,
      the median of its 64 newest signals, and a band exactly when all that were
      named agree; and a cell with records is missing only from a full table. */
  lemma CellsTellTheRecords(samples: seq<Sample>, directs: seq<Direct>, now: int, k: Key)
    ensures var u := TallyDirects(TallySamples(samples, directs, now), directs, now);
      var mine, hits := SamplesFor(samples, directs, now, k), DirectsFor(directs, now, k);
      var bands := SampleBands(mine) + DirectBands(hits);
      && (k in u.groups ==>
            var c := CellOf(k, u.groups[k]);
            && c.key == k && c.samples == |mine| && c.hits == |hits|
            && c.rsrp == Median(Last64(Signals(mine)))
            && (forall b :: c.band == Some(b) <==> bands != [] && forall i :: 0 <= i < |bands| ==> bands[i] == b))
      && (k in u.groups ==> mine != [] || hits != [])
      && (k !in u.groups && (mine != [] || hits != []) ==> |u.groups| == 128)
  {
    SamplesEntered(samples, directs, now, k);
    DirectsEntered(TallySamples(samples, directs, now), SamplesFor(samples, directs, now, k), directs, now, k);
  }

  // ---- The median ----

  function Below(v: seq<real>, x: real): nat {
    if v == [] then 0 else Below(v[1..], x) + if v[0] < x then 1 else 0
  }

  function UpTo(v: seq<real>, x: real): nat {
    if v == [] then 0 else UpTo(v[1..], x) + if v[0] <= x then 1 else 0
  }

  /** `x` stands at place `k` when the values are put in order. */
  predicate HasRank(v: seq<real>, x: real, k: nat) {
    Below(v, x) <= k < UpTo(v, x)
  }

  lemma {:induction false} InsertCounts(y: real, v: seq<real>, x: real)
    ensures Below(Insert(y, v), x) == Below(v, x) + if y < x then 1 else 0
    ensures UpTo(Insert(y, v), x) == UpTo(v, x) + if y <= x then 1 else 0
  {
    if v != [] && y > v[0] {
      InsertCounts(y, v[1..], x);
      assert Insert(y, v)[1..] == Insert(y, v[1..]);
    } else {
      assert ([y] + v)[1..] == v;
    }
  }

  lemma {:induction false} CountsSnoc(v: seq<real>, y: real, x: real)
    ensures Below(v + [y], x) == Below(v, x) + if y < x then 1 else 0
    ensures UpTo(v + [y], x) == UpTo(v, x) + if y <= x then 1 else 0
  {
    if v == [] {
      assert v + [y] == [y] && [y][1..] == [];
    } else {
      assert (v + [y])[1..] == v[1..] + [y];
      CountsSnoc(v[1..], y, x);
    }
  }

  lemma {:induction false} SortCounts(v: seq<real>, x: real)
    ensures Below(Sort(v), x) == Below(v, x) && UpTo(Sort(v), x) == UpTo(v, x)
  {
    if v != [] {
      var init, y := v[..|v| - 1], v[|v| - 1];
      SortCounts(init, x);
      InsertCounts(y, Sort(init), x);
      CountsSnoc(init, y, x);
      assert v == init + [y];
    }
  }

  lemma {:induction false} NoneBelow(v: seq<real>, x: real)
    requires forall i :: 0 <= i < |v| ==> x <= v[i]
    ensures Below(v, x) == 0
  {
    if v != [] {
      NoneBelow(v[1..], x);
    }
  }

  lemma {:induction false} OrderedRank(v: seq<real>, k: nat)
    requires Ascending(v) && k < |v|
    ensures HasRank(v, v[k], k)
  {
    if k == 0 {
      NoneBelow(v, v[0]);
    } else {
      OrderedRank(v[1..], k - 1);
    }
  }

  lemma Round2IsNearest(x: real)
    ensures var m := Round2(x); m * 100.0 == (m * 100.0).Floor as real && -0.005 < m - x <= 0.005
  {
    var n := (x * 100.0 + 0.5).Floor;
    assert Round2(x) * 100.0 == n as real;
  }

  lemma MiddleValue(v: seq<real>, lo: real, hi: real)
    requires v != [] && lo == v[(|v| - 1) / 2] && hi == v[|v| / 2]
    ensures |v| % 2 == 1 ==> Middle(v) == lo == hi
    ensures |v| % 2 == 0 ==> Middle(v) == Round2((lo + hi) / 2.0)
  {}

  lemma SortedRank(values: seq<real>, k: nat)
    requires k < |values|
    ensures k < |Sort(values)| && HasRank(values, Sort(values)[k], k)
  {
    SortSorts(values);
    OrderedRank(Sort(values), k);
    SortCounts(values, Sort(values)[k]);
  }

  /** The median is the middle value, or the mean of the two middle ones rounded to
      two decimals, halves up. */
  lemma MedianIsMiddle(values: seq<real>) returns (lo: real, hi: real)
    requires values != []
    ensures HasRank(values, lo, (|values| - 1) / 2) && HasRank(values, hi, |values| / 2)
    ensures Median(values).Some?
    ensures var m := Median(values).value;
      if |values| % 2 == 1 then m == lo == hi
      else m * 100.0 == (m * 100.0).Floor as real && -0.005 < m - (lo + hi) / 2.0 <= 0.005
  {
    SortSorts(values);
    SortedRank(values, (|values| - 1) / 2);
    SortedRank(values, |values| / 2);
    lo, hi := Sort(values)[(|values| - 1) / 2], Sort(values)[|values| / 2];
    MiddleValue(Sort(values), lo, hi);
    Round2IsNearest((lo + hi) / 2.0);
  }

  // ---- The order ----

  /** Of two cells in the list the earlier has the stronger or the only signal; with
      equal signals new radio comes first, then the lower frequency, none being the
      lowest, then the lower identity. */
  lemma OrderExactly(cells: seq<Cell>, i: nat, j: nat)
    requires InOrder(cells) && i < j < |cells|
    ensures var a, b := cells[i], cells[j];
      && (b.rsrp.Some? ==> a.rsrp.Some? && a.rsrp.value >= b.rsrp.value)
      && (a.rsrp == b.rsrp ==>
            && (b.key.rat == Nr ==> a.key.rat == Nr)
            && (a.key.rat == b.key.rat ==>
                  && (a.key.arfcn.Some? ==> b.key.arfcn.Some? && a.key.arfcn.value <= b.key.arfcn.value)
                  && (a.key.arfcn == b.key.arfcn ==> a.key.pci < b.key.pci)))
  {
    assert Before(cells[i], cells[j]);
  }
}
