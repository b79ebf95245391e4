/** The list of cells that `result` reports, and its order
    (rust/src/neighbor.rs). */
module NeighborOrder {
  import opened Common
  import opened NeighborCells

  datatype Cell = Cell(key: Key, band: Option<nat>, rsrp: Option<real>, samples: nat, hits: nat)

  // ---- The median signal ----

  predicate Ascending(v: seq<real>) {
    forall i, j :: 0 <= i < j < |v| ==> v[i] <= v[j]
  }

  function Insert(x: real, v: seq<real>): seq<real> {
    if v == [] || x <= v[0] then [x] + v else [v[0]] + Insert(x, v[1..])
  }

  function Sort(v: seq<real>): seq<real> {
    if v == [] then [] else Insert(v[|v| - 1], Sort(v[..|v| - 1]))
  }

  lemma {:induction false} InsertHolds(x: real, v: seq<real>)
    ensures multiset(Insert(x, v)) == multiset(v) + multiset{x}
  {
    if v != [] && x > v[0] {
      InsertHolds(x, v[1..]);
      assert v == [v[0]] + v[1..];
    }
  }

  lemma {:induction false} InsertOrders(x: real, v: seq<real>)
    requires Ascending(v)
    ensures Ascending(Insert(x, v))
  {
    if v != [] && x > v[0] {
      InsertOrders(x, v[1..]);
      InsertHolds(x, v[1..]);
      var r := Insert(x, v[1..]);
      forall i | 0 <= i < |r|
        ensures v[0] <= r[i]
      {
        assert r[i] in multiset(r);
        assert r[i] == x || r[i] in v[1..];
      }
    }
  }

  /** `sort_by(total_cmp)` on plain numbers. */
  lemma {:induction false} SortSorts(v: seq<real>)
    ensures Ascending(Sort(v)) && multiset(Sort(v)) == multiset(v) && |Sort(v)| == |v|
  {
    if v != [] {
      var init := v[..|v| - 1];
      SortSorts(init);
      InsertOrders(v[|v| - 1], Sort(init));
      InsertHolds(v[|v| - 1], Sort(init));
      assert v == init + [v[|v| - 1]];
    }
    assert |multiset(Sort(v))| == |multiset(v)|;
  }

  /** Two decimals, halves up. */
  function Round2(x: real): real {
    (x * 100.0 + 0.5).Floor as real / 100.0
  }

  /** The middle of values in order. */
  function Middle(v: seq<real>): real
    requires v != []
  {
    var m := |v| / 2;
    if |v| % 2 == 1 then v[m] else Round2((v[m - 1] + v[m]) / 2.0)
  }

  function Median(values: seq<real>): Option<real> {
    if values == [] then None
    else
      SortSorts(values);
      Some(Middle(Sort(values)))
  }

  function CellOf(k: Key, g: Group): Cell {
    Cell(k, if g.conflict then None else g.band, Median(g.values), g.samples, g.hits)
  }

  // ---- The order ----

  function Less(a: Option<nat>, b: Option<nat>): bool {
    match (a, b)
    case (None, Some(_)) => true
    case (Some(x), Some(y)) => x < y
    case _ => false
  }

  /** Known signals first and strongest first, then by technology, frequency and id. */
  predicate Before(a: Cell, b: Cell) {
    if a.rsrp.Some? != b.rsrp.Some? then a.rsrp.Some?
    else if a.rsrp.Some? && a.rsrp.value != b.rsrp.value then a.rsrp.value > b.rsrp.value
    else if a.key.rat != b.key.rat then a.key.rat == Nr
    else if a.key.arfcn != b.key.arfcn then Less(a.key.arfcn, b.key.arfcn)
    else a.key.pci < b.key.pci
  }

  lemma BeforeIsTotal(a: Cell, b: Cell)
    ensures a.key != b.key ==> Before(a, b) != Before(b, a)
    ensures !Before(a, a)
  {}

  lemma BeforeIsTransitive(a: Cell, b: Cell, c: Cell)
    requires Before(a, b) && Before(b, c)
    ensures Before(a, c)
  {}

  predicate InOrder(cells: seq<Cell>) {
    forall i, j :: 0 <= i < j < |cells| ==> Before(cells[i], cells[j])
  }

  type Catalogue = map<Key, Cell>

  function Catalogued(groups: Groups): Catalogue {
    map k | k in groups :: CellOf(k, groups[k])
  }

  /** `cells` lists every cell of the catalogue. */
  predicate Lists(cells: seq<Cell>, all: Catalogue) {
    && (forall c :: c in cells ==> c.key in all && c == all[c.key])
    && (forall k :: k in all ==> all[k] in cells)
  }

  method InsertCell(cells: seq<Cell>, c: Cell) returns (r: seq<Cell>)
    requires InOrder(cells) && forall d :: d in cells ==> d.key != c.key
    ensures InOrder(r) && forall d :: d in r <==> d in cells || d == c
  {
    var i := 0;
    while i < |cells| && Before(cells[i], c)
      invariant 0 <= i <= |cells|
      invariant forall k :: 0 <= k < i ==> Before(cells[k], c)
    {
      i := i + 1;
    }
    r := cells[..i] + [c] + cells[i..];
    forall k | i <= k < |cells|
      ensures Before(c, cells[k])
    {
      BeforeIsTotal(cells[i], c);
      assert cells[i] in cells;
      if i < k {
        BeforeIsTransitive(c, cells[i], cells[k]);
      }
    }
    assert forall d :: d in cells <==> d in cells[..i] || d in cells[i..];
  }

  /** Takes the groups in whatever order the hash map yields them. */
  method Cells(groups: Groups) returns (cells: seq<Cell>)
    ensures InOrder(cells) && Lists(cells, Catalogued(groups))
  {
    cells := [];
    var left := groups.Keys;
    ghost var all := Catalogued(groups);
    while left != {}
      invariant left <= groups.Keys && InOrder(cells)
      invariant forall c :: c in cells ==> c.key in all.Keys - left && c == all[c.key]
      invariant forall k :: k in all.Keys - left ==> all[k] in cells
      decreases left
    {
      var k :| k in left;
      var c := CellOf(k, groups[k]);
      cells := InsertCell(cells, c);
      left := left - {k};
    }
  }

  lemma {:induction false} SameHead(a: seq<Cell>, b: seq<Cell>)
    requires InOrder(a) && InOrder(b) && a != [] && b != []
    requires forall c :: c in a <==> c in b
    ensures a[0] == b[0]
  {
    assert a[0] in a && b[0] in b;
    var i :| 0 <= i < |b| && b[i] == a[0];
    var j :| 0 <= j < |a| && a[j] == b[0];
    if i > 0 && j > 0 {
      BeforeIsTransitive(a[0], b[0], a[0]);
      BeforeIsTotal(a[0], a[0]);
    }
  }

  lemma TailElements(a: seq<Cell>, c: Cell)
    requires InOrder(a) && a != []
    ensures c in a[1..] <==> c in a && c != a[0]
  {
    BeforeIsTotal(a[0], a[0]);
    if c in a && c != a[0] {
      var i :| 0 <= i < |a| && a[i] == c;
      assert a[1..][i - 1] == c;
    }
  }

  lemma HasMember(b: seq<Cell>)
    requires b != []
    ensures exists c :: c in b
  {
    assert b[0] in b;
  }

  lemma NothingElse(a: seq<Cell>, b: seq<Cell>)
    requires a == [] && forall c :: c in b ==> c in a
    ensures b == []
  {
    if b != [] {
      HasMember(b);
    }
  }

  /** There is only one ordered list of a given set of cells. */
  lemma {:induction false} OrderIsUnique(a: seq<Cell>, b: seq<Cell>)
    requires InOrder(a) && InOrder(b) && forall c :: c in a <==> c in b
    ensures a == b
  {
    if a == [] {
      NothingElse(a, b);
    } else if b == [] {
      NothingElse(b, a);
    } else {
      SameHead(a, b);
      forall c
        ensures c in a[1..] <==> c in b[1..]
      {
        TailElements(a, c);
        TailElements(b, c);
      }
      OrderIsUnique(a[1..], b[1..]);
      assert a == [a[0]] + a[1..] && b == [b[0]] + b[1..];
    }
  }

  /** The reported list does not depend on the order in which the map is drained. */
  lemma ResultIsDetermined(groups: Groups, a: seq<Cell>, b: seq<Cell>)
    requires InOrder(a) && Lists(a, Catalogued(groups)) && InOrder(b) && Lists(b, Catalogued(groups))
    ensures a == b
  {
    var all := Catalogued(groups);
    SameElements(a, b, all);
    OrderIsUnique(a, b);
  }

  lemma SameElements(a: seq<Cell>, b: seq<Cell>, all: Catalogue)
    requires Lists(a, all) && Lists(b, all)
    ensures forall c :: c in a <==> c in b
  {}

  ghost function CellSum(cells: seq<Cell>): nat {
    if cells == [] then 0 else cells[0].samples + CellSum(cells[1..])
  }

  predicate Agrees(all: Catalogue, groups: Groups) {
    all.Keys == groups.Keys && forall k :: k in all ==> all[k].key == k && all[k].samples == groups[k].samples
  }

  lemma AgreesWithout(all: Catalogue, groups: Groups, k: Key)
    requires Agrees(all, groups) && k in groups
    ensures Agrees(all - {k}, groups - {k}) && |groups - {k}| == |groups| - 1
  {
    assert groups.Keys == (groups - {k}).Keys + {k};
  }

  lemma ListsTail(cells: seq<Cell>, all: Catalogue)
    requires InOrder(cells) && Lists(cells, all) && cells != []
    requires forall k :: k in all ==> all[k].key == k
    ensures Lists(cells[1..], all - {cells[0].key}) && cells[0].key in all && cells[0] == all[cells[0].key]
  {
    var rest := all - {cells[0].key};
    assert cells[0] in cells;
    forall k | k in rest
      ensures rest[k] in cells[1..]
    {
      TailElements(cells, rest[k]);
    }
    forall d | d in cells[1..]
      ensures d.key in rest && d == rest[d.key]
    {
      TailElements(cells, d);
    }
  }

  lemma EmptyCatalogue(all: Catalogue, groups: Groups)
    requires Lists([], all) && Agrees(all, groups)
    ensures groups == map[] && |groups| == 0
  {
    assert forall k :: k !in all;
    assert groups.Keys == {};
  }

  lemma {:induction false} CellSumIsGroupSum(cells: seq<Cell>, all: Catalogue, groups: Groups)
    requires InOrder(cells) && Lists(cells, all) && Agrees(all, groups)
    ensures CellSum(cells) == Sum(groups, SamplesOf) && |cells| == |groups|
  {
    if cells == [] {
      EmptyCatalogue(all, groups);
    } else {
      var k := cells[0].key;
      ListsTail(cells, all);
      AgreesWithout(all, groups, k);
      CellSumIsGroupSum(cells[1..], all - {k}, groups - {k});
      SumRemove(groups, k, SamplesOf);
    }
  }

  /** The whole of `result`: at most 128 cells, ordered, and their sample counts
      account for every recent sample that was not left out. */
  method Report(samples: seq<Sample>, directs: seq<Direct>, now: int)
    returns (cells: seq<Cell>, overflow: bool, ambiguous: nat)
    ensures var t := TallySamples(samples, directs, now);
      var u := TallyDirects(t, directs, now);
      && Lists(cells, Catalogued(u.groups)) && InOrder(cells) && |cells| <= MAX_CELLS
      && overflow == u.overflow && ambiguous == u.ambiguous
      && CellSum(cells) == RecentSamples(samples, now) - t.unanchored - t.turnedAway
  {
    var groups;
    groups, overflow, ambiguous := Tabulate(samples, directs, now);
    cells := Cells(groups);
    ghost var t := TallySamples(samples, directs, now);
    SamplesAreConserved(samples, directs, now);
    DirectsAreConserved(t, directs, now);
    CellSumIsGroupSum(cells, Catalogued(groups), groups);
  }
}
