/** Paging through the journal (`Journal::view` in rust/src/activity.rs). */
module JournalPages {
  import opened Common
  import opened Journal

  const PAGE := 100

  datatype Filter = Filter(category: Option<string>, failed: bool)

  predicate Matches(e: Entry, f: Filter) {
    (f.category.Some? ==> e.category == f.category.value) && (f.failed ==> e.result == "failed")
  }

  predicate Below(e: Entry, before: Option<nat>) {
    before.Some? ==> e.id < before.value
  }

  /** The matching entries, newest first. */
  function Selected(entries: seq<Entry>, before: Option<nat>, f: Filter): seq<Entry> {
    if entries == [] then []
    else
      var e := entries[|entries| - 1];
      (if Below(e, before) && Matches(e, f) then [e] else []) + Selected(entries[..|entries| - 1], before, f)
  }

  datatype Page = Page(entries: seq<Entry>, nextBefore: Option<nat>)

  function View(entries: seq<Entry>, before: Option<nat>, f: Filter): Page {
    var all := Selected(entries, before, f);
    if |all| > PAGE then Page(all[..PAGE], Some(all[PAGE - 1].id)) else Page(all, None)
  }

  lemma {:induction false} SelectedMember(entries: seq<Entry>, before: Option<nat>, f: Filter, k: nat)
    requires k < |Selected(entries, before, f)|
    ensures Selected(entries, before, f)[k] in entries && Below(Selected(entries, before, f)[k], before)
  {
    var init, e := entries[..|entries| - 1], entries[|entries| - 1];
    var d := if Below(e, before) && Matches(e, f) then 1 else 0;
    if k >= d {
      SelectedMember(init, before, f, k - d);
      assert Selected(entries, before, f)[k] == Selected(init, before, f)[k - d];
      assert Selected(init, before, f)[k - d] in init;
    }
  }

  /** A bound above every id selects everything. */
  lemma {:induction false} BoundAbove(entries: seq<Entry>, a: Option<nat>, b: Option<nat>, f: Filter)
    requires forall i :: 0 <= i < |entries| ==> Below(entries[i], a) && Below(entries[i], b)
    ensures Selected(entries, a, f) == Selected(entries, b, f)
  {
    if entries != [] {
      BoundAbove(entries[..|entries| - 1], a, b, f);
    }
  }

  /** The newest entry drops out when the bound is not above it. */
  lemma NewestDropsOut(entries: seq<Entry>, bound: nat, f: Filter)
    requires entries != [] && entries[|entries| - 1].id >= bound
    ensures Selected(entries, Some(bound), f) == Selected(entries[..|entries| - 1], Some(bound), f)
  {}

  lemma OlderIsSmaller(entries: seq<Entry>, before: Option<nat>, f: Filter, k: nat)
    requires Increasing(entries) && entries != [] && k < |Selected(entries[..|entries| - 1], before, f)|
    ensures Selected(entries[..|entries| - 1], before, f)[k].id < entries[|entries| - 1].id
  {
    var init := entries[..|entries| - 1];
    SelectedMember(init, before, f, k);
    var i :| 0 <= i < |init| && init[i] == Selected(init, before, f)[k];
    assert init[i] == entries[i];
  }

  lemma BelowNewest(entries: seq<Entry>, before: Option<nat>, f: Filter)
    requires Increasing(entries) && entries != [] && Below(entries[|entries| - 1], before)
    ensures Selected(entries[..|entries| - 1], Some(entries[|entries| - 1].id), f)
         == Selected(entries[..|entries| - 1], before, f)
  {
    BoundAbove(entries[..|entries| - 1], before, Some(entries[|entries| - 1].id), f);
  }

  /** Continuing below the k-th selected entry selects exactly what follows it. */
  lemma {:induction false} CursorContinues(entries: seq<Entry>, before: Option<nat>, f: Filter, k: nat)
    requires Increasing(entries) && k < |Selected(entries, before, f)|
    ensures var all := Selected(entries, before, f);
      Selected(entries, Some(all[k].id), f) == all[k + 1..]
  {
    var init, e := entries[..|entries| - 1], entries[|entries| - 1];
    var all, rest := Selected(entries, before, f), Selected(init, before, f);
    var d := if Below(e, before) && Matches(e, f) then 1 else 0;
    assert all[d..] == rest;
    if k < d {
      BelowNewest(entries, before, f);
      NewestDropsOut(entries, e.id, f);
    } else {
      assert all[k] == rest[k - d] && all[k + 1..] == rest[k - d + 1..];
      CursorContinues(init, before, f, k - d);
      OlderIsSmaller(entries, before, f, k - d);
      NewestDropsOut(entries, all[k].id, f);
    }
  }

  /** A page and what its cursor leads to are together everything that was asked for. */
  lemma PageAndRest(entries: seq<Entry>, before: Option<nat>, f: Filter)
    requires Increasing(entries)
    ensures var p, all := View(entries, before, f), Selected(entries, before, f);
      if p.nextBefore.None? then p.entries == all
      else |Selected(entries, p.nextBefore, f)| < |all| && p.entries + Selected(entries, p.nextBefore, f) == all
  {
    if |Selected(entries, before, f)| > PAGE {
      CursorContinues(entries, before, f, PAGE - 1);
    }
  }

  /** All pages, following `next_before` until there is none. */
  function Walk(entries: seq<Entry>, before: Option<nat>, f: Filter): seq<Entry>
    requires Increasing(entries)
    decreases |Selected(entries, before, f)|
  {
    PageAndRest(entries, before, f);
    var p := View(entries, before, f);
    if p.nextBefore.None? then p.entries else p.entries + Walk(entries, p.nextBefore, f)
  }

  /** The walk ends and its pages are exactly the matching entries, newest first,
      each once. */
  lemma {:induction false} WalkSeesEverything(entries: seq<Entry>, before: Option<nat>, f: Filter)
    requires Increasing(entries)
    ensures Walk(entries, before, f) == Selected(entries, before, f)
    decreases |Selected(entries, before, f)|
  {
    PageAndRest(entries, before, f);
    var p := View(entries, before, f);
    if p.nextBefore.Some? {
      WalkSeesEverything(entries, p.nextBefore, f);
    }
  }

  /** What `Selected` selects: every matching entry, and each once, newest first. */
  lemma {:induction false} SelectedIsComplete(entries: seq<Entry>, before: Option<nat>, f: Filter)
    requires Increasing(entries)
    ensures var all := Selected(entries, before, f);
      && (forall e :: e in all <==> e in entries && Below(e, before) && Matches(e, f))
      && (forall i, k :: 0 <= i < k < |all| ==> all[i].id > all[k].id)
  {
    if entries != [] {
      var init, e := entries[..|entries| - 1], entries[|entries| - 1];
      SelectedIsComplete(init, before, f);
      var rest := Selected(init, before, f);
      forall k | 0 <= k < |rest|
        ensures rest[k].id < e.id
      {
        SelectedMember(init, before, f, k);
      }
      assert forall x :: x in entries <==> x in init || x == e;
    }
  }

  /** A page: the newest matching entries below the cursor, at most 100, and a
      cursor at the last of them exactly when there are more. */
  lemma PageExactly(entries: seq<Entry>, before: Option<nat>, f: Filter)
    requires Increasing(entries)
    ensures var p, all := View(entries, before, f), Selected(entries, before, f);
      && p.entries == all[..if |all| < 100 then |all| else 100]
      && (p.nextBefore.Some? <==> |all| > 100)
      && (p.nextBefore.Some? ==> p.nextBefore.value == p.entries[99].id)
      && (forall e :: e in all <==>
            && e in entries && (before.None? || e.id < before.value)
            && (f.category.None? || e.category == f.category.value) && (!f.failed || e.result == "failed"))
      && (forall i, k :: 0 <= i < k < |all| ==> all[i].id > all[k].id)
  {
    SelectedIsComplete(entries, before, f);
    var all := Selected(entries, before, f);
    assert |all| <= 100 ==> all[..|all|] == all;
  }
}
