/** Moving each replaced line right after the line that replaced it (the briefing's order of lines).

    The links are those of Outdated: from a replaced line's id to its replacement's. */
module Reordering {
  import opened Assoc
  import opened Outdated

  type Links = map<string, string>

  function IdsOf(s: seq<Fragment>): set<string> {
    set i | 0 <= i < |s| :: s[i].id
  }

  predicate Moves(f: Fragment, links: Links, ids: set<string>) {
    f.id in links && links[f.id] in ids
  }

  /** The lines that move, or those that stay. */
  function Filter(s: seq<Fragment>, links: Links, ids: set<string>, moves: bool): (r: seq<Fragment>)
    ensures forall i :: 0 <= i < |r| ==> Moves(r[i], links, ids) == moves
  {
    if s == [] then []
    else
      var n := |s| - 1;
      var rest := Filter(s[..n], links, ids, moves);
      if Moves(s[n], links, ids) == moves then rest + [s[n]] else rest
  }

  lemma {:induction false} FilterSplits(s: seq<Fragment>, links: Links, ids: set<string>)
    ensures multiset(Filter(s, links, ids, true)) + multiset(Filter(s, links, ids, false)) == multiset(s)
  {
    if s != [] {
      FilterSplits(s[..|s| - 1], links, ids);
      assert s == s[..|s| - 1] + [s[|s| - 1]];
    }
  }

  lemma {:induction false} FilterConcat(a: seq<Fragment>, b: seq<Fragment>, links: Links, ids: set<string>, moves: bool)
    ensures Filter(a + b, links, ids, moves) == Filter(a, links, ids, moves) + Filter(b, links, ids, moves)
  {
    if b == [] {
      assert a + b == a;
    } else {
      var n := |b| - 1;
      FilterConcat(a, b[..n], links, ids, moves);
      assert (a + b)[..|a + b| - 1] == a + b[..n];
    }
  }

  // ----- newest first -----

  function InsertNewest(f: Fragment, s: seq<Fragment>): (r: seq<Fragment>)
    ensures multiset(r) == multiset(s) + multiset{f}
  {
    if s == [] then [f]
    else
      var n := |s| - 1;
      assert s == s[..n] + [s[n]];
      if s[n].key >= f.key then s + [f] else InsertNewest(f, s[..n]) + [s[n]]
  }

  /** Latest key first; equal keys keep their order. */
  function NewestFirst(s: seq<Fragment>): (r: seq<Fragment>)
    ensures multiset(r) == multiset(s)
  {
    if s == [] then []
    else
      assert s == s[..|s| - 1] + [s[|s| - 1]];
      InsertNewest(s[|s| - 1], NewestFirst(s[..|s| - 1]))
  }

  ghost predicate Falling(s: seq<Fragment>) {
    forall i, j :: 0 <= i < j < |s| ==> s[i].key >= s[j].key
  }

  lemma Inserted(f: Fragment, s: seq<Fragment>, x: Fragment)
    requires x in InsertNewest(f, s)
    ensures x == f || x in s
  {
    assert x in multiset(InsertNewest(f, s));
  }

  lemma {:induction false} InsertFalling(f: Fragment, s: seq<Fragment>)
    requires Falling(s)
    ensures Falling(InsertNewest(f, s))
  {
    if s != [] && s[|s| - 1].key < f.key {
      var n := |s| - 1;
      InsertFalling(f, s[..n]);
      var r := InsertNewest(f, s[..n]);
      forall i | 0 <= i < |r| ensures r[i].key >= s[n].key {
        Inserted(f, s[..n], r[i]);
      }
    }
  }

  lemma {:induction false} NewestFirstFalling(s: seq<Fragment>)
    ensures Falling(NewestFirst(s))
  {
    if s != [] {
      NewestFirstFalling(s[..|s| - 1]);
      InsertFalling(s[|s| - 1], NewestFirst(s[..|s| - 1]));
    }
  }

  // ----- positions -----

  /** The first line with this id, or -1. */
  function Pos(s: seq<Fragment>, id: string): (p: int)
    ensures -1 <= p < |s|
    ensures p >= 0 ==> s[p].id == id
    ensures forall i :: 0 <= i < |s| && s[i].id == id ==> 0 <= p <= i
  {
    if s == [] then -1
    else
      var p := Pos(s[..|s| - 1], id);
      if p >= 0 then p else if s[|s| - 1].id == id then |s| - 1 else -1
  }

  function InsertAfter(s: seq<Fragment>, q: nat, f: Fragment): (r: seq<Fragment>)
    requires q < |s|
    ensures |r| == |s| + 1
    ensures forall i :: 0 <= i <= q ==> r[i] == s[i]
    ensures r[q + 1] == f
    ensures forall i :: q + 2 <= i < |r| ==> r[i] == s[i - 1]
    ensures multiset(r) == multiset(s) + multiset{f}
  {
    assert s == s[..q + 1] + s[q + 1..];
    s[..q + 1] + [f] + s[q + 1..]
  }

  lemma PosAfterInsert(s: seq<Fragment>, q: nat, f: Fragment, id: string)
    requires q < |s| && Pos(s, f.id) == -1
    ensures var r := InsertAfter(s, q, f);
      && (id == f.id ==> Pos(r, id) == q + 1)
      && (id != f.id && Pos(s, id) <= q ==> Pos(r, id) == Pos(s, id))
      && (id != f.id && Pos(s, id) > q ==> Pos(r, id) == Pos(s, id) + 1)
  {
    var r, p := InsertAfter(s, q, f), Pos(s, id);
    var target := if id == f.id then q + 1 else if p <= q then p else p + 1;
    hide Pos, InsertAfter;
    if target >= 0 { assert r[target].id == id; }
    forall i | 0 <= i < |r| && r[i].id == id ensures 0 <= target <= i {
      if i <= q { assert s[i].id == id; }
      if i > q + 1 { assert s[i - 1].id == id; }
    }
    if Pos(r, id) >= 0 { assert r[Pos(r, id)].id == id; }
  }

  // ----- what a placed line satisfies -----

  /** Only moved lines after a, up to p. */
  ghost predicate MovedBetween(out: seq<Fragment>, a: int, p: int, links: Links, ids: set<string>) {
    forall m :: 0 <= m < |out| && a < m <= p ==> Moves(out[m], links, ids)
  }

  /** f comes after its replacement, with only moved lines in between. */
  ghost predicate Placed(out: seq<Fragment>, f: Fragment, links: Links, ids: set<string>) {
    && f.id in links
    && 0 <= Pos(out, links[f.id]) < Pos(out, f.id)
    && MovedBetween(out, Pos(out, links[f.id]), Pos(out, f.id), links, ids)
  }

  /** Of two lines with one replacement, g stands nearer to it. */
  ghost predicate Nearer(out: seq<Fragment>, g: Fragment, f: Fragment, links: Links) {
    f.id in links && g.id in links && links[f.id] == links[g.id] && f.id != g.id ==> Pos(out, g.id) < Pos(out, f.id)
  }

  lemma BetweenStays(out: seq<Fragment>, q: nat, g: Fragment, a: int, p: int, links: Links, ids: set<string>)
    requires q < |out| && Moves(g, links, ids) && MovedBetween(out, a, p, links, ids) && 0 <= a < p < |out|
    ensures MovedBetween(InsertAfter(out, q, g), if a <= q then a else a + 1, if p <= q then p else p + 1, links, ids)
  {
    hide InsertAfter, Moves;
    var next := InsertAfter(out, q, g);
    var a', p' := if a <= q then a else a + 1, if p <= q then p else p + 1;
    forall m | 0 <= m < |next| && a' < m <= p' ensures Moves(next[m], links, ids) {
      if m <= q { assert next[m] == out[m]; } else if m > q + 1 { assert next[m] == out[m - 1]; }
    }
  }

  lemma PlacedStays(out: seq<Fragment>, q: nat, f: Fragment, g: Fragment, links: Links, ids: set<string>)
    requires q < |out| && Pos(out, g.id) == -1 && Moves(g, links, ids)
    requires Placed(out, f, links, ids)
    ensures Placed(InsertAfter(out, q, g), f, links, ids)
  {
    PosAfterInsert(out, q, g, f.id);
    PosAfterInsert(out, q, g, links[f.id]);
    BetweenStays(out, q, g, Pos(out, links[f.id]), Pos(out, f.id), links, ids);
    hide InsertAfter, Moves, MovedBetween, Pos;
  }

  lemma NewlyPlaced(out: seq<Fragment>, g: Fragment, links: Links, ids: set<string>)
    requires Pos(out, g.id) == -1 && Moves(g, links, ids) && Pos(out, links[g.id]) >= 0
    ensures Placed(InsertAfter(out, Pos(out, links[g.id]), g), g, links, ids)
  {
    PosAfterInsert(out, Pos(out, links[g.id]), g, g.id);
    PosAfterInsert(out, Pos(out, links[g.id]), g, links[g.id]);
    hide Pos, InsertAfter, Moves;
  }

  lemma NewlyNearer(out: seq<Fragment>, f: Fragment, g: Fragment, links: Links, ids: set<string>)
    requires Pos(out, g.id) == -1 && Moves(g, links, ids) && Pos(out, links[g.id]) >= 0
    requires Placed(out, f, links, ids)
    ensures Nearer(InsertAfter(out, Pos(out, links[g.id]), g), g, f, links)
  {
    PosAfterInsert(out, Pos(out, links[g.id]), g, g.id);
    PosAfterInsert(out, Pos(out, links[g.id]), g, f.id);
  }

  lemma NearerStays(out: seq<Fragment>, q: nat, x: Fragment, g: Fragment, f: Fragment, links: Links)
    requires q < |out| && Pos(out, x.id) == -1 && Nearer(out, g, f, links)
    requires Pos(out, g.id) >= 0 && Pos(out, f.id) >= 0
    ensures Nearer(InsertAfter(out, q, x), g, f, links)
  {
    PosAfterInsert(out, q, x, g.id);
    PosAfterInsert(out, q, x, f.id);
  }

  // ----- the loop -----

  /** Links between the lines go strictly forward in time (see LinksGoForward). */
  ghost predicate Forward(s: seq<Fragment>, links: Links) {
    forall i, j :: 0 <= i < |s| && 0 <= j < |s| && s[i].id in links && links[s[i].id] == s[j].id ==> s[i].key < s[j].key
  }

  /** The first k of the moved lines are placed, nearer the later they come. */
  ghost predicate PlacedUpTo(out: seq<Fragment>, moved: seq<Fragment>, k: nat, links: Links, ids: set<string>) {
    && k <= |moved|
    && (forall i :: 0 <= i < k ==> Placed(out, moved[i], links, ids))
    && (forall i, j :: 0 <= i < j < k ==> Nearer(out, moved[j], moved[i], links))
  }

  /** The replacement of the newest line left to place has been placed: it is strictly newer. */
  lemma AnchorFound(fragments: seq<Fragment>, links: Links, out: seq<Fragment>, moved: seq<Fragment>, k: nat)
    requires Forward(fragments, links) && Falling(moved) && k < |moved|
    requires multiset(out) + multiset(moved[k..]) == multiset(fragments)
    requires Moves(moved[k], links, IdsOf(fragments))
    ensures Pos(out, links[moved[k].id]) >= 0
  {
    var f := moved[k];
    var j :| 0 <= j < |fragments| && fragments[j].id == links[f.id];
    assert moved[k..][0] == f;
    assert f in multiset(fragments);
    var i :| 0 <= i < |fragments| && fragments[i] == f;
    assert fragments[j].key > f.key;
    assert fragments[j] in multiset(out) + multiset(moved[k..]);
    assert fragments[j] !in moved[k..];
    var m :| 0 <= m < |out| && out[m] == fragments[j];
  }

  lemma NextPlaced(out: seq<Fragment>, moved: seq<Fragment>, k: nat, links: Links, ids: set<string>)
    requires k < |moved| && PlacedUpTo(out, moved, k, links, ids)
    requires Moves(moved[k], links, ids) && Pos(out, links[moved[k].id]) >= 0 && Pos(out, moved[k].id) == -1
    ensures PlacedUpTo(InsertAfter(out, Pos(out, links[moved[k].id]), moved[k]), moved, k + 1, links, ids)
  {
    var q := Pos(out, links[moved[k].id]);
    var next := InsertAfter(out, q, moved[k]);
    forall i | 0 <= i < k + 1 ensures Placed(next, moved[i], links, ids) {
      StillPlaced(out, moved, k, links, ids, i);
    }
    forall i, j | 0 <= i < j < k + 1 ensures Nearer(next, moved[j], moved[i], links) {
      StillNearer(out, moved, k, links, ids, i, j);
    }
    hide Placed, Nearer, InsertAfter, Pos, Moves;
  }

  lemma StillPlaced(out: seq<Fragment>, moved: seq<Fragment>, k: nat, links: Links, ids: set<string>, i: nat)
    requires i <= k < |moved| && PlacedUpTo(out, moved, k, links, ids)
    requires Moves(moved[k], links, ids) && Pos(out, links[moved[k].id]) >= 0 && Pos(out, moved[k].id) == -1
    ensures Placed(InsertAfter(out, Pos(out, links[moved[k].id]), moved[k]), moved[i], links, ids)
  {
    var q := Pos(out, links[moved[k].id]);
    hide Placed, Nearer, InsertAfter, Pos;
    if i == k { NewlyPlaced(out, moved[k], links, ids); } else { PlacedStays(out, q, moved[i], moved[k], links, ids); }
  }

  lemma StillNearer(out: seq<Fragment>, moved: seq<Fragment>, k: nat, links: Links, ids: set<string>, i: nat, j: nat)
    requires i < j <= k < |moved| && PlacedUpTo(out, moved, k, links, ids)
    requires Moves(moved[k], links, ids) && Pos(out, links[moved[k].id]) >= 0 && Pos(out, moved[k].id) == -1
    ensures Nearer(InsertAfter(out, Pos(out, links[moved[k].id]), moved[k]), moved[j], moved[i], links)
  {
    var q := Pos(out, links[moved[k].id]);
    assert Placed(out, moved[i], links, ids);
    if j == k {
      NewlyNearer(out, moved[i], moved[k], links, ids);
    } else {
      assert Nearer(out, moved[j], moved[i], links);
      assert Placed(out, moved[j], links, ids);
      hide Nearer, InsertAfter, PlacedUpTo;
      NearerStays(out, q, moved[k], moved[j], moved[i], links);
    }
  }

  lemma {:induction false} FilterInserted(s: seq<Fragment>, q: nat, f: Fragment, links: Links, ids: set<string>)
    requires q < |s| && Moves(f, links, ids)
    ensures Filter(InsertAfter(s, q, f), links, ids, false) == Filter(s, links, ids, false)
  {
    var a, b := s[..q + 1], s[q + 1..];
    assert s == a + b;
    FilterConcat(a, b, links, ids, false);
    FilterConcat(a + [f], b, links, ids, false);
    FilterConcat(a, [f], links, ids, false);
    assert [f][..0] == [];
    assert Filter([f], links, ids, false) == [];
  }

  /** A line left to place is not out yet, when ids are distinct. */
  lemma NotOutYet(fragments: seq<Fragment>, out: seq<Fragment>, moved: seq<Fragment>, k: nat)
    requires DistinctIds(fragments) && k < |moved| && multiset(out) + multiset(moved[k..]) == multiset(fragments)
    ensures Pos(out, moved[k].id) == -1
  {
    var p, f := Pos(out, moved[k].id), moved[k];
    if p >= 0 {
      assert moved[k..][0] == f;
      assert f in multiset(fragments) && out[p] in multiset(out) && out[p] in multiset(fragments);
      var i :| 0 <= i < |fragments| && fragments[i] == f;
      var j :| 0 <= j < |fragments| && fragments[j] == out[p];
      assert i == j;
      Once(fragments, i);
    }
  }

  /** _after_replacement.  Every moved line's replacement is found; the result is a permutation; the
      lines that stay keep their order; and with distinct ids, each moved line comes after its
      replacement with only moved lines in between. */
  method AfterReplacement(fragments: seq<Fragment>, links: Links) returns (out: seq<Fragment>)
    requires Forward(fragments, links)
    ensures var ids := IdsOf(fragments); var moved := NewestFirst(Filter(fragments, links, ids, true));
      && multiset(out) == multiset(fragments)
      && Filter(out, links, ids, false) == Filter(fragments, links, ids, false)
      && (DistinctIds(fragments) ==> PlacedUpTo(out, moved, |moved|, links, ids))
  {
    var ids := IdsOf(fragments);
    var moved := NewestFirst(Filter(fragments, links, ids, true));
    out := Filter(fragments, links, ids, false);
    NothingMoved(fragments, links, ids, moved);
    hide Progress, Forward, Falling, Filter, NewestFirst, IdsOf, Moves, InsertAfter;
    for k := 0 to |moved|
      invariant Progress(fragments, links, ids, out, moved, k)
    {
      Advance(fragments, links, ids, out, moved, k);
      out := InsertAfter(out, Pos(out, links[moved[k].id]), moved[k]);
    }
    AllMoved(fragments, links, ids, out, moved);
  }

  lemma NothingMoved(fragments: seq<Fragment>, links: Links, ids: set<string>, moved: seq<Fragment>)
    requires moved == NewestFirst(Filter(fragments, links, ids, true))
    ensures Falling(moved) && Progress(fragments, links, ids, Filter(fragments, links, ids, false), moved, 0)
    ensures forall k :: 0 <= k < |moved| ==> Moves(moved[k], links, ids)
  {
    var staying := Filter(fragments, links, ids, false);
    NewestFirstFalling(Filter(fragments, links, ids, true));
    FilterSplits(fragments, links, ids);
    FilterTwice(fragments, links, ids);
    NonePlaced(staying, moved, links, ids);
    assert multiset(moved) == multiset(Filter(fragments, links, ids, true));
    forall k | 0 <= k < |moved| ensures Moves(moved[k], links, ids) {
      MovedMoves(fragments, links, ids, k);
    }
    hide Filter, NewestFirst, Falling, PlacedUpTo, Moves, DistinctIds;
    assert moved[0..] == moved;
    assert multiset(staying) + multiset(moved[0..]) == multiset(fragments);
  }

  lemma NonePlaced(out: seq<Fragment>, moved: seq<Fragment>, links: Links, ids: set<string>)
    ensures PlacedUpTo(out, moved, 0, links, ids)
  {
  }

  lemma AllMoved(fragments: seq<Fragment>, links: Links, ids: set<string>, out: seq<Fragment>, moved: seq<Fragment>)
    requires Progress(fragments, links, ids, out, moved, |moved|)
    ensures multiset(out) == multiset(fragments)
    ensures Filter(out, links, ids, false) == Filter(fragments, links, ids, false)
    ensures DistinctIds(fragments) ==> PlacedUpTo(out, moved, |moved|, links, ids)
  {
    hide Filter, PlacedUpTo;
    assert multiset(moved[|moved|..]) == multiset{};
  }

  /** The first k moved lines are in. */
  ghost predicate Progress(fragments: seq<Fragment>, links: Links, ids: set<string>, out: seq<Fragment>,
                           moved: seq<Fragment>, k: nat) {
    && k <= |moved|
    && multiset(out) + multiset(moved[k..]) == multiset(fragments)
    && Filter(out, links, ids, false) == Filter(fragments, links, ids, false)
    && (DistinctIds(fragments) ==> PlacedUpTo(out, moved, k, links, ids))
  }

  lemma Advance(fragments: seq<Fragment>, links: Links, ids: set<string>, out: seq<Fragment>, moved: seq<Fragment>,
                k: nat)
    requires Forward(fragments, links) && Falling(moved) && ids == IdsOf(fragments)
    requires k < |moved| && Moves(moved[k], links, ids) && Progress(fragments, links, ids, out, moved, k)
    ensures var anchor := Pos(out, links[moved[k].id]);
      anchor >= 0 && Progress(fragments, links, ids, InsertAfter(out, anchor, moved[k]), moved, k + 1)
  {
    AnchorFound(fragments, links, out, moved, k);
    var anchor := Pos(out, links[moved[k].id]);
    if DistinctIds(fragments) {
      NotOutYet(fragments, out, moved, k);
      NextPlaced(out, moved, k, links, ids);
    }
    FilterInserted(out, anchor, moved[k], links, ids);
    hide Forward, Falling, Pos, PlacedUpTo, InsertAfter, Filter, DistinctIds, Moves;
    assert moved[k..] == [moved[k]] + moved[k + 1..];
  }

  lemma MovedMoves(fragments: seq<Fragment>, links: Links, ids: set<string>, k: nat)
    requires k < |NewestFirst(Filter(fragments, links, ids, true))|
    ensures Moves(NewestFirst(Filter(fragments, links, ids, true))[k], links, ids)
  {
    var moving := Filter(fragments, links, ids, true);
    assert NewestFirst(moving)[k] in multiset(NewestFirst(moving));
    assert NewestFirst(moving)[k] in moving;
  }

  lemma {:induction false} FilterTwice(s: seq<Fragment>, links: Links, ids: set<string>)
    ensures Filter(Filter(s, links, ids, false), links, ids, false) == Filter(s, links, ids, false)
  {
    if s != [] {
      FilterTwice(s[..|s| - 1], links, ids);
      var rest := Filter(s[..|s| - 1], links, ids, false);
      assert (rest + [s[|s| - 1]])[..|rest|] == rest;
    }
  }

  /** Lines of one anchor that differ in key stand newest first. */
  ghost predicate NewestFirstBetween(out: seq<Fragment>, moved: seq<Fragment>, links: Links) {
    forall f, g :: f in moved && g in moved && OneAnchor(f, g, links) && f.key > g.key ==>
      Pos(out, f.id) < Pos(out, g.id)
  }

  ghost predicate OneAnchor(f: Fragment, g: Fragment, links: Links) {
    f.id in links && g.id in links && f.id != g.id && links[f.id] == links[g.id]
  }

  /** The docstring of _after_replacement says newest first between the lines one line replaced.  Lines
      that differ in key come oldest first; so what it says holds if and only if no two do. */
  lemma OldestFirstBetween(fragments: seq<Fragment>, links: Links, out: seq<Fragment>)
    requires var ids := IdsOf(fragments); var moved := NewestFirst(Filter(fragments, links, ids, true));
      PlacedUpTo(out, moved, |moved|, links, ids)
    ensures var moved := NewestFirst(Filter(fragments, links, IdsOf(fragments), true));
      && (forall f, g :: f in moved && g in moved && OneAnchor(f, g, links) && f.key > g.key ==>
            Pos(out, g.id) < Pos(out, f.id))
      && (NewestFirstBetween(out, moved, links) <==>
          forall f, g :: f in moved && g in moved && OneAnchor(f, g, links) ==> f.key == g.key)
  {
    var ids := IdsOf(fragments);
    var moving := Filter(fragments, links, ids, true);
    var moved := NewestFirst(moving);
    NewestFirstFalling(moving);
    hide Filter, NewestFirst, Pos;
    forall f, g | f in moved && g in moved && OneAnchor(f, g, links) && f.key > g.key
      ensures Pos(out, g.id) < Pos(out, f.id)
    {
      OlderNearer(links, ids, out, moved, f, g);
    }
    if NewestFirstBetween(out, moved, links) {
      forall f, g | f in moved && g in moved && OneAnchor(f, g, links) ensures f.key == g.key {
        assert OneAnchor(g, f, links);
      }
    }
  }

  /** Two lines of different age, moved to one anchor: the older comes first. */
  method OldestFirstExample() returns (out: seq<Fragment>)
    ensures |out| == 3 && Pos(out, "b") < Pos(out, "c")
    ensures forall f :: f in out ==> (f.id == "b" ==> f.key == 1) && (f.id == "c" ==> f.key == 2)
  {
    var p := Profile("", {}, [], false);
    var a, b, c := Fragment("a", 3, p), Fragment("b", 1, p), Fragment("c", 2, p);
    var fragments, links := [a, b, c], map["b" := "a", "c" := "a"];
    assert Forward(fragments, links) && DistinctIds(fragments);
    assert "a" in IdsOf(fragments) by { assert fragments[0].id == "a"; }
    assert b in fragments && c in fragments;
    out := AfterReplacement(fragments, links);
    hide Pos, NewestFirst, Filter, PlacedUpTo, Forward, DistinctIds, IdsOf;
    SameMembers(out, fragments);
    MovingIn(fragments, links, IdsOf(fragments), b);
    MovingIn(fragments, links, IdsOf(fragments), c);
    OldestFirstBetween(fragments, links, out);
    assert OneAnchor(c, b, links);
  }

  lemma SameMembers(s: seq<Fragment>, r: seq<Fragment>)
    requires multiset(s) == multiset(r)
    ensures |s| == |r| && forall f :: f in s ==> f in r
  {
    assert |multiset(s)| == |multiset(r)|;
    forall f | f in s ensures f in r {
      assert f in multiset(s);
    }
  }

  lemma {:induction false} MovingFiltered(s: seq<Fragment>, links: Links, ids: set<string>, f: Fragment)
    requires f in s && Moves(f, links, ids)
    ensures f in Filter(s, links, ids, true)
  {
    var n := |s| - 1;
    if s[n] != f {
      assert s == s[..n] + [s[n]];
      MovingFiltered(s[..n], links, ids, f);
    }
  }

  lemma MovingIn(s: seq<Fragment>, links: Links, ids: set<string>, f: Fragment)
    requires f in s && Moves(f, links, ids)
    ensures f in NewestFirst(Filter(s, links, ids, true))
  {
    var moving := Filter(s, links, ids, true);
    MovingFiltered(s, links, ids, f);
    assert f in multiset(NewestFirst(moving));
  }

  lemma OlderNearer(links: Links, ids: set<string>, out: seq<Fragment>, moved: seq<Fragment>, f: Fragment, g: Fragment)
    requires Falling(moved) && PlacedUpTo(out, moved, |moved|, links, ids) && f in moved && g in moved
    requires f.id in links && g.id in links && f.id != g.id && links[f.id] == links[g.id] && f.key > g.key
    ensures Pos(out, g.id) < Pos(out, f.id)
  {
    hide Pos, Placed;
    var i :| 0 <= i < |moved| && moved[i] == f;
    var j :| 0 <= j < |moved| && moved[j] == g;
    assert i < j;
    assert Nearer(out, moved[j], moved[i], links);
  }

  /** The links replaced_by computes over a pool go forward between any of its lines: so they do between
      the lines picked from it, and every anchor is found. */
  lemma PoolLinksForward(t: Text, pool: seq<Fragment>, picked: seq<Fragment>)
    requires forall i :: 0 <= i < |picked| ==> picked[i] in Timed(pool)
    ensures Forward(picked, ReplacedBy(t, pool))
  {
    var timed, out := Timed(pool), ReplacedBy(t, pool);
    TimedOk(pool);
    assert out == Outdated.Links(t, timed, |timed|);
    hide ReplacedBy, Timed, Sorted, Outdated.Links, LaterReplaces;
    forall i, j | 0 <= i < |picked| && 0 <= j < |picked| && picked[i].id in out && out[picked[i].id] == picked[j].id
      ensures picked[i].key < picked[j].key
    {
      var a: nat :| a < |timed| && timed[a] == picked[i];
      var b: nat :| b < |timed| && timed[b] == picked[j];
      var c := OneLink(t, timed, a);
      SameId(timed, b, c);
    }
  }

  lemma SameId(timed: seq<Fragment>, b: nat, c: nat)
    requires DistinctIds(timed) && b < |timed| && c < |timed| && timed[b].id == timed[c].id
    ensures b == c
  {
  }
}
