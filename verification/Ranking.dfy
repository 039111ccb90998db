/** Ranking of search hits: score first, then partition order, then insertion position.

    Both backends and the index cut their results to the best k hits of this order.  TopOf says
    what "the best k of a set of hits" means, without saying how they are found; Best computes
    them by sorting; TopUnique shows there is only one such list, and MergeTops that the best k of
    the partitions' own best k are the best k of everything. */
module Ranking {

  /** A score; NegInf is what the matrix backend gives rows it must not report. */
  datatype Score = NegInf | Fin(value: real)

  predicate Above(a: Score, b: Score) {
    a.Fin? && (b.NegInf? || a.value > b.value)
  }

  datatype Hit = Hit(score: Score, part: nat, pos: nat, id: string)

  /** Higher scores come first; equal ones in partition order, then by position. */
  predicate Before(a: Hit, b: Hit) {
    Above(a.score, b.score)
    || (a.score == b.score && (a.part < b.part || (a.part == b.part && a.pos < b.pos)))
  }

  ghost predicate Sorted(s: seq<Hit>) {
    forall i, j :: 0 <= i < j < |s| ==> Before(s[i], s[j])
  }

  /** A place (partition, position) holds one hit, so Before is total on the set. */
  ghost predicate Placed(all: set<Hit>) {
    forall g, h :: g in all && h in all && g.part == h.part && g.pos == h.pos ==> g == h
  }

  /** r lists the best k hits of all, best first (all of them when there are fewer than k). */
  ghost predicate TopOf(r: seq<Hit>, all: set<Hit>, k: nat) {
    && Sorted(r)
    && |r| <= k
    && (forall h :: h in r ==> h in all)
    && (forall h :: h in all && h !in r ==> |r| == k && forall i :: 0 <= i < |r| ==> Before(r[i], h))
  }

  function Elements(s: seq<Hit>): (r: set<Hit>) {
    set h | h in s
  }

  function IndexIn(s: seq<Hit>, h: Hit): (i: nat)
    requires h in s
    ensures i < |s| && s[i] == h
  {
    if s[0] == h then 0 else 1 + IndexIn(s[1..], h)
  }

  // ----- at most one list is the top k -----

  lemma TopUnique(r1: seq<Hit>, r2: seq<Hit>, all: set<Hit>, k: nat)
    requires Placed(all) && TopOf(r1, all, k) && TopOf(r2, all, k)
    ensures r1 == r2
  {
    AgreeUpTo(r1, r2, all, k, |r1|);
    AgreeUpTo(r2, r1, all, k, |r2|);
  }

  lemma {:induction false} AgreeUpTo(r1: seq<Hit>, r2: seq<Hit>, all: set<Hit>, k: nat, n: nat)
    requires Placed(all) && TopOf(r1, all, k) && TopOf(r2, all, k)
    requires n <= |r1|
    ensures n <= |r2| && r1[..n] == r2[..n]
  {
    if n > 0 {
      var i := n - 1;
      AgreeUpTo(r1, r2, all, k, i);
      assert forall j :: 0 <= j < i ==> r1[..i][j] == r1[j] && r2[..i][j] == r2[j];
      assert r1[i] in all;
      assert i < |r2| by {
        if i >= |r2| { assert false; }
      }
      assert r2[i] in all;
      NotAhead(r1, r2, all, k, i);
      NotAhead(r2, r1, all, k, i);
    }
  }

  lemma NotAhead(r1: seq<Hit>, r2: seq<Hit>, all: set<Hit>, k: nat, i: nat)
    requires TopOf(r1, all, k) && TopOf(r2, all, k) && i < |r1| && i < |r2|
    requires forall j :: 0 <= j < i ==> r1[j] == r2[j]
    ensures !Before(r1[i], r2[i])
  {
    var h := r1[i];
    assert h in all;
    assert forall j :: 0 <= j < i ==> r2[j] != h by {
      assert forall j :: 0 <= j < i ==> Before(r1[j], h);
    }
    assert h in r2 || Before(r2[i], h);
  }

  // ----- sorting -----

  function Insert(h: Hit, s: seq<Hit>): (r: seq<Hit>)
    ensures multiset(r) == multiset(s) + multiset{h}
  {
    if s == [] || Before(h, s[0]) then [h] + s
    else
      assert s == [s[0]] + s[1..];
      [s[0]] + Insert(h, s[1..])
  }

  /** The hits in rank order (every sort of hits in the source uses this key). */
  function Ranked(s: seq<Hit>): (r: seq<Hit>)
    ensures multiset(r) == multiset(s)
    ensures |r| == |s|
  {
    if s == [] then []
    else
      assert s == [s[0]] + s[1..];
      var r := Insert(s[0], Ranked(s[1..]));
      assert |multiset(r)| == |r| && |multiset(s)| == |s|;
      r
  }

  ghost predicate DistinctPlaces(s: seq<Hit>) {
    forall i, j :: 0 <= i < j < |s| ==> s[i].part != s[j].part || s[i].pos != s[j].pos
  }

  lemma {:induction false} InsertSorted(h: Hit, s: seq<Hit>)
    requires Sorted(s)
    requires forall g :: g in s ==> g.part != h.part || g.pos != h.pos
    ensures Sorted(Insert(h, s))
  {
    if s != [] && !Before(h, s[0]) {
      InsertSorted(h, s[1..]);
      var r := Insert(h, s[1..]);
      forall g | g in r ensures Before(s[0], g) {
        assert g in multiset(r);
        assert g in multiset(s[1..]) || g == h;
        if g != h { assert g in s[1..]; }
      }
    }
  }

  lemma {:induction false} RankedSorted(s: seq<Hit>)
    requires DistinctPlaces(s)
    ensures Sorted(Ranked(s))
  {
    if s != [] {
      RankedSorted(s[1..]);
      var r := Ranked(s[1..]);
      forall g | g in r ensures g.part != s[0].part || g.pos != s[0].pos {
        assert g in multiset(r);
        assert g in s[1..];
      }
      InsertSorted(s[0], r);
    }
  }

  lemma {:induction false} InsertDistinct(h: Hit, s: seq<Hit>)
    requires DistinctPlaces(s) && forall g :: g in s ==> g.part != h.part || g.pos != h.pos
    ensures DistinctPlaces(Insert(h, s))
  {
    if s != [] && !Before(h, s[0]) {
      InsertDistinct(h, s[1..]);
      var r := Insert(h, s[1..]);
      forall g | g in r ensures g.part != s[0].part || g.pos != s[0].pos {
        assert g in multiset(r);
        assert g in s[1..] || g == h;
      }
    }
  }

  /** Ranking keeps places distinct. */
  lemma {:induction false} RankedDistinct(s: seq<Hit>)
    requires DistinctPlaces(s)
    ensures DistinctPlaces(Ranked(s))
  {
    if s != [] {
      RankedDistinct(s[1..]);
      var r := Ranked(s[1..]);
      forall g | g in r ensures g.part != s[0].part || g.pos != s[0].pos {
        assert g in multiset(r);
        assert g in s[1..];
      }
      InsertDistinct(s[0], r);
    }
  }

  /** The best k hits: rank everything, keep the first k. */
  function Best(s: seq<Hit>, k: nat): (r: seq<Hit>) {
    if |s| <= k then Ranked(s) else Ranked(s)[..k]
  }

  lemma RankedElements(s: seq<Hit>, h: Hit)
    ensures h in Ranked(s) <==> h in s
  {
    assert h in multiset(Ranked(s)) <==> h in multiset(s);
  }

  lemma BestIsTop(s: seq<Hit>, k: nat)
    requires DistinctPlaces(s)
    ensures Placed(Elements(s)) && TopOf(Best(s, k), Elements(s), k)
  {
    RankedSorted(s);
    var r := Ranked(s);
    var b := Best(s, k);
    assert Sorted(b);
    forall h | h in b ensures h in Elements(s) {
      assert h in r;
      RankedElements(s, h);
    }
    forall h | h in Elements(s) && h !in b
      ensures |b| == k && forall i :: 0 <= i < |b| ==> Before(b[i], h)
    {
      RankedElements(s, h);
      var j := IndexIn(r, h);
      assert j >= k;
    }
  }

  // ----- the best of the bests -----

  lemma {:induction false} NoLongerThan(a: seq<Hit>, b: seq<Hit>)
    requires Sorted(a) && forall h :: h in a ==> h in b
    ensures |a| <= |b|
  {
    if a != [] {
      var h := a[0];
      var i := IndexIn(b, h);
      var rest := b[..i] + b[i + 1..];
      forall g | g in a[1..] ensures g in rest {
        var m := IndexIn(b, g);
        assert m != i;
        assert rest[if m < i then m else m - 1] == g;
      }
      NoLongerThan(a[1..], rest);
    }
  }

  /** Cutting each partition to its own best k first loses nothing: the best k of what is left
      are the best k of every partition together. */
  lemma MergeTops(parts: seq<set<Hit>>, tops: seq<seq<Hit>>, r: seq<Hit>, all: set<Hit>, cut: set<Hit>, k: nat)
    requires |parts| == |tops|
    requires forall i :: 0 <= i < |parts| ==> TopOf(tops[i], parts[i], k)
    requires forall h :: h in all <==> exists i :: 0 <= i < |parts| && h in parts[i]
    requires forall h :: h in cut <==> exists i :: 0 <= i < |tops| && h in tops[i]
    requires Placed(all) && TopOf(r, cut, k)
    ensures TopOf(r, all, k)
  {
    forall h | h in r ensures h in all {
      assert h in cut;
      var i :| 0 <= i < |tops| && h in tops[i];
      assert h in parts[i];
    }
    forall h | h in all && h !in r
      ensures |r| == k && forall m :: 0 <= m < |r| ==> Before(r[m], h)
    {
      var i :| 0 <= i < |parts| && h in parts[i];
      if h !in tops[i] {
        LeftOut(tops[i], parts[i], r, all, cut, h, k);
      } else {
        assert h in cut;
      }
    }
  }

  /** A hit that its own partition's best k leave out is after k others, so it is out overall. */
  lemma LeftOut(top: seq<Hit>, part: set<Hit>, r: seq<Hit>, all: set<Hit>, cut: set<Hit>, h: Hit, k: nat)
    requires TopOf(top, part, k) && h in part && h !in top
    requires TopOf(r, cut, k) && Placed(all) && part <= all && cut <= all && Elements(top) <= cut
    requires h !in r
    ensures |r| == k && forall m :: 0 <= m < |r| ==> Before(r[m], h)
  {
    assert forall g :: g in top ==> g in Elements(top);
    assert |r| == k by {
      if |r| < k {
        NoLongerThan(top, r);
      }
    }
    forall m | 0 <= m < |r| ensures Before(r[m], h) {
      assert r[m] in cut && h in all;
      if Before(h, r[m]) {
        CrowdedOut(top, r, cut, h, m, k);
      }
    }
  }

  lemma CrowdedOut(top: seq<Hit>, r: seq<Hit>, cut: set<Hit>, h: Hit, m: nat, k: nat)
    requires Sorted(top) && |top| == k && Elements(top) <= cut && TopOf(r, cut, k) && m < |r|
    requires forall i :: 0 <= i < |top| ==> Before(top[i], h)
    ensures !Before(h, r[m])
  {
    if Before(h, r[m]) {
      forall g | g in top ensures g in r[..m] {
        assert g in Elements(top);
        assert Before(g, r[m]);
        var n := IndexIn(r, g);
        assert r[..m][n] == g;
      }
      NoLongerThan(top, r[..m]);
    }
  }
}
