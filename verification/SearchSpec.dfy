/** What a search must return: every matching vector of every partition, ranked by score, then
    partition order, then insertion order, cut to k.  PositionsDoNotMatter lets a backend number
    its entries by matrix row instead of by list position. */
module SearchSpec {
  import opened Assoc
  import opened Ranking
  import opened VectorBackends

  /** The matching entries of one partition, in insertion order. */
  function Listed(es: Entries, part: nat, q: Vector, scope: Option<set<string>>): (s: seq<Hit>) {
    if es == [] then []
    else
      var n := |es| - 1;
      Listed(es[..n], part, q, scope)
      + if Included(scope, es[n].0) then [Hit(Fin(Dot(q, es[n].1)), part, n, es[n].0)] else []
  }

  /** The matching entries of all partitions, in order. */
  function ListedAll(parts: seq<Entries>, q: Vector, scope: Option<set<string>>): (s: seq<Hit>) {
    if parts == [] then []
    else
      var n := |parts| - 1;
      ListedAll(parts[..n], q, scope) + Listed(parts[n], n, q, scope)
  }

  /** The answer: (id, score) of the best k, best first. */
  function Answer(parts: seq<Entries>, q: Vector, k: nat, scope: Option<set<string>>): seq<(string, Score)> {
    Shown(Best(ListedAll(parts, q, scope), k))
  }

  /** Hits of all partitions, their entries numbered by places. */
  ghost predicate Numberings(parts: seq<Entries>, places: seq<seq<nat>>) {
    |places| == |parts| && forall j :: 0 <= j < |parts| ==> Places(parts[j], places[j])
  }

  ghost predicate HitAt(parts: seq<Entries>, places: seq<seq<nat>>, q: Vector, scope: Option<set<string>>, h: Hit)
    requires Numberings(parts, places)
  {
    h.part < |parts| && h in Scored(parts[h.part], places[h.part], q, scope, h.part)
  }

  ghost predicate AllHits(parts: seq<Entries>, places: seq<seq<nat>>, q: Vector, scope: Option<set<string>>,
                          all: set<Hit>)
    requires Numberings(parts, places)
  {
    forall h :: h in all <==> HitAt(parts, places, q, scope, h)
  }

  ghost function Plain(parts: seq<Entries>): (places: seq<seq<nat>>)
    ensures Numberings(parts, places)
    ensures forall j :: 0 <= j < |parts| ==> places[j] == Counting(|parts[j]|)
  {
    seq(|parts|, j requires 0 <= j < |parts| => Counting(|parts[j]|))
  }

  /** The hit of one entry, at its list position. */
  ghost predicate EntryHit(es: Entries, part: nat, q: Vector, scope: Option<set<string>>, h: Hit) {
    && h.pos < |es| && Included(scope, es[h.pos].0)
    && h == Hit(Fin(Dot(q, es[h.pos].1)), part, h.pos, es[h.pos].0)
  }

  lemma {:induction false} ListedIn(es: Entries, part: nat, q: Vector, scope: Option<set<string>>, h: Hit)
    ensures h in Listed(es, part, q, scope) <==> EntryHit(es, part, q, scope, h)
  {
    hide Dot, Included;
    if es != [] { ListedIn(es[..|es| - 1], part, q, scope, h); }
  }

  lemma ScoredIn(es: Entries, part: nat, q: Vector, scope: Option<set<string>>, h: Hit)
    ensures h in Scored(es, Counting(|es|), q, scope, part) <==> EntryHit(es, part, q, scope, h)
  {
    hide Dot, Included;
    if EntryHit(es, part, q, scope, h) { assert Counting(|es|)[h.pos] == h.pos; }
  }

  lemma {:induction false} ListedDistinct(es: Entries, part: nat, q: Vector, scope: Option<set<string>>)
    ensures DistinctPlaces(Listed(es, part, q, scope))
    ensures forall i :: 0 <= i < |Listed(es, part, q, scope)| ==> Listed(es, part, q, scope)[i].pos < |es|
  {
    hide Dot, Included;
    if es != [] { ListedDistinct(es[..|es| - 1], part, q, scope); }
  }

  lemma ListedSpec(es: Entries, part: nat, q: Vector, scope: Option<set<string>>)
    ensures Elements(Listed(es, part, q, scope)) == Scored(es, Counting(|es|), q, scope, part)
    ensures DistinctPlaces(Listed(es, part, q, scope))
    ensures forall h :: h in Listed(es, part, q, scope) ==> h.part == part && h.pos < |es|
  {
    ListedDistinct(es, part, q, scope);
    hide Listed, DistinctPlaces, Dot, Included;
    forall h ensures h in Listed(es, part, q, scope) <==> EntryHit(es, part, q, scope, h) {
      ListedIn(es, part, q, scope, h);
    }
    forall h ensures h in Scored(es, Counting(|es|), q, scope, part) <==> EntryHit(es, part, q, scope, h) {
      ScoredIn(es, part, q, scope, h);
    }
  }

  lemma {:induction false} ListedAllSpec(parts: seq<Entries>, q: Vector, scope: Option<set<string>>)
    ensures DistinctPlaces(ListedAll(parts, q, scope))
    ensures AllHits(parts, Plain(parts), q, scope, Elements(ListedAll(parts, q, scope)))
  {
    if parts != [] {
      var n := |parts| - 1;
      var rest, last := ListedAll(parts[..n], q, scope), Listed(parts[n], n, q, scope);
      ListedAllSpec(parts[..n], q, scope);
      ListedSpec(parts[n], n, q, scope);
      forall h ensures h in rest <==> h.part < n && HitAt(parts, Plain(parts), q, scope, h) {
        assert h in rest <==> h in Elements(rest);
        assert h.part < n ==> parts[..n][h.part] == parts[h.part];
      }
      forall h ensures h in last <==> h.part == n && HitAt(parts, Plain(parts), q, scope, h) {
        assert h in last <==> h in Elements(last);
      }
    }
  }

  // ----- the numbering of the entries does not matter -----

  /** c is r, with each entry at its list position instead of its place. */
  ghost predicate Renumbered(places: seq<seq<nat>>, h: Hit, c: Hit) {
    h.part < |places| && c.pos < |places[h.part]| && h == c.(pos := places[h.part][c.pos])
  }

  lemma Renumber(parts: seq<Entries>, places: seq<seq<nat>>, q: Vector, scope: Option<set<string>>, h: Hit)
    returns (c: Hit)
    requires Numberings(parts, places) && HitAt(parts, places, q, scope, h)
    ensures Renumbered(places, h, c) && HitAt(parts, Plain(parts), q, scope, c)
  {
    var es, pl := parts[h.part], places[h.part];
    var i :| 0 <= i < |es| && Included(scope, es[i].0) && h == Hit(Fin(Dot(q, es[i].1)), h.part, pl[i], es[i].0);
    c := h.(pos := i);
    assert Plain(parts)[h.part][i] == i;
  }

  lemma RenumberBack(parts: seq<Entries>, places: seq<seq<nat>>, q: Vector, scope: Option<set<string>>, c: Hit)
    returns (h: Hit)
    requires Numberings(parts, places) && HitAt(parts, Plain(parts), q, scope, c)
    ensures Renumbered(places, h, c) && HitAt(parts, places, q, scope, h)
  {
    var es := parts[c.part];
    h := c.(pos := places[c.part][c.pos]);
    assert Included(scope, es[c.pos].0);
  }

  lemma SameOrder(parts: seq<Entries>, places: seq<seq<nat>>, g: Hit, h: Hit, cg: Hit, ch: Hit)
    requires Numberings(parts, places) && Renumbered(places, g, cg) && Renumbered(places, h, ch)
    ensures Before(g, h) <==> Before(cg, ch)
    ensures g == h <==> cg == ch
  {
    if g.part == h.part && cg.pos != ch.pos {
      var pl := places[g.part];
      assert pl[cg.pos] < pl[ch.pos] || pl[ch.pos] < pl[cg.pos];
    }
  }

  lemma RenumberAll(parts: seq<Entries>, places: seq<seq<nat>>, q: Vector, scope: Option<set<string>>, r: seq<Hit>)
    returns (c: seq<Hit>)
    requires Numberings(parts, places) && forall i :: 0 <= i < |r| ==> HitAt(parts, places, q, scope, r[i])
    ensures |c| == |r|
    ensures forall i :: 0 <= i < |r| ==> Renumbered(places, r[i], c[i]) && HitAt(parts, Plain(parts), q, scope, c[i])
  {
    c := [];
    while |c| < |r|
      invariant |c| <= |r|
      invariant forall i :: 0 <= i < |c| ==>
                  Renumbered(places, r[i], c[i]) && HitAt(parts, Plain(parts), q, scope, c[i])
    {
      var e := Renumber(parts, places, q, scope, r[|c|]);
      c := c + [e];
    }
  }

  /** The best k hits under any increasing numbering are the answer. */
  lemma PositionsDoNotMatter(parts: seq<Entries>, places: seq<seq<nat>>, q: Vector, scope: Option<set<string>>,
                             all: set<Hit>, r: seq<Hit>, k: nat)
    requires Numberings(parts, places) && AllHits(parts, places, q, scope, all) && TopOf(r, all, k)
    ensures Shown(r) == Answer(parts, q, k, scope)
  {
    assert forall i :: 0 <= i < |r| ==> r[i] in r;
    var c := RenumberAll(parts, places, q, scope, r);
    var list := ListedAll(parts, q, scope);
    ListedAllSpec(parts, q, scope);
    BestIsTop(list, k);
    forall i, j | 0 <= i < j < |c| ensures Before(c[i], c[j]) {
      SameOrder(parts, places, r[i], r[j], c[i], c[j]);
    }
    forall g | g in Elements(list) && g !in c
      ensures |c| == k && forall i :: 0 <= i < |c| ==> Before(c[i], g)
    {
      var h := RenumberBack(parts, places, q, scope, g);
      if i :| 0 <= i < |r| && r[i] == h { SameOrder(parts, places, r[i], h, c[i], g); }
      assert h in all && h !in r;
      forall i | 0 <= i < |c| ensures Before(c[i], g) {
        SameOrder(parts, places, r[i], h, c[i], g);
      }
    }
    TopUnique(c, Best(list, k), Elements(list), k);
  }

  // ----- the best of every partition's best -----

  /** The hits of a partition, marked with its place in the search. */
  function InOrder(hits: seq<Hit>, order: nat): (r: seq<Hit>)
    ensures |r| == |hits| && forall i :: 0 <= i < |r| ==> r[i] == hits[i].(part := order)
  {
    seq(|hits|, i requires 0 <= i < |hits| => hits[i].(part := order))
  }

  /** The scored entries of a partition are the same wherever it comes in the order. */
  lemma MovedScored(es: Entries, places: seq<nat>, q: Vector, scope: Option<set<string>>, order: nat, h: Hit)
    requires |places| == |es|
    ensures h in Scored(es, places, q, scope, order) <==>
              h.part == order && h.(part := 0) in Scored(es, places, q, scope, 0)
  {
    hide Dot, Included;
    if h in Scored(es, places, q, scope, order) {
      var i :| 0 <= i < |es| && Included(scope, es[i].0) && h == Hit(Fin(Dot(q, es[i].1)), order, places[i], es[i].0);
      assert h.(part := 0) == Hit(Fin(Dot(q, es[i].1)), 0, places[i], es[i].0);
    }
    if h.part == order && h.(part := 0) in Scored(es, places, q, scope, 0) {
      var i :| 0 <= i < |es| && Included(scope, es[i].0)
        && h.(part := 0) == Hit(Fin(Dot(q, es[i].1)), 0, places[i], es[i].0);
      assert h == Hit(Fin(Dot(q, es[i].1)), order, places[i], es[i].0);
    }
  }

  lemma MovedTop(hits: seq<Hit>, es: Entries, places: seq<nat>, q: Vector, scope: Option<set<string>>, order: nat,
                 k: nat)
    requires |places| == |es| && TopOf(hits, Scored(es, places, q, scope, 0), k)
    ensures TopOf(InOrder(hits, order), Scored(es, places, q, scope, order), k)
  {
    hide Scored;
    var moved := InOrder(hits, order);
    forall i | 0 <= i < |hits|
      ensures hits[i].part == 0 && moved[i].(part := 0) == hits[i] && moved[i] in Scored(es, places, q, scope, order)
    {
      assert hits[i] in hits;
      MovedScored(es, places, q, scope, 0, hits[i]);
      MovedScored(es, places, q, scope, order, moved[i]);
    }
    forall i, j | 0 <= i < j < |moved| ensures Before(moved[i], moved[j]) {
      assert Before(hits[i], hits[j]);
    }
    forall h | h in Scored(es, places, q, scope, order) && h !in moved
      ensures |moved| == k && forall i :: 0 <= i < |moved| ==> Before(moved[i], h)
    {
      MovedScored(es, places, q, scope, order, h);
      MovedLeftOut(hits, moved, order, h);
    }
  }

  lemma MovedLeftOut(hits: seq<Hit>, moved: seq<Hit>, order: nat, h: Hit)
    requires moved == InOrder(hits, order) && h !in moved && h.part == order
    requires forall i :: 0 <= i < |hits| ==> hits[i].part == 0
    ensures h.(part := 0) !in hits
    ensures forall i :: 0 <= i < |hits| ==> (Before(hits[i], h.(part := 0)) <==> Before(moved[i], h))
  {
    forall i | 0 <= i < |hits| ensures hits[i] != h.(part := 0) {
      assert moved[i] in moved;
    }
  }

  function Joined(tops: seq<seq<Hit>>): seq<Hit> {
    if tops == [] then [] else Joined(tops[..|tops| - 1]) + tops[|tops| - 1]
  }

  ghost predicate Tops(ess: seq<Entries>, places: seq<seq<nat>>, tops: seq<seq<Hit>>, q: Vector,
                       scope: Option<set<string>>, k: nat)
  {
    && Numberings(ess, places) && |tops| == |ess|
    && forall j :: 0 <= j < |tops| ==> TopOf(tops[j], Scored(ess[j], places[j], q, scope, j), k)
  }

  lemma {:induction false} JoinedIn(tops: seq<seq<Hit>>, h: Hit)
    requires forall j :: 0 <= j < |tops| ==> forall g :: g in tops[j] ==> g.part == j
    ensures h in Joined(tops) <==> h.part < |tops| && h in tops[h.part]
  {
    if tops != [] {
      JoinedIn(tops[..|tops| - 1], h);
    }
  }

  lemma {:induction false} JoinedDistinct(tops: seq<seq<Hit>>)
    requires forall j :: 0 <= j < |tops| ==> forall g :: g in tops[j] ==> g.part == j
    requires forall j :: 0 <= j < |tops| ==> DistinctPlaces(tops[j])
    ensures DistinctPlaces(Joined(tops))
  {
    if tops != [] {
      var n := |tops| - 1;
      JoinedDistinct(tops[..n]);
      var rest := Joined(tops[..n]);
      forall i | 0 <= i < |rest| ensures rest[i].part < n {
        JoinedIn(tops[..n], rest[i]);
      }
      assert forall i :: 0 <= i < |tops[n]| ==> tops[n][i] in tops[n];
    }
  }

  /** A partition's own best hits stand at distinct places of that partition. */
  lemma TopPlaces(es: Entries, places: seq<nat>, q: Vector, scope: Option<set<string>>, part: nat, top: seq<Hit>,
                  k: nat)
    requires Places(es, places) && TopOf(top, Scored(es, places, q, scope, part), k)
    ensures DistinctPlaces(top) && forall h :: h in top ==> h.part == part
  {
    forall i, j | 0 <= i < j < |top| ensures top[i].pos != top[j].pos {
      assert top[i] in top && top[j] in top && Before(top[i], top[j]);
      SamePlaceSameHit(es, places, q, scope, part, top[i], top[j]);
    }
  }

  lemma JoinedSpec(ess: seq<Entries>, places: seq<seq<nat>>, tops: seq<seq<Hit>>, q: Vector,
                   scope: Option<set<string>>, k: nat)
    requires Tops(ess, places, tops, q, scope, k)
    ensures DistinctPlaces(Joined(tops))
    ensures forall h :: h in Joined(tops) <==> h.part < |tops| && h in tops[h.part]
  {
    forall j | 0 <= j < |tops| ensures DistinctPlaces(tops[j]) && forall h :: h in tops[j] ==> h.part == j {
      TopPlaces(ess[j], places[j], q, scope, j, tops[j], k);
    }
    hide Tops, DistinctPlaces;
    JoinedDistinct(tops);
    forall h ensures h in Joined(tops) <==> h.part < |tops| && h in tops[h.part] {
      JoinedIn(tops, h);
    }
  }

  lemma SamePlaceSameHit(es: Entries, places: seq<nat>, q: Vector, scope: Option<set<string>>, part: nat, g: Hit,
                         h: Hit)
    requires Places(es, places) && g in Scored(es, places, q, scope, part) && h in Scored(es, places, q, scope, part)
    ensures g.pos == h.pos ==> g == h
  {
    var i :| 0 <= i < |es| && Included(scope, es[i].0) && g == Hit(Fin(Dot(q, es[i].1)), part, places[i], es[i].0);
    var j :| 0 <= j < |es| && Included(scope, es[j].0) && h == Hit(Fin(Dot(q, es[j].1)), part, places[j], es[j].0);
    assert i < j ==> places[i] < places[j];
    assert j < i ==> places[j] < places[i];
  }

  lemma SetsOfHits(ess: seq<Entries>, places: seq<seq<nat>>, q: Vector, scope: Option<set<string>>)
    returns (sets: seq<set<Hit>>, all: set<Hit>)
    requires Numberings(ess, places)
    ensures |sets| == |ess| && forall j :: 0 <= j < |ess| ==> sets[j] == Scored(ess[j], places[j], q, scope, j)
    ensures forall j, h :: 0 <= j < |sets| && h in sets[j] ==> h.part == j
    ensures forall h :: h in all <==> exists j :: 0 <= j < |sets| && h in sets[j]
    ensures AllHits(ess, places, q, scope, all) && Placed(all)
  {
    sets := seq(|ess|, j requires 0 <= j < |ess| => Scored(ess[j], places[j], q, scope, j));
    all := set j, h | 0 <= j < |sets| && h in sets[j] :: h;
    forall h ensures h in all <==> HitAt(ess, places, q, scope, h) {
      if h in all {
        var j :| 0 <= j < |sets| && h in sets[j];
        assert h.part == j;
      }
      if HitAt(ess, places, q, scope, h) { assert h in sets[h.part]; }
    }
    forall g, h | g in all && h in all && g.part == h.part && g.pos == h.pos ensures g == h {
      SamePlaceSameHit(ess[g.part], places[g.part], q, scope, g.part, g, h);
    }
  }

  /** Searching every partition for its own best k and ranking what they return gives the answer. */
  lemma SearchExact(ess: seq<Entries>, places: seq<seq<nat>>, tops: seq<seq<Hit>>, q: Vector,
                    scope: Option<set<string>>, k: nat)
    requires Tops(ess, places, tops, q, scope, k)
    ensures Shown(Best(Joined(tops), k)) == Answer(ess, q, k, scope)
  {
    var hits := Joined(tops);
    JoinedSpec(ess, places, tops, q, scope, k);
    BestIsTop(hits, k);
    var sets, all := SetsOfHits(ess, places, q, scope);
    assert forall i :: 0 <= i < |sets| ==> TopOf(tops[i], sets[i], k);
    hide Best, Joined, Answer, TopOf, AllHits, Placed;
    forall h ensures h in Elements(hits) <==> exists i :: 0 <= i < |tops| && h in tops[i] {
      CutIn(tops, hits, h, sets, k);
    }
    MergeTops(sets, tops, Best(hits, k), all, Elements(hits), k);
    PositionsDoNotMatter(ess, places, q, scope, all, Best(hits, k), k);
  }

  lemma CutIn(tops: seq<seq<Hit>>, hits: seq<Hit>, h: Hit, sets: seq<set<Hit>>, k: nat)
    requires forall g :: g in hits <==> g.part < |tops| && g in tops[g.part]
    requires |sets| == |tops| && forall i :: 0 <= i < |sets| ==> TopOf(tops[i], sets[i], k)
    requires forall i, g :: 0 <= i < |sets| && g in sets[i] ==> g.part == i
    ensures h in Elements(hits) <==> exists i :: 0 <= i < |tops| && h in tops[i]
  {
    if i :| 0 <= i < |tops| && h in tops[i] { assert h in sets[i]; }
  }

  lemma {:induction false} NothingInScope(parts: seq<Entries>, q: Vector)
    ensures ListedAll(parts, q, Some({})) == []
  {
    if parts != [] {
      NothingInScope(parts[..|parts| - 1], q);
      NothingListed(parts[|parts| - 1], |parts| - 1, q);
    }
  }

  lemma {:induction false} NothingListed(es: Entries, part: nat, q: Vector)
    ensures Listed(es, part, q, Some({})) == []
  {
    if es != [] { NothingListed(es[..|es| - 1], part, q); }
  }
}
