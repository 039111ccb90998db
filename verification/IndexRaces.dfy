/** A search of the whole index that races with calls of the index.

    The search takes a snapshot of every partition under the lock; then it scores one after the other, merges
    and reads contents without it.  Other threads get a turn, any calls, before every access to shared state:
    they may add, move, remove and clear, promote the index or drop a partition that is being searched. */
module IndexRaces {
  import opened Assoc
  import opened Ranking
  import opened VectorBackends
  import opened NumpyBackend
  import opened NumpySearch
  import opened SearchSpec
  import opened IndexSpec
  import opened VectorIndexes
  import opened SearchRaces

  // ----- the snapshots -----

  /** What a search keeps of a partition: a copy of a dict, or what a matrix shares. */
  datatype View = Copy(es: Entries) | Shared(rows: NumpyPartition, snap: Snapshot)

  /** What is known of it: the partition's entries, and the ids of its rows, when it was taken. */
  datatype Look = Look(es: Entries, was: seq<Option<string>>)

  ghost predicate ViewOk(flights: set<Flight>, view: View, look: Look) {
    match view
    case Copy(es) => es == look.es && Distinct(es)
    case Shared(rows, s) =>
      && Watched(flights, rows, Taken(s, look.was)) && OneRowPerId(look.was) && s.size == |look.was|
      && forall row :: 0 <= row < |look.was| && look.was[row].Some? ==> Has(look.es, look.was[row].value)
  }

  /** The view is of this partition. */
  ghost predicate ViewOf(view: View, p: Partition) {
    match p
    case Listed(_) => view.Copy?
    case Matrix(rows) => view.Shared? && view.rows == rows
  }

  method TakeView(index: VectorIndex, i: nat) returns (view: View, ghost look: Look)
    requires index.Valid() && i < |index.partitions|
    modifies index.Repr
    ensures index.Valid() && index.Repr == old(index.Repr) && index.Same() && old(index.flights) <= index.flights
    ensures ViewOk(index.flights, view, look) && ViewOf(view, index.partitions[i].1)
    ensures i < |index.parts| && look.es == index.parts[i].1
  {
    Entry(index, i);
    hide VectorIndex.Valid, OneRowPerId;
    match index.partitions[i].1 {
      case Listed(list) =>
        view, look := Copy(list.vectors), Look(list.vectors, []);
      case Matrix(rows) =>
        var s;
        ghost var t;
        s, t := index.SnapshotAt(i);
        view, look := Shared(rows, s), Look(index.parts[i].1, t.was);
        Watching(index.flights, Flight(rows, t, rows.stored));
        assert t == Taken(s, t.was);
    }
  }

  lemma Entry(index: VectorIndex, i: nat)
    requires index.Valid() && i < |index.partitions|
    ensures i < |index.parts|
    ensures var p := index.partitions[i].1;
      p.Listed? ==> p.list.vectors == index.parts[i].1 && Distinct(index.parts[i].1)
  {
    assert index.Backed(i);
  }

  lemma Watching(flights: set<Flight>, f: Flight)
    requires f in flights
    ensures Watched(flights, f.rows, f.t)
  {
  }

  lemma MoreFlights(flights: set<Flight>, more: set<Flight>, view: View, look: Look)
    requires ViewOk(flights, view, look) && flights <= more
    ensures ViewOk(more, view, look)
  {
  }

  method TakeViews(index: VectorIndex, from: nat, to: nat) returns (views: seq<View>, ghost looks: seq<Look>)
    requires index.Valid() && from <= to <= |index.partitions|
    modifies index.Repr
    ensures index.Valid() && index.Repr == old(index.Repr) && index.Same() && old(index.flights) <= index.flights
    ensures |views| == |looks| == to - from && to <= |index.parts|
    ensures forall j :: 0 <= j < to - from ==>
              ViewOk(index.flights, views[j], looks[j]) && ViewOf(views[j], index.partitions[from + j].1)
              && looks[j].es == index.parts[from + j].1
  {
    hide VectorIndex.Valid, ViewOk;
    AsMany(index);
    views, looks := [], [];
    for i := from to to
      invariant index.Valid() && index.Repr == old(index.Repr) && index.Same() && old(index.flights) <= index.flights
      invariant |views| == |looks| == i - from && |index.parts| == |index.partitions|
      invariant forall j :: 0 <= j < i - from ==>
                  ViewOk(index.flights, views[j], looks[j]) && ViewOf(views[j], index.partitions[from + j].1)
                  && looks[j].es == index.parts[from + j].1
    {
      ghost var before := index.flights;
      var view;
      ghost var look;
      view, look := TakeView(index, i);
      forall j | 0 <= j < i - from ensures ViewOk(index.flights, views[j], looks[j]) {
        MoreFlights(before, index.flights, views[j], looks[j]);
      }
      views, looks := views + [view], looks + [look];
    }
  }

  lemma AsMany(index: VectorIndex)
    requires index.Valid()
    ensures |index.parts| == |index.partitions| && index in index.Repr
  {
  }

  // ----- the top of every snapshot -----

  /** Hits of one partition: in rank order, no row and no id twice, each id there when the snapshot was taken and
      in scope, scored with one of the stored vectors. */
  ghost predicate PartSafe(es: Entries, stored: set<(string, Vector)>, q: Vector, scope: Option<set<string>>, part: nat,
                           hits: seq<Hit>) {
    && Sorted(hits) && OnceEach(hits)
    && forall h :: h in hits ==>
         h.part == part && Has(es, h.id) && Included(scope, h.id) && Witnessed(h.id, stored, q, h.score)
  }

  /** What the stored vectors are: some of the copy's, or of those the partition has stored. */
  ghost predicate Noted(flights: set<Flight>, view: View, look: Look, stored: set<(string, Vector)>) {
    match view
    case Copy(es) => stored <= EntrySet(es)
    case Shared(rows, s) => Flight(rows, Taken(s, look.was), stored) in flights
  }

  lemma CopyHit(es: Entries, q: Vector, scope: Option<set<string>>, h: Hit)
    requires Distinct(es) && h in Scored(es, Counting(|es|), q, scope, 0)
    ensures h.pos < |es| && h.id == es[h.pos].0
    ensures Has(es, h.id) && Included(scope, h.id) && Witnessed(h.id, EntrySet(es), q, h.score)
  {
    var e :| 0 <= e < |es| && Included(scope, es[e].0) && h == Hit(Fin(Dot(q, es[e].1)), 0, e, es[e].0);
    FindAt(es, e);
    assert (es[e].0, es[e].1) in EntrySet(es);
  }

  lemma CopySafe(es: Entries, q: Vector, k: nat, scope: Option<set<string>>, part: nat, hits: seq<Hit>)
    requires Distinct(es) && TopOf(hits, Scored(es, Counting(|es|), q, scope, 0), k)
    ensures PartSafe(es, EntrySet(es), q, scope, part, InOrder(hits, part))
  {
    hide Scored, Has, Witnessed, Included;
    var r := InOrder(hits, part);
    TopPlaces(es, Counting(|es|), q, scope, 0, hits, k);
    forall i | 0 <= i < |r|
      ensures r[i].pos < |es| && r[i].id == es[r[i].pos].0 && Included(scope, r[i].id)
      ensures Has(es, r[i].id) && Witnessed(r[i].id, EntrySet(es), q, r[i].score)
    {
      assert hits[i] in hits;
      CopyHit(es, q, scope, hits[i]);
    }
    forall i, j | 0 <= i < j < |r| ensures Before(r[i], r[j]) && r[i].id != r[j].id {
      assert hits[i] in hits && hits[j] in hits && Before(hits[i], hits[j]);
      assert r[i].pos != r[j].pos;
    }
  }

  lemma SharedSafe(t: Taken, es: Entries, stored: set<(string, Vector)>, q: Vector, k: nat, scope: Option<set<string>>,
                   part: nat, hits: seq<Hit>)
    requires Safe(t, stored, q, k, scope, hits)
    requires forall row :: 0 <= row < |t.was| && t.was[row].Some? ==> Has(es, t.was[row].value)
    ensures PartSafe(es, stored, q, scope, part, InOrder(hits, part))
  {
    hide Has, Witnessed, Included;
    var r := InOrder(hits, part);
    forall i, j | 0 <= i < j < |r| ensures Before(r[i], r[j]) {
      assert hits[i] in hits && hits[j] in hits && Before(hits[i], hits[j]);
    }
    forall i | 0 <= i < |r|
      ensures Has(es, r[i].id) && Included(scope, r[i].id) && Witnessed(r[i].id, stored, q, r[i].score)
    {
      assert Honest(t, stored, q, scope, hits[i]);
    }
  }

  /** The top of one snapshot; what its hits were scored with is noted with the index. */
  method TopOfView(index: VectorIndex, view: View, ghost look: Look, q: Vector, k: nat, scope: Option<set<string>>,
                   part: nat, turns: seq<seq<Call>>)
    returns (hits: seq<Hit>, rest: seq<seq<Call>>, ghost stored: set<(string, Vector)>)
    requires index.Valid() && ViewOk(index.flights, view, look) && k > 0
    modifies index.Repr
    ensures index.Valid() && fresh(index.Repr - old(index.Repr)) && old(index.flights) <= index.flights
    ensures PartSafe(look.es, stored, q, scope, part, hits) && Noted(index.flights, view, look, stored)
  {
    AsMany(index);
    match view {
      case Copy(es) =>
        hide VectorIndex.Valid, PartSafe;
        rest := turns;
        hits := PythonTop(es, q, k, scope);
        CopySafe(es, q, k, scope, part, hits);
        hits := InOrder(hits, part);
        stored := EntrySet(es);
      case Shared(rows, s) =>
        hide VectorIndex.Valid, PartSafe, OneRowPerId, Watched;
        hits, rest, stored := TopOfShared(index, rows, s, look.was, q, k, scope, turns);
        SharedSafe(Taken(s, look.was), look.es, stored, q, k, scope, part, hits);
        hits := InOrder(hits, part);
    }
  }

  method TopOfShared(index: VectorIndex, rows: NumpyPartition, s: Snapshot, ghost was: seq<Option<string>>, q: Vector,
                     k: nat, scope: Option<set<string>>, turns: seq<seq<Call>>)
    returns (hits: seq<Hit>, rest: seq<seq<Call>>, ghost stored: set<(string, Vector)>)
    requires index.Valid() && Watched(index.flights, rows, Taken(s, was))
    requires OneRowPerId(was) && s.size == |was| && k > 0
    modifies index.Repr
    ensures index.Valid() && fresh(index.Repr - old(index.Repr)) && old(index.flights) <= index.flights
    ensures Safe(Taken(s, was), stored, q, k, scope, hits) && Flight(rows, Taken(s, was), stored) in index.flights
  {
    hide *;
    ghost var t, goal := Taken(s, was), Goal([], index.flights);
    GoesOn(index, rows, t, goal, OnIndex(turns));
    OfIndex(index);
    var left;
    hits, left := TopDuring(Within(index), rows, t, goal, s, q, k, scope, OnIndex(turns));
    WentOn(index, rows, t, goal, left);
    rest := left.calls;
    stored := rows.stored;
    ghost var f := Noticed(index, rows, t);
  }

  lemma OfIndex(index: VectorIndex)
    requires index.Valid()
    ensures index in index.Repr && Objects(Within(index)) == index.Repr
  {
  }

  lemma GoesOn(index: VectorIndex, rows: NumpyPartition, t: Taken, goal: Goal, turns: Turns)
    requires index.Valid() && Watched(index.flights, rows, t) && goal.flights == index.flights && turns.OnIndex?
    ensures Going(Within(index), rows, t, goal, turns)
  {
  }

  lemma WentOn(index: VectorIndex, rows: NumpyPartition, t: Taken, goal: Goal, rest: Turns)
    requires Going(Within(index), rows, t, goal, rest)
    ensures index.Valid() && Watched(index.flights, rows, t) && goal.flights <= index.flights && rest.OnIndex?
    ensures index in index.Repr && Objects(Within(index)) == index.Repr
  {
    MoreWatched(goal.flights, index.flights, rows, t);
  }

  lemma MoreNoted(flights: set<Flight>, more: set<Flight>, view: View, look: Look, stored: set<(string, Vector)>)
    requires Noted(flights, view, look, stored) && flights <= more
    ensures Noted(more, view, look, stored)
  {
  }

  /** The top of every snapshot, one after the other. */
  method TopsOfViews(index: VectorIndex, views: seq<View>, ghost looks: seq<Look>, q: Vector, k: nat,
                     scope: Option<set<string>>, turns: seq<seq<Call>>)
    returns (hits: seq<Hit>, rest: seq<seq<Call>>, ghost tops: seq<seq<Hit>>, ghost stored: seq<set<(string, Vector)>>)
    requires index.Valid() && |looks| == |views| && k > 0
    requires forall j :: 0 <= j < |views| ==> ViewOk(index.flights, views[j], looks[j])
    modifies index.Repr
    ensures index.Valid() && fresh(index.Repr - old(index.Repr)) && old(index.flights) <= index.flights
    ensures |tops| == |stored| == |views| && hits == Joined(tops)
    ensures forall j :: 0 <= j < |views| ==>
              PartSafe(looks[j].es, stored[j], q, scope, j, tops[j])
                && Noted(index.flights, views[j], looks[j], stored[j])
  {
    hide VectorIndex.Valid, PartSafe, ViewOk, Noted, Joined;
    AsMany(index);
    hits, rest, tops, stored := [], turns, [], [];
    NoneJoined();
    for i := 0 to |views|
      invariant index.Valid() && fresh(index.Repr - old(index.Repr)) && old(index.flights) <= index.flights
      invariant |tops| == |stored| == i && hits == Joined(tops)
      invariant forall j :: 0 <= j < i ==>
                  PartSafe(looks[j].es, stored[j], q, scope, j, tops[j])
                  && Noted(index.flights, views[j], looks[j], stored[j])
    {
      rest := NextTurn(index, rest);
      MoreFlights(old(index.flights), index.flights, views[i], looks[i]);
      ghost var before := index.flights;
      var top;
      ghost var some;
      top, rest, some := TopOfView(index, views[i], looks[i], q, k, scope, i, rest);
      forall j | 0 <= j < i ensures Noted(index.flights, views[j], looks[j], stored[j]) {
        MoreNoted(before, index.flights, views[j], looks[j], stored[j]);
      }
      OneMoreJoined(tops, top);
      hits, tops, stored := hits + top, tops + [top], stored + [some];
    }
  }

  /** Other threads run. */
  method NextTurn(index: VectorIndex, turns: seq<seq<Call>>) returns (rest: seq<seq<Call>>)
    requires index.Valid()
    modifies index.Repr
    ensures index.Valid() && fresh(index.Repr - old(index.Repr)) && index.flights == old(index.flights)
    ensures turns != [] ==> |rest| < |turns|
  {
    hide VectorIndex.Valid;
    rest := turns;
    if turns != [] {
      RunCalls(index, turns[0]);
      rest := turns[1..];
    }
  }

  lemma NoneJoined()
    ensures Joined([]) == []
  {
  }

  lemma OneMoreJoined(tops: seq<seq<Hit>>, top: seq<Hit>)
    ensures Joined(tops + [top]) == Joined(tops) + top
  {
    assert (tops + [top])[..|tops|] == tops;
  }

  // ----- the merged hits -----

  /** No id is in two of the partitions. */
  ghost predicate AllApart(ess: seq<Entries>) {
    forall i, j, id :: 0 <= i < j < |ess| ==> !(Has(ess[i], id) && Has(ess[j], id))
  }

  /** Hits of all partitions: in rank order, at most k, no id twice, each id in its partition when the snapshots
      were taken and in scope, scored with a vector stored there. */
  ghost predicate SearchSafe(ess: seq<Entries>, stored: seq<set<(string, Vector)>>, q: Vector, k: nat,
                             scope: Option<set<string>>, hits: seq<Hit>) {
    && |stored| == |ess| && Sorted(hits) && |hits| <= k
    && (forall i, j :: 0 <= i < j < |hits| ==> hits[i].id != hits[j].id)
    && forall h :: h in hits ==>
         h.part < |ess| && Has(ess[h.part], h.id) && Included(scope, h.id)
         && Witnessed(h.id, stored[h.part], q, h.score)
  }

  lemma MergedSafe(ess: seq<Entries>, stored: seq<set<(string, Vector)>>, q: Vector, k: nat,
                   scope: Option<set<string>>, tops: seq<seq<Hit>>)
    requires |stored| == |ess| == |tops| && AllApart(ess)
    requires forall j :: 0 <= j < |tops| ==> PartSafe(ess[j], stored[j], q, scope, j, tops[j])
    ensures SearchSafe(ess, stored, q, k, scope, Best(Joined(tops), k))
  {
    var all, r := Joined(tops), Best(Joined(tops), k);
    hide PartSafe, Joined, DistinctPlaces, Witnessed, Included, Has, AllApart, Ranked;
    forall j | 0 <= j < |tops| ensures DistinctPlaces(tops[j]) && forall h :: h in tops[j] ==> h.part == j {
      PartDistinct(ess[j], stored[j], q, scope, j, tops[j]);
    }
    JoinedDistinct(tops);
    BestIsTop(all, k);
    forall h | h in r
      ensures h.part < |tops| && h in tops[h.part] && Has(ess[h.part], h.id) && Included(scope, h.id)
      ensures Witnessed(h.id, stored[h.part], q, h.score)
    {
      RankedElements(all, h);
      JoinedIn(tops, h);
      PartDistinct(ess[h.part], stored[h.part], q, scope, h.part, tops[h.part]);
    }
    RankedDistinct(all);
    BestDistinct(all, k);
    forall i, j | 0 <= i < j < |r| ensures r[i].id != r[j].id {
      assert r[i] in r && r[j] in r;
      TwoHits(ess, stored, q, scope, tops, r[i], r[j]);
    }
  }

  lemma PartDistinct(es: Entries, stored: set<(string, Vector)>, q: Vector, scope: Option<set<string>>, part: nat,
                     hits: seq<Hit>)
    requires PartSafe(es, stored, q, scope, part, hits)
    ensures DistinctPlaces(hits)
    ensures forall h :: h in hits ==>
              h.part == part && Has(es, h.id) && Included(scope, h.id) && Witnessed(h.id, stored, q, h.score)
  {
  }

  lemma BestDistinct(s: seq<Hit>, k: nat)
    requires DistinctPlaces(Ranked(s))
    ensures forall i, j :: 0 <= i < j < |Best(s, k)| ==>
              Best(s, k)[i].part != Best(s, k)[j].part || Best(s, k)[i].pos != Best(s, k)[j].pos
  {
    hide Ranked;
  }

  lemma TwoHits(ess: seq<Entries>, stored: seq<set<(string, Vector)>>, q: Vector, scope: Option<set<string>>,
                tops: seq<seq<Hit>>, g: Hit, h: Hit)
    requires |stored| == |ess| == |tops| && AllApart(ess) && (g.part != h.part || g.pos != h.pos)
    requires forall j :: 0 <= j < |tops| ==> PartSafe(ess[j], stored[j], q, scope, j, tops[j])
    requires g.part < |tops| && g in tops[g.part] && h.part < |tops| && h in tops[h.part]
    ensures g.id != h.id
  {
    if g.part == h.part {
      var top := tops[g.part];
      assert PartSafe(ess[g.part], stored[g.part], q, scope, g.part, top);
      var a :| 0 <= a < |top| && top[a] == g;
      var b :| 0 <= b < |top| && top[b] == h;
      assert a < b || b < a;
    } else {
      assert Has(ess[g.part], g.id) && Has(ess[h.part], h.id);
    }
  }

  // ----- the search -----

  /** The hits that score enough. */
  function Enough(hits: seq<Hit>, minScore: real): (r: seq<Hit>) {
    if hits == [] then []
    else
      var n := |hits| - 1;
      Enough(hits[..n], minScore) + if Above(Fin(minScore), hits[n].score) then [] else [hits[n]]
  }

  /** Reading the contents, other threads running before every read. */
  method ReadContents(index: VectorIndex, hits: seq<Hit>, minScore: real, turns: seq<seq<Call>>)
    returns (found: seq<Found>, rest: seq<seq<Call>>)
    requires index.Valid()
    modifies index.Repr
    ensures index.Valid() && fresh(index.Repr - old(index.Repr)) && index.flights == old(index.flights)
    ensures |found| == |Enough(hits, minScore)|
    ensures forall i :: 0 <= i < |found| ==>
              found[i].id == Enough(hits, minScore)[i].id && found[i].score == Enough(hits, minScore)[i].score
  {
    hide VectorIndex.Valid;
    found, rest := [], turns;
    for i := 0 to |hits|
      invariant index.Valid() && fresh(index.Repr - old(index.Repr)) && index.flights == old(index.flights)
      invariant |found| == |Enough(hits[..i], minScore)|
      invariant forall j :: 0 <= j < |found| ==>
                  found[j].id == Enough(hits[..i], minScore)[j].id
                  && found[j].score == Enough(hits[..i], minScore)[j].score
    {
      assert hits[..i + 1][..i] == hits[..i];
      var h := hits[i];
      if !Above(Fin(minScore), h.score) {
        rest := NextTurn(index, rest);
        found := found + [Found(h.id, h.score, if h.id in index.content then index.content[h.id] else "")];
      }
    }
    assert hits[..|hits|] == hits;
  }

  /** All the turns that are left. */
  method FinishCalls(index: VectorIndex, turns: seq<seq<Call>>)
    requires index.Valid()
    modifies index.Repr
    ensures index.Valid() && fresh(index.Repr - old(index.Repr)) && index.flights == old(index.flights)
    decreases |turns|
  {
    hide VectorIndex.Valid;
    if turns != [] {
      var rest := NextTurn(index, turns);
      FinishCalls(index, rest);
    }
  }

  /** The partitions a search looks at. */
  ghost function SearchedParts(index: VectorIndex, agent: Agent): (r: seq<Partition>)
    reads index
  {
    var all := index.partitions;
    if agent == None then seq(|all|, i requires 0 <= i < |all| => all[i].1)
    else
      var i := Find(all, agent);
      if i >= 0 then [all[i].1] else []
  }

  /** The searched partitions are those of this range. */
  ghost predicate RangeIs(index: VectorIndex, agent: Agent, from: int, to: int)
    reads index
  {
    && 0 <= from <= to <= |index.partitions| == |index.parts|
    && |index.Searched(agent)| == |SearchedParts(index, agent)| == to - from
    && forall j :: 0 <= j < to - from ==>
         index.Searched(agent)[j] == index.parts[from + j].1
         && SearchedParts(index, agent)[j] == index.partitions[from + j].1
  }

  method SearchedRange(index: VectorIndex, agent: Agent) returns (from: nat, to: nat)
    requires index.Valid()
    ensures RangeIs(index, agent, from, to) && AllApart(index.Searched(agent))
  {
    SameAgents(index, agent);
    PartsApart(index, agent);
    hide *;
    if agent == None {
      AllSearched(index);
      return 0, |index.partitions|;
    }
    OneSearched(index, agent);
    var i := Find(index.partitions, agent);
    if i >= 0 {
      return i, i + 1;
    }
    return 0, 0;
  }

  lemma AllSearched(index: VectorIndex)
    requires |index.parts| == |index.partitions|
    ensures RangeIs(index, None, 0, |index.partitions|)
  {
  }

  lemma OneSearched(index: VectorIndex, agent: Agent)
    requires |index.parts| == |index.partitions| && Find(index.partitions, agent) == Find(index.parts, agent)
    requires agent != None
    ensures var i := Find(index.partitions, agent);
      if i >= 0 then RangeIs(index, agent, i, i + 1) else RangeIs(index, agent, 0, 0)
  {
  }

  lemma SameAgents(index: VectorIndex, agent: Agent)
    requires index.Valid()
    ensures |index.parts| == |index.partitions| && Find(index.partitions, agent) == Find(index.parts, agent)
  {
    index.Aligned();
    SamePlace(index.partitions, index.parts, agent);
  }

  lemma PartsApart(index: VectorIndex, agent: Agent)
    requires index.Valid()
    ensures AllApart(index.Searched(agent))
  {
    hide VectorIndex.Shape;
    var ess := index.Searched(agent);
    forall i, j, id | 0 <= i < j < |ess| ensures !(Has(ess[i], id) && Has(ess[j], id)) {
      OneOwner(index.Abs(), id);
    }
  }

  /** The vectors are some of the entries of a dict partition, or of those a matrix partition has ever stored. */
  ghost predicate StoredIn(p: Partition, es: Entries, stored: set<(string, Vector)>)
    reads match p case Listed(_) => {} case Matrix(rows) => {rows as object}
  {
    match p
    case Listed(_) => stored <= EntrySet(es)
    case Matrix(rows) => stored <= rows.stored
  }

  /** ... which is so, and stays so, because it is noted. */
  ghost predicate AllNoted(flights: set<Flight>, ps: seq<Partition>, ess: seq<Entries>, views: seq<View>,
                           looks: seq<Look>, stored: seq<set<(string, Vector)>>) {
    && |ps| == |ess| == |views| == |looks| == |stored|
    && forall j :: 0 <= j < |ps| ==>
         ViewOf(views[j], ps[j]) && looks[j].es == ess[j] && (views[j].Copy? ==> views[j].es == ess[j])
         && Noted(flights, views[j], looks[j], stored[j])
  }

  lemma NotedStored(index: VectorIndex, p: Partition, view: View, look: Look, stored: set<(string, Vector)>)
    requires index.Valid() && ViewOf(view, p) && Noted(index.flights, view, look, stored)
    requires view.Copy? ==> view.es == look.es
    ensures StoredIn(p, look.es, stored)
  {
    hide VectorIndex.Valid;
    if view.Shared? { StillStored(index, Flight(view.rows, Taken(view.snap, look.was), stored)); }
  }

  lemma AllStored(index: VectorIndex, ps: seq<Partition>, ess: seq<Entries>, views: seq<View>, looks: seq<Look>,
                  stored: seq<set<(string, Vector)>>)
    requires index.Valid() && AllNoted(index.flights, ps, ess, views, looks, stored)
    ensures forall j :: 0 <= j < |ps| ==> StoredIn(ps[j], ess[j], stored[j])
  {
    forall j | 0 <= j < |ps| ensures StoredIn(ps[j], ess[j], stored[j]) {
      NotedStored(index, ps[j], views[j], looks[j], stored[j]);
    }
  }

  /** VectorIndex.search, calls of other threads running before every access to what it shares with them once it
      gave up the lock.  What is found is, above the minimum score, a list of safe hits of the partitions as they
      were when the search began. */
  method SearchDuring(index: VectorIndex, query: Vector, k: int, minScore: real, scope: Option<set<string>>,
                      agent: Agent, turns: seq<seq<Call>>)
    returns (r: Status, found: seq<Found>, ghost hits: seq<Hit>, ghost stored: seq<set<(string, Vector)>>)
    requires index.Valid()
    modifies index.Repr
    ensures index.Valid()
    ensures r == if k > 0 && scope != Some({}) && old(index.dim).Some? && old(index.dim).value != |query|
                 then WrongDimension else Done
    ensures SearchSafe(old(index.Searched(agent)), stored, index.normalize(query), if k > 0 then k else 0, scope, hits)
    ensures |old(SearchedParts(index, agent))| == |stored|
    ensures forall j :: 0 <= j < |stored| ==>
              StoredIn(old(SearchedParts(index, agent))[j], old(index.Searched(agent))[j], stored[j])
    ensures |found| == |Enough(hits, minScore)|
    ensures forall i :: 0 <= i < |found| ==>
              found[i].id == Enough(hits, minScore)[i].id && found[i].score == Enough(hits, minScore)[i].score
  {
    hide VectorIndex.Valid, SearchSafe, Enough, AllApart, VectorIndex.Searched, SearchedParts;
    r, found := Done, [];
    if k <= 0 || scope == Some({}) || index.dim.None? {
      hits, stored := Nothing(index, index.normalize(query), if k > 0 then k else 0, scope, agent, minScore);
      return;
    }
    if index.dim.value != |query| {
      hits, stored := Nothing(index, index.normalize(query), k, scope, agent, minScore);
      r := WrongDimension;
      return;
    }
    ghost var ess, ps := index.Searched(agent), SearchedParts(index, agent);
    var ranked, rest;
    ghost var views, looks;
    ranked, rest, stored, views, looks := RankedDuring(index, index.normalize(query), k, scope, agent, turns);
    hits := ranked;
    found, rest := ReadContents(index, ranked, minScore, rest);
    FinishCalls(index, rest);
    AllStored(index, ps, ess, views, looks, stored);
  }

  /** No hits: safe. */
  ghost method Nothing(index: VectorIndex, q: Vector, k: nat, scope: Option<set<string>>, agent: Agent, minScore: real)
    returns (hits: seq<Hit>, stored: seq<set<(string, Vector)>>)
    requires index.Valid()
    ensures hits == [] == Enough(hits, minScore)
    ensures SearchSafe(index.Searched(agent), stored, q, k, scope, hits)
    ensures |SearchedParts(index, agent)| == |stored| == |index.Searched(agent)|
    ensures forall j :: 0 <= j < |stored| ==>
              StoredIn(SearchedParts(index, agent)[j], index.Searched(agent)[j], stored[j])
  {
    SameAgents(index, agent);
    hits, stored := [], seq(|index.Searched(agent)|, _ => {});
  }

  method RankedDuring(index: VectorIndex, q: Vector, k: nat, scope: Option<set<string>>, agent: Agent,
                      turns: seq<seq<Call>>)
    returns (hits: seq<Hit>, rest: seq<seq<Call>>, ghost stored: seq<set<(string, Vector)>>, ghost views: seq<View>,
             ghost looks: seq<Look>)
    requires index.Valid() && k > 0
    modifies index.Repr
    ensures index.Valid() && fresh(index.Repr - old(index.Repr))
    ensures SearchSafe(old(index.Searched(agent)), stored, q, k, scope, hits)
    ensures AllNoted(index.flights, old(SearchedParts(index, agent)), old(index.Searched(agent)), views, looks, stored)
  {
    hide VectorIndex.Valid, VectorIndex.Searched, SearchedParts, AllApart, PartSafe, ViewOk, Noted, SearchSafe;
    AsMany(index);
    ghost var ess, ps := index.Searched(agent), SearchedParts(index, agent);
    var from, to := SearchedRange(index, agent);
    assert RangeIs(index, agent, from, to);
    var all, shots;
    ghost var tops;
    shots, looks := TakeViews(index, from, to);
    forall j | 0 <= j < |shots| ensures shots[j].Copy? ==> shots[j].es == looks[j].es {
      CopyIs(index.flights, shots[j], looks[j]);
    }
    views := shots;
    all, rest, tops, stored := TopsOfViews(index, shots, looks, q, k, scope, turns);
    MergedSafe(ess, stored, q, k, scope, tops);
    hits := Best(all, k);
  }

  lemma CopyIs(flights: set<Flight>, view: View, look: Look)
    requires ViewOk(flights, view, look)
    ensures view.Copy? ==> view.es == look.es
  {
  }
}
