/** The index: one partition object per agent, of either backend, switching to the matrix backend
    in mid-life.  Shape ties the objects to their entries; the methods refine IndexSpec. */
module VectorIndexes {
  import opened Assoc
  import opened Ranking
  import opened VectorBackends
  import opened NumpyBackend
  import opened NumpySearch
  import opened SearchSpec
  import opened BackendRuns
  import opened IndexSpec

  datatype Partition = Listed(list: PythonPartition) | Matrix(rows: NumpyPartition)

  /** A search of the index that took snapshot t of rows and is still running; seen was stored there. */
  datatype Flight = Flight(rows: NumpyPartition, t: Taken, seen: set<(string, Vector)>)

  /** A matrix partition whose objects, and those of its snapshots, are among the given ones. */
  ghost predicate Tracked(r: NumpyPartition, objects: set<object>)
    reads objects
  {
    r in objects && r.Reach() <= objects && r.Valid() && r.SnapsHold()
  }

  /** Matrix partitions that share nothing. */
  ghost predicate AllTracked(all: set<NumpyPartition>, objects: set<object>)
    reads objects
  {
    && (forall r :: r in all ==> Tracked(r, objects))
    && (forall r, q :: r in all && q in all && r != q ==> r in objects && q in objects && Distant(r, q))
  }

  ghost predicate Distant(r: NumpyPartition, q: NumpyPartition)
    reads r, q
  {
    r.Reach() !! q.Reach()
  }

  /** Every search under way is of one of them. */
  ghost predicate Underway(flights: set<Flight>, all: set<NumpyPartition>, objects: set<object>)
    reads objects
  {
    forall f :: f in flights ==>
      f.rows in all && f.rows in objects && f.t in f.rows.taken && f.seen <= f.rows.stored
  }

  /** A matrix partition with a dict partition's entries. */
  method PromoteOne(list: PythonPartition, dim: nat) returns (rows: NumpyPartition)
    requires list.Valid()
    ensures rows.Valid() && rows.SnapsHold() && rows.taken == {} && fresh(rows.Repr) && rows in rows.Repr
    ensures rows.Entries() == list.vectors
  {
    rows := new NumpyPartition(dim);
    if |list.vectors| > 0 {
      rows.AddMatrix(list.vectors, 0);
    }
  }

  /** No partition object is used twice. */
  ghost predicate AllDifferent(partitions: Dict<Agent, Partition>) {
    forall i, j :: 0 <= i < j < |partitions| ==> partitions[i].1 != partitions[j].1
  }

  lemma NoneDifferent()
    ensures AllDifferent([])
  {
  }

  lemma OneMoreDifferent(before: Dict<Agent, Partition>, after: Dict<Agent, Partition>)
    requires AllDifferent(before) && |after| == |before| + 1 && after[..|before|] == before
    requires forall j :: 0 <= j < |before| ==> after[j].1 != after[|before|].1
    ensures AllDifferent(after)
  {
    assert forall j :: 0 <= j < |before| ==> after[j] == before[j];
  }

  lemma NoneTracked()
    ensures AllTracked({}, {}) && Underway({}, {}, {})
  {
  }

  lemma OneMoreFlight(flights: set<Flight>, f: Flight, all: set<NumpyPartition>, objects: set<object>)
    requires Underway(flights, all, objects)
    requires f.rows in all && f.rows in objects && f.t in f.rows.taken && f.seen <= f.rows.stored
    ensures Underway(flights + {f}, all, objects)
  {
  }

  lemma WiderTracked(r: NumpyPartition, objects: set<object>, more: set<object>)
    requires Tracked(r, objects) && objects <= more
    ensures Tracked(r, more)
  {
  }

  lemma MoreObjects(all: set<NumpyPartition>, objects: set<object>, more: set<object>)
    requires AllTracked(all, objects) && objects <= more
    ensures AllTracked(all, more)
  {
  }

  /** A new partition joins the others. */
  lemma OneMore(rows: NumpyPartition, flights: set<Flight>, all: set<NumpyPartition>, objects: set<object>,
                more: set<object>)
    requires AllTracked(all, objects) && Underway(flights, all, objects) && more == objects + rows.Repr
    requires rows.Valid() && rows.SnapsHold() && rows.taken == {} && rows in rows.Repr && objects !! rows.Repr
    ensures AllTracked(all + {rows}, more) && Underway(flights, all + {rows}, more) && Tracked(rows, more)
  {
    assert rows.Reach() == rows.Repr;
    assert Tracked(rows, more);
    hide NumpyPartition.Valid, NumpyPartition.SnapsHold;
    forall r | r in all ensures Tracked(r, more) && Distant(r, rows) && Distant(rows, r) && r != rows {
      assert Tracked(r, objects);
    }
    hide Tracked, Distant;
  }

  ghost predicate Promoted(p: (Agent, Partition), e: (Agent, Entries), made: set<NumpyPartition>, objects: set<object>)
    reads objects
  {
    p.1.Matrix? && p.1.rows in made && Tracked(p.1.rows, objects) && e == (p.0, p.1.rows.Entries())
  }

  lemma StillPromoted(p: (Agent, Partition), e: (Agent, Entries), made: set<NumpyPartition>, objects: set<object>,
                      rows: NumpyPartition)
    requires Promoted(p, e, made, objects) && objects !! rows.Repr && rows in rows.Repr
    ensures Promoted(p, e, made + {rows}, objects + rows.Repr) && p.1 != Matrix(rows)
  {
  }

  /** Two dicts with the same keys in the same order find a key at the same place. */
  lemma SamePlace<V, W>(d: Dict<Agent, V>, e: Dict<Agent, W>, agent: Agent)
    requires Distinct(e) && |d| == |e| && forall i :: 0 <= i < |d| ==> d[i].0 == e[i].0
    ensures Distinct(d) && Find(d, agent) == Find(e, agent)
  {
    var i := Find(d, agent);
    if i >= 0 { FindAt(e, i); }
  }

  /** Every stored vector has the index's dimension. */
  ghost predicate Sized(parts: Dict<Agent, Entries>, dim: Option<nat>) {
    forall i :: 0 <= i < |parts| ==> AllSized(parts[i].1, dim)
  }

  ghost predicate AllSized(es: Entries, dim: Option<nat>) {
    forall j :: 0 <= j < |es| ==> dim == Some(|es[j].1|)
  }

  lemma SizedPut(parts: Dict<Agent, Entries>, agent: Agent, es: Entries, dim: Option<nat>)
    requires Sized(parts, dim) && AllSized(es, dim)
    ensures Sized(Put(parts, agent, es), dim)
  {
  }

  lemma SizedAdd(parts: Dict<Agent, Entries>, agent: Agent, id: string, v: Vector, dim: Option<nat>)
    requires Sized(parts, dim) && dim == Some(|v|)
    ensures Sized(Put(parts, agent, Put(PartOf(parts, agent), id, v)), dim)
  {
    SizedPut(parts, agent, Put(PartOf(parts, agent), id, v), dim);
  }

  lemma SizedRemove(parts: Dict<Agent, Entries>, agent: Agent, id: string, dim: Option<nat>)
    requires Sized(parts, dim)
    ensures Sized(PartRemove(parts, agent, id), dim)
  {
    if Has(parts, agent) {
      var es := PartOf(parts, agent);
      var rest := Del(es, id);
      assert AllSized(es, dim);
      AllSizedDel(es, id, dim);
      SizedDel(parts, agent, dim);
      hide *;
      SizedPut(parts, agent, rest, dim);
    }
  }

  lemma AllSizedDel(es: Entries, id: string, dim: Option<nat>)
    requires AllSized(es, dim)
    ensures AllSized(Del(es, id), dim)
  {
    hide RemoveAt;
  }

  lemma SizedDel(parts: Dict<Agent, Entries>, agent: Agent, dim: Option<nat>)
    requires Sized(parts, dim)
    ensures Sized(Del(parts, agent), dim)
  {
    hide RemoveAt, AllSized;
  }

  lemma SizedSome(parts: Dict<Agent, Entries>, dim: Option<nat>)
    requires PartsOk(parts) && Sized(parts, dim) && parts != []
    ensures dim.Some?
  {
    assert AllSized(parts[0].1, dim);
    assert dim == Some(|parts[0].1[0].1|);
  }

  lemma FreshBlock(ix: Index, block: Entries, agent: Agent)
    requires Ok(ix) && FreshIds(ix, block)
    ensures Fresh(PartOf(ix.parts, agent), block)
  {
    forall i | 0 <= i < |block| ensures !Has(PartOf(ix.parts, agent), block[i].0) {
      assert Holds(ix.parts, agent, block[i].0) <==> Owned(ix.owner, block[i].0, agent);
    }
  }

  lemma SizedAppend(parts: Dict<Agent, Entries>, agent: Agent, block: Entries, dim: Option<nat>)
    requires Sized(parts, dim) && AllSized(block, dim)
    ensures Sized(Put(parts, agent, PartOf(parts, agent) + block), dim)
  {
    SizedPut(parts, agent, PartOf(parts, agent) + block, dim);
  }

  lemma NoneSized(parts: Dict<Agent, Entries>, dim: Option<nat>)
    requires parts == []
    ensures Sized(parts, dim)
  {
  }

  lemma NoPartitions(ix: Index, dim: Option<nat>)
    requires ix == EMPTY
    ensures Ok(ix) && Sized(ix.parts, dim)
  {
  }

  lemma NoOwners(ix: Index)
    requires Ok(ix) && ix.owner == map[]
    ensures ix.parts == []
  {
    if ix.parts != [] {
      FindAt(ix.parts, 0);
      FindAt(ix.parts[0].1, 0);
      assert Holds(ix.parts, ix.parts[0].0, ix.parts[0].1[0].0);
    }
  }

  lemma SameNames<V, W>(d: Dict<string, V>, e: Dict<string, W>)
    requires |d| == |e| && forall j :: 0 <= j < |d| ==> d[j].0 == e[j].0
    ensures Keys(d) == Keys(e)
  {
  }

  lemma NothingToClear(ix: Index, agent: Agent)
    requires !Has(ix.parts, agent)
    ensures ClearAgent(ix, agent) == ix
  {
    assert PartOf(ix.parts, agent) == [];
    assert ix.owner - {} == ix.owner && ix.content - {} == ix.content;
  }

  lemma DelIsRemoveAt(parts: Dict<Agent, Entries>, agent: Agent)
    requires Has(parts, agent)
    ensures Del(parts, agent) == RemoveAt(parts, Find(parts, agent))
    ensures PartOf(parts, agent) == parts[Find(parts, agent)].1
  {
  }

  lemma PartRemoved(parts: Dict<Agent, Entries>, agent: Agent, id: string)
    ensures var i := Find(parts, agent);
      PartRemove(parts, agent, id) ==
        if i < 0 then parts
        else if Del(parts[i].1, id) == [] then RemoveAt(parts, i)
        else parts[i := (parts[i].0, Del(parts[i].1, id))]
  {
    hide RemoveAt;
  }

  lemma SameWithout(d: Dict<Agent, Entries>, e: Dict<Agent, Entries>, i: nat)
    requires i < |d| == |e| && e == d[i := e[i]]
    ensures RemoveAt(d, i) == RemoveAt(e, i)
  {
  }

  lemma FirstDimension(parts: Dict<Agent, Entries>, n: nat)
    requires PartsOk(parts) && Sized(parts, None)
    ensures Sized(parts, Some(n))
  {
    if parts != [] { SizedSome(parts, None); }
  }

  lemma AfterDrop(parts: Dict<Agent, Entries>, agent: Agent, id: string, dim: Option<nat>)
    requires PartsOk(parts) && Sized(parts, dim)
    ensures PartsOk(PartRemove(parts, agent, id)) && Sized(PartRemove(parts, agent, id), dim)
  {
    HoldsRemove(parts, agent, id, agent, id);
    SizedRemove(parts, agent, id, dim);
  }

  /** The entries to append: each id with its embedding, normalised. */
  function Zip(ids: seq<string>, embeddings: seq<Vector>, normalize: Vector -> Vector): (block: Entries)
    requires |ids| == |embeddings|
    ensures |block| == |ids| && forall i :: 0 <= i < |ids| ==> block[i] == (ids[i], normalize(embeddings[i]))
  {
    seq(|ids|, i requires 0 <= i < |ids| => (ids[i], normalize(embeddings[i])))
  }

  /** Every embedding can be added to an index of this dimension: none is empty, and all have its width,
      or the first one's when the index has none yet. */
  ghost predicate AllFit(dim: Option<nat>, embeddings: seq<Vector>) {
    forall i :: 0 <= i < |embeddings| ==>
      embeddings[i] != [] && |embeddings[i]| == if dim.Some? then dim.value else |embeddings[0]|
  }

  predicate AllDistinct(ids: seq<string>) {
    forall i, j :: 0 <= i < j < |ids| ==> ids[i] != ids[j]
  }

  lemma NoneFit(dim: Option<nat>, embeddings: seq<Vector>)
    ensures AllFit(dim, embeddings[..0])
  {
  }

  lemma FirstFits(dim: Option<nat>, embeddings: seq<Vector>, i: nat)
    requires i < |embeddings| && AllFit(dim, embeddings[..i])
    ensures i > 0 && dim.Some? ==> |embeddings[0]| == dim.value
    ensures embeddings[i] != [] && |embeddings[i]| == (if dim.Some? then dim.value else |embeddings[0]|)
            ==> AllFit(dim, embeddings[..i + 1])
  {
    if i > 0 { assert embeddings[..i][0] == embeddings[0]; }
    assert forall j :: 0 <= j < i ==> embeddings[..i][j] == embeddings[j];
  }

  /** Embeddings of one width fit when it is not zero and is the index's, if it has one. */
  lemma UniformFits(dim: Option<nat>, embeddings: seq<Vector>)
    requires embeddings != []
    ensures var width := |embeddings[0]|;
      AllFit(dim, embeddings) <==> (forall i :: 0 <= i < |embeddings| ==> |embeddings[i]| == width)
                                   && width != 0 && (dim.Some? ==> width == dim.value)
  {
    var e := embeddings[0];
    assert AllFit(dim, embeddings) ==> e != [] && |e| == if dim.Some? then dim.value else |e|;
  }

  lemma ZipFresh(ix: Index, ids: seq<string>, embeddings: seq<Vector>, normalize: Vector -> Vector)
    requires |ids| == |embeddings| && ids != [] && AllDistinct(ids) && forall v :: |normalize(v)| == |v|
    requires forall i :: 0 <= i < |ids| ==> ids[i] !in ix.owner && |embeddings[i]| == |embeddings[0]|
    ensures var block := Zip(ids, embeddings, normalize); FreshIds(ix, block) && AllSized(block, Some(|embeddings[0]|))
  {
  }

  lemma OkDistinct(ix: Index)
    requires Ok(ix)
    ensures Distinct(ix.parts)
  {
  }

  lemma NoneAdded(ix: Index, block: Entries, agent: Agent)
    ensures AddEach(ix, block[..0], agent) == ix
  {
  }

  lemma NextEach(ix: Index, block: Entries, i: nat, agent: Agent)
    requires i < |block|
    ensures AddEach(ix, block[..i + 1], agent) ==
            AddVector(AddEach(ix, block[..i], agent), block[i].0, block[i].1, "", agent)
  {
    assert block[..i + 1][..i] == block[..i];
  }

  // ----- searching several partitions -----

  /** One reported hit. */
  datatype Found = Found(id: string, score: Score, content: string)

  function AllParts(parts: Dict<Agent, Entries>): (r: seq<Entries>)
    ensures |r| == |parts| && forall i :: 0 <= i < |r| ==> r[i] == parts[i].1
  {
    seq(|parts|, i requires 0 <= i < |parts| => parts[i].1)
  }

  /** The hits at or above the minimum score, with their contents. */
  function Cut(hits: seq<(string, Score)>, minScore: real, content: map<string, string>): seq<Found> {
    if hits == [] then []
    else
      var (id, score) := hits[|hits| - 1];
      Cut(hits[..|hits| - 1], minScore, content)
      + if Above(Fin(minScore), score) then []
        else [Found(id, score, if id in content then content[id] else "")]
  }

  lemma NoAnswer(parts: seq<Entries>, q: Vector, k: nat, scope: Option<set<string>>)
    requires ListedAll(parts, q, scope) == []
    ensures Answer(parts, q, k, scope) == []
  {
    assert Best([], k) == [] && Shown([]) == [];
  }

  datatype Status = Done | EmptyEmbedding | WrongDimension | WrongLength

  class VectorIndex {
    var partitions: Dict<Agent, Partition>
    var owner: map<string, Agent>
    var content: map<string, string>
    var dim: Option<nat>
    var auto: bool
    var numpy: bool
    var revision: nat
    const hasNumpy: bool
    const threshold: nat
    const normalize: Vector -> Vector
    /** The entries of the partitions, in the same order. */
    ghost var parts: Dict<Agent, Entries>
    /** Every matrix partition there has been; searches may still be using those that were dropped. */
    ghost var all: set<NumpyPartition>
    ghost var flights: set<Flight>
    ghost var Repr: set<object>

    ghost function Objects(): set<object>
      reads this
    {
      Repr - {this}
    }

    ghost predicate Shape()
      reads this, Repr
    {
      && this in Repr
      && |parts| == |partitions|
      && AllTracked(all, Objects()) && Underway(flights, all, Objects()) && (!numpy ==> all == {})
      && (forall i :: 0 <= i < |partitions| ==> Backed(i))
      && AllDifferent(partitions)
    }

    /** Partition i holds the entries parts says, in objects of this index. */
    ghost predicate Backed(i: nat)
      reads this, Repr
      requires i < |partitions| && |parts| == |partitions|
    {
      match partitions[i].1
      case Listed(list) =>
        !numpy && list in Objects() && list.Valid() && parts[i] == (partitions[i].0, list.vectors)
      case Matrix(rows) =>
        numpy && rows in all && Tracked(rows, Objects()) && parts[i] == (partitions[i].0, rows.Entries())
    }

    /** What stayed the same, stays tracked. */
    twostate lemma OneKept(r: NumpyPartition)
      requires old(AllTracked(all, Objects())) && r in old(all)
      requires forall o: object :: o in old(r.Reach()) && old(allocated(o)) ==> unchanged(o)
      ensures Tracked(r, old(Objects())) && r.Reach() == old(r.Reach()) && r.Entries() == old(r.Entries())
      ensures r.taken == old(r.taken) && r.stored == old(r.stored)
    {
      assert old(Tracked(r, Objects()));
      r.Kept();
    }

    /** Nothing changed. */
    twostate lemma AllKept()
      requires old(AllTracked(all, Objects())) && old(Underway(flights, all, Objects()))
      requires forall o: object :: o in old(Objects()) ==> unchanged(o)
      ensures AllTracked(old(all), old(Objects())) && Underway(old(flights), old(all), old(Objects()))
    {
      hide NumpyPartition.Reach, NumpyPartition.Valid, NumpyPartition.SnapsHold, NumpyPartition.Entries;
      forall r | r in old(all)
        ensures Tracked(r, old(Objects())) && r.Reach() == old(r.Reach())
        ensures r.taken == old(r.taken) && r.stored == old(r.stored)
      {
        assert old(Tracked(r, Objects()));
        OneKept(r);
      }
      hide Tracked;
      forall r, q | r in old(all) && q in old(all) && r != q ensures Distant(r, q) {
        assert old(Distant(r, q));
      }
    }

    /** One partition changed, and what it newly has is new. */
    twostate lemma OneTracked(rows: NumpyPartition)
      requires old(AllTracked(all, Objects())) && old(Underway(flights, all, Objects())) && rows in old(all)
      requires rows.Valid() && rows.SnapsHold() && old(rows.taken) <= rows.taken && old(rows.stored) <= rows.stored
      requires rows.Reach() <= old(rows.Reach()) + rows.Repr && fresh(rows.Repr - old(rows.Repr))
      requires forall o: object :: o in old(Objects()) && o !in old(rows.Repr) ==> unchanged(o)
      ensures var more := old(Objects()) + rows.Repr;
        AllTracked(old(all), more) && Underway(old(flights), old(all), more)
    {
      hide NumpyPartition.Reach, NumpyPartition.Valid, NumpyPartition.SnapsHold, NumpyPartition.Entries, Distant;
      var more := old(Objects()) + rows.Repr;
      NowTracked(rows);
      forall r | r in old(all) && r != rows
        ensures Tracked(r, more) && r.Reach() == old(r.Reach()) && Distant(r, rows) && Distant(rows, r)
        ensures r.taken == old(r.taken) && r.stored == old(r.stored)
      {
        OtherKept(r, rows);
      }
      hide Tracked;
      forall r, q | r in old(all) && q in old(all) && r != q && r != rows && q != rows ensures Distant(r, q) {
        assert old(Distant(r, q));
        StillDistant(r, q);
      }
    }

    twostate lemma StillDistant(r: NumpyPartition, new q: NumpyPartition)
      requires q in old(all) && old(Distant(r, q)) && r.Reach() == old(r.Reach()) && q.Reach() == old(q.Reach())
      ensures Distant(r, q)
    {
      hide NumpyPartition.Reach;
    }

    twostate lemma NowTracked(rows: NumpyPartition)
      requires old(AllTracked(all, Objects())) && rows in old(all)
      requires rows.Valid() && rows.SnapsHold() && rows.Reach() <= old(rows.Reach()) + rows.Repr
      ensures Tracked(rows, old(Objects()) + rows.Repr)
    {
      assert old(Tracked(rows, Objects()));
    }

    twostate lemma OtherKept(r: NumpyPartition, new rows: NumpyPartition)
      requires old(AllTracked(all, Objects())) && rows in old(all) && r in old(all) && r != rows
      requires rows.Reach() <= old(rows.Reach()) + rows.Repr && fresh(rows.Repr - old(rows.Repr))
      requires forall o: object :: o in old(Objects()) && o !in old(rows.Repr) ==> unchanged(o)
      ensures Tracked(r, old(Objects()) + rows.Repr) && r.Reach() == old(r.Reach()) && r.Entries() == old(r.Entries())
      ensures r.taken == old(r.taken) && r.stored == old(r.stored) && Distant(r, rows) && Distant(rows, r)
    {
      assert old(Tracked(r, Objects())) && old(Distant(r, rows)) && old(Tracked(rows, Objects()));
      forall o: object | o in old(r.Reach()) && old(allocated(o)) ensures unchanged(o) {
        assert o !in old(rows.Reach());
      }
      OneKept(r);
    }

    ghost function Abs(): Index
      reads this
    {
      Index(parts, owner, content)
    }

    /** One dict partition changed, together with its entries; the rest of the index is as it was. */
    twostate lemma ListChanged(i: nat)
      requires old(Shape()) && partitions == old(partitions) && SameBut() && all == old(all) && i < |partitions|
      requires partitions[i].1.Listed? && partitions[i].1.list.Valid() && Repr == old(Repr)
      requires parts == old(parts)[i := (partitions[i].0, partitions[i].1.list.vectors)]
      requires forall o: object :: o in Repr && o != this && o != partitions[i].1.list ==> unchanged(o)
      ensures Shape()
    {
      assert old(Backed(i));
      forall j | 0 <= j < |partitions| ensures Backed(j) {
        assert old(Backed(j));
      }
    }

    /** One matrix partition changed, together with its entries. */
    twostate lemma RowsChanged(i: nat)
      requires old(Shape()) && partitions == old(partitions) && SameBut() && all == old(all) && i < |partitions|
      requires partitions[i].1.Matrix?
      requires var rows := partitions[i].1.rows;
        && rows.Valid() && rows.SnapsHold() && old(rows.taken) <= rows.taken && old(rows.stored) <= rows.stored
        && rows.Reach() <= old(rows.Reach()) + rows.Repr
        && fresh(rows.Repr - old(rows.Repr)) && Repr == old(Repr) + rows.Repr
        && parts == old(parts)[i := (partitions[i].0, rows.Entries())]
      requires forall o: object ::
                 o in old(Repr) && o != this && o !in old(partitions[i].1.rows.Repr) ==> unchanged(o)
      ensures Shape()
    {
      var rows := partitions[i].1.rows;
      assert old(Backed(i));
      OneTracked(rows);
      assert Objects() == old(Objects()) + rows.Repr;
      NowTracked(rows);
      hide AllTracked, Underway, Tracked;
      forall j | 0 <= j < |partitions| ensures Backed(j) {
        assert old(Backed(j));
        if j != i { OtherKept(partitions[j].1.rows, rows); }
      }
    }

    lemma ListAt(i: nat)
      requires Shape() && i < |partitions| && partitions[i].1.Listed?
      ensures var list := partitions[i].1.list;
        && this in Repr && list in Repr && list.Valid() && |parts| == |partitions|
        && parts[i] == (partitions[i].0, list.vectors)
    {
      assert Backed(i);
    }

    lemma MatrixAt(i: nat)
      requires Shape() && i < |partitions| && numpy
      ensures partitions[i].1.Matrix?
    {
      assert Backed(i);
    }

    lemma RowsAt(i: nat)
      requires Shape() && i < |partitions| && partitions[i].1.Matrix?
      ensures var rows := partitions[i].1.rows;
        && this in Repr && rows.Repr <= Repr && this !in rows.Repr && rows in rows.Repr && |parts| == |partitions|
        && rows.Valid() && rows.SnapsHold() && parts[i] == (partitions[i].0, rows.Entries())
    {
      assert Backed(i);
    }

    /** The entries of a matrix partition are those it now has. */
    ghost method Note(i: nat, rows: NumpyPartition)
      requires i < |parts| && rows.Valid() && rows.SnapsHold() && this !in rows.Repr
      modifies this`parts, this`Repr
      ensures rows.Valid() && rows.SnapsHold()
      ensures parts == old(parts)[i := (old(parts)[i].0, rows.Entries())] && Repr == old(Repr) + rows.Repr
    {
      hide RepOk, SnapOk;
      parts := parts[i := (parts[i].0, rows.Entries())];
      Repr := Repr + rows.Repr;
      assert forall t :: t in rows.taken && old(rows.SnapHolds(t)) ==> rows.SnapHolds(t);
    }

    method AddAt(i: nat, id: string, v: Vector)
      requires Shape() && i < |partitions|
      modifies Repr
      ensures Shape() && fresh(Repr - old(Repr)) && SameBut()
      ensures parts == old(parts)[i := (old(parts)[i].0, Put(old(parts)[i].1, id, v))]
    {
      hide RepOk, SnapOk, Put, Shape, NumpyPartition.SnapsHold, NumpyPartition.Valid, NumpyPartition.Entries;
      match partitions[i].1 {
        case Listed(list) =>
          ListAt(i);
          list.Add(id, v);
          parts := parts[i := (parts[i].0, list.vectors)];
          ListChanged(i);
        case Matrix(rows) =>
          RowsAt(i);
          rows.Add(id, v);
          Note(i, rows);
          RowsChanged(i);
      }
    }

    method DropAt(i: nat, id: string)
      requires Shape() && i < |partitions|
      modifies Repr
      ensures Shape() && fresh(Repr - old(Repr)) && SameBut()
      ensures parts == old(parts)[i := (old(parts)[i].0, Del(old(parts)[i].1, id))]
    {
      hide RepOk, SnapOk, Del, Shape, NumpyPartition.SnapsHold, NumpyPartition.Valid, NumpyPartition.Entries;
      match partitions[i].1 {
        case Listed(list) =>
          ListAt(i);
          list.Remove(id);
          parts := parts[i := (parts[i].0, list.vectors)];
          ListChanged(i);
        case Matrix(rows) =>
          RowsAt(i);
          rows.Remove(id);
          Note(i, rows);
          RowsChanged(i);
      }
    }

    method AppendAt(i: nat, block: Entries, expected: nat)
      requires Shape() && i < |partitions| && numpy && Fresh(parts[i].1, block)
      modifies Repr
      ensures Shape() && fresh(Repr - old(Repr)) && SameBut()
      ensures parts == old(parts)[i := (old(parts)[i].0, old(parts)[i].1 + block)]
    {
      hide RepOk, SnapOk, Shape, NumpyPartition.SnapsHold, NumpyPartition.Valid, NumpyPartition.Entries;
      MatrixAt(i);
      var rows := partitions[i].1.rows;
      RowsAt(i);
      rows.AddMatrix(block, expected);
      Note(i, rows);
      RowsChanged(i);
    }

    /** Nothing but partition contents changed. */
    twostate predicate SameBut()
      reads this
    {
      && partitions == old(partitions) && owner == old(owner) && content == old(content)
      && dim == old(dim) && auto == old(auto) && numpy == old(numpy) && revision == old(revision)
      && flights == old(flights)
    }

    /** A new, empty partition for the agent, of the backend in use. */
    method Register(agent: Agent)
      requires Shape()
      modifies this
      ensures Shape() && fresh(Repr - old(Repr)) && flights == old(flights)
      ensures parts == old(parts) + [(agent, [])] && |partitions| == |old(partitions)| + 1
      ensures owner == old(owner) && content == old(content) && dim == old(dim)
      ensures auto == old(auto) && numpy == old(numpy) && revision == old(revision)
    {
      hide RepOk, SnapOk, AllTracked, Underway;
      if numpy {
        var rows := new NumpyPartition(if dim.Some? then dim.value else 0);
        partitions := partitions + [(agent, Matrix(rows))];
        parts := parts + [(agent, [])];
        all := all + {rows};
        Repr := Repr + rows.Repr;
        RowsRegistered(rows);
      } else {
        var list := new PythonPartition();
        partitions := partitions + [(agent, Listed(list))];
        parts := parts + [(agent, [])];
        Repr := Repr + {list};
        ListRegistered(list);
      }
    }

    twostate lemma ListRegistered(new list: PythonPartition)
      requires old(Shape()) && numpy == old(numpy) && !numpy && all == old(all) && flights == old(flights)
      requires |partitions| == |old(partitions)| + 1 == |parts| && list.Valid() && fresh(list)
      requires partitions[..|old(partitions)|] == old(partitions) && parts[..|old(parts)|] == old(parts)
      requires var n := |old(partitions)|;
        partitions[n].1 == Listed(list) && parts[n] == (partitions[n].0, list.vectors) && Repr == old(Repr) + {list}
      requires forall o: object :: o in old(Repr) && o != this ==> unchanged(o)
      ensures Shape()
    {
      var n := |old(partitions)|;
      forall j | 0 <= j < n ensures Backed(j) && partitions[j].1 != partitions[n].1 {
        assert old(Backed(j)) && partitions[j] == old(partitions)[j] && parts[j] == old(parts)[j];
      }
      assert Backed(n);
      OneMoreDifferent(old(partitions), partitions);
    }

    twostate lemma RowsRegistered(new rows: NumpyPartition)
      requires old(Shape()) && numpy == old(numpy) && numpy && flights == old(flights)
      requires |partitions| == |old(partitions)| + 1 == |parts| && all == old(all) + {rows}
      requires rows.Valid() && rows.SnapsHold() && rows.taken == {} && fresh(rows.Repr) && rows in rows.Repr
      requires partitions[..|old(partitions)|] == old(partitions) && parts[..|old(parts)|] == old(parts)
      requires var n := |old(partitions)|;
        && partitions[n].1 == Matrix(rows) && parts[n] == (partitions[n].0, rows.Entries())
        && Repr == old(Repr) + rows.Repr
      requires forall o: object :: o in old(Repr) && o != this ==> unchanged(o)
      ensures Shape()
    {
      var n := |old(partitions)|;
      OldApart();
      NowAllTracked(rows);
      OthersBacked(rows);
      hide Shape, AllTracked, Underway, Tracked, Backed, AllDifferent;
      hide NumpyPartition.SnapsHold, NumpyPartition.Valid, NumpyPartition.Entries, NumpyPartition.Reach;
      NewlyBacked(n);
      OneMoreDifferent(old(partitions), partitions);
      Shaped();
    }

    twostate lemma OldApart()
      requires old(Shape())
      ensures old(this in Repr && |parts| == |partitions| && AllDifferent(partitions) && (!numpy ==> all == {}))
      ensures old(AllTracked(all, Objects()) && Underway(flights, all, Objects()))
    {
    }

    twostate lemma NowAllTracked(new rows: NumpyPartition)
      requires old(Shape()) && flights == old(flights) && all == old(all) + {rows} && Repr == old(Repr) + rows.Repr
      requires rows.Valid() && rows.SnapsHold() && rows.taken == {} && fresh(rows.Repr) && rows in rows.Repr
      requires forall o: object :: o in old(Repr) && o != this ==> unchanged(o)
      ensures AllTracked(all, Objects()) && Underway(flights, all, Objects()) && Tracked(rows, Objects())
    {
      hide AllTracked, Underway, Tracked, NumpyPartition.SnapsHold, NumpyPartition.Valid;
      AllKept();
      OneMore(rows, flights, old(all), old(Objects()), Objects());
    }

    lemma Shaped()
      requires this in Repr && |parts| == |partitions| && (!numpy ==> all == {})
      requires AllTracked(all, Objects()) && Underway(flights, all, Objects())
      requires forall i :: 0 <= i < |partitions| ==> Backed(i)
      requires AllDifferent(partitions)
      ensures Shape()
    {
      hide AllTracked, Underway, Backed;
    }

    twostate lemma OthersBacked(new rows: NumpyPartition)
      requires old(Shape()) && numpy == old(numpy) && numpy && |partitions| == |old(partitions)| + 1 == |parts|
      requires all == old(all) + {rows} && fresh(rows) && Repr == old(Repr) + rows.Repr && this !in rows.Repr
      requires partitions[..|old(partitions)|] == old(partitions) && parts[..|old(parts)|] == old(parts)
      requires partitions[|old(partitions)|].1 == Matrix(rows)
      requires forall o: object :: o in old(Repr) && o != this ==> unchanged(o)
      ensures forall j :: 0 <= j < |old(partitions)| ==> Backed(j) && partitions[j].1 != Matrix(rows)
    {
      hide *;
      forall j | 0 <= j < |old(partitions)| ensures Backed(j) && partitions[j].1 != Matrix(rows) {
        StillBacked(j, rows);
      }
    }

    lemma NewlyBacked(n: nat)
      requires n < |partitions| == |parts| && numpy && partitions[n].1.Matrix? && partitions[n].1.rows in all
      requires Tracked(partitions[n].1.rows, Objects()) && parts[n] == (partitions[n].0, partitions[n].1.rows.Entries())
      ensures Backed(n)
    {
      hide Tracked;
    }

    /** A partition stays backed when another one, in new objects, is registered. */
    twostate lemma StillBacked(j: nat, new rows: NumpyPartition)
      requires old(Shape()) && numpy == old(numpy) && numpy && j < |old(partitions)|
      requires |partitions| == |old(partitions)| + 1 == |parts| && all == old(all) + {rows} && fresh(rows)
      requires partitions[..|old(partitions)|] == old(partitions) && parts[..|old(parts)|] == old(parts)
      requires Repr == old(Repr) + rows.Repr && this !in rows.Repr
      requires forall o: object :: o in old(Repr) && o != this ==> unchanged(o)
      ensures Backed(j) && partitions[j] == old(partitions)[j]
      ensures partitions[j].1.Matrix? && partitions[j].1.rows != rows
    {
      assert old(Backed(j)) && partitions[j] == old(partitions)[j] && parts[j] == old(parts)[j];
      hide AllTracked, Underway, Tracked, NumpyPartition.SnapsHold, NumpyPartition.Valid, NumpyPartition.Entries;
      OneKept(partitions[j].1.rows);
      WiderTracked(partitions[j].1.rows, old(Objects()), Objects());
    }

    /** Owners, contents, counters: nothing that ties objects to entries. */
    twostate lemma FieldsOnly()
      requires old(Shape()) && partitions == old(partitions) && parts == old(parts) && all == old(all)
      requires numpy == old(numpy) && Repr == old(Repr) && flights == old(flights)
      requires forall o: object :: o in Repr && o != this ==> unchanged(o)
      ensures Shape()
    {
      AllKept();
      BackedKept();
      hide AllTracked, Underway, Backed, AllDifferent;
    }

    twostate lemma BackedKept()
      requires old(Shape()) && partitions == old(partitions) && parts == old(parts) && all == old(all)
      requires numpy == old(numpy) && Repr == old(Repr)
      requires forall o: object :: o in Repr && o != this ==> unchanged(o)
      ensures forall i :: 0 <= i < |partitions| ==> Backed(i)
    {
      hide AllTracked, Underway, AllDifferent;
      hide NumpyPartition.SnapsHold, NumpyPartition.Valid, NumpyPartition.Entries, NumpyPartition.Reach;
      forall i | 0 <= i < |partitions| ensures Backed(i) {
        assert old(Backed(i));
        if partitions[i].1.Matrix? { OneKept(partitions[i].1.rows); }
      }
    }

    /** The i-th agent no longer has a partition. */
    method Unregister(i: nat)
      requires Shape() && i < |partitions|
      modifies this
      ensures Shape() && Repr == old(Repr)
      ensures parts == RemoveAt(old(parts), i)
      ensures owner == old(owner) && content == old(content) && dim == old(dim)
      ensures auto == old(auto) && numpy == old(numpy) && revision == old(revision) && flights == old(flights)
    {
      partitions := RemoveAt(partitions, i);
      parts := RemoveAt(parts, i);
      Unregistered(i);
    }

    twostate lemma Unregistered(i: nat)
      requires old(Shape()) && i < |old(partitions)| && numpy == old(numpy) && Repr == old(Repr)
      requires all == old(all) && flights == old(flights)
      requires partitions == RemoveAt(old(partitions), i) && parts == RemoveAt(old(parts), i)
      requires forall o: object :: o in old(Repr) && o != this ==> unchanged(o)
      ensures Shape()
    {
      AllKept();
      hide RemoveAt, AllTracked, Underway, Tracked;
      forall j | 0 <= j < |partitions| ensures Backed(j) {
        var j' := if j < i then j else j + 1;
        assert old(Backed(j')) && partitions[j] == old(partitions)[j'] && parts[j] == old(parts)[j'];
        if partitions[j].1.Matrix? { OneKept(partitions[j].1.rows); }
      }
      forall j, k | 0 <= j < k < |partitions| ensures partitions[j].1 != partitions[k].1 {
        var j', k' := if j < i then j else j + 1, if k < i then k else k + 1;
        assert partitions[j] == old(partitions)[j'] && partitions[k] == old(partitions)[k'];
      }
    }

    /** How many vectors a partition has. */
    method Length(i: nat) returns (n: nat)
      requires Shape() && i < |partitions|
      ensures n == |parts[i].1|
    {
      assert Backed(i);
      match partitions[i].1
      case Listed(list) => n := |list.vectors|;
      case Matrix(rows) => n := |rows.pos.d|;
    }

    /** _partition_remove: drop the id, and the partition when it was the last one. */
    method PartitionRemove(agent: Agent, id: string)
      requires Shape() && Distinct(parts)
      modifies Repr
      ensures Shape() && fresh(Repr - old(Repr))
      ensures parts == PartRemove(old(parts), agent, id)
      ensures owner == old(owner) && content == old(content) && dim == old(dim)
      ensures auto == old(auto) && numpy == old(numpy) && revision == old(revision) && flights == old(flights)
    {
      hide Backed, AllTracked, Underway, RepOk;
      Aligned();
      SamePlace(partitions, parts, agent);
      PartRemoved(parts, agent, id);
      hide Del, RemoveAt, Distinct, Find, PartRemove;
      var i := Find(partitions, agent);
      if i < 0 {
        return;
      }
      ghost var before := parts;
      DropAt(i, id);
      ghost var dropped := parts;
      var n := Length(i);
      if n == 0 {
        Unregister(i);
        SameWithout(before, dropped, i);
      }
    }

    lemma Aligned()
      requires Shape()
      ensures forall i :: 0 <= i < |partitions| ==> partitions[i].0 == parts[i].0
    {
      forall i | 0 <= i < |partitions| ensures partitions[i].0 == parts[i].0 {
        assert Backed(i);
      }
    }

    /** partition.add, in a new partition when the agent has none. */
    method PartitionAdd(agent: Agent, id: string, v: Vector)
      requires Shape() && Distinct(parts)
      modifies Repr
      ensures Shape() && fresh(Repr - old(Repr))
      ensures parts == Put(old(parts), agent, Put(PartOf(old(parts), agent), id, v))
      ensures owner == old(owner) && content == old(content) && dim == old(dim)
      ensures auto == old(auto) && numpy == old(numpy) && revision == old(revision) && flights == old(flights)
    {
      Aligned();
      SamePlace(partitions, parts, agent);
      var i := Find(partitions, agent);
      if i < 0 {
        Register(agent);
        i := |partitions| - 1;
      }
      AddAt(i, id, v);
    }

    /** partition.add_matrix, likewise. */
    method PartitionAppend(agent: Agent, block: Entries, expected: nat)
      requires Shape() && Distinct(parts) && numpy && Fresh(PartOf(parts, agent), block)
      modifies Repr
      ensures Shape() && fresh(Repr - old(Repr))
      ensures parts == Put(old(parts), agent, PartOf(old(parts), agent) + block)
      ensures owner == old(owner) && content == old(content) && dim == old(dim)
      ensures auto == old(auto) && numpy == old(numpy) && revision == old(revision) && flights == old(flights)
    {
      Aligned();
      SamePlace(partitions, parts, agent);
      var i := Find(partitions, agent);
      if i < 0 {
        Register(agent);
        i := |partitions| - 1;
      }
      AppendAt(i, block, expected);
    }

    ghost predicate Valid()
      reads this, Repr
    {
      && Shape() && Ok(Abs()) && Sized(parts, dim)
      && (auto ==> !numpy)
      && (forall v :: |normalize(v)| == |v|)
    }

    constructor (auto: bool, numpy: bool, hasNumpy: bool, threshold: nat, normalize: Vector -> Vector)
      requires (auto ==> !numpy) && forall v :: |normalize(v)| == |v|
      ensures Valid() && fresh(Repr) && Abs() == EMPTY && dim == None && revision == 0
    {
      this.auto, this.numpy, this.hasNumpy, this.threshold := auto, numpy, hasNumpy, threshold;
      this.normalize := normalize;
      partitions, parts, owner, content := [], [], map[], map[];
      dim, revision := None, 0;
      all, flights, Repr := {}, {}, {this};
    }

    /** The partitions as matrices, with the entries they had. */
    method Converted() returns (promoted: Dict<Agent, Partition>, ghost made: set<NumpyPartition>,
                                ghost objects: set<object>)
      requires Shape() && !numpy && dim.Some?
      ensures fresh(objects) && |promoted| == |partitions| && AllTracked(made, objects)
      ensures forall i :: 0 <= i < |promoted| ==> Promoted(promoted[i], parts[i], made, objects)
      ensures AllDifferent(promoted)
    {
      hide RepOk, SnapOk, AllTracked, Tracked, AllDifferent;
      NoneDifferent();
      promoted, made, objects := [], {}, {};
      NoneTracked();
      for n := 0 to |partitions|
        invariant |promoted| == n && fresh(objects) && AllTracked(made, objects)
        invariant forall i :: 0 <= i < n ==> Promoted(promoted[i], parts[i], made, objects)
        invariant AllDifferent(promoted)
      {
        assert Backed(n);
        ghost var some := promoted;
        var rows := PromoteOne(partitions[n].1.list, dim.value);
        OneMore(rows, {}, made, objects, objects + rows.Repr);
        assert Promoted((partitions[n].0, Matrix(rows)), parts[n], made + {rows}, objects + rows.Repr);
        forall i | 0 <= i < n
          ensures Promoted(some[i], parts[i], made + {rows}, objects + rows.Repr) && some[i].1 != Matrix(rows)
        {
          StillPromoted(some[i], parts[i], made, objects, rows);
        }
        promoted := promoted + [(partitions[n].0, Matrix(rows))];
        OneMoreDifferent(some, promoted);
        made, objects := made + {rows}, objects + rows.Repr;
      }
    }

    /** _promote: every dict partition is copied to a matrix; the entries stay as they are. */
    method Promote()
      requires Shape() && !numpy
      modifies this
      ensures Shape() && fresh(Repr - old(Repr)) && parts == old(parts) && flights == old(flights)
      ensures owner == old(owner) && content == old(content) && dim == old(dim) && revision == old(revision)
      ensures !auto && numpy == (hasNumpy && dim.Some?)
    {
      hide Backed, RepOk, SnapOk, AllTracked, Underway, Promoted, AllDifferent;
      auto := false;
      FieldsOnly();
      if !hasNumpy || dim.None? {
        return;
      }
      NoFlights();
      var promoted;
      ghost var made, objects;
      promoted, made, objects := Converted();
      numpy, partitions, all := true, promoted, made;
      Repr := Repr + objects;
      AllPromoted(objects);
    }

    /** Only matrix partitions have searches under way that can be disturbed. */
    lemma NoFlights()
      requires Shape() && !numpy
      ensures flights == {}
    {
    }

    lemma AllPromoted(objects: set<object>)
      requires this in Repr && objects <= Repr && this !in objects && numpy && |parts| == |partitions|
      requires AllTracked(all, objects) && flights == {}
      requires forall i :: 0 <= i < |partitions| ==> Promoted(partitions[i], parts[i], all, objects)
      requires AllDifferent(partitions)
      ensures Shape()
    {
      MoreObjects(all, objects, Objects());
      forall i | 0 <= i < |partitions| ensures Backed(i) {
        assert Promoted(partitions[i], parts[i], all, objects);
      }
    }

    /** Set owner, contents, dimension and revision. */
    method SetFields(owner: map<string, Agent>, content: map<string, string>, dim: Option<nat>, revision: nat)
      requires Shape()
      modifies this`owner, this`content, this`dim, this`revision
      ensures Shape()
      ensures this.owner == owner && this.content == content && this.dim == dim && this.revision == revision
    {
      this.owner, this.content, this.dim, this.revision := owner, content, dim, revision;
      FieldsOnly();
    }

    /** The body of add, once the vector is known to fit. */
    method Store(id: string, v: Vector, text: string, agent: Agent)
      requires Shape() && Ok(Abs()) && Sized(parts, dim) && dim == Some(|v|)
      modifies Repr
      ensures Shape() && fresh(Repr - old(Repr)) && Sized(parts, dim)
      ensures Abs() == AddVector(old(Abs()), id, v, text, agent)
      ensures dim == old(dim) && auto == old(auto) && numpy == old(numpy) && revision == old(revision) + 1
      ensures flights == old(flights)
    {
      hide Backed, AllTracked, Underway, PartRemove, Put, PartOf, Sized, Holds, RepOk;
      var previous := if id in owner then owner[id] else agent;
      if id in owner && previous != agent {
        AfterDrop(parts, previous, id, dim);
        PartitionRemove(previous, id);
      }
      SizedAdd(parts, agent, id, v, dim);
      PartitionAdd(agent, id, v);
      SetFields(owner[id := agent], SetContent(content, id, text), dim, revision + 1);
    }

    method Add(id: string, embedding: Vector, text: string, agent: Agent) returns (r: Status)
      requires Valid()
      modifies Repr
      ensures Valid() && fresh(Repr - old(Repr)) && flights == old(flights)
      ensures r == if embedding == [] then EmptyEmbedding
                   else if old(dim).None? || old(dim).value == |embedding| then Done else WrongDimension
      ensures r.Done? ==> Abs() == AddVector(old(Abs()), id, normalize(embedding), text, agent)
                          && dim == Some(|embedding|) && revision == old(revision) + 1
      ensures !r.Done? ==> Abs() == old(Abs()) && dim == old(dim) && revision == old(revision)
    {
      hide Backed, AllTracked, Underway, Sized, PartsOk, AddVector, Holds;
      var v := normalize(embedding);
      if v == [] {
        return EmptyEmbedding;
      }
      if dim.Some? && |v| != dim.value {
        return WrongDimension;
      }
      if dim.None? {
        FirstDimension(parts, |v|);
        SetFields(owner, content, Some(|v|), revision);
      }
      AddKeeps(Abs(), id, v, text, agent);
      Store(id, v, text, agent);
      if auto && |owner| >= threshold {
        Promote();
      }
      r := Done;
    }

    method Remove(id: string)
      requires Valid()
      modifies Repr
      ensures Valid() && fresh(Repr - old(Repr)) && flights == old(flights)
      ensures Abs() == RemoveId(old(Abs()), id)
      ensures revision == old(revision) + if id in old(owner) then 1 else 0
      ensures dim == if id in old(owner) && owner == map[] then None else old(dim)
    {
      hide Backed, AllTracked, Underway, Sized, PartRemove, Holds;
      if id !in owner {
        return;
      }
      ghost var before := Abs();
      var agent := owner[id];
      RemoveKeeps(before, id);
      AfterDrop(parts, agent, id, dim);
      PartitionRemove(agent, id);
      SetFields(owner - {id}, content - {id}, dim, revision + 1);
      if owner == map[] {
        NoOwners(Abs());
        SetFields(owner, content, None, revision);
        assert Sized(parts, dim) by { NoneSized(parts, dim); }
      }
    }

    /** clear(None) drops everything, clear(agent) one agent's vectors. */
    method Clear(agent: Agent)
      requires Valid()
      modifies Repr
      ensures Valid() && fresh(Repr - old(Repr)) && flights == old(flights) && revision == old(revision) + 1
      ensures Abs() == if agent == None then EMPTY else ClearAgent(old(Abs()), agent)
      ensures dim == if owner == map[] && (agent == None || Has(old(parts), agent)) then None else old(dim)
    {
      assert this in Repr;
      hide Shape, Sized, Holds, Del, RemoveAt, PartOf;
      if agent == None {
        ClearAll();
        return;
      }
      SetFields(owner, content, dim, revision + 1);
      Aligned();
      SamePlace(partitions, parts, agent);
      var i := Find(partitions, agent);
      if i < 0 {
        NothingToClear(Abs(), agent);
      } else {
        ClearAt(i);
      }
    }

    /** One agent's partition goes, with its owners and contents. */
    method ClearAt(i: nat)
      requires Valid() && i < |partitions| && Find(parts, partitions[i].0) == i
      modifies this
      ensures Valid() && Repr == old(Repr) && flights == old(flights) && revision == old(revision)
      ensures Abs() == ClearAgent(old(Abs()), old(partitions)[i].0)
      ensures dim == if owner == map[] then None else old(dim)
    {
      hide Shape, Sized, Holds, Del, RemoveAt, PartOf;
      ghost var before, agent := Abs(), partitions[i].0;
      ClearKeeps(before, agent);
      SizedDel(parts, agent, dim);
      DelIsRemoveAt(parts, agent);
      var gone := Ids(i);
      Unregister(i);
      SetFields(owner - gone, content - gone, dim, revision);
      if owner == map[] {
        NoOwners(Abs());
        SetFields(owner, content, None, revision);
        assert Sized(parts, dim) by { NoneSized(parts, dim); }
      }
    }

    method ClearAll()
      requires Valid()
      modifies this
      ensures Valid() && Repr == old(Repr) && flights == old(flights) && revision == old(revision) + 1
      ensures Abs() == EMPTY && dim == None
    {
      hide Backed, AllTracked, Underway;
      partitions, parts := [], [];
      Emptied();
      SetFields(map[], map[], None, revision + 1);
      NoPartitions(Abs(), dim);
    }

    /** No partitions are left; searches of the old ones go on. */
    twostate lemma Emptied()
      requires old(Shape()) && partitions == [] && parts == [] && all == old(all) && flights == old(flights)
      requires numpy == old(numpy) && Repr == old(Repr)
      requires forall o: object :: o in Repr && o != this ==> unchanged(o)
      ensures Shape()
    {
      AllKept();
      hide AllTracked, Underway;
    }

    /** The ids of one partition. */
    method Ids(i: nat) returns (ids: set<string>)
      requires Shape() && i < |partitions|
      ensures ids == Keys(parts[i].1)
    {
      assert Backed(i);
      match partitions[i].1
      case Listed(list) => ids := Keys(list.vectors);
      case Matrix(rows) =>
        ids := Keys(rows.pos.d);
        SameNames(rows.pos.d, parts[i].1);
    }

    /** count(None) counts all vectors, count(agent) one agent's. */
    method Count(agent: Agent) returns (n: nat)
      requires Valid()
      ensures n == if agent == None then |owner| else |PartOf(parts, agent)|
    {
      if agent == None {
        return |owner|;
      }
      Aligned();
      SamePlace(partitions, parts, agent);
      var i := Find(partitions, agent);
      if i < 0 {
        return 0;
      }
      n := Length(i);
    }

    /** The given ids that are not indexed under the agent. */
    method Missing(ids: set<string>, agent: Agent) returns (r: set<string>)
      requires Valid()
      ensures r == set id | id in ids && !Holds(parts, agent, id)
    {
      Aligned();
      SamePlace(partitions, parts, agent);
      var i := Find(partitions, agent);
      var keys: set<string> := {};
      if i >= 0 {
        keys := Ids(i);
        forall id ensures id in keys <==> Holds(parts, agent, id) {
          InKeys(parts[i].1, id);
        }
      }
      r := ids - keys;
    }

    predicate Unseen(ids: seq<string>)
      reads this
    {
      forall i :: 0 <= i < |ids| ==> ids[i] !in owner
    }

    /** Promotion before a large load; it needs a dimension, and a wrong one fails validation later. */
    method PromoteEarly(n: nat)
      requires Valid() && auto
      modifies this
      ensures Valid() && fresh(Repr - old(Repr)) && flights == old(flights)
      ensures Abs() == old(Abs()) && revision == old(revision)
      ensures dim == if old(dim).None? then Some(n) else old(dim)
    {
      hide Backed, AllTracked, Underway, Sized, Holds;
      if dim.None? {
        FirstDimension(parts, n);
        SetFields(owner, content, Some(n), revision);
      }
      Promote();
    }

    /** The i-th vector of a block is added on its own. */
    method AddNext(ids: seq<string>, embeddings: seq<Vector>, agent: Agent, i: nat, ghost start: Index,
                   ghost before: Option<nat>) returns (r: Status)
      requires Valid() && i < |ids| == |embeddings|
      requires Abs() == AddEach(start, Zip(ids, embeddings, normalize)[..i], agent)
      requires AllFit(before, embeddings[..i]) && dim == if i == 0 then before else Some(|embeddings[0]|)
      modifies Repr
      ensures Valid() && fresh(Repr - old(Repr)) && flights == old(flights)
      ensures r.Done? ==> Abs() == AddEach(start, Zip(ids, embeddings, normalize)[..i + 1], agent)
                          && revision == old(revision) + 1 && dim == Some(|embeddings[0]|)
      ensures r.Done? ==> AllFit(before, embeddings[..i + 1])
      ensures !r.Done? ==> !AllFit(before, embeddings)
    {
      hide AddEach, AddVector, Shape, Sized, Ok;
      NextEach(start, Zip(ids, embeddings, normalize), i, agent);
      FirstFits(before, embeddings, i);
      r := Add(ids[i], embeddings[i], "", agent);
      assert !r.Done? ==>
          embeddings[i] == [] || |embeddings[i]| != if before.Some? then before.value else |embeddings[0]|;
    }

    method AddOneByOne(ids: seq<string>, embeddings: seq<Vector>, agent: Agent) returns (r: Status)
      requires Valid() && |ids| == |embeddings| && ids != []
      modifies Repr
      ensures Valid() && fresh(Repr - old(Repr)) && flights == old(flights)
      ensures r.Done? <==> AllFit(old(dim), embeddings)
      ensures r.Done? ==> Abs() == AddEach(old(Abs()), Zip(ids, embeddings, normalize), agent)
                          && dim == Some(|embeddings[0]|) && revision == old(revision) + |ids|
    {
      ghost var block := Zip(ids, embeddings, normalize);
      NoneFit(dim, embeddings);
      NoneAdded(Abs(), block, agent);
      hide *;
      for i := 0 to |ids|
        invariant Valid() && fresh(Repr - old(Repr)) && flights == old(flights)
        invariant AllFit(old(dim), embeddings[..i]) && dim == if i == 0 then old(dim) else Some(|embeddings[0]|)
        invariant Abs() == AddEach(old(Abs()), block[..i], agent) && revision == old(revision) + i
      {
        r := AddNext(ids, embeddings, agent, i, old(Abs()), old(dim));
        if !r.Done? {
          return;
        }
      }
      assert block[..|ids|] == block && embeddings[..|ids|] == embeddings;
      r := Done;
    }

    method AppendBlock(ids: seq<string>, embeddings: seq<Vector>, agent: Agent, expected: nat, normalised: bool)
      returns (r: Status)
      requires Valid() && |ids| == |embeddings| && ids != [] && numpy && Unseen(ids) && AllDistinct(ids)
      requires normalised ==> forall i :: 0 <= i < |embeddings| ==> normalize(embeddings[i]) == embeddings[i]
      modifies Repr
      ensures Valid() && fresh(Repr - old(Repr)) && flights == old(flights)
      ensures r.Done? <==> AllFit(old(dim), embeddings)
      ensures r.Done? ==> Abs() == AddEach(old(Abs()), Zip(ids, embeddings, normalize), agent)
                          && dim == Some(|embeddings[0]|) && revision == old(revision) + 1
    {
      hide Backed, AllTracked, Underway, Sized, PartsOk, Holds, Owned, FreshIds, AddEach, AllFit;
      var width := |embeddings[0]|;
      UniformFits(dim, embeddings);
      if exists i :: 0 <= i < |embeddings| && |embeddings[i]| != width {
        return WrongDimension;
      }
      if dim.None? {
        FirstDimension(parts, width);
        SetFields(owner, content, Some(width), revision);
      }
      if width == 0 {
        return EmptyEmbedding;
      }
      if width != dim.value {
        return WrongDimension;
      }
      var block := if normalised then seq(|ids|, i requires 0 <= i < |ids| => (ids[i], embeddings[i]))
                   else Zip(ids, embeddings, normalize);
      assert block == Zip(ids, embeddings, normalize);
      ZipFresh(Abs(), ids, embeddings, normalize);
      StoreBlock(block, agent, expected);
      r := Done;
    }

    /** The vectors of the block, known to fit, go into the agent's matrix. */
    method StoreBlock(block: Entries, agent: Agent, expected: nat)
      requires Valid() && numpy && FreshIds(Abs(), block) && block != [] && AllSized(block, dim)
      modifies Repr
      ensures Valid() && fresh(Repr - old(Repr)) && flights == old(flights)
      ensures Abs() == AddEach(old(Abs()), block, agent) && dim == old(dim) && revision == old(revision) + 1
    {
      hide Shape, Sized, AllSized, Ok, FreshIds, Put, PartOf, OwnAll, AddEach;
      ghost var before := Abs();
      FreshBlock(before, block, agent);
      BlockIsAdds(before, block, agent);
      EachKeeps(before, block, agent);
      SizedAppend(parts, agent, block, dim);
      OkDistinct(before);
      PartitionAppend(agent, block, expected);
      SetFields(OwnAll(owner, block, agent), content, dim, revision + 1);
    }

    /** add_many: one block append when every id is new, the per-vector path otherwise.  normalised
        promises that the rows are unit vectors already. */
    method AddMany(ids: seq<string>, embeddings: seq<Vector>, agent: Agent, expected: nat, normalised: bool)
      returns (r: Status)
      requires Valid()
      requires normalised ==> forall i :: 0 <= i < |embeddings| ==> normalize(embeddings[i]) == embeddings[i]
      modifies Repr
      ensures Valid() && fresh(Repr - old(Repr)) && flights == old(flights)
      ensures |ids| != |embeddings| && ids != [] ==> r == WrongLength
      ensures r.Done? <==> ids == [] || (|ids| == |embeddings| && AllFit(old(dim), embeddings))
      ensures r.Done? && ids != [] ==> Abs() == AddEach(old(Abs()), Zip(ids, embeddings, normalize), agent)
      ensures ids == [] ==> Abs() == old(Abs()) && dim == old(dim)
      ensures r.Done? && ids != [] ==> dim == Some(|embeddings[0]|)
      ensures r.Done? ==> (revision == old(revision) <==> ids == [])
    {
      if ids == [] {
        return Done;
      }
      if |ids| != |embeddings| {
        return WrongLength;
      }
      hide Shape, Sized, Ok, AddEach, Unseen, AllDistinct;
      if auto && |owner| + |ids| >= threshold {
        PromoteEarly(|embeddings[0]|);
      }
      if !numpy || !Unseen(ids) || !AllDistinct(ids) {
        r := AddOneByOne(ids, embeddings, agent);
      } else {
        r := AppendBlock(ids, embeddings, agent, expected, normalised);
      }
    }

    // ----- searches under way -----

    /** A snapshot of a matrix partition, that a search goes on with after it gave up the lock. */
    method SnapshotAt(i: nat) returns (s: Snapshot, ghost t: Taken)
      requires Valid() && i < |partitions| && partitions[i].1.Matrix?
      modifies Repr
      ensures Valid() && Repr == old(Repr) && Same()
      ensures var rows := partitions[i].1.rows; flights == old(flights) + {Flight(rows, t, rows.stored)}
      ensures t.snap == s && OneRowPerId(t.was) && s.size == |t.was|
      ensures forall row :: 0 <= row < |t.was| && t.was[row].Some? ==> Has(parts[i].1, t.was[row].value)
    {
      hide RepOk, SnapOk, NumpyPartition.SnapsHold, NumpyPartition.Valid, NumpyPartition.Entries, NumpyPartition.Reach;
      hide Shape;
      RowsAt(i);
      var rows := partitions[i].1.rows;
      RowsOfEntries(rows);
      s := rows.TakeSnapshot();
      t := Taken(s, rows.ids.items);
      assert Repr == old(Repr) + rows.Repr;
      assert parts == old(parts)[i := (partitions[i].0, rows.Entries())];
      RowsChanged(i);
      InAll(i);
      Watch(rows, t);
    }

    lemma InAll(i: nat)
      requires Shape() && i < |partitions| && partitions[i].1.Matrix?
      ensures partitions[i].1.rows in all
    {
      assert Backed(i);
    }

    lemma RowsOfEntries(rows: NumpyPartition)
      requires rows.Valid()
      ensures var items := rows.ids.items;
        OneRowPerId(items)
        && forall row :: 0 <= row < |items| && items[row].Some? ==> Has(rows.Entries(), items[row].value)
    {
      hide SnapOk;
      var items, d := rows.ids.items, rows.pos.d;
      RepFacts(rows.Rep(), rows.deadCount, rows.stored);
      RepRowsOk(rows.Rep(), rows.deadCount, rows.stored);
      RowsOnce(items, d);
      hide RepOk;
      forall row | 0 <= row < |items| && items[row].Some? ensures Has(rows.Entries(), items[row].value) {
        assert Mapped(items, d, row);
        SameFind(d, rows.matrix[..], items[row].value);
      }
    }

    /** Everything the index is, but for its searches. */
    twostate predicate Same()
      reads this
    {
      && parts == old(parts) && partitions == old(partitions) && owner == old(owner) && content == old(content)
      && dim == old(dim) && auto == old(auto) && numpy == old(numpy) && revision == old(revision)
    }

    /** The search of rows that took t is under way, now. */
    ghost method Watch(rows: NumpyPartition, t: Taken)
      requires Valid() && rows in all && t in rows.taken
      modifies this`flights
      ensures Valid() && flights == old(flights) + {Flight(rows, t, rows.stored)}
    {
      hide Shape, NumpyPartition.SnapsHold;
      flights := flights + {Flight(rows, t, rows.stored)};
      Watched(rows, t);
    }

    twostate lemma Watched(rows: NumpyPartition, new t: Taken)
      requires old(Shape()) && partitions == old(partitions) && parts == old(parts) && all == old(all)
      requires numpy == old(numpy) && Repr == old(Repr) && rows in all && t in rows.taken
      requires flights == old(flights) + {Flight(rows, t, rows.stored)}
      requires forall o: object :: o in Repr && o != this ==> unchanged(o)
      ensures Shape()
    {
      hide Shape, AllTracked, Tracked, Underway, Backed, AllDifferent;
      OldApart();
      AllKept();
      InObjects(rows);
      BackedKept();
      OneMoreFlight(old(flights), Flight(rows, t, rows.stored), all, Objects());
      Shaped();
    }

    lemma InObjects(rows: NumpyPartition)
      requires AllTracked(all, Objects()) && rows in all
      ensures rows in Objects()
    {
    }

    // ----- searching -----

    /** The partitions a search looks at: the agent's own, or all of them in order. */
    ghost function Searched(agent: Agent): seq<Entries>
      reads this
    {
      if agent == None then AllParts(parts)
      else if Has(parts, agent) then [PartOf(parts, agent)] else []
    }

    /** One partition's snapshot and top(), its hits marked with the partition's place in the search. */
    method TopOfPartition(i: nat, order: nat, q: Vector, k: nat, scope: Option<set<string>>)
      returns (hits: seq<Hit>, ghost places: seq<nat>)
      requires Shape() && i < |partitions| && k > 0
      ensures Places(parts[i].1, places)
      ensures TopOf(hits, Scored(parts[i].1, places, q, scope, order), k)
    {
      assert Backed(i);
      var found: seq<Hit>;
      match partitions[i].1 {
        case Listed(list) =>
          found := PythonTop(list.vectors, q, k, scope);
          places := Counting(|list.vectors|);
        case Matrix(rows) =>
          found, places := SearchNumpy(rows, q, k, scope);
      }
      assert parts[i].1 == old(parts)[i].1;
      hits := InOrder(found, order);
      MovedTop(found, parts[i].1, places, q, scope, order, k);
    }

    /** The top k of every searched partition, one after the other. */
    method GatherTops(from: nat, to: nat, q: Vector, k: nat, scope: Option<set<string>>)
      returns (hits: seq<Hit>, ghost tops: seq<seq<Hit>>, ghost places: seq<seq<nat>>)
      requires Shape() && from <= to <= |partitions| && k > 0
      ensures |tops| == |places| == to - from
      ensures forall j :: 0 <= j < to - from ==>
                Places(parts[from + j].1, places[j])
                && TopOf(tops[j], Scored(parts[from + j].1, places[j], q, scope, j), k)
      ensures hits == Joined(tops)
    {
      hits, tops, places := [], [], [];
      for i := from to to
        invariant |tops| == |places| == i - from
        invariant forall j :: 0 <= j < i - from ==>
                    Places(parts[from + j].1, places[j])
                    && TopOf(tops[j], Scored(parts[from + j].1, places[j], q, scope, j), k)
        invariant hits == Joined(tops)
      {
        ghost var placed;
        var found;
        found, placed := TopOfPartition(i, i - from, q, k, scope);
        hits := hits + found;
        assert (tops + [found])[..|tops|] == tops;
        tops, places := tops + [found], places + [placed];
      }
    }

    /** The ranked hits of the searched partitions, cut to k. */
    method Rank(q: Vector, k: nat, scope: Option<set<string>>, agent: Agent) returns (shown: seq<(string, Score)>)
      requires Shape() && Distinct(parts) && k > 0
      ensures shown == Answer(Searched(agent), q, k, scope)
    {
      hide Backed, AllTracked, Underway, Answer, RepOk;
      ghost var searched := Searched(agent);
      var from, to := 0, |partitions|;
      if agent != None {
        Aligned();
        SamePlace(partitions, parts, agent);
        from := Find(partitions, agent);
        to := from + 1;
        if from < 0 {
          NoAnswer(searched, q, k, scope);
          return [];
        }
      }
      var hits;
      ghost var tops, places;
      hits, tops, places := GatherTops(from, to, q, k, scope);
      SearchExact(searched, places, tops, q, scope, k);
      shown := Shown(Best(hits, k));
    }

    /** The best k matching vectors, best first, cut at min_score, with their contents. */
    method Search(query: Vector, k: int, minScore: real, scope: Option<set<string>>, agent: Agent)
      returns (r: Status, found: seq<Found>)
      requires Valid()
      ensures r == if k > 0 && scope != Some({}) && dim.Some? && dim.value != |query| then WrongDimension else Done
      ensures r.Done? && k <= 0 ==> found == []
      ensures r.Done? && k > 0 ==> found == Cut(Answer(Searched(agent), normalize(query), k, scope), minScore, content)
    {
      hide Backed, AllTracked, Underway, Holds, AllSized, Answer, RepOk;
      if k <= 0 {
        return Done, [];
      }
      ghost var searched := Searched(agent);
      var q := normalize(query);
      if scope == Some({}) {
        NothingInScope(searched, q);
        NoAnswer(searched, q, k, scope);
        return Done, [];
      }
      if dim.None? {
        if parts != [] { SizedSome(parts, dim); }
        NoAnswer(searched, q, k, scope);
        return Done, [];
      }
      if |query| != dim.value {
        return WrongDimension, [];
      }
      var shown := Rank(q, k, scope, agent);
      found := Cut(shown, minScore, content);
      r := Done;
    }
  }
}
