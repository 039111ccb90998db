/** Bringing an agent's partition in line with the retrievable ids without comparing whole sets:
    counting is enough, provided the ids the caller relies on really are indexed. */
module BulkLoad {
  import opened Assoc
  import opened VectorBackends
  import opened IndexSpec
  import opened VectorIndexes

  /** A set of retrievable ids; a derived one names its parent and the exact difference. */
  datatype Scope = Scope(ids: set<string>, token: nat, parent: Option<nat>, added: set<string>, removed: set<string>)

  ghost predicate DerivedFrom(allowed: Scope, base: Scope) {
    && allowed.parent == Some(base.token)
    && allowed.added !! base.ids && allowed.removed <= base.ids
    && allowed.ids == base.ids - allowed.removed + allowed.added
  }

  /** The last synced scope, and whether the partition equalled it then. */
  datatype Synced = Synced(scope: Scope, exact: bool)

  ghost function Indexed(ix: Index, agent: Agent): set<string> {
    Keys(PartOf(ix.parts, agent))
  }

  // ----- why counting is enough -----

  lemma {:induction false} SubsetOfSameSize(a: set<string>, b: set<string>)
    requires a <= b && |a| == |b|
    ensures a == b
  {
    if x :| x in b && x !in a {
      SubsetCard(a, b - {x});
    }
  }

  lemma {:induction false} SubsetCard(a: set<string>, b: set<string>)
    requires a <= b
    ensures |a| <= |b|
  {
    if a != {} {
      var x :| x in a;
      SubsetCard(a - {x}, b - {x});
    }
  }

  /** When sync_delta accepts: as many ids as allowed, none of the added ones missing. */
  predicate Accepted(indexed: set<string>, allowed: Scope) {
    |indexed| == |allowed.ids| && allowed.added <= indexed
  }

  /** An accepted delta leaves exactly the allowed ids if and only if the partition held what the
      previous scope keeps. */
  lemma AcceptedIff(before: set<string>, after: set<string>, base: Scope, allowed: Scope)
    requires DerivedFrom(allowed, base)
    requires before - allowed.removed <= after <= before - allowed.removed + allowed.added
    requires Accepted(after, allowed)
    ensures after == allowed.ids <==> base.ids - allowed.removed <= before
  {
    if base.ids - allowed.removed <= before {
      SubsetOfSameSize(allowed.ids, after);
    }
  }

  // ----- the effect of the index operations on one agent's ids -----

  lemma IndexedOwned(ix: Index, agent: Agent, id: string)
    requires Ok(ix)
    ensures id in Indexed(ix, agent) <==> Owned(ix.owner, id, agent)
  {
    InKeys(PartOf(ix.parts, agent), id);
    assert Holds(ix.parts, agent, id) <==> Owned(ix.owner, id, agent);
  }

  lemma SameIds(ix: Index, agent: Agent, ids: set<string>)
    requires Ok(ix) && forall id :: id in ids <==> Owned(ix.owner, id, agent)
    ensures Indexed(ix, agent) == ids
  {
    forall id ensures id in Indexed(ix, agent) <==> id in ids {
      IndexedOwned(ix, agent, id);
    }
  }

  lemma IndexedAdd(ix: Index, id: string, v: Vector, text: string, agent: Agent)
    requires Ok(ix)
    ensures Indexed(AddVector(ix, id, v, text, agent), agent) == Indexed(ix, agent) + {id}
  {
    AddKeeps(ix, id, v, text, agent);
    hide Ok, Indexed, PartRemove, PartOf, Put;
    forall other ensures other in Indexed(ix, agent) + {id} <==> Owned(ix.owner[id := agent], other, agent) {
      IndexedOwned(ix, agent, other);
    }
    SameIds(AddVector(ix, id, v, text, agent), agent, Indexed(ix, agent) + {id});
  }

  lemma IndexedRemove(ix: Index, id: string, agent: Agent)
    requires Ok(ix)
    ensures Indexed(RemoveId(ix, id), agent) == Indexed(ix, agent) - {id}
  {
    RemoveKeeps(ix, id);
    hide Ok, Indexed, PartRemove, PartOf, Put;
    forall other ensures other in Indexed(ix, agent) - {id} <==> Owned(RemoveId(ix, id).owner, other, agent) {
      IndexedOwned(ix, agent, other);
    }
    SameIds(RemoveId(ix, id), agent, Indexed(ix, agent) - {id});
  }

  lemma KeysPush(block: Entries)
    requires block != []
    ensures Keys(block) == Keys(block[..|block| - 1]) + {block[|block| - 1].0}
  {
    var n := |block| - 1;
    assert forall i :: 0 <= i < n ==> block[..n][i].0 == block[i].0;
  }

  lemma {:induction false} IndexedEach(ix: Index, block: Entries, agent: Agent)
    requires Ok(ix)
    ensures Indexed(AddEach(ix, block, agent), agent) == Indexed(ix, agent) + Keys(block)
  {
    if block != [] {
      var n := |block| - 1;
      IndexedEach(ix, block[..n], agent);
      EachKeeps(ix, block[..n], agent);
      KeysPush(block);
      hide Ok, Indexed, AddVector, Keys;
      IndexedAdd(AddEach(ix, block[..n], agent), block[n].0, block[n].1, "", agent);
    }
  }

  /** index.count(agent) and index.missing(ids, agent), said of the agent's id set. */
  method CountIndexed(index: VectorIndex, agent: Agent) returns (n: nat)
    requires index.Valid() && agent != None
    ensures n == |Indexed(index.Abs(), agent)|
  {
    n := index.Count(agent);
    PartOfOk(index.parts, agent);
    KeyCount(PartOf(index.parts, agent));
  }

  method MissingIds(index: VectorIndex, ids: set<string>, agent: Agent) returns (r: set<string>)
    requires index.Valid()
    ensures r == ids - Indexed(index.Abs(), agent)
  {
    r := index.Missing(ids, agent);
    forall id | id in ids ensures id in Indexed(index.Abs(), agent) <==> Holds(index.parts, agent, id) {
      InKeys(PartOf(index.parts, agent), id);
    }
  }

  // ----- sync_delta -----

  method RemoveAll(index: VectorIndex, ids: set<string>, agent: Agent)
    requires index.Valid()
    modifies index.Repr
    ensures index.Valid() && fresh(index.Repr - old(index.Repr))
    ensures Indexed(index.Abs(), agent) == Indexed(old(index.Abs()), agent) - ids
    ensures index.dim == old(index.dim) || index.dim == None
  {
    hide Indexed, Ok, RemoveId, VectorIndex.Shape, Sized;
    var todo := ids;
    while todo != {}
      invariant index.Valid() && fresh(index.Repr - old(index.Repr)) && todo <= ids
      invariant index.dim == old(index.dim) || index.dim == None
      invariant Indexed(index.Abs(), agent) == Indexed(old(index.Abs()), agent) - (ids - todo)
      decreases todo
    {
      var id :| id in todo;
      IndexedRemove(index.Abs(), id, agent);
      index.Remove(id);
      todo := todo - {id};
    }
  }

  /** The source has a vector for the id that the filter lets through. */
  predicate Usable(source: map<string, Vector>, id: string, dim: Option<nat>) {
    id in source && source[id] != [] && (dim.None? || |source[id]| == dim.value)
  }

  /** Vectors of this width can be added. */
  predicate Accepts(dim: Option<nat>, width: nat) {
    width > 0 && (dim.None? || dim.value == width)
  }

  /** All vectors a source would supply have one width. */
  ghost predicate Uniform(source: map<string, Vector>, dim: Option<nat>, width: nat) {
    forall id :: Usable(source, id, dim) ==> |source[id]| == width
  }

  /** index_each and the embedding of the rest: add the ids some source has a usable vector for. */
  method AddFrom(index: VectorIndex, ids: set<string>, source: map<string, Vector>, dim: Option<nat>, agent: Agent,
                 ghost width: nat) returns (left: set<string>, failed: bool)
    requires index.Valid()
    modifies index.Repr
    ensures index.Valid() && fresh(index.Repr - old(index.Repr)) && left <= ids
    ensures Indexed(old(index.Abs()), agent) <= Indexed(index.Abs(), agent) <= Indexed(old(index.Abs()), agent) + ids
    ensures !failed ==> Indexed(index.Abs(), agent) == Indexed(old(index.Abs()), agent) + (ids - left)
    ensures !failed ==> forall id :: id in ids ==> (id in left <==> !Usable(source, id, dim))
    ensures Accepts(old(index.dim), width) && Uniform(source, dim, width) ==> !failed && Accepts(index.dim, width)
  {
    hide AddVector, Indexed, Ok, VectorIndex.Shape, Sized;
    left, failed := {}, false;
    var todo := ids;
    while todo != {}
      invariant index.Valid() && fresh(index.Repr - old(index.Repr)) && todo <= ids && left <= ids - todo
      invariant Indexed(index.Abs(), agent) == Indexed(old(index.Abs()), agent) + (ids - todo - left)
      invariant forall id :: id in ids - todo ==> (id in left <==> !Usable(source, id, dim))
      invariant Accepts(old(index.dim), width) && Uniform(source, dim, width) ==> Accepts(index.dim, width)
      decreases todo
    {
      var id :| id in todo;
      todo := todo - {id};
      if Usable(source, id, dim) {
        IndexedAdd(index.Abs(), id, index.normalize(source[id]), "", agent);
        var r := index.Add(id, source[id], "", agent);
        if !r.Done? {
          failed := true;
          return;
        }
      } else {
        left := left + {id};
      }
    }
  }

  /** Every id can be supplied: from the store, or else by the embedder. */
  ghost predicate Suppliable(ids: set<string>, dim: Option<nat>, stored: map<string, Vector>,
                              embedded: map<string, Vector>) {
    forall id :: id in ids ==> Usable(stored, id, dim) || Usable(embedded, id, None)
  }

  /** Index the added ids that are missing: stored vectors first, the rest through the embedder. */
  method FillMissing(index: VectorIndex, agent: Agent, ids: set<string>, dim: Option<nat>,
                     stored: map<string, Vector>, embedded: map<string, Vector>, ghost width: nat)
    returns (failed: bool)
    requires index.Valid()
    modifies index.Repr
    ensures index.Valid() && fresh(index.Repr - old(index.Repr))
    ensures Indexed(old(index.Abs()), agent) <= Indexed(index.Abs(), agent) <= Indexed(old(index.Abs()), agent) + ids
    ensures Accepts(old(index.dim), width) && Uniform(stored, dim, width) && Uniform(embedded, None, width) ==> !failed
    ensures !failed && Suppliable(ids, dim, stored, embedded) ==>
              Indexed(index.Abs(), agent) == Indexed(old(index.Abs()), agent) + ids
  {
    hide Indexed, Ok, VectorIndex.Shape, Sized, Usable, Uniform, Accepts;
    failed := false;
    ghost var before := Indexed(index.Abs(), agent);
    var missing := MissingIds(index, ids, agent);
    if missing != {} {
      var left;
      left, failed := AddFrom(index, missing, stored, dim, agent, width);
      if !failed && left != {} {
        var still;
        still, failed := AddFrom(index, left, embedded, None, agent, width);
        if Suppliable(ids, dim, stored, embedded) && !failed {
          NothingLeft(missing, ids, left, still, dim, stored, embedded);
        }
      }
    }
    ghost var after := Indexed(index.Abs(), agent);
    if !failed && Suppliable(ids, dim, stored, embedded) {
      assert after == before + missing;
      assert before + missing == before + ids;
    }
  }

  lemma NothingLeft(missing: set<string>, ids: set<string>, left: set<string>, still: set<string>, dim: Option<nat>,
                    stored: map<string, Vector>, embedded: map<string, Vector>)
    requires missing <= ids && left <= missing && still <= left && Suppliable(ids, dim, stored, embedded)
    requires forall id :: id in missing ==> (id in left <==> !Usable(stored, id, dim))
    requires forall id :: id in left ==> (id in still <==> !Usable(embedded, id, None))
    ensures still == {}
  {
    hide Usable;
  }

  /** Partition size equals the scope's, and no added id is missing. */
  method CheckCounts(index: VectorIndex, agent: Agent, allowed: Scope) returns (ok: bool)
    requires index.Valid() && agent != None
    ensures ok == Accepted(Indexed(index.Abs(), agent), allowed)
  {
    hide Indexed, Ok, VectorIndex.Shape, Sized;
    var n := CountIndexed(index, agent);
    var missing := MissingIds(index, allowed.added, agent);
    assert missing == {} <==> allowed.added <= Indexed(index.Abs(), agent) by {
      assert forall id :: id in allowed.added && id !in Indexed(index.Abs(), agent) ==> id in missing;
    }
    ok := n == |allowed.ids| && missing == {};
  }

  /** There is a last sync that left partition and scope equal, and allowed was derived from that scope. */
  predicate Applies(last: Option<Synced>, allowed: Scope) {
    last.Some? && last.value.exact && allowed.parent == Some(last.value.scope.token)
  }

  /** sync_delta: apply the difference between two scopes to the partition, and check by counting.
      stored and embedded are the vectors the store and the embedder can supply. */
  method SyncDelta(index: VectorIndex, agent: Agent, last: Option<Synced>, allowed: Scope, dim: Option<nat>,
                   stored: map<string, Vector>, embedded: map<string, Vector>, ghost width: nat)
    returns (r: Option<Synced>)
    requires index.Valid() && agent != None
    requires last.Some? && allowed.parent == Some(last.value.scope.token) ==> DerivedFrom(allowed, last.value.scope)
    modifies index.Repr
    ensures index.Valid()
    ensures r.Some? ==> r == Some(Synced(allowed, true)) && last.Some? && last.value.exact
                        && DerivedFrom(allowed, last.value.scope) && Accepted(Indexed(index.Abs(), agent), allowed)
    ensures r.Some? ==> (Indexed(index.Abs(), agent) == allowed.ids
                         <==> last.value.scope.ids - allowed.removed <= Indexed(old(index.Abs()), agent))
    ensures Applies(last, allowed) && Accepts(old(index.dim), width) && Uniform(stored, dim, width)
            && Uniform(embedded, None, width) && Suppliable(allowed.added, dim, stored, embedded) ==>
              (Indexed(index.Abs(), agent) == Indexed(old(index.Abs()), agent) - allowed.removed + allowed.added
               && (r.Some? <==> Accepted(Indexed(index.Abs(), agent), allowed)))
  {
    if !Applies(last, allowed) {
      return None;
    }
    hide Indexed, Ok, VectorIndex.Shape, Sized, DerivedFrom, Accepted, Usable, Uniform, Suppliable;
    ghost var before := Indexed(index.Abs(), agent);
    RemoveAll(index, allowed.removed, agent);
    var failed := FillMissing(index, agent, allowed.added, dim, stored, embedded, width);
    if failed {
      return None;
    }
    var ok := CheckCounts(index, agent, allowed);
    if !ok {
      return None;
    }
    AcceptedIff(before, Indexed(index.Abs(), agent), last.value.scope, allowed);
    r := Some(Synced(allowed, true));
  }

  /** The condition of AcceptedIff matters.  Synced with "a" alone, the index loses "a" and gains "b": the
      next sync, with nothing to add or remove, is accepted although the partition is wrong. */
  method AcceptedThoughWrong(normalize: Vector -> Vector)
    returns (index: VectorIndex, allowed: Scope, r: Option<Synced>)
    requires forall v :: |normalize(v)| == |v|
    ensures index.Valid() && r == Some(Synced(allowed, true)) && allowed.ids == {"a"}
    ensures Indexed(index.Abs(), Some("agent")) == {"b"}
  {
    hide Indexed, Ok, VectorIndex.Shape, Sized, AddVector, RemoveId;
    var agent := Some("agent");
    index := new VectorIndex(false, false, false, 0, normalize);
    NothingIndexed(agent);
    IndexedAdd(index.Abs(), "a", index.normalize([1.0]), "", agent);
    var first := index.Add("a", [1.0], "", agent);
    IndexedRemove(index.Abs(), "a", agent);
    index.Remove("a");
    IndexedAdd(index.Abs(), "b", index.normalize([1.0]), "", agent);
    var second := index.Add("b", [1.0], "", agent);
    assert Indexed(index.Abs(), agent) == {"b"};
    var base := Scope({"a"}, 1, None, {}, {});
    allowed := Scope({"a"}, 2, Some(1), {}, {});
    assert {"b"} - {} + {} == {"b"} && |{"b"}| == |{"a"}|;
    r := SyncDelta(index, agent, Some(Synced(base, true)), allowed, None, map[], map[], 1);
  }

  lemma NothingIndexed(agent: Agent)
    ensures Ok(EMPTY) && Indexed(EMPTY, agent) == {}
  {
  }

  // ----- restore_snapshot -----

  /** One part of a vector snapshot: ids and their unit vectors. */
  datatype Part = Part(ids: seq<string>, rows: seq<Vector>)

  function AllIds(parts: seq<Part>): set<string> {
    if parts == [] then {} else AllIds(parts[..|parts| - 1]) + IdsOf(parts[|parts| - 1].ids)
  }

  lemma NextIds(parts: seq<Part>, i: nat)
    requires i < |parts|
    ensures AllIds(parts[..i + 1]) == AllIds(parts[..i]) + IdsOf(parts[i].ids)
    ensures parts[i].ids != [] <==> IdsOf(parts[i].ids) != {}
    ensures AllIds(parts[..i + 1]) <= AllIds(parts)
  {
    assert parts[..i + 1][..i] == parts[..i];
    if parts[i].ids != [] { assert parts[i].ids[0] in IdsOf(parts[i].ids); }
    IdsGrow(parts, i + 1);
  }

  lemma {:induction false} IdsGrow(parts: seq<Part>, n: nat)
    requires n <= |parts|
    ensures AllIds(parts[..n]) <= AllIds(parts)
  {
    if n < |parts| {
      IdsGrow(parts[..|parts| - 1], n);
      assert parts[..|parts| - 1][..n] == parts[..n];
    } else {
      assert parts[..n] == parts;
    }
  }

  function IdsOf(ids: seq<string>): set<string> {
    set id | id in ids
  }

  lemma ZipKeys(ids: seq<string>, rows: seq<Vector>, normalize: Vector -> Vector)
    requires |ids| == |rows|
    ensures Keys(Zip(ids, rows, normalize)) == IdsOf(ids)
  {
    var block := Zip(ids, rows, normalize);
    assert forall i :: 0 <= i < |ids| ==> block[i].0 == ids[i];
  }

  method LoadPart(index: VectorIndex, agent: Agent, part: Part, width: nat, expected: nat) returns (failed: bool)
    requires index.Valid() && |part.ids| == |part.rows|
    requires forall i :: 0 <= i < |part.rows| ==> |part.rows[i]| == width
    requires forall i :: 0 <= i < |part.rows| ==> index.normalize(part.rows[i]) == part.rows[i]
    modifies index.Repr
    ensures index.Valid() && fresh(index.Repr - old(index.Repr))
    ensures !failed ==> Indexed(index.Abs(), agent) == Indexed(old(index.Abs()), agent) + IdsOf(part.ids)
    ensures failed <==> part.ids != [] && !Accepts(old(index.dim), width)
    ensures part.ids == [] ==> index.dim == old(index.dim)
    ensures part.ids != [] && !failed ==> index.dim == Some(width)
  {
    hide Indexed, Ok, VectorIndex.Shape, Sized;
    failed := false;
    if part.ids != [] {
      IndexedEach(index.Abs(), Zip(part.ids, part.rows, index.normalize), agent);
      ZipKeys(part.ids, part.rows, index.normalize);
      assert part.rows[0] in part.rows;
      assert AllFit(index.dim, part.rows) <==> Accepts(index.dim, width);
      var r := index.AddMany(part.ids, part.rows, agent, expected, true);
      failed := !r.Done?;
    }
  }

  /** After parts with these ids: they are indexed, the unwanted ones noted, and the parts were of an
      accepted width. */
  ghost predicate Loaded(ids: set<string>, wanted: set<string>, indexed: set<string>, gone: set<string>,
                         now: Option<nat>, before: Option<nat>, width: nat) {
    && indexed == ids && gone == ids - wanted
    && now == (if ids == {} then before else Some(width))
    && (ids != {} ==> Accepts(before, width))
  }

  lemma NothingLoaded(wanted: set<string>, before: Option<nat>, width: nat)
    ensures Loaded({}, wanted, {}, {}, before, before, width)
  {
  }

  lemma OneMoreLoaded(ids: set<string>, more: set<string>, wanted: set<string>, indexed: set<string>, gone: set<string>,
                      now: Option<nat>, before: Option<nat>, width: nat)
    requires Loaded(ids, wanted, indexed, gone, now, before, width)
    ensures more == {} || Accepts(now, width) ==>
      Loaded(ids + more, wanted, indexed + more, gone + (more - wanted), if more == {} then now else Some(width),
             before, width)
    ensures more != {} && !Accepts(now, width) ==> !Accepts(before, width)
  {
  }

  lemma AllLoaded(ids: set<string>, wanted: set<string>, indexed: set<string>, gone: set<string>, now: Option<nat>,
                  before: Option<nat>, width: nat)
    requires Loaded(ids, wanted, indexed, gone, now, before, width)
    ensures indexed - gone == wanted * ids && (ids == {} || Accepts(before, width))
  {
  }

  /** The unwanted ids are removed; what is left to do is found without a set difference when the counts
      agree. */
  method DropUnwanted(index: VectorIndex, agent: Agent, wanted: set<string>, gone: set<string>)
    returns (left: set<string>, loaded: nat)
    requires index.Valid() && agent != None && Indexed(index.Abs(), agent) - gone <= wanted
    modifies index.Repr
    ensures index.Valid() && Indexed(index.Abs(), agent) == Indexed(old(index.Abs()), agent) - gone
    ensures left == wanted - Indexed(index.Abs(), agent) && loaded == |Indexed(index.Abs(), agent)|
  {
    hide Indexed, Ok, VectorIndex.Shape, Sized;
    left := {};
    RemoveAll(index, gone, agent);
    ghost var indexed := Indexed(index.Abs(), agent);
    loaded := CountIndexed(index, agent);
    if loaded == |wanted| {
      SubsetOfSameSize(indexed, wanted);
    } else {
      left := MissingIds(index, wanted, agent);
    }
  }

  /** Into an empty partition: load every part, drop what is no longer wanted, and report exactly the wanted
      ids that are not loaded. */
  method LoadSnapshot(index: VectorIndex, agent: Agent, wanted: set<string>, parts: seq<Part>, width: nat,
                         expected: nat) returns (left: set<string>, loaded: nat, failed: bool)
    requires index.Valid() && agent != None && Indexed(index.Abs(), agent) == {}
    requires forall i :: 0 <= i < |parts| ==> |parts[i].ids| == |parts[i].rows|
    requires forall i, j :: 0 <= i < |parts| && 0 <= j < |parts[i].rows| ==> |parts[i].rows[j]| == width
    requires forall i, j :: 0 <= i < |parts| && 0 <= j < |parts[i].rows| ==>
               index.normalize(parts[i].rows[j]) == parts[i].rows[j]
    modifies index.Repr
    ensures index.Valid()
    ensures !failed ==> Indexed(index.Abs(), agent) == wanted * AllIds(parts)
    ensures !failed ==> left == wanted - Indexed(index.Abs(), agent) && loaded == |Indexed(index.Abs(), agent)|
    ensures failed <==> AllIds(parts) != {} && !Accepts(old(index.dim), width)
  {
    hide Indexed, VectorIndex.Valid, IdsOf, Loaded, Accepts;
    left, loaded, failed := {}, 0, false;
    var gone: set<string> := {};
    NothingLoaded(wanted, index.dim, width);
    for i := 0 to |parts|
      invariant index.Valid() && fresh(index.Repr - old(index.Repr))
      invariant Loaded(AllIds(parts[..i]), wanted, Indexed(index.Abs(), agent), gone, index.dim, old(index.dim), width)
    {
      NextIds(parts, i);
      var more := IdsOf(parts[i].ids);
      OneMoreLoaded(AllIds(parts[..i]), more, wanted, Indexed(index.Abs(), agent), gone, index.dim, old(index.dim),
                    width);
      failed := LoadPart(index, agent, parts[i], width, expected);
      if failed {
        return;
      }
      gone := gone + (more - wanted);
    }
    assert parts[..|parts|] == parts;
    AllLoaded(AllIds(parts), wanted, Indexed(index.Abs(), agent), gone, index.dim, old(index.dim), width);
    left, loaded := DropUnwanted(index, agent, wanted, gone);
  }

  const MIN_ROWS := 50_000

  /** The stored vectors of an agent: their width, their number, and the parts they come in. */
  datatype Snapshot = Snapshot(width: nat, count: nat, parts: seq<Part>)

  /** Parts of unit rows, as many as ids, all of the snapshot's width. */
  ghost predicate WellFormed(s: Snapshot, normalize: Vector -> Vector) {
    forall i :: 0 <= i < |s.parts| ==>
      |s.parts[i].ids| == |s.parts[i].rows|
      && forall j :: 0 <= j < |s.parts[i].rows| ==>
           |s.parts[i].rows[j]| == s.width && normalize(s.parts[i].rows[j]) == s.parts[i].rows[j]
  }

  /** Only a large cold start, on a store and an embedder that can, is worth a snapshot. */
  predicate ColdStart(missing: set<string>, before: Option<nat>, supported: bool) {
    before == Some(0) && |missing| >= MIN_ROWS && supported
  }

  /** ... and only one of the embedder's dimension is used. */
  predicate Restorable(snapshot: Option<Snapshot>, numpy: bool, dim: Option<nat>) {
    numpy && snapshot.Some? && (dim.None? || dim.value == snapshot.value.width)
  }

  /** restore_snapshot: the ids still missing, the agent's count, and whether a snapshot should be saved after
      the rows are loaded.  Without a large cold start or a usable snapshot nothing is touched. */
  method RestoreSnapshot(index: VectorIndex, agent: Agent, missing: set<string>, before: Option<nat>, supported: bool,
                         numpy: bool, snapshot: Option<Snapshot>, dim: Option<nat>)
    returns (left: set<string>, loaded: Option<nat>, save: bool, failed: bool)
    requires index.Valid() && agent != None
    requires before.Some? ==> before.value == |Indexed(index.Abs(), agent)|
    requires snapshot.Some? ==> WellFormed(snapshot.value, index.normalize)
    modifies index.Repr
    ensures index.Valid()
    ensures var used := ColdStart(missing, before, supported) && Restorable(snapshot, numpy, dim);
      && (!used ==> !failed && index.Abs() == old(index.Abs()) && left == missing && loaded == before
                    && (save <==> ColdStart(missing, before, supported) && numpy))
      && (used ==> (failed <==> AllIds(snapshot.value.parts) != {}
                                && !Accepts(old(index.dim), snapshot.value.width)))
      && (used && !failed ==>
            && Indexed(index.Abs(), agent) == missing * AllIds(snapshot.value.parts)
            && left == missing - Indexed(index.Abs(), agent) && loaded == Some(|Indexed(index.Abs(), agent)|)
            && (save <==> |left| >= 1000 && |left| >= |missing| / 10))
  {
    hide Indexed, VectorIndex.Valid, Accepts, AllIds;
    left, loaded, save, failed := missing, before, false, false;
    if !ColdStart(missing, before, supported) {
      return;
    }
    if !Restorable(snapshot, numpy, dim) {
      save := numpy;
      return;
    }
    var s := snapshot.value;
    assert Indexed(index.Abs(), agent) == {};
    var count;
    left, count, failed := LoadSnapshot(index, agent, missing, s.parts, s.width, s.count);
    loaded := Some(count);
    save := |left| >= if 1000 > |missing| / 10 then 1000 else |missing| / 10;
  }
}
