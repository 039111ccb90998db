/** The two scoring backends: one partition (agent) of vectors each.

    PythonPartition is an insertion-ordered dict.  NumpyPartition is a growing matrix whose rows
    are overwritten in place, marked dead on removal and compacted away now and then; its arrays,
    id list and row map are shared with the snapshots that searches score without a lock.  Both
    are proved against one specification: the insertion-ordered entries. */
module VectorBackends {
  import opened Assoc
  import opened Ranking

  type Vector = seq<real>

  /** What a partition holds: (id, unit vector), in insertion order, one entry per id. */
  type Entries = Dict<string, Vector>

  function Dot(a: Vector, b: Vector): real {
    if a == [] || b == [] then 0.0 else a[0] * b[0] + Dot(a[1..], b[1..])
  }

  predicate Included(scope: Option<set<string>>, id: string) {
    scope.None? || id in scope.value
  }

  /** Positions of the entries: list positions for the dict backend, matrix rows for the other. */
  ghost predicate Places(es: Entries, places: seq<nat>) {
    |places| == |es| && forall i, j :: 0 <= i < j < |places| ==> places[i] < places[j]
  }

  function Counting(n: nat): (r: seq<nat>)
    ensures |r| == n && forall i :: 0 <= i < n ==> r[i] == i
  {
    seq(n, i => i)
  }

  /** Every entry a search may report, scored, at its place. */
  ghost function Scored(es: Entries, places: seq<nat>, q: Vector, scope: Option<set<string>>, part: nat): set<Hit>
    requires |places| == |es|
  {
    set i | 0 <= i < |es| && Included(scope, es[i].0) :: Hit(Fin(Dot(q, es[i].1)), part, places[i], es[i].0)
  }

  /** What a caller sees of a hit. */
  function Shown(hits: seq<Hit>): (r: seq<(string, Score)>)
    ensures |r| == |hits| && forall i :: 0 <= i < |r| ==> r[i] == (hits[i].id, hits[i].score)
  {
    seq(|hits|, i requires 0 <= i < |hits| => (hits[i].id, hits[i].score))
  }

  // ----- one list of operations for both backends -----

  /** A mutation of one partition; Block is add_matrix, one append of many new ids. */
  datatype Op = Add(id: string, vector: Vector) | Block(block: Entries, expected: nat) | Remove(id: string)

  /** add_matrix requires ids that are distinct and not indexed yet. */
  ghost predicate Fresh(es: Entries, block: Entries) {
    Distinct(block) && forall i :: 0 <= i < |block| ==> !Has(es, block[i].0)
  }

  ghost predicate Allowed(es: Entries, op: Op) {
    op.Block? ==> Fresh(es, op.block)
  }

  function Apply(es: Entries, op: Op): Entries {
    match op
    case Add(id, v) => Put(es, id, v)
    case Block(block, _) => es + block
    case Remove(id) => Del(es, id)
  }

  ghost predicate AllAllowed(es: Entries, ops: seq<Op>)
    decreases |ops|
  {
    ops != [] ==> Allowed(es, ops[0]) && AllAllowed(Apply(es, ops[0]), ops[1..])
  }

  function Run(es: Entries, ops: seq<Op>): Entries
    decreases |ops|
  {
    if ops == [] then es else Run(Apply(es, ops[0]), ops[1..])
  }

  // ----- the dict backend -----

  class PythonPartition {
    var vectors: Entries

    ghost predicate Valid() reads this { Distinct(vectors) }

    constructor ()
      ensures Valid() && vectors == []
    {
      vectors := [];
    }

    method Add(id: string, vector: Vector)
      requires Valid()
      modifies this
      ensures Valid() && vectors == Put(old(vectors), id, vector)
    {
      PutKeys(vectors, id, vector);
      vectors := Put(vectors, id, vector);
    }

    method Remove(id: string)
      requires Valid()
      modifies this
      ensures Valid() && vectors == Del(old(vectors), id)
    {
      DelDistinct(vectors, id);
      vectors := Del(vectors, id);
    }
  }

  /** _PythonPartition.top on a snapshot (a copy of the items): score all, keep the k largest. */
  method PythonTop(snapshot: Entries, q: Vector, k: nat, scope: Option<set<string>>) returns (hits: seq<Hit>)
    ensures TopOf(hits, Scored(snapshot, Counting(|snapshot|), q, scope, 0), k)
  {
    var scored: seq<Hit> := [];
    for i := 0 to |snapshot|
      invariant forall h :: h in scored <==> exists j :: 0 <= j < i && Included(scope, snapshot[j].0)
                                               && h == Hit(Fin(Dot(q, snapshot[j].1)), 0, j, snapshot[j].0)
      invariant forall m :: 0 <= m < |scored| ==> scored[m].pos < i
      invariant DistinctPlaces(scored)
    {
      if Included(scope, snapshot[i].0) {
        scored := scored + [Hit(Fin(Dot(q, snapshot[i].1)), 0, i, snapshot[i].0)];
      }
    }
    BestIsTop(scored, k);
    assert Elements(scored) == Scored(snapshot, Counting(|snapshot|), q, scope, 0);
    hits := Best(scored, k);
  }
}
