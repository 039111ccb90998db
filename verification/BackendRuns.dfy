/** Whole runs: both backends driven by one list of operations answer every search alike. */
module BackendRuns {
  import opened Assoc
  import opened Ranking
  import opened VectorBackends
  import opened NumpyBackend
  import opened NumpySearch
  import opened SearchSpec

  // ----- the two implementations of a run -----

  method RunPython(p: PythonPartition, ops: seq<Op>)
    requires p.Valid() && AllAllowed(p.vectors, ops)
    modifies p
    ensures p.Valid() && p.vectors == Run(old(p.vectors), ops)
  {
    for i := 0 to |ops|
      invariant p.Valid() && AllAllowed(p.vectors, ops[i..])
      invariant Run(p.vectors, ops[i..]) == Run(old(p.vectors), ops)
    {
      assert ops[i..][0] == ops[i] && ops[i..][1..] == ops[i + 1..];
      match ops[i]
      case Add(id, v) => p.Add(id, v);
      case Remove(id) => p.Remove(id);
      case Block(block, _) =>
        AddBlock(p, block);
    }
  }

  method AddBlock(p: PythonPartition, block: Entries)
    requires p.Valid() && Fresh(p.vectors, block)
    modifies p
    ensures p.Valid() && p.vectors == old(p.vectors) + block
  {
    ghost var es := p.vectors;
    for j := 0 to |block|
      invariant p.Valid() && p.vectors == es + block[..j]
    {
      NotYet(es, block, j);
      p.Add(block[j].0, block[j].1);
      assert block[..j + 1] == block[..j] + [block[j]];
    }
    assert block[..|block|] == block;
  }

  /** One by one, the ids of a fresh block are new when their turn comes. */
  lemma NotYet(es: Entries, block: Entries, j: nat)
    requires Fresh(es, block) && j < |block|
    ensures !Has(es + block[..j], block[j].0)
  {
    assert !Has(es, block[j].0);
  }

  method RunNumpy(p: NumpyPartition, ops: seq<Op>)
    requires p.Valid() && p.SnapsHold() && AllAllowed(p.Entries(), ops)
    modifies p.Repr
    ensures p.Valid() && p.SnapsHold() && fresh(p.Repr - old(p.Repr))
    ensures p.Entries() == Run(old(p.Entries()), ops)
    ensures p.taken == old(p.taken) && old(p.stored) <= p.stored
    decreases |ops|
  {
    hide RepOk, SnapOk, RowsOk, Put, Del;
    if ops != [] {
      match ops[0] {
        case Add(id, v) => p.Add(id, v);
        case Block(block, expected) => p.AddMatrix(block, expected);
        case Remove(id) => p.Remove(id);
      }
      RunNumpy(p, ops[1..]);
    }
  }

  // ----- searching a quiet partition -----

  function RowPlaces(d: Dict<string, nat>): (r: seq<nat>)
    ensures |r| == |d| && forall i :: 0 <= i < |r| ==> r[i] == d[i].1
  {
    seq(|d|, i requires 0 <= i < |d| => d[i].1)
  }

  /** The reportable rows of the matrix are the entries, placed at their rows. */
  lemma RowsAreEntries(items: seq<Option<string>>, d: Dict<string, nat>, m: seq<Vector>, q: Vector,
                       scope: Option<set<string>>)
    requires RowsOk(items, d) && |items| <= |m|
    ensures Places(EntriesOf(d, m), RowPlaces(d))
    ensures RowHits(items, m, |items|, q, scope) == Scored(EntriesOf(d, m), RowPlaces(d), q, scope, 0)
  {
    var es := EntriesOf(d, m);
    forall h | h in RowHits(items, m, |items|, q, scope) ensures h in Scored(es, RowPlaces(d), q, scope, 0) {
      assert Mapped(items, d, h.pos);
      var i := Find(d, h.id);
      assert es[i] == (h.id, m[h.pos]) && RowPlaces(d)[i] == h.pos;
    }
    forall h | h in Scored(es, RowPlaces(d), q, scope, 0) ensures h in RowHits(items, m, |items|, q, scope) {
      var i :| 0 <= i < |es| && Included(scope, es[i].0) && h == Hit(Fin(Dot(q, es[i].1)), 0, RowPlaces(d)[i], es[i].0);
      assert items[d[i].1] == Some(d[i].0);
    }
  }

  /** A partition's id list names every id at one row only. */
  lemma RowsOnce(items: seq<Option<string>>, d: Dict<string, nat>)
    requires RowsOk(items, d)
    ensures OneRowPerId(items)
  {
    forall i, j | 0 <= i < j < |items| && items[i].Some? ensures items[i] != items[j] {
      assert Mapped(items, d, i) && Mapped(items, d, j);
    }
  }

  /** snapshot() and top() of the matrix backend, back to back: the best k entries, placed at rows. */
  method SearchNumpy(p: NumpyPartition, q: Vector, k: nat, scope: Option<set<string>>)
    returns (hits: seq<Hit>, ghost places: seq<nat>)
    requires p.Valid() && k > 0
    ensures Places(p.Entries(), places) && TopOf(hits, Scored(p.Entries(), places, q, scope, 0), k)
  {
    var s := p.View();
    ghost var t := Taken(s, p.ids.items);
    RepRowsOk(p.Rep(), p.deadCount, p.stored);
    RowsAreEntries(p.ids.items, p.pos.d, p.matrix[..], q, scope);
    places := RowPlaces(p.pos.d);
    RowsOnce(p.ids.items, p.pos.d);
    hits := Top(p, t, s, q, k, scope);
  }

  /** A single partition's best k hits, shown, are the answer. */
  lemma OnePartition(es: Entries, places: seq<nat>, q: Vector, k: nat, scope: Option<set<string>>, hits: seq<Hit>)
    requires Places(es, places) && TopOf(hits, Scored(es, places, q, scope, 0), k)
    ensures Shown(hits) == Answer([es], q, k, scope)
  {
    var all := Scored(es, places, q, scope, 0);
    assert Numberings([es], [places]);
    forall h ensures h in all <==> HitAt([es], [places], q, scope, h) {
      assert h in all ==> h.part == 0;
    }
    PositionsDoNotMatter([es], [places], q, scope, all, hits, k);
  }

  /** Whatever is done to them, the two backends answer every search alike. */
  method SameAnswers(dim: nat, ops: seq<Op>, q: Vector, k: nat, scope: Option<set<string>>)
    returns (python: seq<(string, Score)>, numpy: seq<(string, Score)>)
    requires AllAllowed([], ops) && k > 0
    ensures python == numpy == Answer([Run([], ops)], q, k, scope)
  {
    python := AnswerPython(ops, q, k, scope);
    numpy := AnswerNumpy(dim, ops, q, k, scope);
  }

  method AnswerPython(ops: seq<Op>, q: Vector, k: nat, scope: Option<set<string>>) returns (r: seq<(string, Score)>)
    requires AllAllowed([], ops) && k > 0
    ensures r == Answer([Run([], ops)], q, k, scope)
  {
    var p := new PythonPartition();
    RunPython(p, ops);
    var hits := PythonTop(p.vectors, q, k, scope);
    OnePartition(p.vectors, Counting(|p.vectors|), q, k, scope, hits);
    r := Shown(hits);
  }

  method AnswerNumpy(dim: nat, ops: seq<Op>, q: Vector, k: nat, scope: Option<set<string>>)
    returns (r: seq<(string, Score)>)
    requires AllAllowed([], ops) && k > 0
    ensures r == Answer([Run([], ops)], q, k, scope)
  {
    var p := new NumpyPartition(dim);
    RunNumpy(p, ops);
    var hits, places := SearchNumpy(p, q, k, scope);
    OnePartition(p.Entries(), places, q, k, scope, hits);
    r := Shown(hits);
  }
}
