/** The matrix backend: rows in insertion order, written in place, shared with snapshots.

    The invariant Valid ties the row map to the id list and the dead mask; Entries is the
    abstraction the dict backend stores directly.  A snapshot keeps references to the partition's
    own arrays, so later mutations show through it: SnapHolds is what stays true of every snapshot
    ever taken, whatever is done to the partition afterwards. */
module NumpyBackend {
  import opened Assoc
  import opened Ranking
  import opened VectorBackends

  /** A Python list that snapshots share: row -> id, None once removed. */
  class IdList {
    var items: seq<Option<string>>
    constructor (items: seq<Option<string>>)
      ensures this.items == items
    {
      this.items := items;
    }
  }

  /** The dict live id -> row, shared with snapshots too. */
  class RowMap {
    var d: Dict<string, nat>
    constructor (d: Dict<string, nat>)
      ensures this.d == d
    {
      this.d := d;
    }
  }

  datatype Snapshot = Snapshot(matrix: array<Vector>, ids: IdList, pos: RowMap, size: nat, dead: array?<bool>)

  /** A snapshot with the ids its rows had when it was taken. */
  datatype Taken = Taken(snap: Snapshot, was: seq<Option<string>>)

  function Max(a: nat, b: nat): nat { if a < b then b else a }

  function Min(a: nat, b: nat): nat { if a < b then a else b }

  // ----- the row map and the id list -----

  /** The row map lists exactly the live rows, in row order. */
  ghost predicate RowsOk(items: seq<Option<string>>, d: Dict<string, nat>) {
    && Distinct(d)
    && (forall i, j :: 0 <= i < j < |d| ==> d[i].1 < d[j].1)
    && (forall i :: 0 <= i < |d| ==> d[i].1 < |items| && items[d[i].1] == Some(d[i].0))
    && (forall row :: 0 <= row < |items| ==> Mapped(items, d, row))
  }

  ghost predicate Mapped(items: seq<Option<string>>, d: Dict<string, nat>, row: nat)
    requires row < |items|
  {
    items[row].Some? ==> Get(d, items[row].value) == Some(row)
  }

  ghost predicate InRange(d: Dict<string, nat>, n: nat) {
    forall i :: 0 <= i < |d| ==> d[i].1 < n
  }

  ghost function EntriesOf(d: Dict<string, nat>, m: seq<Vector>): (es: Entries)
    requires InRange(d, |m|)
    ensures |es| == |d| && forall i :: 0 <= i < |d| ==> es[i] == (d[i].0, m[d[i].1])
  {
    seq(|d|, i requires 0 <= i < |d| => (d[i].0, m[d[i].1]))
  }

  /** The two dicts have the same keys in the same order, so a key is found at the same place. */
  lemma SameFind(d: Dict<string, nat>, m: seq<Vector>, id: string)
    requires Distinct(d) && InRange(d, |m|)
    ensures Distinct(EntriesOf(d, m)) && Find(EntriesOf(d, m), id) == Find(d, id)
  {
    var es := EntriesOf(d, m);
    var i := Find(d, id);
    if i >= 0 { FindAt(es, i); }
  }

  lemma RowsAppend(items: seq<Option<string>>, d: Dict<string, nat>, block: seq<string>)
    requires RowsOk(items, d)
    requires forall i, j :: 0 <= i < j < |block| ==> block[i] != block[j]
    requires forall i :: 0 <= i < |block| ==> !Has(d, block[i])
    ensures RowsOk(items + Somes(block), d + Numbered(block, |items|))
  {
    var d' := d + Numbered(block, |items|);
    var items' := items + Somes(block);
    NewKeys(d, block);
    hide Find;
    assert Distinct(d');
    forall row | 0 <= row < |items'| ensures Mapped(items', d', row) {
      if row < |items| {
        assert Mapped(items, d, row);
        if items[row].Some? { FindAt(d', Find(d, items[row].value)); }
      } else {
        FindAt(d', |d| + row - |items|);
      }
    }
  }

  lemma NewKeys(d: Dict<string, nat>, block: seq<string>)
    requires forall i :: 0 <= i < |block| ==> !Has(d, block[i])
    ensures forall i, j :: 0 <= i < |d| && 0 <= j < |block| ==> d[i].0 != block[j]
  {
    forall i, j | 0 <= i < |d| && 0 <= j < |block| ensures d[i].0 != block[j] {
      assert !Has(d, block[j]);
    }
  }

  function Somes(block: seq<string>): (r: seq<Option<string>>)
    ensures |r| == |block| && forall i :: 0 <= i < |r| ==> r[i] == Some(block[i])
  {
    seq(|block|, i requires 0 <= i < |block| => Some(block[i]))
  }

  /** The ids with consecutive rows. */
  function Numbered(block: seq<string>, first: nat): (r: Dict<string, nat>)
    ensures |r| == |block| && forall i :: 0 <= i < |r| ==> r[i] == (block[i], first + i)
  {
    seq(|block|, i requires 0 <= i < |block| => (block[i], first + i))
  }

  lemma RowsRemove(items: seq<Option<string>>, d: Dict<string, nat>, id: string)
    requires RowsOk(items, d) && Has(d, id)
    ensures var row := d[Find(d, id)].1; RowsOk(items[row := None], Del(d, id))
  {
    DelDistinct(d, id);
    RemoveRising(items, d, Find(d, id));
    var items' := items[d[Find(d, id)].1 := None];
    forall r | 0 <= r < |items'| ensures Mapped(items', Del(d, id), r) {
      assert Mapped(items, d, r);
      if items'[r].Some? { RemoveComplete(items, d, id, r); }
    }
  }

  lemma RemoveRising(items: seq<Option<string>>, d: Dict<string, nat>, n: nat)
    requires n < |d| && Distinct(d)
    requires forall i, j :: 0 <= i < j < |d| ==> d[i].1 < d[j].1
    requires forall i :: 0 <= i < |d| ==> d[i].1 < |items| && items[d[i].1] == Some(d[i].0)
    ensures var d', items' := RemoveAt(d, n), items[d[n].1 := None];
      && (forall i, j :: 0 <= i < j < |d'| ==> d'[i].1 < d'[j].1)
      && (forall i :: 0 <= i < |d'| ==> d'[i].1 < |items'| && items'[d'[i].1] == Some(d'[i].0))
  {
    hide RemoveAt;
  }

  lemma RemoveComplete(items: seq<Option<string>>, d: Dict<string, nat>, id: string, r: nat)
    requires Distinct(d) && Has(d, id) && r < |items| && items[r].Some?
    requires Get(d, items[r].value) == Some(r) && r != d[Find(d, id)].1
    ensures Get(Del(d, id), items[r].value) == Some(r)
  {
    DelOther(d, id, items[r].value);
  }

  // ----- the whole representation, as values -----

  /** The arrays of a partition (or of a snapshot) by their contents: ids, row map, matrix rows and
      the dead mask, if there is one. */
  datatype Rows = Rows(items: seq<Option<string>>, d: Dict<string, nat>, m: seq<Vector>, mask: Option<seq<bool>>)

  ghost predicate RepOk(r: Rows, deadCount: nat, stored: set<(string, Vector)>) {
    && |r.items| <= |r.m|
    && RowsOk(r.items, r.d)
    && |r.items| == |r.d| + deadCount
    && (deadCount == 0 <==> r.mask.None?)
    && MaskOk(r)
    && (forall i :: 0 <= i < |r.d| ==> (r.d[i].0, r.m[r.d[i].1]) in stored)
  }

  /** The mask flags exactly the rows whose id is gone. */
  ghost predicate MaskOk(r: Rows) {
    && (r.mask.Some? ==> |r.mask.value| == |r.m|)
    && (forall row :: 0 <= row < |r.items| && row < |r.m| ==>
                        (r.items[row].None? <==> r.mask.Some? && r.mask.value[row]))
    && (forall row :: |r.items| <= row < |r.m| ==> !(r.mask.Some? && r.mask.value[row]))
  }

  /** What a snapshot whose rows once had the ids was can still count on. */
  ghost predicate SnapOk(was: seq<Option<string>>, r: Rows, stored: set<(string, Vector)>) {
    && |was| <= |r.items| && |was| <= |r.m|
    && RowsOk(r.items, r.d)
    && (forall row :: 0 <= row < |was| ==> r.items[row] == was[row] || r.items[row].None?)
    && (forall row :: 0 <= row < |was| && was[row].Some? ==> (was[row].value, r.m[row]) in stored)
    && (r.mask.None? ==> forall row :: 0 <= row < |was| ==> was[row].Some?)
    && (r.mask.Some? ==> |r.mask.value| >= |was|)
    && (r.mask.Some? ==> forall row :: 0 <= row < |was| ==>
          (r.mask.value[row] ==> r.items[row].None?) && (was[row].None? ==> r.mask.value[row]))
  }

  lemma SnapStart(r: Rows, deadCount: nat, stored: set<(string, Vector)>)
    requires RepOk(r, deadCount, stored)
    ensures SnapOk(r.items, r, stored)
  {
    forall row | 0 <= row < |r.items| && r.items[row].Some?
      ensures (r.items[row].value, r.m[row]) in stored
    {
      assert Mapped(r.items, r.d, row);
      assert r.d[Find(r.d, r.items[row].value)].1 == row;
    }
  }

  /** Everything at or after the snapshot's rows may change, and rows of it may go dead. */
  lemma SnapStep(was: seq<Option<string>>, r: Rows, r': Rows,
                 stored: set<(string, Vector)>, stored': set<(string, Vector)>)
    requires SnapOk(was, r, stored) && stored <= stored'
    requires RowsOk(r'.items, r'.d) && |r.items| <= |r'.items| && |r'.m| == |r.m|
    requires forall row :: 0 <= row < |was| ==> r'.items[row] == r.items[row] || r'.items[row].None?
    requires forall row :: 0 <= row < |was| ==>
               r'.m[row] == r.m[row] || r.items[row].None?
               || (r.items[row].value, r'.m[row]) in stored'
    requires r.mask.Some? <==> r'.mask.Some?
    requires r.mask.Some? ==> |r'.mask.value| == |r.mask.value|
    requires r.mask.Some? ==> forall row :: 0 <= row < |was| ==>
               r'.mask.value[row] == r.mask.value[row] || (r'.items[row].None? && r'.mask.value[row])
    requires forall row :: 0 <= row < |was| && r.items[row].None? ==> r'.m[row] == r.m[row]
    ensures SnapOk(was, r', stored')
  {
  }

  lemma RepAppend(r: Rows, deadCount: nat, stored: set<(string, Vector)>, block: Entries, m': seq<Vector>)
    requires RepOk(r, deadCount, stored) && Fresh(EntriesOf(r.d, r.m), block)
    requires |m'| == |r.m| && |r.items| + |block| <= |r.m|
    requires forall row :: 0 <= row < |r.items| ==> m'[row] == r.m[row]
    requires forall i :: 0 <= i < |block| ==> m'[|r.items| + i] == block[i].1
    ensures var names := Names(block);
      var r' := Rows(r.items + Somes(names), r.d + Numbered(names, |r.items|), m', r.mask);
      && RepOk(r', deadCount, stored + EntrySet(block)) && RowsOk(r'.items, r'.d)
      && EntriesOf(r'.d, m') == EntriesOf(r.d, r.m) + block
  {
    RepFacts(r, deadCount, stored);
    FreshRows(r.d, r.m, block);
    RowsAppend(r.items, r.d, Names(block));
    EntriesAppend(r.d, r.m, block, |r.items|, m', stored);
    hide RowsOk, Has, Distinct, Fresh, EntriesOf;
  }

  lemma EntriesAppend(d: Dict<string, nat>, m: seq<Vector>, block: Entries, size: nat, m': seq<Vector>,
                      stored: set<(string, Vector)>)
    requires InRange(d, size) && size + |block| <= |m| == |m'|
    requires forall row :: 0 <= row < size ==> m'[row] == m[row]
    requires forall i :: 0 <= i < |block| ==> m'[size + i] == block[i].1
    requires forall i :: 0 <= i < |d| ==> (d[i].0, m[d[i].1]) in stored
    ensures var d' := d + Numbered(Names(block), size);
      && InRange(d', |m|) && EntriesOf(d', m') == EntriesOf(d, m) + block
      && forall i :: 0 <= i < |d'| ==> (d'[i].0, m'[d'[i].1]) in stored + EntrySet(block)
  {
  }

  lemma FreshRows(d: Dict<string, nat>, m: seq<Vector>, block: Entries)
    requires Distinct(d) && InRange(d, |m|) && Fresh(EntriesOf(d, m), block)
    ensures forall i :: 0 <= i < |block| ==> !Has(d, Names(block)[i])
    ensures forall i, j :: 0 <= i < j < |block| ==> Names(block)[i] != Names(block)[j]
  {
    forall i | 0 <= i < |block| ensures !Has(d, Names(block)[i]) {
      SameFind(d, m, block[i].0);
    }
  }

  function Names(block: Entries): (r: seq<string>)
    ensures |r| == |block| && forall i :: 0 <= i < |r| ==> r[i] == block[i].0
  {
    seq(|block|, i requires 0 <= i < |block| => block[i].0)
  }

  ghost function EntrySet(block: Entries): set<(string, Vector)> {
    set i | 0 <= i < |block| :: block[i]
  }

  lemma EntrySetOne(e: (string, Vector))
    ensures EntrySet([e]) == {e}
  {
    assert [e][0] == e;
  }

  /** The mask with one more flag; a missing mask has none. */
  function Flagged(mask: Option<seq<bool>>, n: nat, row: nat): (r: seq<bool>)
    requires mask.Some? ==> |mask.value| == n
    ensures |r| == n && forall i :: 0 <= i < n ==> r[i] == (i == row || (mask.Some? && mask.value[i]))
  {
    seq(n, i requires 0 <= i < n => i == row || (mask.Some? && mask.value[i]))
  }

  lemma RepRemove(r: Rows, deadCount: nat, stored: set<(string, Vector)>, id: string, mask: seq<bool>)
    requires RepOk(r, deadCount, stored) && Has(r.d, id)
    requires (r.mask.Some? ==> |r.mask.value| == |r.m|) && mask == Flagged(r.mask, |r.m|, r.d[Find(r.d, id)].1)
    ensures var row := r.d[Find(r.d, id)].1;
      var r' := Rows(r.items[row := None], Del(r.d, id), r.m, Some(mask));
      && RepOk(r', deadCount + 1, stored) && RowsOk(r'.items, r'.d)
      && EntriesOf(r'.d, r.m) == Del(EntriesOf(r.d, r.m), id)
  {
    RepFacts(r, deadCount, stored);
    EntriesRemove(r.d, r.m, id, stored);
    RemoveInto(r.items, r.d, id);
    hide RowsOk;
    RowsRemove(r.items, r.d, id);
  }

  lemma RemoveInto(items: seq<Option<string>>, d: Dict<string, nat>, id: string)
    requires RowsOk(items, d) && Has(d, id)
    ensures InRange(Del(d, id), |items|)
  {
    RemoveRising(items, d, Find(d, id));
  }

  lemma EntriesRemove(d: Dict<string, nat>, m: seq<Vector>, id: string, stored: set<(string, Vector)>)
    requires Distinct(d) && InRange(d, |m|) && Has(d, id)
    requires forall i :: 0 <= i < |d| ==> (d[i].0, m[d[i].1]) in stored
    ensures var d' := Del(d, id);
      && |d'| == |d| - 1 && InRange(d', |m|)
      && (forall i :: 0 <= i < |d'| ==> (d'[i].0, m[d'[i].1]) in stored)
      && EntriesOf(d', m) == Del(EntriesOf(d, m), id)
  {
    SameFind(d, m, id);
    hide RemoveAt, Find;
    assert forall i :: 0 <= i < |EntriesOf(d, m)| ==> EntriesOf(d, m)[i] in stored;
  }

  lemma RepOverwrite(r: Rows, deadCount: nat, stored: set<(string, Vector)>, n: nat, v: Vector)
    requires RepOk(r, deadCount, stored) && n < |r.d|
    ensures var r' := r.(m := r.m[r.d[n].1 := v]);
      && RepOk(r', deadCount, stored + {(r.d[n].0, v)})
      && EntriesOf(r'.d, r'.m) == EntriesOf(r.d, r.m)[n := (r.d[n].0, v)]
  {
    assert forall i :: 0 <= i < |r.d| && i != n ==> r.d[i].1 != r.d[n].1;
  }

  lemma RepFacts(r: Rows, deadCount: nat, stored: set<(string, Vector)>)
    requires RepOk(r, deadCount, stored)
    ensures |r.items| <= |r.m| && InRange(r.d, |r.items|) && Distinct(r.d) && (deadCount == 0 <==> r.mask.None?)
    ensures r.mask.Some? ==> |r.mask.value| == |r.m|
  {
  }

  lemma RepRowsOk(r: Rows, deadCount: nat, stored: set<(string, Vector)>)
    requires RepOk(r, deadCount, stored)
    ensures RowsOk(r.items, r.d)
    ensures forall i :: 0 <= i < |r.d| ==> r.items[r.d[i].1] == Some(r.d[i].0)
  {
  }

  lemma RepGrow(r: Rows, deadCount: nat, stored: set<(string, Vector)>, m': seq<Vector>, mask': Option<seq<bool>>)
    requires RepOk(r, deadCount, stored) && |m'| > |r.m|
    requires forall row :: 0 <= row < |r.items| ==> m'[row] == r.m[row]
    requires r.mask.Some? <==> mask'.Some?
    requires mask'.Some? ==> |mask'.value| == |m'| && forall row :: 0 <= row < |m'| ==>
                               mask'.value[row] == (row < |r.m| && r.mask.value[row])
    ensures RepOk(r.(m := m', mask := mask'), deadCount, stored)
    ensures EntriesOf(r.d, m') == EntriesOf(r.d, r.m)
  {
  }

  lemma RowsNumbered(names: seq<string>)
    requires forall i, j :: 0 <= i < j < |names| ==> names[i] != names[j]
    ensures RowsOk(Somes(names), Numbered(names, 0))
  {
    RowsAppend([], [], names);
    assert [] + Somes(names) == Somes(names);
    assert [] + Numbered(names, 0) == Numbered(names, 0);
  }

  lemma RepPacked(r: Rows, deadCount: nat, stored: set<(string, Vector)>, m': seq<Vector>)
    requires RepOk(r, deadCount, stored) && |m'| >= |r.d|
    requires forall i :: 0 <= i < |r.d| ==> m'[i] == r.m[r.d[i].1]
    ensures var r' := Rows(Somes(RowNames(r.d)), Numbered(RowNames(r.d), 0), m', None);
      && RepOk(r', 0, stored)
      && EntriesOf(r'.d, m') == EntriesOf(r.d, r.m)
  {
    RowsNumbered(RowNames(r.d));
  }

  function RowNames(d: Dict<string, nat>): (r: seq<string>)
    ensures |r| == |d| && forall i :: 0 <= i < |r| ==> r[i] == d[i].0
  {
    seq(|d|, i requires 0 <= i < |d| => d[i].0)
  }

  ghost function SnapRows(s: Snapshot): Rows
    reads s.matrix, s.ids, s.pos, s.dead
  {
    Rows(s.ids.items, s.pos.d, s.matrix[..], if s.dead == null then None else Some(s.dead[..]))
  }

  ghost function ObjectsOf(s: Snapshot): set<object> {
    {s.matrix, s.ids, s.pos} + if s.dead == null then {} else {s.dead}
  }

  /** The objects of snapshots. */
  ghost function SharedBy(taken: set<Taken>): set<object> {
    (set t | t in taken :: t.snap.matrix as object) + (set t | t in taken :: t.snap.ids as object)
    + (set t | t in taken :: t.snap.pos as object)
    + (set t | t in taken && t.snap.dead != null :: t.snap.dead as object)
  }

  lemma SharedMore(taken: set<Taken>, t: Taken, objects: set<object>)
    requires ObjectsOf(t.snap) <= objects
    ensures SharedBy(taken + {t}) <= SharedBy(taken) + objects
  {
  }

  lemma InShared(taken: set<Taken>, t: Taken)
    requires t in taken
    ensures ObjectsOf(t.snap) <= SharedBy(taken)
  {
  }

  class NumpyPartition {
    const dim: nat
    var matrix: array<Vector>
    var ids: IdList
    var pos: RowMap
    var dead: array?<bool>
    var deadCount: nat
    ghost var Repr: set<object>
    /** Every (id, vector) ever stored. */
    ghost var stored: set<(string, Vector)>
    /** Every snapshot ever taken. */
    ghost var taken: set<Taken>

    ghost function Rep(): Rows
      reads this, matrix, ids, pos, dead
    {
      Rows(ids.items, pos.d, matrix[..], if dead == null then None else Some(dead[..]))
    }

    ghost predicate Valid()
      reads this, Repr
    {
      && Repr == {this, matrix, ids, pos} + (if dead == null then {} else {dead})
      && RepOk(Rep(), deadCount, stored)
    }

    ghost function Entries(): (es: Entries)
      reads this, Repr
      requires Valid()
      ensures Distinct(es)
    {
      EntriesOf(pos.d, matrix[..])
    }

    /** What a snapshot keeps promising: rows only ever go dead, never to another id, and hold a
        vector that was stored for their id. */
    ghost predicate SnapHolds(t: Taken)
      reads this, t.snap.matrix, t.snap.ids, t.snap.pos, t.snap.dead
    {
      var s := t.snap;
      && |t.was| == s.size
      && SnapOk(t.was, SnapRows(s), stored)
      && (s.ids == ids <==> s.pos == pos)
      && (s.matrix == matrix ==> s.ids == ids)
      && (s.dead != null && s.dead == dead ==> s.ids == ids)
    }

    ghost predicate SnapsHold()
      reads this, SharedBy(taken)
    {
      forall t :: t in taken ==> SnapHolds(t)
    }

    /** The objects of the partition and of its snapshots. */
    ghost function Reach(): set<object>
      reads this
    {
      Repr + SharedBy(taken)
    }

    constructor (dim: nat)
      ensures Valid() && SnapsHold() && fresh(Repr)
      ensures Entries() == [] && stored == {} && taken == {}
    {
      this.dim := dim;
      matrix := new Vector[16](_ => seq(dim, _ => 0.0));
      ids := new IdList([]);
      pos := new RowMap([]);
      dead := null;
      deadCount := 0;
      stored, taken := {}, {};
      new;
      Repr := {this, matrix, ids, pos};
    }

    /** What a search gets: references to the partition's own arrays, not copies. */
    method View() returns (s: Snapshot)
      requires Valid()
      ensures s == Snapshot(matrix, ids, pos, |ids.items|, dead) && SnapHolds(Taken(s, ids.items))
    {
      s := Snapshot(matrix, ids, pos, |ids.items|, if deadCount > 0 then dead else null);
      SnapStart(Rep(), deadCount, stored);
    }

    /** A snapshot that a search may still be using while the partition changes. */
    method TakeSnapshot() returns (s: Snapshot)
      requires Valid() && SnapsHold()
      modifies this`taken
      ensures Valid() && SnapsHold()
      ensures s == Snapshot(matrix, ids, pos, |ids.items|, dead)
      ensures taken == old(taken) + {Taken(s, ids.items)}
      ensures Entries() == old(Entries()) && Reach() <= old(Reach()) + Repr
    {
      hide SharedBy, RepOk, SnapOk, RowsOk;
      s := View();
      Remember(Taken(s, ids.items));
    }

    ghost method Remember(t: Taken)
      requires Valid() && SnapsHold() && SnapHolds(t) && ObjectsOf(t.snap) <= Repr
      modifies this`taken
      ensures Valid() && SnapsHold() && taken == old(taken) + {t}
      ensures Entries() == old(Entries()) && Reach() <= old(Reach()) + Repr
    {
      hide SharedBy, RepOk, SnapOk, RowsOk;
      SharedMore(taken, t, Repr);
      taken := taken + {t};
      forall u | u in taken ensures SnapHolds(u) {
        assert old(SnapHolds(u));
      }
    }

    /** A partition whose objects did not change is what it was. */
    twostate lemma Kept()
      requires old(Valid()) && old(SnapsHold())
      requires forall o: object :: o in old(Reach()) && old(allocated(o)) ==> unchanged(o)
      requires old(this in Repr)
      ensures Valid() && SnapsHold() && Reach() == old(Reach()) && Entries() == old(Entries())
      ensures taken == old(taken) && stored == old(stored)
    {
      hide RepOk, SnapOk;
      assert this in old(Reach());
      assert matrix in old(Reach()) && ids in old(Reach()) && pos in old(Reach());
      assert dead != null ==> dead in old(Reach());
      hide SharedBy;
      forall t | t in taken ensures SnapHolds(t) {
        InShared(taken, t);
        assert old(SnapHolds(t));
        assert t.snap.matrix in old(Reach()) && t.snap.ids in old(Reach()) && t.snap.pos in old(Reach());
        assert t.snap.dead != null ==> t.snap.dead in old(Reach());
      }
    }

    /** Snapshots hold on while nothing they share changes. */
    twostate lemma SharedUnchanged()
      requires old(SnapsHold()) && taken == old(taken) && old(stored) <= stored
      requires ids == old(ids) && pos == old(pos)
      requires forall t :: t in taken ==> unchanged(t.snap.matrix) && unchanged(t.snap.ids) && unchanged(t.snap.pos)
      requires forall t :: t in taken && t.snap.dead != null ==> unchanged(t.snap.dead)
      requires forall t :: t in taken && t.snap.matrix == matrix ==> matrix == old(matrix)
      requires forall t :: t in taken && t.snap.dead != null && t.snap.dead == dead ==> dead == old(dead)
      ensures SnapsHold()
    {
      forall t | t in taken ensures SnapHolds(t) {
        assert old(SnapHolds(t));
      }
    }

    /** Larger copies of the matrix and of the mask. */
    method Enlarged(capacity: nat) returns (grown: array<Vector>, mask: array?<bool>)
      requires |ids.items| <= matrix.Length <= capacity && (dead != null ==> dead.Length <= capacity)
      ensures fresh(grown) && grown.Length == capacity
      ensures forall row :: 0 <= row < |ids.items| ==> grown[row] == matrix[row]
      ensures mask == null <==> dead == null
      ensures mask != null ==> fresh(mask) && mask.Length == capacity && forall row :: 0 <= row < capacity ==>
                                 mask[row] == (row < dead.Length && dead[row])
    {
      var size := |ids.items|;
      grown := new Vector[capacity];
      forall row | 0 <= row < size { grown[row] := matrix[row]; }
      mask := null;
      if dead != null {
        mask := new bool[capacity];
        forall row | 0 <= row < capacity { mask[row] := row < dead.Length && dead[row]; }
      }
    }

    /** A larger copy replaces the matrix; snapshots keep the old one. */
    method Grow(needed: nat)
      requires Valid() && SnapsHold() && needed > matrix.Length
      modifies this
      ensures Valid() && SnapsHold() && fresh(Repr - old(Repr)) && fresh(matrix)
      ensures Entries() == old(Entries()) && ids == old(ids) && pos == old(pos)
      ensures taken == old(taken) && stored == old(stored) && deadCount == old(deadCount)
      ensures needed <= matrix.Length
    {
      hide RepOk, SnapOk, SnapsHold;
      RepFacts(Rep(), deadCount, stored);
      ghost var r := Rep();
      var extra := Max(needed / 8, Min(needed, 65536));
      var capacity := Max(16, needed + extra);
      var grown, mask := Enlarged(capacity);
      RepGrow(r, deadCount, stored, grown[..], if mask == null then None else Some(mask[..]));
      matrix, dead := grown, mask;
      Repr := {this, matrix, ids, pos} + (if dead == null then {} else {dead});
      SharedUnchanged();
    }

    /** Every snapshot survives a step that only adds rows, overwrites live rows with vectors of
        their own id, or kills rows; what a snapshot does not share stays as it was. */
    twostate lemma SharedStep()
      requires old(SnapsHold()) && taken == old(taken) && old(stored) <= stored
      requires ids == old(ids) && pos == old(pos) && matrix == old(matrix)
      requires RowsOk(ids.items, pos.d) && |old(ids.items)| <= |ids.items|
      requires forall row :: 0 <= row < |old(ids.items)| ==>
                 ids.items[row] == old(ids.items[row]) || ids.items[row].None?
      requires forall row :: 0 <= row < |old(ids.items)| && row < matrix.Length ==>
                 matrix[row] == old(matrix[row])
                 || (old(ids.items[row]).Some? && (old(ids.items[row]).value, matrix[row]) in stored)
      requires forall t :: t in taken && t.snap.ids != ids ==> unchanged(t.snap.ids)
      requires forall t :: t in taken && t.snap.pos != pos ==> unchanged(t.snap.pos)
      requires forall t :: t in taken && t.snap.matrix != matrix ==> unchanged(t.snap.matrix)
      requires forall t :: t in taken && t.snap.dead != null ==> t.snap.dead == dead == old(dead) || t.snap.dead != dead
      requires forall t :: t in taken && t.snap.dead != null && t.snap.dead != dead ==> unchanged(t.snap.dead)
      requires dead != null && dead == old(dead) ==> forall row :: 0 <= row < dead.Length ==>
                 dead[row] == old(dead[row]) || (dead[row] && row < |ids.items| && ids.items[row].None?)
      ensures SnapsHold()
    {
      forall t | t in taken ensures SnapHolds(t) {
        assert old(SnapHolds(t));
        SnapStep(t.was, old(SnapRows(t.snap)), SnapRows(t.snap), old(stored), stored);
      }
    }

    /** Re-adding overwrites the row in place, a new id takes the next row. */
    method Add(id: string, vector: Vector)
      requires Valid() && SnapsHold()
      modifies Repr
      ensures Valid() && SnapsHold() && fresh(Repr - old(Repr))
      ensures Entries() == Put(old(Entries()), id, vector)
      ensures taken == old(taken) && stored == old(stored) + {(id, vector)}
    {
      hide RepOk, SnapOk, RowsOk, SnapsHold;
      RepFacts(Rep(), deadCount, stored);
      SameFind(pos.d, matrix[..], id);
      var found := Find(pos.d, id);
      if found >= 0 {
        Overwrite(found, vector);
        return;
      }
      var size := |ids.items|;
      if size >= matrix.Length {
        Grow(size + 1);
      }
      AppendRows([(id, vector)]);
      EntrySetOne((id, vector));
    }

    method Overwrite(n: nat, vector: Vector)
      requires Valid() && SnapsHold() && n < |pos.d|
      modifies this, matrix
      ensures Valid() && SnapsHold() && Repr == old(Repr)
      ensures Entries() == old(Entries())[n := (old(pos.d[n].0), vector)]
      ensures taken == old(taken) && stored == old(stored) + {(old(pos.d[n].0), vector)}
    {
      hide RepOk, SnapOk, SnapsHold;
      RepFacts(Rep(), deadCount, stored);
      RepOverwrite(Rep(), deadCount, stored, n, vector);
      ghost var r := Rep();
      stored := stored + {(pos.d[n].0, vector)};
      matrix[pos.d[n].1] := vector;
      assert matrix[..] == r.m[pos.d[n].1 := vector];
      assert dead != null ==> dead[..] == old(dead[..]);
      RepRowsOk(r, deadCount, old(stored));
      SharedStep();
    }

    /** Write the block's rows after the last one, and list its ids. */
    method WriteRows(block: Entries)
      requires |ids.items| + |block| <= matrix.Length
      modifies matrix, ids, pos
      ensures ids.items == old(ids.items) + Somes(Names(block))
      ensures pos.d == old(pos.d) + Numbered(Names(block), |old(ids.items)|)
      ensures forall row :: 0 <= row < |old(ids.items)| ==> matrix[row] == old(matrix[row])
      ensures forall i :: 0 <= i < |block| ==> matrix[|old(ids.items)| + i] == block[i].1
    {
      var size := |ids.items|;
      forall i | 0 <= i < |block| { matrix[size + i] := block[i].1; }
      ids.items := ids.items + Somes(Names(block));
      pos.d := pos.d + Numbered(Names(block), size);
    }

    /** New rows at the end; snapshots do not see them. */
    method AppendRows(block: Entries)
      requires Valid() && SnapsHold() && Fresh(Entries(), block)
      requires |ids.items| + |block| <= matrix.Length
      modifies this, matrix, ids, pos
      ensures Valid() && SnapsHold() && Repr == old(Repr)
      ensures Entries() == old(Entries()) + block
      ensures taken == old(taken) && stored == old(stored) + EntrySet(block)
    {
      hide RepOk, SnapOk, RowsOk, SnapsHold, Fresh;
      RepFacts(Rep(), deadCount, stored);
      ghost var r := Rep();
      WriteRows(block);
      RepAppend(r, deadCount, stored, block, matrix[..]);
      stored := stored + EntrySet(block);
      assert dead != null ==> dead[..] == old(dead[..]);
      SharedStep();
    }

    /** Append many new ids at once; expected pre-sizes the matrix for a whole load. */
    method AddMatrix(block: Entries, expected: nat)
      requires Valid() && SnapsHold() && Fresh(Entries(), block)
      modifies Repr
      ensures Valid() && SnapsHold() && fresh(Repr - old(Repr))
      ensures Entries() == old(Entries()) + block
      ensures taken == old(taken) && stored == old(stored) + EntrySet(block)
    {
      hide RepOk, SnapOk, RowsOk, SnapsHold;
      var size := |ids.items|;
      if size + |block| > matrix.Length {
        Grow(Max(size + |block|, expected));
      }
      AppendRows(block);
    }

    /** Flag the row in the mask (a new one, if there is none), and forget its id. */
    method Flag(row: nat, rest: Dict<string, nat>)
      requires row < |ids.items| <= matrix.Length && (dead != null ==> dead.Length == matrix.Length)
      modifies this`dead, this`deadCount, ids, pos
      modifies if dead == null then {} else {dead}
      ensures ids.items == old(ids.items)[row := None] && pos.d == rest && deadCount == old(deadCount) + 1
      ensures dead != null && dead.Length == matrix.Length
      ensures Rep() == Rows(old(Rep().items)[row := None], rest, old(Rep().m), Some(dead[..]))
      ensures if old(dead) == null then fresh(dead) else dead == old(dead)
      ensures dead[..] == Flagged(old(Rep().mask), matrix.Length, row)
    {
      if dead == null {
        var mask := new bool[matrix.Length](_ => false);
        dead := mask;
      }
      dead[row] := true;
      ids.items := ids.items[row := None];
      pos.d := rest;
      deadCount := deadCount + 1;
    }

    /** The row of a removed id stays in the matrix, flagged dead; the first removal allocates the mask. */
    method Kill(id: string, n: nat) returns (ghost row: nat)
      requires Valid() && Find(pos.d, id) == n
      modifies this`dead, this`deadCount, this`Repr, ids, pos
      modifies if dead == null then {} else {dead}
      ensures Valid() && Entries() == Del(old(Entries()), id)
      ensures RowsOk(ids.items, pos.d) && row < |old(ids.items)| && ids.items == old(ids.items)[row := None]
      ensures dead != null && if old(dead) == null then fresh(dead) else dead == old(dead)
      ensures dead == old(dead) ==> forall i :: 0 <= i < dead.Length ==> dead[i] == (i == row || old(dead[i]))
    {
      hide RepOk, SnapOk, RowsOk, Flagged, Find, Del, EntriesOf, Distinct;
      RepFacts(Rep(), deadCount, stored);
      ghost var r := Rep();
      row := pos.d[n].1;
      Flag(pos.d[n].1, Del(pos.d, id));
      Repr := {this, matrix, ids, pos} + {dead};
      RepRemove(r, deadCount - 1, stored, id, dead[..]);
    }

    /** A removal kills a row, also for the snapshots that share the mask. */
    method MarkDead(id: string, n: nat)
      requires Valid() && SnapsHold() && Find(pos.d, id) == n
      modifies Repr
      ensures Valid() && SnapsHold() && fresh(Repr - old(Repr))
      ensures Entries() == Del(old(Entries()), id)
      ensures taken == old(taken) && stored == old(stored)
    {
      hide RepOk, SnapOk, RowsOk, SnapsHold, Find, Del;
      assert this in Repr && matrix in Repr && ids in Repr && pos in Repr && (dead != null ==> dead in Repr);
      ghost var row := Kill(id, n);
      SharedStep();
    }

    /** The live rows, in order, in a new matrix with room to grow. */
    method LiveRows() returns (packed: array<Vector>)
      requires Valid()
      ensures fresh(packed) && |pos.d| <= packed.Length
      ensures InRange(pos.d, matrix.Length) && forall i :: 0 <= i < |pos.d| ==> packed[i] == matrix[pos.d[i].1]
    {
      RepFacts(Rep(), deadCount, stored);
      hide RepOk, RowsOk, Distinct;
      var live := pos.d;
      var capacity := Max(16, |live| + Max(|live| / 8, Min(|live|, 65536)));
      packed := new Vector[capacity];
      forall i | 0 <= i < |live| { packed[i] := matrix[live[i].1]; }
    }

    /** Live rows move to new arrays, in order; snapshots keep the old ones. */
    method Compact()
      requires Valid() && SnapsHold()
      modifies this
      ensures Valid() && SnapsHold() && fresh(Repr - old(Repr))
      ensures Entries() == old(Entries())
      ensures taken == old(taken) && stored == old(stored)
    {
      hide RepOk, SnapOk, RowsOk, SnapsHold;
      RepFacts(Rep(), deadCount, stored);
      ghost var r := Rep();
      var live := pos.d;
      var packed := LiveRows();
      RepPacked(r, deadCount, stored, packed[..]);
      matrix := packed;
      ids := new IdList(Somes(RowNames(live)));
      pos := new RowMap(Numbered(RowNames(live), 0));
      dead := null;
      deadCount := 0;
      Repr := {this, matrix, ids, pos};
      assert Rep() == Rows(Somes(RowNames(r.d)), Numbered(RowNames(r.d), 0), packed[..], None);
      SharedReplaced();
    }

    /** Snapshots keep the arrays a compaction abandons. */
    twostate lemma SharedReplaced()
      requires old(SnapsHold()) && taken == old(taken) && old(stored) <= stored
      requires dead == null
      requires forall t :: t in taken ==> unchanged(t.snap.matrix) && unchanged(t.snap.ids) && unchanged(t.snap.pos)
      requires forall t :: t in taken && t.snap.dead != null ==> unchanged(t.snap.dead)
      requires forall t :: t in taken ==> t.snap.ids != ids && t.snap.pos != pos && t.snap.matrix != matrix
      ensures SnapsHold()
    {
      forall t | t in taken ensures SnapHolds(t) {
        assert old(SnapHolds(t));
      }
    }

    method Remove(id: string)
      requires Valid() && SnapsHold()
      modifies Repr
      ensures Valid() && SnapsHold() && fresh(Repr - old(Repr))
      ensures Entries() == Del(old(Entries()), id)
      ensures taken == old(taken) && stored == old(stored)
    {
      hide RepOk, SnapOk, RowsOk, SnapsHold;
      RepFacts(Rep(), deadCount, stored);
      SameFind(pos.d, matrix[..], id);
      var found := Find(pos.d, id);
      if found < 0 {
        return;
      }
      // Valid says a mask is always as long as the matrix, so it is only ever allocated, never extended.
      MarkDead(id, found);
      if deadCount > Max(64, |ids.items| / 4) {
        Compact();
      }
    }
  }
}
