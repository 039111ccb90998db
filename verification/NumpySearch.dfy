/** Searching a snapshot of the matrix backend while the partition may be mutated.

    top is split where another thread can come in between: choosing rows through the shared row
    map, scoring them against the shared matrix, picking candidates, and reading ids back from the
    shared id list.  What each step promises is stated against the ids at snapshot time (t.was) and
    the ever-growing set of stored vectors, so it survives any mutation before the next step. */
module NumpySearch {
  import opened Assoc
  import opened Ranking
  import opened VectorBackends
  import opened NumpyBackend

  ghost predicate Rising(rows: seq<nat>) {
    forall i, j :: 0 <= i < j < |rows| ==> rows[i] < rows[j]
  }

  /** The score is that of some vector stored for the id the row had, or marks a row to skip. */
  ghost predicate Justified(t: Taken, stored: set<(string, Vector)>, q: Vector, h: Hit) {
    h.pos < |t.was| && (h.score.Fin? && t.was[h.pos].Some? ==> Witnessed(t.was[h.pos].value, stored, q, h.score))
  }

  ghost predicate Witnessed(id: string, stored: set<(string, Vector)>, q: Vector, score: Score) {
    exists v :: (id, v) in stored && score == Fin(Dot(q, v))
  }

  ghost predicate InScope(t: Taken, scope: Option<set<string>>, row: nat) {
    row < |t.was| && (scope.Some? ==> t.was[row].Some? && t.was[row].value in scope.value)
  }

  /** A search that took snapshot s (ids t.was) and is still running. */
  ghost predicate InFlight(p: NumpyPartition, t: Taken, s: Snapshot)
    reads p, s.matrix, s.ids, s.pos, s.dead
  {
    t.snap == s && p.SnapHolds(t)
  }

  function InsertRow(row: nat, rows: seq<nat>): (r: seq<nat>)
    ensures forall x :: x in r <==> x == row || x in rows
  {
    if rows == [] || row < rows[0] then [row] + rows
    else
      assert rows == [rows[0]] + rows[1..];
      [rows[0]] + InsertRow(row, rows[1..])
  }

  lemma {:induction false} InsertRising(row: nat, rows: seq<nat>)
    requires Rising(rows) && row !in rows
    ensures Rising(InsertRow(row, rows))
  {
    if rows != [] && rows[0] <= row {
      InsertRising(row, rows[1..]);
      var rest := InsertRow(row, rows[1..]);
      forall i | 0 <= i < |rest| ensures rows[0] < rest[i] {
        assert rest[i] in rest;
      }
    }
  }

  /** The rows of the wanted ids that the snapshot shows, in row order. */
  method SelectRows(p: NumpyPartition, ghost t: Taken, s: Snapshot, ids: set<string>) returns (rows: seq<nat>)
    requires InFlight(p, t, s)
    ensures Rising(rows)
    ensures forall row :: row in rows ==> InScope(t, Some(ids), row)
    ensures forall row :: 0 <= row < s.size && s.ids.items[row].Some? && s.ids.items[row].value in ids ==> row in rows
  {
    rows := [];
    var todo := ids;
    while todo != {}
      invariant todo <= ids && Rising(rows)
      invariant forall row :: row in rows ==> InScope(t, Some(ids), row) && t.was[row].value !in todo
      invariant forall row :: 0 <= row < s.size && s.ids.items[row].Some? && s.ids.items[row].value in ids - todo
                              ==> row in rows
      decreases todo
    {
      var id :| id in todo;
      var found := Get(s.pos.d, id);
      forall row | 0 <= row < s.size && s.ids.items[row] == Some(id) ensures found == Some(row) {
        assert Mapped(s.ids.items, s.pos.d, row);
      }
      if found.Some? && found.value < s.size {
        InsertRising(found.value, rows);
        rows := InsertRow(found.value, rows);
      }
      todo := todo - {id};
    }
  }

  /** Scores of the selected rows; the dead mask plays no part here. */
  method ScoreSelected(p: NumpyPartition, ghost t: Taken, s: Snapshot, q: Vector, rows: seq<nat>)
    returns (scored: seq<Hit>)
    requires InFlight(p, t, s)
    requires forall i :: 0 <= i < |rows| ==> rows[i] < s.size
    ensures |scored| == |rows|
    ensures forall i :: 0 <= i < |rows| ==> scored[i] == Hit(Fin(Dot(q, s.matrix[rows[i]])), 0, rows[i], "")
    ensures forall h :: h in scored ==> Justified(t, p.stored, q, h)
  {
    scored := [];
    for i := 0 to |rows|
      invariant |scored| == i
      invariant forall j :: 0 <= j < i ==> scored[j] == Hit(Fin(Dot(q, s.matrix[rows[j]])), 0, rows[j], "")
      invariant forall h :: h in scored ==> Justified(t, p.stored, q, h)
    {
      scored := scored + [Hit(Fin(Dot(q, s.matrix[rows[i]])), 0, rows[i], "")];
    }
  }

  /** Scores of all rows of the snapshot; a masked row scores below every number. */
  method ScoreEvery(p: NumpyPartition, ghost t: Taken, s: Snapshot, q: Vector) returns (scored: seq<Hit>)
    requires InFlight(p, t, s)
    ensures |scored| == s.size
    ensures forall i :: 0 <= i < s.size ==>
              scored[i] == Hit(if s.dead != null && s.dead[i] then NegInf else Fin(Dot(q, s.matrix[i])), 0, i, "")
    ensures forall h :: h in scored ==> Justified(t, p.stored, q, h)
  {
    scored := [];
    for i := 0 to s.size
      invariant |scored| == i
      invariant forall j :: 0 <= j < i ==>
                  scored[j] == Hit(if s.dead != null && s.dead[j] then NegInf else Fin(Dot(q, s.matrix[j])), 0, j, "")
      invariant forall h :: h in scored ==> Justified(t, p.stored, q, h)
    {
      scored := scored + [Hit(if s.dead != null && s.dead[i] then NegInf else Fin(Dot(q, s.matrix[i])), 0, i, "")];
    }
  }

  /** Every row at or above the k-th score stays, so ties are all kept. */
  function AtOrAbove(scored: seq<Hit>, kth: Score): (r: seq<Hit>) {
    if scored == [] then []
    else
      var last := scored[|scored| - 1];
      AtOrAbove(scored[..|scored| - 1], kth) + if Above(kth, last.score) then [] else [last]
  }

  lemma {:induction false} KeptSpec(scored: seq<Hit>, kth: Score, h: Hit)
    ensures h in AtOrAbove(scored, kth) <==> h in scored && !Above(kth, h.score)
  {
    if scored != [] {
      KeptSpec(scored[..|scored| - 1], kth, h);
      assert scored == scored[..|scored| - 1] + [scored[|scored| - 1]];
    }
  }

  lemma {:induction false} KeptDistinct(scored: seq<Hit>, kth: Score)
    requires DistinctPlaces(scored)
    ensures DistinctPlaces(AtOrAbove(scored, kth))
  {
    if scored != [] {
      var rest, last := scored[..|scored| - 1], scored[|scored| - 1];
      KeptDistinct(rest, kth);
      forall h | h in AtOrAbove(rest, kth) ensures h.part != last.part || h.pos != last.pos {
        KeptSpec(rest, kth, h);
        var i := IndexIn(rest, h);
        assert scored[i] == h;
      }
    }
  }

  /** The candidates in rank order; the k-th score is found without sorting. */
  function Candidates(scored: seq<Hit>, k: nat): (ranked: seq<Hit>)
    requires k > 0
  {
    if k < |scored| then Ranked(AtOrAbove(scored, Ranked(scored)[k - 1].score)) else Ranked(scored)
  }

  /** Cutting at the k-th score loses no hit that could be among the best k. */
  lemma CandidatesEnough(scored: seq<Hit>, k: nat)
    requires k > 0 && DistinctPlaces(scored)
    ensures Sorted(Candidates(scored, k))
    ensures forall h :: h in Candidates(scored, k) ==> h in scored
    ensures forall h :: h in scored && h !in Candidates(scored, k) ==>
              |Candidates(scored, k)| >= k && forall g :: g in Candidates(scored, k) ==> Above(g.score, h.score)
  {
    RankedSorted(scored);
    if k < |scored| {
      var kth := Ranked(scored)[k - 1].score;
      var kept := AtOrAbove(scored, kth);
      KeptDistinct(scored, kth);
      RankedSorted(kept);
      AtLeastK(scored, k);
      hide Ranked, AtOrAbove;
      forall h ensures h in Ranked(kept) <==> h in scored && !Above(kth, h.score) {
        RankedElements(kept, h);
        KeptSpec(scored, kth, h);
      }
    } else {
      forall h ensures h in Ranked(scored) <==> h in scored { RankedElements(scored, h); }
    }
  }

  lemma NotBelowKth(r: seq<Hit>, k: nat, i: nat)
    requires Sorted(r) && i < k <= |r|
    ensures !Above(r[k - 1].score, r[i].score)
  {
    assert i < k - 1 ==> Before(r[i], r[k - 1]);
  }

  lemma AtLeastK(scored: seq<Hit>, k: nat)
    requires 0 < k < |scored| && Sorted(Ranked(scored))
    ensures |AtOrAbove(scored, Ranked(scored)[k - 1].score)| >= k
  {
    var r := Ranked(scored);
    var kept := AtOrAbove(scored, r[k - 1].score);
    hide Ranked, AtOrAbove;
    forall h | h in r[..k] ensures h in kept {
      var i := IndexIn(r[..k], h);
      RankedElements(scored, h);
      NotBelowKth(r, k, i);
      KeptSpec(scored, r[k - 1].score, h);
    }
    NoLongerThan(r[..k], kept);
  }

  /** The candidates whose row still has an id and was not masked, with that id. */
  function Live(items: seq<Option<string>>, ranked: seq<Hit>): (hits: seq<Hit>)
    requires forall i :: 0 <= i < |ranked| ==> ranked[i].pos < |items|
  {
    if ranked == [] then []
    else
      var last := ranked[|ranked| - 1];
      Live(items, ranked[..|ranked| - 1])
      + if last.score.Fin? && items[last.pos].Some? then [last.(id := items[last.pos].value)] else []
  }

  /** Walk the candidates best first until k are reported; rows whose id is gone are skipped. */
  method Report(s: Snapshot, ranked: seq<Hit>, k: nat) returns (hits: seq<Hit>)
    requires k > 0
    requires forall i :: 0 <= i < |ranked| ==> ranked[i].pos < |s.ids.items|
    ensures hits == FirstK(Live(s.ids.items, ranked), k)
  {
    hits := [];
    for i := 0 to |ranked|
      invariant hits == Live(s.ids.items, ranked[..i]) && |hits| < k
    {
      assert ranked[..i + 1][..i] == ranked[..i];
      if ranked[i].score.Fin? && s.ids.items[ranked[i].pos].Some? {
        hits := hits + [ranked[i].(id := s.ids.items[ranked[i].pos].value)];
        if |hits| == k {
          LivePrefix(s.ids.items, ranked, i + 1);
          return;
        }
      }
    }
    assert ranked[..|ranked|] == ranked;
  }

  function FirstK(hits: seq<Hit>, k: nat): seq<Hit> {
    if |hits| <= k then hits else hits[..k]
  }

  lemma FirstKHolds(hits: seq<Hit>, k: nat, j: nat)
    requires j < |hits| && j < k
    ensures hits[j] in FirstK(hits, k)
  {
    assert FirstK(hits, k)[j] == hits[j];
  }

  lemma {:induction false} LivePrefix(items: seq<Option<string>>, ranked: seq<Hit>, n: nat)
    requires n <= |ranked| && forall i :: 0 <= i < |ranked| ==> ranked[i].pos < |items|
    ensures Live(items, ranked[..n]) <= Live(items, ranked)
  {
    if n < |ranked| {
      LivePrefix(items, ranked[..|ranked| - 1], n);
      assert ranked[..|ranked| - 1][..n] == ranked[..n];
    } else {
      assert ranked[..n] == ranked;
    }
  }

  /** Candidates carry no id yet; their rows are inside the id list. */
  ghost predicate Nameless(items: seq<Option<string>>, ranked: seq<Hit>) {
    forall i :: 0 <= i < |ranked| ==> ranked[i].id == "" && ranked[i].pos < |items|
  }

  ghost predicate Shows(items: seq<Option<string>>, ranked: seq<Hit>, h: Hit) {
    h.(id := "") in ranked && h.pos < |items| && h.score.Fin? && items[h.pos] == Some(h.id)
  }

  /** Live reports exactly the candidates whose row still has an id and a score. */
  lemma {:induction false} LiveSpec(items: seq<Option<string>>, ranked: seq<Hit>, h: Hit)
    requires Nameless(items, ranked)
    ensures h in Live(items, ranked) <==> Shows(items, ranked, h)
  {
    if ranked != [] {
      var n := |ranked| - 1;
      LiveSpec(items, ranked[..n], h);
      assert ranked == ranked[..n] + [ranked[n]];
    }
  }

  /** ... in rank order. */
  lemma {:induction false} LiveSorted(items: seq<Option<string>>, ranked: seq<Hit>)
    requires Nameless(items, ranked) && Sorted(ranked)
    ensures Sorted(Live(items, ranked))
  {
    if ranked != [] {
      var n := |ranked| - 1;
      var live := Live(items, ranked[..n]);
      LiveSorted(items, ranked[..n]);
      forall j | 0 <= j < |live| ensures Before(live[j], ranked[n]) {
        LiveSpec(items, ranked[..n], live[j]);
        var i := IndexIn(ranked[..n], live[j].(id := ""));
        assert Before(ranked[i], ranked[n]);
      }
    }
  }

  // ----- the whole search -----

  /** The rows of a snapshot that a search may report, scored. */
  ghost function RowHits(items: seq<Option<string>>, m: seq<Vector>, size: nat, q: Vector,
                         scope: Option<set<string>>): set<Hit>
    requires size <= |items| && size <= |m|
  {
    set row | 0 <= row < size && items[row].Some? && Included(scope, items[row].value)
      :: Hit(Fin(Dot(q, m[row])), 0, row, items[row].value)
  }

  /** Candidate rows with their scores: the reportable rows, and masked ones at -inf. */
  ghost predicate ScoredRows(scored: seq<Hit>, items: seq<Option<string>>, m: seq<Vector>, size: nat, q: Vector,
                             scope: Option<set<string>>)
    requires size <= |items| && size <= |m|
  {
    && DistinctPlaces(scored)
    && (forall h :: h in scored ==> h.part == 0 && h.id == "" && h.pos < size)
    && (forall h :: h in scored && h.score.Fin? ==>
          && h.score == Fin(Dot(q, m[h.pos])) && items[h.pos].Some? && Included(scope, items[h.pos].value))
    && (forall row :: 0 <= row < size && items[row].Some? && Included(scope, items[row].value) ==>
          Hit(Fin(Dot(q, m[row])), 0, row, "") in scored)
  }

  lemma {:induction false} LiveAll(items: seq<Option<string>>, ranked: seq<Hit>)
    requires forall i :: 0 <= i < |ranked| ==>
               ranked[i].pos < |items| && ranked[i].score.Fin? && items[ranked[i].pos].Some?
    ensures |Live(items, ranked)| == |ranked|
  {
    if ranked != [] { LiveAll(items, ranked[..|ranked| - 1]); }
  }

  lemma CandidatesNameless(scored: seq<Hit>, items: seq<Option<string>>, k: nat)
    requires k > 0 && DistinctPlaces(scored) && forall h :: h in scored ==> h.id == "" && h.pos < |items|
    ensures Nameless(items, Candidates(scored, k))
  {
    CandidatesEnough(scored, k);
    var c := Candidates(scored, k);
    assert forall i :: 0 <= i < |c| ==> c[i] in c;
  }

  /** While nothing the snapshot shows is removed, the reported hits are exactly the best k rows. */
  lemma TopExact(scored: seq<Hit>, items: seq<Option<string>>, m: seq<Vector>, size: nat, q: Vector,
                 scope: Option<set<string>>, k: nat)
    requires k > 0 && size <= |items| && size <= |m| && ScoredRows(scored, items, m, size, q, scope)
    ensures Nameless(items, Candidates(scored, k))
    ensures TopOf(FirstK(Live(items, Candidates(scored, k)), k), RowHits(items, m, size, q, scope), k)
  {
    CandidatesEnough(scored, k);
    CandidatesNameless(scored, items, k);
    var c := Candidates(scored, k);
    LiveSorted(items, c);
    var live := Live(items, c);
    var hits := FirstK(live, k);
    assert Sorted(hits);
    forall h | h in hits ensures h in RowHits(items, m, size, q, scope) {
      assert h in live;
      LiveSpec(items, c, h);
      assert h.(id := "") in scored;
    }
    forall g | g in RowHits(items, m, size, q, scope) && g !in hits
      ensures |hits| == k && forall i :: 0 <= i < |hits| ==> Before(hits[i], g)
    {
      LeftOutOfTop(scored, items, m, size, q, scope, k, g);
    }
  }

  lemma LeftOutOfTop(scored: seq<Hit>, items: seq<Option<string>>, m: seq<Vector>, size: nat, q: Vector,
                     scope: Option<set<string>>, k: nat, g: Hit)
    requires k > 0 && size <= |items| && size <= |m| && ScoredRows(scored, items, m, size, q, scope)
    requires g in RowHits(items, m, size, q, scope) && Nameless(items, Candidates(scored, k))
    requires g !in FirstK(Live(items, Candidates(scored, k)), k)
    ensures var hits := FirstK(Live(items, Candidates(scored, k)), k);
      |hits| == k && forall i :: 0 <= i < |hits| ==> Before(hits[i], g)
  {
    CandidatesEnough(scored, k);
    var c := Candidates(scored, k);
    var live := Live(items, c);
    assert g.(id := "") in scored;
    if g.(id := "") in c {
      LiveSorted(items, c);
      LiveSpec(items, c, g);
      var j := IndexIn(live, g);
      if j < k { FirstKHolds(live, k, j); }
    } else {
      assert forall i :: 0 <= i < |c| ==> c[i] in c && c[i] in scored;
      LiveAll(items, c);
      forall i | 0 <= i < |live| ensures Before(live[i], g) {
        LiveSpec(items, c, live[i]);
      }
    }
  }

  /** No row the snapshot shows has been removed since it was taken. */
  ghost predicate Quiet(t: Taken, s: Snapshot)
    reads s.ids
  {
    |t.was| <= |s.ids.items| && forall row :: 0 <= row < |t.was| ==> s.ids.items[row] == t.was[row]
  }

  /** Every id had one row at most. */
  ghost predicate OneRowPerId(was: seq<Option<string>>) {
    forall i, j :: 0 <= i < j < |was| && was[i].Some? ==> was[i] != was[j]
  }

  /** No row and no id is reported twice. */
  ghost predicate OnceEach(hits: seq<Hit>) {
    forall i, j :: 0 <= i < j < |hits| ==> hits[i].pos != hits[j].pos && hits[i].id != hits[j].id
  }

  /** What a reported hit carries, whatever ran between the steps of the search: its row belonged to
      this id when the snapshot was taken, the id is in scope, and the score is that of a vector stored
      for this very id. */
  ghost predicate Honest(t: Taken, stored: set<(string, Vector)>, q: Vector, scope: Option<set<string>>, h: Hit) {
    && h.part == 0 && h.pos < |t.was| && t.was[h.pos] == Some(h.id)
    && Included(scope, h.id) && Witnessed(h.id, stored, q, h.score)
  }

  ghost predicate Safe(t: Taken, stored: set<(string, Vector)>, q: Vector, k: nat, scope: Option<set<string>>,
                       hits: seq<Hit>)
  {
    Sorted(hits) && |hits| <= k && OnceEach(hits) && forall h :: h in hits ==> Honest(t, stored, q, scope, h)
  }

  ghost predicate Fading(t: Taken, items: seq<Option<string>>) {
    |t.was| <= |items| && forall row :: 0 <= row < |t.was| ==> items[row] == t.was[row] || items[row].None?
  }

  ghost predicate Chosen(t: Taken, stored: set<(string, Vector)>, q: Vector, scope: Option<set<string>>,
                         scored: seq<Hit>) {
    DistinctPlaces(scored)
    && forall h :: h in scored ==> h.part == 0 && h.id == "" && InScope(t, scope, h.pos) && Justified(t, stored, q, h)
  }

  lemma CandidatesDistinct(scored: seq<Hit>, k: nat)
    requires k > 0 && DistinctPlaces(scored)
    ensures DistinctPlaces(Candidates(scored, k))
  {
    if k < |scored| {
      var kth := Ranked(scored)[k - 1].score;
      KeptDistinct(scored, kth);
      RankedDistinct(AtOrAbove(scored, kth));
    } else {
      RankedDistinct(scored);
    }
  }

  /** After i candidates: the hits are some of them, in rank order, each with the id its row had. */
  ghost predicate Reported(t: Taken, ranked: seq<Hit>, i: nat, hits: seq<Hit>) {
    && i <= |ranked|
    && Sorted(hits) && DistinctPlaces(hits)
    && forall h :: h in hits ==> h.score.Fin? && h.pos < |t.was| && t.was[h.pos] == Some(h.id) && Seen(ranked, i, h)
  }

  ghost predicate Seen(ranked: seq<Hit>, i: nat, h: Hit) {
    exists j :: 0 <= j < i && j < |ranked| && ranked[j] == h.(id := "")
  }

  lemma SkipOne(t: Taken, ranked: seq<Hit>, i: nat, hits: seq<Hit>)
    requires Reported(t, ranked, i, hits) && i < |ranked|
    ensures Reported(t, ranked, i + 1, hits)
  {
    forall h | h in hits ensures Seen(ranked, i + 1, h) {
      assert Seen(ranked, i, h);
    }
  }

  lemma ReportOne(t: Taken, ranked: seq<Hit>, i: nat, hits: seq<Hit>, id: string)
    requires Reported(t, ranked, i, hits) && i < |ranked| && Sorted(ranked) && DistinctPlaces(ranked)
    requires ranked[i].id == "" && ranked[i].score.Fin? && ranked[i].pos < |t.was| && t.was[ranked[i].pos] == Some(id)
    ensures Reported(t, ranked, i + 1, hits + [ranked[i].(id := id)])
  {
    SkipOne(t, ranked, i, hits);
    forall m | 0 <= m < |hits|
      ensures Before(hits[m], ranked[i]) && (hits[m].part != ranked[i].part || hits[m].pos != ranked[i].pos)
    {
      assert hits[m] in hits;
      assert Seen(ranked, i, hits[m]);
    }
    assert ranked[i] == ranked[i].(id := id).(id := "");
    assert Seen(ranked, i + 1, ranked[i].(id := id));
  }

  /** Hits of chosen candidates are safe. */
  lemma ReportedSafe(t: Taken, stored: set<(string, Vector)>, q: Vector, k: nat, scope: Option<set<string>>,
                     scored: seq<Hit>, i: nat, hits: seq<Hit>)
    requires k > 0 && OneRowPerId(t.was) && Chosen(t, stored, q, scope, scored) && |hits| <= k
    requires Reported(t, Candidates(scored, k), i, hits)
    ensures Safe(t, stored, q, k, scope, hits)
  {
    CandidatesEnough(scored, k);
    var c := Candidates(scored, k);
    hide Candidates, Sorted;
    forall h | h in hits ensures h.part == 0 && Honest(t, stored, q, scope, h) {
      assert Seen(c, i, h);
      assert h.(id := "") in c;
      assert Justified(t, stored, q, h.(id := ""));
    }
    forall m, n | 0 <= m < n < |hits| ensures hits[m].pos != hits[n].pos && hits[m].id != hits[n].id {
      assert hits[m] in hits && hits[n] in hits;
    }
  }

  lemma {:induction false} LiveReported(t: Taken, items: seq<Option<string>>, ranked: seq<Hit>, i: nat)
    requires Fading(t, items) && Nameless(items, ranked) && Sorted(ranked) && DistinctPlaces(ranked) && i <= |ranked|
    requires forall j :: 0 <= j < |ranked| ==> ranked[j].pos < |t.was|
    ensures Reported(t, ranked, i, Live(items, ranked[..i]))
  {
    if i > 0 {
      LiveReported(t, items, ranked, i - 1);
      assert ranked[..i][..i - 1] == ranked[..i - 1];
      var live, last := Live(items, ranked[..i - 1]), ranked[i - 1];
      if last.score.Fin? && items[last.pos].Some? {
        ReportOne(t, ranked, i - 1, live, items[last.pos].value);
      } else {
        SkipOne(t, ranked, i - 1, live);
      }
    }
  }

  lemma FirstReported(t: Taken, ranked: seq<Hit>, i: nat, hits: seq<Hit>, k: nat)
    requires Reported(t, ranked, i, hits)
    ensures Reported(t, ranked, i, FirstK(hits, k))
  {
  }

  lemma ReportSafe(t: Taken, items: seq<Option<string>>, stored: set<(string, Vector)>, q: Vector, k: nat,
                   scope: Option<set<string>>, scored: seq<Hit>)
    requires k > 0 && OneRowPerId(t.was) && Fading(t, items) && Chosen(t, stored, q, scope, scored)
    ensures Nameless(items, Candidates(scored, k))
    ensures Safe(t, stored, q, k, scope, FirstK(Live(items, Candidates(scored, k)), k))
  {
    CandidatesEnough(scored, k);
    CandidatesNameless(scored, items, k);
    CandidatesDistinct(scored, k);
    var c := Candidates(scored, k);
    hide Candidates;
    assert forall j :: 0 <= j < |c| ==> c[j] in c;
    LiveReported(t, items, c, |c|);
    assert c[..|c|] == c;
    FirstReported(t, c, |c|, Live(items, c), k);
    ReportedSafe(t, stored, q, k, scope, scored, |c|, FirstK(Live(items, c), k));
  }

  lemma FlightFacts(p: NumpyPartition, t: Taken, s: Snapshot)
    requires InFlight(p, t, s)
    ensures Fading(t, s.ids.items) && s.size == |t.was| && s.size <= s.matrix.Length
    ensures s.dead != null ==> s.dead.Length >= s.size
    ensures s.dead != null && Quiet(t, s) ==> forall row :: 0 <= row < s.size ==> (s.dead[row] <==> t.was[row].None?)
    ensures s.dead == null && Quiet(t, s) ==> forall row :: 0 <= row < s.size ==> s.ids.items[row].Some?
  {
  }

  /** All rows scored, those without an id masked. */
  lemma EveryScored(scored: seq<Hit>, items: seq<Option<string>>, m: seq<Vector>, size: nat, q: Vector,
                    masked: seq<bool>)
    requires size <= |items| && size <= |m| && |scored| == |masked| == size
    requires forall i :: 0 <= i < size ==> scored[i] == Hit(if masked[i] then NegInf else Fin(Dot(q, m[i])), 0, i, "")
    requires forall i :: 0 <= i < size ==> (masked[i] <==> items[i].None?)
    ensures ScoredRows(scored, items, m, size, q, None)
  {
    hide Dot;
    forall row | 0 <= row < size && items[row].Some? ensures Hit(Fin(Dot(q, m[row])), 0, row, "") in scored {
      assert scored[row] in scored;
    }
  }

  /** The chosen rows scored: they are the rows in scope. */
  lemma SelectedScored(scored: seq<Hit>, items: seq<Option<string>>, m: seq<Vector>, size: nat, q: Vector,
                       ids: set<string>, rows: seq<nat>)
    requires size <= |items| && size <= |m| && |scored| == |rows| && Rising(rows)
    requires forall i :: 0 <= i < |rows| ==> rows[i] < size && scored[i] == Hit(Fin(Dot(q, m[rows[i]])), 0, rows[i], "")
    requires forall i :: 0 <= i < |rows| ==> items[rows[i]].Some? && items[rows[i]].value in ids
    requires forall row :: 0 <= row < size && items[row].Some? && items[row].value in ids ==> row in rows
    ensures ScoredRows(scored, items, m, size, q, Some(ids))
  {
    hide Dot;
    forall row | 0 <= row < size && items[row].Some? && items[row].value in ids
      ensures Hit(Fin(Dot(q, m[row])), 0, row, "") in scored
    {
      var i :| 0 <= i < |rows| && rows[i] == row;
      assert scored[i] in scored;
    }
  }

  ghost function MaskOf(s: Snapshot): (masked: seq<bool>)
    requires s.dead != null ==> s.size <= s.dead.Length
    reads s.dead
    ensures |masked| == s.size && forall i :: 0 <= i < s.size ==> (masked[i] <==> s.dead != null && s.dead[i])
  {
    seq(s.size, i requires 0 <= i < s.size reads s.dead => s.dead != null && i < s.dead.Length && s.dead[i])
  }

  lemma SelectedQuiet(p: NumpyPartition, t: Taken, s: Snapshot, ids: set<string>, rows: seq<nat>)
    requires InFlight(p, t, s) && Quiet(t, s) && forall row :: row in rows ==> InScope(t, Some(ids), row)
    ensures s.size <= |s.ids.items|
    ensures forall i :: 0 <= i < |rows| ==>
              rows[i] < s.size && s.ids.items[rows[i]].Some? && s.ids.items[rows[i]].value in ids
  {
    assert forall i :: 0 <= i < |rows| ==> rows[i] in rows;
  }

  /** Choose and score the rows. */
  method ScoreRows(p: NumpyPartition, ghost t: Taken, s: Snapshot, q: Vector, scope: Option<set<string>>)
    returns (scored: seq<Hit>)
    requires InFlight(p, t, s)
    ensures Chosen(t, p.stored, q, scope, scored)
    ensures s.size <= |s.ids.items| && s.size <= s.matrix.Length
    ensures Quiet(t, s) ==> ScoredRows(scored, s.ids.items, s.matrix[..], s.size, q, scope)
  {
    FlightFacts(p, t, s);
    hide InFlight, ScoredRows, Justified, Rising, Quiet, Dot;
    scored := [];
    if scope.None? {
      scored := ScoreEvery(p, t, s, q);
      if Quiet(t, s) { EveryScored(scored, s.ids.items, s.matrix[..], s.size, q, MaskOf(s)); }
      ChosenEvery(t, p.stored, q, scored);
    } else {
      var rows := SelectRows(p, t, s, scope.value);
      RowsInside(t, scope.value, rows);
      scored := ScoreSelected(p, t, s, q, rows);
      if Quiet(t, s) {
        SelectedQuiet(p, t, s, scope.value, rows);
        SelectedScored(scored, s.ids.items, s.matrix[..], s.size, q, scope.value, rows);
      }
      ChosenSelected(t, p.stored, q, scope.value, rows, scored);
    }
  }

  lemma ChosenEvery(t: Taken, stored: set<(string, Vector)>, q: Vector, scored: seq<Hit>)
    requires |scored| <= |t.was|
    requires forall i :: 0 <= i < |scored| ==> scored[i].part == 0 && scored[i].id == "" && scored[i].pos == i
    requires forall h :: h in scored ==> Justified(t, stored, q, h)
    ensures Chosen(t, stored, q, None, scored)
  {
  }

  lemma RowsInside(t: Taken, scope: set<string>, rows: seq<nat>)
    requires forall row :: row in rows ==> InScope(t, Some(scope), row)
    ensures forall i :: 0 <= i < |rows| ==> rows[i] < |t.was|
  {
    assert forall i :: 0 <= i < |rows| ==> rows[i] in rows;
  }

  lemma ChosenSelected(t: Taken, stored: set<(string, Vector)>, q: Vector, scope: set<string>, rows: seq<nat>,
                       scored: seq<Hit>)
    requires Rising(rows) && forall row :: row in rows ==> InScope(t, Some(scope), row)
    requires |scored| == |rows|
    requires forall i :: 0 <= i < |scored| ==> scored[i].part == 0 && scored[i].id == "" && scored[i].pos == rows[i]
    requires forall h :: h in scored ==> Justified(t, stored, q, h)
    ensures Chosen(t, stored, q, Some(scope), scored)
  {
    forall i | 0 <= i < |scored| ensures InScope(t, Some(scope), scored[i].pos) {
      assert rows[i] in rows;
    }
  }

  /** _NumpyPartition.top, run without interference. */
  method Top(p: NumpyPartition, ghost t: Taken, s: Snapshot, q: Vector, k: nat, scope: Option<set<string>>)
    returns (hits: seq<Hit>)
    requires InFlight(p, t, s) && OneRowPerId(t.was) && k > 0
    ensures Safe(t, p.stored, q, k, scope, hits)
    ensures s.size <= |s.ids.items| && s.size <= s.matrix.Length
    ensures Quiet(t, s) ==> TopOf(hits, RowHits(s.ids.items, s.matrix[..], s.size, q, scope), k)
  {
    FlightFacts(p, t, s);
    var scored := ScoreRows(p, t, s, q, scope);
    ReportSafe(t, s.ids.items, p.stored, q, k, scope, scored);
    hits := Report(s, Candidates(scored, k), k);
    if Quiet(t, s) {
      TopExact(scored, s.ids.items, s.matrix[..], s.size, q, scope, k);
    }
  }
}
