/** Searches that race with mutations.

    A search scores its snapshots without a lock.  Here other threads get a turn, any list of operations on
    the partition or calls of its index, before every single access the search makes to what it shares with
    them: each look-up in a row map, each row scored, each mask bit, each id and each content read. */
module SearchRaces {
  import opened Assoc
  import opened Ranking
  import opened VectorBackends
  import opened NumpyBackend
  import opened NumpySearch
  import opened SearchSpec
  import opened BackendRuns
  import opened IndexSpec
  import opened VectorIndexes

  // ----- the other threads' turns -----

  /** Who else can get at a partition: callers of its own operations, or of the index it belongs to. */
  datatype World = Alone(rows: NumpyPartition) | Within(index: VectorIndex)

  datatype Call =
    | Adds(id: string, embedding: Vector, text: string, agent: Agent)
    | AddsMany(ids: seq<string>, embeddings: seq<Vector>, agent: Agent, expected: nat)
    | Removes(id: string)
    | Clears(agent: Agent)

  datatype Turns = OnPartition(ops: seq<seq<Op>>) | OnIndex(calls: seq<seq<Call>>)
  {
    predicate Over() { if OnPartition? then ops == [] else calls == [] }

    function Length(): nat { if OnPartition? then |ops| else |calls| }
  }

  ghost predicate AllowedTurns(es: Entries, turns: seq<seq<Op>>)
    decreases |turns|
  {
    turns != [] ==> AllAllowed(es, turns[0]) && AllowedTurns(Run(es, turns[0]), turns[1..])
  }

  function AfterTurns(es: Entries, turns: seq<seq<Op>>): Entries
    decreases |turns|
  {
    if turns == [] then es else AfterTurns(Run(es, turns[0]), turns[1..])
  }

  ghost function Objects(w: World): set<object>
    reads match w case Alone(rows) => {rows as object} case Within(index) => {index}
  {
    match w
    case Alone(rows) => rows.Repr
    case Within(index) => index.Repr
  }

  /** Where it leads: the entries a partition of its own ends up with, and the searches of the index that stay
      under way. */
  datatype Goal = Goal(end: Entries, flights: set<Flight>)

  /** The search that took t is under way, and so is everything else. */
  ghost predicate Going(w: World, p: NumpyPartition, t: Taken, goal: Goal, rest: Turns)
    reads match w case Alone(rows) => {rows as object} case Within(index) => {index}
    reads Objects(w)
    reads match w case Alone(rows) => SharedBy(rows.taken) case Within(index) => {}
  {
    match w
    case Alone(rows) =>
      && rows == p && rows.Valid() && rows.SnapsHold() && t in rows.taken && rest.OnPartition?
      && AllowedTurns(rows.Entries(), rest.ops) && AfterTurns(rows.Entries(), rest.ops) == goal.end
    case Within(index) =>
      && index.Valid() && rest.OnIndex? && goal.flights <= index.flights
      && Watched(goal.flights, p, t)
  }

  ghost predicate Watched(flights: set<Flight>, p: NumpyPartition, t: Taken) {
    exists f :: f in flights && f.rows == p && f.t == t
  }

  lemma MoreWatched(flights: set<Flight>, more: set<Flight>, p: NumpyPartition, t: Taken)
    requires Watched(flights, p, t) && flights <= more
    ensures Watched(more, p, t)
  {
  }

  /** Calls of the index, one after the other. */
  method RunCalls(index: VectorIndex, calls: seq<Call>)
    requires index.Valid()
    modifies index.Repr
    ensures index.Valid() && fresh(index.Repr - old(index.Repr)) && index.flights == old(index.flights)
    decreases |calls|
  {
    hide VectorIndex.Valid;
    if calls != [] {
      var r: Status;
      match calls[0] {
        case Adds(id, embedding, text, agent) => r := index.Add(id, embedding, text, agent);
        case AddsMany(ids, embeddings, agent, expected) =>
          r := index.AddMany(ids, embeddings, agent, expected, false);
        case Removes(id) => index.Remove(id);
        case Clears(agent) => index.Clear(agent);
      }
      RunCalls(index, calls[1..]);
    }
  }

  /** Other threads run. */
  method Others(w: World, p: NumpyPartition, ghost t: Taken, ghost goal: Goal, turns: Turns) returns (rest: Turns)
    requires Going(w, p, t, goal, turns)
    modifies Objects(w)
    ensures Going(w, p, t, goal, rest) && fresh(Objects(w) - old(Objects(w))) && old(p.stored) <= p.stored
    ensures !turns.Over() ==> rest.Length() < turns.Length()
    ensures turns.Over() ==> rest.Over()
  {
    hide VectorIndex.Valid, Watched, NumpyPartition.Valid, NumpyPartition.SnapsHold, AllowedTurns, AfterTurns;
    match w {
      case Alone(rows) =>
        rest := OthersAlone(p, t, goal, turns);
      case Within(index) =>
        rest := OthersWithin(index, p, t, goal, turns);
    }
  }

  method OthersWithin(index: VectorIndex, p: NumpyPartition, ghost t: Taken, ghost goal: Goal, turns: Turns)
    returns (rest: Turns)
    requires Going(Within(index), p, t, goal, turns)
    modifies index.Repr
    ensures Going(Within(index), p, t, goal, rest) && fresh(index.Repr - old(index.Repr)) && old(p.stored) <= p.stored
    ensures !turns.Over() ==> rest.Length() < turns.Length()
    ensures turns.Over() ==> rest.Over()
  {
    hide VectorIndex.Valid, Watched;
    rest := turns;
    if turns.calls != [] {
      MoreWatched(goal.flights, index.flights, p, t);
      OthersCall(index, p, t, turns.calls[0]);
      rest := OnIndex(turns.calls[1..]);
    }
  }

  method OthersAlone(p: NumpyPartition, ghost t: Taken, ghost goal: Goal, turns: Turns) returns (rest: Turns)
    requires Going(Alone(p), p, t, goal, turns)
    modifies p.Repr
    ensures Going(Alone(p), p, t, goal, rest) && fresh(p.Repr - old(p.Repr)) && old(p.stored) <= p.stored
    ensures !turns.Over() ==> rest.Length() < turns.Length()
    ensures turns.Over() ==> rest.Over()
  {
    hide RepOk, SnapOk, RowsOk;
    rest := turns;
    if turns.ops != [] {
      RunNumpy(p, turns.ops[0]);
      rest := OnPartition(turns.ops[1..]);
    }
  }

  /** Other threads call the index; what was stored in a partition under search stays noted. */
  method OthersCall(index: VectorIndex, p: NumpyPartition, ghost t: Taken, calls: seq<Call>)
    requires index.Valid() && Watched(index.flights, p, t)
    modifies index.Repr
    ensures index.Valid() && fresh(index.Repr - old(index.Repr)) && old(index.flights) <= index.flights
    ensures old(p.stored) <= p.stored
  {
    hide *;
    OfItself(index);
    ghost var f := Noticed(index, p, t);
    RunCalls(index, calls);
    StillStored(index, f);
  }

  lemma OfItself(index: VectorIndex)
    requires index.Valid()
    ensures index in index.Repr
  {
  }

  /** What the partition stores now is noted. */
  ghost method Noticed(index: VectorIndex, p: NumpyPartition, t: Taken) returns (f: Flight)
    requires index.Valid() && Watched(index.flights, p, t)
    modifies index`flights
    ensures index.Valid() && index in index.Repr && f == Flight(p, t, p.stored)
    ensures index.flights == old(index.flights) + {f}
  {
    hide VectorIndex.Valid, Watched;
    InFlights(index, p, t);
    f := Flight(p, t, p.stored);
    index.Watch(p, t);
  }

  lemma InFlights(index: VectorIndex, p: NumpyPartition, t: Taken)
    requires index.Valid() && Watched(index.flights, p, t)
    ensures index in index.Repr && p in index.all && t in p.taken && p.SnapsHold()
  {
    hide AllTracked;
    var f :| f in index.flights && f.rows == p && f.t == t;
    InAll(index.all, index.Objects(), p);
  }

  lemma InAll(all: set<NumpyPartition>, objects: set<object>, p: NumpyPartition)
    requires AllTracked(all, objects) && p in all
    ensures Tracked(p, objects)
  {
  }

  lemma StillStored(index: VectorIndex, f: Flight)
    requires index.Valid() && f in index.flights
    ensures f.seen <= f.rows.stored
  {
    hide AllTracked;
  }

  /** All the turns that are left. */
  method Finish(w: World, p: NumpyPartition, ghost t: Taken, ghost goal: Goal, turns: Turns) returns (rest: Turns)
    requires Going(w, p, t, goal, turns)
    modifies Objects(w)
    ensures Going(w, p, t, goal, rest) && rest.Over()
    ensures fresh(Objects(w) - old(Objects(w))) && old(p.stored) <= p.stored
    decreases turns.Length()
  {
    hide Going;
    rest := turns;
    if !turns.Over() {
      rest := Others(w, p, t, goal, turns);
      rest := Finish(w, p, t, goal, rest);
    }
  }

  // ----- single accesses to what a snapshot shares -----

  lemma StillInFlight(w: World, p: NumpyPartition, t: Taken, goal: Goal, rest: Turns)
    requires Going(w, p, t, goal, rest)
    ensures InFlight(p, t, t.snap)
  {
  }

  method LookUp(w: World, p: NumpyPartition, ghost t: Taken, ghost goal: Goal, ghost rest: Turns, s: Snapshot,
                id: string) returns (row: Option<nat>)
    requires Going(w, p, t, goal, rest) && t.snap == s
    ensures Going(w, p, t, goal, rest)
    ensures row.Some? && row.value < s.size ==> row.value < |t.was| && t.was[row.value] == Some(id)
  {
    StillInFlight(w, p, t, goal, rest);
    row := Get(s.pos.d, id);
  }

  method ScoreRow(w: World, p: NumpyPartition, ghost t: Taken, ghost goal: Goal, ghost rest: Turns, s: Snapshot,
                  q: Vector, row: nat) returns (hit: Hit)
    requires Going(w, p, t, goal, rest) && t.snap == s && row < |t.was|
    ensures Going(w, p, t, goal, rest)
    ensures hit.part == 0 && hit.id == "" && hit.pos == row && hit.score.Fin? && Justified(t, p.stored, q, hit)
  {
    StillInFlight(w, p, t, goal, rest);
    hit := Hit(Fin(Dot(q, s.matrix[row])), 0, row, "");
  }

  method Masked(w: World, p: NumpyPartition, ghost t: Taken, ghost goal: Goal, ghost rest: Turns, s: Snapshot, row: nat)
      returns (dead: bool)
    requires Going(w, p, t, goal, rest) && t.snap == s && row < |t.was|
    ensures Going(w, p, t, goal, rest)
    ensures !dead ==> s.dead == null || t.was[row].Some?
  {
    StillInFlight(w, p, t, goal, rest);
    dead := s.dead != null && s.dead[row];
  }

  method NameOf(w: World, p: NumpyPartition, ghost t: Taken, ghost goal: Goal, ghost rest: Turns, s: Snapshot, row: nat)
      returns (id: Option<string>)
    requires Going(w, p, t, goal, rest) && t.snap == s && row < |t.was|
    ensures Going(w, p, t, goal, rest)
    ensures id.Some? ==> id == t.was[row]
  {
    StillInFlight(w, p, t, goal, rest);
    id := s.ids.items[row];
  }

  // ----- the search, with turns in between -----

  /** Choose the rows of the wanted ids. */
  method SelectDuring(w: World, p: NumpyPartition, ghost t: Taken, ghost goal: Goal, s: Snapshot, ids: set<string>,
                      turns: Turns)
    returns (rows: seq<nat>, rest: Turns)
    requires Going(w, p, t, goal, turns) && t.snap == s
    modifies Objects(w)
    ensures Going(w, p, t, goal, rest) && fresh(Objects(w) - old(Objects(w))) && old(p.stored) <= p.stored
    ensures Rising(rows) && forall row :: row in rows ==> InScope(t, Some(ids), row)
  {
    hide Going, RepOk, SnapOk, RowsOk, Rising;
    rows, rest := [], turns;
    NoRows();
    var todo := ids;
    while todo != {}
      invariant Going(w, p, t, goal, rest) && fresh(Objects(w) - old(Objects(w))) && old(p.stored) <= p.stored
      invariant todo <= ids && Rising(rows)
      invariant forall row :: row in rows ==> InScope(t, Some(ids), row) && t.was[row].value !in todo
      decreases todo
    {
      var id :| id in todo;
      var found := LookUp(w, p, t, goal, rest, s, id);
      if found.Some? && found.value < s.size {
        InsertRising(found.value, rows);
        rows := InsertRow(found.value, rows);
      }
      todo := todo - {id};
      rest := Others(w, p, t, goal, rest);
    }
  }

  lemma NoRows()
    ensures Rising([])
  {
  }

  /** The first n chosen rows are scored. */
  ghost predicate ScoredAt(t: Taken, stored: set<(string, Vector)>, q: Vector, rows: seq<nat>, n: nat,
                           scored: seq<Hit>) {
    && |scored| == n <= |rows|
    && forall i :: 0 <= i < n ==> scored[i].part == 0 && scored[i].id == "" && scored[i].pos == rows[i]
                                  && Justified(t, stored, q, scored[i])
  }

  /** Scores stay justified: vectors are only ever added to those stored. */
  lemma ScoredLater(t: Taken, stored: set<(string, Vector)>, stored': set<(string, Vector)>, q: Vector,
                    rows: seq<nat>, n: nat, scored: seq<Hit>)
    requires stored <= stored' && ScoredAt(t, stored, q, rows, n, scored)
    ensures ScoredAt(t, stored', q, rows, n, scored)
  {
    forall i | 0 <= i < n ensures Justified(t, stored', q, scored[i]) {
      var h := scored[i];
      if h.score.Fin? && t.was[h.pos].Some? {
        assert Witnessed(t.was[h.pos].value, stored, q, h.score);
      }
    }
  }

  lemma ChosenRows(t: Taken, stored: set<(string, Vector)>, q: Vector, scope: Option<set<string>>, rows: seq<nat>,
                   scored: seq<Hit>)
    requires Rising(rows) && forall row :: row in rows ==> InScope(t, scope, row)
    requires ScoredAt(t, stored, q, rows, |rows|, scored)
    ensures Chosen(t, stored, q, scope, scored)
  {
    forall i | 0 <= i < |scored| ensures InScope(t, scope, scored[i].pos) {
      assert rows[i] in rows;
    }
  }

  method ScoreDuring(w: World, p: NumpyPartition, ghost t: Taken, ghost goal: Goal, s: Snapshot, q: Vector,
                     rows: seq<nat>, turns: Turns)
    returns (scored: seq<Hit>, rest: Turns)
    requires Going(w, p, t, goal, turns) && t.snap == s
    requires forall row :: row in rows ==> row < |t.was|
    modifies Objects(w)
    ensures Going(w, p, t, goal, rest) && fresh(Objects(w) - old(Objects(w))) && old(p.stored) <= p.stored
    ensures ScoredAt(t, p.stored, q, rows, |rows|, scored)
  {
    hide Going, RepOk, SnapOk, RowsOk, Justified;
    scored, rest := [], turns;
    for i := 0 to |rows|
      invariant Going(w, p, t, goal, rest) && fresh(Objects(w) - old(Objects(w))) && old(p.stored) <= p.stored
      invariant ScoredAt(t, p.stored, q, rows, i, scored)
    {
      assert rows[i] in rows;
      var hit := ScoreRow(w, p, t, goal, rest, s, q, rows[i]);
      scored := scored + [hit];
      ghost var before := p.stored;
      rest := Others(w, p, t, goal, rest);
      ScoredLater(t, before, p.stored, q, rows, i + 1, scored);
    }
  }

  /** Give the masked rows the lowest score. */
  method MaskDuring(w: World, p: NumpyPartition, ghost t: Taken, ghost goal: Goal, s: Snapshot, q: Vector,
                    rows: seq<nat>, unmasked: seq<Hit>, turns: Turns)
    returns (scored: seq<Hit>, rest: Turns)
    requires Going(w, p, t, goal, turns) && t.snap == s
    requires ScoredAt(t, p.stored, q, rows, |rows|, unmasked)
    modifies Objects(w)
    ensures Going(w, p, t, goal, rest) && fresh(Objects(w) - old(Objects(w))) && old(p.stored) <= p.stored
    ensures ScoredAt(t, p.stored, q, rows, |rows|, scored)
  {
    hide Going, RepOk, SnapOk, RowsOk, Witnessed;
    scored, rest := unmasked, turns;
    for i := 0 to |rows|
      invariant Going(w, p, t, goal, rest) && fresh(Objects(w) - old(Objects(w))) && old(p.stored) <= p.stored
      invariant ScoredAt(t, p.stored, q, rows, |rows|, scored)
    {
      var dead := Masked(w, p, t, goal, rest, s, rows[i]);
      if dead {
        scored := scored[i := scored[i].(score := NegInf)];
      }
      ghost var before := p.stored;
      rest := Others(w, p, t, goal, rest);
      ScoredLater(t, before, p.stored, q, rows, |rows|, scored);
    }
  }

  ghost predicate Unnamed(t: Taken, ranked: seq<Hit>) {
    forall i :: 0 <= i < |ranked| ==> ranked[i].pos < |t.was| && ranked[i].id == ""
  }

  /** Walk the candidates, reading each row's id as it is now. */
  method ReportDuring(w: World, p: NumpyPartition, ghost t: Taken, ghost goal: Goal, s: Snapshot, ranked: seq<Hit>,
                      k: nat, turns: Turns)
    returns (hits: seq<Hit>, rest: Turns, n: nat)
    requires Going(w, p, t, goal, turns) && t.snap == s
    requires k > 0 && Sorted(ranked) && DistinctPlaces(ranked)
    requires Unnamed(t, ranked)
    modifies Objects(w)
    ensures Going(w, p, t, goal, rest) && fresh(Objects(w) - old(Objects(w))) && old(p.stored) <= p.stored
    ensures Reported(t, ranked, n, hits) && |hits| <= k
  {
    hide Going, RepOk, SnapOk, RowsOk, Reported, Sorted, DistinctPlaces;
    hits, rest, n := [], turns, 0;
    NothingReported(t, ranked);
    while n < |ranked| && |hits| < k
      invariant Going(w, p, t, goal, rest) && fresh(Objects(w) - old(Objects(w))) && old(p.stored) <= p.stored
      invariant n <= |ranked| && |hits| <= k && Reported(t, ranked, n, hits)
    {
      var id := NameOf(w, p, t, goal, rest, s, ranked[n].pos);
      if ranked[n].score.Fin? && id.Some? {
        ReportOne(t, ranked, n, hits, id.value);
        hits := hits + [ranked[n].(id := id.value)];
      } else {
        SkipOne(t, ranked, n, hits);
      }
      n := n + 1;
      rest := Others(w, p, t, goal, rest);
    }
  }

  lemma NothingReported(t: Taken, ranked: seq<Hit>)
    ensures Reported(t, ranked, 0, [])
  {
  }

  function RowsUpTo(n: nat): (rows: seq<nat>)
    ensures |rows| == n && forall i :: 0 <= i < n ==> rows[i] == i
  {
    seq(n, i => i)
  }

  lemma EveryRow(t: Taken, n: nat)
    requires n == |t.was|
    ensures Rising(RowsUpTo(n)) && forall row :: row in RowsUpTo(n) ==> InScope(t, None, row)
  {
  }

  /** Choose and score the rows. */
  method ScoresDuring(w: World, p: NumpyPartition, ghost t: Taken, ghost goal: Goal, s: Snapshot, q: Vector,
                      scope: Option<set<string>>, turns: Turns)
    returns (scored: seq<Hit>, rest: Turns)
    requires Going(w, p, t, goal, turns) && t.snap == s && s.size == |t.was|
    modifies Objects(w)
    ensures Going(w, p, t, goal, rest) && fresh(Objects(w) - old(Objects(w))) && old(p.stored) <= p.stored
    ensures Chosen(t, p.stored, q, scope, scored)
  {
    hide Going, RepOk, SnapOk, RowsOk, Rising, Chosen, ScoredAt;
    var rows := RowsUpTo(s.size);
    rest := turns;
    if scope.Some? {
      rows, rest := SelectDuring(w, p, t, goal, s, scope.value, rest);
    } else {
      EveryRow(t, s.size);
    }
    scored, rest := ScoreDuring(w, p, t, goal, s, q, rows, rest);
    if scope.None? {
      scored, rest := MaskDuring(w, p, t, goal, s, q, rows, scored, rest);
    }
    ChosenRows(t, p.stored, q, scope, rows, scored);
  }

  lemma CandidatesReady(t: Taken, stored: set<(string, Vector)>, q: Vector, scope: Option<set<string>>,
                        scored: seq<Hit>, k: nat)
    requires k > 0 && Chosen(t, stored, q, scope, scored)
    ensures var c := Candidates(scored, k); Sorted(c) && DistinctPlaces(c) && Unnamed(t, c)
  {
    CandidatesEnough(scored, k);
    CandidatesDistinct(scored, k);
    var c := Candidates(scored, k);
    assert forall i :: 0 <= i < |c| ==> c[i] in c;
  }

  lemma ChosenLater(t: Taken, stored: set<(string, Vector)>, stored': set<(string, Vector)>, q: Vector,
                    scope: Option<set<string>>, scored: seq<Hit>)
    requires stored <= stored' && Chosen(t, stored, q, scope, scored)
    ensures Chosen(t, stored', q, scope, scored)
  {
    forall h | h in scored ensures Justified(t, stored', q, h) {
      if h.score.Fin? && t.was[h.pos].Some? {
        assert Witnessed(t.was[h.pos].value, stored, q, h.score);
      }
    }
  }

  lemma OnceAtStart(p: NumpyPartition)
    requires p.Valid()
    ensures OneRowPerId(p.ids.items)
  {
    RowsOnce(p.ids.items, p.pos.d);
  }

  /** The top of one snapshot, other threads running before every access to shared state. */
  method TopDuring(w: World, p: NumpyPartition, ghost t: Taken, ghost goal: Goal, s: Snapshot, q: Vector, k: nat,
                   scope: Option<set<string>>, turns: Turns) returns (hits: seq<Hit>, rest: Turns)
    requires Going(w, p, t, goal, turns) && t.snap == s && OneRowPerId(t.was) && s.size == |t.was| && k > 0
    modifies Objects(w)
    ensures Going(w, p, t, goal, rest) && fresh(Objects(w) - old(Objects(w))) && old(p.stored) <= p.stored
    ensures Safe(t, p.stored, q, k, scope, hits)
  {
    hide Going, Chosen, Safe, Reported, Candidates, Sorted, DistinctPlaces, OneRowPerId;
    var scored, n;
    scored, rest := ScoresDuring(w, p, t, goal, s, q, scope, turns);
    ghost var scoredWith := p.stored;
    CandidatesReady(t, p.stored, q, scope, scored, k);
    hits, rest, n := ReportDuring(w, p, t, goal, s, Candidates(scored, k), k, rest);
    ChosenLater(t, scoredWith, p.stored, q, scope, scored);
    ReportedSafe(t, p.stored, q, k, scope, scored, n, hits);
  }

  lemma SafeLater(t: Taken, stored: set<(string, Vector)>, stored': set<(string, Vector)>, q: Vector, k: nat,
                  scope: Option<set<string>>, hits: seq<Hit>)
    requires stored <= stored' && Safe(t, stored, q, k, scope, hits)
    ensures Safe(t, stored', q, k, scope, hits)
  {
    forall h | h in hits ensures Honest(t, stored', q, scope, h) {
      assert Witnessed(h.id, stored, q, h.score);
    }
  }

  /** A search without a lock, other threads running before every access it makes to shared state.  The
      hits are in rank order, at most k, no id and no row twice; each id was live when the snapshot was
      taken, at the row it had then, is in scope, and is scored with a vector stored for it. */
  method SearchDuring(p: NumpyPartition, q: Vector, k: nat, scope: Option<set<string>>, turns: seq<seq<Op>>)
    returns (hits: seq<Hit>, ghost t: Taken)
    requires p.Valid() && p.SnapsHold() && k > 0 && AllowedTurns(p.Entries(), turns)
    modifies p.Repr
    ensures p.Valid() && p.Entries() == AfterTurns(old(p.Entries()), turns)
    ensures t.was == old(p.ids.items) && Safe(t, p.stored, q, k, scope, hits)
  {
    hide RepOk, SnapOk, RowsOk, Safe, OneRowPerId;
    OnceAtStart(p);
    var s := p.TakeSnapshot();
    t := Taken(s, p.ids.items);
    ghost var goal := Goal(AfterTurns(p.Entries(), turns), {});
    var rest := Others(Alone(p), p, t, goal, OnPartition(turns));
    hits, rest := TopDuring(Alone(p), p, t, goal, s, q, k, scope, rest);
    ghost var stored := p.stored;
    rest := Finish(Alone(p), p, t, goal, rest);
    SafeLater(t, stored, p.stored, q, k, scope, hits);
  }
}
