/** Chunked ingest that survives the server dying at any point.

    A line's memory id is derived from its chunk's texts, its kind group, its position in the group and
    its text, and the text is part of the id here, so a store is a set of ids.  Digests are taken as
    injective.  A chunk is written in one transaction per kind group, and the facts of what is new are
    extracted after each; a dying server has committed some of the groups, or all, and its answer is lost. */
module Ingest {
  import opened Assoc

  /** Parts of the original taken as given: str.strip, the UTF-8 length, a text's kind (the caller's for
      every text, if it gave one), and whether the store accepts a text. */
  datatype Env = Env(strip: string -> string, bytes: string -> nat, kindOf: string -> string, valid: string -> bool)

  datatype Id = Id(texts: seq<string>, group: Option<string>, index: nat, text: string)

  type Store = set<Id>

  const INGEST_CHUNK_BYTES := 2 * 1024 * 1024

  // ----- one chunk in the store -----

  function Texts(env: Env, lines: seq<string>): seq<string> {
    if lines == [] then []
    else
      var text := env.strip(lines[|lines| - 1]);
      if text == "" then Texts(env, lines[..|lines| - 1]) else Texts(env, lines[..|lines| - 1]) + [text]
  }

  /** The kinds of the first n texts, in the order they first occur. */
  function Kinds(env: Env, texts: seq<string>, n: nat): (ks: seq<string>)
    requires n <= |texts|
    ensures forall i :: 0 <= i < n ==> env.kindOf(texts[i]) in ks
    ensures forall a, b :: 0 <= a < b < |ks| ==> ks[a] != ks[b]
  {
    if n == 0 then []
    else
      var ks, k := Kinds(env, texts, n - 1), env.kindOf(texts[n - 1]);
      if k in ks then ks else ks + [k]
  }

  /** How many of the first i texts are of kind k. */
  function Earlier(env: Env, texts: seq<string>, k: string, i: nat): nat
    requires i <= |texts|
  {
    if i == 0 then 0 else Earlier(env, texts, k, i - 1) + if env.kindOf(texts[i - 1]) == k then 1 else 0
  }

  function IdAt(env: Env, texts: seq<string>, i: nat): Id
    requires i < |texts|
  {
    var kind := env.kindOf(texts[i]);
    var group := if |Kinds(env, texts, |texts|)| > 1 then Some(kind) else None;
    Id(texts, group, Earlier(env, texts, kind, i), texts[i])
  }

  function IdsBelow(env: Env, texts: seq<string>, n: nat): Store
    requires n <= |texts|
  {
    if n == 0 then {}
    else if env.valid(texts[n - 1]) then IdsBelow(env, texts, n - 1) + {IdAt(env, texts, n - 1)}
    else IdsBelow(env, texts, n - 1)
  }

  /** The ids a chunk's texts are stored under. */
  function Ids(env: Env, texts: seq<string>): Store {
    IdsBelow(env, texts, |texts|)
  }

  function Valids(env: Env, texts: seq<string>): nat {
    if texts == [] then 0
    else Valids(env, texts[..|texts| - 1]) + if env.valid(texts[|texts| - 1]) then 1 else 0
  }

  function GroupIds(env: Env, texts: seq<string>, k: string, n: nat): Store
    requires n <= |texts|
  {
    if n == 0 then {}
    else if env.valid(texts[n - 1]) && env.kindOf(texts[n - 1]) == k then
      GroupIds(env, texts, k, n - 1) + {IdAt(env, texts, n - 1)}
    else GroupIds(env, texts, k, n - 1)
  }

  /** What the first g of the chunk's transactions write. */
  function Written(env: Env, texts: seq<string>, g: nat): Store {
    var ks := Kinds(env, texts, |texts|);
    if g == 0 then {}
    else if g > |ks| then Written(env, texts, g - 1)
    else Written(env, texts, g - 1) + GroupIds(env, texts, ks[g - 1], |texts|)
  }

  /** Text i is accepted, and stored under the id. */
  ghost predicate StoredAs(env: Env, texts: seq<string>, i: nat, id: Id) {
    i < |texts| && env.valid(texts[i]) && id == IdAt(env, texts, i)
  }

  lemma {:induction false} InIds(env: Env, texts: seq<string>, n: nat, i: nat)
    requires i < n <= |texts| && env.valid(texts[i])
    ensures IdAt(env, texts, i) in IdsBelow(env, texts, n)
  {
    hide IdAt;
    if i < n - 1 { InIds(env, texts, n - 1, i); }
  }

  lemma {:induction false} FromIds(env: Env, texts: seq<string>, n: nat, id: Id) returns (i: nat)
    requires n <= |texts| && id in IdsBelow(env, texts, n)
    ensures i < n && StoredAs(env, texts, i, id)
  {
    hide IdAt;
    i := n - 1;
    if id in IdsBelow(env, texts, n - 1) { i := FromIds(env, texts, n - 1, id); }
  }

  lemma {:induction false} InGroup(env: Env, texts: seq<string>, n: nat, i: nat)
    requires i < n <= |texts| && env.valid(texts[i])
    ensures IdAt(env, texts, i) in GroupIds(env, texts, env.kindOf(texts[i]), n)
  {
    hide IdAt;
    if i < n - 1 { InGroup(env, texts, n - 1, i); }
  }

  lemma {:induction false} FromGroup(env: Env, texts: seq<string>, k: string, n: nat, id: Id) returns (i: nat)
    requires n <= |texts| && id in GroupIds(env, texts, k, n)
    ensures i < n && StoredAs(env, texts, i, id) && env.kindOf(texts[i]) == k
  {
    hide IdAt;
    i := n - 1;
    if id in GroupIds(env, texts, k, n - 1) { i := FromGroup(env, texts, k, n - 1, id); }
  }

  lemma {:induction false} InWritten(env: Env, texts: seq<string>, g: nat, id: Id)
    requires g <= |Kinds(env, texts, |texts|)|
    ensures id in Written(env, texts, g) <==>
      exists a :: 0 <= a < g && id in GroupIds(env, texts, Kinds(env, texts, |texts|)[a], |texts|)
  {
    if g > 0 { InWritten(env, texts, g - 1, id); }
  }

  lemma {:induction false} WrittenWithin(env: Env, texts: seq<string>, g: nat)
    ensures Written(env, texts, g) <= Ids(env, texts)
  {
    var ks := Kinds(env, texts, |texts|);
    if g > 0 {
      WrittenWithin(env, texts, g - 1);
      if g <= |ks| {
        forall id | id in GroupIds(env, texts, ks[g - 1], |texts|) ensures id in Ids(env, texts) {
          var i := FromGroup(env, texts, ks[g - 1], |texts|, id);
          InIds(env, texts, |texts|, i);
        }
      }
    }
  }

  /** All the transactions together write every id of the chunk. */
  lemma WrittenAll(env: Env, texts: seq<string>)
    ensures Written(env, texts, |Kinds(env, texts, |texts|)|) == Ids(env, texts)
  {
    var ks := Kinds(env, texts, |texts|);
    WrittenWithin(env, texts, |ks|);
    forall id | id in Ids(env, texts) ensures id in Written(env, texts, |ks|) {
      var i := FromIds(env, texts, |texts|, id);
      var a :| 0 <= a < |ks| && ks[a] == env.kindOf(texts[i]);
      InGroup(env, texts, |texts|, i);
      InWritten(env, texts, |ks|, id);
    }
  }

  lemma {:induction false} EarlierGrows(env: Env, texts: seq<string>, k: string, i: nat, j: nat)
    requires i < j <= |texts| && env.kindOf(texts[i]) == k
    ensures Earlier(env, texts, k, i) < Earlier(env, texts, k, j)
  {
    if j > i + 1 { EarlierGrows(env, texts, k, i, j - 1); }
  }

  /** Different lines of a chunk have different ids. */
  lemma IdsDiffer(env: Env, texts: seq<string>, i: nat, j: nat)
    requires i < j < |texts|
    ensures IdAt(env, texts, i) != IdAt(env, texts, j)
  {
    if env.kindOf(texts[i]) == env.kindOf(texts[j]) {
      EarlierGrows(env, texts, env.kindOf(texts[i]), i, j);
    } else {
      TwoKinds(env, texts, i, j);
    }
  }

  lemma SameLine(env: Env, texts: seq<string>, i: nat, j: nat)
    requires i < |texts| && j < |texts| && IdAt(env, texts, i) == IdAt(env, texts, j)
    ensures i == j
  {
    if i < j { IdsDiffer(env, texts, i, j); } else if j < i { IdsDiffer(env, texts, j, i); }
  }

  lemma TwoKinds(env: Env, texts: seq<string>, i: nat, j: nat)
    requires i < |texts| && j < |texts| && env.kindOf(texts[i]) != env.kindOf(texts[j])
    ensures |Kinds(env, texts, |texts|)| > 1
  {
    var ks := Kinds(env, texts, |texts|);
    assert env.kindOf(texts[i]) in ks && env.kindOf(texts[j]) in ks;
  }

  lemma {:induction false} IdCount(env: Env, texts: seq<string>, n: nat)
    requires n <= |texts|
    ensures |IdsBelow(env, texts, n)| == Valids(env, texts[..n])
  {
    if n > 0 {
      IdCount(env, texts, n - 1);
      assert texts[..n][..n - 1] == texts[..n - 1];
      var id := IdAt(env, texts, n - 1);
      if id in IdsBelow(env, texts, n - 1) {
        var i := FromIds(env, texts, n - 1, id);
        IdsDiffer(env, texts, i, n - 1);
      }
      hide IdAt;
    }
  }

  // ----- cmd_ingest: one chunk, idempotent -----

  datatype Part = Part(stored: nat, existing: nat, skipped: Option<nat>)

  /** What one run of a chunk reports, given what the store held. */
  function PartOf(env: Env, texts: seq<string>, store: Store): Part {
    var skipped := |texts| - Valids(env, texts);
    ValidsAtMost(env, texts);
    Part(|Ids(env, texts) - store|, |Ids(env, texts) * store|, if skipped > 0 then Some(skipped) else None)
  }

  lemma {:induction false} ValidsAtMost(env: Env, texts: seq<string>)
    ensures Valids(env, texts) <= |texts|
  {
    if texts != [] { ValidsAtMost(env, texts[..|texts| - 1]); }
  }

  /** The groups one after the other; each writes what is not there yet, and has its facts extracted. */
  method CmdIngest(env: Env, lines: seq<string>, before: Store, known: Store)
    returns (part: Part, store: Store, facts: Store)
    ensures store == before + Ids(env, Texts(env, lines))
    ensures part == PartOf(env, Texts(env, lines), before)
    ensures facts == known + (Ids(env, Texts(env, lines)) - before)
  {
    hide *;
    var texts := Texts(env, lines);
    var kinds := Kinds(env, texts, |texts|);
    var existing, accepted := 0, 0;
    store, facts := before, known;
    NoneThrough(env, texts, before, known);
    for g := 0 to |kinds|
      invariant Through(env, texts, before, known, g, store, facts, existing, accepted)
    {
      NextThrough(env, texts, before, known, g, store, facts, existing, accepted);
      var ids := GroupIds(env, texts, kinds[g], |texts|);
      existing := existing + |ids * store|;
      accepted := accepted + |ids|;
      facts := facts + (ids - store);
      store := store + ids;
    }
    AllThrough(env, texts, before, known, store, facts, existing, accepted);
    var skipped := |texts| - accepted;
    part := Part(accepted - existing, existing, if skipped > 0 then Some(skipped) else None);
  }

  /** The first g groups are written and their new texts' facts extracted. */
  ghost predicate Through(env: Env, texts: seq<string>, before: Store, known: Store, g: nat, store: Store, facts: Store,
                          existing: int, accepted: int) {
    && g <= |Kinds(env, texts, |texts|)|
    && store == before + Written(env, texts, g) && facts == known + (Written(env, texts, g) - before)
    && existing == |Written(env, texts, g) * before| && accepted == |Written(env, texts, g)|
  }

  lemma NoneThrough(env: Env, texts: seq<string>, before: Store, known: Store)
    ensures Through(env, texts, before, known, 0, before, known, 0, 0)
  {
  }

  lemma NextThrough(env: Env, texts: seq<string>, before: Store, known: Store, g: nat, store: Store, facts: Store,
                    existing: int, accepted: int)
    requires Through(env, texts, before, known, g, store, facts, existing, accepted)
    requires g < |Kinds(env, texts, |texts|)|
    ensures var ids := GroupIds(env, texts, Kinds(env, texts, |texts|)[g], |texts|);
      Through(env, texts, before, known, g + 1, store + ids, facts + (ids - store), existing + |ids * store|,
              accepted + |ids|)
  {
    NextGroup(env, texts, g, before);
    hide GroupIds, Kinds, Written;
    var ids := GroupIds(env, texts, Kinds(env, texts, |texts|)[g], |texts|);
    Regroup(known, Written(env, texts, g) - before, ids - store);
  }

  lemma AllThrough(env: Env, texts: seq<string>, before: Store, known: Store, store: Store, facts: Store, existing: int,
                   accepted: int)
    requires Through(env, texts, before, known, |Kinds(env, texts, |texts|)|, store, facts, existing, accepted)
    ensures store == before + Ids(env, texts) && facts == known + (Ids(env, texts) - before)
    ensures 0 <= existing <= accepted <= |texts|
    ensures var skipped := |texts| - accepted;
      PartOf(env, texts, before) == Part(accepted - existing, existing, if skipped > 0 then Some(skipped) else None)
  {
    WrittenAll(env, texts);
    PartIs(env, texts, before);
    hide Kinds, Written, Ids;
  }

  lemma Regroup(a: Store, b: Store, c: Store)
    ensures a + b + c == a + (b + c)
  {
  }

  lemma PartIs(env: Env, texts: seq<string>, before: Store)
    ensures var ids := Ids(env, texts); var skipped := |texts| - |ids|;
      && |ids * before| <= |ids| <= |texts|
      && PartOf(env, texts, before) ==
         Part(|ids| - |ids * before|, |ids * before|, if skipped > 0 then Some(skipped) else None)
  {
    IdCount(env, texts, |texts|);
    assert texts[..|texts|] == texts;
    ValidsAtMost(env, texts);
    var ids := Ids(env, texts);
    assert ids == (ids - before) + (ids * before);
  }

  lemma NextGroup(env: Env, texts: seq<string>, g: nat, before: Store)
    requires g < |Kinds(env, texts, |texts|)|
    ensures var ids := GroupIds(env, texts, Kinds(env, texts, |texts|)[g], |texts|);
      var done, next := Written(env, texts, g), Written(env, texts, g + 1);
      && before + done + ids == before + next
      && (done - before) + (ids - (before + done)) == next - before
      && |next| == |done| + |ids|
      && |next * before| == |done * before| + |ids * (before + done)|
  {
    var ids := GroupIds(env, texts, Kinds(env, texts, |texts|)[g], |texts|);
    var done, next := Written(env, texts, g), Written(env, texts, g + 1);
    GroupsApart(env, texts, g);
    assert next == done + ids;
    hide GroupIds, Kinds, Written;
    assert ids * (before + done) == ids * before;
    assert next * before == done * before + ids * before;
  }

  /** A group's ids are not among those of the groups before it. */
  lemma GroupsApart(env: Env, texts: seq<string>, g: nat)
    requires g < |Kinds(env, texts, |texts|)|
    ensures var ks := Kinds(env, texts, |texts|);
      Written(env, texts, g) !! GroupIds(env, texts, ks[g], |texts|)
  {
    var ks := Kinds(env, texts, |texts|);
    forall id | id in GroupIds(env, texts, ks[g], |texts|) ensures id !in Written(env, texts, g) {
      var i := FromGroup(env, texts, ks[g], |texts|, id);
      InWritten(env, texts, g, id);
      forall a | 0 <= a < g ensures id !in GroupIds(env, texts, ks[a], |texts|) {
        if id in GroupIds(env, texts, ks[a], |texts|) {
          var j := FromGroup(env, texts, ks[a], |texts|, id);
          TwoKinds(env, texts, i, j);
        }
      }
    }
  }

  // ----- not quite one transaction -----

  /** All the accepted texts are of one kind. */
  ghost predicate OneKind(env: Env, texts: seq<string>) {
    forall i, j :: 0 <= i < |texts| && 0 <= j < |texts| && env.valid(texts[i]) && env.valid(texts[j]) ==>
      env.kindOf(texts[i]) == env.kindOf(texts[j])
  }

  /** Nothing of the chunk is in the store, or everything. */
  ghost predicate AllOrNothing(env: Env, texts: seq<string>, g: nat) {
    Written(env, texts, g) == {} || Written(env, texts, g) == Ids(env, texts)
  }

  /** client.py:186 calls a chunk one transaction.  A server that dies may leave a part of it, for every
      chunk whose accepted texts are of several kinds, and for no other. */
  lemma OneTransactionIff(env: Env, texts: seq<string>)
    ensures (forall g: nat :: AllOrNothing(env, texts, g)) <==> OneKind(env, texts)
  {
    if OneKind(env, texts) {
      forall g: nat ensures AllOrNothing(env, texts, g) {
        WholeChunk(env, texts, g);
      }
    } else {
      var i, j :| 0 <= i < |texts| && 0 <= j < |texts| && env.valid(texts[i]) && env.valid(texts[j])
                  && env.kindOf(texts[i]) != env.kindOf(texts[j]);
      var g := SplitChunk(env, texts, i, j);
    }
  }

  lemma {:induction false} WholeChunk(env: Env, texts: seq<string>, g: nat)
    requires OneKind(env, texts)
    ensures AllOrNothing(env, texts, g)
  {
    var ks := Kinds(env, texts, |texts|);
    if g > |ks| {
      WholeChunk(env, texts, g - 1);
    } else if id :| id in Written(env, texts, g) {
      InWritten(env, texts, g, id);
      var a :| 0 <= a < g && id in GroupIds(env, texts, ks[a], |texts|);
      var i := FromGroup(env, texts, ks[a], |texts|, id);
      WrittenWithin(env, texts, g);
      forall other | other in Ids(env, texts) ensures other in Written(env, texts, g) {
        var j := FromIds(env, texts, |texts|, other);
        InGroup(env, texts, |texts|, j);
        InWritten(env, texts, g, other);
      }
    }
  }

  /** Between the groups of two accepted texts the store holds one of them and not the other. */
  lemma SplitChunk(env: Env, texts: seq<string>, i: nat, j: nat) returns (g: nat)
    requires i < |texts| && j < |texts| && env.valid(texts[i]) && env.valid(texts[j])
    requires env.kindOf(texts[i]) != env.kindOf(texts[j])
    ensures !AllOrNothing(env, texts, g)
  {
    var ks := Kinds(env, texts, |texts|);
    var a :| 0 <= a < |ks| && ks[a] == env.kindOf(texts[i]);
    var b :| 0 <= b < |ks| && ks[b] == env.kindOf(texts[j]);
    g := 1 + if a < b then a else b;
    if a < b { SplitAfter(env, texts, a, b, i, j); } else { SplitAfter(env, texts, b, a, j, i); }
  }

  lemma SplitAfter(env: Env, texts: seq<string>, a: nat, b: nat, i: nat, j: nat)
    requires i < |texts| && j < |texts| && env.valid(texts[i]) && env.valid(texts[j])
    requires a < b < |Kinds(env, texts, |texts|)|
    requires Kinds(env, texts, |texts|)[a] == env.kindOf(texts[i])
    requires Kinds(env, texts, |texts|)[b] == env.kindOf(texts[j])
    ensures !AllOrNothing(env, texts, a + 1)
  {
    IdsAre(env, texts);
    hide Written, Ids, IdAt, GroupIds, IdsBelow, Kinds;
    WrittenNow(env, texts, a, i);
    InIds(env, texts, |texts|, j);
    NotWrittenYet(env, texts, a + 1, j);
  }

  lemma IdsAre(env: Env, texts: seq<string>)
    ensures Ids(env, texts) == IdsBelow(env, texts, |texts|)
  {
  }

  lemma WrittenNow(env: Env, texts: seq<string>, a: nat, i: nat)
    requires a < |Kinds(env, texts, |texts|)| && i < |texts| && env.valid(texts[i])
    requires Kinds(env, texts, |texts|)[a] == env.kindOf(texts[i])
    ensures IdAt(env, texts, i) in Written(env, texts, a + 1)
  {
    hide IdAt, Kinds, GroupIds;
    InGroup(env, texts, |texts|, i);
  }

  lemma NotWrittenYet(env: Env, texts: seq<string>, g: nat, i: nat)
    requires g <= |Kinds(env, texts, |texts|)| && i < |texts|
    requires forall a :: 0 <= a < g ==> Kinds(env, texts, |texts|)[a] != env.kindOf(texts[i])
    ensures IdAt(env, texts, i) !in Written(env, texts, g)
  {
    var ks, id := Kinds(env, texts, |texts|), IdAt(env, texts, i);
    InWritten(env, texts, g, id);
    forall a | 0 <= a < g ensures id !in GroupIds(env, texts, ks[a], |texts|) {
      if id in GroupIds(env, texts, ks[a], |texts|) {
        var j := FromGroup(env, texts, ks[a], |texts|, id);
        SameLine(env, texts, i, j);
      }
    }
  }

  /** Two lines of two kinds, and a death after the first group. */
  lemma HalfAChunk() returns (env: Env, lines: seq<string>, g: nat)
    ensures Texts(env, lines) == ["a", "b"] && !AllOrNothing(env, ["a", "b"], g)
  {
    env := Env(s => s, _ => 1, s => s, _ => true);
    lines := ["a", "b"];
    assert lines[..1] == ["a"] && ["a"][..0] == [];
    assert Texts(env, ["a"][..0]) == [];
    assert Texts(env, lines[..1]) == ["a"];
    g := SplitChunk(env, ["a", "b"], 0, 1);
  }

  // ----- the chunks -----

  function LineSize(env: Env, line: string): nat {
    env.bytes(line) + 8
  }

  function Size(env: Env, chunk: seq<string>): nat {
    if chunk == [] then 0 else Size(env, chunk[..|chunk| - 1]) + LineSize(env, chunk[|chunk| - 1])
  }

  /** The chunks sent from here on: chunk is being filled, lines are still to come. */
  function ChunksFrom(env: Env, chunk: seq<string>, lines: seq<string>): seq<seq<string>>
    decreases |lines|
  {
    if lines == [] then (if chunk == [] then [] else [chunk])
    else if chunk != [] && Size(env, chunk) + LineSize(env, lines[0]) > INGEST_CHUNK_BYTES then
      [chunk] + ChunksFrom(env, [lines[0]], lines[1..])
    else ChunksFrom(env, chunk + [lines[0]], lines[1..])
  }

  function Flat(chunks: seq<seq<string>>): seq<string> {
    if chunks == [] then [] else chunks[0] + Flat(chunks[1..])
  }

  lemma SizePush(env: Env, chunk: seq<string>, line: string)
    ensures Size(env, chunk + [line]) == Size(env, chunk) + LineSize(env, line)
  {
    assert (chunk + [line])[..|chunk|] == chunk;
  }

  ghost predicate WithinCap(env: Env, chunk: seq<string>) {
    chunk != [] && (Size(env, chunk) <= INGEST_CHUNK_BYTES || |chunk| == 1)
  }

  /** The chunks are the lines, in order; each is within the cap or one line; none could have taken
      the next line. */
  lemma {:induction false} ChunksAreTheLines(env: Env, chunk: seq<string>, lines: seq<string>)
    requires chunk != [] ==> WithinCap(env, chunk)
    ensures var chunks := ChunksFrom(env, chunk, lines);
      && Flat(chunks) == chunk + lines
      && (forall i :: 0 <= i < |chunks| ==> WithinCap(env, chunks[i]))
      && (forall i :: 0 <= i < |chunks| - 1 ==>
            Size(env, chunks[i]) + LineSize(env, chunks[i + 1][0]) > INGEST_CHUNK_BYTES)
      && (chunk != [] ==> chunks != [] && chunks[0][0] == chunk[0])
    decreases |lines|
  {
    if lines == [] {
      if chunk != [] { assert Flat([chunk]) == chunk by { OneFlat(chunk); } }
    } else {
      assert lines == [lines[0]] + lines[1..];
      if chunk != [] && Size(env, chunk) + LineSize(env, lines[0]) > INGEST_CHUNK_BYTES {
        ChunksAreTheLines(env, [lines[0]], lines[1..]);
        var rest := ChunksFrom(env, [lines[0]], lines[1..]);
        assert ([chunk] + rest)[1..] == rest;
        assert chunk + ([lines[0]] + lines[1..]) == chunk + lines;
      } else {
        SizePush(env, chunk, lines[0]);
        ChunksAreTheLines(env, chunk + [lines[0]], lines[1..]);
        assert chunk + [lines[0]] + lines[1..] == chunk + lines;
      }
    }
  }

  lemma OneFlat(chunk: seq<string>)
    ensures Flat([chunk]) == chunk
  {
    var chunks := [chunk];
    assert chunks[1..] == [];
  }

  // ----- sending, and the server's death -----

  /** A server dies with that many transactions committed, and without the facts of some of the ids the last
      of them stored. */
  datatype Death = Death(groups: nat, missed: Store)

  /** The k-th request to the server: it answers, or it dies. */
  type Fate = nat -> Option<Death>

  /** The client's result; a key that was never reported is None. */
  datatype Result = Result(stored: nat, existing: Option<nat>, skipped: Option<nat>)

  /** facts: the ids whose facts have been extracted. */
  datatype State = State(store: Store, facts: Store, result: Result, local: bool, sent: nat)

  function Reported(count: Option<nat>): nat {
    if count.Some? then count.value else 0
  }

  /** summed over the old result, {**part, **summed}: a key the part lacks is gone. */
  function AddPart(result: Result, part: Part): Result {
    Result(result.stored + part.stored, Some(Reported(result.existing) + part.existing),
           if part.skipped.Some? then Some(Reported(result.skipped) + part.skipped.value) else None)
  }

  predicate Dies(fate: Fate, st: State) {
    !st.local && fate(st.sent).Some?
  }

  /** What the store holds when the client runs the chunk itself, or the answering server does. */
  function StoreAtRun(env: Env, fate: Fate, st: State, texts: seq<string>): Store {
    if Dies(fate, st) then st.store + Written(env, texts, fate(st.sent).value.groups) else st.store
  }

  /** The ids of the g-th of the chunk's transactions, or of the last one. */
  function LastGroup(env: Env, texts: seq<string>, g: nat): Store {
    var ks := Kinds(env, texts, |texts|);
    if g == 0 || ks == [] then {} else GroupIds(env, texts, ks[(if g <= |ks| then g else |ks|) - 1], |texts|)
  }

  /** The ids a dying server stored and left without their facts. */
  function Missed(env: Env, fate: Fate, st: State, texts: seq<string>): Store {
    if Dies(fate, st) then
      fate(st.sent).value.missed * (LastGroup(env, texts, fate(st.sent).value.groups) - st.store)
    else {}
  }

  /** The ids whose facts are there when the client runs the chunk itself, or the answering server does. */
  function FactsAtRun(env: Env, fate: Fate, st: State, texts: seq<string>): Store {
    st.facts + (StoreAtRun(env, fate, st, texts) - st.store - Missed(env, fate, st, texts))
  }

  function SendChunk(env: Env, fate: Fate, st: State, chunk: seq<string>): State {
    var texts := Texts(env, chunk);
    var held := StoreAtRun(env, fate, st, texts);
    State(held + Ids(env, texts), FactsAtRun(env, fate, st, texts) + (Ids(env, texts) - held),
          AddPart(st.result, PartOf(env, texts, held)), st.local || fate(st.sent).Some?, st.sent + 1)
  }

  method Send(env: Env, fate: Fate, st: State, chunk: seq<string>) returns (next: State)
    ensures next == SendChunk(env, fate, st, chunk)
  {
    hide Written, Ids, PartOf, Texts, LastGroup;
    var store, facts, local := st.store, st.facts, st.local;
    var part := Part(0, 0, None);
    if !local {
      match fate(st.sent) {
        case None => part, store, facts := CmdIngest(env, chunk, store, facts);
        case Some(death) =>
          var texts := Texts(env, chunk);
          var written := Written(env, texts, death.groups);
          facts := facts + (written - store - death.missed * (LastGroup(env, texts, death.groups) - store));
          store := store + written;
          local := true;
      }
    }
    if local {
      part, store, facts := CmdIngest(env, chunk, store, facts);
    }
    next := State(store, facts, AddPart(st.result, part), local, st.sent + 1);
  }

  function SendAll(env: Env, fate: Fate, st: State, chunks: seq<seq<string>>): State
    decreases |chunks|
  {
    if chunks == [] then st else SendAll(env, fate, SendChunk(env, fate, st, chunks[0]), chunks[1..])
  }

  /** The facts of everything stored so far have been extracted. */
  function Start(store: Store, server: bool): State {
    State(store, store, Result(0, None, None), !server, 0)
  }

  /** _ingest_in_chunks, with the store it leaves. */
  method IngestInChunks(env: Env, fate: Fate, server: bool, lines: seq<string>, before: Store) returns (end: State)
    ensures end == SendAll(env, fate, Start(before, server), ChunksFrom(env, [], lines))
  {
    end := Start(before, server);
    var chunk: seq<string>, size := [], 0;
    NothingYet(env, lines);
    for i := 0 to |lines|
      invariant size == Size(env, chunk)
      invariant SendAll(env, fate, end, ChunksFrom(env, chunk, lines[i..]))
             == SendAll(env, fate, Start(before, server), ChunksFrom(env, [], lines))
    {
      hide SendAll, SendChunk, ChunksFrom, Size, LineSize, Start;
      var line := lines[i];
      var lineSize := env.bytes(line) + 8;
      TakeLine(env, chunk, lines, i);
      if chunk != [] && size + lineSize > INGEST_CHUNK_BYTES {
        FirstSent(env, fate, end, chunk, ChunksFrom(env, [line], lines[i + 1..]));
        end := Send(env, fate, end, chunk);
        chunk, size := [], 0;
        NothingYet(env, lines);
        assert [] + [line] == [line];
      }
      SizePush(env, chunk, line);
      chunk := chunk + [line];
      size := size + lineSize;
    }
    LastChunk(env, chunk, lines);
    hide SendAll, SendChunk, ChunksFrom, Size, Start;
    if chunk != [] {
      FirstSent(env, fate, end, chunk, []);
      assert [chunk] + [] == [chunk];
      end := Send(env, fate, end, chunk);
    }
    NothingLeft(env, fate, end);
  }

  lemma NothingYet(env: Env, lines: seq<string>)
    ensures Size(env, []) == 0 && lines[0..] == lines
  {
  }

  /** The next line starts a chunk or joins the one being filled. */
  lemma TakeLine(env: Env, chunk: seq<string>, lines: seq<string>, i: nat)
    requires i < |lines|
    ensures LineSize(env, lines[i]) == env.bytes(lines[i]) + 8
    ensures ChunksFrom(env, chunk, lines[i..]) ==
            if chunk != [] && Size(env, chunk) + LineSize(env, lines[i]) > INGEST_CHUNK_BYTES then
              [chunk] + ChunksFrom(env, [lines[i]], lines[i + 1..])
            else ChunksFrom(env, chunk + [lines[i]], lines[i + 1..])
  {
    assert lines[i..][1..] == lines[i + 1..];
  }

  lemma LastChunk(env: Env, chunk: seq<string>, lines: seq<string>)
    ensures ChunksFrom(env, chunk, lines[|lines|..]) == if chunk == [] then [] else [chunk]
  {
  }

  lemma NothingLeft(env: Env, fate: Fate, st: State)
    ensures SendAll(env, fate, st, []) == st
  {
  }

  lemma FirstSent(env: Env, fate: Fate, st: State, chunk: seq<string>, rest: seq<seq<string>>)
    ensures SendAll(env, fate, st, [chunk] + rest) == SendAll(env, fate, SendChunk(env, fate, st, chunk), rest)
  {
    assert ([chunk] + rest)[1..] == rest;
  }

  // ----- what every schedule of deaths leaves -----

  function AllIds(env: Env, chunks: seq<seq<string>>): Store
    decreases |chunks|
  {
    if chunks == [] then {} else Ids(env, Texts(env, chunks[0])) + AllIds(env, chunks[1..])
  }

  function ValidLines(env: Env, chunks: seq<seq<string>>): nat
    decreases |chunks|
  {
    if chunks == [] then 0 else Valids(env, Texts(env, chunks[0])) + ValidLines(env, chunks[1..])
  }

  lemma PartCounts(env: Env, texts: seq<string>, store: Store)
    ensures PartOf(env, texts, store).stored + PartOf(env, texts, store).existing == Valids(env, texts)
  {
    var ids := Ids(env, texts);
    IdCount(env, texts, |texts|);
    assert texts[..|texts|] == texts;
    assert ids == (ids - store) + (ids * store);
  }

  /** Wherever the server dies, and whatever it had committed of the chunk it died in: the store ends up
      with exactly the ids of the lines, and stored + existing counts every valid line once. */
  lemma {:induction false} EveryScheduleStoresTheSame(env: Env, fate: Fate, st: State, chunks: seq<seq<string>>)
    ensures var end := SendAll(env, fate, st, chunks);
      && end.store == st.store + AllIds(env, chunks)
      && end.result.stored + Reported(end.result.existing) ==
         st.result.stored + Reported(st.result.existing) + ValidLines(env, chunks)
    decreases |chunks|
  {
    if chunks != [] {
      Sent(env, fate, st, chunks[0]);
      PartCounts(env, Texts(env, chunks[0]), StoreAtRun(env, fate, st, Texts(env, chunks[0])));
      hide SendChunk, PartOf, StoreAtRun, Ids, Texts;
      EveryScheduleStoresTheSame(env, fate, SendChunk(env, fate, st, chunks[0]), chunks[1..]);
    }
  }

  /** What one chunk does to the client's state, whether or not the server dies in it. */
  lemma Sent(env: Env, fate: Fate, st: State, chunk: seq<string>)
    ensures var texts, next := Texts(env, chunk), SendChunk(env, fate, st, chunk);
      && next.store == st.store + Ids(env, texts)
      && next.sent == st.sent + 1 && next.local == (st.local || fate(st.sent).Some?)
      && next.result == AddPart(st.result, PartOf(env, texts, StoreAtRun(env, fate, st, texts)))
  {
    var texts := Texts(env, chunk);
    if Dies(fate, st) { WrittenWithin(env, texts, fate(st.sent).value.groups); }
    hide Written, Ids, PartOf, AddPart, FactsAtRun;
  }

  /** So an ingest through a server, dying or not, leaves what an in-process ingest leaves. */
  lemma SameAsInProcess(env: Env, fate: Fate, lines: seq<string>, before: Store)
    ensures var chunks := ChunksFrom(env, [], lines);
      var served := SendAll(env, fate, Start(before, true), chunks);
      var local := SendAll(env, fate, Start(before, false), chunks);
      && served.store == local.store
      && served.result.stored + Reported(served.result.existing) ==
         local.result.stored + Reported(local.result.existing)
      && (lines == [] ==> served.result == Result(0, None, None))
  {
    var chunks := ChunksFrom(env, [], lines);
    EveryScheduleStoresTheSame(env, fate, Start(before, true), chunks);
    EveryScheduleStoresTheSame(env, fate, Start(before, false), chunks);
  }

  /** Running lines again that the store already holds adds nothing and stores nothing. */
  lemma {:induction false} RerunAddsNothing(env: Env, fate: Fate, st: State, chunks: seq<seq<string>>)
    requires AllIds(env, chunks) <= st.store
    ensures var end := SendAll(env, fate, st, chunks);
      end.store == st.store && end.result.stored == st.result.stored
    decreases |chunks|
  {
    if chunks != [] {
      NothingNew(env, fate, st, chunks[0]);
      hide SendChunk, Ids, Texts;
      RerunAddsNothing(env, fate, SendChunk(env, fate, st, chunks[0]), chunks[1..]);
    }
  }

  lemma NothingNew(env: Env, fate: Fate, st: State, chunk: seq<string>)
    requires Ids(env, Texts(env, chunk)) <= st.store
    ensures var next := SendChunk(env, fate, st, chunk);
      next.store == st.store && next.result.stored == st.result.stored
  {
    Sent(env, fate, st, chunk);
    MissedIsNew(env, fate, st, Texts(env, chunk));
    var texts := Texts(env, chunk);
    assert Ids(env, texts) - StoreAtRun(env, fate, st, texts) == {};
    hide SendChunk, Ids, Texts, StoreAtRun;
  }

  /** stored never overstates what is new; without a death it is exactly what is new. */
  lemma {:induction false} StoredIsNew(env: Env, fate: Fate, st: State, chunks: seq<seq<string>>)
    ensures var end := SendAll(env, fate, st, chunks);
      && end.result.stored - st.result.stored <= |end.store| - |st.store|
      && ((st.local || forall k :: fate(k).None?) ==> end.result.stored - st.result.stored == |end.store| - |st.store|)
    decreases |chunks|
  {
    if chunks != [] {
      NewInChunk(env, fate, st, chunks[0]);
      hide SendChunk;
      StoredIsNew(env, fate, SendChunk(env, fate, st, chunks[0]), chunks[1..]);
    }
  }

  lemma NewInChunk(env: Env, fate: Fate, st: State, chunk: seq<string>)
    ensures var next := SendChunk(env, fate, st, chunk);
      && next.result.stored - st.result.stored <= |next.store| - |st.store|
      && (!Dies(fate, st) ==> next.result.stored - st.result.stored == |next.store| - |st.store|)
      && next.local == (st.local || fate(st.sent).Some?)
  {
    var texts := Texts(env, chunk);
    var held := StoreAtRun(env, fate, st, texts);
    hide Written, Ids, Texts, FactsAtRun;
    Smaller(st.store, held);
    assert held + Ids(env, texts) == held + (Ids(env, texts) - held);
  }

  lemma Smaller(a: Store, b: Store)
    requires a <= b
    ensures |a| <= |b|
  {
    assert b == a + (b - a);
  }

  // ----- the facts a death can lose -----

  /** The ids that deaths leave without their facts. */
  function AllMissed(env: Env, fate: Fate, st: State, chunks: seq<seq<string>>): Store
    decreases |chunks|
  {
    if chunks == [] then {}
    else Missed(env, fate, st, Texts(env, chunks[0]))
         + AllMissed(env, fate, SendChunk(env, fate, st, chunks[0]), chunks[1..])
  }

  /** A retry extracts facts only for what it newly stores.  So the ids that end up without their facts are
      those that had none before, and those a dying server committed and did not get to: for good. */
  lemma {:induction false} LostFactsStayLost(env: Env, fate: Fate, st: State, chunks: seq<seq<string>>)
    requires st.facts <= st.store
    ensures var end := SendAll(env, fate, st, chunks);
      end.facts <= end.store && end.store - end.facts == (st.store - st.facts) + AllMissed(env, fate, st, chunks)
    decreases |chunks|
  {
    if chunks != [] {
      var texts, next := Texts(env, chunks[0]), SendChunk(env, fate, st, chunks[0]);
      MissedIsNew(env, fate, st, texts);
      OneLoss(st.store, st.facts, StoreAtRun(env, fate, st, texts), Missed(env, fate, st, texts), Ids(env, texts));
      assert next.facts <= next.store
             && next.store - next.facts == (st.store - st.facts) + Missed(env, fate, st, texts);
      hide Missed, SendChunk, Texts;
      LostFactsStayLost(env, fate, next, chunks[1..]);
    }
  }

  lemma OneLoss(store: Store, facts: Store, held: Store, missed: Store, ids: Store)
    requires facts <= store <= held && missed <= held - store
    ensures var facts' := facts + (held - store - missed) + (ids - held);
      facts' <= held + ids && held + ids - facts' == (store - facts) + missed
  {
  }

  lemma MissedIsNew(env: Env, fate: Fate, st: State, texts: seq<string>)
    ensures st.store <= StoreAtRun(env, fate, st, texts)
    ensures Missed(env, fate, st, texts) <= StoreAtRun(env, fate, st, texts) - st.store
  {
    if Dies(fate, st) { LastIsWritten(env, texts, fate(st.sent).value.groups); }
    hide Written, LastGroup;
  }

  lemma {:induction false} LastIsWritten(env: Env, texts: seq<string>, g: nat)
    ensures LastGroup(env, texts, g) <= Written(env, texts, g)
  {
    if g > |Kinds(env, texts, |texts|)| { LastIsWritten(env, texts, g - 1); }
  }

  /** From the n-th request on, the server dies in the r-th. */
  ghost predicate FirstDeath(fate: Fate, n: nat, r: nat) {
    n <= r && fate(r).Some? && forall j: nat :: n <= j < r ==> fate(j).None?
  }

  /** The death in the r-th request falls between a group's commit and the extraction of all its facts. */
  ghost predicate DiesBetween(env: Env, fate: Fate, st: State, chunks: seq<seq<string>>, r: nat) {
    && st.sent <= r < st.sent + |chunks| && !st.local && FirstDeath(fate, st.sent, r)
    && FactsMissing(env, fate(r).value, chunks[r - st.sent], st.store + AllIds(env, chunks[..r - st.sent]))
  }

  /** Some id of the last group committed was new, and has no facts. */
  ghost predicate FactsMissing(env: Env, death: Death, chunk: seq<string>, store: Store) {
    death.missed * (LastGroup(env, Texts(env, chunk), death.groups) - store) != {}
  }

  /** All the facts of what an ingest stored are there if and only if no death falls between the two. */
  lemma FactsCompleteIff(env: Env, fate: Fate, before: Store, server: bool, chunks: seq<seq<string>>)
    ensures var st := Start(before, server);
      SendAll(env, fate, st, chunks).facts == SendAll(env, fate, st, chunks).store
      <==> forall r: nat :: !DiesBetween(env, fate, st, chunks, r)
  {
    var st := Start(before, server);
    LostFactsStayLost(env, fate, st, chunks);
    MissedIff(env, fate, st, chunks);
    var end := SendAll(env, fate, st, chunks);
    hide SendAll, AllMissed, DiesBetween;
    assert end.facts == end.store <==> end.store - end.facts == {};
  }

  lemma {:induction false} MissedIff(env: Env, fate: Fate, st: State, chunks: seq<seq<string>>)
    ensures AllMissed(env, fate, st, chunks) == {} <==> forall r: nat :: !DiesBetween(env, fate, st, chunks, r)
    decreases |chunks|
  {
    if chunks != [] {
      var next := SendChunk(env, fate, st, chunks[0]);
      MissedIff(env, fate, next, chunks[1..]);
      FirstBetween(env, fate, st, chunks);
      forall r: nat
        ensures DiesBetween(env, fate, next, chunks[1..], r) <==> r != st.sent && DiesBetween(env, fate, st, chunks, r)
      {
        LaterBetween(env, fate, st, chunks, r);
      }
      hide DiesBetween, SendChunk, Missed;
    }
  }

  lemma FirstBetween(env: Env, fate: Fate, st: State, chunks: seq<seq<string>>)
    requires chunks != []
    ensures DiesBetween(env, fate, st, chunks, st.sent) <==> Missed(env, fate, st, Texts(env, chunks[0])) != {}
  {
    assert chunks[..0] == [] && st.store + AllIds(env, []) == st.store;
    hide LastGroup, Texts;
  }

  lemma LaterBetween(env: Env, fate: Fate, st: State, chunks: seq<seq<string>>, r: nat)
    requires chunks != []
    ensures DiesBetween(env, fate, SendChunk(env, fate, st, chunks[0]), chunks[1..], r)
            <==> r != st.sent && DiesBetween(env, fate, st, chunks, r)
  {
    Sent(env, fate, st, chunks[0]);
    hide SendChunk, FactsMissing, AllIds, Texts, Ids, StoreAtRun, PartOf, AddPart, FirstDeath;
    var next := SendChunk(env, fate, st, chunks[0]);
    LaterDeath(fate, st.sent, r);
    if st.sent < r < st.sent + |chunks| {
      var k := r - st.sent;
      StoreLater(env, fate, st, chunks, k);
      assert r - next.sent == k - 1 && chunks[1..][k - 1] == chunks[k];
    }
  }

  lemma LaterDeath(fate: Fate, n: nat, r: nat)
    ensures fate(n).None? ==> (FirstDeath(fate, n + 1, r) <==> FirstDeath(fate, n, r))
    ensures fate(n).Some? && r != n ==> !FirstDeath(fate, n, r)
  {
  }

  lemma StoreLater(env: Env, fate: Fate, st: State, chunks: seq<seq<string>>, k: nat)
    requires 0 < k <= |chunks|
    ensures SendChunk(env, fate, st, chunks[0]).store + AllIds(env, chunks[1..][..k - 1]) ==
            st.store + AllIds(env, chunks[..k])
  {
    Sent(env, fate, st, chunks[0]);
    assert chunks[..k][0] == chunks[0] && chunks[..k][1..] == chunks[1..][..k - 1];
    hide SendChunk, Ids, Texts, StoreAtRun, PartOf, AddPart;
  }

  /** One line, committed just before the server dies: it is stored, and its facts are never extracted. */
  lemma FactsLost() returns (env: Env, fate: Fate, end: State)
    ensures end == SendAll(env, fate, Start({}, true), [["a"]]) && |end.store| == 1 && end.facts == {}
  {
    env := Env(s => s, _ => 1, _ => "", _ => true);
    var ids := Ids(env, ["a"]);
    fate := _ => Some(Death(1, ids));
    OneText(env, "a");
    OneGroup(env, "a");
    hide *;
    end := AllFactsLost(env, fate, ["a"]);
  }

  lemma AllFactsLost(env: Env, fate: Fate, chunk: seq<string>) returns (end: State)
    requires fate(0) == Some(Death(1, Ids(env, chunk))) && Texts(env, chunk) == chunk
    requires LastGroup(env, chunk, 1) == Ids(env, chunk)
    ensures end == SendAll(env, fate, Start({}, true), [chunk]) && end.store == Ids(env, chunk) && end.facts == {}
  {
    var st, chunks := Start({}, true), [chunk];
    end := SendAll(env, fate, st, chunks);
    LostFactsStayLost(env, fate, st, chunks);
    EveryScheduleStoresTheSame(env, fate, st, chunks);
    assert chunks[1..] == [];
    assert Missed(env, fate, st, chunk) == Ids(env, chunk);
    assert AllIds(env, chunks) == Ids(env, chunk) + AllIds(env, []) == Ids(env, chunk);
    assert Missed(env, fate, st, chunk) <= AllMissed(env, fate, st, chunks);
    hide SendAll, LastGroup, Ids, Texts, AllMissed, AllIds, Missed;
    assert end.store - end.facts == AllMissed(env, fate, st, chunks);
  }

  lemma OneGroup(env: Env, text: string)
    requires env.valid(text)
    ensures LastGroup(env, [text], 1) == Ids(env, [text]) && |Ids(env, [text])| == 1
  {
    var texts := [text];
    assert Kinds(env, texts, 0) == [];
    assert Kinds(env, texts, 1) == [env.kindOf(text)];
    assert GroupIds(env, texts, env.kindOf(text), 0) == {} == IdsBelow(env, texts, 0);
    hide IdAt;
  }

  // ----- the skipped count -----

  function Skips(env: Env, chunk: seq<string>): nat {
    ValidsAtMost(env, Texts(env, chunk));
    |Texts(env, chunk)| - Valids(env, Texts(env, chunk))
  }

  function AllSkips(env: Env, chunks: seq<seq<string>>): nat
    decreases |chunks|
  {
    if chunks == [] then 0 else Skips(env, chunks[0]) + AllSkips(env, chunks[1..])
  }

  /** Once a chunk skips a line, so does every later one. */
  ghost predicate SkipsToTheEnd(env: Env, chunks: seq<seq<string>>) {
    forall i, j :: 0 <= i < j < |chunks| && Skips(env, chunks[i]) > 0 ==> Skips(env, chunks[j]) > 0
  }

  /** The comment at client.py:198 has the counts add up.  The skipped count does not: a chunk that skips
      nothing reports no such key, and the sum so far is lost.  The total is right if and only if that
      never happens. */
  lemma {:induction false} SkippedIsTotalIff(env: Env, fate: Fate, st: State, chunks: seq<seq<string>>)
    ensures var end := SendAll(env, fate, st, chunks);
      Reported(end.result.skipped) == Reported(st.result.skipped) + AllSkips(env, chunks)
      <==> SkipsToTheEnd(env, chunks) && (Reported(st.result.skipped) > 0 ==>
                                            forall j :: 0 <= j < |chunks| ==> Skips(env, chunks[j]) > 0)
    ensures Reported(SendAll(env, fate, st, chunks).result.skipped) <=
              Reported(st.result.skipped) + AllSkips(env, chunks)
    decreases |chunks|
  {
    if chunks != [] {
      var next := SendChunk(env, fate, st, chunks[0]);
      SkippedIsTotalIff(env, fate, next, chunks[1..]);
      SkipsTail(env, chunks);
      SkipsAdded(env, fate, st, chunks[0]);
      hide Texts, PartOf, SendChunk, Skips;
    }
  }

  lemma SkipsAdded(env: Env, fate: Fate, st: State, chunk: seq<string>)
    ensures Reported(SendChunk(env, fate, st, chunk).result.skipped) ==
            if Skips(env, chunk) > 0 then Reported(st.result.skipped) + Skips(env, chunk) else 0
  {
    Sent(env, fate, st, chunk);
    hide SendChunk, Texts, Ids, StoreAtRun;
  }

  lemma SkipsTail(env: Env, chunks: seq<seq<string>>)
    requires chunks != []
    ensures SkipsToTheEnd(env, chunks) <==> SkipsToTheEnd(env, chunks[1..]) && (Skips(env, chunks[0]) > 0 ==>
      forall j :: 0 <= j < |chunks[1..]| ==> Skips(env, chunks[1..][j]) > 0)
  {
    assert forall j :: 0 < j < |chunks| ==> chunks[j] == chunks[1..][j - 1];
  }

  /** A chunk with a line the store refuses, then one without: the refused line is not reported. */
  lemma SkippedLost(fate: Fate, before: Store) returns (env: Env, lines: seq<string>)
    ensures var chunks := ChunksFrom(env, [], lines);
      && AllSkips(env, chunks) == 1
      && Reported(SendAll(env, fate, Start(before, true), chunks).result.skipped) == 0
  {
    env := Env(s => s, _ => INGEST_CHUNK_BYTES, _ => "", s => s != "bad");
    lines := ["bad", "ok"];
    TwoChunks(env);
    OneText(env, "bad");
    OneText(env, "ok");
    SecondForgets(env, fate, Start(before, true), ["bad"], ["ok"]);
  }

  lemma SecondForgets(env: Env, fate: Fate, st: State, first: seq<string>, second: seq<string>)
    requires Skips(env, first) == 1 && Skips(env, second) == 0 && Reported(st.result.skipped) == 0
    ensures AllSkips(env, [first, second]) == 1
    ensures Reported(SendAll(env, fate, st, [first, second]).result.skipped) == 0
  {
    var chunks := [first, second];
    assert chunks[1..] == [second] && [second][1..] == [];
    assert AllSkips(env, [second]) == Skips(env, second) + AllSkips(env, [second][1..]);
    SkipsAdded(env, fate, st, first);
    SkipsAdded(env, fate, SendChunk(env, fate, st, first), second);
    hide Skips, SendChunk;
    FirstSent(env, fate, st, first, [second]);
    FirstSent(env, fate, SendChunk(env, fate, st, first), second, []);
    assert [first] + [second] == chunks && [second] + [] == [second];
  }

  lemma TwoChunks(env: Env)
    requires env.bytes("bad") == env.bytes("ok") == INGEST_CHUNK_BYTES
    ensures ChunksFrom(env, [], ["bad", "ok"]) == [["bad"], ["ok"]]
  {
    var lines := ["bad", "ok"];
    SizePush(env, [], "bad");
    assert [] + ["bad"] == ["bad"];
    assert lines[1..] == ["ok"] && lines[1..][1..] == [];
    assert ChunksFrom(env, ["ok"], lines[1..][1..]) == [["ok"]];
    assert ChunksFrom(env, ["bad"], lines[1..]) == [["bad"]] + ChunksFrom(env, ["ok"], lines[1..][1..]);
  }

  lemma OneText(env: Env, line: string)
    requires env.strip(line) == line != ""
    ensures Texts(env, [line]) == [line] && Valids(env, [line]) == if env.valid(line) then 1 else 0
  {
    assert [line][..0] == [];
    assert Texts(env, [line][..0]) == [] && Valids(env, [line][..0]) == 0;
  }
}
